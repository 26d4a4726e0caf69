/** The plate calculation engine and its formatters (calculations.py). */
module Calculations {
  import opened Wrappers
  import opened Dicts
  import opened Config
  import opened Sorting
  import opened Text

  /** `kg_to_lb` and `lb_to_kg`: floating-point conversions of hundredths, rounded to an
    * integer. They are supplied by the caller and nothing is assumed about them. */
  datatype Conversions = Conversions(kgToLb: int -> int, lbToKg: int -> int)

  /** Python's floor division `a // b`. Its bounds are FloorDivBounds. */
  function FloorDiv(a: int, b: int): int
    requires b != 0
  {
    if b > 0 then a / b else (-a) / (-b)
  }

  /** `a // b` is the integer that rounds `a / b` toward negative infinity. */
  lemma FloorDivBounds(a: int, b: int)
    requires b != 0
    ensures b > 0 ==> FloorDiv(a, b) * b <= a < FloorDiv(a, b) * b + b
    ensures b < 0 ==> FloorDiv(a, b) * b >= a > FloorDiv(a, b) * b + b
  {
    if b < 0 {
      var q := (-a) / (-b);
      assert q * (-b) <= -a < q * (-b) + (-b);
    }
  }

  /** The target in hundredths of the output unit: `weight * 100`, converted when the units differ. */
  function Hundredths(weight: int, units: (string, string), conv: Conversions): int
  {
    var w := weight * 100;
    if units.0 == units.1 then w
    else if units.0 == "KG" then conv.kgToLb(w)
    else conv.lbToKg(w)
  }

  /** A plate as the engine uses it: its label and its value in hundredths. */
  type Plate = (string, int)

  /** The enabled plates as `(label, value)` pairs, in dictionary order. */
  function EnabledPlates(plates: Dict<Denomination>): (r: seq<Plate>)
    ensures |r| == |EnabledNames(plates)|
  {
    if plates == [] then []
    else (if plates[0].1.using then [(plates[0].0, plates[0].1.value)] else []) + EnabledPlates(plates[1..])
  }

  /** Every pair among EnabledPlates is an enabled entry of the dictionary. */
  lemma {:induction false} EnabledPlatesSound(plates: Dict<Denomination>, p: Plate)
    requires p in EnabledPlates(plates)
    ensures exists i :: 0 <= i < |plates| && plates[i].0 == p.0 && plates[i].1 == Denomination(true, p.1)
  {
    if plates != [] && p in EnabledPlates(plates[1..]) {
      EnabledPlatesSound(plates[1..], p);
      var i :| 0 <= i < |plates[1..]| && plates[1..][i].0 == p.0 && plates[1..][i].1 == Denomination(true, p.1);
      assert plates[i + 1] == plates[1..][i];
    }
  }

  function PlateValue(p: Plate): int { p.1 }

  /** `used_plates`: the enabled plates, largest first (a stable sort, as Python's). */
  function UsedPlates(plates: Dict<Denomination>): seq<Plate>
  {
    SortDesc(EnabledPlates(plates), PlateValue)
  }

  /** The used plates are the enabled ones, reordered, largest first. */
  lemma UsedPlatesSorted(plates: Dict<Denomination>)
    ensures SortedDesc(UsedPlates(plates), PlateValue)
    ensures multiset(UsedPlates(plates)) == multiset(EnabledPlates(plates))
    ensures |UsedPlates(plates)| == |EnabledNames(plates)|
  {
    SortDescSorted(EnabledPlates(plates), PlateValue);
    SortDescPermutation(EnabledPlates(plates), PlateValue);
  }

  predicate NoZeroPlate(used: seq<Plate>) { forall i :: 0 <= i < |used| ==> used[i].1 != 0 }

  /** One recorded step of the greedy loop. */
  datatype Pick = Pick(count: int, name: string, value: int)

  /** The steps of the greedy loop that record a count, starting with `w` hundredths left. */
  function GreedyPicks(used: seq<Plate>, w: int): seq<Pick>
    requires NoZeroPlate(used)
  {
    if used == [] then []
    else
      var c := FloorDiv(w, used[0].1);
      (if c > 0 then [Pick(c, used[0].0, used[0].1)] else []) + GreedyPicks(used[1..], w - c * used[0].1)
  }

  /** What is left of `w` after the greedy loop. */
  function GreedyLeft(used: seq<Plate>, w: int): int
    requires NoZeroPlate(used)
  {
    if used == [] then w
    else GreedyLeft(used[1..], w - FloorDiv(w, used[0].1) * used[0].1)
  }

  /** The `(count, label)` pairs of the recorded steps. */
  function Counts(picks: seq<Pick>): (r: seq<(int, string)>)
    ensures |r| == |picks|
    ensures forall i :: 0 <= i < |picks| ==> r[i] == (picks[i].count, picks[i].name)
  {
    if picks == [] then [] else [(picks[0].count, picks[0].name)] + Counts(picks[1..])
  }

  /** The weight the recorded steps load on one side. */
  function Load(picks: seq<Pick>): int
  {
    if picks == [] then 0 else picks[0].value * picks[0].count + Load(picks[1..])
  }

  /** The engine's answer: the plates for one side and the achievable end weight in hundredths. */
  datatype Plan = Plan(counts: seq<(int, string)>, endWeight: int)

  /** The per-side weight before the collar is taken off: half of what the bar does not carry, floored. */
  function PerSide(w: int, u: UnitWeights): int
  {
    (w - u.bar * 100) / 2
  }

  lemma MultipleMod(q: int, s: int)
    requires s > 0
    ensures (q * s) % s == 0
  {
    var a := q * s;
    var k := q - a / s;
    assert a == s * (a / s) + a % s;
    assert s * k == a % s;
    assert k >= 1 ==> s * k >= s * 1;
    assert k <= -1 ==> s * k <= s * -1;
  }

  /** The per-side remainder rounded half up to a multiple of the smallest plate `s`. */
  function RoundToPlate(w: int, s: int): (r: int)
    requires s != 0
    ensures s > 0 ==> r % s == 0 && w + s / 2 - s < r <= w + s / 2
    ensures s > 0 && w >= 0 ==> r >= 0
  {
    var q := FloorDiv(w + FloorDiv(s, 2), s);
    assert s > 0 ==> (q * s) % s == 0 && w + s / 2 - s < q * s <= w + s / 2 by {
      if s > 0 { MultipleMod(q, s); FloorDivBounds(w + FloorDiv(s, 2), s); }
    }
    q * s
  }

  /** `get_plate_counts(weight, units, ...)` as a function of the configuration. */
  function PlateCounts(weight: int, units: (string, string), weights: Dict<UnitWeights>, conv: Conversions): Result<Plan>
  {
    match Get(weights, units.1)
    case None => Err(KeyError)
    case Some(u) => UnitPlateCounts(Hundredths(weight, units, conv), u)
  }

  /** The engine once the output unit's configuration `u` is found; `w` is the target in hundredths. */
  function UnitPlateCounts(w: int, u: UnitWeights): Result<Plan>
  {
    var side := PerSide(w, u);
    if side < u.collar then Ok(Plan([], u.bar * 100)) else LoadPlates(side - u.collar, u)
  }

  /** The plates for `rest` hundredths per side (collar already taken off), and the end weight. */
  function LoadPlates(rest: int, u: UnitWeights): Result<Plan>
  {
    var used := UsedPlates(u.plates);
    if used == [] then Err(IndexError)
    else if !NoZeroPlate(used) then Err(ZeroDivisionError)
    else
      var picks := GreedyPicks(used, RoundToPlate(rest, used[|used| - 1].1));
      Ok(Plan(Counts(picks), 2 * Load(picks) + u.bar * 100 + 2 * u.collar))
  }

  /** The loop of get_plate_counts from step `i` on agrees with GreedyPicks. */
  lemma GreedyStep(used: seq<Plate>, i: nat, w: int)
    requires NoZeroPlate(used) && i < |used|
    ensures NoZeroPlate(used[i..]) && NoZeroPlate(used[i + 1..])
    ensures var c := FloorDiv(w, used[i].1);
      && GreedyPicks(used[i..], w) == (if c > 0 then [Pick(c, used[i].0, used[i].1)] else []) + GreedyPicks(used[i + 1..], w - c * used[i].1)
  {
    assert used[i..][1..] == used[i + 1..];
  }

  lemma GreedyInvariantStep(used: seq<Plate>, target: int, i: nat, picks: seq<Pick>, w: int)
    requires NoZeroPlate(used) && i < |used|
    requires picks + GreedyPicks(used[i..], w) == GreedyPicks(used, target)
    ensures NoZeroPlate(used[i + 1..])
    ensures var c := FloorDiv(w, used[i].1);
      (if c > 0 then picks + [Pick(c, used[i].0, used[i].1)] else picks) + GreedyPicks(used[i + 1..], w - c * used[i].1)
        == GreedyPicks(used, target)
  {
    GreedyStep(used, i, w);
    var c := FloorDiv(w, used[i].1);
    var rest := GreedyPicks(used[i + 1..], w - c * used[i].1);
    if c > 0 { assert picks + ([Pick(c, used[i].0, used[i].1)] + rest) == (picks + [Pick(c, used[i].0, used[i].1)]) + rest; }
    else { assert [] + rest == rest; }
  }

  lemma LoadAppend(a: seq<Pick>, b: seq<Pick>)
    ensures Load(a + b) == Load(a) + Load(b)
  {
    if a == [] { assert a + b == b; }
    else { assert (a + b)[0] == a[0] && (a + b)[1..] == a[1..] + b; LoadAppend(a[1..], b); }
  }

  lemma CountsAppend(a: seq<Pick>, b: seq<Pick>)
    ensures Counts(a + b) == Counts(a) + Counts(b)
  {
  }

  /** The loop of `get_plate_counts`: for each plate, largest first, take as many as fit
    * into what is left, and record the count when it is positive. Returns the recorded
    * `(count, label)` pairs and the weight they load on one side. */
  method AssignPlates(used: seq<Plate>, target: int) returns (r: Result<(seq<(int, string)>, int)>)
    ensures NoZeroPlate(used) ==> r == Ok((Counts(GreedyPicks(used, target)), Load(GreedyPicks(used, target))))
    ensures !NoZeroPlate(used) ==> r == Err(ZeroDivisionError)
  {
    var w := target;
    var counts: seq<(int, string)> := [];
    var load := 0;
    ghost var picks: seq<Pick> := [];
    var i := 0;
    while i < |used|
      invariant 0 <= i <= |used|
      invariant forall j :: 0 <= j < i ==> used[j].1 != 0
      invariant counts == Counts(picks)
      invariant load == Load(picks)
      invariant NoZeroPlate(used) ==> picks + GreedyPicks(used[i..], w) == GreedyPicks(used, target)
    {
      if used[i].1 == 0 { return Err(ZeroDivisionError); }
      if NoZeroPlate(used) { GreedyInvariantStep(used, target, i, picks, w); }
      var count := FloorDiv(w, used[i].1);
      w := w - count * used[i].1;
      if count > 0 {
        ghost var step := [Pick(count, used[i].0, used[i].1)];
        LoadAppend(picks, step);
        CountsAppend(picks, step);
        counts := counts + [(count, used[i].0)];
        load := load + used[i].1 * count;
        picks := picks + step;
      }
      i := i + 1;
    }
    assert used[|used|..] == [];
    assert NoZeroPlate(used) ==> GreedyPicks(used[|used|..], w) == [];
    assert NoZeroPlate(used) ==> picks == GreedyPicks(used, target) by {
      if NoZeroPlate(used) { assert picks + [] == picks; }
    }
    r := Ok((counts, load));
  }

  /** `get_plate_counts`: reassigns the weight step by step as the source does, and returns PlateCounts. */
  method GetPlateCounts(weight: int, units: (string, string), weights: Dict<UnitWeights>, conv: Conversions)
    returns (r: Result<Plan>)
    ensures r == PlateCounts(weight, units, weights, conv)
  {
    var w := weight * 100;
    if units.0 != units.1 {
      if units.0 == "KG" { w := conv.kgToLb(w); } else { w := conv.lbToKg(w); }
    }
    assert w == Hundredths(weight, units, conv);
    var unit := Get(weights, units.1);
    if unit.None? { return Err(KeyError); }
    r := GetUnitPlateCounts(w, unit.value);
  }

  /** The rest of `get_plate_counts` once the unit's weights are looked up. */
  method GetUnitPlateCounts(weight: int, u: UnitWeights) returns (r: Result<Plan>)
    ensures r == UnitPlateCounts(weight, u)
  {
    var barWeight, collarWeight, plateList := u.bar, u.collar, u.plates;
    var w := weight - barWeight * 100;
    w := w / 2;
    assert w == PerSide(weight, u);
    if w < collarWeight {
      return Ok(Plan([], barWeight * 100));
    }
    w := w - collarWeight;
    var used := UsedPlates(plateList);
    if |used| == 0 { return Err(IndexError); }
    var smallest := used[|used| - 1].1;
    if smallest == 0 { return Err(ZeroDivisionError); }
    w := RoundToPlate(w, smallest);
    var loaded := AssignPlates(used, w);
    if loaded.Err? { return Err(loaded.error); }
    var (counts, endWeight) := loaded.value;
    endWeight := endWeight * 2;
    endWeight := endWeight + barWeight * 100;
    endWeight := endWeight + collarWeight * 2;
    r := Ok(Plan(counts, endWeight));
  }

  /** Every enabled plate is among EnabledPlates, with its value. */
  lemma {:induction false} EnabledPlatesComplete(plates: Dict<Denomination>, i: int)
    requires 0 <= i < |plates| && plates[i].1.using
    ensures (plates[i].0, plates[i].1.value) in EnabledPlates(plates)
    decreases i
  {
    if i > 0 {
      EnabledPlatesComplete(plates[1..], i - 1);
      assert plates[1..][i - 1] == plates[i];
    }
  }

  /** `used_plates` holds exactly the enabled plates with their values. */
  lemma UsedPlatesMembers(plates: Dict<Denomination>, p: Plate)
    ensures p in UsedPlates(plates) <==> exists i :: 0 <= i < |plates| && plates[i].0 == p.0 && plates[i].1 == Denomination(true, p.1)
  {
    var used := UsedPlates(plates);
    UsedPlatesSorted(plates);
    assert p in used <==> p in multiset(used);
    assert p in EnabledPlates(plates) <==> p in multiset(EnabledPlates(plates));
    if p in EnabledPlates(plates) { EnabledPlatesSound(plates, p); }
    if exists i :: 0 <= i < |plates| && plates[i].0 == p.0 && plates[i].1 == Denomination(true, p.1) {
      var i :| 0 <= i < |plates| && plates[i].0 == p.0 && plates[i].1 == Denomination(true, p.1);
      EnabledPlatesComplete(plates, i);
    }
  }

  predicate PositivePlates(used: seq<Plate>) { forall i :: 0 <= i < |used| ==> used[i].1 > 0 }

  /** Some enabled plate weighs nothing. */
  predicate HasZeroPlate(plates: Dict<Denomination>) {
    exists i :: 0 <= i < |plates| && plates[i].1 == Denomination(true, 0)
  }

  lemma UsedPlatesPositive(u: UnitWeights)
    requires PlatesUsable(u)
    ensures UsedPlates(u.plates) != [] && PositivePlates(UsedPlates(u.plates))
  {
    var used := UsedPlates(u.plates);
    UsedPlatesSorted(u.plates);
    forall k | 0 <= k < |used| ensures used[k].1 > 0 {
      UsedPlatesMembers(u.plates, used[k]);
    }
  }

  /** Every step records a positive count of one of the plates. */
  predicate PicksFrom(picks: seq<Pick>, used: seq<Plate>) {
    forall k :: 0 <= k < |picks| ==> picks[k].count > 0 && (picks[k].name, picks[k].value) in used
  }

  /** The recorded plate values never increase. */
  predicate PicksDescending(picks: seq<Pick>) {
    forall i, j :: 0 <= i < j < |picks| ==> picks[i].value >= picks[j].value
  }

  lemma NoZeroPlateTail(used: seq<Plate>)
    requires NoZeroPlate(used) && used != []
    ensures NoZeroPlate(used[1..])
  {
    forall k | 0 <= k < |used[1..]| ensures used[1..][k].1 != 0 { assert used[1..][k] == used[k + 1]; }
  }

  /** Each recorded step has a positive count of one of the plates. */
  lemma {:induction false} GreedyPicksFrom(used: seq<Plate>, w: int)
    requires NoZeroPlate(used)
    ensures PicksFrom(GreedyPicks(used, w), used)
    decreases |used|
  {
    if used != [] {
      var c := FloorDiv(w, used[0].1);
      var tail := used[1..];
      NoZeroPlateTail(used);
      GreedyPicksFrom(tail, w - c * used[0].1);
      var rest := GreedyPicks(tail, w - c * used[0].1);
      var head := if c > 0 then [Pick(c, used[0].0, used[0].1)] else [];
      assert GreedyPicks(used, w) == head + rest;
      forall k | 0 <= k < |rest| ensures (rest[k].name, rest[k].value) in used {
        var j :| 0 <= j < |tail| && tail[j] == (rest[k].name, rest[k].value);
        assert used[j + 1] == tail[j];
      }
    }
  }

  lemma PicksDescendingCons(p: Pick, rest: seq<Pick>)
    requires PicksDescending(rest)
    requires forall k :: 0 <= k < |rest| ==> p.value >= rest[k].value
    ensures PicksDescending([p] + rest)
  {
    var r := [p] + rest;
    forall i, j | 0 <= i < j < |r| ensures r[i].value >= r[j].value {
      assert r[j] == rest[j - 1];
      if i > 0 { assert r[i] == rest[i - 1]; }
    }
  }

  /** On plates sorted largest first, the recorded plate values never increase. */
  lemma {:induction false} GreedyPicksDescending(used: seq<Plate>, w: int)
    requires NoZeroPlate(used) && SortedDesc(used, PlateValue)
    ensures PicksDescending(GreedyPicks(used, w))
    decreases |used|
  {
    if used != [] {
      var v := used[0].1;
      var c := FloorDiv(w, v);
      var w' := w - c * v;
      var tail := used[1..];
      NoZeroPlateTail(used);
      SortedDescTail(used, PlateValue);
      var rest := GreedyPicks(tail, w');
      assert PicksDescending(rest) by { GreedyPicksDescending(tail, w'); }
      assert forall k :: 0 <= k < |rest| ==> v >= rest[k].value by {
        GreedyPicksFrom(tail, w');
        forall k | 0 <= k < |rest| ensures v >= rest[k].value {
          var j :| 0 <= j < |tail| && tail[j] == (rest[k].name, rest[k].value);
          assert PlateValue(used[0]) >= PlateValue(used[j + 1]);
        }
      }
      if c > 0 {
        assert GreedyPicks(used, w) == [Pick(c, used[0].0, v)] + rest;
        PicksDescendingCons(Pick(c, used[0].0, v), rest);
      } else {
        assert GreedyPicks(used, w) == [] + rest == rest;
      }
    }
  }

  lemma FloorDivStep(w: int, v: int)
    requires w >= 0 && v > 0
    ensures FloorDiv(w, v) >= 0 && 0 <= w - FloorDiv(w, v) * v < v
  {
    var c := FloorDiv(w, v);
    FloorDivBounds(w, v);
    assert c <= -1 ==> c * v <= -1 * v;
  }

  lemma PositivePlatesTail(used: seq<Plate>)
    requires PositivePlates(used) && used != []
    ensures PositivePlates(used[1..]) && NoZeroPlate(used)
  {
    forall k | 0 <= k < |used[1..]| ensures used[1..][k].1 > 0 { assert used[1..][k] == used[k + 1]; }
  }

  /** On positive plates and a non-negative start, less than the smallest (last) plate is
    * left over, and never a negative amount. */
  lemma {:induction false} GreedyLeftBounds(used: seq<Plate>, w: int)
    requires PositivePlates(used) && w >= 0
    ensures NoZeroPlate(used)
    ensures 0 <= GreedyLeft(used, w)
    ensures used != [] ==> GreedyLeft(used, w) < used[|used| - 1].1
    decreases |used|
  {
    if used != [] {
      var v := used[0].1;
      FloorDivStep(w, v);
      PositivePlatesTail(used);
      GreedyLeftBounds(used[1..], w - FloorDiv(w, v) * v);
      if |used| > 1 { assert used[1..][|used| - 2] == used[|used| - 1]; }
    }
  }

  /** On positive plates and a non-negative start, the recorded steps load exactly what
    * the loop takes off the start. */
  lemma {:induction false} GreedyBalance(used: seq<Plate>, w: int)
    requires PositivePlates(used) && w >= 0
    ensures NoZeroPlate(used)
    ensures Load(GreedyPicks(used, w)) + GreedyLeft(used, w) == w
    decreases |used|
  {
    if used != [] {
      var v := used[0].1;
      var c := FloorDiv(w, v);
      var w' := w - c * v;
      FloorDivStep(w, v);
      PositivePlatesTail(used);
      GreedyBalance(used[1..], w');
      var rest := GreedyPicks(used[1..], w');
      assert GreedyLeft(used, w) == GreedyLeft(used[1..], w');
      if c > 0 {
        var step := [Pick(c, used[0].0, v)];
        LoadAppend(step, rest);
        assert step[1..] == [];
        assert Load(step) == v * c;
        assert GreedyPicks(used, w) == step + rest;
      } else {
        assert c == 0 && w' == w;
        assert GreedyPicks(used, w) == [] + rest == rest;
      }
    }
  }

  /** With usable plates and a non-negative remainder the engine always answers: the target is
    * a non-negative multiple of the smallest plate `s`, every count is positive, the plates
    * come largest first, one side carries at most the target and less than `s` under it, and
    * the end weight is both sides plus the bar (whole units) and two collars. */
  lemma LoadPlatesUsable(rest: int, u: UnitWeights)
    requires rest >= 0 && PlatesUsable(u)
    ensures LoadPlates(rest, u).Ok?
    ensures var used := UsedPlates(u.plates);
      var s := used[|used| - 1].1;
      var target := RoundToPlate(rest, s);
      var picks := GreedyPicks(used, target);
      && s > 0 && target >= 0 && target % s == 0
      && PicksFrom(picks, used) && PicksDescending(picks)
      && Load(picks) <= target < Load(picks) + s
      && LoadPlates(rest, u).value == Plan(Counts(picks), 2 * Load(picks) + u.bar * 100 + 2 * u.collar)
  {
    var used := UsedPlates(u.plates);
    assert used != [] && PositivePlates(used) by { UsedPlatesPositive(u); }
    assert NoZeroPlate(used);
    var s := used[|used| - 1].1;
    var target := RoundToPlate(rest, s);
    var picks := GreedyPicks(used, target);
    assert PicksFrom(picks, used) by { GreedyPicksFrom(used, target); }
    assert PicksDescending(picks) by { UsedPlatesSorted(u.plates); GreedyPicksDescending(used, target); }
    assert Load(picks) <= target < Load(picks) + s by { GreedyLeftBounds(used, target); GreedyBalance(used, target); }
  }

  lemma NoZeroPlateIff(plates: Dict<Denomination>)
    ensures NoZeroPlate(UsedPlates(plates)) <==> !HasZeroPlate(plates)
  {
    var used := UsedPlates(plates);
    if !NoZeroPlate(used) {
      var k :| 0 <= k < |used| && used[k].1 == 0;
      UsedPlatesMembers(plates, used[k]);
    }
    if HasZeroPlate(plates) {
      var i :| 0 <= i < |plates| && plates[i].1 == Denomination(true, 0);
      UsedPlatesMembers(plates, (plates[i].0, 0));
      var k :| 0 <= k < |used| && used[k] == (plates[i].0, 0);
    }
  }

  /** The engine's two failures: IndexError exactly when no plate is enabled, and
    * ZeroDivisionError exactly when plates are enabled and one of them weighs nothing. */
  lemma LoadPlatesFailures(rest: int, u: UnitWeights)
    ensures LoadPlates(rest, u) == Err(IndexError) <==> EnabledNames(u.plates) == []
    ensures LoadPlates(rest, u) == Err(ZeroDivisionError) <==> EnabledNames(u.plates) != [] && HasZeroPlate(u.plates)
    ensures LoadPlates(rest, u).Ok? <==> EnabledNames(u.plates) != [] && !HasZeroPlate(u.plates)
  {
    NoZeroPlateIff(u.plates);
  }

  /** KeyError exactly when the output unit is missing from the weights. */
  lemma PlateCountsKeyError(weight: int, units: (string, string), weights: Dict<UnitWeights>, conv: Conversions)
    ensures PlateCounts(weight, units, weights, conv) == Err(KeyError) <==> !HasKey(weights, units.1)
  {
  }

  /** When half of what the bar does not carry is below one collar: no plates, and the bar alone. */
  lemma PlateCountsBelowCollar(weight: int, units: (string, string), weights: Dict<UnitWeights>, conv: Conversions, u: UnitWeights)
    requires Get(weights, units.1) == Some(u)
    requires (Hundredths(weight, units, conv) - u.bar * 100) / 2 < u.collar
    ensures PlateCounts(weight, units, weights, conv) == Ok(Plan([], u.bar * 100))
  {
  }

  /** The default KG plates, all enabled, already largest first. */
  const KgPlates: seq<Plate> := [("25", 2500), ("20", 2000), ("15", 1500), ("10", 1000), ("5", 500), ("2.5", 250), ("1.25", 125)]

  lemma KgUsedPlates(p: Dict<Denomination>)
    requires p == KgWeights.plates
    ensures UsedPlates(p) == KgPlates
  {
    assert EnabledPlates(p[7..]) == [];
    assert EnabledPlates(p[6..]) == KgPlates[6..];
    assert EnabledPlates(p[5..]) == KgPlates[5..];
    assert EnabledPlates(p[4..]) == KgPlates[4..];
    assert EnabledPlates(p[3..]) == KgPlates[3..];
    assert EnabledPlates(p[2..]) == KgPlates[2..];
    assert EnabledPlates(p[1..]) == KgPlates[1..];
    assert EnabledPlates(p) == KgPlates;
    assert SortedDesc(KgPlates, PlateValue);
    SortDescOfSorted(KgPlates, PlateValue);
  }

  lemma LoadPlatesOf(rest: int, u: UnitWeights, used: seq<Plate>, target: int, picks: seq<Pick>)
    requires UsedPlates(u.plates) == used && used != [] && NoZeroPlate(used)
    requires RoundToPlate(rest, used[|used| - 1].1) == target && GreedyPicks(used, target) == picks
    ensures LoadPlates(rest, u) == Ok(Plan(Counts(picks), 2 * Load(picks) + u.bar * 100 + 2 * u.collar))
  {
  }

  /** One side of 40.00 KG on the default KG configuration. */
  lemma KgLoadExample(u: UnitWeights)
    requires u == KgWeights
    ensures LoadPlates(4000, u) == Ok(Plan([(1, "25"), (1, "15")], 10000))
  {
    var used := UsedPlates(u.plates);
    assert used == KgPlates by { KgUsedPlates(u.plates); }
    assert RoundToPlate(4000, 125) == 4000 by {
      assert FloorDiv(125, 2) == 62 && FloorDiv(4062, 125) == 32;
    }
    var picks := [Pick(1, "25", 2500), Pick(1, "15", 1500)];
    assert NoZeroPlate(used) && GreedyPicks(used, 4000) == picks by { GreedyTail(used, 4000); }
    assert Counts(picks) == [(1, "25"), (1, "15")] && Load(picks) == 4000;
    LoadPlatesOf(4000, u, used, 4000, picks);
  }

  /** 100 KG on the default KG configuration: one 25 and one 15 per side, 100.00 KG in all. */
  lemma HundredKgExample(conv: Conversions, weights: Dict<UnitWeights>)
    requires weights == [("LB", LbWeights), ("KG", KgWeights)]
    ensures PlateCounts(100, ("KG", "KG"), weights, conv) == Ok(Plan([(1, "25"), (1, "15")], 10000))
  {
    assert Get(weights, "KG") == Some(KgWeights);
    var u := Get(weights, "KG").value;
    assert Hundredths(100, ("KG", "KG"), conv) == 10000;
    assert PerSide(10000, u) == 4000;
    KgLoadExample(u);
  }

  /** The greedy loop for 40.00 per side on the default KG plates. */
  lemma GreedyTail(used: seq<Plate>, w: int)
    requires used == KgPlates && w == 4000
    ensures NoZeroPlate(used) && GreedyPicks(used, w) == [Pick(1, "25", 2500), Pick(1, "15", 1500)]
  {
    assert FloorDiv(4000, 2500) == 1 && FloorDiv(1500, 2000) == 0 && FloorDiv(1500, 1500) == 1;
    assert FloorDiv(0, 1000) == 0 && FloorDiv(0, 500) == 0 && FloorDiv(0, 250) == 0 && FloorDiv(0, 125) == 0;
    assert GreedyPicks(used[6..], 0) == [];
    assert GreedyPicks(used[5..], 0) == [];
    assert GreedyPicks(used[4..], 0) == [];
    assert GreedyPicks(used[3..], 0) == [];
    assert GreedyPicks(used[2..], 1500) == [Pick(1, "15", 1500)];
    assert GreedyPicks(used[1..], 1500) == [Pick(1, "15", 1500)];
  }

  /** 10 KG does not cover the 20 KG bar: no plates, and the bar alone. */
  lemma BelowBarExample(conv: Conversions)
    ensures PlateCounts(10, ("KG", "KG"), [("LB", LbWeights), ("KG", KgWeights)], conv) == Ok(Plan([], 2000))
  {
    var weights := [("LB", LbWeights), ("KG", KgWeights)];
    assert Get(weights, "KG") == Some(KgWeights);
    assert Hundredths(10, ("KG", "KG"), conv) == 1000;
    assert PerSide(1000, KgWeights) == -500;
  }

  /** `format_hundredths_weight` as written: the last case prints the hundredths with an
    * unpadded `%d`, so 123.05 comes out as "123.5". */
  function FormatHundredthsAsWritten(weight: int): (s: string)
    ensures '.' in s <==> weight % 100 != 0
  {
    if weight % 100 == 0 then IntToString(weight / 100)
    else if weight % 10 == 0 then IntToString(weight / 100) + "." + IntToString(weight % 100 / 10)
    else IntToString(weight / 100) + "." + IntToString(weight % 100)
  }

  /** 123.05 and 123.50 print the same. */
  lemma FormatHundredthsAsWrittenCollides()
    ensures FormatHundredthsAsWritten(12305) == "123.5"
    ensures FormatHundredthsAsWritten(12350) == "123.5"
  {
    assert NatToString(123) == "123" by {
      assert NatToString(12) == "12" by { assert NatToString(1) == "1"; }
    }
    assert NatToString(5) == "5";
  }

  /** The source's documented values, for the function as written. */
  lemma FormatHundredthsAsWrittenExamples()
    ensures FormatHundredthsAsWritten(12300) == "123"
    ensures FormatHundredthsAsWritten(12350) == "123.5"
    ensures FormatHundredthsAsWritten(12345) == "123.45"
  {
    assert NatToString(123) == "123" by {
      assert NatToString(12) == "12" by { assert NatToString(1) == "1"; }
    }
    assert NatToString(5) == "5";
    assert NatToString(45) == "45" by { assert NatToString(4) == "4"; }
  }

  /** `"%02d" % n`. */
  function TwoDigits(n: int): (s: string)
    requires 0 <= n < 100
    ensures |s| == 2 && IsDigit(s[0]) && IsDigit(s[1])
  {
    [DigitChar(n / 10), DigitChar(n % 10)]
  }

  /** `format_hundredths_weight` as intended: the whole units, then the tenths when the
    * hundredths are a multiple of ten, else two digits of hundredths. */
  function FormatHundredths(weight: int): string
  {
    if weight % 100 == 0 then IntToString(weight / 100)
    else if weight % 10 == 0 then IntToString(weight / 100) + "." + IntToString(weight % 100 / 10)
    else IntToString(weight / 100) + "." + TwoDigits(weight % 100)
  }

  predicate AllDigits(s: string) { forall i :: 0 <= i < |s| ==> IsDigit(s[i]) }

  /** The position of the first '.', or the length when there is none. */
  function DotIndex(s: string): (i: nat)
    ensures i <= |s| && (i < |s| ==> s[i] == '.')
  {
    if s == [] then 0 else if s[0] == '.' then 0 else 1 + DotIndex(s[1..])
  }

  lemma {:induction false} DotIndexAfterDigits(a: string, b: string)
    requires AllDigits(a)
    ensures DotIndex(a + b) == |a| + DotIndex(b)
  {
    if a != [] {
      assert (a + b)[1..] == a[1..] + b;
      DotIndexAfterDigits(a[1..], b);
    } else {
      assert a + b == b;
    }
  }

  /** Reads a weight printed as whole units with an optional one- or two-digit fraction. */
  function ParseHundredths(s: string): Option<int>
  {
    var i := DotIndex(s);
    if i == |s| then ReadParts(s, None) else ReadParts(s[..i], Some(s[i + 1..]))
  }

  /** The value of whole units and, after a dot, tenths or hundredths. */
  function ReadParts(whole: string, frac: Option<string>): Option<int>
  {
    if whole == [] || !AllDigits(whole) then None
    else if frac.None? then Some(ParseNat(whole) * 100)
    else if |frac.value| == 1 && AllDigits(frac.value) then Some(ParseNat(whole) * 100 + ParseNat(frac.value) * 10)
    else if |frac.value| == 2 && AllDigits(frac.value) then Some(ParseNat(whole) * 100 + ParseNat(frac.value))
    else None
  }

  lemma ParseTwoDigits(n: int)
    requires 0 <= n < 100
    ensures ParseNat(TwoDigits(n)) == n
  {
    var s := TwoDigits(n);
    assert s[..1] == [DigitChar(n / 10)];
    assert [DigitChar(n / 10)][..0] == [];
    assert ParseNat(s[..1]) == n / 10;
    assert ParseNat(s) == 10 * (n / 10) + n % 10;
  }

  lemma ParseOneDigit(n: nat)
    requires n < 10
    ensures NatToString(n) == [DigitChar(n)] && ParseNat(NatToString(n)) == n
  {
    assert [DigitChar(n)][..0] == [];
  }

  /** A printed whole number reads back as that many hundred hundredths. */
  lemma ParseWhole(q: nat)
    ensures ParseHundredths(NatToString(q)) == Some(q * 100)
  {
    var head := NatToString(q);
    ParseNatToString(q);
    DotIndexAfterDigits(head, "");
    assert head + "" == head;
    assert head[..|head|] == head;
  }

  lemma ReadFraction(q: nat, tail: string)
    requires AllDigits(tail) && 1 <= |tail| <= 2
    ensures ReadParts(NatToString(q), Some(tail))
      == Some(q * 100 + (if |tail| == 1 then ParseNat(tail) * 10 else ParseNat(tail)))
  {
    ParseNatToString(q);
  }

  lemma DotAfterWhole(head: string, tail: string)
    requires AllDigits(head)
    ensures DotIndex(head + "." + tail) == |head|
  {
    DotIndexAfterDigits(head, "." + tail);
    assert head + ("." + tail) == head + "." + tail;
  }

  /** Whole units, a dot and one or two digits read back as tenths or hundredths. */
  lemma ParseFraction(q: nat, tail: string)
    requires AllDigits(tail) && 1 <= |tail| <= 2
    ensures ParseHundredths(NatToString(q) + "." + tail)
      == Some(q * 100 + (if |tail| == 1 then ParseNat(tail) * 10 else ParseNat(tail)))
  {
    var head := NatToString(q);
    var text := head + "." + tail;
    DotAfterWhole(head, tail);
    assert text[..|head|] == head && text[|head| + 1..] == tail;
    ReadFraction(q, tail);
  }

  /** Reading the intended format back gives the weight, so no two weights print alike. */
  lemma FormatHundredthsRoundTrip(weight: nat)
    ensures ParseHundredths(FormatHundredths(weight)) == Some(weight)
  {
    var q: nat := weight / 100;
    var r := weight % 100;
    assert IntToString(q) == NatToString(q);
    if r == 0 {
      assert FormatHundredths(weight) == NatToString(q);
      ParseWhole(q);
    } else if r % 10 == 0 {
      assert FormatHundredths(weight) == NatToString(q) + "." + NatToString(r / 10);
      ParseOneDigit(r / 10);
      ParseFraction(q, NatToString(r / 10));
    } else {
      assert FormatHundredths(weight) == NatToString(q) + "." + TwoDigits(r);
      ParseTwoDigits(r);
      ParseFraction(q, TwoDigits(r));
    }
  }

  lemma FormatHundredthsInjective(a: nat, b: nat)
    requires FormatHundredths(a) == FormatHundredths(b)
    ensures a == b
  {
    FormatHundredthsRoundTrip(a);
    FormatHundredthsRoundTrip(b);
  }

  /** "123", "123.5" and "123.45" for 123.00, 123.50 and 123.45; "123.05" for 123.05. */
  lemma FormatHundredthsExamples()
    ensures FormatHundredths(12300) == "123"
    ensures FormatHundredths(12350) == "123.5"
    ensures FormatHundredths(12345) == "123.45"
    ensures FormatHundredths(12305) == "123.05"
  {
    assert NatToString(123) == "123" by {
      assert NatToString(12) == "12" by { assert NatToString(1) == "1"; }
    }
    assert NatToString(5) == "5";
  }

  /** The written and the corrected formatter print the same string exactly when the
    * hundredths are not 01..09. */
  lemma FormatHundredthsDeviation(weight: int)
    ensures FormatHundredthsAsWritten(weight) == FormatHundredths(weight) <==> !(1 <= weight % 100 <= 9)
  {
    var q, m := IntToString(weight / 100), weight % 100;
    if 1 <= m <= 9 {
      assert NatToString(m) == [DigitChar(m)];
      assert |FormatHundredthsAsWritten(weight)| == |q| + 2;
      assert |FormatHundredths(weight)| == |q| + 3;
    } else if m % 10 != 0 {
      assert NatToString(m) == NatToString(m / 10) + [DigitChar(m % 10)];
      assert NatToString(m / 10) == [DigitChar(m / 10)];
      assert IntToString(m) == TwoDigits(m);
    }
  }

  /** `get_plate_count_strings`: "<label>x<count>" for each pair, in order. */
  function PlateCountStrings(counts: seq<(int, string)>): (r: seq<string>)
    ensures |r| == |counts|
    ensures forall i :: 0 <= i < |counts| ==> r[i] == counts[i].1 + "x" + IntToString(counts[i].0)
  {
    if counts == [] then [] else [counts[0].1 + "x" + IntToString(counts[0].0)] + PlateCountStrings(counts[1..])
  }
}
