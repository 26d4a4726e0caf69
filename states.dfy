// The screens of the calculator (states.py): the weight/percent prompt, the configuration
// menu and the plate result, each a class whose `ProcessInput` names the screen that
// follows for a key. The menu tree itself lives in module Menus.
module States {
  import opened Wrappers
  import opened Dicts
  import opened Config
  import opened Text
  import opened Interface
  import opened Calculations
  import opened Menus

  /** What a screen's `process_input` returns: itself, a new screen, sleep, or the error
    * Python raises out of the main loop. */
  datatype Next =
    | Stay
    | ToPrompt
    | ToMenu
    | ToResults(weight: int, percent: int, units: (string, string))
    | ToSleep
    | Crash(error: Error)

  /** `power_off`, i.e. what constructing a `SleepState` does to the display. */
  method PowerOff(io: Interface)
    modifies io
    ensures !io.displayPower && io.calls == old(io.calls) + [PoweredOff, SleepRequested]
  {
    io.DisplayOff();
    io.SetSleep();
  }

  // ---------------------------------------------------------------------------------
  // PromptState

  /** `PromptState.UNIT_STATES`: the (input unit, plate unit) ring the UNIT key cycles. */
  const UnitStates: seq<(string, string)> := [("LB", "LB"), ("LB", "KG"), ("KG", "KG"), ("KG", "LB")]

  /** `UNIT_STATES[i]` with Python's indexing, where -4..-1 count from the end. */
  function UnitRing(i: int): (r: Option<(string, string)>)
    ensures r.Some? <==> -4 <= i < 4
    ensures r.Some? ==> r.value in UnitStates
  {
    if 0 <= i < 4 then Some(UnitStates[i]) else if -4 <= i < 0 then Some(UnitStates[i + 4]) else None
  }

  /** `format_first_row`: "Weight: ", the weight left-justified in 4 columns, then "(unit)". */
  function FormatFirstRow(weight: int, unitState: int): string
    requires -4 <= unitState < 4
  {
    "Weight: " + PadRight(IntToString(weight), 4) + "(" + UnitRing(unitState).value.0 + ")"
  }

  /** `format_second_row`: "<percent>%", a centred "|" and "<unit> plates" across the row. */
  function FormatSecondRow(percent: int, unitState: int): string
    requires -4 <= unitState < 4
  {
    var percentStr := IntToString(percent) + "%";
    var unitStr := UnitRing(unitState).value.1 + " plates";
    var total := Columns - |percentStr| - |unitStr| - 1;
    var right := total / 2;
    percentStr + Spaces(total - right) + "|" + Spaces(right) + unitStr
  }

  lemma UnitNamesShort(unitState: int)
    requires -4 <= unitState < 4
    ensures |UnitRing(unitState).value.0| == 2 && |UnitRing(unitState).value.1| == 2
  {
    assert forall i :: 0 <= i < 4 ==> |UnitStates[i].0| == 2 && |UnitStates[i].1| == 2;
  }

  lemma ShortNumber(n: int)
    requires 0 <= n <= 999
    ensures 1 <= |IntToString(n)| <= 3
  {
    NatToStringLength(n);
    DigitsBound(n, 3);
    assert Pow10(3) == 1000 by { assert Pow10(1) == 10; assert Pow10(2) == 100; }
  }

  /** For a weight of up to three digits the first row fills the 16 columns exactly:
    * the label, the digits padded to four columns, and the input unit in parentheses. */
  lemma FirstRowWidth(weight: int, unitState: int)
    requires 0 <= weight <= 999 && -4 <= unitState < 4
    ensures var r := FormatFirstRow(weight, unitState); var s := IntToString(weight);
      && |r| == Columns && r[..8] == "Weight: " && r[8..8 + |s|] == s
      && (forall i :: 8 + |s| <= i < 12 ==> r[i] == ' ')
      && r[12..] == "(" + UnitRing(unitState).value.0 + ")"
  {
    ShortNumber(weight);
    UnitNamesShort(unitState);
    var s := IntToString(weight);
    var r := FormatFirstRow(weight, unitState);
    var padded := PadRight(s, 4);
    assert r == "Weight: " + padded + ("(" + UnitRing(unitState).value.0 + ")");
    assert padded == s + Spaces(4 - |s|);
    forall i | 8 + |s| <= i < 12 ensures r[i] == ' ' {
      assert r[i] == padded[i - 8];
      assert padded[i - 8] == Spaces(4 - |s|)[i - 8 - |s|];
    }
  }

  /** For a percent of up to three digits the second row fills the 16 columns exactly,
    * starting with "<percent>%" and ending with "<unit> plates", the "|" between them. */
  lemma SecondRowWidth(percent: int, unitState: int)
    requires 0 <= percent <= 999 && -4 <= unitState < 4
    ensures var r := FormatSecondRow(percent, unitState);
      var p := IntToString(percent) + "%";
      var u := UnitRing(unitState).value.1 + " plates";
      && |r| == Columns && r[..|p|] == p && r[Columns - |u|..] == u
      && '|' in r
  {
    ShortNumber(percent);
    UnitNamesShort(unitState);
    var p := IntToString(percent) + "%";
    var u := UnitRing(unitState).value.1 + " plates";
    var total := Columns - |p| - |u| - 1;
    var right := total / 2;
    assert 2 <= total <= 4;
    assert 1 <= right <= 2 && 1 <= total - right <= 2;
    var r := FormatSecondRow(percent, unitState);
    assert r == p + (Spaces(total - right) + "|" + Spaces(right) + u);
    assert r == (p + Spaces(total - right) + "|" + Spaces(right)) + u;
    assert r[|p| + total - right] == '|';
  }

  /** Which of the two numbers the digit keys edit (`pos`). */
  datatype Focus = WeightFocus | PercentFocus

  /** The fields of a `PromptState`. */
  datatype PromptFields = PromptFields(curr: int, digits: int, percent: int, percentDigits: int, unitState: int, focus: Focus)

  /** `toggle_pos`: leaving percent restores 100 if nothing was typed; entering it clears it. */
  function Toggled(f: PromptFields): PromptFields
  {
    if f.focus == PercentFocus then
      (if f.percent == 0 then f.(percent := 100, percentDigits := 3) else f).(focus := WeightFocus)
    else f.(focus := PercentFocus, percent := 0, percentDigits := 0)
  }

  /** A digit appended to a number of `digits` digits; a number that stays 0 has none. */
  function Appended(value: int, digits: int, key: int): (int, int)
  {
    var v := value * 10 + key;
    (v, if v == 0 then 0 else digits + 1)
  }

  /** `get_results`: the result screen for the weight, the percent and the selected units. */
  function Results(f: PromptFields): Next
  {
    match UnitRing(f.unitState)
    case None => Crash(IndexError)
    case Some(units) => ToResults(f.curr, f.percent, units)
  }

  /** `PromptState.process_input`: the new fields and the screen that follows. */
  function PromptStep(f: PromptFields, key: int): (PromptFields, Next)
  {
    if key == TIMEOUT || key == POWER then (f, ToSleep)
    else if !IsNumeric(key) then
      if key == CLEAR then (f.(curr := 0, digits := 0), Stay)
      else if key == ENTER then
        if f.focus == PercentFocus then (Toggled(f), Stay) else (f, Results(f))
      else if key == UNIT then (f.(unitState := (f.unitState + 1) % |UnitStates|), Stay)
      else if key == PERCENT then (Toggled(f), Stay)
      else if key == CONFIG then (f, ToMenu)
      else (f, Stay)
    else if f.focus == WeightFocus then
      if f.digits == 3 then (f, Results(f))
      else var (v, d) := Appended(f.curr, f.digits, key); (f.(curr := v, digits := d), Stay)
    else if f.percentDigits == 3 then (Toggled(f), Stay)
    else var (v, d) := Appended(f.percent, f.percentDigits, key); (f.(percent := v, percentDigits := d), Stay)
  }

  /** Both numbers have at most three digits, each digit count is the number's decimal
    * length (no leading zeros), the unit index is in the ring, and while the weight is
    * being edited the percent is not 0. */
  predicate PromptInvariant(f: PromptFields)
  {
    && 0 <= f.curr <= 999 && f.digits == Digits(f.curr)
    && 0 <= f.percent <= 999 && f.percentDigits == Digits(f.percent)
    && 0 <= f.unitState < 4
    && (f.focus == WeightFocus ==> f.percent > 0)
  }

  function InitialPrompt(unitState: int): PromptFields
  {
    PromptFields(0, 0, 100, 3, unitState, WeightFocus)
  }

  lemma InitialPromptInvariant(unitState: int)
    requires 0 <= unitState < 4
    ensures PromptInvariant(InitialPrompt(unitState))
  {
    assert Digits(100) == 1 + Digits(10) == 2 + Digits(1) == 3 + Digits(0);
  }

  lemma AtMostThreeDigits(n: int)
    requires 0 <= n <= 999
    ensures Digits(n) <= 3
  {
    DigitsBound(n, 3);
    assert Pow10(3) == 1000 by { assert Pow10(1) == 10; assert Pow10(2) == 100; }
  }

  lemma {:induction false} DigitsAppend(n: nat, k: nat)
    requires k < 10 && n * 10 + k > 0
    ensures Digits(n * 10 + k) == Digits(n) + 1
  {
    assert (n * 10 + k) / 10 == n;
  }

  /** Appending a digit to a number of fewer than three digits keeps the digit count exact. */
  lemma {:induction false} AppendedExact(value: int, digits: int, key: int)
    requires 0 <= value && digits == Digits(value) && digits < 3 && 0 <= key < 10
    ensures var (v, d) := Appended(value, digits, key); 0 <= v <= 999 && d == Digits(v)
  {
    DigitsBound(value, 2);
    assert Pow10(2) == 100 by { assert Pow10(1) == 10; }
    var v := value * 10 + key;
    if v != 0 {
      DigitsAppend(value, key);
    }
  }

  /** Every key keeps the invariant, and from a state that holds it no key crashes. */
  lemma PromptStepKeepsInvariant(f: PromptFields, key: int)
    requires PromptInvariant(f)
    ensures PromptInvariant(PromptStep(f, key).0)
    ensures !PromptStep(f, key).1.Crash?
  {
    assert Digits(100) == 1 + Digits(10) == 2 + Digits(1) == 3 + Digits(0);
    AtMostThreeDigits(f.curr);
    AtMostThreeDigits(f.percent);
    if IsNumeric(key) && key != TIMEOUT && key != POWER {
      if f.focus == WeightFocus && f.digits != 3 {
        AppendedExact(f.curr, f.digits, key);
      } else if f.focus == PercentFocus && f.percentDigits != 3 {
        AppendedExact(f.percent, f.percentDigits, key);
      }
    }
  }

  /** The digit rules: a full weight shows the results without taking the digit, a full
    * percent hands the focus back to the weight, anything shorter takes the digit. */
  lemma PromptDigitRules(f: PromptFields, key: int)
    requires PromptInvariant(f) && IsNumeric(key)
    ensures f.focus == WeightFocus && f.digits == 3 ==>
      PromptStep(f, key) == (f, ToResults(f.curr, f.percent, UnitStates[f.unitState]))
    ensures f.focus == WeightFocus && f.digits < 3 ==>
      PromptStep(f, key).0 == f.(curr := f.curr * 10 + key, digits := Digits(f.curr * 10 + key)) && PromptStep(f, key).1 == Stay
    ensures f.focus == PercentFocus && f.percentDigits == 3 ==>
      PromptStep(f, key) == (f.(focus := WeightFocus), Stay)
    ensures f.focus == PercentFocus && f.percentDigits < 3 ==>
      PromptStep(f, key).0 == f.(percent := f.percent * 10 + key, percentDigits := Digits(f.percent * 10 + key)) && PromptStep(f, key).1 == Stay
  {
    AtMostThreeDigits(f.curr);
    AtMostThreeDigits(f.percent);
    if f.focus == WeightFocus && f.digits < 3 {
      AppendedExact(f.curr, f.digits, key);
    } else if f.focus == PercentFocus && f.percentDigits < 3 {
      AppendedExact(f.percent, f.percentDigits, key);
    }
  }

  /** The control keys: CLEAR zeroes the weight whatever the focus and keeps the percent;
    * ENTER toggles in percent focus and shows the results otherwise; PERCENT toggles;
    * UNIT steps round the ring; CONFIG opens the menu; TIMEOUT and POWER sleep. */
  lemma PromptControlRules(f: PromptFields)
    requires 0 <= f.unitState < 4
    ensures PromptStep(f, CLEAR) == (f.(curr := 0, digits := 0), Stay)
    ensures PromptStep(f, ENTER) ==
      if f.focus == PercentFocus then (Toggled(f), Stay) else (f, ToResults(f.curr, f.percent, UnitStates[f.unitState]))
    ensures PromptStep(f, PERCENT) == (Toggled(f), Stay)
    ensures PromptStep(f, UNIT) == (f.(unitState := if f.unitState == 3 then 0 else f.unitState + 1), Stay)
    ensures PromptStep(f, CONFIG) == (f, ToMenu)
    ensures PromptStep(f, TIMEOUT) == (f, ToSleep) && PromptStep(f, POWER) == (f, ToSleep)
  {
  }

  /** `toggle_pos` into percent starts it from nothing; out of percent, an empty percent
    * becomes 100 and any other percent is kept. */
  lemma ToggleRules(f: PromptFields)
    ensures f.focus == WeightFocus ==> Toggled(f) == f.(focus := PercentFocus, percent := 0, percentDigits := 0)
    ensures f.focus == PercentFocus && f.percent == 0 ==> Toggled(f) == f.(focus := WeightFocus, percent := 100, percentDigits := 3)
    ensures f.focus == PercentFocus && f.percent != 0 ==> Toggled(f) == f.(focus := WeightFocus)
    ensures Toggled(f).curr == f.curr && Toggled(f).digits == f.digits && Toggled(f).unitState == f.unitState
  {
  }

  class PromptState {
    var currVal: int
    var numDigits: int
    var percent: int
    var percentNumDigits: int
    var unitState: int
    var pos: Focus

    function Snapshot(): PromptFields
      reads this
    {
      PromptFields(currVal, numDigits, percent, percentNumDigits, unitState, pos)
    }

    /** A fresh prompt: weight 0, percent 100, and the unit index stored under "prompt". */
    constructor (cfg: ConfigManager)
      requires UnitStateOf(cfg.cache).Some?
      ensures Snapshot() == InitialPrompt(UnitStateOf(cfg.cache).value)
    {
      var entry := cfg.Read("prompt");
      currVal := 0;
      numDigits := 0;
      percent := 100;
      percentNumDigits := 3;
      unitState := entry.value.unitState;
      pos := WeightFocus;
    }

    method TogglePos()
      modifies this
      ensures Snapshot() == Toggled(old(Snapshot()))
    {
      if pos == PercentFocus {
        if percent == 0 {
          percent := 100;
          percentNumDigits := 3;
        }
        pos := WeightFocus;
      } else {
        pos := PercentFocus;
        percent := 0;
        percentNumDigits := 0;
      }
    }

    /** UNIT also writes the new index back under "prompt"; showing the results turns the
      * cursor off; going to sleep powers the display down. */
    method ProcessInput(key: int, io: Interface, cfg: ConfigManager) returns (next: Next)
      requires HasKey(cfg.cache, "prompt")
      modifies this, io, cfg
      ensures (Snapshot(), next) == PromptStep(old(Snapshot()), key)
      ensures key == UNIT ==> cfg.cache == Put(old(cfg.cache), "prompt", Prompt(unitState)) && cfg.saves == old(cfg.saves) + 1
      ensures key != UNIT ==> cfg.cache == old(cfg.cache) && cfg.saves == old(cfg.saves)
      ensures WellFormed(old(cfg.cache)) ==> WellFormed(cfg.cache)
      ensures io.calls == old(io.calls) +
        (if next.ToSleep? then [PoweredOff, SleepRequested] else if next.ToResults? || next.Crash? then [CursorHidden] else [])
      ensures io.displayPower == (if next.ToSleep? then false else old(io.displayPower))
    {
      if key == TIMEOUT || key == POWER {
        PowerOff(io);
        return ToSleep;
      }
      if !IsNumeric(key) {
        if key == CLEAR {
          currVal := 0;
          numDigits := 0;
        } else if key == ENTER {
          if pos == PercentFocus {
            TogglePos();
          } else {
            next := GetResults(io);
            return;
          }
        } else if key == UNIT {
          unitState := (unitState + 1) % |UnitStates|;
          cfg.Write("prompt", Prompt(unitState));
          assert WeightsOf(cfg.cache) == WeightsOf(old(cfg.cache)) by {
            GetPutOther(old(cfg.cache), "prompt", Prompt(unitState), "weights");
          }
        } else if key == PERCENT {
          TogglePos();
        } else if key == CONFIG {
          return ToMenu;
        }
      } else if pos == WeightFocus {
        if numDigits == 3 {
          next := GetResults(io);
          return;
        }
        currVal := currVal * 10;
        currVal := currVal + key;
        numDigits := numDigits + 1;
        if currVal == 0 {
          numDigits := 0;
        }
      } else {
        if percentNumDigits == 3 {
          TogglePos();
        } else {
          percent := percent * 10;
          percent := percent + key;
          percentNumDigits := percentNumDigits + 1;
          if percent == 0 {
            percentNumDigits := 0;
          }
        }
      }
      return Stay;
    }

    method GetResults(io: Interface) returns (next: Next)
      modifies io
      ensures next == Results(Snapshot())
      ensures io.calls == old(io.calls) + [CursorHidden] && io.displayPower == old(io.displayPower)
    {
      io.CursorOff();
      var units := UnitRing(unitState);
      if units.None? {
        return Crash(IndexError);
      }
      return ToResults(currVal, percent, units.value);
    }
  }

  // ---------------------------------------------------------------------------------
  // MenuState

  class MenuState {
    const tree: MenuTree
    /** The menu shown (`curr_menu`), as its path in the tree. */
    var path: seq<nat>

    predicate Valid()
      reads this, tree
    {
      tree.Valid() && IsMenu(tree.root, path)
    }

    /** A menu screen opens on the root ("Home"), with the rows the tree has kept. */
    constructor (tree: MenuTree)
      requires tree.Valid()
      ensures this.tree == tree && path == [] && Valid()
    {
      this.tree := tree;
      path := [];
    }

    method ProcessInput(key: int, io: Interface, cfg: ConfigManager) returns (next: Next)
      requires Valid()
      modifies this, tree, io, cfg
      ensures Valid()
      ensures key == TIMEOUT || key == POWER ==>
        next == ToSleep && !io.displayPower && io.calls == old(io.calls) + [PoweredOff, SleepRequested]
      ensures key != TIMEOUT && key != POWER ==> io.calls == old(io.calls) && io.displayPower == old(io.displayPower)
      ensures key == CONFIG ==> next == ToPrompt
      ensures !IsNumeric(key) ==> tree.rows == old(tree.rows) && cfg.cache == old(cfg.cache) && cfg.saves == old(cfg.saves)
      ensures !IsNumeric(key) && key != TIMEOUT && key != POWER && key != CONFIG ==> next == Stay && path == old(path)
      ensures IsNumeric(key) ==>
        var c := Choose(old(At(tree.root, path).value.submenus), old(tree.Row(path)), key);
        && (c.Leave? && old(path) == [] ==> next == ToPrompt)
        && (c.Leave? && old(path) != [] ==> next == Stay && path == old(path)[..|old(path)| - 1])
        && (c.Enter? ==> next == Stay && path == old(path) + [c.index])
        && (c.Broken? ==> next == Crash(c.error))
        && (c.Ignore? || c.ScrollUp? || c.ScrollDown? ==> next == Stay && path == old(path))
        && (c.ScrollUp? ==> tree.rows == old(tree.rows)[old(path) := ScrolledUp(old(tree.Row(path)))])
        && (c.ScrollDown? ==>
              tree.rows == old(tree.rows)[old(path) := ScrolledDown(old(tree.Row(path)), |old(At(tree.root, path).value.submenus)|)])
        && (!c.ScrollUp? && !c.ScrollDown? ==> tree.rows == old(tree.rows))
        && (!c.Run? ==> cfg.cache == old(cfg.cache) && cfg.saves == old(cfg.saves))
        && (c.Run? ==>
              var e := EditDocument(old(At(tree.root, path).value.submenus)[c.index].action, old(cfg.cache));
              && (e.Err? ==> next == Crash(e.error) && cfg.cache == old(cfg.cache) && cfg.saves == old(cfg.saves))
              && (e == Ok(None) ==> next == Stay && path == old(path) && cfg.cache == old(cfg.cache) && cfg.saves == old(cfg.saves))
              && (e.Ok? && e.value.Some? ==>
                    next == Stay && path == old(path) && cfg.cache == e.value.value && cfg.saves == old(cfg.saves) + 1))
    {
      if key == TIMEOUT || key == POWER {
        PowerOff(io);
        return ToSleep;
      }
      if key == CONFIG {
        return ToPrompt;
      }
      if IsNumeric(key) {
        var r := tree.Navigate(path, key, cfg);
        match r {
          case Err(e) => return Crash(e);
          case Ok(None) => return ToPrompt;
          case Ok(Some(q)) => path := q;
        }
      }
      return Stay;
    }
  }

  // ---------------------------------------------------------------------------------
  // ResultState

  /** Python's `round(n / d)` for an exact quotient: to the nearest integer, ties to even. */
  function RoundHalfEven(n: int, d: int): int
    requires d > 0
  {
    var q, m := n / d, n % d;
    if 2 * m > d || (2 * m == d && q % 2 == 1) then q + 1 else q
  }

  /** The rounded value is within half of `d` of the quotient, and even on a tie. */
  lemma RoundHalfEvenNearest(n: int, d: int)
    requires d > 0
    ensures var r := RoundHalfEven(n, d);
      && -d <= 2 * (n - d * r) <= d
      && (2 * (n - d * r) == d || 2 * (n - d * r) == -d ==> r % 2 == 0)
  {
    var q, m := n / d, n % d;
    assert n == d * q + m && 0 <= m < d;
    assert d * (q + 1) == d * q + d;
  }

  /** The display tokens: "<bar> bar"; "+" when plates or collars are loaded; each plate
    * string; "<collar> collars" when the collars are loaded and weigh something. */
  function Tokens(plan: Plan, bar: int, collar: int): seq<string>
  {
    var loaded := plan.endWeight > bar * 100;
    [IntToString(bar) + " bar"]
      + (if loaded then ["+"] else [])
      + PlateCountStrings(plan.counts)
      + (if collar > 0 && loaded then [FormatHundredths(collar) + " collars"] else [])
  }

  /** The first row: the end weight and its unit, then the other unit's equivalent when
    * the input was in the other unit. */
  function Header(weight: string, units: (string, string), aux: Option<int>): (h: string)
    ensures |h| > 0 && h[|h| - 1] == ':'
    ensures |weight| + |units.1| < |h| && h[..|weight| + |units.1|] == weight + units.1
    ensures aux.None? ==> |h| == |weight| + |units.1| + 1
  {
    match aux
    case None => weight + units.1 + ":"
    case Some(a) => weight + units.1 + "/" + IntToString(a) + units.0 + ":"
  }

  /** What the result screen shows, before row packing. */
  datatype Summary = Summary(tokens: seq<string>, weight: string, aux: Option<int>)

  /** The result screen's content for a prompt of `weight` at `percent` in `units`:
    * the engine's plan for the rounded weight, its tokens, the formatted end weight,
    * and the end weight in the input unit (`aux_weight`) when the units differ. */
  function Summarize(weight: int, percent: int, units: (string, string), doc: Document, conv: Conversions): Result<Summary>
  {
    match WeightsOf(doc)
    case None => Err(KeyError)
    case Some(weights) =>
      match Get(weights, units.1)
      case None => Err(KeyError)
      case Some(u) =>
        match PlateCounts(RoundHalfEven(weight * percent, 100), units, weights, conv)
        case Err(e) => Err(e)
        case Ok(plan) => Ok(Summary(Tokens(plan, u.bar, u.collar), FormatHundredths(plan.endWeight), AuxWeight(units, plan.endWeight, conv)))
  }

  /** `aux_weight`: the end weight converted back to the input unit and rounded to a whole
    * number, when the two units differ. */
  function AuxWeight(units: (string, string), endWeight: int, conv: Conversions): Option<int>
  {
    if units.0 == units.1 then None
    else if units.1 == "KG" then Some(RoundHalfEven(conv.kgToLb(endWeight), 100))
    else Some(RoundHalfEven(conv.lbToKg(endWeight), 100))
  }

  /** One step of `make_rows`: the token joins the last row when that row is empty or the
    * two fit in 15 columns with a space between, and opens a new row otherwise. */
  function Pack(rows: seq<string>, token: string): (r: seq<string>)
    requires |rows| > 0
    ensures |r| > 0
  {
    var last := rows[|rows| - 1];
    if last == "" || |last| + 1 + |token| <= Columns - 1 then
      rows[..|rows| - 1] + [if last == "" then token else last + " " + token]
    else rows + [token]
  }

  function PackAll(header: string, tokens: seq<string>): (r: seq<string>)
    ensures |r| > 0
    decreases |tokens|
  {
    if tokens == [] then [header] else Pack(PackAll(header, tokens[..|tokens| - 1]), tokens[|tokens| - 1])
  }

  /** The rows `make_rows` builds, "(no plates)" added when there are no tokens. */
  function RowsOf(header: string, tokens: seq<string>): seq<string>
  {
    PackAll(header, tokens) + (if tokens == [] then ["(no plates)"] else [])
  }

  lemma {:induction false} JoinSnoc(parts: seq<string>, x: string, sep: string)
    requires parts != []
    ensures Join(parts + [x], sep) == Join(parts, sep) + sep + x
  {
    assert (parts + [x])[..|parts|] == parts;
  }

  lemma {:induction false} PackJoin(rows: seq<string>, token: string)
    requires |rows| > 0 && rows[|rows| - 1] != "" && token != ""
    ensures Join(Pack(rows, token), " ") == Join(rows, " ") + " " + token
    ensures Pack(rows, token)[|Pack(rows, token)| - 1] != ""
  {
    var n := |rows|;
    var last := rows[n - 1];
    var init := rows[..n - 1];
    if |last| + 1 + |token| <= Columns - 1 {
      assert Pack(rows, token) == init + [last + " " + token];
      if init == [] {
        assert rows == [last];
      } else {
        JoinSnoc(init, last + " " + token, " ");
        assert rows == init + [last];
        JoinSnoc(init, last, " ");
      }
    } else {
      JoinSnoc(rows, token, " ");
    }
  }

  /** Joining the rows with single spaces gives back the header and the tokens in order. */
  lemma {:induction false} PackAllJoin(header: string, tokens: seq<string>)
    requires header != "" && forall i :: 0 <= i < |tokens| ==> tokens[i] != ""
    ensures Join(PackAll(header, tokens), " ") == Join([header] + tokens, " ")
    ensures PackAll(header, tokens)[|PackAll(header, tokens)| - 1] != ""
    decreases |tokens|
  {
    if tokens != [] {
      var n := |tokens|;
      var init := tokens[..n - 1];
      PackAllJoin(header, init);
      PackJoin(PackAll(header, init), tokens[n - 1]);
      assert [header] + tokens == ([header] + init) + [tokens[n - 1]];
      JoinSnoc([header] + init, tokens[n - 1], " ");
    }
  }

  /** Every row is a single piece or at most 15 columns wide. */
  predicate Narrow(rows: seq<string>, pieces: seq<string>)
  {
    forall i :: 0 <= i < |rows| ==> rows[i] in pieces || |rows[i]| <= Columns - 1
  }

  lemma {:induction false} PackAllNarrow(header: string, tokens: seq<string>)
    ensures Narrow(PackAll(header, tokens), [header] + tokens)
    decreases |tokens|
  {
    if tokens != [] {
      var n := |tokens|;
      var init := tokens[..n - 1];
      PackAllNarrow(header, init);
      var rows := PackAll(header, init);
      var r := Pack(rows, tokens[n - 1]);
      assert [header] + tokens == ([header] + init) + [tokens[n - 1]];
      forall i | 0 <= i < |r| ensures r[i] in [header] + tokens || |r[i]| <= Columns - 1 {
        if i < |rows| - 1 {
          assert r[i] == rows[i];
        }
      }
    }
  }

  /** A row of the packed rows holding two or more pieces is at most 15 columns wide, their
    * join is the header and tokens in order, and with tokens present no "(no plates)" row
    * is added. */
  lemma RowsOfProperties(header: string, tokens: seq<string>)
    requires header != "" && tokens != [] && forall i :: 0 <= i < |tokens| ==> tokens[i] != ""
    ensures RowsOf(header, tokens) == PackAll(header, tokens)
    ensures Join(RowsOf(header, tokens), " ") == Join([header] + tokens, " ")
    ensures Narrow(RowsOf(header, tokens), [header] + tokens)
  {
    PackAllJoin(header, tokens);
    PackAllNarrow(header, tokens);
  }

  /** Every plate string is non-empty and ends in a digit (its count). */
  lemma PlateStringsEndInDigit(counts: seq<(int, string)>)
    ensures var ps := PlateCountStrings(counts);
      forall i :: 0 <= i < |ps| ==> |ps[i]| >= 2 && IsDigit(ps[i][|ps[i]| - 1])
  {
    var ps := PlateCountStrings(counts);
    forall i | 0 <= i < |ps| ensures |ps[i]| >= 2 && IsDigit(ps[i][|ps[i]| - 1]) {
      var n := IntToString(counts[i].0);
      assert ps[i] == counts[i].1 + "x" + n;
      assert ps[i][|ps[i]| - 1] == n[|n| - 1];
    }
  }

  /** A piece list `head + ps + tail` where no piece but the optional `tail` one ends in
    * `c`'s last character: its last piece is `c` exactly when `tail` is present. */
  lemma {:induction false} PiecesShape(head: seq<string>, ps: seq<string>, tail: seq<string>, c: string)
    requires |head| >= 1 && c != "" && (tail == [] || tail == [c])
    requires forall i :: 0 <= i < |head| ==> head[i] != "" && head[i][|head[i]| - 1] != c[|c| - 1]
    requires forall i :: 0 <= i < |ps| ==> ps[i] != "" && ps[i][|ps[i]| - 1] != c[|c| - 1]
    ensures var t := head + ps + tail;
      && (t[|t| - 1] == c <==> tail != [])
      && (forall i :: 0 <= i < |ps| ==> t[|head| + i] == ps[i])
      && (forall i :: 0 <= i < |t| ==> t[i] != "")
  {
    var t := head + ps + tail;
    if tail == [] {
      assert t == head + ps;
      if |ps| > 0 {
        assert t[|t| - 1] == ps[|ps| - 1];
      } else {
        assert t[|t| - 1] == head[|head| - 1];
      }
    }
    forall i | 0 <= i < |t| ensures t[i] != "" {
      if i < |head| {
        assert t[i] == head[i];
      } else if i < |head| + |ps| {
        assert t[i] == ps[i - |head|];
      }
    }
  }

  /** The token list is never empty and starts with the bar; "+" is second exactly when the
    * end weight exceeds the bar; the plate strings follow in order. */
  lemma TokensShape(plan: Plan, bar: int, collar: int)
    ensures var t := Tokens(plan, bar, collar);
      var loaded := plan.endWeight > bar * 100;
      var k := if loaded then 2 else 1;
      var ps := PlateCountStrings(plan.counts);
      && |t| >= 1 && t[0] == IntToString(bar) + " bar"
      && (|t| > 1 && t[1] == "+" <==> loaded)
      && |t| >= k + |ps|
      && (forall i :: 0 <= i < |ps| ==> t[k + i] == ps[i])
  {
    var t := Tokens(plan, bar, collar);
    var loaded := plan.endWeight > bar * 100;
    var ps := PlateCountStrings(plan.counts);
    var head := [IntToString(bar) + " bar"] + (if loaded then ["+"] else []);
    var tail := if collar > 0 && loaded then [FormatHundredths(collar) + " collars"] else [];
    assert t == head + ps + tail;
    PlateStringsEndInDigit(plan.counts);
    if !loaded && |t| > 1 {
      assert t[1] == ps[0];
    }
    forall i | 0 <= i < |ps| ensures t[|head| + i] == ps[i] {
      assert t[|head| + i] == (head + ps)[|head| + i];
    }
  }

  /** The collar token is last exactly when collars weigh something and the end weight
    * exceeds the bar, and no token is empty. */
  lemma TokensCollar(plan: Plan, bar: int, collar: int)
    ensures var t := Tokens(plan, bar, collar);
      && (t[|t| - 1] == FormatHundredths(collar) + " collars" <==> collar > 0 && plan.endWeight > bar * 100)
      && (forall i :: 0 <= i < |t| ==> t[i] != "")
  {
    var loaded := plan.endWeight > bar * 100;
    var c := FormatHundredths(collar) + " collars";
    var b := IntToString(bar) + " bar";
    var head := [b] + (if loaded then ["+"] else []);
    var tail := if collar > 0 && loaded then [c] else [];
    assert Tokens(plan, bar, collar) == head + PlateCountStrings(plan.counts) + tail;
    assert c[|c| - 1] == 's' && b[|b| - 1] == 'r';
    PlateStringsEndInDigit(plan.counts);
    PiecesShape(head, PlateCountStrings(plan.counts), tail, c);
  }

  class ResultState {
    const units: (string, string)
    const displayStrings: seq<string>
    /** The end weight, formatted. */
    const weight: string
    const auxWeight: Option<int>
    var rows: seq<string>
    var scrollLevel: nat

    /** The viewport's top row stays within `[0, max(0, |rows| - 2)]`. */
    predicate Valid()
      reads this
    {
      scrollLevel <= MaxRow(|rows|)
    }

    constructor (units: (string, string), displayStrings: seq<string>, weight: string, auxWeight: Option<int>)
      ensures this.units == units && this.displayStrings == displayStrings && this.weight == weight && this.auxWeight == auxWeight
      ensures rows == RowsOf(Header(weight, units, auxWeight), displayStrings) && scrollLevel == 0 && Valid()
    {
      this.units := units;
      this.displayStrings := displayStrings;
      this.weight := weight;
      this.auxWeight := auxWeight;
      scrollLevel := 0;
      new;
      MakeRows();
    }

    /** `make_rows`: the header row, then each token packed greedily into rows of at most
      * 15 columns, then "(no plates)" when there were no tokens. */
    method MakeRows()
      modifies this
      ensures rows == RowsOf(Header(weight, units, auxWeight), displayStrings) && scrollLevel == old(scrollLevel)
    {
      var header := Header(weight, units, auxWeight);
      var r := [header];
      for i := 0 to |displayStrings|
        invariant r == PackAll(header, displayStrings[..i])
      {
        var token := displayStrings[i];
        var last := r[|r| - 1];
        if last == "" || |last| + 1 + |token| <= Columns - 1 {
          if last == "" {
            r := r[..|r| - 1] + [token];
          } else {
            r := r[..|r| - 1] + [last + " " + token];
          }
        } else {
          r := r + [token];
        }
        assert displayStrings[..i + 1][..i] == displayStrings[..i];
      }
      assert displayStrings[..|displayStrings|] == displayStrings;
      if |displayStrings| == 0 {
        r := r + ["(no plates)"];
      }
      rows := r;
    }

    method ScrollDown()
      requires Valid()
      modifies this
      ensures Valid() && rows == old(rows) && scrollLevel == ScrolledDown(old(scrollLevel), |rows|)
    {
      scrollLevel := ScrolledDown(scrollLevel, |rows|);
    }

    method ScrollUp()
      requires Valid()
      modifies this
      ensures Valid() && rows == old(rows) && scrollLevel == ScrolledUp(old(scrollLevel))
    {
      scrollLevel := ScrolledUp(scrollLevel);
    }

    /** Keys 8 and 9 scroll and stay; TIMEOUT and POWER sleep; any other key returns to
      * a new prompt. */
    method ProcessInput(key: int, io: Interface) returns (next: Next)
      requires Valid()
      modifies this, io
      ensures Valid() && rows == old(rows)
      ensures next == (if key == TIMEOUT || key == POWER then ToSleep else if key == EIGHT || key == NINE then Stay else ToPrompt)
      ensures key == EIGHT ==> scrollLevel == ScrolledUp(old(scrollLevel))
      ensures key == NINE ==> scrollLevel == ScrolledDown(old(scrollLevel), |rows|)
      ensures key != EIGHT && key != NINE ==> scrollLevel == old(scrollLevel)
      ensures io.calls == old(io.calls) + (if next == ToSleep then [PoweredOff, SleepRequested] else [])
      ensures io.displayPower == (if next == ToSleep then false else old(io.displayPower))
    {
      if key == TIMEOUT || key == POWER {
        PowerOff(io);
        return ToSleep;
      }
      if key == EIGHT {
        ScrollUp();
        return Stay;
      }
      if key == NINE {
        ScrollDown();
        return Stay;
      }
      return ToPrompt;
    }
  }

  /** The constructor's `display_strings`: the plate strings, the bar inserted in front,
    * "+" inserted second, the collars appended. */
  method DisplayStrings(plan: Plan, bar: int, collar: int) returns (display: seq<string>)
    ensures display == Tokens(plan, bar, collar)
  {
    var ps := PlateCountStrings(plan.counts);
    var b := IntToString(bar) + " bar";
    var loaded := plan.endWeight > bar * 100;
    display := ps;
    display := [b] + display;
    assert display[..1] == [b] && display[1..] == ps;
    if loaded {
      display := display[..1] + ["+"] + display[1..];
    }
    assert display == [b] + (if loaded then ["+"] else []) + ps;
    if collar > 0 && loaded {
      display := display + [FormatHundredths(collar) + " collars"];
    }
  }

  method ComputeAux(units: (string, string), endWeight: int, conv: Conversions) returns (aux: Option<int>)
    ensures aux == AuxWeight(units, endWeight, conv)
  {
    aux := None;
    if units.0 != units.1 {
      if units.1 == "KG" {
        aux := Some(RoundHalfEven(conv.kgToLb(endWeight), 100));
      } else {
        aux := Some(RoundHalfEven(conv.lbToKg(endWeight), 100));
      }
    }
  }

  /** `ResultState(interface, weight, percent, units)`: run the engine on the percentage of
    * the weight and lay out the screen; an error the engine or a lookup raises is returned. */
  method NewResult(weight: int, percent: int, units: (string, string), cfg: ConfigManager, conv: Conversions)
    returns (r: Result<ResultState>)
    ensures var s := Summarize(weight, percent, units, cfg.cache, conv);
      && (r.Err? <==> s.Err?)
      && (r.Err? ==> r.error == s.error)
      && (r.Ok? ==>
            && fresh(r.value)
            && r.value.units == units && r.value.displayStrings == s.value.tokens
            && r.value.weight == s.value.weight && r.value.auxWeight == s.value.aux
            && r.value.rows == RowsOf(Header(s.value.weight, units, s.value.aux), s.value.tokens)
            && r.value.scrollLevel == 0 && r.value.Valid())
  {
    var entry := cfg.Read("weights");
    if entry.None? || !entry.value.Weights? {
      return Err(KeyError);
    }
    var weights := entry.value.units;
    var target := RoundHalfEven(weight * percent, 100);
    var counts := GetPlateCounts(target, units, weights, conv);
    if counts.Err? {
      PlateCountsKeyError(target, units, weights, conv);
      return Err(counts.error);
    }
    PlateCountsKeyError(target, units, weights, conv);
    var plan := counts.value;
    var u := Get(weights, units.1).value;
    var display := DisplayStrings(plan, u.bar, u.collar);
    var aux := ComputeAux(units, plan.endWeight, conv);
    var screen := new ResultState(units, display, FormatHundredths(plan.endWeight), aux);
    r := Ok(screen);
  }

  /** Whenever the result screen can be built, its rows are the header and the tokens
    * packed without loss, no row of two or more pieces is wider than 15 columns, and the
    * "(no plates)" row is never needed. */
  lemma ResultRows(weight: int, percent: int, units: (string, string), doc: Document, conv: Conversions)
    requires Summarize(weight, percent, units, doc, conv).Ok?
    ensures var s := Summarize(weight, percent, units, doc, conv).value;
      var header := Header(s.weight, units, s.aux);
      && s.tokens != []
      && RowsOf(header, s.tokens) == PackAll(header, s.tokens)
      && Join(RowsOf(header, s.tokens), " ") == Join([header] + s.tokens, " ")
      && Narrow(RowsOf(header, s.tokens), [header] + s.tokens)
  {
    var s := Summarize(weight, percent, units, doc, conv).value;
    var weights := WeightsOf(doc).value;
    var u := Get(weights, units.1).value;
    var plan := PlateCounts(RoundHalfEven(weight * percent, 100), units, weights, conv).value;
    assert s.tokens == Tokens(plan, u.bar, u.collar);
    TokensShape(plan, u.bar, u.collar);
    TokensCollar(plan, u.bar, u.collar);
    RowsOfProperties(Header(s.weight, units, s.aux), s.tokens);
  }
}
