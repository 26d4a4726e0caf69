/** The configuration menu of states.py: the edit actions on the weights, the menu tree that
  * `menu_init` builds, navigation with its per-menu scroll row, and `render`. */
module Menus {
  import opened Wrappers
  import opened Dicts
  import opened Config
  import opened Sorting
  import opened Text
  import opened Interface

  /** Which denominations of a unit an action edits. */
  datatype Kind = Plates | Bars | Collars

  /** EditPlateAction, EditBarAction or EditCollarAction for one denomination of one unit. */
  datatype EditAction = EditAction(kind: Kind, unit: string, title: string)

  function DenomsOf(u: UnitWeights, kind: Kind): Dict<Denomination>
  {
    match kind
    case Plates => u.plates
    case Bars => u.bars
    case Collars => u.collars
  }

  /** `get_title` of an action: the label, with " *" when that entry is in use. */
  function ActionTitle(a: EditAction, weights: Dict<UnitWeights>): Result<string>
  {
    match Get(weights, a.unit)
    case None => Err(KeyError)
    case Some(u) =>
      match Get(DenomsOf(u, a.kind), a.title)
      case None => Err(KeyError)
      case Some(e) => Ok(if e.using then a.title + " *" else a.title)
  }

  /** The title is marked exactly when the entry is in use, and fails exactly on a missing key. */
  lemma ActionTitleMarks(a: EditAction, weights: Dict<UnitWeights>)
    ensures ActionTitle(a, weights).Ok? <==> HasKey(weights, a.unit) && HasKey(DenomsOf(Get(weights, a.unit).value, a.kind), a.title)
    ensures ActionTitle(a, weights).Ok? ==>
      var e := Get(DenomsOf(Get(weights, a.unit).value, a.kind), a.title).value;
      && (e.using ==> ActionTitle(a, weights).value == a.title + " *")
      && (!e.using ==> ActionTitle(a, weights).value == a.title)
  {
  }

  /** Every entry switched off, values and order kept. */
  function AllDisabled(d: Dict<Denomination>): (r: Dict<Denomination>)
    ensures |r| == |d|
    ensures forall i :: 0 <= i < |d| ==> r[i] == (d[i].0, Denomination(false, d[i].1.value))
  {
    if d == [] then [] else [(d[0].0, Denomination(false, d[0].1.value))] + AllDisabled(d[1..])
  }

  /** The loop `for bar in bars: bars[bar]["using"] = False`. */
  method DisableAll(d: Dict<Denomination>) returns (r: Dict<Denomination>)
    ensures r == AllDisabled(d)
  {
    r := d;
    var i := 0;
    while i < |r|
      invariant 0 <= i <= |r| == |d|
      invariant forall j :: 0 <= j < i ==> r[j] == (d[j].0, Denomination(false, d[j].1.value))
      invariant forall j :: i <= j < |r| ==> r[j] == d[j]
    {
      r := r[i := (r[i].0, Denomination(false, r[i].1.value))];
      i := i + 1;
    }
  }

  /** The unit with its bar or collar denominations replaced and its `bar`/`collar` set. */
  function Selected(u: UnitWeights, kind: Kind, d: Dict<Denomination>, v: int): UnitWeights
  {
    if kind == Bars then u.(bars := d, bar := v) else u.(collars := d, collar := v)
  }

  /** What an action does to the "weights" entry: Ok(Some(w)) when it writes `w` back,
    * Ok(None) when it returns without writing, Err(KeyError) on a missing unit or title.
    * A plate action flips `using`; a bar or collar action, given at least two entries,
    * switches all of them off, then the chosen one on, and copies its value. */
  function EditWeights(a: EditAction, weights: Dict<UnitWeights>): Result<Option<Dict<UnitWeights>>>
  {
    if Get(weights, a.unit).None? then Err(KeyError)
    else
      var u := Get(weights, a.unit).value;
      var d := DenomsOf(u, a.kind);
      if a.kind == Plates then
        if Get(d, a.title).None? then Err(KeyError)
        else
          var e := Get(d, a.title).value;
          Ok(Some(Put(weights, a.unit, u.(plates := Put(d, a.title, Denomination(!e.using, e.value))))))
      else if |d| < 2 then Ok(None)
      else
        var off := AllDisabled(d);
        if Get(off, a.title).None? then Err(KeyError)
        else
          var v := Get(off, a.title).value.value;
          Ok(Some(Put(weights, a.unit, Selected(u, a.kind, Put(off, a.title, Denomination(true, v)), v))))
  }

  lemma {:induction false} AllDisabledGet(d: Dict<Denomination>, k: string)
    ensures Get(AllDisabled(d), k).Some? <==> Get(d, k).Some?
    ensures Get(d, k).Some? ==> Get(AllDisabled(d), k) == Some(Denomination(false, Get(d, k).value.value))
  {
    if d != [] && d[0].0 != k {
      AllDisabledGet(d[1..], k);
      assert AllDisabled(d)[1..] == AllDisabled(d[1..]);
    }
  }

  lemma {:induction false} AllDisabledNone(d: Dict<Denomination>)
    ensures EnabledNames(AllDisabled(d)) == []
  {
    if d != [] {
      AllDisabledNone(d[1..]);
      assert AllDisabled(d)[1..] == AllDisabled(d[1..]);
    }
  }

  /** Turning one entry on in a dictionary where all are off leaves exactly that one on. */
  lemma {:induction false} EnableOnly(d: Dict<Denomination>, k: string, v: int)
    requires EnabledNames(d) == []
    requires HasKey(d, k)
    ensures EnabledNames(Put(d, k, Denomination(true, v))) == [k]
  {
    if d[0].0 != k {
      assert !d[0].1.using;
      assert HasKey(d[1..], k) by {
        var i :| 0 <= i < |d| && d[i].0 == k;
        assert d[1..][i - 1].0 == k;
      }
      EnableOnly(d[1..], k, v);
      assert Put(d, k, Denomination(true, v))[1..] == Put(d[1..], k, Denomination(true, v));
    } else {
      assert EnabledNames(d[1..]) == [];
      assert Put(d, k, Denomination(true, v))[1..] == d[1..];
    }
  }

  /** Running a plate action twice restores the weights. */
  lemma EditPlateTwice(a: EditAction, weights: Dict<UnitWeights>, w1: Dict<UnitWeights>)
    requires a.kind == Plates && EditWeights(a, weights) == Ok(Some(w1))
    ensures EditWeights(a, w1) == Ok(Some(weights))
  {
    var u := Get(weights, a.unit).value;
    var e := Get(u.plates, a.title).value;
    var flipped := Put(u.plates, a.title, Denomination(!e.using, e.value));
    var u1 := u.(plates := flipped);
    GetPutSame(weights, a.unit, u1);
    GetPutSame(u.plates, a.title, Denomination(!e.using, e.value));
    PutPut(u.plates, a.title, Denomination(!e.using, e.value), e);
    PutGet(u.plates, a.title, e);
    assert u1.(plates := u.plates) == u;
    PutPut(weights, a.unit, u1, u);
    PutGet(weights, a.unit, u);
  }

  /** A plate action flips the chosen plate's `using` and changes nothing else. */
  lemma EditPlateFlipsOne(a: EditAction, weights: Dict<UnitWeights>, w1: Dict<UnitWeights>)
    requires a.kind == Plates && EditWeights(a, weights) == Ok(Some(w1))
    ensures var u := Get(weights, a.unit).value;
      var e := Get(u.plates, a.title).value;
      && Get(w1, a.unit).Some?
      && var u1 := Get(w1, a.unit).value;
      && Get(u1.plates, a.title) == Some(Denomination(!e.using, e.value))
      && (forall k :: k != a.title ==> Get(u1.plates, k) == Get(u.plates, k))
      && Keys(u1.plates) == Keys(u.plates)
      && u1.bars == u.bars && u1.bar == u.bar && u1.collars == u.collars && u1.collar == u.collar
    ensures forall x :: x != a.unit ==> Get(w1, x) == Get(weights, x)
    ensures Keys(w1) == Keys(weights)
  {
    var u := Get(weights, a.unit).value;
    var e := Get(u.plates, a.title).value;
    var flipped := Put(u.plates, a.title, Denomination(!e.using, e.value));
    GetPutSame(weights, a.unit, u.(plates := flipped));
    GetPutSame(u.plates, a.title, Denomination(!e.using, e.value));
    forall k | k != a.title ensures Get(flipped, k) == Get(u.plates, k) {
      GetPutOther(u.plates, a.title, Denomination(!e.using, e.value), k);
    }
    forall x | x != a.unit ensures Get(w1, x) == Get(weights, x) {
      GetPutOther(weights, a.unit, u.(plates := flipped), x);
    }
    KeysPut(u.plates, a.title, Denomination(!e.using, e.value));
    KeysPut(weights, a.unit, u.(plates := flipped));
  }

  /** Switching all entries off and then `k` on leaves exactly `k` in use, with its value,
    * and keeps the keys. */
  lemma {:induction false} SelectOne(d: Dict<Denomination>, k: string)
    requires HasKey(d, k)
    ensures Get(AllDisabled(d), k) == Some(Denomination(false, Get(d, k).value.value))
    ensures var v := Get(d, k).value.value;
      var chosen := Put(AllDisabled(d), k, Denomination(true, v));
      && EnabledNames(chosen) == [k]
      && SingleSelection(chosen, v)
      && Keys(chosen) == Keys(d)
  {
    var off := AllDisabled(d);
    AllDisabledGet(d, k);
    var v := Get(d, k).value.value;
    AllDisabledNone(d);
    assert HasKey(off, k);
    EnableOnly(off, k, v);
    GetPutSame(off, k, Denomination(true, v));
    KeysPut(off, k, Denomination(true, v));
    assert Keys(off) == Keys(d);
  }

  /** A bar or collar action on at least two entries leaves exactly the chosen one in use and
    * copies its value into `bar`/`collar`; the other kind, the plates and the keys stay. */
  lemma EditSelects(a: EditAction, weights: Dict<UnitWeights>)
    requires a.kind != Plates && HasKey(weights, a.unit)
    requires var d := DenomsOf(Get(weights, a.unit).value, a.kind); |d| >= 2 && HasKey(d, a.title)
    ensures EditWeights(a, weights).Ok? && EditWeights(a, weights).value.Some?
    ensures var u := Get(weights, a.unit).value;
      var d := DenomsOf(u, a.kind);
      var v := Get(d, a.title).value.value;
      var w1 := EditWeights(a, weights).value.value;
      && Get(w1, a.unit).Some?
      && var u1 := Get(w1, a.unit).value;
      && EnabledNames(DenomsOf(u1, a.kind)) == [a.title]
      && SingleSelection(DenomsOf(u1, a.kind), v)
      && (if a.kind == Bars then u1.bar == v && u1.collars == u.collars && u1.collar == u.collar
          else u1.collar == v && u1.bars == u.bars && u1.bar == u.bar)
      && u1.plates == u.plates
      && Keys(DenomsOf(u1, a.kind)) == Keys(d)
      && (Synced(u) ==> Synced(u1))
      && Keys(w1) == Keys(weights)
  {
    var u := Get(weights, a.unit).value;
    var d := DenomsOf(u, a.kind);
    SelectOne(d, a.title);
    var v := Get(d, a.title).value.value;
    var u1 := Selected(u, a.kind, Put(AllDisabled(d), a.title, Denomination(true, v)), v);
    assert EditWeights(a, weights) == Ok(Some(Put(weights, a.unit, u1)));
    GetPutSame(weights, a.unit, u1);
    KeysPut(weights, a.unit, u1);
  }

  /** With fewer than two bars (collars) the action returns without writing. */
  lemma EditSelectFew(a: EditAction, weights: Dict<UnitWeights>)
    requires a.kind != Plates && HasKey(weights, a.unit)
    requires |DenomsOf(Get(weights, a.unit).value, a.kind)| < 2
    ensures EditWeights(a, weights) == Ok(None)
  {
  }

  /** KeyError exactly for a missing unit, or a missing title when the action gets that far. */
  lemma EditKeyError(a: EditAction, weights: Dict<UnitWeights>)
    ensures EditWeights(a, weights).Err? ==> EditWeights(a, weights).error == KeyError
    ensures EditWeights(a, weights).Err? <==>
      || !HasKey(weights, a.unit)
      || (var d := DenomsOf(Get(weights, a.unit).value, a.kind);
          !HasKey(d, a.title) && (a.kind == Plates || |d| >= 2))
  {
    if HasKey(weights, a.unit) {
      AllDisabledGet(DenomsOf(Get(weights, a.unit).value, a.kind), a.title);
    }
  }

  /** An edit keeps the document usable by the states: "weights" still holds both units
    * and "prompt" is untouched. */
  lemma EditKeepsWellFormed(a: EditAction, doc: Document, w1: Dict<UnitWeights>)
    requires WellFormed(doc)
    requires EditWeights(a, WeightsOf(doc).value) == Ok(Some(w1))
    ensures WellFormed(Put(doc, "weights", Weights(w1)))
    ensures UnitStateOf(Put(doc, "weights", Weights(w1))) == UnitStateOf(doc)
  {
    var weights := WeightsOf(doc).value;
    var u := Get(weights, a.unit).value;
    var d := DenomsOf(u, a.kind);
    if a.kind == Plates {
      var e := Get(d, a.title).value;
      var u1 := u.(plates := Put(d, a.title, Denomination(!e.using, e.value)));
      PutHasKey(weights, a.unit, u1, "LB");
      PutHasKey(weights, a.unit, u1, "KG");
    } else {
      var off := AllDisabled(d);
      var v := Get(off, a.title).value.value;
      var u1 := Selected(u, a.kind, Put(off, a.title, Denomination(true, v)), v);
      PutHasKey(weights, a.unit, u1, "LB");
      PutHasKey(weights, a.unit, u1, "KG");
    }
    GetPutSame(doc, "weights", Weights(w1));
    GetPutOther(doc, "weights", Weights(w1), "prompt");
  }

  /** A node of the menu tree: a Menu with its children in order, or an action leaf. */
  datatype Node = Menu(title: string, submenus: seq<Node>) | Action(action: EditAction)

  /** The "Back" entry every menu starts with: a Menu created without an exit of its own. */
  const Back: Node := Menu("Back", [])

  function DenomValue(e: (string, Denomination)): int { e.1.value }

  function ActionsFor(kind: Kind, unit: string, names: seq<string>): (r: seq<Node>)
    ensures |r| == |names|
    ensures forall i :: 0 <= i < |names| ==> r[i] == Action(EditAction(kind, unit, names[i]))
  {
    if names == [] then [] else [Action(EditAction(kind, unit, names[0]))] + ActionsFor(kind, unit, names[1..])
  }

  lemma ActionsForAppend(kind: Kind, unit: string, names: seq<string>, j: int)
    requires 0 <= j < |names|
    ensures ActionsFor(kind, unit, names[..j + 1]) == ActionsFor(kind, unit, names[..j]) + [Action(EditAction(kind, unit, names[j]))]
  {
    var a, b := ActionsFor(kind, unit, names[..j + 1]), ActionsFor(kind, unit, names[..j]);
    assert |a| == |b| + 1;
    forall i | 0 <= i < |a| ensures a[i] == (b + [Action(EditAction(kind, unit, names[j]))])[i] {
      assert names[..j + 1][i] == names[i];
    }
  }

  /** The names of a unit's denominations, largest value first. */
  function UnitNames(weights: Dict<UnitWeights>, unit: string, kind: Kind): seq<string>
  {
    match Get(weights, unit)
    case None => []
    case Some(u) => Keys(SortDesc(DenomsOf(u, kind), DenomValue))
  }

  function UnitMenu(weights: Dict<UnitWeights>, unit: string, kind: Kind): Node
  {
    Menu(unit, [Back] + ActionsFor(kind, unit, UnitNames(weights, unit, kind)))
  }

  function UnitMenus(weights: Dict<UnitWeights>, units: seq<string>, kind: Kind): (r: seq<Node>)
    ensures |r| == |units|
    ensures forall i :: 0 <= i < |units| ==> r[i] == UnitMenu(weights, units[i], kind)
  {
    if units == [] then [] else [UnitMenu(weights, units[0], kind)] + UnitMenus(weights, units[1..], kind)
  }

  lemma UnitMenusAppend(weights: Dict<UnitWeights>, units: seq<string>, kind: Kind, i: int)
    requires 0 <= i < |units|
    ensures UnitMenus(weights, units[..i + 1], kind) == UnitMenus(weights, units[..i], kind) + [UnitMenu(weights, units[i], kind)]
  {
    var a, b := UnitMenus(weights, units[..i + 1], kind), UnitMenus(weights, units[..i], kind);
    assert |a| == |b| + 1;
    forall k | 0 <= k < |a| ensures a[k] == (b + [UnitMenu(weights, units[i], kind)])[k] {
      assert units[..i + 1][k] == units[k];
    }
  }

  function KindMenu(title: string, kind: Kind, weights: Dict<UnitWeights>): Node
  {
    Menu(title, [Back] + UnitMenus(weights, SortStrings(Keys(weights)), kind))
  }

  /** The tree `menu_init` builds from the "weights" entry. */
  function MenuSpec(weights: Dict<UnitWeights>): Node
  {
    Menu("Home", [Back, KindMenu("Edit plates", Plates, weights), KindMenu("Edit bars", Bars, weights),
      KindMenu("Edit collars", Collars, weights)])
  }

  /** One unit's menu: `Menu(unit)` and an action added for each of `names` in turn. */
  method BuildUnitMenu(kind: Kind, unit: string, names: seq<string>) returns (menu: Node)
    ensures menu == Menu(unit, [Back] + ActionsFor(kind, unit, names))
  {
    var children := [Back];
    for j := 0 to |names|
      invariant children == [Back] + ActionsFor(kind, unit, names[..j])
    {
      ActionsForAppend(kind, unit, names, j);
      children := children + [Action(EditAction(kind, unit, names[j]))];
    }
    assert names[..|names|] == names;
    menu := Menu(unit, children);
  }

  /** `menu_init`: the three edit menus under Home, and for each unit in name order a
    * plate, a bar and a collar menu. */
  method MenuInit(weights: Dict<UnitWeights>) returns (home: Node)
    ensures home == MenuSpec(weights)
  {
    var units := SortStrings(Keys(weights));
    var plateMenus, barMenus, collarMenus := [], [], [];
    for i := 0 to |units|
      invariant plateMenus == UnitMenus(weights, units[..i], Plates)
      invariant barMenus == UnitMenus(weights, units[..i], Bars)
      invariant collarMenus == UnitMenus(weights, units[..i], Collars)
    {
      var barMenu := BuildUnitMenu(Bars, units[i], UnitNames(weights, units[i], Bars));
      var plateMenu := BuildUnitMenu(Plates, units[i], UnitNames(weights, units[i], Plates));
      var collarMenu := BuildUnitMenu(Collars, units[i], UnitNames(weights, units[i], Collars));
      UnitMenusAppend(weights, units, Plates, i);
      UnitMenusAppend(weights, units, Bars, i);
      UnitMenusAppend(weights, units, Collars, i);
      plateMenus := plateMenus + [plateMenu];
      barMenus := barMenus + [barMenu];
      collarMenus := collarMenus + [collarMenu];
    }
    assert units[..|units|] == units;
    home := Menu("Home", [Back, Menu("Edit plates", [Back] + plateMenus), Menu("Edit bars", [Back] + barMenus),
      Menu("Edit collars", [Back] + collarMenus)]);
  }

  /** `menu` is "Back" followed by one action per entry of `d`, the entries ordered by
    * descending value (a permutation of `d`). */
  predicate ListsDenominations(menu: Node, unit: string, kind: Kind, d: Dict<Denomination>)
  {
    var s := SortDesc(d, DenomValue);
    && SortedDesc(s, DenomValue) && multiset(s) == multiset(d) && |s| == |d|
    && menu.Menu? && menu.title == unit
    && |menu.submenus| == |d| + 1 && menu.submenus[0] == Back
    && (forall i :: 0 <= i < |s| ==> menu.submenus[i + 1] == Action(EditAction(kind, unit, s[i].0)))
  }

  /** `menu` is "Back" followed by one menu per unit, in unit-name order. */
  predicate ListsUnits(menu: Node, title: string, kind: Kind, weights: Dict<UnitWeights>)
  {
    var units := SortStrings(Keys(weights));
    && SortedStrings(units) && multiset(units) == multiset(Keys(weights)) && |units| == |weights|
    && menu.Menu? && menu.title == title
    && |menu.submenus| == |weights| + 1 && menu.submenus[0] == Back
    && (forall i :: 0 <= i < |units| ==>
          Get(weights, units[i]).Some? && ListsDenominations(menu.submenus[i + 1], units[i], kind, DenomsOf(Get(weights, units[i]).value, kind)))
  }

  lemma UnitMenuShape(weights: Dict<UnitWeights>, unit: string, kind: Kind)
    requires HasKey(weights, unit)
    ensures ListsDenominations(UnitMenu(weights, unit, kind), unit, kind, DenomsOf(Get(weights, unit).value, kind))
  {
    var d := DenomsOf(Get(weights, unit).value, kind);
    SortDescSorted(d, DenomValue);
    SortDescPermutation(d, DenomValue);
  }

  lemma KindMenuShape(title: string, kind: Kind, weights: Dict<UnitWeights>)
    ensures ListsUnits(KindMenu(title, kind, weights), title, kind, weights)
  {
    var units := SortStrings(Keys(weights));
    SortStringsSorted(Keys(weights));
    SortStringsPermutation(Keys(weights));
    var subs := KindMenu(title, kind, weights).submenus;
    forall i | 0 <= i < |units|
      ensures Get(weights, units[i]).Some?
      ensures ListsDenominations(subs[i + 1], units[i], kind, DenomsOf(Get(weights, units[i]).value, kind))
    {
      KindMenuChild(title, kind, weights, units, i);
    }
  }

  /** The child after Back at position `i` is the unit menu of the `i`-th sorted unit name. */
  lemma KindMenuChild(title: string, kind: Kind, weights: Dict<UnitWeights>, units: seq<string>, i: nat)
    requires units == SortStrings(Keys(weights)) && multiset(units) == multiset(Keys(weights)) && i < |units|
    ensures Get(weights, units[i]).Some?
    ensures ListsDenominations(KindMenu(title, kind, weights).submenus[i + 1], units[i], kind, DenomsOf(Get(weights, units[i]).value, kind))
  {
    assert KindMenu(title, kind, weights).submenus[i + 1] == UnitMenu(weights, units[i], kind);
    assert units[i] in multiset(Keys(weights));
    var j :| 0 <= j < |Keys(weights)| && Keys(weights)[j] == units[i];
    assert weights[j].0 == units[i];
    UnitMenuShape(weights, units[i], kind);
  }

  /** Home holds Back, "Edit plates", "Edit bars" and "Edit collars"; each of those holds
    * Back and one menu per unit in name order; each unit menu holds Back and one action per
    * denomination, largest first. */
  lemma MenuSpecShape(weights: Dict<UnitWeights>)
    ensures var home := MenuSpec(weights);
      && home.title == "Home" && |home.submenus| == 4 && home.submenus[0] == Back
      && ListsUnits(home.submenus[1], "Edit plates", Plates, weights)
      && ListsUnits(home.submenus[2], "Edit bars", Bars, weights)
      && ListsUnits(home.submenus[3], "Edit collars", Collars, weights)
  {
    KindMenuShape("Edit plates", Plates, weights);
    KindMenuShape("Edit bars", Bars, weights);
    KindMenuShape("Edit collars", Collars, weights);
  }

  /** What an action does to the whole configuration: the error it raises, Ok(None) when
    * the edit changes nothing and nothing is saved, or the document that is saved. */
  function EditDocument(a: EditAction, doc: Document): Result<Option<Document>>
  {
    match WeightsOf(doc)
    case None => Err(KeyError)
    case Some(w) =>
      match EditWeights(a, w)
      case Err(e) => Err(e)
      case Ok(None) => Ok(None)
      case Ok(Some(w1)) => Ok(Some(Put(doc, "weights", Weights(w1))))
  }

  /** An action's `action(interface)`: read "weights", edit it, and write it back only when
    * the edit changes something. A missing entry or unit or title fails with KeyError. */
  method RunEdit(a: EditAction, cfg: ConfigManager) returns (o: Outcome)
    modifies cfg
    ensures WeightsOf(old(cfg.cache)).None? ==> o == Fail(KeyError) && cfg.cache == old(cfg.cache) && cfg.saves == old(cfg.saves)
    ensures WeightsOf(old(cfg.cache)).Some? ==>
      var e := EditWeights(a, WeightsOf(old(cfg.cache)).value);
      && (e.Err? ==> o == Fail(e.error) && cfg.cache == old(cfg.cache) && cfg.saves == old(cfg.saves))
      && (e == Ok(None) ==> o == Pass && cfg.cache == old(cfg.cache) && cfg.saves == old(cfg.saves))
      && (e.Ok? && e.value.Some? ==>
            o == Pass && cfg.cache == Put(old(cfg.cache), "weights", Weights(e.value.value)) && cfg.saves == old(cfg.saves) + 1)
  {
    var entry := cfg.Read("weights");
    if entry.None? || !entry.value.Weights? {
      return Fail(KeyError);
    }
    var weights := entry.value.units;
    if Get(weights, a.unit).None? {
      return Fail(KeyError);
    }
    var u := Get(weights, a.unit).value;
    var d := DenomsOf(u, a.kind);
    if a.kind == Plates {
      if Get(d, a.title).None? {
        return Fail(KeyError);
      }
      var e := Get(d, a.title).value;
      cfg.Write("weights", Weights(Put(weights, a.unit, u.(plates := Put(d, a.title, Denomination(!e.using, e.value))))));
      return Pass;
    }
    if |d| < 2 {
      return Pass;
    }
    var off := DisableAll(d);
    if Get(off, a.title).None? {
      return Fail(KeyError);
    }
    var v := Get(off, a.title).value.value;
    cfg.Write("weights", Weights(Put(weights, a.unit, Selected(u, a.kind, Put(off, a.title, Denomination(true, v)), v))));
    return Pass;
  }

  /** The node reached from `n` by following child indices `p`, if there is one. */
  function At(n: Node, p: seq<nat>): Option<Node>
    decreases |p|
  {
    if p == [] then Some(n)
    else if n.Action? || p[0] >= |n.submenus| then None
    else At(n.submenus[p[0]], p[1..])
  }

  predicate IsMenu(root: Node, p: seq<nat>) { At(root, p).Some? && At(root, p).value.Menu? }

  lemma {:induction false} AtChild(n: Node, p: seq<nat>, i: nat)
    requires IsMenu(n, p) && i < |At(n, p).value.submenus|
    ensures At(n, p + [i]) == Some(At(n, p).value.submenus[i])
    decreases |p|
  {
    if p != [] {
      assert (p + [i])[1..] == p[1..] + [i];
      AtChild(n.submenus[p[0]], p[1..], i);
    }
  }

  lemma {:induction false} AtParent(n: Node, p: seq<nat>)
    requires p != [] && At(n, p).Some?
    ensures IsMenu(n, p[..|p| - 1])
    decreases |p|
  {
    if |p| > 1 {
      assert p[1..][..|p[1..]| - 1] == p[..|p| - 1][1..];
      AtParent(n.submenus[p[0]], p[1..]);
    }
  }

  /** The largest scroll position of a menu with `count` children. */
  function MaxRow(count: int): nat { if count >= 2 then count - 2 else 0 }

  /** `scroll_down`: one step further while a second row is still below. */
  function ScrolledDown(row: nat, count: int): (r: nat)
    ensures row <= MaxRow(count) ==> r <= MaxRow(count)
    ensures r == row + 1 <==> row + 2 < count
    ensures r == row || r == row + 1
  {
    if row < count - 2 then row + 1 else row
  }

  /** `scroll_up`: one step back unless at the top. */
  function ScrolledUp(row: nat): (r: nat)
    ensures r <= row && (row > 0 ==> r == row - 1)
  {
    if row > 0 then row - 1 else row
  }

  /** What `navigate` does for `key` in a menu with children `submenus` scrolled to `row`. */
  datatype Choice = Ignore | ScrollUp | ScrollDown | Leave | Enter(index: nat) | Run(index: nat) | Broken(error: Error)

  function Choose(submenus: seq<Node>, row: nat, key: int): (c: Choice)
    ensures c.Leave? <==> key == ONE && row == 0
    ensures c.Enter? ==> c.index < |submenus| && submenus[c.index].Menu? && c.index >= row && (c.index == row <==> key == ONE)
    ensures c.Run? ==> c.index < |submenus| && submenus[c.index].Action? && c.index >= row && (c.index == row <==> key == ONE)
    ensures (c.Enter? || c.Run?) <==> (key == ONE && 0 < row < |submenus|) || (key == TWO && row + 1 < |submenus|)
    ensures c.Broken? <==> key == ONE && 0 < row && |submenus| <= row
    ensures c.Broken? ==> c.error == IndexError
    ensures key == TWO && row + 1 >= |submenus| ==> c == Ignore
    ensures c.ScrollUp? <==> key == EIGHT
    ensures c.ScrollDown? <==> key == NINE
  {
    if key == ONE then
      if row == 0 then Leave
      else if row >= |submenus| then Broken(IndexError)
      else if submenus[row].Action? then Run(row) else Enter(row)
    else if key == TWO && row + 1 < |submenus| then
      if submenus[row + 1].Action? then Run(row + 1) else Enter(row + 1)
    else if key == EIGHT then ScrollUp
    else if key == NINE then ScrollDown
    else Ignore
  }

  /** The menu tree built once at start-up (`Menu.HOME`), with each menu's `row`
    * scroll cursor kept by the menu's path from the root; an absent path is at row 0. */
  class MenuTree {
    const root: Node
    var rows: map<seq<nat>, nat>

    /** The root is a menu, and every recorded cursor belongs to a menu and lies in
      * `[0, MaxRow]` of that menu. */
    predicate Valid()
      reads this
    {
      root.Menu? && forall p :: p in rows ==> IsMenu(root, p) && rows[p] <= MaxRow(|At(root, p).value.submenus|)
    }

    function Row(p: seq<nat>): nat
      reads this
    {
      if p in rows then rows[p] else 0
    }

    /** `Menu.menu_init`. */
    constructor (weights: Dict<UnitWeights>)
      ensures root == MenuSpec(weights) && rows == map[] && Valid()
    {
      var home := MenuInit(weights);
      root := home;
      rows := map[];
    }

    method ScrollDown(p: seq<nat>)
      requires Valid() && IsMenu(root, p)
      modifies this
      ensures Valid()
      ensures rows == old(rows)[p := ScrolledDown(old(Row(p)), |At(root, p).value.submenus|)]
    {
      rows := rows[p := ScrolledDown(Row(p), |At(root, p).value.submenus|)];
    }

    method ScrollUp(p: seq<nat>)
      requires Valid() && IsMenu(root, p)
      modifies this
      ensures Valid()
      ensures rows == old(rows)[p := ScrolledUp(old(Row(p)))]
    {
      rows := rows[p := ScrolledUp(Row(p))];
    }

    /** `Menu.navigate` on the menu at `p`: Ok(Some(q)) names the menu shown next,
      * Ok(None) leaves the root for the prompt, Err is the error the source raises. */
    method Navigate(p: seq<nat>, key: int, cfg: ConfigManager) returns (r: Result<Option<seq<nat>>>)
      requires Valid() && IsMenu(root, p)
      modifies this, cfg
      ensures Valid()
      ensures r.Ok? && r.value.Some? ==> IsMenu(root, r.value.value)
      ensures var c := Choose(At(root, p).value.submenus, old(Row(p)), key);
        && (c.Leave? ==> r == Ok(if p == [] then None else Some(p[..|p| - 1])))
        && (c.Enter? ==> r == Ok(Some(p + [c.index])))
        && (c.Broken? ==> r == Err(c.error))
        && (c.Ignore? || c.ScrollUp? || c.ScrollDown? ==> r == Ok(Some(p)))
        && (c.ScrollUp? ==> rows == old(rows)[p := ScrolledUp(old(Row(p)))])
        && (c.ScrollDown? ==> rows == old(rows)[p := ScrolledDown(old(Row(p)), |At(root, p).value.submenus|)])
        && (!c.ScrollUp? && !c.ScrollDown? ==> rows == old(rows))
        && (!c.Run? ==> cfg.cache == old(cfg.cache) && cfg.saves == old(cfg.saves))
        && (c.Run? ==>
              var e := EditDocument(At(root, p).value.submenus[c.index].action, old(cfg.cache));
              && (e.Err? ==> r == Err(e.error) && cfg.cache == old(cfg.cache) && cfg.saves == old(cfg.saves))
              && (e == Ok(None) ==> r == Ok(Some(p)) && cfg.cache == old(cfg.cache) && cfg.saves == old(cfg.saves))
              && (e.Ok? && e.value.Some? ==> r == Ok(Some(p)) && cfg.cache == e.value.value && cfg.saves == old(cfg.saves) + 1))
    {
      var submenus := At(root, p).value.submenus;
      var c := Choose(submenus, Row(p), key);
      match c {
        case Ignore => r := Ok(Some(p));
        case ScrollUp => ScrollUp(p); r := Ok(Some(p));
        case ScrollDown => ScrollDown(p); r := Ok(Some(p));
        case Leave =>
          if p == [] {
            r := Ok(None);
          } else {
            AtParent(root, p);
            r := Ok(Some(p[..|p| - 1]));
          }
        case Enter(i) =>
          AtChild(root, p, i);
          r := Ok(Some(p + [i]));
        case Run(i) =>
          var o := RunEdit(submenus[i].action, cfg);
          r := if o.Fail? then Err(o.error) else Ok(Some(p));
        case Broken(e) => r := Err(e);
      }
    }
  }

  /** `get_title`: a menu's own title, or an action's title with its "*" mark. */
  function NodeTitle(n: Node, weights: Dict<UnitWeights>): Result<string>
  {
    match n
    case Menu(t, _) => Ok(t)
    case Action(a) => ActionTitle(a, weights)
  }

  /** A line padded so `glyph` lands in the last display column. */
  function Marked(line: string, glyph: char): (r: string)
    ensures |line| < Columns ==> |r| == Columns && r[Columns - 1] == glyph && r[..|line|] == line
  {
    line + Spaces(Columns - |line| - 1) + [glyph]
  }

  /** `Menu.render`: the child at `row` on line 1, the next child on line 2, with a scroll-up
    * glyph when rows are hidden above and a scroll-down glyph when rows are hidden below. */
  function MenuRender(submenus: seq<Node>, row: nat, weights: Dict<UnitWeights>, up: char, down: char): Result<(string, string)>
  {
    if row >= |submenus| then Err(IndexError)
    else match NodeTitle(submenus[row], weights)
      case Err(e) => Err(e)
      case Ok(t1) =>
        var first := if row > 0 then Marked("1: " + t1, up) else "1: " + t1;
        if row + 1 < |submenus| then
          match NodeTitle(submenus[row + 1], weights)
          case Err(e) => Err(e)
          case Ok(t2) => Ok((first, if row + 2 < |submenus| then Marked("2: " + t2, down) else "2: " + t2))
        else Ok((first, ""))
  }

  /** The two rendered lines, for titles of at most 12 characters (the display width). */
  lemma MenuRenderLines(submenus: seq<Node>, row: nat, weights: Dict<UnitWeights>, up: char, down: char)
    requires row < |submenus|
    requires forall n :: n in submenus ==> NodeTitle(n, weights).Ok? && |NodeTitle(n, weights).value| <= 12
    ensures MenuRender(submenus, row, weights, up, down).Ok?
    ensures var (first, second) := MenuRender(submenus, row, weights, up, down).value;
      && var t1 := NodeTitle(submenus[row], weights).value;
      && first[..3 + |t1|] == "1: " + t1 && |first| <= Columns
      && (row > 0 <==> |first| == Columns && first[Columns - 1] == up)
      && (second == "" <==> row + 1 >= |submenus|)
      && (row + 1 < |submenus| ==> second[..3 + |NodeTitle(submenus[row + 1], weights).value|] == "2: " + NodeTitle(submenus[row + 1], weights).value)
      && |second| <= Columns
      && (row + 2 < |submenus| <==> |second| == Columns && second[Columns - 1] == down)
  {
    assert submenus[row] in submenus;
    if row + 1 < |submenus| {
      assert submenus[row + 1] in submenus;
    }
  }

  /** Rendering fails exactly when the cursor is past the children or a title lookup fails. */
  lemma MenuRenderFails(submenus: seq<Node>, row: nat, weights: Dict<UnitWeights>, up: char, down: char)
    ensures MenuRender(submenus, row, weights, up, down).Err? <==>
      row >= |submenus| || NodeTitle(submenus[row], weights).Err? || (row + 1 < |submenus| && NodeTitle(submenus[row + 1], weights).Err?)
  {
  }
}
