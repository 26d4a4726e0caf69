/** The configuration document and the store that caches it (ConfigManager). */
module Config {
  import opened Wrappers
  import opened Dicts

  /** One plate, bar or collar: whether it is available, and its weight. Plate and collar
    * values are in hundredths of the unit; bar values are in whole units. */
  datatype Denomination = Denomination(using: bool, value: int)

  /** The configuration of one unit ("LB" or "KG"). `bar` (whole units) and `collar`
    * (hundredths) repeat the value of the enabled bar and collar. */
  datatype UnitWeights = UnitWeights(
    plates: Dict<Denomination>,
    bars: Dict<Denomination>,
    bar: int,
    collars: Dict<Denomination>,
    collar: int)

  /** A top-level entry of the document: "weights" (per unit) or "prompt" (the unit ring). */
  datatype Entry = Weights(units: Dict<UnitWeights>) | Prompt(unitState: int)

  type Document = Dict<Entry>

  const LbWeights := UnitWeights(
    [("55", Denomination(false, 5500)), ("45", Denomination(true, 4500)),
     ("35", Denomination(false, 3500)), ("25", Denomination(true, 2500)),
     ("10", Denomination(true, 1000)), ("5", Denomination(true, 500)),
     ("2.5", Denomination(true, 250)), ("1.25", Denomination(false, 125))],
    [("45", Denomination(true, 45)), ("35", Denomination(false, 35))],
    45,
    [("0", Denomination(true, 0))],
    0)

  const KgWeights := UnitWeights(
    [("25", Denomination(true, 2500)), ("20", Denomination(true, 2000)),
     ("15", Denomination(true, 1500)), ("10", Denomination(true, 1000)),
     ("5", Denomination(true, 500)), ("2.5", Denomination(true, 250)),
     ("1.25", Denomination(true, 125))],
    [("20", Denomination(true, 20)), ("15", Denomination(false, 15))],
    20,
    [("0", Denomination(true, 0)), ("1.25", Denomination(false, 125)), ("2.5", Denomination(false, 250))],
    0)

  /** `ConfigManager.DEFAULT_CONFIG`. */
  const DefaultConfig: Document := [
    ("weights", Weights([("LB", LbWeights), ("KG", KgWeights)])),
    ("prompt", Prompt(0))
  ]

  /** The names of the enabled entries, in dictionary order. */
  function EnabledNames(d: Dict<Denomination>): (r: seq<string>)
    ensures forall n :: n in r ==> HasKey(d, n)
  {
    if d == [] then []
    else (if d[0].1.using then [d[0].0] else []) + EnabledNames(d[1..])
  }

  /** Exactly one entry is enabled and `selected` is its value: the invariant of bars and collars. */
  predicate SingleSelection(d: Dict<Denomination>, selected: int) {
    |EnabledNames(d)| == 1 && Get(d, EnabledNames(d)[0]) == Some(Denomination(true, selected))
  }

  /** The invariant every unit of a usable configuration keeps. */
  predicate Synced(u: UnitWeights) {
    && SingleSelection(u.bars, u.bar)
    && SingleSelection(u.collars, u.collar)
  }

  /** At least one plate is enabled and every enabled plate weighs something. */
  predicate PlatesUsable(u: UnitWeights) {
    && EnabledNames(u.plates) != []
    && forall i :: 0 <= i < |u.plates| && u.plates[i].1.using ==> u.plates[i].1.value > 0
  }

  /** The document shape the state machine relies on: a unit ring index in 0..3, and a
    * weights entry holding both units. */
  predicate WellFormed(doc: Document) {
    && UnitStateOf(doc).Some? && 0 <= UnitStateOf(doc).value < 4
    && WeightsOf(doc).Some? && HasKey(WeightsOf(doc).value, "LB") && HasKey(WeightsOf(doc).value, "KG")
  }

  /** `doc["prompt"]["unit_state"]`; None where Python raises KeyError. */
  function UnitStateOf(doc: Document): (r: Option<int>)
    ensures r.Some? <==> Get(doc, "prompt").Some? && Get(doc, "prompt").value.Prompt?
  {
    var e := Get(doc, "prompt");
    if e.Some? && e.value.Prompt? then Some(e.value.unitState) else None
  }

  /** `doc["weights"]`, when it is a weights entry. */
  function WeightsOf(doc: Document): (r: Option<Dict<UnitWeights>>)
    ensures r.Some? <==> Get(doc, "weights").Some? && Get(doc, "weights").value.Weights?
  {
    var e := Get(doc, "weights");
    if e.Some? && e.value.Weights? then Some(e.value.units) else None
  }

  lemma LbDefaultsSynced()
    ensures Synced(LbWeights) && LbWeights.bar == 45 && LbWeights.collar == 0
  {
    assert EnabledNames(LbWeights.bars) == ["45"];
    assert EnabledNames(LbWeights.collars) == ["0"];
  }

  lemma KgDefaultsSynced()
    ensures Synced(KgWeights) && KgWeights.bar == 20 && KgWeights.collar == 0
  {
    assert EnabledNames(KgWeights.bars) == ["20"];
    assert EnabledNames(KgWeights.collars[2..]) == [];
    assert EnabledNames(KgWeights.collars[1..]) == [];
    assert EnabledNames(KgWeights.collars) == ["0"];
  }

  lemma LbPlatesUsable()
    ensures PlatesUsable(LbWeights)
  {
    assert EnabledNames(LbWeights.plates) == EnabledNames(LbWeights.plates[1..]);
    assert EnabledNames(LbWeights.plates[1..])[0] == "45";
  }

  lemma KgPlatesUsable()
    ensures PlatesUsable(KgWeights)
  {
    assert EnabledNames(KgWeights.plates)[0] == "25";
  }

  lemma DefaultPlatesUsable()
    ensures PlatesUsable(LbWeights) && PlatesUsable(KgWeights)
  {
    LbPlatesUsable();
    KgPlatesUsable();
  }

  lemma DefaultWellFormed()
    ensures Get(DefaultConfig, "prompt") == Some(Prompt(0))
    ensures WellFormed(DefaultConfig)
  {
    assert DefaultConfig[0].0 != "prompt" && DefaultConfig[1].0 == "prompt";
    var w := [("LB", LbWeights), ("KG", KgWeights)];
    assert Get(DefaultConfig, "weights") == Some(Weights(w));
    assert w[0].0 == "LB" && w[1].0 == "KG";
  }

  /** DEFAULT_CONFIG: each unit has one enabled bar and one enabled collar whose values the
    * `bar`/`collar` fields repeat (LB 45/0, KG 20/0), usable plates, and unit_state 0. */
  lemma DefaultConfigInvariants()
    ensures Synced(LbWeights) && LbWeights.bar == 45 && LbWeights.collar == 0
    ensures Synced(KgWeights) && KgWeights.bar == 20 && KgWeights.collar == 0
    ensures PlatesUsable(LbWeights) && PlatesUsable(KgWeights)
    ensures Get(DefaultConfig, "prompt") == Some(Prompt(0))
    ensures WellFormed(DefaultConfig)
  {
    LbDefaultsSynced();
    KgDefaultsSynced();
    DefaultPlatesUsable();
    DefaultWellFormed();
  }

  /** What `confirm_config_init` makes of `cache`: each default key that is missing is added
    * with its default value, in DEFAULT_CONFIG's order; keys already present are kept whole. */
  function SeedFrom(cache: Document, defaults: Document): Document
    decreases |defaults|
  {
    if defaults == [] then cache
    else
      var next := if HasKey(cache, defaults[0].0) then cache else Put(cache, defaults[0].0, defaults[0].1);
      SeedFrom(next, defaults[1..])
  }

  function Seeded(cache: Document): Document { SeedFrom(cache, DefaultConfig) }

  lemma {:induction false} SeedFromKeeps(cache: Document, defaults: Document, k: string)
    requires HasKey(cache, k)
    ensures Get(SeedFrom(cache, defaults), k) == Get(cache, k)
    decreases |defaults|
  {
    if defaults != [] {
      var d := defaults[0];
      if !HasKey(cache, d.0) {
        GetPutOther(cache, d.0, d.1, k);
        PutHasKey(cache, d.0, d.1, k);
      }
      var next := if HasKey(cache, d.0) then cache else Put(cache, d.0, d.1);
      SeedFromKeeps(next, defaults[1..], k);
    }
  }

  lemma {:induction false} SeedFromAdds(cache: Document, defaults: Document, k: string)
    requires !HasKey(cache, k) && DistinctKeys(defaults)
    ensures Get(SeedFrom(cache, defaults), k) == Get(defaults, k)
    decreases |defaults|
  {
    if defaults != [] {
      var d := defaults[0];
      var next := if HasKey(cache, d.0) then cache else Put(cache, d.0, d.1);
      if d.0 == k {
        GetPutSame(cache, k, d.1);
        SeedFromKeeps(next, defaults[1..], k);
      } else {
        if !HasKey(cache, d.0) { PutHasKey(cache, d.0, d.1, k); }
        SeedFromAdds(next, defaults[1..], k);
      }
    }
  }

  lemma {:induction false} SeedFromOnlyAdds(cache: Document, defaults: Document, k: string)
    requires !HasKey(cache, k) && !HasKey(defaults, k)
    ensures !HasKey(SeedFrom(cache, defaults), k)
    decreases |defaults|
  {
    if defaults != [] {
      var d := defaults[0];
      assert d.0 != k;
      if !HasKey(cache, d.0) { PutHasKey(cache, d.0, d.1, k); }
      var next := if HasKey(cache, d.0) then cache else Put(cache, d.0, d.1);
      forall i | 0 <= i < |defaults[1..]| ensures defaults[1..][i].0 != k { assert defaults[1..][i] == defaults[i + 1]; }
      SeedFromOnlyAdds(next, defaults[1..], k);
    }
  }

  /** confirm_config_init never overwrites a present key, even where its value lacks
    * nested default sub-keys; it fills every missing top-level key with its default and adds
    * nothing else; afterwards "weights" and "prompt" are present. */
  lemma SeededProperties(cache: Document, k: string)
    ensures HasKey(cache, k) ==> Get(Seeded(cache), k) == Get(cache, k)
    ensures !HasKey(cache, k) ==> Get(Seeded(cache), k) == Get(DefaultConfig, k)
    ensures HasKey(Seeded(cache), "weights") && HasKey(Seeded(cache), "prompt")
  {
    assert DistinctKeys(DefaultConfig);
    assert Get(DefaultConfig, "weights").Some? && Get(DefaultConfig, "prompt").Some?;
    forall key | key in {k, "weights", "prompt"}
      ensures HasKey(cache, key) ==> Get(Seeded(cache), key) == Get(cache, key)
      ensures !HasKey(cache, key) ==> Get(Seeded(cache), key) == Get(DefaultConfig, key)
    {
      if HasKey(cache, key) { SeedFromKeeps(cache, DefaultConfig, key); } else { SeedFromAdds(cache, DefaultConfig, key); }
    }
    if !HasKey(cache, k) && !HasKey(DefaultConfig, k) { SeedFromOnlyAdds(cache, DefaultConfig, k); }
  }

  /** Seeding adds no duplicate key to a document that has none. */
  lemma {:induction false} SeedFromDistinct(cache: Document, defaults: Document)
    requires DistinctKeys(cache)
    ensures DistinctKeys(SeedFrom(cache, defaults))
    decreases |defaults|
  {
    if defaults != [] {
      var d := defaults[0];
      if !HasKey(cache, d.0) { PutDistinct(cache, d.0, d.1); }
      var next := if HasKey(cache, d.0) then cache else Put(cache, d.0, d.1);
      SeedFromDistinct(next, defaults[1..]);
    }
  }

  /** Seeding an empty store (no configuration file yet) gives DEFAULT_CONFIG itself. */
  lemma SeededEmpty()
    ensures Seeded([]) == DefaultConfig
  {
    var step := Put([], "weights", DefaultConfig[0].1);
    assert SeedFrom([], DefaultConfig) == SeedFrom(step, DefaultConfig[1..]);
    assert !HasKey(step, "prompt");
    assert SeedFrom(step, DefaultConfig[1..]) == SeedFrom(Put(step, "prompt", Prompt(0)), []);
  }

  /** `ConfigManager`: the in-memory cache of the configuration file. Saving to the file is
    * counted rather than performed. */
  class ConfigManager {
    var cache: Document
    /** How many times the cache has been written to the file. */
    var saves: nat

    /** `stored` is what `load_cache` read: the file's document, or None when it could not be opened. */
    constructor (stored: Option<Document>)
      ensures cache == Seeded(if stored.Some? then stored.value else []) && saves == 1
    {
      cache := if stored.Some? then stored.value else [];
      saves := 0;
      new;
      ConfirmConfigInit();
    }

    /** Adds the missing default keys one at a time, then saves. */
    method ConfirmConfigInit()
      modifies this
      ensures cache == Seeded(old(cache)) && saves == old(saves) + 1
    {
      var i := 0;
      while i < |DefaultConfig|
        invariant 0 <= i <= |DefaultConfig|
        invariant SeedFrom(cache, DefaultConfig[i..]) == Seeded(old(cache))
        invariant saves == old(saves)
      {
        var (key, val) := DefaultConfig[i];
        if !HasKey(cache, key) {
          cache := Put(cache, key, val);
        }
        assert DefaultConfig[i..][1..] == DefaultConfig[i + 1..];
        i := i + 1;
      }
      saves := saves + 1;
    }

    /** `read(key)`; None where the dictionary lookup raises KeyError. */
    function Read(key: string): (r: Option<Entry>)
      reads this
      ensures r.Some? <==> HasKey(cache, key)
      ensures r.Some? ==> (key, r.value) in cache
    {
      Get(cache, key)
    }

    /** `write(key, value)`: the cache takes the value and is saved. */
    method Write(key: string, value: Entry)
      modifies this
      ensures cache == Put(old(cache), key, value) && saves == old(saves) + 1
      ensures Read(key) == Some(value)
      ensures forall k :: k != key ==> Read(k) == old(Read(k))
    {
      cache := Put(cache, key, value);
      saves := saves + 1;
      GetPutSame(old(cache), key, value);
      forall k | k != key ensures Get(cache, k) == Get(old(cache), k) { GetPutOther(old(cache), key, value, k); }
    }
  }
}
