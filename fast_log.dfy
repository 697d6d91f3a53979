/**
 * The fast-variable registry of FastLogTool: the module-level records that
 * hold log levels, flags, integers and strings, the one-time import of the
 * client settings into them, the registration helpers that give a variable
 * its default, and the dynamic lookups that refresh `cache` before reading.
 *
 * The module's records are fields of one FastLogTool object; ClientSettings
 * (whose getters the tool calls) is an input value.
 */
module FastLog {
  import opened JsValue

  /** The four kinds of fast variable. */
  datatype Kind = Log | Flag | Int | String

  /** F* (static), DF* (dynamic) and SF* (synchronized) variables. */
  datatype Tier = Fast | Dynamic | Synchronized

  /**
   * The tables the tool updates in place:
   *   Record(Fast, k)          FLog, FFlag, FInt, FString
   *   Record(Synchronized, k)  SFLog, SFFlag, SFInt, SFString
   *   Record(Dynamic, k)       the properties setUpFLog writes onto the DFLog,
   *                            DFFlag, DFInt and DFString function objects
   *   Cache(k)                 cache.DFLog, cache.DFFlag, cache.DFInt, cache.DFString
   */
  datatype Table = Record(tier: Tier, kind: Kind) | Cache(kind: Kind)

  /** All tables; a table that was never written is empty. */
  type Tables = map<Table, map<string, Value>>

  function TableOf(t: Tables, x: Table): map<string, Value> {
    if x in t then t[x] else map[]
  }

  /**
   * What the ClientSettings getters return: for each (tier, kind) the table
   * GetFLogs, GetDFLogs, ..., GetSFStrings gives, absent when the getter gives
   * null; and the value GetFSettings gives.
   */
  datatype ClientSettings = ClientSettings(groups: map<(Tier, Kind), map<string, Value>>, fSettings: Value)

  /** The order in which setUpFLog reads the getters and copies their tables. */
  const SetupOrder: seq<(Tier, Kind)> := [
    (Fast, Log), (Dynamic, Log), (Synchronized, Log),
    (Fast, Flag), (Dynamic, Flag), (Synchronized, Flag),
    (Fast, Int), (Dynamic, Int), (Synchronized, Int),
    (Fast, String), (Dynamic, String), (Synchronized, String)
  ]

  lemma SetupOrderCoversAllGroups(g: (Tier, Kind))
    ensures g in SetupOrder
  {
    var (tier, kind) := g;
    var j := match kind case Log => 0 case Flag => 3 case Int => 6 case String => 9;
    var j' := j + match tier case Fast => 0 case Dynamic => 1 case Synchronized => 2;
    assert SetupOrder[j'] == g;
  }

  /**
   * Table x once setUpFLog has copied the settings into t: every key of a
   * non-null settings table overwrites the matching record's entry; the cache
   * tables are not touched.
   */
  function Imported(t: Tables, cs: ClientSettings, x: Table): map<string, Value> {
    if x.Record? && (x.tier, x.kind) in cs.groups then TableOf(t, x) + cs.groups[(x.tier, x.kind)]
    else TableOf(t, x)
  }

  /** Table x once a helper has made sure setUpFLog ran (it runs only while `setup` is false). */
  function Prepared(t: Tables, setup: bool, cs: ClientSettings, x: Table): map<string, Value> {
    if setup then TableOf(t, x) else Imported(t, cs, x)
  }

  /** The entries setUpFLog pushes onto FSettings: all of them when the value is an array, none otherwise. */
  function Packs(v: Value): seq<Value> {
    if v.Arr? then v.items else []
  }

  /** The table a registration helper writes: DYNAMIC_* helpers write `cache`, not the DF* function objects. */
  function HelperTable(tier: Tier, kind: Kind): Table {
    if tier == Dynamic then Cache(kind) else Record(tier, kind)
  }

  /** The default a plain registration helper writes: `0`, `false`, `0` or `''`. */
  function RegistrationDefault(kind: Kind): Value {
    match kind
    case Log => Num(0)
    case Flag => Bool(false)
    case Int => Num(0)
    case String => Str("")
  }

  /** The default a dynamic lookup falls back to: `0`, `false`, `0` or `null`. */
  function LookupDefault(kind: Kind): Value {
    match kind
    case Log => Num(0)
    case Flag => Bool(false)
    case Int => Num(0)
    case String => Null
  }

  /** `if (T[name] === undefined) T[name] = d`: the rule of the plain helpers. */
  function SetDefault(m: map<string, Value>, name: string, d: Value): (r: map<string, Value>)
    ensures name in r
    ensures Prop(m, name) != Undefined ==> r == m
    ensures Prop(m, name) == Undefined ==> r[name] == d
    ensures r.Keys == m.Keys + {name}
    ensures forall k :: k != name ==> Prop(r, k) == Prop(m, k)
  {
    if Prop(m, name) == Undefined then m[name := d] else m
  }

  /** `T[name] = T[name] || d`: the rule of the *VARIABLE helpers. */
  function KeepTruthy(m: map<string, Value>, name: string, d: Value): (r: map<string, Value>)
    ensures name in r
    ensures Truthy(Prop(m, name)) ==> r == m
    ensures !Truthy(Prop(m, name)) ==> r[name] == d
    ensures r.Keys == m.Keys + {name}
    ensures forall k :: k != name ==> Prop(r, k) == Prop(m, k)
  {
    m[name := Or(Prop(m, name), d)]
  }

  /** A second plain registration of a name, whatever its default, changes nothing. */
  lemma SetDefaultIdempotent(m: map<string, Value>, name: string, d: Value, d': Value)
    requires d != Undefined
    ensures SetDefault(SetDefault(m, name, d), name, d') == SetDefault(m, name, d)
  {
  }

  /** Repeating a *VARIABLE registration with the same default changes nothing. */
  lemma KeepTruthyIdempotent(m: map<string, Value>, name: string, d: Value)
    ensures KeepTruthy(KeepTruthy(m, name, d), name, d) == KeepTruthy(m, name, d)
  {
  }

  /**
   * The two rules part on a falsy value: FASTFLAG keeps an existing `false`,
   * FASTFLAGVARIABLE replaces it by its default.
   */
  lemma RulesDifferOnFalsyValue(name: string)
    ensures SetDefault(map[name := Bool(false)], name, Bool(true))[name] == Bool(false)
    ensures KeepTruthy(map[name := Bool(false)], name, Bool(true))[name] == Bool(true)
  {
  }

  /** The own properties of the `cache` object: its four tables, each an object and so truthy. */
  function CacheObjectProperty(name: string): Value {
    if name in {"DFLog", "DFFlag", "DFInt", "DFString"} then Obj else Undefined
  }

  /**
   * The value DFLog/DFFlag/DFInt/DFString(name) returns, given the live table
   * the settings give (if any) and the cache table before the call.
   */
  function DynamicValue(kind: Kind, name: string, cs: ClientSettings, cached: map<string, Value>): Value {
    if (Dynamic, kind) in cs.groups then
      var live := cs.groups[(Dynamic, kind)];
      Or(Or(Prop(live, name), Prop(cached + live, name)), LookupDefault(kind))
    else
      Or(CacheObjectProperty(name), LookupDefault(kind))
  }

  /**
   * With a live table, a lookup answers live, then cache, then default. The
   * refresh runs before the read, so a falsy live entry has already replaced
   * the cached one: only a name missing from the live table can reach the
   * cache.
   */
  lemma DynamicValueTiers(kind: Kind, name: string, cs: ClientSettings, cached: map<string, Value>)
    requires (Dynamic, kind) in cs.groups
    ensures var live := cs.groups[(Dynamic, kind)];
      DynamicValue(kind, name, cs, cached) ==
        if Truthy(Prop(live, name)) then live[name]
        else if name !in live && Truthy(Prop(cached, name)) then cached[name]
        else LookupDefault(kind)
  {
  }

  /**
   * Without a live table, a lookup reads the top-level `cache` object rather
   * than the kind's table, so anything registered in the cache is ignored:
   * every name other than the four table names gives the default.
   */
  lemma NoLiveTableIgnoresCache(kind: Kind, name: string, cs: ClientSettings, cached: map<string, Value>)
    requires (Dynamic, kind) !in cs.groups
    ensures name !in {"DFLog", "DFFlag", "DFInt", "DFString"} ==> DynamicValue(kind, name, cs, cached) == LookupDefault(kind)
    ensures name in {"DFLog", "DFFlag", "DFInt", "DFString"} ==> DynamicValue(kind, name, cs, cached) == Obj
  {
  }

  /** setUpFLog writes the dynamic settings onto the function objects, never into `cache`. */
  lemma ImportLeavesCache(t: Tables, cs: ClientSettings, kind: Kind)
    ensures Imported(t, cs, Cache(kind)) == TableOf(t, Cache(kind))
  {
  }

  /** After setUpFLog, every entry of a settings table is visible in its record. */
  lemma ImportedHoldsSettings(t: Tables, cs: ClientSettings, tier: Tier, kind: Kind, name: string)
    requires (tier, kind) in cs.groups && name in cs.groups[(tier, kind)]
    ensures Prop(Imported(t, cs, Record(tier, kind)), name) == cs.groups[(tier, kind)][name]
  {
  }

  class FastLogTool {
    /** The records FLog ... SFString, the DF* function-object properties and `cache`. */
    var tables: Tables
    /** FSettings. */
    var fSettings: seq<Value>
    /** d.setup. */
    var setup: bool
    /** How many times setUpFLog has run. */
    ghost var setupRuns: nat

    /** setUpFLog has run exactly when `setup` is set, and then once. */
    ghost predicate Valid()
      reads this
    {
      setupRuns == if setup then 1 else 0
    }

    function Get(x: Table): map<string, Value>
      reads this
    {
      TableOf(tables, x)
    }

    /** The state when the module is loaded: every record empty, `d.setup` false. */
    constructor ()
      ensures Valid() && !setup
      ensures fSettings == []
      ensures forall x :: Get(x) == map[]
    {
      tables := map[];
      fSettings := [];
      setup := false;
      setupRuns := 0;
    }

    /** `for (const k in src) T[k] = src[k]`: copy every entry of src into table x. */
    method CopyInto(x: Table, src: map<string, Value>)
      modifies this`tables
      ensures forall y :: Get(y) == if y == x then old(Get(x)) + src else old(Get(y))
    {
      ghost var before := Get(x);
      var pending := src.Keys;
      ghost var copied: set<string> := {};
      while pending != {}
        invariant pending + copied == src.Keys && pending !! copied
        invariant forall y :: Get(y) == if y == x then before + map k | k in copied :: src[k] else old(Get(y))
        decreases pending
      {
        var k :| k in pending;
        ghost var done := before + map k' | k' in copied :: src[k'];
        tables := tables[x := Get(x)[k := src[k]]];
        assert done[k := src[k]] == before + map k' | k' in copied + {k} :: src[k'];
        pending := pending - {k};
        copied := copied + {k};
      }
      assert (map k | k in copied :: src[k]) == src;
    }

    /** `fss.forEach((e) => FSettings.push(e))`. */
    method PushSettings(items: seq<Value>)
      modifies this`fSettings
      ensures fSettings == old(fSettings) + items
    {
      for i := 0 to |items|
        invariant fSettings == old(fSettings) + items[..i]
      {
        fSettings := fSettings + [items[i]];
        assert items[..i + 1] == items[..i] + [items[i]];
      }
      assert items[..|items|] == items;
    }

    /**
     * setUpFLog: copy each non-null settings table into its record, push the
     * FSettings entries when that value is an array, then set `d.setup`.
     * Every caller runs it only while `d.setup` is false.
     */
    method SetUpFLog(cs: ClientSettings)
      requires Valid() && !setup
      modifies this
      ensures Valid() && setup
      ensures forall x :: Get(x) == Imported(old(tables), cs, x)
      ensures fSettings == old(fSettings) + Packs(cs.fSettings)
    {
      ghost var t0 := tables;
      for j := 0 to |SetupOrder|
        invariant !setup && setupRuns == 0 && fSettings == old(fSettings)
        invariant
          forall x :: Get(x) ==
            if x.Record? && (x.tier, x.kind) in SetupOrder[..j] then Imported(t0, cs, x) else TableOf(t0, x)
      {
        var g := SetupOrder[j];
        assert SetupOrder[..j + 1] == SetupOrder[..j] + [g];
        if g in cs.groups {
          CopyInto(Record(g.0, g.1), cs.groups[g]);
        }
      }
      forall x: Table | x.Record?
        ensures (x.tier, x.kind) in SetupOrder[..|SetupOrder|]
      {
        SetupOrderCoversAllGroups((x.tier, x.kind));
        assert SetupOrder[..|SetupOrder|] == SetupOrder;
      }
      if cs.fSettings.Arr? {
        PushSettings(cs.fSettings.items);
      }
      setup := true;
      setupRuns := setupRuns + 1;
    }

    /**
     * LOGGROUP, FASTFLAG, FASTINT, FASTSTRING and their DYNAMIC_ and
     * SYNCHRONIZED_ forms: run setUpFLog if it has not run, then give `name`
     * the kind's default in the helper's table only if it is undefined there.
     */
    method Reference(tier: Tier, kind: Kind, name: string, cs: ClientSettings)
      requires Valid()
      modifies this
      ensures Valid() && setup
      ensures old(setup) ==> setupRuns == old(setupRuns)
      ensures fSettings == if old(setup) then old(fSettings) else old(fSettings) + Packs(cs.fSettings)
      ensures
        forall x :: Get(x) ==
          if x == HelperTable(tier, kind)
          then SetDefault(Prepared(old(tables), old(setup), cs, x), name, RegistrationDefault(kind))
          else Prepared(old(tables), old(setup), cs, x)
    {
      if !setup {
        SetUpFLog(cs);
      }
      var x := HelperTable(tier, kind);
      if Prop(Get(x), name) == Undefined {
        tables := tables[x := Get(x)[name := RegistrationDefault(kind)]];
      }
    }

    /**
     * LOGVARIABLE, FASTFLAGVARIABLE, FASTINTVARIABLE, FASTSTRINGVARIABLE and
     * their DYNAMIC_ and SYNCHRONIZED_ forms: run setUpFLog if it has not run,
     * then set `name` in the helper's table to `existing || d`.
     */
    method Variable(tier: Tier, kind: Kind, name: string, d: Value, cs: ClientSettings)
      requires Valid()
      modifies this
      ensures Valid() && setup
      ensures old(setup) ==> setupRuns == old(setupRuns)
      ensures fSettings == if old(setup) then old(fSettings) else old(fSettings) + Packs(cs.fSettings)
      ensures
        forall x :: Get(x) ==
          if x == HelperTable(tier, kind)
          then KeepTruthy(Prepared(old(tables), old(setup), cs, x), name, d)
          else Prepared(old(tables), old(setup), cs, x)
    {
      if !setup {
        SetUpFLog(cs);
      }
      var x := HelperTable(tier, kind);
      tables := tables[x := Get(x)[name := Or(Prop(Get(x), name), d)]];
    }

    /**
     * DFLog, DFFlag, DFInt and DFString: with a live table, copy every live
     * entry into the kind's cache table and answer live || cache || default;
     * without one, answer `cache[name] || default` and leave `cache` alone.
     */
    method DynamicLookup(kind: Kind, name: string, cs: ClientSettings) returns (v: Value)
      modifies this`tables
      ensures v == DynamicValue(kind, name, cs, old(Get(Cache(kind))))
      ensures
        forall y :: Get(y) ==
          if y == Cache(kind) && (Dynamic, kind) in cs.groups
          then old(Get(y)) + cs.groups[(Dynamic, kind)]
          else old(Get(y))
    {
      if (Dynamic, kind) in cs.groups {
        var live := cs.groups[(Dynamic, kind)];
        CopyInto(Cache(kind), live);
        v := Or(Or(Prop(live, name), Prop(Get(Cache(kind)), name)), LookupDefault(kind));
      } else {
        v := Or(CacheObjectProperty(name), LookupDefault(kind));
      }
    }
  }
}
