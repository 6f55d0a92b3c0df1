/** LLM providers: at most one is active, and the lock-free cache of the active one.

    A committed statement or transaction is one atomic step; between a write and the Invalidate that follows
    it, and between the GetActive and the Set of a cache fill, any other step may run. */
module Providers {
  import opened Options

  type Id = nat
  type Thread = nat

  datatype Config = Config(model: string, apiKey: string)
  datatype Provider = Provider(name: string, active: bool, config: Config)

  type Table = map<Id, Provider>

  predicate OneActive(tb: Table) {
    forall i, j | i in tb && j in tb :: tb[i].active && tb[j].active ==> i == j
  }

  predicate SomeActive(tb: Table) { exists i | i in tb :: tb[i].active }

  // ---------- the repository's statements ----------

  /** The transaction: everything inactive, then this one active; rolled back when the id is unknown. */
  function ActivateRow(tb: Table, id: Id): Table {
    if id !in tb then tb else map i | i in tb :: tb[i].(active := i == id)
  }

  function UpdateRow(tb: Table, id: Id, config: Config): Table {
    if id !in tb then tb else tb[id := tb[id].(config := config)]
  }

  /** UpdateConfig keeps the stored key when the request leaves it blank. */
  function MergeKey(config: Config, stored: Config): Config {
    if config.apiKey == "" then config.(apiKey := stored.apiKey) else config
  }

  lemma ActivateMakesOne(tb: Table, id: Id)
    requires id in tb
    ensures OneActive(ActivateRow(tb, id)) && ActivateRow(tb, id)[id].active
    ensures ActivateRow(tb, id).Keys == tb.Keys
    ensures forall i | i in tb :: ActivateRow(tb, id)[i].name == tb[i].name && ActivateRow(tb, id)[i].config == tb[i].config
  {
  }

  /** The snapshot is an active row of the table, as it is now. */
  predicate Fresh(tb: Table, id: Id, row: Provider) { id in tb && tb[id] == row && row.active }

  // ---------- interleaved steps ----------

  /** A cached snapshot remembers whether a write to stored rows was committed between the read and the Set of its fill,
      and whether the row that was read was still an active row of the table at that Set. */
  datatype Entry = Entry(id: Id, row: Provider, straddled: bool, setFresh: bool)

  datatype Pc =
    | Idle
    | Missed                                           // cache empty, about to run GetActive
    | Filled(id: Id, row: Provider, writes: nat)       // GetActive returned, about to Set
    | Merging(id: Id, config: Config)                  // UpdateConfig has read the stored key, about to write
    | Invalidating                                     // write committed, about to Invalidate
    | Seeding(need: bool, activations: nat)            // seeding has read the table, about to Save

  /** writes counts committed writes to stored rows, activations those that made a row active; drawn holds every id
      ever inserted. */
  datatype State = State(tb: Table, cache: Option<Entry>, pcs: map<Thread, Pc>, writes: nat, activations: nat, drawn: set<Id>)

  function PcOf(pcs: map<Thread, Pc>, t: Thread): Pc { if t in pcs then pcs[t] else Idle }

  datatype Action =
    | Save(id: Id, name: string, config: Config)       // Create always inserts an inactive row
    | Activate(t: Thread, id: Id)
    | FindForUpdate(t: Thread, id: Id, config: Config) // UpdateConfig: read the row, keep its key if none is given
    | WriteConfig(t: Thread)
    | Delete(t: Thread, id: Id)
    | Invalidate(t: Thread)
    | Lookup(t: Thread)
    | ReadActive(t: Thread, id: Id)                    // id: the active row the query returns
    | SetCache(t: Thread)
    | SeedCheck(t: Thread)
    | SeedSave(t: Thread, id: Id, name: string, config: Config)
    | SeedEnd(t: Thread)

  predicate Enabled(s: State, a: Action) {
    match a
    case Save(id, _, _) => id !in s.drawn
    case Activate(t, id) => PcOf(s.pcs, t).Idle? && id in s.tb
    case FindForUpdate(t, id, _) => PcOf(s.pcs, t).Idle? && id in s.tb
    case WriteConfig(t) => PcOf(s.pcs, t).Merging?
    case Delete(t, id) => PcOf(s.pcs, t).Idle? && id in s.tb
    case Invalidate(t) => PcOf(s.pcs, t).Invalidating?
    case Lookup(t) => PcOf(s.pcs, t).Idle?
    case ReadActive(t, id) => PcOf(s.pcs, t).Missed? && (SomeActive(s.tb) ==> id in s.tb && s.tb[id].active)
    case SetCache(t) => PcOf(s.pcs, t).Filled?
    case SeedCheck(t) => PcOf(s.pcs, t).Idle?
    case SeedSave(t, id, _, _) => PcOf(s.pcs, t).Seeding? && id !in s.drawn
    case SeedEnd(t) => PcOf(s.pcs, t).Seeding?
  }

  function Do(s: State, a: Action): State
    requires Enabled(s, a)
  {
    match a
    case Save(id, name, config) => s.(tb := s.tb[id := Provider(name, false, config)], drawn := s.drawn + {id})
    case Activate(t, id) =>
      s.(tb := ActivateRow(s.tb, id), pcs := s.pcs[t := Invalidating], writes := s.writes + 1,
         activations := s.activations + 1)
    case FindForUpdate(t, id, config) => s.(pcs := s.pcs[t := Merging(id, MergeKey(config, s.tb[id].config))])
    case WriteConfig(t) =>
      var p := PcOf(s.pcs, t);
      if p.id in s.tb then
        s.(tb := UpdateRow(s.tb, p.id, p.config), pcs := s.pcs[t := Invalidating], writes := s.writes + 1)
      else s.(pcs := s.pcs[t := Idle])
    case Delete(t, id) => s.(tb := s.tb - {id}, pcs := s.pcs[t := Invalidating], writes := s.writes + 1)
    case Invalidate(t) => s.(cache := None, pcs := s.pcs[t := Idle])
    case Lookup(t) => if s.cache.Some? then s else s.(pcs := s.pcs[t := Missed])
    case ReadActive(t, id) =>
      s.(pcs := s.pcs[t := if SomeActive(s.tb) then Filled(id, s.tb[id], s.writes) else Idle])
    case SetCache(t) =>
      var p := PcOf(s.pcs, t);
      s.(cache := Some(Entry(p.id, p.row, p.writes != s.writes, Fresh(s.tb, p.id, p.row))), pcs := s.pcs[t := Idle])
    case SeedCheck(t) => s.(pcs := s.pcs[t := Seeding(!SomeActive(s.tb), s.activations)])
    case SeedSave(t, id, name, config) =>
      var p := PcOf(s.pcs, t);
      s.(tb := s.tb[id := Provider(name, p.need, config)], pcs := s.pcs[t := Seeding(false, p.activations)],
         drawn := s.drawn + {id}, activations := s.activations + if p.need then 1 else 0)
    case SeedEnd(t) => s.(pcs := s.pcs[t := Idle])
  }

  function Step(s: State, a: Action): State { if Enabled(s, a) then Do(s, a) else s }

  const Start := State(map[], None, map[], 0, 0, {})

  function Run(actions: seq<Action>): State {
    if actions == [] then Start else Step(Run(actions[..|actions| - 1]), actions[|actions| - 1])
  }

  // ---------- at most one active ----------

  /** The seeding save that activates a row does so after no other activation since its own check. */
  predicate SeedUndisturbed(s: State, a: Action) {
    a.SeedSave? && PcOf(s.pcs, a.t).Seeding? && PcOf(s.pcs, a.t).need ==> PcOf(s.pcs, a.t).activations == s.activations
  }

  ghost predicate SeedsUndisturbed(actions: seq<Action>) {
    forall i | 0 <= i < |actions| :: SeedUndisturbed(Run(actions[..i]), actions[i])
  }

  /** A seeding that wants to activate and has seen no activation since knows that nothing is active. */
  ghost predicate SeedsKnow(s: State) {
    forall t: Thread :: var p := PcOf(s.pcs, t);
      p.Seeding? ==> p.activations <= s.activations && (p.need && p.activations == s.activations ==> !SomeActive(s.tb))
  }

  lemma StepKeepsOne(s: State, a: Action)
    requires OneActive(s.tb) && SeedsKnow(s) && SeedUndisturbed(s, a) && Enabled(s, a)
    ensures OneActive(Do(s, a).tb)
  {
    if a.SeedSave? {
      assert PcOf(s.pcs, a.t).need ==> !SomeActive(s.tb);
    }
  }

  lemma StepKeepsSeeds(s: State, a: Action)
    requires SeedsKnow(s) && Enabled(s, a)
    ensures SeedsKnow(Do(s, a))
  {
    var s' := Do(s, a);
    forall t: Thread | PcOf(s'.pcs, t).Seeding?
      ensures var p := PcOf(s'.pcs, t);
              p.activations <= s'.activations && (p.need && p.activations == s'.activations ==> !SomeActive(s'.tb))
    {
      var q := PcOf(s.pcs, t);
      assert q.Seeding? ==> q.activations <= s.activations;
      if s'.activations == s.activations && SomeActive(s'.tb) {
        var i :| i in s'.tb && s'.tb[i].active;
        assert i in s.tb && s.tb[i].active;
      }
    }
  }

  /** In every interleaving of creations, activations, updates, deletions, fills and seedings at most one
      provider is active, provided no seeding straddles an activation. */
  lemma {:induction false} AtMostOneActive(actions: seq<Action>)
    requires SeedsUndisturbed(actions)
    ensures OneActive(Run(actions).tb) && SeedsKnow(Run(actions))
  {
    if actions != [] {
      var (before, a) := (actions[..|actions| - 1], actions[|actions| - 1]);
      forall i | 0 <= i < |before| ensures SeedUndisturbed(Run(before[..i]), before[i]) {
        assert before[..i] == actions[..i];
      }
      AtMostOneActive(before);
      assert SeedUndisturbed(Run(actions[..|actions| - 1]), a);
      if Enabled(Run(before), a) {
        StepKeepsOne(Run(before), a);
        StepKeepsSeeds(Run(before), a);
      }
    }
  }

  /** The proviso is exact: a seeding save leaves at most one active row iff it does not activate or nothing
      is active when it runs; every other step always does. */
  lemma OnlySeedingCanBreakIt(s: State, a: Action)
    requires OneActive(s.tb) && Enabled(s, a) && s.tb.Keys <= s.drawn
    ensures OneActive(Do(s, a).tb) <==> !(a.SeedSave? && PcOf(s.pcs, a.t).need && SomeActive(s.tb))
  {
    if a.SeedSave? && PcOf(s.pcs, a.t).need && SomeActive(s.tb) {
      var i :| i in s.tb && s.tb[i].active;
      assert Do(s, a).tb[i].active && Do(s, a).tb[a.id].active && i != a.id;
    }
  }

  /** A seeding save that activates while something is active. */
  predicate SecondActivation(s: State, a: Action) {
    Enabled(s, a) && a.SeedSave? && PcOf(s.pcs, a.t).need && SomeActive(s.tb)
  }

  ghost predicate OneThroughout(actions: seq<Action>) {
    forall i | 0 <= i <= |actions| :: OneActive(Run(actions[..i]).tb)
  }

  ghost predicate NoSecondActivation(actions: seq<Action>) {
    forall i | 0 <= i < |actions| :: !SecondActivation(Run(actions[..i]), actions[i])
  }

  lemma ThroughoutGrows(actions: seq<Action>)
    requires actions != []
    ensures var before := actions[..|actions| - 1];
            && (OneThroughout(actions) <==> OneThroughout(before) && OneActive(Run(actions).tb))
            && (NoSecondActivation(actions) <==>
                  NoSecondActivation(before) && !SecondActivation(Run(before), actions[|actions| - 1]))
            && (OneThroughout(before) ==> OneActive(Run(before).tb))
  {
    hide Run, OneActive, SecondActivation;
    var before := actions[..|actions| - 1];
    assert forall i | 0 <= i < |actions| :: before[..i] == actions[..i];
    assert actions[..|actions|] == actions;
    assert forall i | 0 <= i < |before| :: before[i] == actions[i];
  }

  /** Over whole runs: at most one provider is active throughout if and only if no seeding save activates while
      something is active. */
  lemma {:induction false} OneActiveThroughout(actions: seq<Action>)
    ensures OneThroughout(actions) <==> NoSecondActivation(actions)
  {
    if actions == [] {
      assert actions[..0] == [];
    } else {
      var (before, a) := (actions[..|actions| - 1], actions[|actions| - 1]);
      OneActiveThroughout(before);
      ThroughoutGrows(actions);
      RunsKeepCache(before);
      if OneActive(Run(before).tb) && Enabled(Run(before), a) {
        OnlySeedingCanBreakIt(Run(before), a);
      }
      hide OneThroughout, NoSecondActivation, Do, OneActive, SomeActive;
    }
  }

  lemma Extend(actions: seq<Action>, a: Action)
    ensures Run(actions + [a]) == Step(Run(actions), a)
  {
    assert (actions + [a])[..|actions|] == actions;
  }

  /** And it is needed: two instances seeding one empty database at the same time leave two active rows. */
  lemma TwoSeedingsTwoActive(c: Config) returns (actions: seq<Action>)
    ensures !OneActive(Run(actions).tb)
  {
    var (a, b) := (SeedSave(0, 10, "x", c), SeedSave(1, 20, "x", c));
    Extend([], SeedCheck(0));
    Extend([SeedCheck(0)], SeedCheck(1));
    var checked := [SeedCheck(0)] + [SeedCheck(1)];
    assert Run([SeedCheck(0)]).tb == map[];
    assert Run(checked).pcs == map[0 := Seeding(true, 0), 1 := Seeding(true, 0)] && Run(checked).tb == map[];
    Extend(checked, a);
    Extend(checked + [a], b);
    actions := checked + [a] + [b];
    assert Run(actions).tb[10].active && Run(actions).tb[20].active;
  }

  // ---------- the cache ----------

  ghost predicate Pending(pcs: map<Thread, Pc>) { exists t: Thread :: PcOf(pcs, t).Invalidating? }

  /** Unless an invalidation is outstanding, a cached row is active exactly if it was when it was set. */
  ghost predicate CacheKept(s: State) {
    s.cache.Some? ==>
      var e := s.cache.value;
      && (!e.straddled ==> e.setFresh) && e.id in s.drawn
      && (Pending(s.pcs) || (Fresh(s.tb, e.id, e.row) <==> e.setFresh))
  }

  ghost predicate FillsKept(s: State) {
    && s.tb.Keys <= s.drawn
    && forall t: Thread :: var p := PcOf(s.pcs, t);
      p.Filled? ==> p.writes <= s.writes && (p.writes == s.writes ==> Fresh(s.tb, p.id, p.row)) && p.id in s.drawn
  }

  /** Whether a row drawn before is an active row of the table changes only by a write that goes on to invalidate. */
  lemma FreshnessStays(s: State, a: Action, id: Id, row: Provider)
    requires Enabled(s, a) && s.tb.Keys <= s.drawn && id in s.drawn
    ensures (Fresh(Do(s, a).tb, id, row) <==> Fresh(s.tb, id, row)) || PcOf(Do(s, a).pcs, a.t).Invalidating?
  {
  }

  lemma PendingStays(s: State, a: Action)
    requires Enabled(s, a) && Pending(s.pcs) && !a.Invalidate?
    ensures Pending(Do(s, a).pcs)
  {
    var t: Thread :| PcOf(s.pcs, t).Invalidating?;
    assert PcOf(Do(s, a).pcs, t).Invalidating?;
  }

  lemma StepKeepsCache(s: State, a: Action)
    requires CacheKept(s) && FillsKept(s) && Enabled(s, a)
    ensures CacheKept(Do(s, a))
  {
    var s' := Do(s, a);
    if a.SetCache? {
      assert PcOf(s.pcs, a.t).writes <= s.writes;
    } else if s'.cache.Some? {
      var e := s.cache.value;
      assert s'.cache == s.cache && s.drawn <= s'.drawn;
      FreshnessStays(s, a, e.id, e.row);
      if Pending(s.pcs) {
        PendingStays(s, a);
      }
      hide Do, Fresh;
    }
  }

  lemma StepKeepsFills(s: State, a: Action)
    requires FillsKept(s) && Enabled(s, a)
    ensures FillsKept(Do(s, a))
  {
    var s' := Do(s, a);
    forall t: Thread | PcOf(s'.pcs, t).Filled?
      ensures var p := PcOf(s'.pcs, t);
              p.writes <= s'.writes && (p.writes == s'.writes ==> Fresh(s'.tb, p.id, p.row)) && p.id in s'.drawn
    {
      var q := PcOf(s.pcs, t);
      assert q.Filled? ==> q.writes <= s.writes && q.id in s.drawn;
    }
  }

  lemma {:induction false} RunsKeepCache(actions: seq<Action>)
    ensures CacheKept(Run(actions)) && FillsKept(Run(actions))
  {
    if actions != [] {
      var (s, a) := (Run(actions[..|actions| - 1]), actions[|actions| - 1]);
      RunsKeepCache(actions[..|actions| - 1]);
      if Enabled(s, a) {
        StepKeepsCache(s, a);
        StepKeepsFills(s, a);
      }
    }
  }

  /** In every interleaving: with no invalidation outstanding, a cached provider is an active row as stored if and only
      if the row its fill had read was one at its Set. So staleness arises at the Set and nowhere else. */
  lemma StaleExactlyFromTheSet(actions: seq<Action>)
    requires var s := Run(actions); s.cache.Some? && !Pending(s.pcs)
    ensures var (s, e) := (Run(actions), Run(actions).cache.value);
            (Fresh(s.tb, e.id, e.row) <==> e.setFresh) && (!e.straddled ==> e.setFresh)
  {
    RunsKeepCache(actions);
  }

  /** And that Set can be stale only if its fill straddled a write to a stored row; otherwise the cached provider is the
      repository's one active row. */
  lemma StaleOnlyAfterStraddle(actions: seq<Action>)
    requires SeedsUndisturbed(actions)
    requires var s := Run(actions); s.cache.Some? && !s.cache.value.straddled && !Pending(s.pcs)
    ensures var s := Run(actions);
            Fresh(s.tb, s.cache.value.id, s.cache.value.row)
            && forall i | i in s.tb :: s.tb[i].active <==> i == s.cache.value.id
  {
    RunsKeepCache(actions);
    AtMostOneActive(actions);
  }

  /** Providers 1 and 2 exist, 1 is active. */
  lemma OneOfTwoActive(c: Config) returns (actions: seq<Action>)
    ensures Run(actions) == State(map[1 := Provider("p", true, c), 2 := Provider("q", false, c)], None,
                                  map[0 := Invalidating], 1, 1, {1, 2})
  {
    var (p, q) := (Provider("p", false, c), Provider("q", false, c));
    Extend([], Save(1, "p", c));
    assert Run([]) == Start;
    hide Run;
    actions := [] + [Save(1, "p", c)];
    assert Run(actions) == State(map[1 := p], None, map[], 0, 0, {1});
    Extend(actions, Save(2, "q", c));
    actions := actions + [Save(2, "q", c)];
    assert {1} + {2} == {1, 2};
    assert Run(actions) == State(map[1 := p, 2 := q], None, map[], 0, 0, {1, 2});
    Extend(actions, Activate(0, 1));
    actions := actions + [Activate(0, 1)];
    assert ActivateRow(map[1 := p, 2 := q], 1) == map[1 := p.(active := true), 2 := q];
  }

  /** Thread 1 has missed the cache and read provider 1. */
  lemma ReadWithOneActive(c: Config) returns (actions: seq<Action>)
    ensures Run(actions) == State(map[1 := Provider("p", true, c), 2 := Provider("q", false, c)], None,
                                  map[0 := Idle, 1 := Filled(1, Provider("p", true, c), 1)], 1, 1, {1, 2})
  {
    actions := OneOfTwoActive(c);
    hide Run;
    var tb := map[1 := Provider("p", true, c), 2 := Provider("q", false, c)];
    Extend(actions, Invalidate(0));
    actions := actions + [Invalidate(0)];
    Extend(actions, Lookup(1));
    actions := actions + [Lookup(1)];
    assert Run(actions) == State(tb, None, map[0 := Idle, 1 := Missed], 1, 1, {1, 2});
    assert tb[1].active && SomeActive(tb);
    Extend(actions, ReadActive(1, 1));
    actions := actions + [ReadActive(1, 1)];
  }

  /** A straddling fill does leave a stale entry behind: the row it cached is no longer active, every call
      is over, and nothing will invalidate it. */
  lemma StraddlingFillGoesStale(c: Config) returns (actions: seq<Action>)
    ensures var s := Run(actions);
            s.cache.Some? && !Fresh(s.tb, s.cache.value.id, s.cache.value.row) && SomeActive(s.tb)
            && forall t: Thread :: PcOf(s.pcs, t).Idle?
  {
    actions := ReadWithOneActive(c);
    hide Run;
    var (tb, p) := (Run(actions).tb, Provider("p", true, c));
    var tb' := ActivateRow(tb, 2);
    Extend(actions, Activate(0, 2));
    actions := actions + [Activate(0, 2)];
    assert Run(actions) == State(tb', None, map[0 := Invalidating, 1 := Filled(1, p, 1)], 2, 2, {1, 2});
    Extend(actions, Invalidate(0));
    actions := actions + [Invalidate(0)];
    Extend(actions, SetCache(1));
    actions := actions + [SetCache(1)];
    assert tb'[2].active && !tb'[1].active;
  }

  // ---------- the service, one call at a time ----------

  /** ProviderService with the repository table and the cache it keeps beside it. */
  class Service {
    var tb: Table
    var cache: Option<(Id, Provider)>

    /** The state that a call finds when it runs alone. */
    ghost function Now(): State
      reads this
    {
      State(tb, if cache.Some? then Some(Entry(cache.value.0, cache.value.1, false, true)) else None, map[], 0, 0, tb.Keys)
    }

    ghost predicate Shows(s: State)
      reads this
    {
      && tb == s.tb && (cache.Some? <==> s.cache.Some?) && PcOf(s.pcs, 0).Idle?
      && (cache.Some? ==> cache.value == (s.cache.value.id, s.cache.value.row))
    }

    /** At most one active row, and a cached provider is that row. */
    ghost predicate Valid()
      reads this
    {
      OneActive(tb) && (cache.Some? ==> Fresh(tb, cache.value.0, cache.value.1))
    }

    method Create(id: Id, name: string, active: bool, config: Config, saveOk: bool, activateOk: bool) returns (ok: bool)
      requires Valid() && id !in tb
      modifies this
      ensures Valid()
      ensures ok == (saveOk && (!active || activateOk))
      ensures !saveOk ==> tb == old(tb) && cache == old(cache)
      ensures saveOk ==> tb.Keys == old(tb).Keys + {id} && tb[id] == Provider(name, active && ok, config)
      ensures saveOk ==> forall i | i in old(tb) :: tb[i] == old(tb)[i].(active := old(tb)[i].active && !(active && ok))
      ensures ok && active ==> cache.None?
      ensures ok ==> var s := Step(old(Now()), Save(id, name, config));
                Shows(if active then Step(Step(s, Action.Activate(0, id)), Invalidate(0)) else s)
    {
      if !saveOk {
        return false;
      }
      tb := tb[id := Provider(name, false, config)];
      if active {
        if !activateOk {
          return false;
        }
        tb := ActivateRow(tb, id);
        cache := None;
      }
      ok := true;
    }

    method UpdateConfig(id: Id, config: Config, dbOk: bool) returns (ok: bool)
      requires Valid()
      modifies this
      ensures Valid() && ok == (dbOk && id in old(tb))
      ensures !ok ==> tb == old(tb)
      ensures ok ==> tb.Keys == old(tb).Keys && forall i | i in tb && i != id :: tb[i] == old(tb)[i]
      ensures ok ==> tb[id].name == old(tb)[id].name && tb[id].active == old(tb)[id].active
      ensures ok ==> tb[id].config.model == config.model
      ensures ok ==> tb[id].config.apiKey == if config.apiKey == "" then old(tb)[id].config.apiKey else config.apiKey
      ensures ok ==> tb == UpdateRow(old(tb), id, MergeKey(config, old(tb)[id].config))
      ensures cache == if ok then None else old(cache)
      ensures ok ==> Shows(Step(Step(Step(old(Now()), FindForUpdate(0, id, config)), WriteConfig(0)), Invalidate(0)))
    {
      if id !in tb || !dbOk {
        return false;
      }
      var merged := if config.apiKey == "" then config.(apiKey := tb[id].config.apiKey) else config;
      tb := tb[id := tb[id].(config := merged)];
      cache := None;
      ok := true;
    }

    method Activate(id: Id, dbOk: bool) returns (ok: bool)
      requires Valid()
      modifies this
      ensures Valid() && ok == (dbOk && id in old(tb))
      ensures tb == if ok then ActivateRow(old(tb), id) else old(tb)
      ensures cache == if ok then None else old(cache)
      ensures ok ==> Shows(Step(Step(old(Now()), Action.Activate(0, id)), Invalidate(0)))
    {
      if id !in tb || !dbOk {
        return false;
      }
      tb := map i | i in tb :: tb[i].(active := false);
      tb := tb[id := tb[id].(active := true)];
      cache := None;
      ok := true;
    }

    method Delete(id: Id, dbOk: bool) returns (ok: bool)
      requires Valid()
      modifies this
      ensures Valid() && ok == (dbOk && id in old(tb))
      ensures tb == if ok then old(tb) - {id} else old(tb)
      ensures cache == if ok then None else old(cache)
      ensures ok ==> Shows(Step(Step(old(Now()), Action.Delete(0, id)), Invalidate(0)))
    {
      if id !in tb || !dbOk {
        return false;
      }
      tb := tb - {id};
      cache := None;
      ok := true;
    }

    /** GetActiveAdapter: cache, then repository. What it returns is the active row, cached or not. */
    method GetActive(dbOk: bool) returns (r: Option<(Id, Provider)>)
      requires Valid()
      modifies `cache
      ensures Valid()
      ensures r.Some? ==> Fresh(tb, r.value.0, r.value.1) && cache == r
      ensures r.None? ==> (old(cache).None? && (!dbOk || !SomeActive(tb))) && cache == old(cache)
      ensures r.Some? ==> Shows(if old(cache).Some? then Step(old(Now()), Lookup(0))
                                else Step(Step(Step(old(Now()), Lookup(0)), ReadActive(0, r.value.0)), SetCache(0)))
    {
      if cache.Some? {
        return cache;
      }
      if !dbOk {
        return None;
      }
      if exists i | i in tb :: tb[i].active {
        var i :| i in tb && tb[i].active;
        cache := Some((i, tb[i]));
        return cache;
      }
      r := None;
    }
  }
}
