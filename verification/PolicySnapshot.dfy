/** The tool-policy snapshot under concurrent updates: an update commits one row and then reloads, which is two reads
    and two stores with anything in between. */
module PolicySnapshot {
  import opened Options
  import opened ToolPolicy

  type Thread = nat
  type Rows = map<string, MemberPolicy>

  datatype Pc =
    | Idle
    | Committed                                // row written, about to read the settings
    | HaveSettings(s: Settings, seen: nat)     // settings read, about to store them
    | CurStored                                // about to read the overrides
    | HaveRows(rows: Rows, seen: nat)          // overrides read, about to store them

  /** The two tables, each with a count of its writes. */
  datatype Tables = Tables(stored: Option<Settings>, rows: Rows, settingsWrites: nat, rowWrites: nat)

  /** An atomic pointer. straddled: a write was committed between the read behind it and its store; right: what it was
      given was what the table held at that store; missed: since that store a reload gave up before replacing it, or
      another instance wrote the table. */
  datatype Pointer<T> = Pointer(value: T, straddled: bool, right: bool, missed: bool)

  datatype Snapshot = Snapshot(cur: Pointer<Settings>, members: Pointer<Rows>)

  datatype State = State(db: Tables, snap: Snapshot, pcs: map<Thread, Pc>)

  function PcOf(pcs: map<Thread, Pc>, t: Thread): Pc { if t in pcs then pcs[t] else Idle }

  datatype Action =
    | SaveSettings(t: Thread, s: Settings)
    | SaveMember(t: Thread, id: string, p: MemberPolicy)
    | ReadSettings(t: Thread)
    | StoreCur(t: Thread)
    | ReadRows(t: Thread)
    | StoreMembers(t: Thread)
    | Fail(t: Thread)
    | SettingsElsewhere(s: Settings)            // another instance's writes
    | MemberElsewhere(id: string, p: MemberPolicy)

  predicate Enabled(s: State, a: Action) {
    match a
    case SaveSettings(t, _) => PcOf(s.pcs, t).Idle?
    case SaveMember(t, _, _) => PcOf(s.pcs, t).Idle?
    case ReadSettings(t) => PcOf(s.pcs, t).Committed?
    case StoreCur(t) => PcOf(s.pcs, t).HaveSettings?
    case ReadRows(t) => PcOf(s.pcs, t).CurStored?
    case StoreMembers(t) => PcOf(s.pcs, t).HaveRows?
    case Fail(t) => PcOf(s.pcs, t).Committed? || PcOf(s.pcs, t).CurStored?
    case _ => true
  }

  function Global(db: Tables): Settings { NormSettings(if db.stored.Some? then db.stored.value else DEFAULT) }

  function Put(rows: Rows, id: string, p: MemberPolicy): Rows {
    if NormMember(p).IsEmpty() then rows - {id} else rows[id := NormMember(p)]
  }

  function WriteSettings(db: Tables, v: Settings): Tables {
    db.(stored := Some(NormSettings(v)), settingsWrites := db.settingsWrites + 1)
  }

  function WriteRow(db: Tables, id: string, m: MemberPolicy): Tables {
    db.(rows := Put(db.rows, id, m), rowWrites := db.rowWrites + 1)
  }

  function Do(s: State, a: Action): State
    requires Enabled(s, a)
  {
    match a
    case SaveSettings(t, v) => s.(db := WriteSettings(s.db, v), pcs := s.pcs[t := Committed])
    case SaveMember(t, id, m) => s.(db := WriteRow(s.db, id, m), pcs := s.pcs[t := Committed])
    case ReadSettings(t) => s.(pcs := s.pcs[t := HaveSettings(Global(s.db), s.db.settingsWrites)])
    case StoreCur(t) =>
      var p := PcOf(s.pcs, t);
      s.(snap := s.snap.(cur := Pointer(p.s, p.seen != s.db.settingsWrites, p.s == Global(s.db), false)),
         pcs := s.pcs[t := CurStored])
    case ReadRows(t) => s.(pcs := s.pcs[t := HaveRows(NonEmptyRows(s.db.rows), s.db.rowWrites)])
    case StoreMembers(t) =>
      var p := PcOf(s.pcs, t);
      s.(snap := s.snap.(members := Pointer(p.rows, p.seen != s.db.rowWrites, p.rows == NonEmptyRows(s.db.rows), false)),
         pcs := s.pcs[t := Idle])
    case Fail(t) =>
      s.(snap := Snapshot(s.snap.cur.(missed := s.snap.cur.missed || PcOf(s.pcs, t).Committed?),
                          s.snap.members.(missed := true)),
         pcs := s.pcs[t := Idle])
    case SettingsElsewhere(v) => s.(db := WriteSettings(s.db, v), snap := s.snap.(cur := s.snap.cur.(missed := true)))
    case MemberElsewhere(id, m) => s.(db := WriteRow(s.db, id, m), snap := s.snap.(members := s.snap.members.(missed := true)))
  }

  function Step(s: State, a: Action): State { if Enabled(s, a) then Do(s, a) else s }

  /** The manager right after its first load of whatever the tables hold. */
  function Loaded(stored: Option<Settings>, rows: Rows): State {
    var db := Tables(stored, rows, 0, 0);
    State(db, Snapshot(Pointer(Global(db), false, true, false), Pointer(NonEmptyRows(rows), false, true, false)), map[])
  }

  function Run(first: State, actions: seq<Action>): State {
    if actions == [] then first else Step(Run(first, actions[..|actions| - 1]), actions[|actions| - 1])
  }

  /** What an update is about to do once its write is committed, step by step. */
  function Reload(s: State, t: Thread): State {
    Step(Step(Step(Step(s, ReadSettings(t)), StoreCur(t)), ReadRows(t)), StoreMembers(t))
  }

  /** An update of the settings that runs alone puts them, normalised, into the table and into force, beside the stored
      overrides. */
  lemma SettingsUpdateServes(s: State, t: Thread, v: Settings)
    requires PcOf(s.pcs, t).Idle?
    ensures var s' := Reload(Step(s, SaveSettings(t, v)), t);
            && s'.db.stored == Some(NormSettings(v)) && s'.db.rows == s.db.rows && PcOf(s'.pcs, t).Idle?
            && s'.snap.cur.value == NormSettings(v) && s'.snap.members.value == NonEmptyRows(s.db.rows)
  {
    NormalizingIsStable(v, MemberPolicy([], []));
    hide NormSettings, NonEmptyRows, Put;
  }

  /** So does an update of one override; one without entries takes the row away. */
  lemma MemberUpdateServes(s: State, t: Thread, id: string, m: MemberPolicy)
    requires PcOf(s.pcs, t).Idle?
    ensures var (s', n) := (Reload(Step(s, SaveMember(t, id, m)), t), NormMember(m));
            && s'.db.stored == s.db.stored && PcOf(s'.pcs, t).Idle?
            && s'.db.rows == (if n.enabled == [] && n.disabled == [] then s.db.rows - {id} else s.db.rows[id := n])
            && s'.snap.cur.value == Global(s.db) && s'.snap.members.value == NonEmptyRows(s'.db.rows)
  {
    hide NormSettings, NormMember, NonEmptyRows;
  }

  /** Either read may fail: the first leaves the whole old snapshot in force beside the new row, the second the old
      overrides beside the new settings. */
  lemma FailedReloadServesOld(s: State, t: Thread, v: Settings)
    requires PcOf(s.pcs, t).Idle?
    ensures var s' := Step(Step(s, SaveSettings(t, v)), Fail(t));
            PcOf(s'.pcs, t).Idle? && s'.snap.cur.value == s.snap.cur.value && s'.snap.members.value == s.snap.members.value
    ensures var s' := Step(Step(Step(Step(s, SaveSettings(t, v)), ReadSettings(t)), StoreCur(t)), Fail(t));
            PcOf(s'.pcs, t).Idle? && s'.snap.cur.value == NormSettings(v) && s'.snap.members.value == s.snap.members.value
  {
    NormalizingIsStable(v, MemberPolicy([], []));
    hide NormSettings, NonEmptyRows, Put;
  }

  // ---------- the invariant ----------

  ghost predicate CurPending(pcs: map<Thread, Pc>) {
    exists t: Thread :: PcOf(pcs, t).Committed? || PcOf(pcs, t).HaveSettings?
  }

  ghost predicate Reloading(pcs: map<Thread, Pc>) { exists t: Thread :: !PcOf(pcs, t).Idle? }

  /** Unless a store is on its way or was missed, a pointer is what the table holds exactly if it was when it was
      stored. */
  ghost predicate CurKept(s: State) {
    var c := s.snap.cur;
    (!c.straddled ==> c.right) && (c.missed || CurPending(s.pcs) || (c.value == Global(s.db) <==> c.right))
  }

  ghost predicate MembersKept(s: State) {
    var m := s.snap.members;
    (!m.straddled ==> m.right) && (m.missed || Reloading(s.pcs) || (m.value == NonEmptyRows(s.db.rows) <==> m.right))
  }

  /** A read that has seen every write so far has what is stored. */
  predicate ReadFits(db: Tables, p: Pc) {
    && (p.HaveSettings? ==> p.seen <= db.settingsWrites && (p.seen == db.settingsWrites ==> p.s == Global(db)))
    && (p.HaveRows? ==> p.seen <= db.rowWrites && (p.seen == db.rowWrites ==> p.rows == NonEmptyRows(db.rows)))
  }

  ghost predicate ReadsKept(s: State) { forall t: Thread :: ReadFits(s.db, PcOf(s.pcs, t)) }

  predicate WritesSettings(a: Action) { a.SaveSettings? || a.SettingsElsewhere? }

  predicate WritesRows(a: Action) { a.SaveMember? || a.MemberElsewhere? }

  /** What a step does to the tables. */
  lemma TablesAfter(s: State, a: Action)
    requires Enabled(s, a)
    ensures var (d, d') := (s.db, Do(s, a).db);
            && (if WritesSettings(a) then d'.settingsWrites == d.settingsWrites + 1
                else d'.settingsWrites == d.settingsWrites && Global(d') == Global(d))
            && (if WritesRows(a) then d'.rowWrites == d.rowWrites + 1
                else d'.rowWrites == d.rowWrites && NonEmptyRows(d'.rows) == NonEmptyRows(d.rows))
  {
    hide NonEmptyRows, Put, NormSettings;
  }

  /** The positions a step leaves: one thread's changes at most. */
  lemma PositionsAfter(s: State, a: Action, t: Thread)
    requires Enabled(s, a)
    ensures var (p, p') := (PcOf(s.pcs, t), PcOf(Do(s, a).pcs, t));
            || p' == p || (p'.Idle? && (a.Fail? || a.StoreMembers?) && a.t == t)
            || (p'.Committed? && (a.SaveSettings? || a.SaveMember?) && a.t == t)
            || (p'.CurStored? && a.StoreCur? && a.t == t)
            || (p' == HaveSettings(Global(s.db), s.db.settingsWrites) && a.ReadSettings? && a.t == t)
            || (p' == HaveRows(NonEmptyRows(s.db.rows), s.db.rowWrites) && a.ReadRows? && a.t == t)
  {
    hide NonEmptyRows, Global;
  }

  lemma StepKeepsReads(s: State, a: Action)
    requires ReadsKept(s) && Enabled(s, a)
    ensures ReadsKept(Do(s, a))
  {
    var s' := Do(s, a);
    TablesAfter(s, a);
    hide Do, NonEmptyRows, Global;
    forall t: Thread ensures ReadFits(s'.db, PcOf(s'.pcs, t)) {
      PositionsAfter(s, a, t);
      assert ReadFits(s.db, PcOf(s.pcs, t));
    }
  }

  lemma PendingStays(s: State, a: Action)
    requires Enabled(s, a)
    ensures CurPending(s.pcs) && !a.StoreCur? && !a.Fail? ==> CurPending(Do(s, a).pcs)
    ensures Reloading(s.pcs) && !a.StoreMembers? && !a.Fail? ==> Reloading(Do(s, a).pcs)
    ensures a.SaveSettings? || a.SaveMember? ==> CurPending(Do(s, a).pcs) && Reloading(Do(s, a).pcs)
  {
    var s' := Do(s, a);
    hide NonEmptyRows, Global, Put, NormSettings;
    if CurPending(s.pcs) && !a.StoreCur? && !a.Fail? {
      var t: Thread :| PcOf(s.pcs, t).Committed? || PcOf(s.pcs, t).HaveSettings?;
      assert PcOf(s'.pcs, t).Committed? || PcOf(s'.pcs, t).HaveSettings?;
    }
    if Reloading(s.pcs) && !a.StoreMembers? && !a.Fail? {
      var t: Thread :| !PcOf(s.pcs, t).Idle?;
      assert !PcOf(s'.pcs, t).Idle?;
    }
    if a.SaveSettings? || a.SaveMember? {
      assert PcOf(s'.pcs, a.t).Committed?;
    }
  }

  /** A reload that gives up before its store leaves the pointer it was to replace marked. */
  lemma FailLeavesMark(s: State, t: Thread)
    requires Enabled(s, Fail(t))
    ensures Do(s, Fail(t)).snap.members.missed
    ensures Do(s, Fail(t)).snap.cur.missed || (CurPending(s.pcs) <==> CurPending(Do(s, Fail(t)).pcs))
  {
    var s' := Do(s, Fail(t));
    if !s'.snap.cur.missed {
      assert forall u: Thread :: PcOf(s'.pcs, u) == PcOf(s.pcs, u) || (u == t && PcOf(s.pcs, u).CurStored? && PcOf(s'.pcs, u).Idle?);
    }
  }

  lemma StepKeepsCur(s: State, a: Action)
    requires CurKept(s) && ReadsKept(s) && Enabled(s, a)
    ensures CurKept(Do(s, a))
  {
    TablesAfter(s, a);
    PendingStays(s, a);
    if a.Fail? {
      FailLeavesMark(s, a.t);
    }
    if a.StoreCur? {
      assert ReadFits(s.db, PcOf(s.pcs, a.t));
    }
    hide Global, NonEmptyRows, Put, NormSettings, CurPending;
  }

  lemma StepKeepsMembers(s: State, a: Action)
    requires MembersKept(s) && ReadsKept(s) && Enabled(s, a)
    ensures MembersKept(Do(s, a))
  {
    TablesAfter(s, a);
    PendingStays(s, a);
    if a.StoreMembers? {
      assert ReadFits(s.db, PcOf(s.pcs, a.t));
    }
    hide Global, NonEmptyRows, Put, NormSettings, Reloading;
  }

  lemma {:induction false} RunsKeepSnapshot(stored: Option<Settings>, rows: Rows, actions: seq<Action>)
    ensures var s := Run(Loaded(stored, rows), actions); CurKept(s) && MembersKept(s) && ReadsKept(s)
  {
    if actions != [] {
      var (s, a) := (Run(Loaded(stored, rows), actions[..|actions| - 1]), actions[|actions| - 1]);
      RunsKeepSnapshot(stored, rows, actions[..|actions| - 1]);
      hide CurKept, MembersKept, ReadsKept, Do, Loaded;
      if Enabled(s, a) {
        StepKeepsReads(s, a);
        StepKeepsCur(s, a);
        StepKeepsMembers(s, a);
      }
    }
  }

  /** In every interleaving of updates, failures and other instances' writes: with no update under way and neither
      pointer's last store missed, the snapshot is what the tables hold if and only if each pointer was right when it was
      stored; and a store whose read straddled no write is right. */
  lemma FreshExactlyFromTheStores(stored: Option<Settings>, rows: Rows, actions: seq<Action>)
    requires var s := Run(Loaded(stored, rows), actions);
             !Reloading(s.pcs) && !s.snap.cur.missed && !s.snap.members.missed
    ensures var (s, c, m) := (Run(Loaded(stored, rows), actions), Run(Loaded(stored, rows), actions).snap.cur,
                              Run(Loaded(stored, rows), actions).snap.members);
            && (c.value == Global(s.db) <==> c.right) && (m.value == NonEmptyRows(s.db.rows) <==> m.right)
            && (!c.straddled ==> c.right) && (!m.straddled ==> m.right)
  {
    RunsKeepSnapshot(stored, rows, actions);
    assert !CurPending(Run(Loaded(stored, rows), actions).pcs);
  }

  /** What EffectivePolicy answers from the snapshot. */
  function Served(snap: Snapshot, id: string): Settings {
    Effective(snap.cur.value, if id in snap.members.value then Some(snap.members.value[id]) else None)
  }

  /** So every member is then served the merge of the stored rows, unless the read behind one of the two stored pointers
      straddled a write. */
  lemma StaleOnlyAfterStraddle(stored: Option<Settings>, rows: Rows, actions: seq<Action>, id: string)
    requires var s := Run(Loaded(stored, rows), actions);
             && !Reloading(s.pcs) && !s.snap.cur.missed && !s.snap.members.missed
             && !s.snap.cur.straddled && !s.snap.members.straddled
    ensures var s := Run(Loaded(stored, rows), actions); Served(s.snap, id) == MergeOfRows(s.db.stored, s.db.rows, id)
  {
    var s := Run(Loaded(stored, rows), actions);
    FreshExactlyFromTheStores(stored, rows, actions);
    SnapshotServesRows(s.db.stored, s.db.rows);
    hide Effective, MergeOfRows, NormSettings, NonEmptyRows, Run;
  }

  /** The next complete reload repairs a pointer that was missed: right after its stores, with no write in between, both
      pointers are right and nothing is marked. */
  lemma ReloadRepairs(s: State, t: Thread)
    requires PcOf(s.pcs, t).Committed?
    ensures var s' := Step(Step(Step(Step(s, ReadSettings(t)), StoreCur(t)), ReadRows(t)), StoreMembers(t));
            && s'.snap == Snapshot(Pointer(Global(s.db), false, true, false), Pointer(NonEmptyRows(s.db.rows), false, true, false))
            && s'.db == s.db && PcOf(s'.pcs, t).Idle?
  {
    hide Global, NonEmptyRows;
    var s1 := Step(s, ReadSettings(t));
    assert s1 == s.(pcs := s.pcs[t := HaveSettings(Global(s.db), s.db.settingsWrites)]);
    var s2 := Step(s1, StoreCur(t));
    assert s2.db == s.db && s2.snap.cur == Pointer(Global(s.db), false, true, false) && PcOf(s2.pcs, t) == CurStored;
    var s3 := Step(s2, ReadRows(t));
    assert s3.db == s.db && s3.snap == s2.snap && PcOf(s3.pcs, t) == HaveRows(NonEmptyRows(s.db.rows), s.db.rowWrites);
  }

  // ---------- the exception is real ----------

  lemma Extend(first: State, actions: seq<Action>, a: Action)
    ensures Run(first, actions + [a]) == Step(Run(first, actions), a)
  {
    assert (actions + [a])[..|actions|] == actions;
  }

  /** A thread commits settings and reads them back. */
  lemma CommitAndRead(first: State, actions: seq<Action>, t: Thread, v: Settings) returns (longer: seq<Action>)
    requires PcOf(Run(first, actions).pcs, t).Idle?
    ensures var s := Run(first, actions);
            Run(first, longer) == State(WriteSettings(s.db, v), s.snap,
                                        s.pcs[t := HaveSettings(NormSettings(v), s.db.settingsWrites + 1)])
  {
    NormalizingIsStable(v, MemberPolicy([], []));
    var s := Run(first, actions);
    assert Global(WriteSettings(s.db, v)) == NormSettings(v);
    hide NormSettings, Global, Run;
    Extend(first, actions, SaveSettings(t, v));
    longer := actions + [SaveSettings(t, v)];
    assert Run(first, longer) == State(WriteSettings(s.db, v), s.snap, s.pcs[t := Committed]);
    Extend(first, longer, ReadSettings(t));
    longer := longer + [ReadSettings(t)];
    assert s.pcs[t := Committed][t := HaveSettings(NormSettings(v), s.db.settingsWrites + 1)]
        == s.pcs[t := HaveSettings(NormSettings(v), s.db.settingsWrites + 1)];
  }

  /** One thread's reload from its settings read to its end. */
  lemma Finish(first: State, actions: seq<Action>, t: Thread) returns (longer: seq<Action>)
    requires PcOf(Run(first, actions).pcs, t).HaveSettings?
    ensures var (s, s', p) := (Run(first, actions), Run(first, longer), PcOf(Run(first, actions).pcs, t));
            && s'.db == s.db && s'.pcs == s.pcs[t := Idle] && s'.snap.cur.value == p.s && !s'.snap.cur.missed
            && s'.snap.members == Pointer(NonEmptyRows(s.db.rows), false, true, false)
  {
    hide NonEmptyRows, Global, Run;
    var s := Run(first, actions);
    Extend(first, actions, StoreCur(t));
    longer := actions + [StoreCur(t)];
    assert Run(first, longer).db == s.db && Run(first, longer).pcs == s.pcs[t := CurStored];
    Extend(first, longer, ReadRows(t));
    longer := longer + [ReadRows(t)];
    assert Run(first, longer).db == s.db && Run(first, longer).pcs == s.pcs[t := HaveRows(NonEmptyRows(s.db.rows), s.db.rowWrites)];
    Extend(first, longer, StoreMembers(t));
    longer := longer + [StoreMembers(t)];
  }

  /** An older reload that stores last leaves the overwritten settings in force with every update finished. */
  lemma OlderReloadStoresLast(rows: Rows, a: Settings, b: Settings, id: string) returns (actions: seq<Action>)
    requires NormSettings(a) != NormSettings(b) && id !in rows
    ensures var s := Run(Loaded(None, rows), actions);
            && !Reloading(s.pcs) && !s.snap.cur.missed && !s.snap.members.missed && s.db.stored == Some(NormSettings(b))
            && Served(s.snap, id) == NormSettings(a) != MergeOfRows(s.db.stored, s.db.rows, id)
  {
    var first := Loaded(None, rows);
    actions := BothHaveRead(rows, a, b);
    hide Run, NormSettings, NonEmptyRows, Served, MergeOfRows;
    actions := NewerThenOlder(first, actions, Run(first, actions), NormSettings(a), NormSettings(b));
    SettingsInForce(Run(first, actions), a, b, rows, id);
  }

  /** Thread 1 finishes its reload, then thread 0 does. */
  lemma NewerThenOlder(first: State, before: seq<Action>, s: State, a: Settings, b: Settings) returns (actions: seq<Action>)
    requires Run(first, before) == s && s.pcs == map[0 := HaveSettings(a, 1), 1 := HaveSettings(b, 2)]
    ensures var s' := Run(first, actions);
            && s'.db == s.db && s'.pcs == map[0 := Idle, 1 := Idle] && s'.snap.cur.value == a && !s'.snap.cur.missed
            && s'.snap.members == Pointer(NonEmptyRows(s.db.rows), false, true, false)
  {
    hide Run, NonEmptyRows;
    actions := Finish(first, before, 1);
    actions := Finish(first, actions, 0);
  }

  lemma SettingsInForce(s: State, a: Settings, b: Settings, rows: Rows, id: string)
    requires NormSettings(a) != NormSettings(b) && id !in rows && s.db.rows == rows && s.db.stored == Some(NormSettings(b))
    requires s.pcs == map[0 := Idle, 1 := Idle] && s.snap.cur.value == NormSettings(a)
    requires s.snap.members.value == NonEmptyRows(rows)
    ensures !Reloading(s.pcs) && Served(s.snap, id) == NormSettings(a) != MergeOfRows(s.db.stored, s.db.rows, id)
  {
    ServesSettings(a, b, rows, id);
    hide NormSettings, NonEmptyRows, Effective, MergeOfRows;
  }

  /** Both updates have committed and read, the older first. */
  lemma BothHaveRead(rows: Rows, a: Settings, b: Settings) returns (actions: seq<Action>)
    ensures Run(Loaded(None, rows), actions) ==
            State(Tables(Some(NormSettings(b)), rows, 2, 0), Loaded(None, rows).snap,
                  map[0 := HaveSettings(NormSettings(a), 1), 1 := HaveSettings(NormSettings(b), 2)])
  {
    var first := Loaded(None, rows);
    assert Run(first, []) == first;
    hide Run, NormSettings, NonEmptyRows, Global;
    actions := CommitAndRead(first, [], 0, a);
    actions := CommitAndRead(first, actions, 1, b);
  }

  /** A member without an override is served the settings themselves. */
  lemma ServesSettings(a: Settings, b: Settings, rows: Rows, id: string)
    requires id !in rows
    ensures id !in NonEmptyRows(rows) && Effective(NormSettings(a), None) == NormSettings(a)
    ensures MergeOfRows(Some(NormSettings(b)), rows, id) == NormSettings(b)
  {
    NormalizingIsStable(a, MemberPolicy([], []));
    NormalizingIsStable(b, MemberPolicy([], []));
  }
}
