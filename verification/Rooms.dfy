/** Chat rooms: one-to-one rooms found or created by any number of concurrent callers, and the membership
    rules that keep a one-to-one room with its two members.

    Each SQL statement or transaction is one atomic step. A thread carries a program counter between the
    steps of CreateDirect, and between the checks and the write of AddMembers, LeaveRoom and KickMember. */
module Rooms {
  import opened Lists
  import opened Text
  import opened Options

  type RoomId = nat
  type Thread = nat

  /** The canonical key of a pair: smaller id, colon, larger id. */
  function DirectKey(a: string, b: string): string {
    if StrLe(a, b) then a + ":" + b else b + ":" + a
  }

  lemma DirectKeySymmetric(a: string, b: string)
    ensures DirectKey(a, b) == DirectKey(b, a)
  {
    if StrLe(a, b) && StrLe(b, a) {
      StrLeAntisymmetric(a, b);
    }
    StrLeTotal(a, b);
  }

  predicate SamePair(a: string, b: string, c: string, d: string) {
    (a == c && b == d) || (a == d && b == c)
  }

  /** On ids without a colon the key determines the unordered pair. */
  lemma DirectKeyInjective(a: string, b: string, c: string, d: string)
    requires ':' !in a && ':' !in b && ':' !in c && ':' !in d
    ensures DirectKey(a, b) == DirectKey(c, d) <==> SamePair(a, b, c, d)
  {
    DirectKeySymmetric(a, b);
    if DirectKey(a, b) == DirectKey(c, d) {
      var (x, y) := if StrLe(a, b) then (a, b) else (b, a);
      var (z, w) := if StrLe(c, d) then (c, d) else (d, c);
      SplitUnique(x, y, z, w, ':');
    }
  }

  /** With colons two different pairs can share a key. */
  lemma DirectKeyCollides()
    ensures DirectKey("a", "b:c") == DirectKey("a:b", "c") && !SamePair("a", "b:c", "a:b", "c")
  {
    assert "a" + ":" + "b:c" == "a:b:c" && "a:b" + ":" + "c" == "a:b:c";
  }

  /** The key has a colon there, with the smaller text before it. */
  predicate SplitsAt(key: string, i: nat) {
    i < |key| && key[i] == ':' && StrLe(key[..i], key[i + 1..])
  }

  /** Every ordered split of the pair's key at a colon gives back that pair. */
  predicate SplitsOneWay(a: string, b: string) {
    var key := DirectKey(a, b);
    forall i | 0 <= i < |key| && SplitsAt(key, i) :: SamePair(a, b, key[..i], key[i + 1..])
  }

  /** The ordered pair can be read back at its own colon. */
  lemma OwnColon(c: string, d: string) returns (i: nat)
    ensures var key := DirectKey(c, d); SplitsAt(key, i) && SamePair(c, d, key[..i], key[i + 1..])
  {
    StrLeTotal(c, d);
    var (x, y) := if StrLe(c, d) then (c, d) else (d, c);
    i := |x|;
    var key := DirectKey(c, d);
    assert key == x + ":" + y && key[|x|] == ':' && key[..|x|] == x && key[|x| + 1..] == y;
    hide StrLe;
  }

  lemma SplitIsKey(key: string, i: nat)
    requires SplitsAt(key, i)
    ensures DirectKey(key[..i], key[i + 1..]) == key
  {
    hide StrLe;
    assert key == key[..i] + ":" + key[i + 1..];
  }

  /** Exactly when a key belongs to one pair: no other pair shares it if and only if every colon at which it splits in
      order splits it into that pair. */
  lemma KeyNamesOnePair(a: string, b: string)
    ensures (forall c, d | DirectKey(c, d) == DirectKey(a, b) :: SamePair(a, b, c, d)) <==> SplitsOneWay(a, b)
  {
    hide DirectKey, SplitsAt;
    var key := DirectKey(a, b);
    if SplitsOneWay(a, b) {
      forall c, d | DirectKey(c, d) == key ensures SamePair(a, b, c, d) {
        var i := OwnColon(c, d);
        InKey(key, i);
      }
    } else {
      var i :| 0 <= i < |key| && SplitsAt(key, i) && !SamePair(a, b, key[..i], key[i + 1..]);
      SplitIsKey(key, i);
    }
  }

  lemma InKey(key: string, i: nat)
    requires SplitsAt(key, i)
    ensures i < |key|
  {
  }

  /** Ids without a colon always do. */
  lemma NoColonSplitsOneWay(a: string, b: string)
    requires ':' !in a && ':' !in b
    ensures SplitsOneWay(a, b)
  {
    var (x, y) := if StrLe(a, b) then (a, b) else (b, a);
    var key := DirectKey(a, b);
    hide StrLe;
    assert key == x + ":" + y;
    forall i | 0 <= i < |key| && i != |x| ensures key[i] != ':' {
      if i < |x| {
        assert x[i] in x && key[i] == x[i];
      } else {
        assert y[i - |x| - 1] in y && key[i] == y[i - |x| - 1];
      }
    }
    assert key[..|x|] == x && key[|x| + 1..] == y;
  }

  // ---------- tables ----------

  /** type and, for a one-to-one room, the two members it was created for. */
  datatype Room = Group | Direct(one: string, two: string)

  datatype Tables = Tables(rooms: map<RoomId, Room>, members: set<(RoomId, string)>, used: set<RoomId>)

  predicate HasKey(tb: Tables, id: RoomId, key: string) {
    id in tb.rooms && tb.rooms[id].Direct? && DirectKey(tb.rooms[id].one, tb.rooms[id].two) == key
  }

  predicate KeyTaken(tb: Tables, key: string) { exists id | id in tb.rooms :: HasKey(tb, id, key) }

  function MembersOf(tb: Tables, id: RoomId): set<string> {
    set x | x in tb.members && x.0 == id :: x.1
  }

  function Rows(id: RoomId, ms: set<string>): set<(RoomId, string)> { set m | m in ms :: (id, m) }

  // ---------- threads ----------

  datatype Pc =
    | Idle
    | Finding(a: string, b: string)         // about to run the first FindDirect
    | Creating(a: string, b: string)        // not found, about to run Create
    | Refinding(a: string, b: string)       // Create failed, about to run FindDirect again
    | Returned(a: string, b: string, id: RoomId)
    | Failed(a: string, b: string)
    | Adding(id: RoomId, ms: set<string>)   // checks passed on a group room, about to insert rows
    | Removing(id: RoomId, m: string)       // checks passed on a group room, about to delete a row

  datatype State = State(tb: Tables, pcs: map<Thread, Pc>)

  function PcOf(pcs: map<Thread, Pc>, t: Thread): Pc { if t in pcs then pcs[t] else Idle }

  /** id: the row a query returns, or the fresh id a call draws. ok: the statement did not fail. */
  datatype Action =
    | CallDirect(t: Thread, a: string, b: string)
    | Find(t: Thread, id: RoomId, ok: bool)
    | Create(t: Thread, id: RoomId, ok: bool)
    | Refind(t: Thread, id: RoomId, ok: bool)
    | CreateGroup(id: RoomId, ms: set<string>)
    | CheckAdd(t: Thread, id: RoomId, ms: set<string>)
    | CheckRemove(t: Thread, id: RoomId, m: string)
    | Insert(t: Thread)
    | Remove(t: Thread)
    | DeleteRoom(id: RoomId)

  /** A query that finds something returns a matching row; a drawn id was never used before. */
  predicate Enabled(s: State, x: Action) {
    match x
    case CallDirect(t, a, b) => !PcOf(s.pcs, t).Finding? && !PcOf(s.pcs, t).Creating? && !PcOf(s.pcs, t).Refinding?
    case Find(t, id, ok) =>
      var p := PcOf(s.pcs, t);
      p.Finding? && (ok && KeyTaken(s.tb, DirectKey(p.a, p.b)) ==> HasKey(s.tb, id, DirectKey(p.a, p.b)))
    case Create(t, id, ok) => PcOf(s.pcs, t).Creating? && id !in s.tb.used
    case Refind(t, id, ok) =>
      var p := PcOf(s.pcs, t);
      p.Refinding? && (ok && KeyTaken(s.tb, DirectKey(p.a, p.b)) ==> HasKey(s.tb, id, DirectKey(p.a, p.b)))
    case CreateGroup(id, ms) => id !in s.tb.used
    case CheckAdd(t, id, ms) => PcOf(s.pcs, t).Idle?
    case CheckRemove(t, id, m) => PcOf(s.pcs, t).Idle?
    case Insert(t) => PcOf(s.pcs, t).Adding?
    case Remove(t) => PcOf(s.pcs, t).Removing?
    case DeleteRoom(id) => true
  }

  function Goto(s: State, t: Thread, p: Pc): State { s.(pcs := s.pcs[t := p]) }

  /** INSERT of the room row and its member rows in one transaction; unique index on direct_key. */
  function InsertRoom(tb: Tables, id: RoomId, room: Room, ms: set<string>): Tables {
    Tables(tb.rooms[id := room], tb.members + Rows(id, ms), tb.used + {id})
  }

  function Do(s: State, x: Action): State
    requires Enabled(s, x)
  {
    match x
    case CallDirect(t, a, b) =>
      var other := TrimSpace(b);
      Goto(s, t, if other == "" || other == a then Failed(a, b) else Finding(a, other))
    case Find(t, id, ok) =>
      var p := PcOf(s.pcs, t);
      Goto(s, t, if !ok then Failed(p.a, p.b)
                 else if KeyTaken(s.tb, DirectKey(p.a, p.b)) then Returned(p.a, p.b, id)
                 else Creating(p.a, p.b))
    case Create(t, id, ok) =>
      var p := PcOf(s.pcs, t);
      if !ok || KeyTaken(s.tb, DirectKey(p.a, p.b)) then
        Goto(s, t, Refinding(p.a, p.b)).(tb := s.tb.(used := s.tb.used + {id}))
      else
        Goto(s, t, Returned(p.a, p.b, id)).(tb := InsertRoom(s.tb, id, Direct(p.a, p.b), {p.a, p.b}))
    case Refind(t, id, ok) =>
      var p := PcOf(s.pcs, t);
      Goto(s, t, if ok && KeyTaken(s.tb, DirectKey(p.a, p.b)) then Returned(p.a, p.b, id) else Failed(p.a, p.b))
    case CreateGroup(id, ms) => s.(tb := InsertRoom(s.tb, id, Group, ms))
    case CheckAdd(t, id, ms) =>
      if id in s.tb.rooms && s.tb.rooms[id].Group? then Goto(s, t, Adding(id, ms)) else s
    case CheckRemove(t, id, m) =>
      if id in s.tb.rooms && s.tb.rooms[id].Group? then Goto(s, t, Removing(id, m)) else s
    case Insert(t) =>
      var p := PcOf(s.pcs, t);
      Goto(s, t, Idle).(tb := s.tb.(members := s.tb.members + Rows(p.id, p.ms)))
    case Remove(t) =>
      var p := PcOf(s.pcs, t);
      Goto(s, t, Idle).(tb := s.tb.(members := s.tb.members - {(p.id, p.m)}))
    case DeleteRoom(id) =>
      s.(tb := s.tb.(rooms := s.tb.rooms - {id}, members := set r | r in s.tb.members && r.0 != id))
  }

  function Step(s: State, x: Action): State { if Enabled(s, x) then Do(s, x) else s }

  const Start := State(Tables(map[], {}, {}), map[])

  function Run(xs: seq<Action>): State {
    if xs == [] then Start else Step(Run(xs[..|xs| - 1]), xs[|xs| - 1])
  }

  // ---------- the invariant ----------

  /** The unique index, rows only for ids drawn, and every one-to-one room holds exactly its pair. */
  ghost predicate TablesKept(tb: Tables) {
    && (forall i, j | i in tb.rooms && j in tb.rooms && tb.rooms[i].Direct? && tb.rooms[j].Direct? ::
          DirectKey(tb.rooms[i].one, tb.rooms[i].two) == DirectKey(tb.rooms[j].one, tb.rooms[j].two) ==> i == j)
    && tb.rooms.Keys <= tb.used
    && (forall r | r in tb.members :: r.0 in tb.used)
    && (forall i, m | i in tb.rooms && tb.rooms[i].Direct? ::
          (i, m) in tb.members <==> m == tb.rooms[i].one || m == tb.rooms[i].two)
  }

  /** A pending membership write aims at an id that is not, and can never become, a one-to-one room. */
  ghost predicate WritesAimAtGroups(s: State) {
    forall t: Thread :: var p := PcOf(s.pcs, t);
      p.Adding? || p.Removing? ==> p.id in s.tb.used && (p.id in s.tb.rooms ==> s.tb.rooms[p.id].Group?)
  }

  lemma TablesAreKept(s: State, x: Action)
    requires TablesKept(s.tb) && WritesAimAtGroups(s) && Enabled(s, x)
    ensures TablesKept(Do(s, x).tb)
  {
    match x {
      case Create(t, id, ok) =>
        var p := PcOf(s.pcs, t);
        if ok && !KeyTaken(s.tb, DirectKey(p.a, p.b)) {
          forall i | i in s.tb.rooms && s.tb.rooms[i].Direct?
            ensures DirectKey(s.tb.rooms[i].one, s.tb.rooms[i].two) != DirectKey(p.a, p.b)
          {
            assert !HasKey(s.tb, i, DirectKey(p.a, p.b));
          }
        }
      case Insert(t) => var p := PcOf(s.pcs, t); assert p.Adding?;
      case Remove(t) => var p := PcOf(s.pcs, t); assert p.Removing?;
      case _ =>
    }
  }

  lemma WritesStayAimed(s: State, x: Action)
    requires TablesKept(s.tb) && WritesAimAtGroups(s) && Enabled(s, x)
    ensures WritesAimAtGroups(Do(s, x))
  {
    var s' := Do(s, x);
    forall t: Thread | PcOf(s'.pcs, t).Adding? || PcOf(s'.pcs, t).Removing?
      ensures var p := PcOf(s'.pcs, t); p.id in s'.tb.used && (p.id in s'.tb.rooms ==> s'.tb.rooms[p.id].Group?)
    {
      var q := PcOf(s.pcs, t);
      assert q.Adding? || q.Removing? ==> q.id in s.tb.used;
    }
  }

  lemma {:induction false} RunsKeepInv(xs: seq<Action>)
    ensures TablesKept(Run(xs).tb) && WritesAimAtGroups(Run(xs))
  {
    if xs != [] {
      var (s, x) := (Run(xs[..|xs| - 1]), xs[|xs| - 1]);
      RunsKeepInv(xs[..|xs| - 1]);
      if Enabled(s, x) {
        TablesAreKept(s, x);
        WritesStayAimed(s, x);
      }
    }
  }

  // ---------- what the steps do ----------

  /** With the key free a create that does not fail makes the pair's room and returns it; with the key taken it goes on to
      look again. No other room and no other room's members change. */
  lemma CreateMakesTheRoom(s: State, t: Thread, id: RoomId)
    requires TablesKept(s.tb) && Enabled(s, Create(t, id, true))
    ensures var (p, s') := (PcOf(s.pcs, t), Do(s, Create(t, id, true)));
            && (KeyTaken(s.tb, DirectKey(p.a, p.b)) ==>
                  PcOf(s'.pcs, t) == Refinding(p.a, p.b) && s'.tb.rooms == s.tb.rooms && s'.tb.members == s.tb.members)
            && (!KeyTaken(s.tb, DirectKey(p.a, p.b)) ==>
                  && PcOf(s'.pcs, t) == Returned(p.a, p.b, id)
                  && s'.tb.rooms == s.tb.rooms[id := Direct(p.a, p.b)] && MembersOf(s'.tb, id) == {p.a, p.b}
                  && forall i: RoomId | i != id :: MembersOf(s'.tb, i) == MembersOf(s.tb, i))
  {
    hide DirectKey, KeyTaken;
    var p := PcOf(s.pcs, t);
    RowsOf(id, {p.a, p.b}, s.tb);
  }

  lemma RowsOf(id: RoomId, ms: set<string>, tb: Tables)
    ensures var tb' := tb.(members := tb.members + Rows(id, ms));
            && MembersOf(tb', id) == MembersOf(tb, id) + ms
            && forall i: RoomId | i != id :: MembersOf(tb', i) == MembersOf(tb, i)
    ensures (forall m :: (id, m) !in tb.members) ==> MembersOf(tb, id) == {}
  {
    var tb' := tb.(members := tb.members + Rows(id, ms));
    assert forall i: RoomId, m :: m in MembersOf(tb', i) <==> (i, m) in tb'.members;
    assert forall i: RoomId, m :: m in MembersOf(tb, i) <==> (i, m) in tb.members;
  }

  /** A call for a blank or the caller's own id fails; any other goes on to look for the trimmed id's room. */
  lemma CallsAreChecked(s: State, t: Thread, a: string, b: string)
    requires Enabled(s, CallDirect(t, a, b))
    ensures PcOf(Do(s, CallDirect(t, a, b)).pcs, t).Failed? <==> TrimSpace(b) == "" || TrimSpace(b) == a
    ensures TrimSpace(b) != "" && TrimSpace(b) != a ==> PcOf(Do(s, CallDirect(t, a, b)).pcs, t) == Finding(a, TrimSpace(b))
  {
    hide TrimSpace;
  }

  /** A query that does not fail returns the key's room if there is one; otherwise the first goes on to create it and the
      second gives up. */
  lemma QueriesFind(s: State, t: Thread, id: RoomId)
    ensures var p := PcOf(s.pcs, t);
            p.Finding? && Enabled(s, Find(t, id, true)) ==>
              PcOf(Do(s, Find(t, id, true)).pcs, t) ==
                if KeyTaken(s.tb, DirectKey(p.a, p.b)) then Returned(p.a, p.b, id) else Creating(p.a, p.b)
    ensures var p := PcOf(s.pcs, t);
            p.Refinding? && Enabled(s, Refind(t, id, true)) ==>
              PcOf(Do(s, Refind(t, id, true)).pcs, t) ==
                if KeyTaken(s.tb, DirectKey(p.a, p.b)) then Returned(p.a, p.b, id) else Failed(p.a, p.b)
  {
  }

  /** Additions and removals move exactly the members they name, of exactly the room their check was for. */
  lemma WritesMoveMembers(s: State, t: Thread)
    ensures var p := PcOf(s.pcs, t);
            p.Adding? ==> var tb' := Do(s, Insert(t)).tb;
              && tb'.rooms == s.tb.rooms && MembersOf(tb', p.id) == MembersOf(s.tb, p.id) + p.ms
              && forall i: RoomId | i != p.id :: MembersOf(tb', i) == MembersOf(s.tb, i)
    ensures var p := PcOf(s.pcs, t);
            p.Removing? ==> var tb' := Do(s, Remove(t)).tb;
              && tb'.rooms == s.tb.rooms && MembersOf(tb', p.id) == MembersOf(s.tb, p.id) - {p.m}
              && forall i: RoomId | i != p.id :: MembersOf(tb', i) == MembersOf(s.tb, i)
  {
    var p := PcOf(s.pcs, t);
    if p.Adding? {
      RowsOf(p.id, p.ms, s.tb);
    }
    if p.Removing? {
      var tb' := Do(s, Remove(t)).tb;
      assert forall i: RoomId, m :: m in MembersOf(tb', i) <==> (i, m) in tb'.members;
      assert forall i: RoomId, m :: m in MembersOf(s.tb, i) <==> (i, m) in s.tb.members;
    }
  }

  // ---------- guarantees ----------

  /** In every interleaving there is at most one one-to-one room per unordered pair. */
  lemma OneRoomPerPair(xs: seq<Action>, i: RoomId, j: RoomId)
    requires var tb := Run(xs).tb;
             i in tb.rooms && j in tb.rooms && tb.rooms[i].Direct? && tb.rooms[j].Direct?
             && SamePair(tb.rooms[i].one, tb.rooms[i].two, tb.rooms[j].one, tb.rooms[j].two)
    ensures i == j
  {
    RunsKeepInv(xs);
    var tb := Run(xs).tb;
    DirectKeySymmetric(tb.rooms[i].one, tb.rooms[i].two);
  }

  /** For its whole life a one-to-one room's members are exactly the two it was created for, whatever
      additions, departures and kicks run beside it. */
  lemma DirectRoomKeepsItsPair(xs: seq<Action>, i: RoomId)
    requires i in Run(xs).tb.rooms && Run(xs).tb.rooms[i].Direct?
    ensures var tb := Run(xs).tb; MembersOf(tb, i) == {tb.rooms[i].one, tb.rooms[i].two}
  {
    RunsKeepInv(xs);
    var tb := Run(xs).tb;
    assert forall m :: m in MembersOf(tb, i) <==> (i, m) in tb.members;
  }

  /** No one-to-one room with this key is deleted in the run; any other room may be. */
  ghost predicate KeyStays(xs: seq<Action>, key: string) {
    forall i | 0 <= i < |xs| :: !(xs[i].DeleteRoom? && HasKey(Run(xs[..i]).tb, xs[i].id, key))
  }

  lemma KeyStaysBefore(xs: seq<Action>, key: string)
    requires xs != [] && KeyStays(xs, key)
    ensures KeyStays(xs[..|xs| - 1], key)
    ensures var (s, x) := (Run(xs[..|xs| - 1]), xs[|xs| - 1]); !(x.DeleteRoom? && HasKey(s.tb, x.id, key))
  {
    var before := xs[..|xs| - 1];
    forall i | 0 <= i < |before| ensures !(before[i].DeleteRoom? && HasKey(Run(before[..i]).tb, before[i].id, key)) {
      assert before[..i] == xs[..i] && before[i] == xs[i];
    }
  }

  /** Every thread that asked for the key and got a room points at a room that has it. */
  ghost predicate AnswersStand(s: State, key: string) {
    forall t: Thread :: var p := PcOf(s.pcs, t); p.Returned? && DirectKey(p.a, p.b) == key ==> HasKey(s.tb, p.id, key)
  }

  /** A room with the key keeps it through every step but its own deletion. */
  lemma RoomKeepsKey(s: State, x: Action, id: RoomId, key: string)
    requires TablesKept(s.tb) && Enabled(s, x) && HasKey(s.tb, id, key) && !(x.DeleteRoom? && x.id == id)
    ensures HasKey(Do(s, x).tb, id, key)
  {
    hide DirectKey;
  }

  /** A thread comes by a room only by finding or creating one with the key it asked for. */
  lemma NewAnswers(s: State, x: Action, t: Thread)
    requires Enabled(s, x)
    ensures var (p, p') := (PcOf(s.pcs, t), PcOf(Do(s, x).pcs, t));
            p'.Returned? && p' != p ==> HasKey(Do(s, x).tb, p'.id, DirectKey(p'.a, p'.b))
  {
    hide DirectKey, TrimSpace;
  }

  lemma {:induction false} AnswersKept(xs: seq<Action>, key: string)
    requires KeyStays(xs, key)
    ensures AnswersStand(Run(xs), key)
  {
    if xs != [] {
      var (before, x) := (xs[..|xs| - 1], xs[|xs| - 1]);
      KeyStaysBefore(xs, key);
      AnswersKept(before, key);
      RunsKeepInv(before);
      var s := Run(before);
      if Enabled(s, x) {
        hide DirectKey;
        forall t: Thread | PcOf(Do(s, x).pcs, t).Returned? && DirectKey(PcOf(Do(s, x).pcs, t).a, PcOf(Do(s, x).pcs, t).b) == key
          ensures HasKey(Do(s, x).tb, PcOf(Do(s, x).pcs, t).id, key)
        {
          var (p, p') := (PcOf(s.pcs, t), PcOf(Do(s, x).pcs, t));
          NewAnswers(s, x, t);
          if p' == p {
            RoomKeepsKey(s, x, p.id, key);
          }
        }
      }
    }
  }

  /** While no room of the pair is deleted, all callers for the same pair that succeed get the same room. */
  lemma CallersAgree(xs: seq<Action>, t: Thread, u: Thread)
    requires var (p, q) := (PcOf(Run(xs).pcs, t), PcOf(Run(xs).pcs, u));
             p.Returned? && q.Returned? && SamePair(p.a, p.b, q.a, q.b) && KeyStays(xs, DirectKey(p.a, p.b))
    ensures PcOf(Run(xs).pcs, t).id == PcOf(Run(xs).pcs, u).id
  {
    var (p, q) := (PcOf(Run(xs).pcs, t), PcOf(Run(xs).pcs, u));
    AnswersKept(xs, DirectKey(p.a, p.b));
    RunsKeepInv(xs);
    DirectKeySymmetric(p.a, p.b);
    assert HasKey(Run(xs).tb, p.id, DirectKey(p.a, p.b)) && HasKey(Run(xs).tb, q.id, DirectKey(q.a, q.b));
  }

  /** And when the pair's key names that pair alone, the room's members are exactly the two who asked for it, whatever
      ids other rooms are for. */
  lemma CallerGetsOwnRoom(xs: seq<Action>, t: Thread)
    requires var p := PcOf(Run(xs).pcs, t);
             p.Returned? && KeyStays(xs, DirectKey(p.a, p.b)) && SplitsOneWay(p.a, p.b)
    ensures var (tb, p) := (Run(xs).tb, PcOf(Run(xs).pcs, t)); MembersOf(tb, p.id) == {p.a, p.b}
  {
    var (tb, p) := (Run(xs).tb, PcOf(Run(xs).pcs, t));
    AnswersKept(xs, DirectKey(p.a, p.b));
    assert HasKey(tb, p.id, DirectKey(p.a, p.b));
    KeyNamesOnePair(p.a, p.b);
    hide SplitsOneWay, DirectKey;
    assert SamePair(p.a, p.b, tb.rooms[p.id].one, tb.rooms[p.id].two);
    DirectRoomKeepsItsPair(xs, p.id);
  }

  // ---------- the code of the service ----------

  datatype Answer = Invalid | Error | Got(id: RoomId)

  class Service {
    var tb: Tables

    /** FindDirect: a row with the key, if there is one. */
    method FindDirect(key: string) returns (r: Option<RoomId>)
      ensures r.Some? <==> KeyTaken(tb, key)
      ensures r.Some? ==> HasKey(tb, r.value, key)
    {
      if exists id | id in tb.rooms :: HasKey(tb, id, key) {
        var id :| id in tb.rooms && HasKey(tb, id, key);
        return Some(id);
      }
      r := None;
    }

    /** The insert of Create, when no room has the key. */
    method InsertDirect(a: string, b: string, id: RoomId)
      requires TablesKept(tb) && id !in tb.used && !KeyTaken(tb, DirectKey(a, b))
      modifies this
      ensures TablesKept(tb) && tb == InsertRoom(old(tb), id, Direct(a, b), {a, b})
      ensures HasKey(tb, id, DirectKey(a, b)) && MembersOf(tb, id) == {a, b}
    {
      ghost var s := State(tb, map[0 := Creating(a, b)]);
      assert WritesAimAtGroups(s);
      TablesAreKept(s, Create(0, id, true));
      CreateMakesTheRoom(s, 0, id);
      tb := InsertRoom(tb, id, Direct(a, b), {a, b});
    }

    /** CreateDirect: find, create, find against the unique key. A rival may create the room between the first
        find and the create; whoever wins, the caller gets the one room with the pair's key. */
    method CreateDirect(a: string, b: string, newId: RoomId, rival: Option<RoomId>,
                        findOk: bool, createOk: bool, refindOk: bool)
      returns (r: Answer)
      requires TablesKept(tb) && newId !in tb.used
      requires rival.Some? ==> rival.value !in tb.used && rival.value != newId
      modifies this
      ensures TablesKept(tb)
      ensures r.Invalid? <==> TrimSpace(b) == "" || TrimSpace(b) == a
      ensures r.Got? ==> HasKey(tb, r.id, DirectKey(a, TrimSpace(b)))
      ensures r.Got? && !old(KeyTaken(tb, DirectKey(a, TrimSpace(b)))) ==>
                r.id == (if rival.Some? then rival.value else newId)
                && tb.rooms == old(tb).rooms[r.id := Direct(a, TrimSpace(b))] && MembersOf(tb, r.id) == {a, TrimSpace(b)}
                && tb == InsertRoom(old(tb), r.id, Direct(a, TrimSpace(b)), {a, TrimSpace(b)})
      ensures old(KeyTaken(tb, DirectKey(a, TrimSpace(b)))) ==> tb == old(tb)
      ensures findOk && refindOk && (createOk || rival.Some?) ==> !r.Error?
    {
      hide TrimSpace, DirectKey;
      var other := TrimSpace(b);
      if other == "" || other == a {
        return Invalid;
      }
      var key := DirectKey(a, other);
      if !findOk {
        return Error;
      }
      var existing := FindDirect(key);
      if existing.Some? {
        return Got(existing.value);
      }
      if rival.Some? {
        InsertDirect(a, other, rival.value);
      }
      if createOk && rival.None? {
        InsertDirect(a, other, newId);
        return Got(newId);
      }
      // the insert failed, on the unique key or otherwise: look again
      if !refindOk {
        return Error;
      }
      existing := FindDirect(key);
      if existing.Some? {
        return Got(existing.value);
      }
      r := Error;
    }

    /** dedupe: trimmed, blanks dropped, first occurrences in order. */
    method Dedupe(ids: seq<string>) returns (out: seq<string>)
      ensures out == Distinct(Cleaned(ids))
    {
      hide TrimSpace;
      out := [];
      var seen: set<string> := {};
      for i := 0 to |ids|
        invariant out == Distinct(Cleaned(ids[..i]))
        invariant forall v :: v in seen <==> v in out
      {
        var v := TrimSpace(ids[i]);
        assert ids[..i + 1][..i] == ids[..i];
        ghost var so := Cleaned(ids[..i]);
        assert (so + [v])[..|so|] == so;
        if v == "" || v in seen {
          continue;
        }
        seen := seen + {v};
        out := out + [v];
      }
      assert ids[..|ids|] == ids;
    }

    /** filterToMembers: the ids that are members, in order. */
    method FilterToMembers(ids: seq<string>, members: seq<string>) returns (out: seq<string>)
      ensures out == Among(ids, set m | m in members)
    {
      var inRoom: set<string> := set m | m in members;
      out := [];
      for i := 0 to |ids|
        invariant out == Among(ids[..i], inRoom)
      {
        AmongGrows(ids, i, inRoom);
        if ids[i] in inRoom {
          out := out + [ids[i]];
        }
      }
      assert ids[..|ids|] == ids;
    }
  }
}
