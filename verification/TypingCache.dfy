/** The member lists behind typing indicators: a cache with a 5 second lifetime and a bound on its size, and
    the exact story of when a list it serves can differ from the room's current members. */
module TypingCache {
  import opened Lists
  import opened Options

  type Room = string
  type Time = int          // nanoseconds
  type Thread = nat

  const TTL: Time := 5_000_000_000
  const MAX_ROOMS: nat := 4096

  // ---------- the cache as a value ----------

  /** Entry and expiry time per room. */
  type Entries<E> = map<Room, (E, Time)>

  function Prune<E>(c: Entries<E>, now: Time): Entries<E> {
    map r | r in c && !(now > c[r].1) :: c[r]
  }

  /** put: at the bound the expired entries go first, and if that is not enough all of them. */
  function Store<E>(c: Entries<E>, room: Room, e: E, pruneAt: Time, now: Time): Entries<E> {
    MakeRoom(c, pruneAt)[room := (e, now + TTL)]
  }

  function MakeRoom<E>(c: Entries<E>, pruneAt: Time): Entries<E> {
    var kept := if |c| >= MAX_ROOMS then Prune(c, pruneAt) else c;
    if |kept| >= MAX_ROOMS then map[] else kept
  }

  function Lookup<E>(c: Entries<E>, room: Room, now: Time): Option<E> {
    if room !in c || now > c[room].1 then None else Some(c[room].0)
  }

  lemma StoreBounded<E>(c: Entries<E>, room: Room, e: E, pruneAt: Time, now: Time)
    requires |c| <= MAX_ROOMS
    ensures |Store(c, room, e, pruneAt, now)| <= MAX_ROOMS
    ensures room in Store(c, room, e, pruneAt, now) && Store(c, room, e, pruneAt, now)[room] == (e, now + TTL)
    ensures forall r | r in Store(c, room, e, pruneAt, now) && r != room :: r in c && Store(c, room, e, pruneAt, now)[r] == c[r]
  {
    var base := MakeRoom(c, pruneAt);
    assert |base| < MAX_ROOMS;
    var r := base[room := (e, now + TTL)];
    assert r.Keys == base.Keys + {room};
  }

  /** Until it expires, is invalidated or is pushed out, an entry is served as it was put. */
  lemma LookupAfterStore<E>(c: Entries<E>, room: Room, e: E, pruneAt: Time, now: Time, later: Time)
    ensures Lookup(Store(c, room, e, pruneAt, now), room, later) == if later <= now + 5_000_000_000 then Some(e) else None
  {
  }

  // ---------- the cache as the code keeps it ----------

  datatype Slot = Slot(members: array<string>, expires: Time)

  method Clone(members: array<string>) returns (cp: array<string>)
    ensures fresh(cp) && cp[..] == members[..]
  {
    cp := new string[members.Length];
    for i := 0 to members.Length
      invariant cp[..i] == members[..i]
    {
      cp[i] := members[i];
    }
    assert cp[..] == cp[..cp.Length] && members[..] == members[..members.Length];
  }

  class MemberListCache {
    var entries: map<Room, Slot>

    /** The member slices the cache holds on to. */
    ghost function Slices(): set<array<string>>
      reads this
    {
      set r | r in entries :: entries[r].members
    }

    ghost function View(): Entries<seq<string>>
      reads this, Slices()
    {
      map r | r in entries :: (entries[r].members[..], entries[r].expires)
    }

    constructor ()
      ensures entries == map[]
    {
      entries := map[];
    }

    method Get(room: Room, now: Time) returns (r: Option<array<string>>)
      ensures r.Some? <==> Lookup(View(), room, now).Some?
      ensures r.Some? ==> r.value in Slices() && r.value[..] == Lookup(View(), room, now).value
    {
      if room !in entries || now > entries[room].expires {
        return None;
      }
      r := Some(entries[room].members);
    }

    method PruneExpired(now: Time)
      modifies this
      ensures Slices() <= old(Slices())
      ensures View() == Prune(old(View()), now)
    {
      ghost var before := entries;
      var rest := entries.Keys;
      while rest != {}
        invariant rest <= before.Keys
        invariant entries == map r | r in before && (r in rest || !(now > before[r].expires)) :: before[r]
        decreases rest
      {
        var id :| id in rest;
        if now > entries[id].expires {
          entries := entries - {id};
        }
        rest := rest - {id};
      }
    }

    method Evict(pruneAt: Time)
      modifies this
      ensures Slices() <= old(Slices())
      ensures View() == MakeRoom(old(View()), pruneAt)
    {
      assert View().Keys == entries.Keys;
      if |entries.Keys| >= MAX_ROOMS {
        PruneExpired(pruneAt);
        assert View().Keys == entries.Keys;
        if |entries.Keys| >= MAX_ROOMS {
          entries := map[];
        }
      }
    }

    /** put copies the list it is given: the caller's slice never becomes the cache's. */
    method Put(room: Room, members: array<string>, pruneAt: Time, now: Time)
      modifies this
      ensures View() == Store(old(View()), room, members[..], pruneAt, now)
      ensures fresh(Slices() - old(Slices()))
      ensures members !in old(Slices()) ==> members !in Slices()
    {
      var cp := Clone(members);
      Evict(pruneAt);
      hide MakeRoom;
      entries := entries[room := Slot(cp, now + TTL)];
    }

    method Invalidate(room: Room)
      modifies this
      ensures Slices() <= old(Slices())
      ensures View() == old(View()) - {room}
    {
      entries := entries - {room};
    }
  }

  /** Typing: one pass decides whether the actor is a member and who else gets the signal. */
  method Recipients(members: seq<string>, actor: string) returns (isMember: bool, others: seq<string>)
    ensures isMember <==> actor in members
    ensures others == Among(members, (set m | m in members) - {actor})
  {
    ghost var rest := (set m | m in members) - {actor};
    isMember, others := false, [];
    for i := 0 to |members|
      invariant isMember <==> actor in members[..i]
      invariant others == Among(members[..i], rest)
    {
      AmongGrows(members, i, rest);
      if members[i] == actor {
        isMember := true;
        continue;
      }
      others := others + [members[i]];
    }
    assert members[..|members|] == members;
  }

  // ---------- fills, changes and invalidations interleaved ----------

  /** A cached list remembers which version of the room's membership its fill read and at which step of the run, when
      it was put, and whether a membership change was committed between that read and the put. */
  datatype Entry = Entry(members: seq<string>, version: nat, readStep: nat, putAt: Time, straddled: bool)

  datatype Pc =
    | Idle
    | Loaded(room: Room, e: Entry, expires: Time, asked: nat)   // get has read the entry, not yet compared the clock
    | Missed(room: Room, asked: nat)
    | Filled(room: Room, members: seq<string>, version: nat, readStep: nat, asked: nat)   // Members has returned
    | Changing(room: Room)                             // a member's change has passed its checks, not yet committed
    | Invalidating(room: Room)                         // membership change committed, invalidate not yet run

  /** Members of every version of every room: rooms[r] lists the versions in order, the last is current. Steps are
      numbered; `asked` is the step at which a call looked into the cache. */
  datatype State = State(
    clock: Time,
    rooms: map<Room, seq<seq<string>>>,
    silent: map<Room, nat>,                            // the last version that came without an invalidation here
    cache: Entries<Entry>,
    pcs: map<Thread, Pc>,
    served: seq<Served>,
    steps: nat)

  datatype Served = Served(room: Room, members: seq<string>, version: nat, readStep: nat, asked: nat,
                           putAt: Option<Time>, at: Time)

  function PcOf(pcs: map<Thread, Pc>, t: Thread): Pc { if t in pcs then pcs[t] else Idle }

  /** An unknown room has no member rows. */
  function Versions(s: State, room: Room): seq<seq<string>> {
    if room in s.rooms && s.rooms[room] != [] then s.rooms[room] else [[]]
  }

  function Current(s: State, room: Room): nat { |Versions(s, room)| - 1 }

  datatype Action =
    | Tick(d: nat)
    | Load(t: Thread, room: Room)
    | Decide(t: Thread)
    | ReadMembers(t: Thread, ok: bool)
    | PutList(t: Thread)
    | Create(room: Room, members: seq<string>)              // CreateGroup or CreateDirect, under a fresh id
    | CheckChange(t: Thread, room: Room, actor: string)     // AddMembers, LeaveRoom or KickMember: actor is a member
    | Commit(t: Thread, members: seq<string>, ok: bool)
    | Invalidate(t: Thread)
    | AdminDelete(room: Room)                               // does not invalidate
    | ChangedElsewhere(room: Room, members: seq<string>)    // by another instance: does not reach this cache

  function Step(s: State, a: Action): State { Move(s, a).(steps := s.steps + 1) }

  function Move(s: State, a: Action): State {
    match a
    case Tick(d) => s.(clock := s.clock + d)
    case Load(t, room) =>
      if !PcOf(s.pcs, t).Idle? then s
      else s.(pcs := s.pcs[t := if room in s.cache then Loaded(room, s.cache[room].0, s.cache[room].1, s.steps)
                             else Missed(room, s.steps)])
    case Decide(t) =>
      var p := PcOf(s.pcs, t);
      if !p.Loaded? then s
      else if s.clock > p.expires then s.(pcs := s.pcs[t := Missed(p.room, p.asked)])
      else s.(pcs := s.pcs[t := Idle],
              served := s.served + [Served(p.room, p.e.members, p.e.version, p.e.readStep, p.asked, Some(p.e.putAt), s.clock)])
    case ReadMembers(t, ok) =>
      var p := PcOf(s.pcs, t);
      if !p.Missed? then s
      else if !ok then s.(pcs := s.pcs[t := Idle])
      else s.(pcs := s.pcs[t := Filled(p.room, Versions(s, p.room)[Current(s, p.room)], Current(s, p.room), s.steps, p.asked)])
    case PutList(t) =>
      var p := PcOf(s.pcs, t);
      if !p.Filled? then s
      else
        var e := Entry(p.members, p.version, p.readStep, s.clock, p.version != Current(s, p.room));
        s.(cache := Store(s.cache, p.room, e, s.clock, s.clock), pcs := s.pcs[t := Idle],
           served := s.served + [Served(p.room, p.members, p.version, p.readStep, p.asked, None, s.clock)])
    case Create(room, members) => if room in s.rooms then s else Silently(s, room, members)
    case CheckChange(t, room, actor) =>
      if PcOf(s.pcs, t).Idle? && actor in Versions(s, room)[Current(s, room)] then s.(pcs := s.pcs[t := Changing(room)]) else s
    case Commit(t, members, ok) =>
      var p := PcOf(s.pcs, t);
      if !p.Changing? then s
      else if !ok then s.(pcs := s.pcs[t := Idle])
      else s.(rooms := s.rooms[p.room := Versions(s, p.room) + [members]], pcs := s.pcs[t := Invalidating(p.room)])
    case Invalidate(t) =>
      var p := PcOf(s.pcs, t);
      if !p.Invalidating? then s else s.(cache := s.cache - {p.room}, pcs := s.pcs[t := Idle])
    case AdminDelete(room) => Silently(s, room, [])
    case ChangedElsewhere(room, members) => if room in s.rooms then Silently(s, room, members) else s
  }

  /** A new version of the room's members that invalidates nothing here. */
  function Silently(s: State, room: Room, members: seq<string>): State {
    s.(rooms := s.rooms[room := Versions(s, room) + [members]], silent := s.silent[room := |Versions(s, room)|])
  }

  const Start := State(0, map[], map[], map[], map[], [], 0)

  function Run(actions: seq<Action>): State {
    if actions == [] then Start else Step(Run(actions[..|actions| - 1]), actions[|actions| - 1])
  }

  /** A call's two steps on the cache, run in a row, are one lookup: it serves what the cache then has for the room, or
      misses and serves nothing. */
  lemma LoadAndDecideLookUp(s: State, t: Thread, room: Room)
    requires PcOf(s.pcs, t).Idle?
    ensures var (s', found) := (Step(Step(s, Load(t, room)), Decide(t)), Lookup(s.cache, room, s.clock));
            && s'.cache == s.cache && s'.rooms == s.rooms
            && (found.None? ==> PcOf(s'.pcs, t) == Missed(room, s.steps) && s'.served == s.served)
            && (found.Some? ==> PcOf(s'.pcs, t).Idle? && |s'.served| == |s.served| + 1
                                && s'.served[|s.served|].room == room && s'.served[|s.served|].members == found.value.members
                                && s'.served[|s.served|].at == s.clock)
  {
    hide Silently, Store, Versions, Current;
  }

  /** A created room has its members and is no other's; an id that is in use is not created again. */
  lemma CreateIsNew(s: State, room: Room, members: seq<string>)
    ensures var s' := Step(s, Create(room, members));
            && s'.cache == s.cache
            && (room in s.rooms ==> s'.rooms == s.rooms)
            && (room !in s.rooms ==> Versions(s', room)[Current(s', room)] == members && s'.rooms - {room} == s.rooms)
  {
  }

  // ---------- the invariant ----------

  /** The list is what the room's members were at the version it names. */
  predicate Exact(s: State, room: Room, members: seq<string>, version: nat) {
    version <= Current(s, room) && members == Versions(s, room)[version]
  }

  ghost predicate Pending(pcs: map<Thread, Pc>, room: Room) {
    exists t: Thread :: PcOf(pcs, t) == Invalidating(room)
  }

  /** Since that version was read the room was created, removed or changed by another instance. */
  predicate SilentSince(s: State, room: Room, version: nat) { room in s.silent && s.silent[room] > version }

  /** Why a cached list may lag behind: its fill straddled a change, there was a change since that does not invalidate
      here, or a committed change has not run its invalidation yet. */
  ghost predicate Excused(s: State, room: Room, e: Entry) {
    e.straddled || SilentSince(s, room, e.version) || Pending(s.pcs, room)
  }

  ghost predicate EntryFits(s: State, room: Room, e: Entry, expires: Time) {
    Exact(s, room, e.members, e.version) && expires == e.putAt + TTL && e.putAt <= s.clock
  }

  ghost predicate ThreadFits(s: State, p: Pc) {
    match p
    case Loaded(room, e, expires, _) => EntryFits(s, room, e, expires)
    case Filled(room, members, version, _, _) => Exact(s, room, members, version)
    case _ => true
  }

  ghost predicate CacheFits(s: State) {
    && |s.cache| <= MAX_ROOMS
    && (forall r | r in s.cache :: EntryFits(s, r, s.cache[r].0, s.cache[r].1))
    && (forall r | r in s.cache :: s.cache[r].0.version == Current(s, r) || Excused(s, r, s.cache[r].0))
    && (forall r | r in s.cache :: s.cache[r].0.straddled ==> s.cache[r].0.version < Current(s, r))
    && (forall r | r in s.silent :: s.silent[r] <= Current(s, r))
  }

  ghost predicate ServedFits(s: State, v: Served) {
    Exact(s, v.room, v.members, v.version) && (v.putAt.Some? ==> v.putAt.value <= v.at <= v.putAt.value + TTL)
  }

  ghost predicate Inv(s: State) {
    && CacheFits(s)
    && (forall t: Thread :: ThreadFits(s, PcOf(s.pcs, t)))
    && (forall i | 0 <= i < |s.served| :: ServedFits(s, s.served[i]))
  }

  /** Versions are only ever appended, so what was exact stays exact. */
  lemma ExactStays(s: State, a: Action, room: Room, members: seq<string>, version: nat)
    requires Exact(s, room, members, version)
    ensures Exact(Step(s, a), room, members, version)
  {
  }

  lemma PendingStays(s: State, a: Action, room: Room)
    requires Pending(s.pcs, room) && !(a.Invalidate? && PcOf(s.pcs, a.t) == Invalidating(room))
    ensures Pending(Step(s, a).pcs, room)
  {
    var t: Thread :| PcOf(s.pcs, t) == Invalidating(room);
    assert PcOf(Step(s, a).pcs, t) == Invalidating(room);
  }

  predicate SilentSame(s: State, s': State, r: Room) {
    (r in s.silent <==> r in s'.silent) && (r in s.silent ==> s'.silent[r] == s.silent[r])
  }

  /** What a step does to one room: nothing, a silent change, or a commit that leaves its thread about to invalidate. */
  lemma RoomAfter(s: State, a: Action, r: Room)
    ensures var s' := Step(s, a);
            || (Versions(s', r) == Versions(s, r) && SilentSame(s, s', r))
            || (Current(s', r) == Current(s, r) + 1 && r in s'.silent && s'.silent[r] == Current(s', r))
            || (Current(s', r) == Current(s, r) + 1 && SilentSame(s, s', r)
                && a.Commit? && PcOf(s'.pcs, a.t) == Invalidating(r))
  {
    hide Store;
  }

  /** A version is overtaken only by a change that is pending or silent. */
  lemma VersionStaysExcused(s: State, a: Action, r: Room, e: Entry)
    requires e.version == Current(s, r) || Excused(s, r, e)
    requires !(a.Invalidate? && PcOf(s.pcs, a.t) == Invalidating(r))
    requires r in s.silent ==> s.silent[r] <= Current(s, r)
    requires e.version <= Current(s, r)
    ensures var s' := Step(s, a); e.version == Current(s', r) || Excused(s', r, e)
  {
    RoomAfter(s, a, r);
    if Pending(s.pcs, r) {
      PendingStays(s, a, r);
    }
    hide Step, Versions, Current;
  }

  lemma SilentStaysFit(s: State, a: Action, r: Room)
    requires r in s.silent ==> s.silent[r] <= Current(s, r)
    ensures var s' := Step(s, a); r in s'.silent ==> s'.silent[r] <= Current(s', r)
  {
    RoomAfter(s, a, r);
    hide Step;
  }

  lemma InvalidatedIsGone(s: State, a: Action, r: Room)
    requires a.Invalidate? && PcOf(s.pcs, a.t) == Invalidating(r)
    ensures r !in Step(s, a).cache
  {
  }

  /** One cache line across a step that does not write it. */
  lemma LineStaysFit(s: State, a: Action, r: Room)
    requires Inv(s) && r in s.cache && r in Step(s, a).cache && Step(s, a).cache[r] == s.cache[r]
    ensures var (s', e) := (Step(s, a), s.cache[r].0);
            && EntryFits(s', r, e, s.cache[r].1) && (e.version == Current(s', r) || Excused(s', r, e))
            && (e.straddled ==> e.version < Current(s', r))
  {
    var (s', e) := (Step(s, a), s.cache[r].0);
    assert s'.clock >= s.clock by {
      hide Store;
    }
    assert EntryFits(s, r, e, s.cache[r].1) && (e.version == Current(s, r) || Excused(s, r, e));
    assert (e.straddled ==> e.version < Current(s, r)) && (r in s.silent ==> s.silent[r] <= Current(s, r));
    hide Inv;
    ExactStays(s, a, r, e.members, e.version);
    OneMoreVersion(s, a, r);
    if a.Invalidate? && PcOf(s.pcs, a.t) == Invalidating(r) {
      InvalidatedIsGone(s, a, r);
    } else {
      VersionStaysExcused(s, a, r, e);
    }
    hide Step, Exact, Excused, Versions, Current;
  }

  lemma PutLeavesFit(s: State, t: Thread)
    requires Inv(s) && PcOf(s.pcs, t).Filled?
    ensures |Step(s, PutList(t)).cache| <= MAX_ROOMS
    ensures var (s', r) := (Step(s, PutList(t)), PcOf(s.pcs, t).room);
            r in s'.cache && EntryFits(s', r, s'.cache[r].0, s'.cache[r].1)
            && (if s'.cache[r].0.straddled then s'.cache[r].0.version < Current(s', r) else s'.cache[r].0.version == Current(s', r))
            && forall q | q in s'.cache && q != r :: q in s.cache && s'.cache[q] == s.cache[q]
  {
    hide Store;
    var p := PcOf(s.pcs, t);
    assert ThreadFits(s, p);
    StoreBounded(s.cache, p.room, Entry(p.members, p.version, p.readStep, s.clock, p.version != Current(s, p.room)), s.clock, s.clock);
  }

  lemma CacheStaysFit(s: State, a: Action)
    requires Inv(s)
    ensures CacheFits(Step(s, a))
  {
    hide Step, Pending, Exact, Store, SilentSince, Current;
    var s' := Step(s, a);
    var puts := a.PutList? && PcOf(s.pcs, a.t).Filled?;
    if puts {
      PutLeavesFit(s, a.t);
    } else {
      NothingStored(s, a);
      SmallerMap(s'.cache, s.cache);
    }
    forall r | r in s'.cache && !(puts && r == PcOf(s.pcs, a.t).room)
      ensures EntryFits(s', r, s'.cache[r].0, s'.cache[r].1)
      ensures s'.cache[r].0.version == Current(s', r) || Excused(s', r, s'.cache[r].0)
      ensures s'.cache[r].0.straddled ==> s'.cache[r].0.version < Current(s', r)
    {
      LineStaysFit(s, a, r);
    }
    forall r | r in s'.silent ensures s'.silent[r] <= Current(s', r) {
      SilentStaysFit(s, a, r);
    }
  }

  lemma NothingStored(s: State, a: Action)
    requires !(a.PutList? && PcOf(s.pcs, a.t).Filled?)
    ensures Step(s, a).cache.Keys <= s.cache.Keys
    ensures forall r | r in Step(s, a).cache :: Step(s, a).cache[r] == s.cache[r]
  {
  }

  lemma SmallerMap<E>(c: Entries<E>, d: Entries<E>)
    requires c.Keys <= d.Keys
    ensures |c| <= |d|
  {
    SmallerSet(c.Keys, d.Keys);
  }

  lemma {:induction false} SmallerSet(a: set<Room>, b: set<Room>)
    requires a <= b
    ensures |a| <= |b|
  {
    if a != {} {
      var x :| x in a;
      SmallerSet(a - {x}, b - {x});
    }
  }

  lemma PositionStaysFit(s: State, a: Action, p: Pc)
    requires ThreadFits(s, p)
    ensures ThreadFits(Step(s, a), p)
  {
    assert Step(s, a).clock >= s.clock;
    match p {
      case Loaded(room, e, _, _) => ExactStays(s, a, room, e.members, e.version);
      case Filled(room, members, version, _, _) => ExactStays(s, a, room, members, version);
      case _ =>
    }
    hide Step, Exact;
  }

  /** The only steps that give a thread something to hold. */
  lemma NewPositions(s: State, a: Action, t: Thread)
    ensures var (p, p') := (PcOf(s.pcs, t), PcOf(Step(s, a).pcs, t));
            || p' == p || p'.Idle? || p'.Missed? || p'.Changing? || p'.Invalidating?
            || (a.Load? && p'.Loaded? && p'.room in s.cache && p'.asked == s.steps
                && (p'.e, p'.expires) == s.cache[p'.room])
            || (a.ReadMembers? && p.Missed? && p' ==
                  Filled(p.room, Versions(s, p.room)[Current(s, p.room)], Current(s, p.room), s.steps, p.asked))
    ensures var (p, p') := (PcOf(s.pcs, t), PcOf(Step(s, a).pcs, t));
            p' != p && p'.Missed? ==> p'.asked == s.steps || (p.Loaded? && p'.asked == p.asked)
  {
    hide Store;
  }

  lemma ThreadsStayFit(s: State, a: Action, t: Thread)
    requires Inv(s)
    ensures ThreadFits(Step(s, a), PcOf(Step(s, a).pcs, t))
  {
    var (p, p') := (PcOf(s.pcs, t), PcOf(Step(s, a).pcs, t));
    assert ThreadFits(s, p);
    NewPositions(s, a, t);
    if p'.Loaded? && p' != p {
      assert EntryFits(s, p'.room, s.cache[p'.room].0, s.cache[p'.room].1);
    }
    assert ThreadFits(s, p');
    PositionStaysFit(s, a, p');
  }

  /** A step serves at most one list: what a thread holds. */
  lemma NewServed(s: State, a: Action)
    ensures var s' := Step(s, a);
            || s'.served == s.served
            || (a.Decide? && var p := PcOf(s.pcs, a.t);
                p.Loaded? && s.clock <= p.expires && s'.clock == s.clock && s'.served == s.served +
                  [Served(p.room, p.e.members, p.e.version, p.e.readStep, p.asked, Some(p.e.putAt), s.clock)])
            || (a.PutList? && var p := PcOf(s.pcs, a.t);
                p.Filled? && s'.served == s.served +
                  [Served(p.room, p.members, p.version, p.readStep, p.asked, None, s.clock)])
  {
    hide Store;
  }

  lemma ServedStaysFit(s: State, a: Action)
    requires Inv(s)
    ensures forall i | 0 <= i < |Step(s, a).served| :: ServedFits(Step(s, a), Step(s, a).served[i])
  {
    var s' := Step(s, a);
    NewServed(s, a);
    if s'.served != s.served {
      assert ThreadFits(s, PcOf(s.pcs, a.t));
    }
    hide Step, Exact, CacheFits;
    forall i | 0 <= i < |s'.served| ensures ServedFits(s', s'.served[i]) {
      var v := s'.served[i];
      assert i < |s.served| ==> v == s.served[i] && ServedFits(s, v);
      ExactStays(s, a, v.room, v.members, v.version);
    }
  }

  lemma {:induction false} RunsKeepInv(actions: seq<Action>)
    ensures Inv(Run(actions))
  {
    if actions != [] {
      var (s, a) := (Run(actions[..|actions| - 1]), actions[|actions| - 1]);
      RunsKeepInv(actions[..|actions| - 1]);
      CacheStaysFit(s, a);
      forall t: Thread ensures ThreadFits(Step(s, a), PcOf(Step(s, a).pcs, t)) {
        ThreadsStayFit(s, a, t);
      }
      ServedStaysFit(s, a);
    }
  }

  // ---------- guarantees ----------

  /** At that step of the run the version was the room's current one. */
  ghost predicate CurrentAt(actions: seq<Action>, step: nat, room: Room, version: nat) {
    step <= |actions| && Current(Run(actions[..step]), room) == version
  }

  ghost predicate EntryDated(actions: seq<Action>, room: Room, e: Entry) {
    CurrentAt(actions, e.readStep, room, e.version)
  }

  /** The entry was in the cache at that step. */
  ghost predicate CachedAt(actions: seq<Action>, step: nat, room: Room, version: nat, readStep: nat) {
    step <= |actions| && room in Run(actions[..step]).cache
    && Run(actions[..step]).cache[room].0.version == version && Run(actions[..step]).cache[room].0.readStep == readStep
  }

  ghost predicate ThreadDated(actions: seq<Action>, p: Pc) {
    match p
    case Loaded(room, e, _, asked) => EntryDated(actions, room, e) && CachedAt(actions, asked, room, e.version, e.readStep)
    case Missed(_, asked) => asked <= |actions|
    case Filled(room, _, version, readStep, asked) => asked <= readStep && CurrentAt(actions, readStep, room, version)
    case _ => true
  }

  ghost predicate ServedDated(actions: seq<Action>, v: Served) {
    && CurrentAt(actions, v.readStep, v.room, v.version)
    && (v.putAt.None? ==> v.asked <= v.readStep)
    && (v.putAt.Some? ==> CachedAt(actions, v.asked, v.room, v.version, v.readStep))
  }

  ghost predicate Dated(actions: seq<Action>) {
    var s := Run(actions);
    && s.steps == |actions|
    && (forall r | r in s.cache :: EntryDated(actions, r, s.cache[r].0))
    && (forall t: Thread :: ThreadDated(actions, PcOf(s.pcs, t)))
    && (forall i | 0 <= i < |s.served| :: ServedDated(actions, s.served[i]))
  }

  /** What was dated in a run stays so as the run goes on. */
  lemma DatesStay(before: seq<Action>, a: Action)
    ensures forall step: nat, room, version | CurrentAt(before, step, room, version) ::
              CurrentAt(before + [a], step, room, version)
    ensures forall step: nat, room, version, readStep: nat | CachedAt(before, step, room, version, readStep) ::
              CachedAt(before + [a], step, room, version, readStep)
  {
    hide Run;
    assert forall step | 0 <= step <= |before| :: (before + [a])[..step] == before[..step];
  }

  lemma CacheIsDated(before: seq<Action>, a: Action)
    requires Dated(before)
    ensures var s := Step(Run(before), a); forall r | r in s.cache :: EntryDated(before + [a], r, s.cache[r].0)
  {
    var (s, s') := (Run(before), Step(Run(before), a));
    if a.PutList? && PcOf(s.pcs, a.t).Filled? {
      assert ThreadDated(before, PcOf(s.pcs, a.t));
      SameKeys(s, a.t);
    } else {
      NothingStored(s, a);
    }
    hide Step, Run, CachedAt;
    forall r | r in s'.cache ensures EntryDated(before + [a], r, s'.cache[r].0) {
      var e := s'.cache[r].0;
      assert r in s.cache && s'.cache[r] == s.cache[r] ==> EntryDated(before, r, e);
      DateStays(before, a, e.readStep, r, e.version);
    }
  }

  lemma DateStays(before: seq<Action>, a: Action, step: nat, room: Room, version: nat)
    requires CurrentAt(before, step, room, version)
    ensures CurrentAt(before + [a], step, room, version)
  {
    assert (before + [a])[..step] == before[..step];
  }

  /** A put writes its own line and leaves every other as it was, or drops it. */
  lemma SameKeys(s: State, t: Thread)
    requires PcOf(s.pcs, t).Filled?
    ensures var (s', p) := (Step(s, PutList(t)), PcOf(s.pcs, t));
            forall r | r in s'.cache ::
              (r == p.room && s'.cache[r].0.version == p.version && s'.cache[r].0.readStep == p.readStep)
              || (r in s.cache && s'.cache[r] == s.cache[r])
  {
  }

  lemma ThreadsAreDated(before: seq<Action>, a: Action, t: Thread)
    requires Dated(before)
    ensures ThreadDated(before + [a], PcOf(Step(Run(before), a).pcs, t))
  {
    var s := Run(before);
    var (p, p') := (PcOf(s.pcs, t), PcOf(Step(s, a).pcs, t));
    DatesStay(before, a);
    NewPositions(s, a, t);
    assert before[..|before|] == before && ThreadDated(before, p);
    if p'.Loaded? && p' != p {
      assert EntryDated(before, p'.room, s.cache[p'.room].0);
      assert CachedAt(before, |before|, p'.room, p'.e.version, p'.e.readStep);
    }
    if p'.Filled? && p' != p {
      assert CurrentAt(before, |before|, p'.room, p'.version);
    }
    hide Run, Step, CurrentAt, CachedAt, Current, Versions;
    assert ThreadDated(before, p');
  }

  lemma ServedIsDated(before: seq<Action>, a: Action, i: nat)
    requires Dated(before) && i < |Step(Run(before), a).served|
    ensures ServedDated(before + [a], Step(Run(before), a).served[i])
  {
    var s := Run(before);
    var v := Step(s, a).served[i];
    NewServed(s, a);
    if i < |s.served| {
      assert v == s.served[i] && ServedDated(before, v);
    } else {
      assert ThreadDated(before, PcOf(s.pcs, a.t));
    }
    hide Step, Run;
    assert ServedDated(before, v);
    hide ThreadDated, Dated;
    DateStays(before, a, v.readStep, v.room, v.version);
    DatesStay(before, a);
    hide CurrentAt, CachedAt;
  }

  lemma {:induction false} RunsAreDated(actions: seq<Action>)
    ensures Dated(actions)
  {
    if actions != [] {
      var (before, a) := (actions[..|actions| - 1], actions[|actions| - 1]);
      RunsAreDated(before);
      assert before + [a] == actions;
      CacheIsDated(before, a);
      forall t: Thread ensures ThreadDated(actions, PcOf(Step(Run(before), a).pcs, t)) {
        ThreadsAreDated(before, a, t);
      }
      forall i | 0 <= i < |Step(Run(before), a).served| ensures ServedDated(actions, Step(Run(before), a).served[i]) {
        ServedIsDated(before, a, i);
      }
      hide Move, EntryDated, ThreadDated, ServedDated;
    }
  }

  /** Every list ever served is exactly what the room's members were at the step its fill read them, and a list from
      the cache is served no more than 5 seconds after it was put. The cache never exceeds its bound. */
  lemma ServedListsAreExact(actions: seq<Action>, i: nat)
    requires i < |Run(actions).served|
    ensures var (s, v) := (Run(actions), Run(actions).served[i]);
            && |s.cache| <= 4096
            && v.readStep <= |actions| && v.version == Current(Run(actions[..v.readStep]), v.room)
            && v.version < |Versions(s, v.room)| && v.members == Versions(s, v.room)[v.version]
            && (v.putAt.Some? ==> v.at <= v.putAt.value + 5_000_000_000)
  {
    RunsKeepInv(actions);
    RunsAreDated(actions);
    assert ServedFits(Run(actions), Run(actions).served[i]) && ServedDated(actions, Run(actions).served[i]);
  }

  /** How current a served list is, measured at the step the call looked into the cache: after a miss it is at least as
      recent, and after a hit it is the current one, unless the entry was then excused. */
  lemma ServedListsAreCurrent(actions: seq<Action>, i: nat)
    requires i < |Run(actions).served|
    ensures var v := Run(actions).served[i];
            v.asked <= |actions| &&
            var then' := Run(actions[..v.asked]);
            && (v.putAt.None? ==> v.version >= Current(then', v.room))
            && (v.putAt.Some? ==>
                  && v.room in then'.cache
                  && (v.version == Current(then', v.room) || Excused(then', v.room, then'.cache[v.room].0)))
  {
    RunsAreDated(actions);
    var v := Run(actions).served[i];
    assert ServedDated(actions, v);
    if v.putAt.Some? {
      RunsKeepInv(actions[..v.asked]);
    } else {
      VersionsGrow(actions, v.asked, v.readStep, v.room);
    }
  }

  lemma {:induction false} VersionsGrow(actions: seq<Action>, m: nat, n: nat, room: Room)
    requires m <= n <= |actions|
    ensures Current(Run(actions[..m]), room) <= Current(Run(actions[..n]), room)
    decreases n - m
  {
    if m < n {
      assert actions[..n][..n - 1] == actions[..n - 1];
      VersionsGrow(actions, m, n - 1, room);
      OneMoreVersion(Run(actions[..n - 1]), actions[n - 1], room);
    }
  }

  lemma OneMoreVersion(s: State, a: Action, room: Room)
    ensures Current(s, room) <= Current(Step(s, a), room)
  {
  }

  /** With no invalidation outstanding for the room, a cached list is of the room's current version if and only if its
      fill did not straddle a change and nothing changed the room since without an invalidation. */
  lemma StaleExactlyWithExcuse(actions: seq<Action>, room: Room)
    requires room in Run(actions).cache && !Pending(Run(actions).pcs, room)
    ensures var (s, e) := (Run(actions), Run(actions).cache[room].0);
            && (e.version == Current(s, room) <==> !e.straddled && !SilentSince(s, room, e.version))
            && (e.version == Current(s, room) ==> e.members == Versions(s, room)[Current(s, room)])
  {
    RunsKeepInv(actions);
    var (s, e) := (Run(actions), Run(actions).cache[room].0);
    assert EntryFits(s, room, e, s.cache[room].1);
    assert e.version == Current(s, room) || Excused(s, room, e);
  }

  lemma Extend(actions: seq<Action>, a: Action)
    ensures Run(actions + [a]) == Step(Run(actions), a)
  {
    assert (actions + [a])[..|actions|] == actions;
  }

  /** A room is created with one member, and thread 0 reads its list. */
  lemma CreateThenRead(room: Room, a: string) returns (actions: seq<Action>)
    ensures Run(actions) == State(0, map[room := [[], [a]]], map[room := 1], map[], map[0 := Filled(room, [a], 1, 2, 1)], [], 3)
  {
    AfterCreate(room, a);
    Extend([], Create(room, [a]));
    hide Run, Step;
    actions := ReadList([] + [Create(room, [a])], room, a);
  }

  lemma AfterCreate(room: Room, a: string)
    ensures Step(Run([]), Create(room, [a])) == State(0, map[room := [[], [a]]], map[room := 1], map[], map[], [], 1)
  {
    assert Run([]) == Start;
    hide Run;
    assert [[]] + [[a]] == [[], [a]];
  }

  lemma ReadList(before: seq<Action>, room: Room, a: string) returns (actions: seq<Action>)
    requires Run(before) == State(0, map[room := [[], [a]]], map[room := 1], map[], map[], [], 1)
    ensures Run(actions) == State(0, map[room := [[], [a]]], map[room := 1], map[], map[0 := Filled(room, [a], 1, 2, 1)], [], 3)
  {
    hide Run, Store;
    Extend(before, Load(0, room));
    actions := before + [Load(0, room)];
    assert Run(actions) == State(0, map[room := [[], [a]]], map[room := 1], map[], map[0 := Missed(room, 1)], [], 2);
    Extend(actions, ReadMembers(0, true));
    actions := actions + [ReadMembers(0, true)];
  }

  /** Then its member adds another, and invalidates. */
  lemma ReadThenChange(room: Room, a: string, m: string) returns (actions: seq<Action>)
    ensures Run(actions) == State(0, map[room := [[], [a], [a, m]]], map[room := 1], map[],
                                  map[0 := Filled(room, [a], 1, 2, 1), 1 := Idle], [], 6)
  {
    hide Run, Store;
    actions := CreateThenRead(room, a);
    Extend(actions, CheckChange(1, room, a));
    actions := actions + [CheckChange(1, room, a)];
    assert a in [a];
    assert Run(actions) == State(0, map[room := [[], [a]]], map[room := 1], map[],
                                 map[0 := Filled(room, [a], 1, 2, 1), 1 := Changing(room)], [], 4);
    actions := CommitAndInvalidate(actions, room, a, m);
  }

  lemma CommitAndInvalidate(before: seq<Action>, room: Room, a: string, m: string) returns (actions: seq<Action>)
    requires Run(before) == State(0, map[room := [[], [a]]], map[room := 1], map[],
                                  map[0 := Filled(room, [a], 1, 2, 1), 1 := Changing(room)], [], 4)
    ensures Run(actions) == State(0, map[room := [[], [a], [a, m]]], map[room := 1], map[],
                                  map[0 := Filled(room, [a], 1, 2, 1), 1 := Idle], [], 6)
  {
    hide Run, Store;
    Extend(before, Commit(1, [a, m], true));
    actions := before + [Commit(1, [a, m], true)];
    assert [[], [a]] + [[a, m]] == [[], [a], [a, m]];
    assert Run(actions) == State(0, map[room := [[], [a], [a, m]]], map[room := 1], map[],
                                 map[0 := Filled(room, [a], 1, 2, 1), 1 := Invalidating(room)], [], 5);
    Extend(actions, Invalidate(1));
    actions := actions + [Invalidate(1)];
  }

  /** The straddling excuse is real: a fill that reads before a member adds another and puts after the invalidation
      leaves the old list in the cache with every call finished. */
  lemma StraddlingFillStaysStale(room: Room, a: string, m: string) returns (actions: seq<Action>)
    ensures var s := Run(actions);
            && (forall t: Thread :: PcOf(s.pcs, t).Idle?) && room in s.cache && !SilentSince(s, room, s.cache[room].0.version)
            && s.cache[room].0.members == [a] && Versions(s, room)[Current(s, room)] == [a, m]
  {
    var before := ReadThenChange(room, a, m);
    Extend(before, PutList(0));
    actions := before + [PutList(0)];
    hide Store, Run;
    StoreBounded(map[], room, Entry([a], 1, 2, 0, true), 0, 0);
    assert Run(actions).pcs == map[0 := Idle, 1 := Idle];
  }

  /** So is the other: AdminDeleteRoom does not invalidate, and the list survives its room. */
  lemma RemovedRoomStaysCached(actions: seq<Action>, room: Room)
    requires room in Run(actions).cache
    ensures var s := Run(actions + [AdminDelete(room)]);
            room in s.cache && s.cache[room] == Run(actions).cache[room]
            && Versions(s, room)[Current(s, room)] == [] && s.cache[room].0.version < Current(s, room)
  {
    RunsKeepInv(actions);
    var (s, e) := (Run(actions), Run(actions).cache[room].0);
    assert EntryFits(s, room, e, s.cache[room].1);
    Extend(actions, AdminDelete(room));
    hide Run, Inv, CacheFits;
  }
}
