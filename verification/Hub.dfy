/** The connection hub: which members are online, through which connections, and where a broadcast goes.

    A connection is a handle; its Send channel is a bounded queue that Unregister closes. Channels live in a
    table keyed by handle, so that the hub's map and the connections' queues are separate state. */
module Hub {
  import opened Lists

  type Client = nat
  type Payload = string

  const SEND_BUFFER: nat := 64

  datatype Chan = Chan(queue: seq<Payload>, closed: bool)

  type Registry = map<string, set<Client>>
  type Channels = map<Client, Chan>

  function ClientsOf(reg: Registry, member: string): set<Client> {
    if member in reg then reg[member] else {}
  }

  /** The non-blocking send to one open connection: dropped when its queue is full. */
  function Offer(ch: Chan, p: Payload): Chan {
    if |ch.queue| < SEND_BUFFER then ch.(queue := ch.queue + [p]) else ch
  }

  /** One payload to every connection of a set. */
  function Fan(chans: Channels, targets: set<Client>, p: Payload): Channels {
    map c | c in chans :: if c in targets then Offer(chans[c], p) else chans[c]
  }

  function Deliver(reg: Registry, chans: Channels, ids: seq<string>, p: Payload): Channels
    decreases |ids|
  {
    if ids == [] then chans else Deliver(reg, Fan(chans, ClientsOf(reg, ids[0]), p), ids[1..], p)
  }

  // ---------- the hub ----------

  class Hub {
    var clients: Registry
    var chans: Channels
    var owner: map<Client, string>

    /** Every member key has connections, every registered connection is its owner's and open. */
    ghost predicate Valid()
      reads this
    {
      Consistent(clients, chans, owner)
    }

    /** The state of the runs below, nothing announced yet. */
    ghost function Now(): State
      reads this
    {
      State(clients, chans, owner, {}, [], false)
    }

    ghost predicate Shows(s: State)
      reads this
    {
      clients == s.reg && chans == s.chans && owner == s.owner && !s.panicked
    }

    constructor ()
      ensures Valid() && clients == map[] && chans == map[] && owner == map[]
    {
      clients, chans, owner := map[], map[], map[];
    }

    method Register(c: Client, member: string) returns (wasFirst: bool)
      requires Valid() && c !in chans
      modifies this
      ensures Valid()
      ensures wasFirst == (member !in old(clients))
      ensures clients == old(clients)[member := old(ClientsOf(clients, member)) + {c}]
      ensures chans == old(chans)[c := Chan([], false)] && owner == old(owner)[c := member]
      ensures var s := Step(old(Now()), Connect(c, member));
              Shows(s) && s.presence == if wasFirst then [(member, true)] else []
    {
      wasFirst := false;
      var members := {};
      if member in clients {
        members := clients[member];
      } else {
        wasFirst := true;
      }
      chans := chans[c := Chan([], false)];
      owner := owner[c := member];
      clients := clients[member := members + {c}];
    }

    method Unregister(c: Client) returns (wasLast: bool)
      requires Valid() && c in owner
      modifies `clients, `chans
      ensures Valid()
      ensures wasLast == (owner[c] in old(clients) && old(clients)[owner[c]] == {c})
      ensures clients == Removed(old(clients), owner[c], c)
      ensures chans == if c in old(ClientsOf(clients, owner[c])) then old(chans)[c := old(chans)[c].(closed := true)]
                       else old(chans)
      ensures var s := Step(old(Now()), Disconnect(c));
              Shows(s) && s.presence == if wasLast then [(owner[c], false)] else []
    {
      var member := owner[c];
      if member !in clients {
        return false;
      }
      var members := clients[member];
      if c in members {
        assert members - {c} == {} ==> members == {c};
        members := members - {c};
        assert !chans[c].closed;
        chans := chans[c := chans[c].(closed := true)];
      } else {
        assert members - {c} == members;
      }
      if members == {} {
        clients := clients - {member};
        return true;
      }
      clients := clients[member := members];
      wasLast := false;
    }

    method OnlineAmong(ids: seq<string>) returns (out: seq<string>)
      requires Valid()
      ensures out == Among(ids, clients.Keys)
    {
      out := [];
      for i := 0 to |ids|
        invariant out == Among(ids[..i], clients.Keys)
      {
        AmongGrows(ids, i, clients.Keys);
        if ids[i] in clients && |clients[ids[i]]| > 0 {
          out := out + [ids[i]];
        }
      }
      assert ids[..|ids|] == ids;
    }

    /** The inner loop of SendToMembers: one non-blocking send to every connection of a member. */
    method SendToAll(targets: set<Client>, p: Payload)
      requires Valid() && forall c | c in targets :: c in chans && !chans[c].closed
      modifies `chans
      ensures Valid() && chans == Fan(old(chans), targets, p)
    {
      ghost var start := chans;
      var rest := targets;
      while rest != {}
        invariant rest <= targets && chans == Fan(start, targets - rest, p)
        decreases rest
      {
        var c :| c in rest;
        if |chans[c].queue| < SEND_BUFFER {
          chans := chans[c := chans[c].(queue := chans[c].queue + [p])];
        }
        rest := rest - {c};
      }
      assert targets - rest == targets;
    }

    method SendToMembers(ids: seq<string>, p: Payload)
      requires Valid()
      modifies `chans
      ensures Valid() && chans == Deliver(clients, old(chans), ids, p)
      ensures Shows(Step(old(Now()), Broadcast(ids, p)))
    {
      ghost var before := chans;
      for i := 0 to |ids|
        invariant Valid()
        invariant Deliver(clients, chans, ids[i..], p) == Deliver(clients, before, ids, p)
      {
        assert ids[i..][1..] == ids[i + 1..];
        SendToAll(if ids[i] in clients then clients[ids[i]] else {}, p);
      }
    }
  }

  function Removed(reg: Registry, member: string, c: Client): Registry {
    if member !in reg then reg
    else if reg[member] == {c} then reg - {member}
    else reg[member := reg[member] - {c}]
  }

  ghost predicate Consistent(reg: Registry, chans: Channels, owner: map<Client, string>) {
    && chans.Keys == owner.Keys
    && (forall m | m in reg :: reg[m] != {})
    && (forall m, c | m in reg && c in reg[m] :: c in chans && owner[c] == m && !chans[c].closed)
    && (forall c | c in chans :: |chans[c].queue| <= SEND_BUFFER)
  }

  // ---------- where a broadcast goes ----------

  function Copies(p: Payload, n: nat): seq<Payload> { seq(n, _ => p) }

  function Min(a: nat, b: nat): nat { if a <= b then a else b }

  /** Nobody but member m holds connection c. */
  ghost predicate OnlyUnder(reg: Registry, c: Client, m: string) {
    forall n | n in reg && c in reg[n] :: n == m
  }

  /** A broadcast appends the payload to a connection once for every time its member is listed, as far as
      the queue has room, and touches nothing else: closed, unlisted or unregistered connections are as before. */
  lemma {:induction false} BroadcastReaches(reg: Registry, chans: Channels, ids: seq<string>, p: Payload, c: Client, m: string)
    requires c in chans && |chans[c].queue| <= SEND_BUFFER && OnlyUnder(reg, c, m)
    ensures var (n, room) := (multiset(ids)[m], 64 - |chans[c].queue|);
            var hit := if c in ClientsOf(reg, m) then Min(n, room) else 0;
            c in Deliver(reg, chans, ids, p)
            && Deliver(reg, chans, ids, p)[c] == chans[c].(queue := chans[c].queue + Copies(p, hit))
    decreases |ids|
  {
    if ids == [] {
      assert chans[c].queue + Copies(p, 0) == chans[c].queue;
    } else {
      var next := Fan(chans, ClientsOf(reg, ids[0]), p);
      BroadcastReaches(reg, next, ids[1..], p, c, m);
      assert ids == [ids[0]] + ids[1..];
      assert multiset(ids)[m] == multiset(ids[1..])[m] + if ids[0] == m then 1 else 0;
      assert c in ClientsOf(reg, ids[0]) ==> ids[0] == m;
      OneMoreHit(chans[c], p, multiset(ids[1..])[m]);
      hide Deliver, Copies, Min;
    }
  }

  /** One offer and then k more are k + 1, as far as there is room. */
  lemma OneMoreHit(ch: Chan, p: Payload, k: nat)
    requires |ch.queue| <= SEND_BUFFER
    ensures Offer(ch, p).queue + Copies(p, Min(k, SEND_BUFFER - |Offer(ch, p).queue|))
         == ch.queue + Copies(p, Min(k + 1, SEND_BUFFER - |ch.queue|))
    ensures |Offer(ch, p).queue| <= SEND_BUFFER && Offer(ch, p).closed == ch.closed
  {
    if |ch.queue| < SEND_BUFFER {
      MoreCopies(ch.queue, p, Min(k, SEND_BUFFER - |ch.queue| - 1));
    }
  }

  lemma MoreCopies(q: seq<Payload>, p: Payload, n: nat)
    ensures q + [p] + Copies(p, n) == q + Copies(p, n + 1)
  {
  }

  /** To distinct ids: exactly once to each targeted connection with room. */
  lemma BroadcastOnce(reg: Registry, chans: Channels, ids: seq<string>, p: Payload, c: Client, m: string)
    requires c in chans && |chans[c].queue| <= SEND_BUFFER && OnlyUnder(reg, c, m)
    requires forall i, j | 0 <= i < j < |ids| :: ids[i] != ids[j]
    ensures c in Deliver(reg, chans, ids, p)
    ensures Deliver(reg, chans, ids, p)[c] ==
              if m in ids && m in reg && c in reg[m] && |chans[c].queue| < 64 then chans[c].(queue := chans[c].queue + [p])
              else chans[c]
  {
    BroadcastReaches(reg, chans, ids, p, c, m);
    DistinctCount(ids, m);
    assert Copies(p, 1) == [p];
    assert chans[c].queue + Copies(p, 0) == chans[c].queue;
  }

  lemma {:induction false} DistinctCount(ids: seq<string>, m: string)
    requires forall i, j | 0 <= i < j < |ids| :: ids[i] != ids[j]
    ensures multiset(ids)[m] == if m in ids then 1 else 0
  {
    if ids != [] {
      DistinctCount(ids[1..], m);
      assert ids == [ids[0]] + ids[1..];
    }
  }

  // ---------- runs ----------

  /** presence: the transitions announced, in order (Register or Unregister returned true). */
  datatype State = State(reg: Registry, chans: Channels, owner: map<Client, string>, left: set<Client>,
                         presence: seq<(string, bool)>, panicked: bool)

  datatype Event =
    | Connect(c: Client, member: string)
    | Disconnect(c: Client)
    | Broadcast(ids: seq<string>, p: Payload)
    | PushDirect(c: Client, p: Payload)   // the connection's own reader reports an error to it
    | Drain(c: Client)                    // the connection's writer takes one payload

  /** Connections are fresh; a reader pushes only before it disconnects. */
  predicate Enabled(s: State, e: Event) {
    match e
    case Connect(c, m) => c !in s.chans && c !in s.owner
    case Disconnect(c) => c in s.owner && c in s.chans
    case Broadcast(ids, p) => true
    case PushDirect(c, p) => c in s.chans && c !in s.left
    case Drain(c) => c in s.chans && s.chans[c].queue != []
  }

  /** Some listed member has a registered connection whose channel is closed: sending to it panics. */
  predicate HitsClosed(reg: Registry, chans: Channels, ids: seq<string>) {
    exists m, c | m in ids && c in ClientsOf(reg, m) :: c in chans && chans[c].closed
  }

  function Do(s: State, e: Event): State
    requires Enabled(s, e)
  {
    match e
    case Connect(c, m) =>
      s.(reg := s.reg[m := ClientsOf(s.reg, m) + {c}], chans := s.chans[c := Chan([], false)],
         owner := s.owner[c := m], presence := s.presence + if m in s.reg then [] else [(m, true)])
    case Disconnect(c) =>
      var m := s.owner[c];
      s.(reg := Removed(s.reg, m, c),
         chans := if c in ClientsOf(s.reg, m) then s.chans[c := s.chans[c].(closed := true)] else s.chans,
         left := s.left + {c},
         presence := s.presence + if m in s.reg && s.reg[m] == {c} then [(m, false)] else [],
         panicked := s.panicked || (c in ClientsOf(s.reg, m) && s.chans[c].closed))
    case Broadcast(ids, p) =>
      s.(chans := Deliver(s.reg, s.chans, ids, p), panicked := s.panicked || HitsClosed(s.reg, s.chans, ids))
    case PushDirect(c, p) =>
      s.(chans := s.chans[c := Offer(s.chans[c], p)], panicked := s.panicked || s.chans[c].closed)
    case Drain(c) => s.(chans := s.chans[c := s.chans[c].(queue := s.chans[c].queue[1..])])
  }

  function Step(s: State, e: Event): State { if Enabled(s, e) then Do(s, e) else s }

  const Start := State(map[], map[], map[], {}, [], false)

  function Run(events: seq<Event>): State {
    if events == [] then Start else Step(Run(events[..|events| - 1]), events[|events| - 1])
  }

  /** The announced transitions of one member. */
  function Transitions(log: seq<(string, bool)>, m: string): seq<bool> {
    if log == [] then []
    else Transitions(log[..|log| - 1], m) + (if log[|log| - 1].0 == m then [log[|log| - 1].1] else [])
  }

  /** online, offline, online, ... and currently online exactly when the member has a key in the hub. */
  predicate Alternates(ts: seq<bool>, online: bool) {
    (forall i | 0 <= i < |ts| :: ts[i] == (i % 2 == 0)) && (online <==> |ts| % 2 == 1)
  }

  ghost predicate Inv(s: State) {
    && Consistent(s.reg, s.chans, s.owner)
    && (forall c | c in s.chans && c !in s.left :: c in ClientsOf(s.reg, s.owner[c]))
    && !s.panicked
  }

  ghost predicate PresenceInv(s: State) {
    forall m :: Alternates(Transitions(s.presence, m), m in s.reg)
  }

  lemma DeliverKeepsInv(s: State, ids: seq<string>, p: Payload)
    requires Inv(s)
    ensures Inv(s.(chans := Deliver(s.reg, s.chans, ids, p)))
  {
    hide Deliver;
    var chans := Deliver(s.reg, s.chans, ids, p);
    KeysStay(s.reg, s.chans, ids, p);
    forall c | c in s.chans
      ensures chans[c].closed == s.chans[c].closed && |chans[c].queue| <= SEND_BUFFER
    {
      BroadcastReaches(s.reg, s.chans, ids, p, c, s.owner[c]);
    }
  }

  lemma {:induction false} KeysStay(reg: Registry, chans: Channels, ids: seq<string>, p: Payload)
    ensures Deliver(reg, chans, ids, p).Keys == chans.Keys
    decreases |ids|
  {
    if ids != [] {
      KeysStay(reg, Fan(chans, ClientsOf(reg, ids[0]), p), ids[1..], p);
    }
  }

  lemma ConnectKeepsInv(s: State, c: Client, m: string)
    requires Inv(s) && Enabled(s, Connect(c, m))
    ensures Inv(Do(s, Connect(c, m)))
  {
  }

  lemma DisconnectKeepsInv(s: State, c: Client)
    requires Inv(s) && Enabled(s, Disconnect(c))
    ensures Inv(Do(s, Disconnect(c)))
  {
    var (m, s') := (s.owner[c], Do(s, Disconnect(c)));
    forall n | n in s'.reg ensures s'.reg[n] != {} && s'.reg[n] <= s.reg[n] && (n == m ==> c !in s'.reg[n]) {
    }
  }

  lemma BroadcastKeepsInv(s: State, ids: seq<string>, p: Payload)
    requires Inv(s)
    ensures Inv(Do(s, Broadcast(ids, p)))
  {
    hide Deliver;
    DeliverKeepsInv(s, ids, p);
  }

  lemma StepKeepsInv(s: State, e: Event)
    requires Inv(s) && Enabled(s, e)
    ensures Inv(Do(s, e))
  {
    match e {
      case Connect(c, m) => ConnectKeepsInv(s, c, m);
      case Disconnect(c) => DisconnectKeepsInv(s, c);
      case Broadcast(ids, p) => BroadcastKeepsInv(s, ids, p);
      case PushDirect(c, p) =>
      case Drain(c) =>
    }
  }

  lemma Logged(log: seq<(string, bool)>, x: (string, bool), m: string)
    ensures Transitions(log + [x], m) == Transitions(log, m) + if x.0 == m then [x.1] else []
  {
    assert (log + [x])[..|log|] == log;
  }

  /** What a step announces: nothing, or one member coming online or going offline. */
  lemma PresenceAfter(s: State, e: Event) returns (news: seq<(string, bool)>)
    requires Enabled(s, e)
    ensures |news| <= 1 && Do(s, e).presence == s.presence + news
    ensures news == [] ==> Do(s, e).reg.Keys == s.reg.Keys
    ensures news != [] ==> (news[0].0 in s.reg <==> !news[0].1)
    ensures news != [] ==> Do(s, e).reg.Keys == if news[0].1 then s.reg.Keys + {news[0].0} else s.reg.Keys - {news[0].0}
  {
    hide Deliver, Fan, Offer, HitsClosed, ClientsOf;
    news := [];
    assert s.presence + [] == s.presence;
    match e {
      case Connect(c, m) => news := if m in s.reg then [] else [(m, true)];
      case Disconnect(c) => news := if s.owner[c] in s.reg && s.reg[s.owner[c]] == {c} then [(s.owner[c], false)] else [];
      case _ =>
    }
  }

  lemma OneMoreTransition(ts: seq<bool>, on: bool)
    requires Alternates(ts, !on)
    ensures Alternates(ts + [on], on)
  {
  }

  /** One member's transitions across a step's news. */
  lemma MemberAlternates(before: seq<(string, bool)>, news: seq<(string, bool)>, n: string, online: bool, online': bool)
    requires Alternates(Transitions(before, n), online) && |news| <= 1
    requires if news != [] && news[0].0 == n then online == !news[0].1 && online' == news[0].1 else online' == online
    ensures Alternates(Transitions(before + news, n), online')
  {
    if news == [] {
      assert before + news == before;
    } else {
      assert news == [news[0]];
      Logged(before, news[0], n);
      hide Transitions, Alternates;
      if news[0].0 == n {
        OneMoreTransition(Transitions(before, n), online');
      } else {
        assert Transitions(before, n) + [] == Transitions(before, n);
      }
    }
  }

  lemma StepKeepsPresence(s: State, e: Event)
    requires PresenceInv(s) && Enabled(s, e)
    ensures PresenceInv(Do(s, e))
  {
    var news := PresenceAfter(s, e);
    var s' := Do(s, e);
    hide Do, Transitions, Enabled, Alternates;
    forall n ensures Alternates(Transitions(s'.presence, n), n in s'.reg) {
      assert Alternates(Transitions(s.presence, n), n in s.reg);
      assert n in s'.reg <==> n in s'.reg.Keys;
      assert n in s.reg <==> n in s.reg.Keys;
      MemberAlternates(s.presence, news, n, n in s.reg, n in s'.reg);
    }
  }

  lemma {:induction false} RunsKeepInv(events: seq<Event>)
    ensures Inv(Run(events)) && PresenceInv(Run(events))
  {
    if events != [] {
      var s := Run(events[..|events| - 1]);
      RunsKeepInv(events[..|events| - 1]);
      if Enabled(s, events[|events| - 1]) {
        StepKeepsInv(s, events[|events| - 1]);
        StepKeepsPresence(s, events[|events| - 1]);
      }
    }
  }

  /** In every interleaving: a member key exists iff some connection of the member is still connected, every
      registered channel is open, and no send or close ever hits a closed channel. */
  lemma HubIsSafe(events: seq<Event>)
    ensures var s := Run(events);
            && !s.panicked
            && (forall m :: m in s.reg <==> exists c :: c in s.owner && c !in s.left && s.owner[c] == m)
            && (forall m, c | m in s.reg && c in s.reg[m] :: c in s.chans && !s.chans[c].closed)
            && (forall c | c in s.chans && c !in s.left :: !s.chans[c].closed)
  {
    RunsKeepInv(events);
    LeftAreGone(events);
    var s := Run(events);
    forall m | m in s.reg ensures exists c :: c in s.owner && c !in s.left && s.owner[c] == m {
      var c :| c in s.reg[m];
      assert c in s.owner && c !in s.left;
    }
  }

  /** A disconnected connection is in no member's set. */
  ghost predicate LeftGone(s: State) {
    forall c | c in s.left :: c in s.owner && c !in ClientsOf(s.reg, s.owner[c])
  }

  lemma {:induction false} LeftAreGone(events: seq<Event>)
    ensures LeftGone(Run(events))
  {
    if events != [] {
      var (s, e) := (Run(events[..|events| - 1]), events[|events| - 1]);
      LeftAreGone(events[..|events| - 1]);
      RunsKeepInv(events[..|events| - 1]);
      if Enabled(s, e) && e.Disconnect? {
        var m := s.owner[e.c];
        assert forall c :: c in ClientsOf(Removed(s.reg, m, e.c), m) ==> c in ClientsOf(s.reg, m) && c != e.c;
      }
    }
  }

  /** The true results of Register and Unregister strictly alternate for every member, starting with online. */
  lemma PresenceAlternates(events: seq<Event>, m: string)
    ensures Alternates(Transitions(Run(events).presence, m), m in Run(events).reg)
  {
    RunsKeepInv(events);
  }
}
