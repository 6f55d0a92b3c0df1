/** Pushing conversations: a session cap checked before the insert, a body saved before its row, and an upsert that
    keeps the first id. First one push at a time, then any interleaving of the statements of many. */
module Sessions {
  import Text

  type byte = bv8

  /** The unique key of the conversations table. */
  datatype Key = Key(owner: string, client: string)

  datatype Conv = Conv(id: string, project: string, title: string, created: int, updated: int, messages: int)

  /** A stored body; compression is taken to be injective. */
  datatype Blob = Gzipped(body: seq<byte>)

  /** One push; a time of 0 means not given. */
  datatype Push = Push(key: Key, project: string, title: string, body: seq<byte>, created: int, updated: int, messages: int)

  function ConvOf(p: Push, id: string, now: int): Conv {
    Conv(id, p.project, p.title, if p.created == 0 then now else p.created,
         if p.updated == 0 then now else p.updated, p.messages)
  }

  function ContentKey(owner: string, c: Conv): string {
    (owner + "/" + if c.project == "" then "_unfiled" else c.project) + "/" + (c.id + ".json.gz")
  }

  /** The atomic upsert: on a conflict the row keeps its id and creation time. */
  function Upserted(rows: map<Key, Conv>, key: Key, c: Conv): map<Key, Conv> {
    rows[key := if key in rows then c.(id := rows[key].id, created := rows[key].created) else c]
  }

  function Owned(rows: map<Key, Conv>, owner: string): set<Key> {
    set k | k in rows && k.owner == owner
  }

  /** Different ids never share a body, whatever the owners and projects are called. */
  lemma KeysApart(owner: string, c: Conv, owner': string, c': Conv)
    requires '/' !in c.id && '/' !in c'.id && ContentKey(owner, c) == ContentKey(owner', c')
    ensures c.id == c'.id
  {
    var (a, a') := (owner + "/" + if c.project == "" then "_unfiled" else c.project,
                    owner' + "/" + if c'.project == "" then "_unfiled" else c'.project);
    var (b, b') := (c.id + ".json.gz", c'.id + ".json.gz");
    assert '/' !in b && '/' !in b';
    assert a + ['/'] + b == a + "/" + b && a' + ['/'] + b' == a' + "/" + b';
    Text.SplitLastUnique(a, b, a', b', '/');
    assert c.id == b[..|b| - 8] && c'.id == b'[..|b'| - 8];
  }

  /** The upserted row's body key is the one the body was saved under exactly when the push brought the row's id. */
  lemma UpsertKeepsKey(rows: map<Key, Conv>, key: Key, c: Conv)
    ensures ContentKey(key.owner, Upserted(rows, key, c)[key]) == ContentKey(key.owner, c)
       <==> key !in rows || rows[key].id == c.id
  {
    var r := Upserted(rows, key, c)[key];
    var a := (key.owner + "/" + if c.project == "" then "_unfiled" else c.project) + "/";
    assert ContentKey(key.owner, r) == a + (r.id + ".json.gz") && ContentKey(key.owner, c) == a + (c.id + ".json.gz");
    if ContentKey(key.owner, r) == ContentKey(key.owner, c) {
      assert (a + (r.id + ".json.gz"))[|a|..] == r.id + ".json.gz" && (a + (c.id + ".json.gz"))[|a|..] == c.id + ".json.gz";
      assert r.id == (r.id + ".json.gz")[..|r.id + ".json.gz"| - 8] && c.id == (c.id + ".json.gz")[..|c.id + ".json.gz"| - 8];
    }
  }

  lemma SubsetIsSmaller<T>(a: set<T>, b: set<T>)
    requires a <= b
    ensures |a| <= |b|
  {
    assert b == a + (b - a);
  }

  // ---------- one push at a time ----------

  datatype Result = Saved(conv: Conv) | LimitExceeded | Failed

  predicate Holds(store: map<string, Blob>, owner: string, c: Conv, body: seq<byte>) {
    ContentKey(owner, c) in store && store[ContentKey(owner, c)] == Gzipped(body)
  }

  /** Ids are unique and make no path of their own. */
  ghost predicate IdsDistinct(rows: map<Key, Conv>) {
    && (forall k | k in rows :: '/' !in rows[k].id)
    && (forall k, k' | k in rows && k' in rows && rows[k].id == rows[k'].id :: k == k')
  }

  /** Every row's body is stored under the row's key. */
  ghost predicate BodiesHeld(rows: map<Key, Conv>, store: map<string, Blob>, bodies: map<Key, seq<byte>>) {
    bodies.Keys == rows.Keys && forall k | k in rows :: Holds(store, k.owner, rows[k], bodies[k])
  }

  /** The id a push writes under is its own row's or nobody's. */
  ghost predicate OwnId(rows: map<Key, Conv>, key: Key, id: string) {
    '/' !in id && (forall k | k in rows && rows[k].id == id :: k == key) && (key in rows ==> rows[key].id == id)
  }

  /** Saving a body: if the push fails right after, a conversation that stays in its project has the new body. */
  ghost function BodiesAfterSave(rows: map<Key, Conv>, bodies: map<Key, seq<byte>>, p: Push, c: Conv): map<Key, seq<byte>> {
    if p.key in rows && ContentKey(p.key.owner, rows[p.key]) == ContentKey(p.key.owner, c) then bodies[p.key := p.body] else bodies
  }

  /** Saving under an own id touches no other conversation's body. */
  lemma SaveKeepsBodies(rows: map<Key, Conv>, store: map<string, Blob>, bodies: map<Key, seq<byte>>, p: Push, c: Conv)
    requires IdsDistinct(rows) && BodiesHeld(rows, store, bodies) && OwnId(rows, p.key, c.id)
    ensures BodiesHeld(rows, store[ContentKey(p.key.owner, c) := Gzipped(p.body)], BodiesAfterSave(rows, bodies, p, c))
  {
    forall k | k in rows && ContentKey(k.owner, rows[k]) == ContentKey(p.key.owner, c) ensures k == p.key {
      KeysApart(k.owner, rows[k], p.key.owner, c);
    }
    hide ContentKey;
  }

  lemma UpsertKeepsBodies(rows: map<Key, Conv>, store: map<string, Blob>, bodies: map<Key, seq<byte>>, p: Push, c: Conv)
    requires IdsDistinct(rows) && BodiesHeld(rows, store, bodies) && OwnId(rows, p.key, c.id)
    requires Holds(store, p.key.owner, c, p.body)
    ensures var rows' := Upserted(rows, p.key, c);
            && IdsDistinct(rows') && BodiesHeld(rows', store, bodies[p.key := p.body])
            && Holds(store, p.key.owner, rows'[p.key], p.body)
  {
    var stored := Upserted(rows, p.key, c)[p.key];
    assert ContentKey(p.key.owner, stored) == ContentKey(p.key.owner, c);
    hide ContentKey;
  }

  function Without(rows: map<Key, Conv>, owner: string, id: string): map<Key, Conv> {
    map k | k in rows && !(k.owner == owner && rows[k].id == id) :: rows[k]
  }

  /** No other conversation's body has changed or gone. */
  ghost predicate OthersKept(before: map<Key, seq<byte>>, after: map<Key, seq<byte>>, key: Key) {
    forall k | k in before && k != key :: k in after && after[k] == before[k]
  }

  lemma OthersStayKept(a: map<Key, seq<byte>>, b: map<Key, seq<byte>>, c: map<Key, seq<byte>>, key: Key)
    requires OthersKept(a, b, key) && OthersKept(b, c, key)
    ensures OthersKept(a, c, key) && OthersKept(a, a, key)
  {
  }

  class Service {
    var rows: map<Key, Conv>
    var store: map<string, Blob>
    /** The last body saved for each live conversation. */
    ghost var bodies: map<Key, seq<byte>>

    ghost predicate Valid()
      reads this
    {
      IdsDistinct(rows) && BodiesHeld(rows, store, bodies)
    }

    /** The first half: find the conversation, or check the cap for a new one. The id is the row's own or the new one. */
    method Admit(p: Push, newId: string, cap: int, findFails: bool, countFails: bool) returns (id: string, refused: bool, ok: bool)
      requires Valid() && '/' !in newId && forall k | k in rows :: rows[k].id != newId
      ensures refused <==> !findFails && !countFails && p.key !in rows && 0 < cap <= |Owned(rows, p.key.owner)|
      ensures ok <==> !refused && !findFails && (p.key !in rows ==> !countFails)
      ensures ok ==> OwnId(rows, p.key, id) && id == if p.key in rows then rows[p.key].id else newId
    {
      id, refused, ok := newId, false, false;
      if findFails {
        return;
      }
      if p.key in rows {
        return rows[p.key].id, false, true;
      }
      if countFails {
        return;
      }
      refused := cap > 0 && |Owned(rows, p.key.owner)| >= cap;
      ok := !refused;
    }

    /** One push, no other in between. The body under the returned row is the one just pushed, every other
        conversation still has its own last body, and the cap is never passed. A failure before the upsert leaves the
        rows alone; when only the reload fails, the caller gets an error although the row is written. */
    method UpsertConversation(p: Push, newId: string, cap: int, now: int, findFails: bool, countFails: bool,
                              saveFails: bool, upsertFails: bool, reloadFails: bool) returns (r: Result)
      requires Valid() && '/' !in newId && forall k | k in rows :: rows[k].id != newId
      modifies this
      ensures Valid()
      ensures r == LimitExceeded <==>
              && !findFails && !countFails && p.key !in old(rows)
              && 0 < cap <= |Owned(old(rows), p.key.owner)|
      ensures var stops := findFails || (p.key !in old(rows) && countFails) || r == LimitExceeded || saveFails || upsertFails;
              && rows == (if stops then old(rows) else Upserted(old(rows), p.key, ConvOf(p, newId, now)))
              && (!stops ==> Holds(store, p.key.owner, rows[p.key], p.body))
              && (r.Saved? <==> !stops && !reloadFails)
      ensures r.Saved? ==> r.conv == rows[p.key]
      ensures r.Saved? && p.key in old(rows) ==>
                r.conv == Conv(old(rows)[p.key].id, p.project, p.title, old(rows)[p.key].created,
                               if p.updated == 0 then now else p.updated, p.messages)
      ensures r.Saved? && p.key !in old(rows) ==>
                r.conv == Conv(newId, p.project, p.title, if p.created == 0 then now else p.created,
                               if p.updated == 0 then now else p.updated, p.messages)
      ensures OthersKept(old(bodies), bodies, p.key)
      ensures cap > 0 ==> |Owned(rows, p.key.owner)| <= |Owned(old(rows), p.key.owner)|
                          || |Owned(rows, p.key.owner)| <= cap
    {
      SameUpsert(rows, p, newId, now);
      assert bodies.Keys == rows.Keys;
      assert OthersKept(bodies, bodies, p.key);
      hide IdsDistinct, BodiesHeld, BodiesAfterSave, ContentKey, OwnId, Holds, ConvOf, Upserted, OthersKept;
      var id, refused, ok := Admit(p, newId, cap, findFails, countFails);
      if !ok {
        return if refused then LimitExceeded else Failed;
      }
      hide Owned;
      var written := Write(p, ConvOf(p, id, now), saveFails, upsertFails);
      if !written || reloadFails {
        return Failed;
      }
      return Saved(rows[p.key]);
    }

    /** The second half: save the body, then upsert the row. */
    method Write(p: Push, conv: Conv, saveFails: bool, upsertFails: bool) returns (ok: bool)
      requires Valid() && OwnId(rows, p.key, conv.id)
      modifies this
      ensures Valid() && (ok <==> !saveFails && !upsertFails)
      ensures !ok ==> rows == old(rows)
      ensures ok ==> rows == Upserted(old(rows), p.key, conv) && p.key in rows && Holds(store, p.key.owner, rows[p.key], p.body)
      ensures OthersKept(old(bodies), bodies, p.key)
      ensures ok ==> |Owned(rows, p.key.owner)| <= |Owned(old(rows), p.key.owner)| + if p.key in old(rows) then 0 else 1
    {
      OwnedGrows(rows, p.key);
      assert OthersKept(bodies, bodies, p.key);
      ghost var was := bodies;
      hide IdsDistinct, BodiesHeld, BodiesAfterSave, ContentKey, OwnId, Holds, Upserted, Owned, OthersKept;
      if saveFails {
        return false;
      }
      SaveBody(p, conv);
      ghost var saved := bodies;
      ok := !upsertFails;
      if ok {
        UpsertRow(p, conv);
        OthersStayKept(was, saved, bodies, p.key);
      }
    }

    /** content.Save: no other conversation's body is touched. */
    method SaveBody(p: Push, conv: Conv)
      requires Valid() && OwnId(rows, p.key, conv.id)
      modifies this`store, this`bodies
      ensures Valid() && Holds(store, p.key.owner, conv, p.body)
      ensures bodies.Keys == rows.Keys && bodies == BodiesAfterSave(rows, old(bodies), p, conv)
      ensures OthersKept(old(bodies), bodies, p.key)
    {
      SaveKeepsBodies(rows, store, bodies, p, conv);
      hide IdsDistinct, BodiesHeld, ContentKey, OwnId;
      store := store[ContentKey(p.key.owner, conv) := Gzipped(p.body)];
      bodies := BodiesAfterSave(rows, bodies, p, conv);
    }

    /** The atomic upsert. */
    method UpsertRow(p: Push, conv: Conv)
      requires Valid() && OwnId(rows, p.key, conv.id) && Holds(store, p.key.owner, conv, p.body)
      modifies this`rows, this`bodies
      ensures Valid() && rows == Upserted(old(rows), p.key, conv) && p.key in rows
      ensures Holds(store, p.key.owner, rows[p.key], p.body)
      ensures bodies == old(bodies)[p.key := p.body] && OthersKept(old(bodies), bodies, p.key)
      ensures Owned(rows, p.key.owner) == Owned(old(rows), p.key.owner) + {p.key}
    {
      UpsertKeepsBodies(rows, store, bodies, p, conv);
      OwnedAfterUpsert(rows, p.key, conv);
      rows := Upserted(rows, p.key, conv);
      bodies := bodies[p.key := p.body];
    }

    method DeleteConversation(owner: string, id: string) returns (found: bool)
      requires Valid()
      modifies this`rows, this`bodies
      ensures Valid()
      ensures found <==> exists k :: k in old(rows) && k.owner == owner && old(rows)[k].id == id
      ensures rows == Without(old(rows), owner, id)
      ensures forall k :: k in rows <==> k in old(rows) && !(k.owner == owner && old(rows)[k].id == id)
      ensures forall k | k in rows :: rows[k] == old(rows)[k]
    {
      hide ContentKey, Holds;
      found := exists k :: k in rows && k.owner == owner && rows[k].id == id;
      rows := Without(rows, owner, id);
      bodies := map k | k in rows :: bodies[k];
    }
  }

  /** For an existing row the id a push brings makes no difference. */
  lemma SameUpsert(rows: map<Key, Conv>, p: Push, id: string, now: int)
    ensures p.key in rows ==>
              Upserted(rows, p.key, ConvOf(p, id, now)) == Upserted(rows, p.key, ConvOf(p, rows[p.key].id, now))
    ensures forall i: string :: ConvOf(p, i, now).id == i
    ensures var updated := if p.updated == 0 then now else p.updated;
            Upserted(rows, p.key, ConvOf(p, id, now))[p.key] ==
            if p.key in rows then Conv(rows[p.key].id, p.project, p.title, rows[p.key].created, updated, p.messages)
            else Conv(id, p.project, p.title, if p.created == 0 then now else p.created, updated, p.messages)
  {
  }

  lemma OwnedGrows(rows: map<Key, Conv>, key: Key)
    ensures |Owned(rows, key.owner) + {key}| <= |Owned(rows, key.owner)| + if key in rows then 0 else 1
  {
    if key in rows {
      assert Owned(rows, key.owner) + {key} == Owned(rows, key.owner);
    }
  }

  lemma OwnedAfterUpsert(rows: map<Key, Conv>, key: Key, c: Conv)
    ensures Owned(Upserted(rows, key, c), key.owner) == Owned(rows, key.owner) + {key}
  {
  }

  // ---------- many at once ----------

  /** Where a caller stands between two statements. */
  datatype Pc =
    | Idle
    | Checking(push: Push)
    | Saving(push: Push, id: string)
    | Upserting(push: Push, conv: Conv)
    | Reloading(push: Push, conv: Conv)
    | Returned(push: Push, conv: Conv)

  datatype State = State(rows: map<Key, Conv>, store: map<string, Blob>, pcs: seq<Pc>)

  datatype Action =
    | Find(t: nat, push: Push)          // FindIDByClient
    | Check(t: nat, id: string)         // CountByOwner, and a new id if it passes
    | Save(t: nat, now: int)            // content.Save
    | Upsert(t: nat)                    // the INSERT ... ON CONFLICT
    | Reload(t: nat)                    // the SELECT after it
    | Fail(t: nat)                      // whatever statement is next fails
    | Delete(owner: string, id: string)

  predicate InFlight(pc: Pc) { pc.Saving? || pc.Upserting? }

  function IdOf(pc: Pc): string { match pc case Saving(_, id) => id case Upserting(_, c) => c.id case _ => "" }

  /** A row of the key, or a caller about to write the key, has the id. */
  ghost predicate Uses(s: State, id: string, key: Key) {
    || (key in s.rows && s.rows[key].id == id)
    || (exists t :: 0 <= t < |s.pcs| && InFlight(s.pcs[t]) && s.pcs[t].push.key == key && IdOf(s.pcs[t]) == id)
  }

  /** New ids are unused: in no row and with no caller. */
  ghost predicate UnusedId(s: State, id: string) { '/' !in id && forall key :: !Uses(s, id, key) }

  ghost predicate Enabled(s: State, a: Action) {
    match a
    case Find(t, push) => t < |s.pcs| && (s.pcs[t].Idle? || s.pcs[t].Returned?)
    case Check(t, id) => t < |s.pcs| && s.pcs[t].Checking? && UnusedId(s, id)
    case Save(t, now) => t < |s.pcs| && s.pcs[t].Saving?
    case Upsert(t) => t < |s.pcs| && s.pcs[t].Upserting?
    case Reload(t) => t < |s.pcs| && s.pcs[t].Reloading?
    case Fail(t) => t < |s.pcs|
    case Delete(_, _) => true
  }

  predicate Refused(s: State, caps: string -> int, owner: string) {
    0 < caps(owner) <= |Owned(s.rows, owner)|
  }

  /** What the caller gets: its own values under the row's id and creation time, or an error if the row is gone. */
  function Reloaded(rows: map<Key, Conv>, p: Push, c: Conv): (pc: Pc)
    ensures !InFlight(pc)
  {
    if p.key in rows then Returned(p, c.(id := rows[p.key].id, created := rows[p.key].created)) else Idle
  }

  ghost function Step(s: State, a: Action, caps: string -> int): State
    requires Enabled(s, a)
  {
    match a
    case Find(t, push) =>
      s.(pcs := s.pcs[t := if push.key in s.rows then Saving(push, s.rows[push.key].id) else Checking(push)])
    case Check(t, id) =>
      var push := s.pcs[t].push;
      s.(pcs := s.pcs[t := if Refused(s, caps, push.key.owner) then Idle else Saving(push, id)])
    case Save(t, now) =>
      var (push, conv) := (s.pcs[t].push, ConvOf(s.pcs[t].push, s.pcs[t].id, now));
      s.(store := s.store[ContentKey(push.key.owner, conv) := Gzipped(push.body)], pcs := s.pcs[t := Upserting(push, conv)])
    case Upsert(t) =>
      var (push, conv) := (s.pcs[t].push, s.pcs[t].conv);
      s.(rows := Upserted(s.rows, push.key, conv), pcs := s.pcs[t := Reloading(push, conv)])
    case Reload(t) => s.(pcs := s.pcs[t := Reloaded(s.rows, s.pcs[t].push, s.pcs[t].conv)])
    case Fail(t) => s.(pcs := s.pcs[t := Idle])
    case Delete(owner, id) =>
      s.(rows := Without(s.rows, owner, id))
  }

  ghost predicate Runs(s: State, actions: seq<Action>, caps: string -> int, s': State)
    decreases |actions|
  {
    if actions == [] then s == s'
    else Enabled(s, actions[0]) && Runs(Step(s, actions[0], caps), actions[1..], caps, s')
  }

  /** The owner's keys that callers past the check are about to write. */
  function Pending(pcs: seq<Pc>, owner: string): set<Key> {
    set t | 0 <= t < |pcs| && InFlight(pcs[t]) && pcs[t].push.key.owner == owner :: pcs[t].push.key
  }

  lemma {:induction false} PendingIsSmall(pcs: seq<Pc>, owner: string)
    ensures |Pending(pcs, owner)| <= |pcs|
  {
    if pcs != [] {
      var (front, last) := (pcs[..|pcs| - 1], pcs[|pcs| - 1]);
      PendingIsSmall(front, owner);
      if InFlight(last) {
        SubsetIsSmaller(Pending(pcs, owner), Pending(front, owner) + {last.push.key});
      } else {
        SubsetIsSmaller(Pending(pcs, owner), Pending(front, owner));
      }
    }
  }

  /** Every key of the owner that has a row or is about to. */
  function Claimed(s: State, owner: string): set<Key> { Owned(s.rows, owner) + Pending(s.pcs, owner) }

  lemma PendingAfter(pcs: seq<Pc>, t: nat, pc: Pc, owner: string)
    requires t < |pcs|
    ensures Pending(pcs[t := pc], owner) <= Pending(pcs, owner) + if InFlight(pc) then {pc.push.key} else {}
  {
  }

  lemma InFlightIsPending(pcs: seq<Pc>, t: nat, owner: string)
    requires t < |pcs| && InFlight(pcs[t]) && pcs[t].push.key.owner == owner
    ensures pcs[t].push.key in Pending(pcs, owner)
  {
  }

  lemma CheckClaims(s: State, t: nat, id: string, caps: string -> int, owner: string)
    requires Enabled(s, Check(t, id)) && caps(owner) > 0
    ensures var s' := Step(s, Check(t, id), caps);
            Claimed(s', owner) <= Claimed(s, owner) || |Claimed(s', owner)| <= caps(owner) - 1 + |s.pcs|
  {
    var s' := Step(s, Check(t, id), caps);
    PendingAfter(s.pcs, t, s'.pcs[t], owner);
    PendingIsSmall(s'.pcs, owner);
    hide Pending, Owned;
  }

  lemma MoveClaimsNothing(s: State, a: Action, caps: string -> int, owner: string)
    requires Enabled(s, a) && !a.Check? && !a.Upsert? && !a.Delete?
    ensures Claimed(Step(s, a, caps), owner) <= Claimed(s, owner)
  {
    var s' := Step(s, a, caps);
    PendingAfter(s.pcs, a.t, s'.pcs[a.t], owner);
    if InFlight(s'.pcs[a.t]) && s'.pcs[a.t].push.key.owner == owner {
      if a.Save? {
        InFlightIsPending(s.pcs, a.t, owner);
      }
      assert s'.pcs[a.t].push.key in Claimed(s, owner);
    }
    PendingOwned(s'.pcs, owner);
    hide Pending, ContentKey;
  }

  lemma PendingOwned(pcs: seq<Pc>, owner: string)
    ensures forall k | k in Pending(pcs, owner) :: k.owner == owner
  {
  }

  lemma UpsertClaimsNothing(s: State, t: nat, caps: string -> int, owner: string)
    requires Enabled(s, Upsert(t))
    ensures Claimed(Step(s, Upsert(t), caps), owner) <= Claimed(s, owner)
  {
    var s' := Step(s, Upsert(t), caps);
    PendingAfter(s.pcs, t, s'.pcs[t], owner);
    OwnedElsewhere(s.rows, s.pcs[t].push.key, s.pcs[t].conv, owner);
    if s.pcs[t].push.key.owner == owner {
      InFlightIsPending(s.pcs, t, owner);
    }
    hide Pending, Owned, Upserted;
  }

  /** Only a passed check claims anything new, and it leaves at most cap - 1 rows and one key per caller. */
  lemma StepKeepsBound(s: State, a: Action, caps: string -> int, owner: string)
    requires Enabled(s, a) && caps(owner) > 0
    ensures var s' := Step(s, a, caps);
            |s'.pcs| == |s.pcs| &&
            (Claimed(s', owner) <= Claimed(s, owner) || |Claimed(s', owner)| <= caps(owner) - 1 + |s.pcs|)
  {
    SameCallers(s, a, caps);
    hide Step, Enabled, Claimed;
    match a {
      case Check(t, id) => CheckClaims(s, t, id, caps, owner);
      case Upsert(t) => UpsertClaimsNothing(s, t, caps, owner);
      case Delete(o, id) => DeleteClaimsNothing(s, o, id, caps, owner);
      case _ => MoveClaimsNothing(s, a, caps, owner);
    }
  }

  lemma SameCallers(s: State, a: Action, caps: string -> int)
    requires Enabled(s, a)
    ensures |Step(s, a, caps).pcs| == |s.pcs|
  {
    hide ContentKey, Upserted, Without, ConvOf, Refused, Reloaded;
  }

  lemma DeleteClaimsNothing(s: State, o: string, id: string, caps: string -> int, owner: string)
    ensures Claimed(Step(s, Delete(o, id), caps), owner) <= Claimed(s, owner)
  {
    hide Pending;
  }

  lemma OwnedElsewhere(rows: map<Key, Conv>, key: Key, c: Conv, owner: string)
    ensures Owned(Upserted(rows, key, c), owner) == Owned(rows, owner) + if key.owner == owner then {key} else {}
  {
  }

  /** The cap under concurrency: with at most n pushes in flight at any time, deletions and failures at any point,
      an owner that starts at or below cap - 1 + n never has more rows than that. */
  lemma {:induction false} CapHolds(s: State, actions: seq<Action>, caps: string -> int, s': State, owner: string)
    requires Runs(s, actions, caps, s') && caps(owner) > 0
    requires |Claimed(s, owner)| <= caps(owner) - 1 + |s.pcs|
    ensures |s'.pcs| == |s.pcs| && |Owned(s'.rows, owner)| <= |Claimed(s', owner)| <= caps(owner) - 1 + |s.pcs|
    decreases |actions|
  {
    if actions == [] {
      SubsetIsSmaller(Owned(s'.rows, owner), Claimed(s', owner));
    } else {
      var next := Step(s, actions[0], caps);
      StepKeepsBound(s, actions[0], caps, owner);
      if Claimed(next, owner) <= Claimed(s, owner) {
        SubsetIsSmaller(Claimed(next, owner), Claimed(s, owner));
      }
      hide Step, Enabled, Claimed;
      CapHolds(next, actions[1..], caps, s', owner);
    }
  }

  /** From rest, at or below the cap: one caller never passes the cap, n callers never pass cap - 1 + n. */
  lemma CapFromRest(s: State, actions: seq<Action>, caps: string -> int, s': State, owner: string)
    requires Runs(s, actions, caps, s') && caps(owner) > 0 && s.pcs != []
    requires (forall t | 0 <= t < |s.pcs| :: s.pcs[t].Idle?) && |Owned(s.rows, owner)| <= caps(owner)
    ensures |Owned(s'.rows, owner)| <= caps(owner) - 1 + |s.pcs|
    ensures |s.pcs| == 1 ==> |Owned(s'.rows, owner)| <= caps(owner)
  {
    assert Pending(s.pcs, owner) == {};
    assert Claimed(s, owner) == Owned(s.rows, owner);
    CapHolds(s, actions, caps, s', owner);
  }

  /** One id, one conversation: no two rows or callers of different keys share an id. */
  ghost predicate IdsApart(s: State) {
    && (forall id, k, k' | Uses(s, id, k) && Uses(s, id, k') :: k == k')
    && (forall id, k | Uses(s, id, k) :: '/' !in id)
  }

  /** Only a passed check brings a new id into use, and an unused one. */
  lemma StepUses(s: State, a: Action, caps: string -> int, id: string, key: Key)
    requires Enabled(s, a) && Uses(Step(s, a, caps), id, key)
    ensures Uses(s, id, key) || (a.Check? && id == a.id && key == s.pcs[a.t].push.key)
  {
    hide ContentKey, Refused, Owned;
    var s' := Step(s, a, caps);
    if !(key in s'.rows && s'.rows[key].id == id) {
      var t :| 0 <= t < |s'.pcs| && InFlight(s'.pcs[t]) && s'.pcs[t].push.key == key && IdOf(s'.pcs[t]) == id;
      assert s'.pcs[t] == s.pcs[t] || (!a.Delete? && t == a.t);
    } else if a.Upsert? {
      assert key == s.pcs[a.t].push.key || s'.rows[key] == s.rows[key];
      assert InFlight(s.pcs[a.t]);
    }
  }

  lemma StepKeepsIds(s: State, a: Action, caps: string -> int)
    requires IdsApart(s) && Enabled(s, a)
    ensures IdsApart(Step(s, a, caps))
  {
    forall id, k, k' | Uses(Step(s, a, caps), id, k) && Uses(Step(s, a, caps), id, k') ensures k == k' {
      StepUses(s, a, caps, id, k);
      StepUses(s, a, caps, id, k');
    }
    forall id, k | Uses(Step(s, a, caps), id, k) ensures '/' !in id {
      StepUses(s, a, caps, id, k);
    }
  }

  lemma {:induction false} IdsStayApart(s: State, actions: seq<Action>, caps: string -> int, s': State)
    requires IdsApart(s) && Runs(s, actions, caps, s')
    ensures IdsApart(s')
    decreases |actions|
  {
    if actions != [] {
      StepKeepsIds(s, actions[0], caps);
      hide Step, Enabled, IdsApart;
      IdsStayApart(Step(s, actions[0], caps), actions[1..], caps, s');
    }
  }

  // ---------- whose body a row has ----------

  lemma SavedUnder(s: State, t: nat, key: Key, c: Conv, u: Key, d: Conv)
    requires IdsApart(s) && Uses(s, c.id, key) && Uses(s, d.id, u)
    requires ContentKey(key.owner, c) == ContentKey(u.owner, d)
    ensures key == u
  {
    KeysApart(key.owner, c, u.owner, d);
  }

  /** No step changes the body of a row, but a save or an upsert of a push of that same conversation. */
  lemma OtherBodiesStay(s: State, a: Action, caps: string -> int, k: Key, body: seq<byte>)
    requires IdsApart(s) && Enabled(s, a) && k in s.rows && k in Step(s, a, caps).rows
    requires (a.Save? || a.Upsert?) ==> s.pcs[a.t].push.key != k
    ensures Step(s, a, caps).rows[k] == s.rows[k]
    ensures Holds(Step(s, a, caps).store, k.owner, s.rows[k], body) <==> Holds(s.store, k.owner, s.rows[k], body)
  {
    if a.Save? {
      var (p, id) := (s.pcs[a.t].push, s.pcs[a.t].id);
      var c := ConvOf(p, id, a.now);
      assert IdOf(s.pcs[a.t]) == id && Uses(s, id, p.key) && Uses(s, s.rows[k].id, k);
      if ContentKey(p.key.owner, c) == ContentKey(k.owner, s.rows[k]) {
        SavedUnder(s, a.t, p.key, c, k, s.rows[k]);
      }
    }
    hide ContentKey;
  }

  /** Nobody but t is between Find and the return of a push of this conversation. */
  predicate Alone(s: State, t: nat, key: Key) {
    forall u | 0 <= u < |s.pcs| && u != t && !s.pcs[u].Idle? && !s.pcs[u].Returned? :: s.pcs[u].push.key != key
  }

  ghost predicate AloneThroughout(s: State, actions: seq<Action>, caps: string -> int, t: nat, key: Key)
    decreases |actions|
  {
    && Alone(s, t, key)
    && (actions != [] ==> Enabled(s, actions[0]) && AloneThroughout(Step(s, actions[0], caps), actions[1..], caps, t, key))
  }

  /** Where t's push of p stands, and what that says about the conversation's row and body. */
  predicate Mine(s: State, t: nat, p: Push) {
    t < |s.pcs| &&
    match s.pcs[t]
    case Checking(q) => q == p && p.key !in s.rows
    case Saving(q, id) => q == p && (p.key in s.rows ==> s.rows[p.key].id == id)
    case Upserting(q, c) => q == p && (p.key in s.rows ==> s.rows[p.key].id == c.id) && Holds(s.store, p.key.owner, c, p.body)
    case Reloading(q, c) => q == p && (p.key in s.rows ==> SameBody(s.rows[p.key], c) && Holds(s.store, p.key.owner, s.rows[p.key], p.body))
    case _ => true
  }

  predicate SameBody(a: Conv, b: Conv) { a.id == b.id && a.project == b.project }

  lemma OwnStepKeepsMine(s: State, a: Action, caps: string -> int, t: nat, p: Push)
    requires Mine(s, t, p) && Enabled(s, a) && !a.Delete? && a.t == t && !a.Find?
    ensures Mine(Step(s, a, caps), t, p)
  {
    if a.Upsert? {
      var (c, r) := (s.pcs[t].conv, Upserted(s.rows, p.key, s.pcs[t].conv)[p.key]);
      assert ContentKey(p.key.owner, r) == ContentKey(p.key.owner, c);
    }
    hide ContentKey;
  }

  lemma OtherStepKeepsMine(s: State, a: Action, caps: string -> int, t: nat, p: Push)
    requires IdsApart(s) && Mine(s, t, p) && Enabled(s, a) && (a.Delete? || a.t != t)
    requires Alone(s, t, p.key)
    ensures Mine(Step(s, a, caps), t, p)
  {
    var s' := Step(s, a, caps);
    if a.Save? && (s.pcs[t].Upserting? || (s.pcs[t].Reloading? && p.key in s.rows)) {
      var (q, d) := (s.pcs[a.t].push, ConvOf(s.pcs[a.t].push, s.pcs[a.t].id, a.now));
      var c := if s.pcs[t].Upserting? then s.pcs[t].conv else s.rows[p.key];
      assert IdOf(s.pcs[a.t]) == d.id && Uses(s, d.id, q.key);
      assert s.pcs[t].Upserting? ==> IdOf(s.pcs[t]) == c.id;
      assert Uses(s, c.id, p.key);
      if ContentKey(p.key.owner, c) == ContentKey(q.key.owner, d) {
        SavedUnder(s, t, p.key, c, q.key, d);
      }
    }
    hide ContentKey, IdsApart;
  }

  lemma {:induction false} AloneKeepsMine(s: State, actions: seq<Action>, caps: string -> int, s': State, t: nat, p: Push)
    requires IdsApart(s) && Mine(s, t, p) && Runs(s, actions, caps, s') && AloneThroughout(s, actions, caps, t, p.key)
    requires forall a | a in actions :: !(a.Find? && a.t == t)
    ensures Mine(s', t, p)
    decreases |actions|
  {
    if actions != [] {
      var a := actions[0];
      assert a in actions && forall b | b in actions[1..] :: b in actions;
      if !a.Delete? && a.t == t {
        OwnStepKeepsMine(s, a, caps, t, p);
      } else {
        OtherStepKeepsMine(s, a, caps, t, p);
      }
      StepKeepsIds(s, a, caps);
      hide Step, Enabled, Mine, IdsApart, Alone;
      AloneKeepsMine(Step(s, a, caps), actions[1..], caps, s', t, p);
    }
  }

  /** A push that overlaps no other push of its conversation keeps its promise in every interleaving, whatever other
      conversations, deletions and failures do beside it: right after its upsert the row's body is the one pushed,
      and so it is for the row its reload returns. */
  lemma AlonePushKeepsItsBody(s: State, p: Push, actions: seq<Action>, caps: string -> int, s': State, t: nat)
    requires IdsApart(s) && Enabled(s, Find(t, p))
    requires Runs(Step(s, Find(t, p), caps), actions, caps, s')
    requires AloneThroughout(Step(s, Find(t, p), caps), actions, caps, t, p.key)
    requires forall a | a in actions :: !(a.Find? && a.t == t)
    ensures t < |s'.pcs|
    ensures s'.pcs[t].Upserting? ==>
              var after := Step(s', Upsert(t), caps);
              p.key in after.rows && Holds(after.store, p.key.owner, after.rows[p.key], p.body)
    ensures s'.pcs[t].Reloading? && p.key in s'.rows ==>
              var got := Step(s', Reload(t), caps).pcs[t];
              got.Returned? && SameBody(got.conv, s'.rows[p.key]) && Holds(s'.store, p.key.owner, got.conv, p.body)
  {
    var begun := Step(s, Find(t, p), caps);
    StepKeepsIds(s, Find(t, p), caps);
    assert Mine(begun, t, p);
    AloneKeepsMine(begun, actions, caps, s', t, p);
    if s'.pcs[t].Upserting? {
      OwnStepKeepsMine(s', Upsert(t), caps, t, p);
    } else if s'.pcs[t].Reloading? && p.key in s'.rows {
      assert ContentKey(p.key.owner, Step(s', Reload(t), caps).pcs[t].conv) == ContentKey(p.key.owner, s'.rows[p.key]);
    }
    hide ContentKey;
  }

  /** And step by step the condition is exact: a saved body waiting for its upsert is lost from its key exactly when
      another push of the conversation saves a different body under the same id and project, ... */
  lemma OnlyAnotherPushTakesTheBody(s: State, a: Action, caps: string -> int, t: nat)
    requires IdsApart(s) && Enabled(s, a) && t < |s.pcs| && s.pcs[t].Upserting? && (a.Delete? || a.t != t)
    requires Holds(s.store, s.pcs[t].push.key.owner, s.pcs[t].conv, s.pcs[t].push.body)
    ensures var (p, c) := (s.pcs[t].push, s.pcs[t].conv);
            !Holds(Step(s, a, caps).store, p.key.owner, c, p.body) <==>
              a.Save? && (var q := s.pcs[a.t];
                          q.push.key == p.key && q.id == c.id && q.push.body != p.body
                          && Folder(q.push.project) == Folder(c.project))
  {
    var (p, c) := (s.pcs[t].push, s.pcs[t].conv);
    if a.Save? {
      var (q, d) := (s.pcs[a.t].push, ConvOf(s.pcs[a.t].push, s.pcs[a.t].id, a.now));
      assert IdOf(s.pcs[a.t]) == d.id && IdOf(s.pcs[t]) == c.id && Uses(s, d.id, q.key) && Uses(s, c.id, p.key);
      if ContentKey(p.key.owner, c) == ContentKey(q.key.owner, d) {
        SavedUnder(s, t, p.key, c, q.key, d);
      }
      if q.key == p.key {
        SameContentKey(p.key.owner, c, d);
      }
    }
    hide ContentKey, IdsApart;
  }

  /** ... and at the upsert the row's key is the one it was saved under exactly when the row has the push's id. */
  lemma UpsertShowsTheBody(s: State, caps: string -> int, t: nat)
    requires Enabled(s, Upsert(t))
    ensures var (p, c, r) := (s.pcs[t].push, s.pcs[t].conv, Step(s, Upsert(t), caps).rows[s.pcs[t].push.key]);
            ContentKey(p.key.owner, r) == ContentKey(p.key.owner, c) <==> p.key !in s.rows || s.rows[p.key].id == c.id
  {
    UpsertKeepsKey(s.rows, s.pcs[t].push.key, s.pcs[t].conv);
  }

  function Folder(project: string): string { if project == "" then "_unfiled" else project }

  lemma SameContentKey(owner: string, c: Conv, d: Conv)
    requires '/' !in c.id && '/' !in d.id
    ensures ContentKey(owner, c) == ContentKey(owner, d) <==> c.id == d.id && Folder(c.project) == Folder(d.project)
  {
    if ContentKey(owner, c) == ContentKey(owner, d) {
      KeysApart(owner, c, owner, d);
      var (a, b, e) := (owner + "/" + Folder(c.project), owner + "/" + Folder(d.project), "/" + (c.id + ".json.gz"));
      assert ContentKey(owner, c) == a + e && ContentKey(owner, d) == b + e;
      assert |a| == |b|;
      assert a == (a + e)[..|a|] && b == (b + e)[..|b|];
      var pre := owner + "/";
      assert a[|pre|..] == Folder(c.project) && b[|pre|..] == Folder(d.project);
    }
  }

  // ---------- what a row keeps ----------

  ghost predicate LivesThroughout(s: State, actions: seq<Action>, caps: string -> int, key: Key)
    decreases |actions|
  {
    && key in s.rows
    && (actions != [] ==> Enabled(s, actions[0]) && LivesThroughout(Step(s, actions[0], caps), actions[1..], caps, key))
  }

  lemma StepKeepsRow(s: State, a: Action, caps: string -> int, key: Key)
    requires Enabled(s, a) && key in s.rows && key in Step(s, a, caps).rows
    ensures var (r, r') := (s.rows[key], Step(s, a, caps).rows[key]);
            && r'.id == r.id && r'.created == r.created
            && (a.Upsert? && s.pcs[a.t].push.key == key ==>
                  var c := s.pcs[a.t].conv;
                  r'.project == c.project && r'.title == c.title && r'.updated == c.updated && r'.messages == c.messages)
            && (!(a.Upsert? && s.pcs[a.t].push.key == key) ==> r' == r)
  {
    hide ContentKey, Owned;
  }

  /** In every run, while a conversation's row lives its id and creation time never change, whoever pushes it. */
  lemma {:induction false} RowKeepsIdAndBirth(s: State, actions: seq<Action>, caps: string -> int, s': State, key: Key)
    requires Runs(s, actions, caps, s') && LivesThroughout(s, actions, caps, key)
    ensures key in s'.rows && s'.rows[key].id == s.rows[key].id && s'.rows[key].created == s.rows[key].created
    decreases |actions|
  {
    if actions != [] {
      StepKeepsRow(s, actions[0], caps, key);
      hide Step, Enabled;
      RowKeepsIdAndBirth(Step(s, actions[0], caps), actions[1..], caps, s', key);
    }
  }

  /** What the reload hands back: the caller's own values under the row's id and creation time, or nothing when the row
      is gone. */
  lemma ReloadCarriesRow(s: State, caps: string -> int, t: nat)
    requires Enabled(s, Reload(t))
    ensures var (p, c, got) := (s.pcs[t].push, s.pcs[t].conv, Step(s, Reload(t), caps).pcs[t]);
            && (got.Returned? <==> p.key in s.rows)
            && (got.Returned? ==> got.conv == Conv(s.rows[p.key].id, c.project, c.title, s.rows[p.key].created, c.updated, c.messages))
  {
  }

  /** Where a body is stored, for a conversation in a project and for one in none. */
  lemma ContentKeyReads(owner: string, project: string, id: string, c: Conv)
    requires c.id == id && c.project == project
    ensures project != "" ==> ContentKey(owner, c) == owner + "/" + project + "/" + id + ".json.gz"
    ensures project == "" ==> ContentKey(owner, c) == owner + "/_unfiled/" + id + ".json.gz"
  {
    assert (owner + "/" + project) + "/" + (id + ".json.gz") == owner + "/" + project + "/" + id + ".json.gz";
    assert (owner + "/" + "_unfiled") + "/" + (id + ".json.gz") == owner + "/_unfiled/" + id + ".json.gz";
  }

  // ---------- what overlapping pushes break ----------

  lemma {:induction false} Chain(s: State, xs: seq<Action>, mid: State, ys: seq<Action>, s': State, caps: string -> int)
    requires Runs(s, xs, caps, mid) && Runs(mid, ys, caps, s')
    ensures Runs(s, xs + ys, caps, s')
    decreases |xs|
  {
    if xs == [] {
      assert xs + ys == ys;
    } else {
      assert (xs + ys)[1..] == xs[1..] + ys;
      hide Step, Enabled;
      Chain(Step(s, xs[0], caps), xs[1..], mid, ys, s', caps);
    }
  }

  function Begin(p: Push, q: Push): seq<Action> { [Find(0, p), Find(1, q), Check(0, "a"), Check(1, "b")] }

  const END: seq<Action> := [Save(0, 5), Upsert(0), Reload(0), Save(1, 5), Upsert(1), Reload(1)]

  const EMPTY: State := State(map[], map[], [Idle, Idle])

  /** Both callers find nothing and pass the check before either writes. */
  lemma RaceBegins(caps: string -> int, p: Push, q: Push)
    ensures Runs(EMPTY, Begin(p, q), caps, State(map[], map[], [Saving(p, "a"), Saving(q, "b")]))
  {
    assert Owned(map[], p.key.owner) == {} && Owned(map[], q.key.owner) == {};
    var s1 := State(map[], map[], [Checking(p), Idle]);
    var s2 := State(map[], map[], [Checking(p), Checking(q)]);
    var s3 := State(map[], map[], [Saving(p, "a"), Checking(q)]);
    var s4 := State(map[], map[], [Saving(p, "a"), Saving(q, "b")]);
    assert Enabled(EMPTY, Find(0, p)) && Step(EMPTY, Find(0, p), caps) == s1;
    assert Enabled(s1, Find(1, q)) && Step(s1, Find(1, q), caps) == s2;
    assert Enabled(s2, Check(0, "a")) && Step(s2, Check(0, "a"), caps) == s3;
    assert Enabled(s3, Check(1, "b")) && Step(s3, Check(1, "b"), caps) == s4;
    hide Step, Enabled;
    assert Runs(s3, [Check(1, "b")], caps, s4);
    assert Runs(s2, [Check(0, "a")] + [Check(1, "b")], caps, s4);
    assert Runs(s1, [Find(1, q)] + [Check(0, "a"), Check(1, "b")], caps, s4);
    assert Begin(p, q) == [Find(0, p)] + [Find(1, q), Check(0, "a"), Check(1, "b")];
  }

  const FIRST: seq<Action> := [Save(0, 5), Upsert(0), Reload(0)]
  const SECOND: seq<Action> := [Save(1, 5), Upsert(1), Reload(1)]

  /** Then each saves, upserts and reloads in turn. */
  lemma FirstEnds(caps: string -> int, p: Push, q: Push) returns (s': State)
    ensures Runs(State(map[], map[], [Saving(p, "a"), Saving(q, "b")]), FIRST, caps, s')
    ensures var c := ConvOf(p, "a", 5);
            s' == State(map[p.key := c], map[ContentKey(p.key.owner, c) := Gzipped(p.body)], [Returned(p, c), Saving(q, "b")])
  {
    var c := ConvOf(p, "a", 5);
    hide ContentKey;
    var (rows, one) := (map[p.key := c], map[ContentKey(p.key.owner, c) := Gzipped(p.body)]);
    var s4 := State(map[], map[], [Saving(p, "a"), Saving(q, "b")]);
    var s5 := State(map[], one, [Upserting(p, c), Saving(q, "b")]);
    var s6 := State(rows, one, [Reloading(p, c), Saving(q, "b")]);
    s' := State(rows, one, [Returned(p, c), Saving(q, "b")]);
    assert Enabled(s4, Save(0, 5)) && Step(s4, Save(0, 5), caps) == s5;
    assert Enabled(s5, Upsert(0)) && Step(s5, Upsert(0), caps) == s6;
    assert Enabled(s6, Reload(0)) && Step(s6, Reload(0), caps) == s';
    hide Step, Enabled;
    assert Runs(s6, [Reload(0)], caps, s');
    assert Runs(s5, [Upsert(0)] + [Reload(0)], caps, s');
    assert FIRST == [Save(0, 5)] + [Upsert(0), Reload(0)];
  }

  lemma SecondEnds(s: State, caps: string -> int, q: Push) returns (s': State)
    requires |s.pcs| == 2 && s.pcs[1] == Saving(q, "b")
    ensures Runs(s, SECOND, caps, s')
    ensures var (d, rows) := (ConvOf(q, "b", 5), Upserted(s.rows, q.key, ConvOf(q, "b", 5)));
            s' == State(rows, s.store[ContentKey(q.key.owner, d) := Gzipped(q.body)], [s.pcs[0], Returned(q, rows[q.key])])
  {
    var (d, rows) := (ConvOf(q, "b", 5), Upserted(s.rows, q.key, ConvOf(q, "b", 5)));
    hide ContentKey;
    var store := s.store[ContentKey(q.key.owner, d) := Gzipped(q.body)];
    var s8 := State(s.rows, store, [s.pcs[0], Upserting(q, d)]);
    var s9 := State(rows, store, [s.pcs[0], Reloading(q, d)]);
    s' := State(rows, store, [s.pcs[0], Returned(q, rows[q.key])]);
    assert Enabled(s, Save(1, 5)) && Step(s, Save(1, 5), caps) == s8;
    assert Enabled(s8, Upsert(1)) && Step(s8, Upsert(1), caps) == s9;
    assert Enabled(s9, Reload(1)) && Step(s9, Reload(1), caps) == s';
    hide Step, Enabled, Upserted;
    assert Runs(s9, [Reload(1)], caps, s');
    assert Runs(s8, [Upsert(1)] + [Reload(1)], caps, s');
    assert SECOND == [Save(1, 5)] + [Upsert(1), Reload(1)];
  }

  lemma RaceEnds(caps: string -> int, p: Push, q: Push) returns (s': State)
    ensures Runs(State(map[], map[], [Saving(p, "a"), Saving(q, "b")]), END, caps, s')
    ensures |s'.pcs| == 2 && s'.pcs[0].Returned? && s'.pcs[1].Returned?
    ensures s'.rows == Upserted(map[p.key := ConvOf(p, "a", 5)], q.key, ConvOf(q, "b", 5))
    ensures s'.pcs[1].conv == s'.rows[q.key]
    ensures Holds(s'.store, p.key.owner, ConvOf(p, "a", 5), p.body)
  {
    var (c, d) := (ConvOf(p, "a", 5), ConvOf(q, "b", 5));
    if ContentKey(p.key.owner, c) == ContentKey(q.key.owner, d) {
      KeysApart(p.key.owner, c, q.key.owner, d);
    }
    hide ContentKey;
    var mid := FirstEnds(caps, p, q);
    s' := SecondEnds(mid, caps, q);
    assert END == FIRST + SECOND;
    hide Upserted, FIRST, SECOND, END;
    Chain(State(map[], map[], [Saving(p, "a"), Saving(q, "b")]), FIRST, mid, SECOND, s', caps);
  }

  /** Two first pushes of one conversation at once: both return the same row, the second push's own body is left
      under an id that no row has, and the row's body is the first push's. */
  lemma RacingPushesLoseABody(caps: string -> int, p: Push, q: Push) returns (s': State)
    requires p.key == q.key && p.project == q.project && p.body != q.body
    ensures Runs(EMPTY, Begin(p, q) + END, caps, s')
    ensures |s'.pcs| == 2 && s'.pcs[0].Returned? && s'.pcs[1].Returned? && p.key in s'.rows
    ensures Holds(s'.store, p.key.owner, s'.rows[p.key], p.body) && s'.pcs[1].conv == s'.rows[p.key]
    ensures !Holds(s'.store, p.key.owner, s'.rows[p.key], q.body)
  {
    RaceBegins(caps, p, q);
    s' := RaceEnds(caps, p, q);
    assert ContentKey(p.key.owner, s'.rows[p.key]) == ContentKey(p.key.owner, ConvOf(p, "a", 5));
    hide Begin, END, ContentKey;
    Chain(EMPTY, Begin(p, q), State(map[], map[], [Saving(p, "a"), Saving(q, "b")]), END, s', caps);
  }

  const CROSSED: seq<Action> := [Save(1, 5), Save(0, 5), Upsert(0), Upsert(1)]

  /** Two later pushes of a stored conversation, whatever its row and the store hold: one run ends with the row
      described by the second push and holding the body of the first. */
  lemma OverlappingPushesMixARow(r: Conv, store: map<string, Blob>, caps: string -> int, p: Push, q: Push)
    returns (s': State)
    requires p.key == q.key && p.project == q.project && p.body != q.body
    ensures Runs(State(map[p.key := r], store, [Idle, Idle]), [Find(0, p), Find(1, q)] + CROSSED, caps, s')
    ensures p.key in s'.rows && s'.rows[p.key] == Upserted(map[p.key := r], q.key, ConvOf(q, r.id, 5))[p.key]
    ensures Holds(s'.store, p.key.owner, s'.rows[p.key], p.body)
    ensures !Holds(s'.store, p.key.owner, s'.rows[p.key], q.body)
  {
    var (c, d) := (ConvOf(p, r.id, 5), ConvOf(q, r.id, 5));
    assert ContentKey(p.key.owner, d) == ContentKey(p.key.owner, c);
    assert ContentKey(p.key.owner, Upserted(map[p.key := r], p.key, d)[p.key]) == ContentKey(p.key.owner, d);
    var mid := State(map[p.key := r], store[ContentKey(p.key.owner, c) := Gzipped(p.body)], [Upserting(p, c), Upserting(q, d)]);
    CrossedSaves(r, store, caps, p, q);
    s' := CrossedUpserts(mid, caps, p, c, q, d);
    hide ContentKey;
    assert [Find(0, p), Find(1, q)] + CROSSED == [Find(0, p), Find(1, q), Save(1, 5), Save(0, 5)] + [Upsert(0), Upsert(1)];
    hide CROSSED, Upserted;
    Chain(State(map[p.key := r], store, [Idle, Idle]), [Find(0, p), Find(1, q), Save(1, 5), Save(0, 5)], mid,
          [Upsert(0), Upsert(1)], s', caps);
  }

  lemma CrossedSaves(r: Conv, store: map<string, Blob>, caps: string -> int, p: Push, q: Push)
    requires p.key == q.key && p.project == q.project
    ensures var (c, d) := (ConvOf(p, r.id, 5), ConvOf(q, r.id, 5));
            Runs(State(map[p.key := r], store, [Idle, Idle]), [Find(0, p), Find(1, q), Save(1, 5), Save(0, 5)], caps,
                 State(map[p.key := r], store[ContentKey(p.key.owner, c) := Gzipped(p.body)], [Upserting(p, c), Upserting(q, d)]))
  {
    var (c, d) := (ConvOf(p, r.id, 5), ConvOf(q, r.id, 5));
    var ck := ContentKey(p.key.owner, c);
    assert ContentKey(q.key.owner, d) == ck;
    hide ContentKey;
    var rows := map[p.key := r];
    var s0 := State(rows, store, [Idle, Idle]);
    var s1 := State(rows, store, [Saving(p, r.id), Idle]);
    var s2 := State(rows, store, [Saving(p, r.id), Saving(q, r.id)]);
    var s3 := State(rows, store[ck := Gzipped(q.body)], [Saving(p, r.id), Upserting(q, d)]);
    var s4 := State(rows, store[ck := Gzipped(p.body)], [Upserting(p, c), Upserting(q, d)]);
    assert Enabled(s0, Find(0, p)) && Step(s0, Find(0, p), caps) == s1;
    assert Enabled(s1, Find(1, q)) && Step(s1, Find(1, q), caps) == s2;
    assert Enabled(s2, Save(1, 5)) && Step(s2, Save(1, 5), caps) == s3;
    assert store[ck := Gzipped(q.body)][ck := Gzipped(p.body)] == store[ck := Gzipped(p.body)];
    assert Enabled(s3, Save(0, 5)) && Step(s3, Save(0, 5), caps) == s4;
    hide Step, Enabled;
    assert Runs(s3, [Save(0, 5)], caps, s4);
    assert Runs(s2, [Save(1, 5)] + [Save(0, 5)], caps, s4);
    assert Runs(s1, [Find(1, q)] + [Save(1, 5), Save(0, 5)], caps, s4);
    assert [Find(0, p), Find(1, q), Save(1, 5), Save(0, 5)] == [Find(0, p)] + [Find(1, q), Save(1, 5), Save(0, 5)];
  }

  lemma CrossedUpserts(s: State, caps: string -> int, p: Push, c: Conv, q: Push, d: Conv) returns (s': State)
    requires s.pcs == [Upserting(p, c), Upserting(q, d)] && p.key == q.key && p.key in s.rows
    ensures Runs(s, [Upsert(0), Upsert(1)], caps, s')
    ensures s'.store == s.store && s'.rows == Upserted(s.rows, q.key, d)
  {
    var r1 := Upserted(s.rows, p.key, c);
    var s5 := State(r1, s.store, [Reloading(p, c), Upserting(q, d)]);
    s' := State(Upserted(s.rows, q.key, d), s.store, [Reloading(p, c), Reloading(q, d)]);
    assert Enabled(s, Upsert(0)) && Step(s, Upsert(0), caps) == s5;
    assert Upserted(r1, q.key, d) == Upserted(s.rows, q.key, d);
    assert Enabled(s5, Upsert(1)) && Step(s5, Upsert(1), caps) == s';
    hide Step, Enabled, Upserted;
    assert Runs(s5, [Upsert(1)], caps, s');
    assert [Upsert(0), Upsert(1)] == [Upsert(0)] + [Upsert(1)];
  }

  /** The bound is reached: with a cap of 1, two pushes at once leave two conversations. */
  lemma TwoPushesPassTheCap(caps: string -> int, p: Push, q: Push) returns (s': State)
    requires p.key.owner == q.key.owner && p.key != q.key && caps(p.key.owner) == 1
    ensures Runs(EMPTY, Begin(p, q) + END, caps, s')
    ensures |Owned(s'.rows, p.key.owner)| == 2 == caps(p.key.owner) - 1 + |EMPTY.pcs|
  {
    RaceBegins(caps, p, q);
    s' := RaceEnds(caps, p, q);
    assert Owned(s'.rows, p.key.owner) == {p.key, q.key};
    hide Begin, END;
    Chain(EMPTY, Begin(p, q), State(map[], map[], [Saving(p, "a"), Saving(q, "b")]), END, s', caps);
  }

  // ---------- the bound is reached, for every cap and every number of callers ----------

  /** Names of any length. */
  function Xs(n: nat): (x: string)
    ensures |x| == n && '/' !in x
  {
    seq(n, _ => 'x')
  }

  /** Names longer than this are new: no client and no id of the table is. */
  ghost predicate Beyond(rows: map<Key, Conv>, base: nat) {
    forall k | k in rows :: |k.client| < base && |rows[k].id| < base
  }

  lemma {:induction false} SomeBase(rows: map<Key, Conv>) returns (base: nat)
    ensures Beyond(rows, base)
    decreases |rows.Keys|
  {
    base := 1;
    if rows.Keys != {} {
      var k :| k in rows.Keys;
      var rest := rows - {k};
      assert rest.Keys == rows.Keys - {k};
      base := SomeBase(rest);
      base := base + |k.client| + |rows[k].id| + 1;
      assert forall j | j in rows :: j == k || (j in rest && rest[j] == rows[j]);
    }
  }

  /** Caller i's push, and the id it draws. */
  function Nth(owner: string, base: nat, i: nat): Push { Push(Key(owner, Xs(base + i)), "", "", [], 0, 0, 0) }

  function NthId(base: nat, i: nat): string { Xs(base + i) }

  function Idles(n: nat): seq<Pc> { seq(n, _ => Idle) }

  /** The first j of n callers have passed the check. */
  function PassedCheck(owner: string, base: nat, n: nat, j: nat): seq<Pc> {
    seq(n, i requires 0 <= i < n => if i < j then Saving(Nth(owner, base, i), NthId(base, i)) else Idle)
  }

  /** The first j of n callers have written their rows. */
  function HaveWritten(owner: string, base: nat, n: nat, j: nat): seq<Pc> {
    seq(n, i requires 0 <= i < n =>
      if i < j then Reloading(Nth(owner, base, i), ConvOf(Nth(owner, base, i), NthId(base, i), 1))
      else Saving(Nth(owner, base, i), NthId(base, i)))
  }

  /** One more caller finds nothing and passes the check: the count is still below the cap. */
  lemma OneMorePasses(rows: map<Key, Conv>, store: map<string, Blob>, caps: string -> int, owner: string, base: nat, n: nat, j: nat)
    requires |Owned(rows, owner)| < caps(owner) && Beyond(rows, base) && j < n
    ensures Runs(State(rows, store, PassedCheck(owner, base, n, j)), [Find(j, Nth(owner, base, j)), Check(j, NthId(base, j))], caps,
                 State(rows, store, PassedCheck(owner, base, n, j + 1)))
  {
    var (p, id) := (Nth(owner, base, j), NthId(base, j));
    var before := PassedCheck(owner, base, n, j);
    assert p.key !in rows && forall k | k in rows :: rows[k].id != id;
    assert forall i | 0 <= i < j :: IdOf(before[i]) == NthId(base, i) && |NthId(base, i)| != |id|;
    var s := State(rows, store, before);
    var mid := State(rows, store, before[j := Checking(p)]);
    var s' := State(rows, store, PassedCheck(owner, base, n, j + 1));
    assert s'.pcs == mid.pcs[j := Saving(p, id)];
    assert forall key :: !Uses(mid, id, key);
    hide PassedCheck, Nth, NthId, Xs, Owned;
    assert Enabled(s, Find(j, p)) && Step(s, Find(j, p), caps) == mid;
    assert Enabled(mid, Check(j, id)) && Step(mid, Check(j, id), caps) == s';
    hide Step, Enabled;
    assert Runs(mid, [Check(j, id)], caps, s');
    assert [Find(j, p), Check(j, id)] == [Find(j, p)] + [Check(j, id)];
  }

  lemma {:induction false} AllPass(rows: map<Key, Conv>, store: map<string, Blob>, caps: string -> int, owner: string, base: nat,
                                   n: nat, j: nat) returns (actions: seq<Action>)
    requires |Owned(rows, owner)| < caps(owner) && Beyond(rows, base) && j <= n
    ensures Runs(State(rows, store, Idles(n)), actions, caps, State(rows, store, PassedCheck(owner, base, n, j)))
  {
    if j == 0 {
      actions := [];
      assert PassedCheck(owner, base, n, 0) == Idles(n);
      hide PassedCheck, Idles;
    } else {
      actions := AllPass(rows, store, caps, owner, base, n, j - 1);
      OneMorePasses(rows, store, caps, owner, base, n, j - 1);
      hide Runs, PassedCheck, Idles;
      var last := [Find(j - 1, Nth(owner, base, j - 1)), Check(j - 1, NthId(base, j - 1))];
      Chain(State(rows, store, Idles(n)), actions, State(rows, store, PassedCheck(owner, base, n, j - 1)), last,
            State(rows, store, PassedCheck(owner, base, n, j)), caps);
      actions := actions + last;
    }
  }

  /** The table after the first j callers' rows. */
  function RowsAfter(rows: map<Key, Conv>, owner: string, base: nat, j: nat): map<Key, Conv> {
    if j == 0 then rows
    else Upserted(RowsAfter(rows, owner, base, j - 1), Nth(owner, base, j - 1).key,
                  ConvOf(Nth(owner, base, j - 1), NthId(base, j - 1), 1))
  }

  /** Each of them is one more for the owner. */
  lemma {:induction false} RowsGrow(rows: map<Key, Conv>, owner: string, base: nat, j: nat)
    requires Beyond(rows, base)
    ensures |Owned(RowsAfter(rows, owner, base, j), owner)| == |Owned(rows, owner)| + j
    ensures forall k | k in RowsAfter(rows, owner, base, j) :: |k.client| < base + j
  {
    if j > 0 {
      RowsGrow(rows, owner, base, j - 1);
      var (before, key) := (RowsAfter(rows, owner, base, j - 1), Nth(owner, base, j - 1).key);
      OwnedElsewhere(before, key, ConvOf(Nth(owner, base, j - 1), NthId(base, j - 1), 1), owner);
      assert key !in before && key !in Owned(before, owner);
    }
  }

  /** One more caller saves and upserts. */
  lemma OneMoreWrites(rows: map<Key, Conv>, store: map<string, Blob>, caps: string -> int, owner: string, base: nat, n: nat, j: nat)
    returns (store': map<string, Blob>)
    requires j < n
    ensures Runs(State(RowsAfter(rows, owner, base, j), store, HaveWritten(owner, base, n, j)), [Save(j, 1), Upsert(j)], caps,
                 State(RowsAfter(rows, owner, base, j + 1), store', HaveWritten(owner, base, n, j + 1)))
  {
    var (p, id) := (Nth(owner, base, j), NthId(base, j));
    var c := ConvOf(p, id, 1);
    store' := store[ContentKey(p.key.owner, c) := Gzipped(p.body)];
    var s := State(RowsAfter(rows, owner, base, j), store, HaveWritten(owner, base, n, j));
    assert s.pcs[j] == Saving(p, id);
    var mid := State(s.rows, store', s.pcs[j := Upserting(p, c)]);
    var s' := State(RowsAfter(rows, owner, base, j + 1), store', HaveWritten(owner, base, n, j + 1));
    assert s'.pcs == mid.pcs[j := Reloading(p, c)] && s'.rows == Upserted(s.rows, p.key, c);
    hide HaveWritten, Nth, NthId, Xs, RowsAfter, Upserted, ContentKey, ConvOf;
    assert Enabled(s, Save(j, 1)) && Step(s, Save(j, 1), caps) == mid;
    assert Enabled(mid, Upsert(j)) && Step(mid, Upsert(j), caps) == s';
    hide Step, Enabled;
    assert Runs(mid, [Upsert(j)], caps, s');
    assert [Save(j, 1), Upsert(j)] == [Save(j, 1)] + [Upsert(j)];
  }

  lemma NobodyHasWritten(rows: map<Key, Conv>, store: map<string, Blob>, caps: string -> int, owner: string, base: nat, n: nat)
    ensures Runs(State(rows, store, PassedCheck(owner, base, n, n)), [], caps,
                 State(RowsAfter(rows, owner, base, 0), store, HaveWritten(owner, base, n, 0)))
  {
    hide Nth, NthId, ConvOf;
    assert HaveWritten(owner, base, n, 0) == PassedCheck(owner, base, n, n);
  }

  lemma {:induction false} AllWrite(rows: map<Key, Conv>, store: map<string, Blob>, caps: string -> int, owner: string, base: nat,
                                    n: nat, j: nat) returns (actions: seq<Action>, store': map<string, Blob>)
    requires j <= n
    ensures Runs(State(rows, store, PassedCheck(owner, base, n, n)), actions, caps,
                 State(RowsAfter(rows, owner, base, j), store', HaveWritten(owner, base, n, j)))
  {
    NobodyHasWritten(rows, store, caps, owner, base, n);
    hide Runs, PassedCheck, HaveWritten, RowsAfter;
    if j == 0 {
      actions, store' := [], store;
    } else {
      var mid;
      actions, mid := AllWrite(rows, store, caps, owner, base, n, j - 1);
      store' := OneMoreWrites(rows, mid, caps, owner, base, n, j - 1);
      var last := [Save(j - 1, 1), Upsert(j - 1)];
      Chain(State(rows, store, PassedCheck(owner, base, n, n)), actions,
            State(RowsAfter(rows, owner, base, j - 1), mid, HaveWritten(owner, base, n, j - 1)), last,
            State(RowsAfter(rows, owner, base, j), store', HaveWritten(owner, base, n, j)), caps);
      actions := actions + last;
    }
  }

  /** From any table in which the owner is one below the cap, n pushes at once can leave cap - 1 + n conversations: the
      bound of CapHolds is reached for every cap and every n. */
  lemma BoundIsReached(rows: map<Key, Conv>, store: map<string, Blob>, caps: string -> int, owner: string, n: nat)
    returns (actions: seq<Action>, s': State)
    requires |Owned(rows, owner)| == caps(owner) - 1
    ensures Runs(State(rows, store, Idles(n)), actions, caps, s')
    ensures |Owned(s'.rows, owner)| == caps(owner) - 1 + n
  {
    var base := SomeBase(rows);
    var first := AllPass(rows, store, caps, owner, base, n, n);
    var second, store' := AllWrite(rows, store, caps, owner, base, n, n);
    RowsGrow(rows, owner, base, n);
    hide Runs, PassedCheck, HaveWritten, RowsAfter, Idles;
    s' := State(RowsAfter(rows, owner, base, n), store', HaveWritten(owner, base, n, n));
    actions := first + second;
    Chain(State(rows, store, Idles(n)), first, State(rows, store, PassedCheck(owner, base, n, n)), second, s', caps);
  }

  /** The cap itself is safe for one caller at most: an owner one below it stays within it in every run if and only if
      there is no second caller. */
  lemma CapIsSafeForOneOnly(rows: map<Key, Conv>, store: map<string, Blob>, caps: string -> int, owner: string, n: nat)
    requires |Owned(rows, owner)| == caps(owner) - 1
    ensures (forall actions, s' | Runs(State(rows, store, Idles(n)), actions, caps, s') :: |Owned(s'.rows, owner)| <= caps(owner))
       <==> n <= 1
  {
    var s := State(rows, store, Idles(n));
    if n <= 1 {
      assert Pending(s.pcs, owner) == {} && Claimed(s, owner) == Owned(rows, owner);
      forall actions, s' | Runs(s, actions, caps, s') ensures |Owned(s'.rows, owner)| <= caps(owner) {
        hide Runs, Claimed;
        CapHolds(s, actions, caps, s', owner);
      }
    } else {
      var actions, s' := BoundIsReached(rows, store, caps, owner, n);
      assert Runs(s, actions, caps, s') && |Owned(s'.rows, owner)| > caps(owner);
    }
  }
}
