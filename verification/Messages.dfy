/** Messages and read positions while edits, deletions, moderation and reads interleave: every check is one
    atomic step, the write it leads to another, and anything may run in between. */
module Messages {
  import Text

  type MsgId = nat
  type Thread = nat

  datatype Msg = Msg(room: string, sender: string, content: string, editedAt: int, deletedAt: int)

  /** A membership row; `born` numbers the insertions, so that a member who left and came back has a new row. */
  datatype Row = Row(lastReadAt: int, born: nat)

  datatype Pc =
    | Idle
    | Sending(room: string, sender: string, content: string)
    | Editing(id: MsgId, content: string)
    | Deleting(id: MsgId)
    | Reading(room: string, member: string)

  datatype State = State(msgs: map<MsgId, Msg>, drawn: set<MsgId>, rows: map<(string, string), Row>, births: nat,
                         pcs: map<Thread, Pc>)

  function PcOf(s: State, t: Thread): Pc { if t in s.pcs then s.pcs[t] else Idle }

  datatype Action =
    | CheckSend(t: Thread, actor: string, room: string, content: string, attached: bool)
    | CheckEdit(t: Thread, actor: string, room: string, id: MsgId, content: string)
    | CheckDelete(t: Thread, actor: string, room: string, id: MsgId)
    | CheckModerate(t: Thread, id: MsgId)
    | CheckRead(t: Thread, actor: string, room: string)
    | WriteSend(t: Thread, id: MsgId)
    | WriteEdit(t: Thread, now: int)
    | WriteDelete(t: Thread, now: int)
    | WriteRead(t: Thread, now: int)
    | GiveUp(t: Thread)                         // the statement failed, the call returned its error
    | Join(room: string, member: string, now: int)   // a room's first members join at 0
    | Leave(room: string, member: string)
    | DeleteRoom(room: string)

  /** ownMessage: the message is in that room, the actor is a member, and sent it. */
  predicate Owns(s: State, actor: string, room: string, id: MsgId) {
    id in s.msgs && s.msgs[id].room == room && (room, actor) in s.rows && s.msgs[id].sender == actor
  }

  /** UPDATE ... SET content, edited_at WHERE id = ? AND deleted_at = 0 */
  function UpdateContent(msgs: map<MsgId, Msg>, id: MsgId, content: string, editedAt: int): map<MsgId, Msg> {
    if id in msgs && msgs[id].deletedAt == 0 then msgs[id := msgs[id].(content := content, editedAt := editedAt)]
    else msgs
  }

  /** UPDATE ... SET deleted_at, content = '' WHERE id = ? */
  function MarkDeleted(msgs: map<MsgId, Msg>, id: MsgId, deletedAt: int): map<MsgId, Msg> {
    if id in msgs then msgs[id := msgs[id].(content := "", deletedAt := deletedAt)] else msgs
  }

  /** UPDATE ... SET last_read_at WHERE room_id, member_id AND last_read_at < ? */
  function AdvanceRead(rows: map<(string, string), Row>, k: (string, string), readAt: int): map<(string, string), Row> {
    if k in rows && rows[k].lastReadAt < readAt then rows[k := rows[k].(lastReadAt := readAt)] else rows
  }

  /** A check that fails ends its call; a drawn message id is fresh. Texts are trimmed first. */
  function Step(s: State, a: Action): State {
    match a
    case CheckSend(t, actor, room, content, attached) =>
      var text := Text.TrimSpace(content);
      if PcOf(s, t).Idle? && (text != "" || attached) && (room, actor) in s.rows
      then s.(pcs := s.pcs[t := Sending(room, actor, text)]) else s
    case CheckEdit(t, actor, room, id, content) =>
      var text := Text.TrimSpace(content);
      if PcOf(s, t).Idle? && text != "" && Owns(s, actor, room, id) && !(s.msgs[id].deletedAt > 0)
      then s.(pcs := s.pcs[t := Editing(id, text)]) else s
    case CheckDelete(t, actor, room, id) =>
      if PcOf(s, t).Idle? && Owns(s, actor, room, id) && !(s.msgs[id].deletedAt > 0)
      then s.(pcs := s.pcs[t := Deleting(id)]) else s
    case CheckModerate(t, id) =>
      if PcOf(s, t).Idle? && id in s.msgs && !(s.msgs[id].deletedAt > 0)
      then s.(pcs := s.pcs[t := Deleting(id)]) else s
    case CheckRead(t, actor, room) =>
      if PcOf(s, t).Idle? && (room, actor) in s.rows then s.(pcs := s.pcs[t := Reading(room, actor)]) else s
    case WriteSend(t, id) =>
      var p := PcOf(s, t);
      if p.Sending? && id !in s.drawn
      then s.(msgs := s.msgs[id := Msg(p.room, p.sender, p.content, 0, 0)], drawn := s.drawn + {id}, pcs := s.pcs[t := Idle])
      else s
    case WriteEdit(t, now) =>
      var p := PcOf(s, t);
      if p.Editing? then s.(msgs := UpdateContent(s.msgs, p.id, p.content, now), pcs := s.pcs[t := Idle]) else s
    case WriteDelete(t, now) =>
      var p := PcOf(s, t);
      if p.Deleting? then s.(msgs := MarkDeleted(s.msgs, p.id, now), pcs := s.pcs[t := Idle]) else s
    case WriteRead(t, now) =>
      var p := PcOf(s, t);
      if p.Reading? then s.(rows := AdvanceRead(s.rows, (p.room, p.member), now), pcs := s.pcs[t := Idle]) else s
    case GiveUp(t) => s.(pcs := s.pcs[t := Idle])
    case Join(room, m, now) =>
      if (room, m) in s.rows then s
      else s.(rows := s.rows[(room, m) := Row(now, s.births)], births := s.births + 1)
    case Leave(room, m) => s.(rows := s.rows - {(room, m)})
    case DeleteRoom(room) =>
      s.(msgs := map id | id in s.msgs && s.msgs[id].room != room :: s.msgs[id],
         rows := map k | k in s.rows && k.0 != room :: s.rows[k])
  }

  const Start := State(map[], {}, map[], 0, map[])

  function RunFrom(s: State, actions: seq<Action>): State {
    if actions == [] then s else Step(RunFrom(s, actions[..|actions| - 1]), actions[|actions| - 1])
  }

  predicate Deleted(s: State, id: MsgId) { id in s.msgs && s.msgs[id].deletedAt > 0 }

  /** Ids are drawn once, and a message with a deletion time has no content. */
  ghost predicate MessagesKept(s: State) {
    s.msgs.Keys <= s.drawn && forall id | id in s.msgs :: s.msgs[id].deletedAt != 0 ==> s.msgs[id].content == ""
  }

  ghost predicate RowsKept(s: State) { forall k | k in s.rows :: s.rows[k].born < s.births }

  lemma StepKeepsInv(s: State, a: Action)
    ensures MessagesKept(s) ==> MessagesKept(Step(s, a))
    ensures RowsKept(s) ==> RowsKept(Step(s, a))
  {
  }

  lemma {:induction false} RunsKeepInv(s: State, actions: seq<Action>)
    ensures MessagesKept(s) ==> MessagesKept(RunFrom(s, actions))
    ensures RowsKept(s) ==> RowsKept(RunFrom(s, actions))
  {
    if actions != [] {
      RunsKeepInv(s, actions[..|actions| - 1]);
      StepKeepsInv(RunFrom(s, actions[..|actions| - 1]), actions[|actions| - 1]);
    }
  }

  // ---------- what the writes do ----------

  /** A send stores the text under the sender's name and touches no other message. */
  lemma SendWrites(s: State, t: Thread, id: MsgId)
    requires PcOf(s, t).Sending? && id !in s.drawn && s.msgs.Keys <= s.drawn
    ensures var (p, s') := (PcOf(s, t), Step(s, WriteSend(t, id)));
            && id in s'.msgs && s'.msgs[id] == Msg(p.room, p.sender, p.content, 0, 0)
            && s'.msgs - {id} == s.msgs && s'.rows == s.rows
  {
  }

  /** An edit gives a message that has no deletion time its text and time, whatever happened since its check. */
  lemma EditWrites(s: State, t: Thread, now: int)
    requires PcOf(s, t).Editing?
    ensures var (p, s') := (PcOf(s, t), Step(s, WriteEdit(t, now)));
            && s'.msgs.Keys == s.msgs.Keys && s'.rows == s.rows
            && (forall i | i in s.msgs && (i != p.id || s.msgs[i].deletedAt != 0) :: s'.msgs[i] == s.msgs[i])
            && (p.id in s.msgs && s.msgs[p.id].deletedAt == 0 ==>
                  s'.msgs[p.id] == Msg(s.msgs[p.id].room, s.msgs[p.id].sender, p.content, now, 0))
  {
  }

  /** A deletion blanks its message and stamps it, and touches no other. */
  lemma DeletionBlanks(s: State, t: Thread, now: int)
    requires PcOf(s, t).Deleting?
    ensures var (p, s') := (PcOf(s, t), Step(s, WriteDelete(t, now)));
            && s'.msgs.Keys == s.msgs.Keys && s'.rows == s.rows
            && (forall i | i in s.msgs && i != p.id :: s'.msgs[i] == s.msgs[i])
            && (p.id in s.msgs ==>
                  s'.msgs[p.id] == Msg(s.msgs[p.id].room, s.msgs[p.id].sender, "", s.msgs[p.id].editedAt, now))
  {
  }

  /** A read moves its member's position up to its time and no further back, and touches no other row. */
  lemma ReadAdvances(s: State, t: Thread, now: int)
    requires PcOf(s, t).Reading?
    ensures var (p, s') := (PcOf(s, t), Step(s, WriteRead(t, now)));
            && s'.msgs == s.msgs && s'.rows.Keys == s.rows.Keys
            && (forall k | k in s.rows && k != (p.room, p.member) :: s'.rows[k] == s.rows[k])
            && ((p.room, p.member) in s.rows ==>
                  var (row, row') := (s.rows[(p.room, p.member)], s'.rows[(p.room, p.member)]);
                  row'.born == row.born && row'.lastReadAt == if row.lastReadAt < now then now else row.lastReadAt)
  {
  }

  /** A member who joins starts read up to then, one who is in already keeps their row; leaving takes exactly that row. */
  lemma MembershipMoves(s: State, room: string, member: string, now: int)
    ensures var s' := Step(s, Join(room, member, now));
            && s'.msgs == s.msgs && s'.rows.Keys == s.rows.Keys + {(room, member)}
            && (forall k | k in s.rows :: s'.rows[k] == s.rows[k])
            && ((room, member) !in s.rows ==> s'.rows[(room, member)].lastReadAt == now && s'.rows[(room, member)].born == s.births < s'.births)
    ensures var s' := Step(s, Leave(room, member)); s'.msgs == s.msgs && s'.rows == s.rows - {(room, member)}
  {
  }

  /** A room goes with all its messages and members, and takes nothing else along. */
  lemma RoomGoesWhole(s: State, room: string)
    ensures var s' := Step(s, DeleteRoom(room));
            && (forall id :: id in s'.msgs <==> id in s.msgs && s.msgs[id].room != room)
            && (forall id | id in s'.msgs :: s'.msgs[id] == s.msgs[id])
            && (forall k :: k in s'.rows <==> k in s.rows && k.0 != room)
            && (forall k | k in s'.rows :: s'.rows[k] == s.rows[k])
  {
  }

  // ---------- whose words ----------

  predicate Wrote(a: Action, id: MsgId, room: string, sender: string, content: string) {
    || (a.CheckSend? && a.room == room && a.actor == sender && Text.TrimSpace(a.content) == content)
    || (a.CheckEdit? && a.id == id && a.room == room && a.actor == sender && Text.TrimSpace(a.content) == content && content != "")
  }

  /** Somewhere in the run the sender, a member of the room at that moment, sent or edited this text. */
  ghost predicate Authored(actions: seq<Action>, id: MsgId, room: string, sender: string, content: string) {
    exists i | 0 <= i < |actions| :: Wrote(actions[i], id, room, sender, content) && MemberAt(actions, i, room, sender)
  }

  predicate MemberAt(actions: seq<Action>, i: nat, room: string, member: string)
    requires i <= |actions|
  {
    (room, member) in RunFrom(Start, actions[..i]).rows
  }

  predicate Withdrew(a: Action, id: MsgId, room: string, sender: string) {
    (a.CheckDelete? && a.id == id && a.room == room && a.actor == sender) || (a.CheckModerate? && a.id == id)
  }

  /** Somewhere in the run a moderator removed the message, or its sender did while a member of the room. */
  ghost predicate Removed(actions: seq<Action>, id: MsgId, room: string, sender: string) {
    exists i | 0 <= i < |actions| ::
      Withdrew(actions[i], id, room, sender) && (actions[i].CheckDelete? ==> MemberAt(actions, i, room, sender))
  }

  ghost predicate MessageTraced(actions: seq<Action>, id: MsgId, m: Msg) {
    && (m.content == "" || Authored(actions, id, m.room, m.sender, m.content))
    && (m.deletedAt != 0 ==> Removed(actions, id, m.room, m.sender))
  }

  /** What a thread is about to write was asked for; a text to be sent, under whatever id it will get. */
  ghost predicate WriteTraced(actions: seq<Action>, s: State, p: Pc) {
    && (p.Sending? ==> forall id :: Authored(actions, id, p.room, p.sender, p.content))
    && (p.Editing? || p.Deleting? ==> p.id in s.drawn)
    && (p.Editing? && p.id in s.msgs ==> Authored(actions, p.id, s.msgs[p.id].room, s.msgs[p.id].sender, p.content))
    && (p.Deleting? && p.id in s.msgs ==> Removed(actions, p.id, s.msgs[p.id].room, s.msgs[p.id].sender))
  }

  ghost predicate Traced(actions: seq<Action>) {
    var s := RunFrom(Start, actions);
    && (forall id | id in s.msgs :: MessageTraced(actions, id, s.msgs[id]))
    && (forall t: Thread :: WriteTraced(actions, s, PcOf(s, t)))
  }

  lemma TracesStay(before: seq<Action>, a: Action, id: MsgId, room: string, sender: string, content: string)
    ensures Authored(before, id, room, sender, content) ==> Authored(before + [a], id, room, sender, content)
    ensures Removed(before, id, room, sender) ==> Removed(before + [a], id, room, sender)
  {
    hide Wrote, Withdrew, RunFrom;
    forall i | 0 <= i < |before|
      ensures (before + [a])[i] == before[i] && (MemberAt(before + [a], i, room, sender) <==> MemberAt(before, i, room, sender))
    {
      assert (before + [a])[..i] == before[..i];
    }
    if Authored(before, id, room, sender, content) {
      var i :| 0 <= i < |before| && Wrote(before[i], id, room, sender, content) && MemberAt(before, i, room, sender);
      assert Wrote((before + [a])[i], id, room, sender, content);
    }
    if Removed(before, id, room, sender) {
      var i :| 0 <= i < |before| && Withdrew(before[i], id, room, sender)
               && (before[i].CheckDelete? ==> MemberAt(before, i, room, sender));
      assert Withdrew((before + [a])[i], id, room, sender);
    }
  }

  /** The step just taken, if it is the one that asks. */
  lemma TracesBegin(before: seq<Action>, a: Action, id: MsgId, room: string, sender: string, content: string)
    requires (a.CheckSend? || a.CheckEdit? || a.CheckDelete?) ==> (room, sender) in RunFrom(Start, before).rows
    ensures Wrote(a, id, room, sender, content) ==> Authored(before + [a], id, room, sender, content)
    ensures Withdrew(a, id, room, sender) ==> Removed(before + [a], id, room, sender)
  {
    hide RunFrom, Text.TrimSpace;
    assert (before + [a])[|before|] == a && (before + [a])[..|before|] == before;
    assert (room, sender) in RunFrom(Start, before).rows ==> MemberAt(before + [a], |before|, room, sender);
  }

  /** What a step makes of one message: the text or mark some thread was about to write, or nothing new. */
  lemma MessageAfter(s: State, a: Action, id: MsgId)
    requires id in Step(s, a).msgs
    ensures var m' := Step(s, a).msgs[id];
            || (id in s.msgs && m' == s.msgs[id])
            || (a.WriteSend? && a.id == id && id !in s.drawn && PcOf(s, a.t).Sending?
                && m' == Msg(PcOf(s, a.t).room, PcOf(s, a.t).sender, PcOf(s, a.t).content, 0, 0))
            || (id in s.msgs && a.WriteEdit? && PcOf(s, a.t).Editing? && PcOf(s, a.t).id == id
                && m'.room == s.msgs[id].room && m'.sender == s.msgs[id].sender
                && m'.content == PcOf(s, a.t).content && m'.deletedAt == s.msgs[id].deletedAt)
            || (id in s.msgs && a.WriteDelete? && PcOf(s, a.t).Deleting? && PcOf(s, a.t).id == id
                && m'.room == s.msgs[id].room && m'.sender == s.msgs[id].sender && m'.content == "")
  {
    hide Text.TrimSpace;
  }

  lemma MessagesStayTraced(before: seq<Action>, a: Action, id: MsgId)
    requires Traced(before) && id in Step(RunFrom(Start, before), a).msgs
    ensures MessageTraced(before + [a], id, Step(RunFrom(Start, before), a).msgs[id])
  {
    hide RunFrom, Authored, Removed;
    var s := RunFrom(Start, before);
    var m := Step(s, a).msgs[id];
    MessageAfter(s, a, id);
    TracesStay(before, a, id, m.room, m.sender, m.content);
    assert id in s.msgs ==> MessageTraced(before, id, s.msgs[id]);
    if a.WriteSend? || a.WriteEdit? || a.WriteDelete? {
      assert WriteTraced(before, s, PcOf(s, a.t));
    }
    hide Step, Traced;
  }

  /** What a step makes of one thread's pending write. */
  lemma WriteAfter(s: State, a: Action, t: Thread)
    ensures var (p, p') := (PcOf(s, t), PcOf(Step(s, a), t));
            || p' == p || p'.Idle? || p'.Reading?
            || (p'.Sending? && a.CheckSend? && (p'.room, p'.sender) in s.rows
                && a.room == p'.room && a.actor == p'.sender && Text.TrimSpace(a.content) == p'.content)
            || (p'.Editing? && a.CheckEdit? && a.id == p'.id && Owns(s, a.actor, a.room, p'.id)
                && Text.TrimSpace(a.content) == p'.content && p'.content != "")
            || (p'.Deleting? && p'.id in s.msgs
                && ((a.CheckDelete? && a.id == p'.id && Owns(s, a.actor, a.room, p'.id)) || (a.CheckModerate? && a.id == p'.id)))
  {
    hide Text.TrimSpace;
  }

  /** Messages keep their room and sender, and ids once drawn never come back. */
  lemma MessageKeepsSender(s: State, a: Action, id: MsgId)
    requires id in s.drawn && id in Step(s, a).msgs
    ensures id in s.msgs && Step(s, a).msgs[id].room == s.msgs[id].room && Step(s, a).msgs[id].sender == s.msgs[id].sender
  {
    hide Text.TrimSpace;
  }

  lemma DrawnStays(s: State, a: Action)
    ensures s.drawn <= Step(s, a).drawn
  {
    hide Text.TrimSpace;
  }

  lemma WritesStayTraced(before: seq<Action>, a: Action, t: Thread)
    requires Traced(before) && MessagesKept(RunFrom(Start, before))
    ensures WriteTraced(before + [a], Step(RunFrom(Start, before), a), PcOf(Step(RunFrom(Start, before), a), t))
  {
    hide RunFrom, Authored, Removed, Text.TrimSpace;
    var s := RunFrom(Start, before);
    var (s', p, p') := (Step(s, a), PcOf(s, t), PcOf(Step(s, a), t));
    assert WriteTraced(before, s, p);
    WriteAfter(s, a, t);
    DrawnStays(s, a);
    hide Step, Traced;
    if p'.Sending? {
      forall id ensures Authored(before + [a], id, p'.room, p'.sender, p'.content) {
        TracesStay(before, a, id, p'.room, p'.sender, p'.content);
        if p' != p {
          TracesBegin(before, a, id, p'.room, p'.sender, p'.content);
        }
      }
    }
    if (p'.Editing? || p'.Deleting?) && p'.id in s'.msgs {
      assert p'.id in s.drawn;
      MessageKeepsSender(s, a, p'.id);
      var m := s.msgs[p'.id];
      var text := if p'.Editing? then p'.content else "";
      TracesStay(before, a, p'.id, m.room, m.sender, text);
      if p' != p {
        TracesBegin(before, a, p'.id, m.room, m.sender, text);
      }
    }
  }

  lemma {:induction false} RunsAreTraced(actions: seq<Action>)
    ensures Traced(actions)
  {
    if actions != [] {
      var (before, a) := (actions[..|actions| - 1], actions[|actions| - 1]);
      assert before + [a] == actions;
      RunsAreTraced(before);
      RunsKeepInv(Start, before);
      var s' := Step(RunFrom(Start, before), a);
      forall id | id in s'.msgs ensures MessageTraced(actions, id, s'.msgs[id]) {
        MessagesStayTraced(before, a, id);
      }
      forall t: Thread ensures WriteTraced(actions, s', PcOf(s', t)) {
        WritesStayTraced(before, a, t);
      }
      hide Step, MessageTraced, WriteTraced;
    }
  }

  /** In every run, whatever checks and writes overlap: the words of a message are its sender's own, sent or edited by
      them while a member of its room, and only they or a moderator can have deleted it. */
  lemma WordsAreTheSenders(actions: seq<Action>, id: MsgId)
    requires id in RunFrom(Start, actions).msgs
    ensures var m := RunFrom(Start, actions).msgs[id];
            && (m.content == "" || Authored(actions, id, m.room, m.sender, m.content))
            && (m.deletedAt != 0 ==> Removed(actions, id, m.room, m.sender))
  {
    RunsAreTraced(actions);
    hide RunFrom;
    assert MessageTraced(actions, id, RunFrom(Start, actions).msgs[id]);
  }

  // ---------- deleted for good ----------

  /** Deleted with empty content, or gone with its room and never drawn again. */
  predicate StaysDeleted(s: State, id: MsgId) {
    id in s.drawn && (id !in s.msgs || (s.msgs[id].deletedAt > 0 && s.msgs[id].content == ""))
  }

  /** A second deletion of the message, stamped at or before the epoch. */
  predicate Undeletes(s: State, a: Action, id: MsgId) {
    a.WriteDelete? && a.now <= 0 && PcOf(s, a.t) == Deleting(id) && id in s.msgs
  }

  /** Nothing but such a deletion brings a message back: no edit checked before the deletion and written after it. */
  lemma OnlyTheClockUndeletes(s: State, a: Action, id: MsgId)
    requires StaysDeleted(s, id)
    ensures StaysDeleted(Step(s, a), id) <==> !Undeletes(s, a, id)
  {
  }

  ghost predicate DeletedThroughout(s: State, future: seq<Action>, id: MsgId) {
    forall i | 0 <= i <= |future| :: StaysDeleted(RunFrom(s, future[..i]), id)
  }

  ghost predicate NeverUndeleted(s: State, future: seq<Action>, id: MsgId) {
    forall i | 0 <= i < |future| :: !Undeletes(RunFrom(s, future[..i]), future[i], id)
  }

  lemma ThroughoutGrows(s: State, future: seq<Action>, id: MsgId)
    requires future != []
    ensures var before := future[..|future| - 1];
            && (DeletedThroughout(s, future, id) <==> DeletedThroughout(s, before, id) && StaysDeleted(RunFrom(s, future), id))
            && (NeverUndeleted(s, future, id) <==>
                  NeverUndeleted(s, before, id) && !Undeletes(RunFrom(s, before), future[|future| - 1], id))
            && (DeletedThroughout(s, before, id) ==> StaysDeleted(RunFrom(s, before), id))
  {
    hide RunFrom, StaysDeleted, Undeletes;
    var before := future[..|future| - 1];
    assert forall i | 0 <= i < |future| :: before[..i] == future[..i];
    assert future[..|future|] == future;
    assert forall i | 0 <= i < |before| :: before[i] == future[i];
  }

  /** In every run, a deleted message stays deleted throughout if and only if no later deletion of it, checked
      before it was deleted, is stamped with a clock at or before the epoch. */
  lemma {:induction false} DeletedStaysDeleted(past: seq<Action>, future: seq<Action>, id: MsgId)
    requires Deleted(RunFrom(Start, past), id)
    ensures DeletedThroughout(RunFrom(Start, past), future, id) <==> NeverUndeleted(RunFrom(Start, past), future, id)
  {
    var mid := RunFrom(Start, past);
    RunsKeepInv(Start, past);
    assert StaysDeleted(mid, id);
    if future == [] {
      assert future[..0] == [];
    } else {
      var before := future[..|future| - 1];
      DeletedStaysDeleted(past, before, id);
      ThroughoutGrows(mid, future, id);
      if StaysDeleted(RunFrom(mid, before), id) {
        OnlyTheClockUndeletes(RunFrom(mid, before), future[|future| - 1], id);
      }
      hide DeletedThroughout, NeverUndeleted, StaysDeleted, Undeletes, Step;
    }
  }

  /** With every clock after the epoch nothing ever comes back. */
  lemma DeletedForGood(past: seq<Action>, future: seq<Action>, id: MsgId)
    requires Deleted(RunFrom(Start, past), id) && forall a | a in future :: a.WriteDelete? ==> a.now > 0
    ensures StaysDeleted(RunFrom(RunFrom(Start, past), future), id)
  {
    DeletedStaysDeleted(past, future, id);
    forall i | 0 <= i < |future| ensures !Undeletes(RunFrom(RunFrom(Start, past), future[..i]), future[i], id) {
      assert future[i] in future;
    }
    assert future[..|future|] == future;
  }

  /** The deletion time is what carries the mark: a deletion leaves the message deleted iff the clock it is
      stamped with is after the epoch. */
  lemma DeletionNeedsTheClock(s: State, t: Thread, now: int)
    requires PcOf(s, t).Deleting? && PcOf(s, t).id in s.msgs
    ensures Deleted(Step(s, WriteDelete(t, now)), PcOf(s, t).id) <==> now > 0
  {
  }

  /** A row after a step is the same row, read no earlier, or a newly inserted one. */
  lemma StepKeepsRow(s: State, a: Action, k: (string, string))
    requires k in Step(s, a).rows
    ensures var row := Step(s, a).rows[k];
            (k in s.rows && row.born == s.rows[k].born && row.lastReadAt >= s.rows[k].lastReadAt) || row.born == s.births
  {
  }

  /** A member's read position never moves back while the membership row lives. */
  lemma {:induction false} ReadNeverMovesBack(past: seq<Action>, future: seq<Action>, k: (string, string))
    requires var (s, s') := (RunFrom(Start, past), RunFrom(RunFrom(Start, past), future));
             k in s.rows && k in s'.rows && s'.rows[k].born == s.rows[k].born
    ensures RunFrom(RunFrom(Start, past), future).rows[k].lastReadAt >= RunFrom(Start, past).rows[k].lastReadAt
  {
    var mid := RunFrom(Start, past);
    RunsKeepInv(Start, past);
    if future != [] {
      var before := future[..|future| - 1];
      BirthsGrow(mid, before);
      StepKeepsRow(RunFrom(mid, before), future[|future| - 1], k);
      hide Step;
      ReadNeverMovesBack(past, before, k);
    }
  }

  lemma {:induction false} BirthsGrow(s: State, actions: seq<Action>)
    ensures RunFrom(s, actions).births >= s.births
  {
    if actions != [] {
      BirthsGrow(s, actions[..|actions| - 1]);
    }
  }

  // ---------- the code of the service ----------

  datatype Answer = Done | Invalid | NotFound | NotMember | NotSender | Broken

  /** One call at a time; `broken` says that its write fails. Each call is its check and its write in a row. */
  class Service {
    var msgs: map<MsgId, Msg>
    var drawn: set<MsgId>
    var rows: map<(string, string), Row>
    var births: nat

    ghost function Now(): State
      reads this
    {
      State(msgs, drawn, rows, births, map[])
    }

    ghost predicate Shows(s: State)
      reads this
    {
      msgs == s.msgs && drawn == s.drawn && rows == s.rows && births == s.births && PcOf(s, 0).Idle?
    }

    method SendMessage(actor: string, room: string, content: string, attached: bool, id: MsgId, broken: bool)
      returns (r: Answer)
      requires id !in drawn
      modifies this
      ensures r == Invalid <==> Text.TrimSpace(content) == "" && !attached
      ensures r == NotMember <==> r != Invalid && (room, actor) !in rows
      ensures r == Broken <==> r != Invalid && r != NotMember && broken
      ensures r == Done ==> msgs == old(msgs)[id := Msg(room, actor, Text.TrimSpace(content), 0, 0)]
      ensures r != Done ==> msgs == old(msgs)
      ensures rows == old(rows)
      ensures Shows(Step(Step(old(Now()), CheckSend(0, actor, room, content, attached)),
                         if broken then GiveUp(0) else WriteSend(0, id)))
    {
      hide Text.TrimSpace;
      var text := Text.TrimSpace(content);
      if text == "" && !attached {
        return Invalid;
      }
      if (room, actor) !in rows {
        return NotMember;
      }
      if broken {
        return Broken;
      }
      msgs, drawn := msgs[id := Msg(room, actor, text, 0, 0)], drawn + {id};
      return Done;
    }

    /** ownMessage: Done if the actor may touch the message. */
    method OwnMessage(actor: string, room: string, id: MsgId) returns (r: Answer)
      ensures r == Done <==> Owns(Now(), actor, room, id)
      ensures r == NotFound <==> id !in msgs || msgs[id].room != room
      ensures r == NotMember <==> r != NotFound && (room, actor) !in rows
      ensures r == NotSender <==> r != NotFound && r != NotMember && msgs[id].sender != actor
    {
      if id !in msgs || msgs[id].room != room {
        return NotFound;
      }
      if (room, actor) !in rows {
        return NotMember;
      }
      return if msgs[id].sender != actor then NotSender else Done;
    }

    method EditMessage(actor: string, room: string, id: MsgId, content: string, now: int, broken: bool)
      returns (r: Answer)
      modifies this
      ensures r == Invalid <==> Text.TrimSpace(content) == ""
      ensures r == Done <==> Text.TrimSpace(content) != "" && Owns(old(Now()), actor, room, id) && old(msgs)[id].deletedAt <= 0 && !broken
      ensures r == Done && old(msgs)[id].deletedAt == 0 ==>
                msgs == old(msgs)[id := Msg(room, actor, Text.TrimSpace(content), now, 0)]
      ensures r != Done ==> msgs == old(msgs)
      ensures Shows(Step(Step(old(Now()), CheckEdit(0, actor, room, id, content)),
                         if broken then GiveUp(0) else WriteEdit(0, now)))
    {
      hide Text.TrimSpace;
      var text := Text.TrimSpace(content);
      if text == "" {
        return Invalid;
      }
      r := OwnMessage(actor, room, id);
      if r != Done {
        return;
      }
      if msgs[id].deletedAt > 0 {
        return NotFound;
      }
      if broken {
        return Broken;
      }
      if msgs[id].deletedAt == 0 {
        msgs := msgs[id := msgs[id].(content := text, editedAt := now)];
      }
    }

    /** Deleting what is deleted already changes nothing and is no error. */
    method DeleteMessage(actor: string, room: string, id: MsgId, now: int, broken: bool) returns (r: Answer)
      modifies this
      ensures r == Done <==> Owns(old(Now()), actor, room, id) && (old(msgs)[id].deletedAt > 0 || !broken)
      ensures r == Done && old(msgs)[id].deletedAt <= 0 ==>
                msgs == old(msgs)[id := Msg(room, actor, "", old(msgs)[id].editedAt, now)]
      ensures r != Done || old(msgs)[id].deletedAt > 0 ==> msgs == old(msgs)
      ensures Shows(Step(Step(old(Now()), CheckDelete(0, actor, room, id)), if broken then GiveUp(0) else WriteDelete(0, now)))
    {
      r := OwnMessage(actor, room, id);
      if r != Done || msgs[id].deletedAt > 0 {
        return;
      }
      if broken {
        return Broken;
      }
      msgs := msgs[id := msgs[id].(content := "", deletedAt := now)];
    }

    /** AdminDeleteMessage: any message, by its id. */
    method Moderate(id: MsgId, now: int, broken: bool) returns (r: Answer)
      modifies this
      ensures r == NotFound <==> id !in old(msgs)
      ensures r == Done <==> id in old(msgs) && (old(msgs)[id].deletedAt > 0 || !broken)
      ensures r == Done && old(msgs)[id].deletedAt <= 0 ==>
                msgs == old(msgs)[id := old(msgs)[id].(content := "", deletedAt := now)]
      ensures r != Done || old(msgs)[id].deletedAt > 0 ==> msgs == old(msgs)
      ensures Shows(Step(Step(old(Now()), CheckModerate(0, id)), if broken then GiveUp(0) else WriteDelete(0, now)))
    {
      if id !in msgs {
        return NotFound;
      }
      if msgs[id].deletedAt > 0 {
        return Done;
      }
      if broken {
        return Broken;
      }
      msgs := msgs[id := msgs[id].(content := "", deletedAt := now)];
      return Done;
    }

    method MarkRead(actor: string, room: string, now: int, broken: bool) returns (r: Answer)
      modifies this
      ensures r == NotMember <==> (room, actor) !in old(rows)
      ensures r == Done <==> (room, actor) in old(rows) && !broken
      ensures r == Done && old(rows)[(room, actor)].lastReadAt < now ==>
                rows == old(rows)[(room, actor) := old(rows)[(room, actor)].(lastReadAt := now)]
      ensures r != Done || old(rows)[(room, actor)].lastReadAt >= now ==> rows == old(rows)
      ensures Shows(Step(Step(old(Now()), CheckRead(0, actor, room)), if broken then GiveUp(0) else WriteRead(0, now)))
    {
      if (room, actor) !in rows {
        return NotMember;
      }
      if broken {
        return Broken;
      }
      if rows[(room, actor)].lastReadAt < now {
        rows := rows[(room, actor) := rows[(room, actor)].(lastReadAt := now)];
      }
      return Done;
    }
  }
}
