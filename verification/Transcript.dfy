/** One conversation history, rendered for three LLM APIs: Chat Completions, Responses and Claude Messages.

    Each rendering flattens to a trace of events. All three traces mean the same conversation. */
module Transcript {
  import opened Text
  import opened Options

  datatype Role = System | User | Assistant | Tool | Unknown(name: string)

  datatype ToolCall = ToolCall(id: string, name: string, args: string)

  datatype ChatMessage = ChatMessage(role: Role, content: string, toolCallId: string, toolCalls: seq<ToolCall>,
                                     thinking: string, signature: string)

  // ---------- what a history means ----------

  datatype Speaker = BySystem | ByUser | ByAssistant

  datatype Event =
    | Said(who: Speaker, text: string)
    | Called(id: string, name: string, input: string)
    | Returned(callId: string, text: string)

  function CallEvents(calls: seq<ToolCall>): seq<Event> {
    if calls == [] then []
    else
      var c := calls[|calls| - 1];
      CallEvents(calls[..|calls| - 1]) + [Called(c.id, c.name, c.args)]
  }

  /** What one message contributes: an assistant's empty text is no event, an unknown role speaks as user. */
  function MessageEvents(m: ChatMessage): seq<Event> {
    match m.role
    case System => [Said(BySystem, m.content)]
    case Assistant => (if m.content != "" then [Said(ByAssistant, m.content)] else []) + CallEvents(m.toolCalls)
    case Tool => [Returned(m.toolCallId, m.content)]
    case _ => [Said(ByUser, m.content)]
  }

  function Meaning(msgs: seq<ChatMessage>): seq<Event> {
    if msgs == [] then [] else Meaning(msgs[..|msgs| - 1]) + MessageEvents(msgs[|msgs| - 1])
  }

  /** The sub-sequence of events that pass a test. */
  function Only(es: seq<Event>, keep: Event -> bool): seq<Event> {
    if es == [] then []
    else Only(es[..|es| - 1], keep) + (if keep(es[|es| - 1]) then [es[|es| - 1]] else [])
  }

  predicate Audible(e: Event) { e != Said(ByAssistant, "") }

  predicate NotSystem(e: Event) { !(e.Said? && e.who.BySystem?) }

  predicate FromSystem(e: Event) { e.Said? && e.who.BySystem? }

  lemma {:induction false} OnlyConcat(a: seq<Event>, b: seq<Event>, keep: Event -> bool)
    ensures Only(a + b, keep) == Only(a, keep) + Only(b, keep)
  {
    if b == [] {
      assert a + b == a;
    } else {
      var (front, last) := (b[..|b| - 1], b[|b| - 1]);
      assert (a + b)[..|a + b| - 1] == a + front;
      OnlyConcat(a, front, keep);
    }
  }

  lemma OnlyOne(e: Event, keep: Event -> bool)
    ensures Only([e], keep) == (if keep(e) then [e] else []) && Only([], keep) == []
  {
    assert [e][..0] == [];
  }

  lemma MeaningGrows(msgs: seq<ChatMessage>, m: ChatMessage)
    ensures Meaning(msgs + [m]) == Meaning(msgs) + MessageEvents(m)
  {
    assert (msgs + [m])[..|msgs|] == msgs;
  }

  lemma {:induction false} CallsAreKept(calls: seq<ToolCall>)
    ensures Only(CallEvents(calls), Audible) == CallEvents(calls)
    ensures Only(CallEvents(calls), NotSystem) == CallEvents(calls)
  {
    if calls != [] {
      var c := calls[|calls| - 1];
      CallsAreKept(calls[..|calls| - 1]);
      OnlyConcat(CallEvents(calls[..|calls| - 1]), [Called(c.id, c.name, c.args)], Audible);
      OnlyConcat(CallEvents(calls[..|calls| - 1]), [Called(c.id, c.name, c.args)], NotSystem);
    }
  }

  // ---------- Chat Completions ----------

  datatype ChatParam =
    | SystemMsg(text: string)
    | UserMsg(text: string)
    | AssistantMsg(content: Option<string>, calls: seq<ToolCall>)
    | ToolMsg(text: string, callId: string)

  function ChatParamEvents(p: ChatParam): seq<Event> {
    match p
    case SystemMsg(t) => [Said(BySystem, t)]
    case UserMsg(t) => [Said(ByUser, t)]
    case AssistantMsg(c, calls) => (if c.Some? then [Said(ByAssistant, c.value)] else []) + CallEvents(calls)
    case ToolMsg(t, id) => [Returned(id, t)]
  }

  function ChatTrace(ps: seq<ChatParam>): seq<Event> {
    if ps == [] then [] else ChatTrace(ps[..|ps| - 1]) + ChatParamEvents(ps[|ps| - 1])
  }

  /** The events of an assistant parameter, with or without its text. */
  lemma AssistantEvents(text: string, calls: seq<ToolCall>, withText: bool)
    requires withText || text == ""
    ensures Only(ChatParamEvents(AssistantMsg(if withText then Some(text) else None, calls)), Audible)
         == (if text != "" then [Said(ByAssistant, text)] else []) + CallEvents(calls)
  {
    var said := if withText then [Said(ByAssistant, text)] else [];
    CallsAreKept(calls);
    OnlyOne(Said(ByAssistant, text), Audible);
    hide Only, CallEvents;
    OnlyConcat(said, CallEvents(calls), Audible);
  }

  method BuildAssistant(m: ChatMessage) returns (p: ChatParam)
    ensures Only(ChatParamEvents(p), Audible)
         == (if m.content != "" then [Said(ByAssistant, m.content)] else []) + CallEvents(m.toolCalls)
    ensures p.AssistantMsg? && p.calls == m.toolCalls
  {
    hide Only, CallEvents, ChatParamEvents;
    if |m.toolCalls| == 0 {
      assert m.toolCalls == [];
      AssistantEvents(m.content, [], true);
      return AssistantMsg(Some(m.content), []);
    }
    var calls: seq<ToolCall> := [];
    for i := 0 to |m.toolCalls|
      invariant calls == m.toolCalls[..i]
    {
      calls := calls + [m.toolCalls[i]];
    }
    assert calls == m.toolCalls;
    AssistantEvents(m.content, calls, m.content != "");
    p := AssistantMsg(if m.content != "" then Some(m.content) else None, calls);
  }

  method BuildParam(m: ChatMessage) returns (p: ChatParam)
    ensures Only(ChatParamEvents(p), Audible) == MessageEvents(m)
  {
    OnlyOne(Said(BySystem, m.content), Audible);
    OnlyOne(Said(ByUser, m.content), Audible);
    OnlyOne(Returned(m.toolCallId, m.content), Audible);
    hide Only;
    match m.role {
      case System => p := SystemMsg(m.content);
      case User => p := UserMsg(m.content);
      case Assistant => p := BuildAssistant(m);
      case Tool => p := ToolMsg(m.content, m.toolCallId);
      case Unknown(_) => p := UserMsg(m.content);
    }
  }

  lemma ChatAppend(ps: seq<ChatParam>, p: ChatParam)
    ensures ChatTrace(ps + [p]) == ChatTrace(ps) + ChatParamEvents(p)
  {
    assert (ps + [p])[..|ps|] == ps;
  }

  /** buildOpenAIMessages keeps the meaning, but for assistant messages with empty text. */
  method BuildChat(msgs: seq<ChatMessage>) returns (out: seq<ChatParam>)
    ensures Only(ChatTrace(out), Audible) == Meaning(msgs)
    ensures |out| == |msgs|
  {
    out := [];
    assert Only(ChatTrace([]), Audible) == Meaning([]);
    hide Only, ChatTrace, Meaning, ChatParamEvents, MessageEvents;
    for i := 0 to |msgs|
      invariant |out| == i && Only(ChatTrace(out), Audible) == Meaning(msgs[..i])
    {
      assert msgs[..i + 1] == msgs[..i] + [msgs[i]];
      var p := BuildParam(msgs[i]);
      ChatSays(out, msgs[..i], msgs[i], p);
      out := out + [p];
    }
    assert msgs[..|msgs|] == msgs;
  }

  lemma ChatSays(out: seq<ChatParam>, msgs: seq<ChatMessage>, m: ChatMessage, p: ChatParam)
    requires Only(ChatTrace(out), Audible) == Meaning(msgs) && Only(ChatParamEvents(p), Audible) == MessageEvents(m)
    ensures Only(ChatTrace(out + [p]), Audible) == Meaning(msgs + [m])
  {
    hide Only, ChatTrace, Meaning, ChatParamEvents, MessageEvents;
    OnlyConcat(ChatTrace(out), ChatParamEvents(p), Audible);
    MeaningGrows(msgs, m);
    ChatAppend(out, p);
  }

  // ---------- Responses ----------

  datatype InputItem =
    | Message(who: Speaker, text: string)
    | FunctionCall(args: string, callId: string, name: string)
    | FunctionCallOutput(callId: string, output: string)

  function ItemEvent(it: InputItem): Event {
    match it
    case Message(who, t) => Said(who, t)
    case FunctionCall(a, id, n) => Called(id, n, a)
    case FunctionCallOutput(id, t) => Returned(id, t)
  }

  function ResponsesTrace(items: seq<InputItem>): seq<Event> { seq(|items|, i requires 0 <= i < |items| => ItemEvent(items[i])) }

  lemma ItemAppend(items: seq<InputItem>, it: InputItem)
    ensures ResponsesTrace(items + [it]) == ResponsesTrace(items) + [ItemEvent(it)]
  {
  }

  /** An assistant turn: its text, unless empty, and beside it one item per call. */
  method AppendAssistant(items: seq<InputItem>, m: ChatMessage) returns (out: seq<InputItem>)
    requires m.role.Assistant?
    ensures ResponsesTrace(out) == ResponsesTrace(items) + MessageEvents(m)
  {
    hide ResponsesTrace;
    out := items;
    if m.content != "" {
      ItemAppend(out, Message(ByAssistant, m.content));
      out := out + [Message(ByAssistant, m.content)];
    }
    ghost var text := if m.content != "" then [Said(ByAssistant, m.content)] else [];
    for j := 0 to |m.toolCalls|
      invariant ResponsesTrace(out) == ResponsesTrace(items) + (text + CallEvents(m.toolCalls[..j]))
    {
      assert m.toolCalls[..j + 1][..j] == m.toolCalls[..j];
      var tc := m.toolCalls[j];
      ItemAppend(out, FunctionCall(tc.args, tc.id, tc.name));
      out := out + [FunctionCall(tc.args, tc.id, tc.name)];
    }
    assert m.toolCalls[..|m.toolCalls|] == m.toolCalls;
  }

  lemma PlainTurn(m: ChatMessage)
    requires !m.role.Assistant?
    ensures MessageEvents(m) == [match m.role
                                 case System => Said(BySystem, m.content)
                                 case Tool => Returned(m.toolCallId, m.content)
                                 case _ => Said(ByUser, m.content)]
  {
  }

  /** One turn of the loop. */
  method AppendMessage(items: seq<InputItem>, m: ChatMessage) returns (out: seq<InputItem>)
    ensures ResponsesTrace(out) == ResponsesTrace(items) + MessageEvents(m)
  {
    hide ResponsesTrace, MessageEvents;
    if m.role.Assistant? {
      out := AppendAssistant(items, m);
      return;
    }
    PlainTurn(m);
    var it: InputItem;
    match m.role {
      case System => it := Message(BySystem, m.content);
      case Tool => it := FunctionCallOutput(m.toolCallId, m.content);
      case _ => it := Message(ByUser, m.content);
    }
    ItemAppend(items, it);
    out := items + [it];
  }

  /** buildResponsesInput keeps the meaning exactly: calls are siblings of the text, empty texts are left out. */
  method BuildResponses(msgs: seq<ChatMessage>) returns (out: seq<InputItem>)
    ensures ResponsesTrace(out) == Meaning(msgs)
  {
    out := [];
    assert msgs[..0] == [] && ResponsesTrace([]) == [];
    hide ResponsesTrace, MessageEvents;
    for i := 0 to |msgs|
      invariant ResponsesTrace(out) == Meaning(msgs[..i])
    {
      MeaningGrows(msgs[..i], msgs[i]);
      hide Meaning;
      assert msgs[..i + 1] == msgs[..i] + [msgs[i]];
      out := AppendMessage(out, msgs[i]);
    }
    assert msgs[..|msgs|] == msgs;
  }

  // ---------- Claude ----------

  /** cached: the block carries a cache_control mark (thinking blocks cannot). */
  datatype Block =
    | Thinking(text: string, signature: string)
    | TextBlock(text: string, cached: bool)
    | ToolUse(id: string, name: string, input: string, cached: bool)
    | ToolResult(callId: string, text: string, cached: bool)

  datatype ClaudeMessage = ClaudeMessage(fromUser: bool, content: seq<Block>)

  /** claudeDecodeArguments: blank or unparsable arguments become the empty object. `parse` is the JSON parser. */
  function Decode(parse: string -> Option<string>, args: string): string {
    if TrimSpace(args) == "" || parse(args).None? then "{}" else parse(args).value
  }

  function DecodeInputs(es: seq<Event>, parse: string -> Option<string>): seq<Event> {
    seq(|es|, i requires 0 <= i < |es| => if es[i].Called? then es[i].(input := Decode(parse, es[i].input)) else es[i])
  }

  /** What decoding yields: the parsed value of arguments that are not all white space and parse, else an empty object. */
  lemma DecodeYields(parse: string -> Option<string>, args: string)
    ensures Decode(parse, args) == if !AllSpace(args) && parse(args).Some? then parse(args).value else "{}"
  {
    BlankIsAllSpace(args);
  }

  /** Arguments that decoding leaves as they are. */
  predicate PlainArgs(parse: string -> Option<string>, args: string) { !AllSpace(args) && parse(args) == Some(args) }

  predicate AllPlain(parse: string -> Option<string>, msgs: seq<ChatMessage>) {
    forall m | m in msgs :: forall c | c in m.toolCalls :: PlainArgs(parse, c.args)
  }

  lemma {:induction false} PlainCalls(calls: seq<ToolCall>, parse: string -> Option<string>)
    requires forall c | c in calls :: PlainArgs(parse, c.args)
    ensures forall e | e in CallEvents(calls) :: e.Called? ==> PlainArgs(parse, e.input)
  {
    if calls != [] {
      assert calls[|calls| - 1] in calls;
      PlainCalls(calls[..|calls| - 1], parse);
      hide PlainArgs;
    }
  }

  lemma {:induction false} PlainEvents(msgs: seq<ChatMessage>, parse: string -> Option<string>)
    requires AllPlain(parse, msgs)
    ensures forall e | e in Meaning(msgs) :: e.Called? ==> PlainArgs(parse, e.input)
  {
    if msgs != [] {
      var (front, m) := (msgs[..|msgs| - 1], msgs[|msgs| - 1]);
      assert m in msgs && forall x | x in front :: x in msgs;
      PlainEvents(front, parse);
      PlainCalls(m.toolCalls, parse);
      hide PlainArgs, CallEvents;
    }
  }

  lemma {:induction false} OnlySome(es: seq<Event>, keep: Event -> bool)
    ensures forall e | e in Only(es, keep) :: e in es
  {
    if es != [] {
      OnlySome(es[..|es| - 1], keep);
    }
  }

  /** A history whose call arguments are plain is said to Claude word for word, inputs included. */
  lemma PlainTarget(msgs: seq<ChatMessage>, parse: string -> Option<string>)
    requires AllPlain(parse, msgs)
    ensures Target(msgs, parse) == Only(Meaning(msgs), NotSystem)
  {
    var es := Only(Meaning(msgs), NotSystem);
    PlainEvents(msgs, parse);
    OnlySome(Meaning(msgs), NotSystem);
    hide Meaning, Only, Decode;
    forall i | 0 <= i < |es| ensures DecodeInputs(es, parse)[i] == es[i] {
      assert es[i] in es;
      if es[i].Called? {
        DecodeYields(parse, es[i].input);
      }
    }
  }

  function BlockEvents(fromUser: bool, b: Block): seq<Event> {
    match b
    case Thinking(_, _) => []
    case TextBlock(t, _) => [Said(if fromUser then ByUser else ByAssistant, t)]
    case ToolUse(id, n, input, _) => [Called(id, n, input)]
    case ToolResult(id, t, _) => [Returned(id, t)]
  }

  function BlocksTrace(fromUser: bool, bs: seq<Block>): seq<Event> {
    if bs == [] then [] else BlocksTrace(fromUser, bs[..|bs| - 1]) + BlockEvents(fromUser, bs[|bs| - 1])
  }

  function ClaudeTrace(ms: seq<ClaudeMessage>): seq<Event> {
    if ms == [] then []
    else ClaudeTrace(ms[..|ms| - 1]) + BlocksTrace(ms[|ms| - 1].fromUser, ms[|ms| - 1].content)
  }

  predicate IsResults(m: ClaudeMessage) {
    m.fromUser && m.content != [] && forall b | b in m.content :: b.ToolResult?
  }

  /** Not empty, thinking first if at all and never last, tool results apart from other blocks, and nothing in a user
      message that only the assistant may say. */
  predicate GoodMessage(m: ClaudeMessage) {
    m.content != [] && !m.content[|m.content| - 1].Thinking?
    && (IsResults(m) || forall b | b in m.content :: !b.ToolResult?)
    && (m.fromUser ==> forall b | b in m.content :: !b.ToolUse? && !b.Thinking?)
    && (forall i | 0 <= i < |m.content| && m.content[i].Thinking? :: i == 0)
  }

  // ---------- which turns carry thinking ----------

  /** A thinking text with its signature and the calls of the turn it stands before. */
  datatype Thought = Thought(text: string, signature: string, calls: seq<string>)

  function CallIds(calls: seq<ToolCall>): seq<string> { seq(|calls|, i requires 0 <= i < |calls| => calls[i].id) }

  /** Only complete thinking of an assistant turn with tool calls is passed on. */
  function ThoughtOf(m: ChatMessage): seq<Thought> {
    if m.role.Assistant? && m.toolCalls != [] && m.thinking != "" && m.signature != ""
    then [Thought(m.thinking, m.signature, CallIds(m.toolCalls))] else []
  }

  function Thoughts(msgs: seq<ChatMessage>): seq<Thought> {
    if msgs == [] then [] else Thoughts(msgs[..|msgs| - 1]) + ThoughtOf(msgs[|msgs| - 1])
  }

  function UseIds(bs: seq<Block>): seq<string> {
    if bs == [] then [] else UseIds(bs[..|bs| - 1]) + if bs[|bs| - 1].ToolUse? then [bs[|bs| - 1].id] else []
  }

  function BlockThought(bs: seq<Block>): seq<Thought> {
    if bs != [] && bs[0].Thinking? then [Thought(bs[0].text, bs[0].signature, UseIds(bs))] else []
  }

  function ClaudeThoughts(ms: seq<ClaudeMessage>): seq<Thought> {
    if ms == [] then [] else ClaudeThoughts(ms[..|ms| - 1]) + BlockThought(ms[|ms| - 1].content)
  }

  // ---------- which message says what ----------

  /** One message of the rendering: a user or assistant turn, or a maximal run of tool results. System messages are
      lifted out and do not end a run. */
  datatype Group = Turn(m: ChatMessage) | Results(ms: seq<ChatMessage>)

  function Groups(msgs: seq<ChatMessage>): seq<Group> {
    if msgs == [] then [] else AddToGroups(Groups(msgs[..|msgs| - 1]), msgs[|msgs| - 1])
  }

  function AddToGroups(gs: seq<Group>, m: ChatMessage): seq<Group> {
    match m.role
    case System => gs
    case Tool =>
      if InRun(gs) then gs[|gs| - 1 := Results(gs[|gs| - 1].ms + [m])] else gs + [Results([m])]
    case _ => gs + [Turn(m)]
  }

  predicate InRun(gs: seq<Group>) { gs != [] && gs[|gs| - 1].Results? }

  lemma GroupsGrow(msgs: seq<ChatMessage>, m: ChatMessage)
    ensures Groups(msgs + [m]) == AddToGroups(Groups(msgs), m)
  {
    assert (msgs + [m])[..|msgs|] == msgs;
  }

  /** A turn is said by its own side with nothing added or left out but empty text, thinking before its calls; a run
      of results has one block per result. */
  ghost predicate Renders(c: ClaudeMessage, g: Group, parse: string -> Option<string>) {
    match g
    case Turn(m) =>
      && c.fromUser == !m.role.Assistant?
      && Only(BlocksTrace(c.fromUser, c.content), Audible) == DecodeInputs(Only(MessageEvents(m), NotSystem), parse)
      && BlockThought(c.content) == ThoughtOf(m)
      && (m.role.Assistant? ==> UsesFollow(c.content, m.toolCalls, parse))
    case Results(ms) =>
      && c.fromUser && |c.content| == |ms|
      && forall i | 0 <= i < |ms| :: IsResultOf(c.content[i], ms[i])
  }

  predicate IsResultOf(b: Block, m: ChatMessage) {
    b.ToolResult? && b.callId == m.toolCallId && b.text == m.content
  }

  ghost predicate RendersAll(ms: seq<ClaudeMessage>, gs: seq<Group>, parse: string -> Option<string>) {
    |ms| == |gs| && forall k | 0 <= k < |ms| :: Renders(ms[k], gs[k], parse)
  }

  /** The loop so far, pending results counted as the message they will become. */
  ghost predicate Grouped(out: seq<ClaudeMessage>, pending: seq<Block>, msgs: seq<ChatMessage>, parse: string -> Option<string>) {
    RendersAll(Flushed(out, pending), Groups(msgs), parse) && (pending != [] <==> InRun(Groups(msgs)))
  }

  lemma TurnGroups(out: seq<ClaudeMessage>, pending: seq<Block>, msgs: seq<ChatMessage>, parse: string -> Option<string>,
                   m: ChatMessage, c: ClaudeMessage)
    requires Grouped(out, pending, msgs, parse) && !m.role.System? && !m.role.Tool? && Renders(c, Turn(m), parse)
    ensures Grouped(Flushed(out, pending) + [c], [], msgs + [m], parse)
  {
    hide Renders, Groups;
    GroupsGrow(msgs, m);
  }

  lemma SystemGroups(out: seq<ClaudeMessage>, pending: seq<Block>, msgs: seq<ChatMessage>, parse: string -> Option<string>,
                     m: ChatMessage)
    requires Grouped(out, pending, msgs, parse) && m.role.System?
    ensures Grouped(out, pending, msgs + [m], parse)
  {
    hide Renders, Groups;
    GroupsGrow(msgs, m);
  }

  lemma ResultGroups(out: seq<ClaudeMessage>, pending: seq<Block>, msgs: seq<ChatMessage>, parse: string -> Option<string>,
                     m: ChatMessage)
    requires Grouped(out, pending, msgs, parse) && m.role.Tool?
    ensures Grouped(out, pending + [ToolResult(m.toolCallId, m.content, false)], msgs + [m], parse)
  {
    var b := ToolResult(m.toolCallId, m.content, false);
    var (gs, gs') := (Groups(msgs), AddToGroups(Groups(msgs), m));
    hide Groups;
    GroupsGrow(msgs, m);
    var (f, f') := (Flushed(out, pending), Flushed(out, pending + [b]));
    forall k | 0 <= k < |f'| ensures Renders(f'[k], gs'[k], parse) {
      if k < |out| {
        assert f'[k] == f[k] && gs'[k] == gs[k];
      } else if pending != [] {
        assert Renders(f[k], gs[k], parse) && f[k] == ClaudeMessage(true, pending);
      }
      hide Only, BlocksTrace, DecodeInputs, MessageEvents, BlockThought, ThoughtOf;
    }
  }

  lemma UsesGrow(bs: seq<Block>, b: Block)
    ensures UseIds(bs + [b]) == UseIds(bs) + if b.ToolUse? then [b.id] else []
  {
    assert (bs + [b])[..|bs|] == bs;
  }

  lemma {:induction false} NoUses(bs: seq<Block>)
    requires forall b | b in bs :: !b.ToolUse?
    ensures UseIds(bs) == []
  {
    if bs != [] {
      assert bs[|bs| - 1] in bs;
      NoUses(bs[..|bs| - 1]);
    }
  }

  lemma ThoughtsGrow(msgs: seq<ChatMessage>, m: ChatMessage)
    ensures Thoughts(msgs + [m]) == Thoughts(msgs) + ThoughtOf(m)
  {
    assert (msgs + [m])[..|msgs|] == msgs;
  }

  lemma ClaudeThoughtsGrow(ms: seq<ClaudeMessage>, c: ClaudeMessage)
    ensures ClaudeThoughts(ms + [c]) == ClaudeThoughts(ms) + BlockThought(c.content)
  {
    assert (ms + [c])[..|ms|] == ms;
  }

  lemma FlushThinks(out: seq<ClaudeMessage>, pending: seq<Block>)
    requires forall b | b in pending :: b.ToolResult?
    ensures ClaudeThoughts(Flushed(out, pending)) == ClaudeThoughts(out)
  {
    if pending != [] {
      assert pending[0] in pending;
      ClaudeThoughtsGrow(out, ClaudeMessage(true, pending));
    }
  }

  /** Every message is good, and no two results messages stand side by side: each run is one message. */
  predicate WellFormed(ms: seq<ClaudeMessage>) {
    && (forall i | 0 <= i < |ms| :: GoodMessage(ms[i]))
    && (forall i | 0 < i < |ms| :: !(IsResults(ms[i - 1]) && IsResults(ms[i])))
  }

  predicate NoMarks(bs: seq<Block>) { forall b | b in bs :: b.Thinking? || !b.cached }

  lemma {:induction false} BlocksConcat(u: bool, a: seq<Block>, b: seq<Block>)
    ensures BlocksTrace(u, a + b) == BlocksTrace(u, a) + BlocksTrace(u, b)
  {
    hide BlockEvents;
    if b == [] {
      assert a + b == a;
    } else {
      var (front, last) := (b[..|b| - 1], b[|b| - 1]);
      BlocksConcat(u, a, front);
      assert (a + b)[..|a + b| - 1] == a + front && (a + b)[|a + b| - 1] == last;
      assert BlocksTrace(u, a + b) == BlocksTrace(u, a + front) + BlockEvents(u, last);
      assert BlocksTrace(u, b) == BlocksTrace(u, front) + BlockEvents(u, last);
    }
  }

  lemma ClaudeAppend(ms: seq<ClaudeMessage>, m: ClaudeMessage)
    ensures ClaudeTrace(ms + [m]) == ClaudeTrace(ms) + BlocksTrace(m.fromUser, m.content)
  {
    assert (ms + [m])[..|ms|] == ms;
  }

  lemma DecodeGrows(es: seq<Event>, c: ToolCall, parse: string -> Option<string>)
    ensures DecodeInputs(es + [Called(c.id, c.name, c.args)], parse)
         == DecodeInputs(es, parse) + [Called(c.id, c.name, Decode(parse, c.args))]
  {
  }

  /** Complete thinking, unchanged, at the front and nowhere else; nothing marked, no results. */
  predicate TurnShape(blocks: seq<Block>, m: ChatMessage) {
    && NoMarks(blocks) && (forall b | b in blocks :: !b.ToolResult?)
    && (blocks != [] && blocks[0].Thinking? <==> m.thinking != "" && m.signature != "")
    && (forall i | 0 <= i < |blocks| && blocks[i].Thinking? :: i == 0 && blocks[i] == Thinking(m.thinking, m.signature))
  }

  function TurnText(m: ChatMessage): seq<Event> { if m.content != "" then [Said(ByAssistant, m.content)] else [] }

  /** The blocks say the turn's text and its first j calls. */
  ghost predicate TurnSaid(blocks: seq<Block>, m: ChatMessage, j: nat, parse: string -> Option<string>)
    requires j <= |m.toolCalls|
  {
    && BlocksTrace(false, blocks) == DecodeInputs(TurnText(m) + CallEvents(m.toolCalls[..j]), parse)
    && UseIds(blocks) == CallIds(m.toolCalls[..j])
  }

  lemma UseAdded(blocks: seq<Block>, m: ChatMessage, j: nat, parse: string -> Option<string>, b: Block)
    requires TurnShape(blocks, m) && j < |m.toolCalls| && TurnSaid(blocks, m, j, parse)
    requires var tc := m.toolCalls[j]; b == ToolUse(tc.id, tc.name, Decode(parse, tc.args), false)
    ensures TurnShape(blocks + [b], m) && TurnSaid(blocks + [b], m, j + 1, parse)
  {
    ShapeStays(blocks, m, b);
    hide TurnShape;
    var tc := m.toolCalls[j];
    CallsGrow(m.toolCalls, j);
    BlocksConcat(false, blocks, [b]);
    BlocksOne(false, b);
    UsesGrow(blocks, b);
    DecodeGrows(TurnText(m) + CallEvents(m.toolCalls[..j]), tc, parse);
    hide BlocksTrace, DecodeInputs, UseIds, CallEvents, CallIds, TurnText, Decode;
    assert TurnText(m) + CallEvents(m.toolCalls[..j + 1])
        == TurnText(m) + CallEvents(m.toolCalls[..j]) + [Called(tc.id, tc.name, tc.args)];
  }

  lemma CallsGrow(calls: seq<ToolCall>, j: nat)
    requires j < |calls|
    ensures CallEvents(calls[..j + 1]) == CallEvents(calls[..j]) + [Called(calls[j].id, calls[j].name, calls[j].args)]
    ensures CallIds(calls[..j + 1]) == CallIds(calls[..j]) + [calls[j].id]
  {
    assert calls[..j + 1][..j] == calls[..j];
  }

  lemma ShapeStays(blocks: seq<Block>, m: ChatMessage, b: Block)
    requires TurnShape(blocks, m) && b.ToolUse? && !b.cached
    ensures TurnShape(blocks + [b], m)
  {
  }

  lemma HeadSaid(blocks: seq<Block>, m: ChatMessage, parse: string -> Option<string>)
    requires BlocksTrace(false, blocks) == DecodeInputs(TurnText(m), parse) && forall b | b in blocks :: !b.ToolUse?
    ensures TurnSaid(blocks, m, 0, parse) && UsesFollow(blocks, m.toolCalls[..0], parse)
  {
    NoUses(blocks);
    assert TurnText(m) + CallEvents(m.toolCalls[..0]) == TurnText(m);
  }

  /** The tool_use block of a call: its id and name, and as input the parsed value of its arguments, or an empty object
      when they are blank or do not parse. */
  predicate UseOf(b: Block, c: ToolCall, parse: string -> Option<string>) {
    && b.ToolUse? && b.id == c.id && b.name == c.name
    && b.input == if !AllSpace(c.args) && parse(c.args).Some? then parse(c.args).value else "{}"
  }

  /** The last blocks are the calls' own, in order. */
  ghost predicate UsesFollow(blocks: seq<Block>, calls: seq<ToolCall>, parse: string -> Option<string>) {
    |blocks| >= |calls| && forall k | 0 <= k < |calls| :: UseOf(blocks[|blocks| - |calls| + k], calls[k], parse)
  }

  lemma CallIsUsed(blocks: seq<Block>, calls: seq<ToolCall>, j: nat, parse: string -> Option<string>)
    requires j < |calls| && UsesFollow(blocks, calls[..j], parse)
    ensures UsesFollow(blocks + [ToolUse(calls[j].id, calls[j].name, Decode(parse, calls[j].args), false)], calls[..j + 1], parse)
  {
    var b := ToolUse(calls[j].id, calls[j].name, Decode(parse, calls[j].args), false);
    DecodeYields(parse, calls[j].args);
    assert UseOf(b, calls[j], parse);
    hide Decode, UseOf;
    var (front, all) := (calls[..j], calls[..j + 1]);
    forall k | 0 <= k < j + 1 ensures UseOf((blocks + [b])[|blocks| - j + k], all[k], parse) {
      assert k < j ==> all[k] == front[k] && (blocks + [b])[|blocks| - j + k] == blocks[|blocks| - j + k];
    }
  }

  lemma MarkKeepsUses(blocks: seq<Block>, calls: seq<ToolCall>, parse: string -> Option<string>)
    requires blocks != [] && UsesFollow(blocks, calls, parse)
    ensures UsesFollow(blocks[|blocks| - 1 := Mark(Last(blocks))], calls, parse)
  {
    var blocks' := blocks[|blocks| - 1 := Mark(Last(blocks))];
    forall k | 0 <= k < |calls| ensures UseOf(blocks'[|blocks| - |calls| + k], calls[k], parse) {
      assert UseOf(blocks[|blocks| - |calls| + k], calls[k], parse);
    }
  }

  /** Thinking first if it is complete, then the text if there is any. */
  method HeadBlocks(m: ChatMessage, parse: string -> Option<string>) returns (blocks: seq<Block>)
    ensures BlocksTrace(false, blocks) == DecodeInputs(TurnText(m), parse)
    ensures TurnShape(blocks, m) && forall b | b in blocks :: !b.ToolUse?
  {
    blocks := [];
    if m.thinking != "" && m.signature != "" {
      BlocksOne(false, Thinking(m.thinking, m.signature));
      blocks := blocks + [Thinking(m.thinking, m.signature)];
    }
    assert BlocksTrace(false, blocks) == [];
    if m.content != "" {
      BlocksConcat(false, blocks, [TextBlock(m.content, false)]);
      BlocksOne(false, TextBlock(m.content, false));
      blocks := blocks + [TextBlock(m.content, false)];
    }
  }

  /** The content of an assistant turn with tool calls: thinking, text, then one tool_use per call in order. */
  method AssistantBlocks(m: ChatMessage, parse: string -> Option<string>) returns (blocks: seq<Block>)
    requires m.toolCalls != []
    ensures BlocksTrace(false, blocks) == DecodeInputs(TurnText(m) + CallEvents(m.toolCalls), parse)
    ensures TurnShape(blocks, m) && blocks != [] && blocks[|blocks| - 1].ToolUse?
    ensures UseIds(blocks) == CallIds(m.toolCalls)
    ensures UsesFollow(blocks, m.toolCalls, parse)
  {
    hide TurnShape, TurnSaid, UsesFollow, BlocksTrace, DecodeInputs, CallEvents, CallIds, UseIds, TurnText;
    blocks := HeadBlocks(m, parse);
    HeadSaid(blocks, m, parse);
    for j := 0 to |m.toolCalls|
      invariant TurnShape(blocks, m) && TurnSaid(blocks, m, j, parse) && UsesFollow(blocks, m.toolCalls[..j], parse)
      invariant j > 0 ==> blocks != [] && blocks[|blocks| - 1].ToolUse?
    {
      var tc := m.toolCalls[j];
      var b := ToolUse(tc.id, tc.name, Decode(parse, tc.args), false);
      CallIsUsed(blocks, m.toolCalls, j, parse);
      UseAdded(blocks, m, j, parse, b);
      blocks := blocks + [b];
    }
    assert m.toolCalls[..|m.toolCalls|] == m.toolCalls;
    AllSaid(blocks, m, parse);
  }

  lemma AllSaid(blocks: seq<Block>, m: ChatMessage, parse: string -> Option<string>)
    requires TurnSaid(blocks, m, |m.toolCalls|, parse)
    ensures BlocksTrace(false, blocks) == DecodeInputs(TurnText(m) + CallEvents(m.toolCalls), parse)
    ensures UseIds(blocks) == CallIds(m.toolCalls)
  {
    assert m.toolCalls[..|m.toolCalls|] == m.toolCalls;
  }

  predicate HasRole(msgs: seq<ChatMessage>, system: bool) { exists m | m in msgs :: m.role.System? == system }

  /** What Claude's messages must say: everything but the system messages, inputs decoded. */
  function Target(msgs: seq<ChatMessage>, parse: string -> Option<string>): seq<Event> {
    DecodeInputs(Only(Meaning(msgs), NotSystem), parse)
  }

  lemma DecodeConcat(a: seq<Event>, b: seq<Event>, parse: string -> Option<string>)
    ensures DecodeInputs(a + b, parse) == DecodeInputs(a, parse) + DecodeInputs(b, parse)
  {
    hide Decode;
  }

  lemma TargetGrows(msgs: seq<ChatMessage>, m: ChatMessage, parse: string -> Option<string>)
    ensures Target(msgs + [m], parse) == Target(msgs, parse) + DecodeInputs(Only(MessageEvents(m), NotSystem), parse)
  {
    MeaningGrows(msgs, m);
    OnlyConcat(Meaning(msgs), MessageEvents(m), NotSystem);
    DecodeConcat(Only(Meaning(msgs), NotSystem), Only(MessageEvents(m), NotSystem), parse);
    hide Only, Meaning, MessageEvents, DecodeInputs;
  }

  /** What the loop has after some of the history, finished messages and pending results: what they say, ... */
  ghost predicate Says(out: seq<ClaudeMessage>, pending: seq<Block>, msgs: seq<ChatMessage>, parse: string -> Option<string>) {
    Only(ClaudeTrace(out) + BlocksTrace(true, pending), Audible) == Target(msgs, parse)
  }

  /** ... and how they are shaped. */
  predicate Shaped(out: seq<ClaudeMessage>, pending: seq<Block>, some: bool) {
    && WellFormed(out) && (out != [] ==> !IsResults(out[|out| - 1]))
    && (forall b | b in pending :: b.ToolResult?) && NoMarks(pending)
    && (forall i | 0 <= i < |out| :: NoMarks(out[i].content))
    && (out != [] || pending != [] <==> some)
  }

  function Flushed(out: seq<ClaudeMessage>, pending: seq<Block>): seq<ClaudeMessage> {
    if pending != [] then out + [ClaudeMessage(true, pending)] else out
  }

  lemma FlushSays(out: seq<ClaudeMessage>, pending: seq<Block>)
    ensures ClaudeTrace(Flushed(out, pending)) == ClaudeTrace(out) + BlocksTrace(true, pending)
  {
    if pending != [] {
      ClaudeAppend(out, ClaudeMessage(true, pending));
    } else {
      assert ClaudeTrace(out) + [] == ClaudeTrace(out);
    }
  }

  lemma FlushShaped(out: seq<ClaudeMessage>, pending: seq<Block>, some: bool)
    requires Shaped(out, pending, some)
    ensures var f := Flushed(out, pending);
            WellFormed(f) && (forall i | 0 <= i < |f| :: NoMarks(f[i].content)) && (f != [] <==> some)
  {
    var f := Flushed(out, pending);
    if pending != [] {
      ResultsAreGood(pending);
      hide GoodMessage, IsResults, NoMarks;
      assert f[|out|] == ClaudeMessage(true, pending) && forall i | 0 <= i < |out| :: f[i] == out[i];
    }
  }

  lemma ResultsAreGood(bs: seq<Block>)
    requires bs != [] && forall b | b in bs :: b.ToolResult?
    ensures GoodMessage(ClaudeMessage(true, bs)) && IsResults(ClaudeMessage(true, bs))
  {
    assert bs[|bs| - 1] in bs;
  }

  /** One more finished message after a flush. */
  lemma TurnSays(out: seq<ClaudeMessage>, pending: seq<Block>, msgs: seq<ChatMessage>, parse: string -> Option<string>,
                 m: ChatMessage, c: ClaudeMessage)
    requires Says(out, pending, msgs, parse)
    requires Only(BlocksTrace(c.fromUser, c.content), Audible) == DecodeInputs(Only(MessageEvents(m), NotSystem), parse)
    ensures Says(Flushed(out, pending) + [c], [], msgs + [m], parse)
  {
    hide Only, Target, DecodeInputs, MessageEvents, Flushed, ClaudeTrace;
    var f := Flushed(out, pending);
    FlushSays(out, pending);
    ClaudeAppend(f, c);
    TargetGrows(msgs, m, parse);
    OnlyConcat(ClaudeTrace(f), BlocksTrace(c.fromUser, c.content), Audible);
    assert ClaudeTrace(f + [c]) + BlocksTrace(true, []) == ClaudeTrace(f + [c]);
  }

  lemma TurnShaped(out: seq<ClaudeMessage>, pending: seq<Block>, some: bool, c: ClaudeMessage)
    requires Shaped(out, pending, some)
    requires GoodMessage(c) && !IsResults(c) && NoMarks(c.content)
    ensures Shaped(Flushed(out, pending) + [c], [], true)
  {
    FlushShaped(out, pending, some);
  }

  lemma ResultSays(out: seq<ClaudeMessage>, pending: seq<Block>, msgs: seq<ChatMessage>, parse: string -> Option<string>,
                   m: ChatMessage)
    requires Says(out, pending, msgs, parse) && m.role.Tool?
    ensures Says(out, pending + [ToolResult(m.toolCallId, m.content, false)], msgs + [m], parse)
  {
    var b := ToolResult(m.toolCallId, m.content, false);
    var e := Returned(m.toolCallId, m.content);
    BlocksOne(true, b);
    OnlyOne(e, Audible);
    OnlyOne(e, NotSystem);
    hide Only, Target, ClaudeTrace, BlocksTrace;
    TargetGrows(msgs, m, parse);
    BlocksConcat(true, pending, [b]);
    var before := ClaudeTrace(out) + BlocksTrace(true, pending);
    OnlyConcat(before, [e], Audible);
    assert ClaudeTrace(out) + BlocksTrace(true, pending + [b]) == before + [e];
  }

  lemma SystemSays(out: seq<ClaudeMessage>, pending: seq<Block>, msgs: seq<ChatMessage>, parse: string -> Option<string>,
                   m: ChatMessage)
    requires Says(out, pending, msgs, parse) && m.role.System?
    ensures Says(out, pending, msgs + [m], parse)
  {
    OnlyOne(Said(BySystem, m.content), NotSystem);
    hide Only, Target;
    TargetGrows(msgs, m, parse);
    assert Target(msgs, parse) + [] == Target(msgs, parse);
  }

  lemma BlocksOne(u: bool, b: Block)
    ensures BlocksTrace(u, [b]) == BlockEvents(u, b)
  {
    assert [b][..0] == [];
  }

  lemma TextTurn(who: Speaker, t: string, parse: string -> Option<string>)
    requires !who.BySystem?
    ensures BlocksTrace(who.ByUser?, [TextBlock(t, false)]) == [Said(who, t)]
    ensures Only([Said(who, t)], Audible) == DecodeInputs(Only(if who.ByUser? || t != "" then [Said(who, t)] else [], NotSystem), parse)
  {
    BlocksOne(who.ByUser?, TextBlock(t, false));
    OnlyOne(Said(who, t), Audible);
    OnlyOne(Said(who, t), NotSystem);
  }

  lemma CallTurn(m: ChatMessage, blocks: seq<Block>, parse: string -> Option<string>)
    requires m.role.Assistant?
    requires BlocksTrace(false, blocks) == DecodeInputs(TurnText(m) + CallEvents(m.toolCalls), parse)
    ensures Only(BlocksTrace(false, blocks), Audible) == DecodeInputs(Only(MessageEvents(m), NotSystem), parse)
  {
    hide Only, BlocksTrace, CallEvents, DecodeInputs, Audible, NotSystem;
    var es := TurnText(m) + CallEvents(m.toolCalls);
    assert MessageEvents(m) == es;
    hide MessageEvents, TurnText;
    TurnIsAudible(m);
    NothingSilent(es, parse);
  }

  /** An assistant turn says nothing silent and nothing of the system's. */
  lemma TurnIsAudible(m: ChatMessage)
    ensures var es := TurnText(m) + CallEvents(m.toolCalls);
            Only(es, NotSystem) == es && forall e | e in es :: Audible(e)
  {
    OnlyOne(Said(ByAssistant, m.content), NotSystem);
    CallsAreKept(m.toolCalls);
    CallsSpeak(m.toolCalls);
    OnlyConcat(TurnText(m), CallEvents(m.toolCalls), NotSystem);
    hide Only, CallEvents;
  }

  lemma {:induction false} CallsSpeak(calls: seq<ToolCall>)
    ensures forall e | e in CallEvents(calls) :: e.Called?
  {
    if calls != [] {
      CallsSpeak(calls[..|calls| - 1]);
    }
  }

  lemma {:induction false} NothingSilent(es: seq<Event>, parse: string -> Option<string>)
    requires forall e | e in es :: Audible(e)
    ensures Only(DecodeInputs(es, parse), Audible) == DecodeInputs(es, parse)
  {
    var ds := DecodeInputs(es, parse);
    if es != [] {
      var front := es[..|es| - 1];
      assert forall e | e in front :: e in es;
      NothingSilent(front, parse);
      assert ds[..|ds| - 1] == DecodeInputs(front, parse);
      assert es[|es| - 1] in es;
    }
  }

  lemma TextIsGood(fromUser: bool, t: string)
    ensures var c := ClaudeMessage(fromUser, [TextBlock(t, false)]);
            GoodMessage(c) && !IsResults(c) && NoMarks(c.content) && BlockThought(c.content) == []
  {
    var bs := [TextBlock(t, false)];
    assert bs[0] in bs;
    hide UseIds;
  }

  lemma CallsAreGood(m: ChatMessage, blocks: seq<Block>)
    requires m.role.Assistant? && m.toolCalls != [] && TurnShape(blocks, m) && blocks != [] && blocks[|blocks| - 1].ToolUse?
    requires UseIds(blocks) == CallIds(m.toolCalls)
    ensures var c := ClaudeMessage(false, blocks);
            GoodMessage(c) && !IsResults(c) && NoMarks(c.content) && BlockThought(c.content) == ThoughtOf(m)
  {
    hide UseIds, CallIds;
  }

  lemma NoThoughtOf(m: ChatMessage)
    requires !m.role.Assistant? || m.toolCalls == []
    ensures ThoughtOf(m) == []
  {
  }

  lemma PlainMeaning(m: ChatMessage)
    requires !m.role.System? && !m.role.Tool? && (m.role.Assistant? ==> m.toolCalls == [])
    ensures var who := if m.role.Assistant? then ByAssistant else ByUser;
            MessageEvents(m) == if who.ByUser? || m.content != "" then [Said(who, m.content)] else []
  {
    assert CallEvents([]) == [];
  }

  /** One turn of the loop for an assistant or user message: the finished message it appends. */
  method BuildTurn(m: ChatMessage, parse: string -> Option<string>) returns (c: ClaudeMessage)
    requires !m.role.System? && !m.role.Tool?
    ensures Only(BlocksTrace(c.fromUser, c.content), Audible) == DecodeInputs(Only(MessageEvents(m), NotSystem), parse)
    ensures GoodMessage(c) && !IsResults(c) && NoMarks(c.content)
    ensures BlockThought(c.content) == ThoughtOf(m) && c.fromUser == !m.role.Assistant?
    ensures m.role.Assistant? ==> UsesFollow(c.content, m.toolCalls, parse)
  {
    assert m.toolCalls == [] ==> UsesFollow([TextBlock(m.content, false)], m.toolCalls, parse);
    hide UsesFollow, Only, BlocksTrace, DecodeInputs, MessageEvents, GoodMessage, IsResults, NoMarks, BlockThought, ThoughtOf;
    hide TurnShape, UseIds, CallIds;
    if !m.role.Assistant? {
      NoThoughtOf(m);
      PlainMeaning(m);
      TextTurn(ByUser, m.content, parse);
      TextIsGood(true, m.content);
      return ClaudeMessage(true, [TextBlock(m.content, false)]);
    }
    if |m.toolCalls| > 0 {
      var blocks := AssistantBlocks(m, parse);
      CallTurn(m, blocks, parse);
      CallsAreGood(m, blocks);
      return ClaudeMessage(false, blocks);
    }
    NoThoughtOf(m);
    PlainMeaning(m);
    TextTurn(ByAssistant, m.content, parse);
    TextIsGood(false, m.content);
    c := ClaudeMessage(false, [TextBlock(m.content, false)]);
  }

  /** The loop of claudeBuildMessages and its last flush, before the cache mark. */
  method BuildHistory(msgs: seq<ChatMessage>, parse: string -> Option<string>) returns (out: seq<ClaudeMessage>)
    ensures Only(ClaudeTrace(out), Audible) == Target(msgs, parse)
    ensures WellFormed(out) && forall i | 0 <= i < |out| :: NoMarks(out[i].content)
    ensures out != [] <==> HasRole(msgs, false)
    ensures ClaudeThoughts(out) == Thoughts(msgs) && RendersAll(out, Groups(msgs), parse)
  {
    hide Only, Target, ClaudeTrace, BlocksTrace, GoodMessage, DecodeInputs, MessageEvents;
    hide Thinks, Shaped, Says, Grouped, RendersAll, Groups, Flushed, BlockThought, ThoughtOf, HasRole;
    out := [];
    var pending: seq<Block> := [];
    NothingYet(parse);
    NothingShaped();
    NothingGrouped(parse);
    NoRoles();
    for i := 0 to |msgs|
      invariant Says(out, pending, msgs[..i], parse)
      invariant Shaped(out, pending, HasRole(msgs[..i], false))
      invariant Thinks(out, msgs[..i]) && Grouped(out, pending, msgs[..i], parse)
    {
      var m := msgs[i];
      assert msgs[..i + 1] == msgs[..i] + [m];
      RoleGrows(msgs[..i], m);
      match m.role {
        case System =>
          SystemSays(out, pending, msgs[..i], parse, m);
          QuietThinks(out, msgs[..i], m);
          SystemGroups(out, pending, msgs[..i], parse, m);
        case Tool =>
          ResultGroups(out, pending, msgs[..i], parse, m);
          QuietThinks(out, msgs[..i], m);
          ResultShaped(out, pending, HasRole(msgs[..i], false), ToolResult(m.toolCallId, m.content, false));
          ResultSays(out, pending, msgs[..i], parse, m);
          pending := pending + [ToolResult(m.toolCallId, m.content, false)];
        case _ =>
          var c := BuildTurn(m, parse);
          TurnSays(out, pending, msgs[..i], parse, m, c);
          TurnShaped(out, pending, HasRole(msgs[..i], false), c);
          TurnThinks(out, pending, msgs[..i], HasRole(msgs[..i], false), m, c);
          TurnGroups(out, pending, msgs[..i], parse, m, c);
          out, pending := Flushed(out, pending) + [c], [];
      }
    }
    assert msgs[..|msgs|] == msgs;
    FlushedSays(out, pending, msgs, parse);
    FlushShaped(out, pending, HasRole(msgs, false));
    FlushedThinks(out, pending, msgs, HasRole(msgs, false));
    FlushedGroups(out, pending, msgs, parse);
    out := Flushed(out, pending);
  }

  /** The thinking so far stands before exactly its own calls. */
  ghost predicate Thinks(out: seq<ClaudeMessage>, msgs: seq<ChatMessage>) { ClaudeThoughts(out) == Thoughts(msgs) }

  lemma QuietThinks(out: seq<ClaudeMessage>, msgs: seq<ChatMessage>, m: ChatMessage)
    requires Thinks(out, msgs) && !m.role.Assistant?
    ensures Thinks(out, msgs + [m])
  {
    ThoughtsGrow(msgs, m);
  }

  lemma FlushedSays(out: seq<ClaudeMessage>, pending: seq<Block>, msgs: seq<ChatMessage>, parse: string -> Option<string>)
    requires Says(out, pending, msgs, parse)
    ensures Only(ClaudeTrace(Flushed(out, pending)), Audible) == Target(msgs, parse)
  {
    FlushSays(out, pending);
  }

  lemma FlushedThinks(out: seq<ClaudeMessage>, pending: seq<Block>, msgs: seq<ChatMessage>, some: bool)
    requires Thinks(out, msgs) && Shaped(out, pending, some)
    ensures ClaudeThoughts(Flushed(out, pending)) == Thoughts(msgs)
  {
    FlushThinks(out, pending);
  }

  lemma TurnThinks(out: seq<ClaudeMessage>, pending: seq<Block>, msgs: seq<ChatMessage>, some: bool, m: ChatMessage,
                   c: ClaudeMessage)
    requires Thinks(out, msgs) && Shaped(out, pending, some) && BlockThought(c.content) == ThoughtOf(m)
    ensures Thinks(Flushed(out, pending) + [c], msgs + [m])
  {
    FlushThinks(out, pending);
    ClaudeThoughtsGrow(Flushed(out, pending), c);
    ThoughtsGrow(msgs, m);
  }

  lemma ResultShaped(out: seq<ClaudeMessage>, pending: seq<Block>, some: bool, b: Block)
    requires Shaped(out, pending, some) && b.ToolResult? && !b.cached
    ensures Shaped(out, pending + [b], true)
  {
    hide WellFormed, IsResults;
  }

  lemma FlushedGroups(out: seq<ClaudeMessage>, pending: seq<Block>, msgs: seq<ChatMessage>, parse: string -> Option<string>)
    requires Grouped(out, pending, msgs, parse)
    ensures RendersAll(Flushed(out, pending), Groups(msgs), parse)
  {
  }

  lemma NothingGrouped(parse: string -> Option<string>)
    ensures Grouped([], [], [], parse)
  {
  }

  lemma NoRoles()
    ensures !HasRole([], false)
  {
  }

  lemma NothingShaped()
    ensures Shaped([], [], false) && Thinks([], [])
  {
  }

  lemma NothingYet(parse: string -> Option<string>)
    ensures Says([], [], [], parse)
  {
    assert ClaudeTrace([]) + BlocksTrace(true, []) == [];
  }

  lemma RoleGrows(msgs: seq<ChatMessage>, m: ChatMessage)
    ensures HasRole(msgs + [m], false) <==> HasRole(msgs, false) || !m.role.System?
    ensures HasRole(msgs + [m], true) <==> HasRole(msgs, true) || m.role.System?
  {
    assert forall x :: x in msgs + [m] <==> x in msgs || x == m;
  }

  /** claudeBuildMessages: the whole non-system conversation in order, each run of tool results merged into one
      user message, no empty message, complete thinking before exactly the calls it belongs to, and one cache mark, on
      the very last block, unless there is nothing. */
  method BuildClaude(msgs: seq<ChatMessage>, parse: string -> Option<string>) returns (out: seq<ClaudeMessage>)
    ensures Only(ClaudeTrace(out), Audible) == Target(msgs, parse)
    ensures WellFormed(out) && ClaudeThoughts(out) == Thoughts(msgs)
    ensures RendersAll(out, Groups(msgs), parse)
    ensures AllPlain(parse, msgs) ==> Only(ClaudeTrace(out), Audible) == Only(Meaning(msgs), NotSystem)
    ensures out != [] <==> HasRole(msgs, false)
    ensures MarkCount(out) == (if out != [] then 1 else 0)
    ensures out != [] ==> out[|out| - 1].content != [] && IsMarked(Last(out[|out| - 1].content))
  {
    hide Only, Target, ClaudeTrace, WellFormed, MarkCount, MarkLast, ClaudeThoughts, RendersAll;
    if AllPlain(parse, msgs) {
      PlainTarget(msgs, parse);
    }
    hide Meaning, AllPlain;
    out := BuildHistory(msgs, parse);
    MarkKeepsWords(out);
    MarkKeepsThoughts(out);
    MarkKeepsGroups(out, Groups(msgs), parse);
    MarkKeepsShape(out);
    MarkIsOne(out);
    var a := new ClaudeMessage[|out|](i requires 0 <= i < |out| => out[i]);
    assert a[..] == out;
    MarkHistoryCache(a);
    out := a[..];
  }

  // ---------- cache marks ----------

  function Last(bs: seq<Block>): Block
    requires bs != []
  {
    bs[|bs| - 1]
  }

  predicate IsMarked(b: Block) { !b.Thinking? && b.cached }

  function BlockMarks(bs: seq<Block>): nat {
    if bs == [] then 0 else BlockMarks(bs[..|bs| - 1]) + if IsMarked(Last(bs)) then 1 else 0
  }

  function MarkCount(ms: seq<ClaudeMessage>): nat {
    if ms == [] then 0 else MarkCount(ms[..|ms| - 1]) + BlockMarks(ms[|ms| - 1].content)
  }

  function Mark(b: Block): Block { if b.Thinking? then b else b.(cached := true) }

  function MarkLast(ms: seq<ClaudeMessage>): seq<ClaudeMessage> {
    if ms == [] || ms[|ms| - 1].content == [] then ms
    else
      var (m, k) := (ms[|ms| - 1], |ms| - 1);
      ms[k := m.(content := m.content[|m.content| - 1 := Mark(Last(m.content))])]
  }

  /** claudeMarkHistoryCache writes the mark through to the last block of the last message. */
  method MarkHistoryCache(msgs: array<ClaudeMessage>)
    modifies msgs
    ensures msgs[..] == MarkLast(old(msgs[..]))
  {
    if msgs.Length == 0 {
      return;
    }
    var blocks := msgs[msgs.Length - 1].content;
    if |blocks| == 0 {
      return;
    }
    var b := blocks[|blocks| - 1];
    if !b.Thinking? {
      b := b.(cached := true);
    }
    msgs[msgs.Length - 1] := msgs[msgs.Length - 1].(content := blocks[|blocks| - 1 := b]);
  }

  lemma {:induction false} NoBlockMarks(bs: seq<Block>)
    requires NoMarks(bs)
    ensures BlockMarks(bs) == 0
  {
    if bs != [] {
      assert bs[|bs| - 1] in bs;
      NoBlockMarks(bs[..|bs| - 1]);
    }
  }

  lemma {:induction false} NoMessageMarks(ms: seq<ClaudeMessage>)
    requires forall i | 0 <= i < |ms| :: NoMarks(ms[i].content)
    ensures MarkCount(ms) == 0
  {
    if ms != [] {
      NoBlockMarks(ms[|ms| - 1].content);
      NoMessageMarks(ms[..|ms| - 1]);
    }
  }

  /** Marking changes nothing that is said, ... */
  lemma MarkKeepsWords(ms: seq<ClaudeMessage>)
    ensures ClaudeTrace(MarkLast(ms)) == ClaudeTrace(ms)
  {
    if ms != [] && ms[|ms| - 1].content != [] {
      var (r, bs) := (MarkLast(ms), ms[|ms| - 1].content);
      var bs' := r[|r| - 1].content;
      assert r[..|r| - 1] == ms[..|ms| - 1];
      assert bs'[..|bs'| - 1] == bs[..|bs| - 1];
    }
  }

  lemma MarkKeepsThought(bs: seq<Block>)
    requires bs != [] && !Last(bs).Thinking?
    ensures BlockThought(bs[|bs| - 1 := Mark(Last(bs))]) == BlockThought(bs)
  {
    var bs' := bs[|bs| - 1 := Mark(Last(bs))];
    assert bs'[..|bs'| - 1] == bs[..|bs| - 1];
  }

  /** ... nor which turns think what, ... */
  lemma MarkKeepsThoughts(ms: seq<ClaudeMessage>)
    requires WellFormed(ms)
    ensures ClaudeThoughts(MarkLast(ms)) == ClaudeThoughts(ms)
  {
    if ms != [] {
      var r := MarkLast(ms);
      assert GoodMessage(ms[|ms| - 1]);
      MarkKeepsThought(ms[|ms| - 1].content);
      assert r[..|r| - 1] == ms[..|ms| - 1];
    }
  }

  lemma MarkKeepsTrace(u: bool, bs: seq<Block>)
    requires bs != []
    ensures BlocksTrace(u, bs[|bs| - 1 := Mark(Last(bs))]) == BlocksTrace(u, bs)
  {
    var bs' := bs[|bs| - 1 := Mark(Last(bs))];
    assert bs'[..|bs'| - 1] == bs[..|bs| - 1];
  }

  lemma MarkKeepsRendering(c: ClaudeMessage, g: Group, parse: string -> Option<string>)
    requires GoodMessage(c) && Renders(c, g, parse)
    ensures Renders(MarkMessage(c), g, parse)
  {
    MarkKeepsThought(c.content);
    MarkKeepsTrace(c.fromUser, c.content);
    if g.Turn? && g.m.role.Assistant? {
      MarkKeepsUses(c.content, g.m.toolCalls, parse);
    }
    hide Only, BlocksTrace, DecodeInputs, MessageEvents, BlockThought, ThoughtOf, UsesFollow;
  }

  lemma LastIsMarked(ms: seq<ClaudeMessage>)
    requires ms != [] && WellFormed(ms)
    ensures GoodMessage(ms[|ms| - 1]) && ms[|ms| - 1].content != []
    ensures MarkLast(ms) == ms[|ms| - 1 := MarkMessage(ms[|ms| - 1])]
  {
    hide IsResults, Mark;
  }

  /** ... nor which message renders what, ... */
  lemma MarkKeepsGroups(ms: seq<ClaudeMessage>, gs: seq<Group>, parse: string -> Option<string>)
    requires WellFormed(ms) && RendersAll(ms, gs, parse)
    ensures RendersAll(MarkLast(ms), gs, parse)
  {
    hide Renders, GoodMessage, IsResults, MarkMessage, WellFormed;
    if ms == [] {
      assert MarkLast(ms) == ms;
    } else {
      LastIsMarked(ms);
      hide MarkLast;
      MarkKeepsRendering(ms[|ms| - 1], gs[|ms| - 1], parse);
    }
  }

  /** ... keeps the shape, ... */
  lemma MarkKeepsShape(ms: seq<ClaudeMessage>)
    requires WellFormed(ms)
    ensures WellFormed(MarkLast(ms)) && |MarkLast(ms)| == |ms|
  {
    if ms != [] {
      var (r, k) := (MarkLast(ms), |ms| - 1);
      MarkKeepsMessage(ms[k]);
      assert r[k] == MarkMessage(ms[k]) && forall i | 0 <= i < k :: r[i] == ms[i];
      assert k > 0 ==> !(IsResults(ms[k - 1]) && IsResults(ms[k]));
    }
  }

  function MarkMessage(m: ClaudeMessage): ClaudeMessage
    requires m.content != []
  {
    m.(content := m.content[|m.content| - 1 := Mark(Last(m.content))])
  }

  lemma MarkKeepsMessage(m: ClaudeMessage)
    requires GoodMessage(m)
    ensures GoodMessage(MarkMessage(m)) && (IsResults(MarkMessage(m)) <==> IsResults(m))
  {
    var (bs, bs') := (m.content, MarkMessage(m).content);
    assert forall i | 0 <= i < |bs| :: bs'[i].ToolResult? <==> bs[i].ToolResult?;
    assert forall i | 0 <= i < |bs| :: bs[i] in bs && bs'[i] in bs';
  }

  lemma MarkIsOneBlock(bs: seq<Block>)
    requires bs != [] && NoMarks(bs) && !Last(bs).Thinking?
    ensures var bs' := bs[|bs| - 1 := Mark(Last(bs))]; BlockMarks(bs') == 1 && IsMarked(Last(bs'))
  {
    var bs' := bs[|bs| - 1 := Mark(Last(bs))];
    assert bs'[..|bs'| - 1] == bs[..|bs| - 1];
    assert forall x | x in bs[..|bs| - 1] :: x in bs;
    NoBlockMarks(bs[..|bs| - 1]);
  }

  /** ... and puts exactly one mark, on the last block. */
  lemma MarkIsOne(ms: seq<ClaudeMessage>)
    requires WellFormed(ms) && forall i | 0 <= i < |ms| :: NoMarks(ms[i].content)
    ensures var r := MarkLast(ms);
            MarkCount(r) == (if ms == [] then 0 else 1)
            && (r != [] ==> r[|r| - 1].content != [] && IsMarked(Last(r[|r| - 1].content)))
  {
    if ms != [] {
      var r := MarkLast(ms);
      assert GoodMessage(ms[|ms| - 1]);
      MarkIsOneBlock(ms[|ms| - 1].content);
      NoMessageMarks(ms[..|ms| - 1]);
      assert r[..|r| - 1] == ms[..|ms| - 1];
      hide BlockMarks;
    }
  }

  // ---------- the whole Claude request ----------

  function SystemTexts(msgs: seq<ChatMessage>): seq<string> {
    if msgs == [] then []
    else SystemTexts(msgs[..|msgs| - 1]) + (if msgs[|msgs| - 1].role.System? then [msgs[|msgs| - 1].content] else [])
  }

  function Texts(es: seq<Event>): seq<string> { seq(|es|, i requires 0 <= i < |es| => if es[i].Said? then es[i].text else "") }

  /** The lifted system texts are exactly the system events of the conversation, in order. */
  lemma {:induction false} LiftedSystemIsTheRest(msgs: seq<ChatMessage>)
    ensures SystemTexts(msgs) == Texts(Only(Meaning(msgs), FromSystem))
  {
    if msgs != [] {
      var (front, m) := (msgs[..|msgs| - 1], msgs[|msgs| - 1]);
      LiftedSystemIsTheRest(front);
      SystemEvents(m);
      hide Only, MessageEvents;
      OnlyConcat(Meaning(front), MessageEvents(m), FromSystem);
    }
  }

  lemma SystemEvents(m: ChatMessage)
    ensures Only(MessageEvents(m), FromSystem) == if m.role.System? then [Said(BySystem, m.content)] else []
  {
    OnlyOne(Said(BySystem, m.content), FromSystem);
    OnlyOne(Said(ByUser, m.content), FromSystem);
    OnlyOne(Said(ByAssistant, m.content), FromSystem);
    OnlyOne(Returned(m.toolCallId, m.content), FromSystem);
    NoSystemCalls(m.toolCalls);
    hide Only, CallEvents;
    if m.role.Assistant? {
      OnlyConcat(if m.content != "" then [Said(ByAssistant, m.content)] else [], CallEvents(m.toolCalls), FromSystem);
    }
  }

  lemma {:induction false} NoSystemCalls(calls: seq<ToolCall>)
    ensures Only(CallEvents(calls), FromSystem) == []
  {
    if calls != [] {
      var c := calls[|calls| - 1];
      NoSystemCalls(calls[..|calls| - 1]);
      OnlyConcat(CallEvents(calls[..|calls| - 1]), [Called(c.id, c.name, c.args)], FromSystem);
    }
  }

  function Join(parts: seq<string>, sep: string): string {
    if parts == [] then ""
    else if |parts| == 1 then parts[0]
    else Join(parts[..|parts| - 1], sep) + sep + parts[|parts| - 1]
  }

  /** The same joined from the front: what is joined is every part with the separator between neighbours. */
  function JoinFromFront(parts: seq<string>, sep: string): string {
    if parts == [] then "" else if |parts| == 1 then parts[0] else parts[0] + sep + JoinFromFront(parts[1..], sep)
  }

  lemma {:induction false} JoinsEitherWay(parts: seq<string>, sep: string)
    ensures Join(parts, sep) == JoinFromFront(parts, sep)
    decreases |parts|
  {
    if |parts| == 2 {
      assert parts[..1] == [parts[0]] && parts[1..] == [parts[1]];
    } else if |parts| > 2 {
      var (front, back) := (parts[..|parts| - 1], parts[1..]);
      var (first, middle, last) := (parts[0], parts[1..|parts| - 1], parts[|parts| - 1]);
      assert front[1..] == middle && back[..|back| - 1] == middle;
      JoinsEitherWay(front, sep);
      JoinsEitherWay(back, sep);
      JoinsEitherWay(middle, sep);
      assert first + sep + JoinFromFront(middle, sep) + sep + last == first + sep + (Join(middle, sep) + sep + last);
    }
  }

  datatype SystemBlock = SystemBlock(text: string, cached: bool)

  /** A tool as offered: its name, what it is for, and the raw JSON schema of its parameters. */
  datatype ToolDefinition = ToolDefinition(name: string, description: string, parameters: string)

  datatype ToolParam = ToolParam(name: string, description: Option<string>, schema: string, cached: bool)

  /** schemaOf is the conversion of a raw schema; a blank description is left out. */
  function ParamOf(t: ToolDefinition, schemaOf: string -> string, cached: bool): ToolParam {
    ToolParam(t.name, if t.description != "" then Some(t.description) else None, schemaOf(t.parameters), cached)
  }

  method BuildSystem(msgs: seq<ChatMessage>, cacheHere: bool) returns (r: Option<SystemBlock>)
    ensures r == if HasRole(msgs, true) then Some(SystemBlock(Join(SystemTexts(msgs), "\n\n"), cacheHere)) else None
  {
    var systems: seq<string> := [];
    for i := 0 to |msgs|
      invariant systems == SystemTexts(msgs[..i])
      invariant systems == [] <==> !HasRole(msgs[..i], true)
    {
      assert msgs[..i + 1] == msgs[..i] + [msgs[i]];
      assert forall m :: m in msgs[..i + 1] <==> m in msgs[..i] || m == msgs[i];
      if msgs[i].role.System? {
        systems := systems + [msgs[i].content];
      }
    }
    assert msgs[..|msgs|] == msgs;
    if |systems| == 0 {
      return None;
    }
    r := Some(SystemBlock(Join(systems, "\n\n"), cacheHere));
  }

  /** claudeBuildTools: every tool in order with all it carries, a mark on the last one only. */
  method BuildTools(tools: seq<ToolDefinition>, schemaOf: string -> string) returns (out: seq<ToolParam>)
    ensures |out| == |tools|
    ensures forall i | 0 <= i < |out| :: out[i] == ParamOf(tools[i], schemaOf, i == |out| - 1)
  {
    out := [];
    if |tools| == 0 {
      return;
    }
    for i := 0 to |tools|
      invariant |out| == i && forall j | 0 <= j < i :: out[j] == ParamOf(tools[j], schemaOf, false)
    {
      var t := tools[i];
      var tool := ToolParam(t.name, None, schemaOf(t.parameters), false);
      if t.description != "" {
        tool := tool.(description := Some(t.description));
      }
      out := out + [tool];
    }
    out := out[|out| - 1 := out[|out| - 1].(cached := true)];
  }

  function ToolMarks(tools: seq<ToolParam>): nat {
    if tools == [] then 0 else ToolMarks(tools[..|tools| - 1]) + if tools[|tools| - 1].cached then 1 else 0
  }

  lemma {:induction false} LastToolMark(tools: seq<ToolParam>)
    requires forall i | 0 <= i < |tools| :: !tools[i].cached
    ensures ToolMarks(tools) == 0
  {
    if tools != [] {
      LastToolMark(tools[..|tools| - 1]);
    }
  }

  /** The request as a whole: one mark for the history, one for the prefix (on the tools if there are any, else on
      the system text), so never more than two. */
  method BuildRequest(msgs: seq<ChatMessage>, offered: seq<ToolDefinition>, parse: string -> Option<string>,
                      schemaOf: string -> string)
    returns (out: seq<ClaudeMessage>, system: Option<SystemBlock>, tools: seq<ToolParam>)
    ensures Only(ClaudeTrace(out), Audible) == Target(msgs, parse)
    ensures system.Some? ==> system.value.text == Join(Texts(Only(Meaning(msgs), FromSystem)), "\n\n")
    ensures system.None? ==> Only(Meaning(msgs), FromSystem) == []
    ensures var systemMark := if system.Some? && system.value.cached then 1 else 0;
            MarkCount(out) + systemMark + ToolMarks(tools)
            == (if HasRole(msgs, false) then 1 else 0) + (if offered != [] || HasRole(msgs, true) then 1 else 0)
  {
    hide Only, ClaudeTrace, Target, Meaning, Join, MarkCount, AllPlain, RendersAll, Groups, WellFormed, ClaudeThoughts,
         Thoughts;
    out := BuildClaude(msgs, parse);
    system := BuildSystem(msgs, |offered| == 0);
    tools := BuildTools(offered, schemaOf);
    LiftedSystemIsTheRest(msgs);
    if system.None? {
      NoSystemTexts(msgs);
      assert |Texts(Only(Meaning(msgs), FromSystem))| == 0;
    }
    if tools != [] {
      LastToolMark(tools[..|tools| - 1]);
    }
  }

  lemma {:induction false} NoSystemTexts(msgs: seq<ChatMessage>)
    requires !HasRole(msgs, true)
    ensures SystemTexts(msgs) == []
  {
    if msgs != [] {
      assert msgs[|msgs| - 1] in msgs;
      NoSystemTexts(msgs[..|msgs| - 1]);
    }
  }

  // ---------- the three together ----------

  /** For every history the three renderings have equal traces, up to empty assistant texts, the lifted system
      messages and the decoding of call arguments. */
  method RenderAll(msgs: seq<ChatMessage>, parse: string -> Option<string>)
    returns (chat: seq<ChatParam>, items: seq<InputItem>, claude: seq<ClaudeMessage>)
    ensures Only(ChatTrace(chat), Audible) == ResponsesTrace(items)
    ensures Only(ClaudeTrace(claude), Audible) == DecodeInputs(Only(ResponsesTrace(items), NotSystem), parse)
    ensures AllPlain(parse, msgs) ==> Only(ClaudeTrace(claude), Audible) == Only(ResponsesTrace(items), NotSystem)
  {
    chat := BuildChat(msgs);
    items := BuildResponses(msgs);
    claude := BuildClaude(msgs, parse);
  }
}
