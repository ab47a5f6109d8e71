/**
 The agent loop's transcript: history loading, the provider-blind message
 builders, and the bounded tool loop.
 */
module Transcript {
  import opened Prelude

  const MAX_TOOL_ITER := 20

  const NO_CONTEXT := "(I could not load my context — please retry.)"
  const EXCEEDED := "(tool loop exceeded — no final reply)"
  const OVERLOADED := "(I'm currently overloaded — please retry in a moment.)"
  const EMPTY_REPLY := "(empty reply)"

  datatype Json = Null | Bool(b: bool) | Num(n: int) | Txt(s: string) | Arr(items: seq<Json>) | Obj(fields: seq<(string, Json)>)

  datatype Role = User | Assistant

  datatype ToolCall = ToolCall(id: string, name: string, input: Json)

  datatype ToolResult = ToolResult(id: string, content: string, isError: bool)

  datatype Block = TextBlock(text: string) | ToolUse(call: ToolCall) | ResultBlock(result: ToolResult)

  datatype Content = Plain(text: string) | Blocks(blocks: seq<Block>)

  datatype Message = Message(role: Role, content: Content)

  datatype StopReason = ToolUseStop | EndTurn | MaxTokens | Other

  datatype Parsed = Parsed(text: string, calls: seq<ToolCall>, stop: StopReason)

  /** A model call answers, or fails once its retries are spent. */
  datatype Reply = Answer(parsed: Parsed) | ProviderError

  /** The model, asked for the `i`-th time this turn; and a tool, run for the `j`-th call of round `i`. */
  type Model = (nat, seq<Message>) -> Reply
  type Tools = (nat, nat, ToolCall) -> (string, bool)

  // ── Message builders ────────────────────────────────────────────────────

  function UseBlocks(calls: seq<ToolCall>): seq<Block> {
    seq(|calls|, i requires 0 <= i < |calls| => ToolUse(calls[i]))
  }

  function TextBlocks(text: string): seq<Block> {
    if text == "" then [] else [TextBlock(text)]
  }

  function AssistantTurn(p: Parsed): Message {
    Message(Assistant, Blocks(TextBlocks(p.text) + UseBlocks(p.calls)))
  }

  function ResultBlocks(results: seq<ToolResult>): seq<Block> {
    seq(|results|, i requires 0 <= i < |results| => ResultBlock(results[i]))
  }

  function ResultTurn(results: seq<ToolResult>): Message {
    Message(User, Blocks(ResultBlocks(results)))
  }

  method AssistantMessage(p: Parsed) returns (m: Message)
    ensures m == AssistantTurn(p)
  {
    var content: seq<Block> := [];
    if p.text != "" {
      content := content + [TextBlock(p.text)];
    }
    for i := 0 to |p.calls|
      invariant content == TextBlocks(p.text) + UseBlocks(p.calls)[..i]
    {
      content := content + [ToolUse(p.calls[i])];
    }
    assert UseBlocks(p.calls)[..|p.calls|] == UseBlocks(p.calls);
    return Message(Assistant, Blocks(content));
  }

  method ToolResultMessage(results: seq<ToolResult>) returns (m: Message)
    ensures m == ResultTurn(results)
  {
    var content: seq<Block> := [];
    for i := 0 to |results|
      invariant content == ResultBlocks(results)[..i]
    {
      content := content + [ResultBlock(results[i])];
    }
    assert ResultBlocks(results)[..|results|] == ResultBlocks(results);
    return Message(User, Blocks(content));
  }

  /** Ids of the tool calls a message makes, in order. */
  function UseIds(m: Message): seq<string> {
    if m.content.Plain? then [] else BlockUseIds(m.content.blocks)
  }

  function BlockUseIds(bs: seq<Block>): seq<string> {
    if bs == [] then [] else (if bs[0].ToolUse? then [bs[0].call.id] else []) + BlockUseIds(bs[1..])
  }

  /** Ids of the tool calls a message answers, in order. */
  function ResultIds(m: Message): seq<string> {
    if m.content.Plain? then [] else BlockResultIds(m.content.blocks)
  }

  function BlockResultIds(bs: seq<Block>): seq<string> {
    if bs == [] then [] else (if bs[0].ResultBlock? then [bs[0].result.id] else []) + BlockResultIds(bs[1..])
  }

  lemma {:induction false} IdsOfUses(calls: seq<ToolCall>)
    ensures BlockUseIds(UseBlocks(calls)) == seq(|calls|, i requires 0 <= i < |calls| => calls[i].id)
    ensures BlockResultIds(UseBlocks(calls)) == []
  {
    if calls != [] {
      IdsOfUses(calls[1..]);
      assert UseBlocks(calls)[1..] == UseBlocks(calls[1..]);
    }
  }

  lemma {:induction false} IdsOfResults(results: seq<ToolResult>)
    ensures BlockResultIds(ResultBlocks(results)) == seq(|results|, i requires 0 <= i < |results| => results[i].id)
    ensures BlockUseIds(ResultBlocks(results)) == []
  {
    if results != [] {
      IdsOfResults(results[1..]);
      assert ResultBlocks(results)[1..] == ResultBlocks(results[1..]);
    }
  }

  lemma IdsOfAssistantTurn(p: Parsed)
    ensures UseIds(AssistantTurn(p)) == seq(|p.calls|, i requires 0 <= i < |p.calls| => p.calls[i].id)
  {
    IdsOfUses(p.calls);
    var bs := TextBlocks(p.text) + UseBlocks(p.calls);
    if p.text != "" {
      assert bs[1..] == UseBlocks(p.calls);
    } else {
      assert bs == UseBlocks(p.calls);
    }
  }

  // ── History ─────────────────────────────────────────────────────────────

  /** A chat row; tables list them by (sent_at, message_id). */
  datatype ChatRow = ChatRow(session: Option<string>, inbound: bool, deleted: bool, body: string)

  /** Rows a session's history query sees; SQL's `=` never matches a NULL session. */
  predicate Seen(r: ChatRow, session: Option<string>) {
    session.Some? && r.session == session && !r.deleted
  }

  function AsMessage(r: ChatRow): Message {
    Message(if r.inbound then User else Assistant, Plain(r.body))
  }

  function SeenMessages(rows: seq<ChatRow>, session: Option<string>): seq<Message> {
    if rows == [] then []
    else (if Seen(rows[0], session) then [AsMessage(rows[0])] else []) + SeenMessages(rows[1..], session)
  }

  /** LIMIT keeps the newest `n`; a negative limit keeps everything. */
  function Newest(ms: seq<Message>, n: int): seq<Message> {
    if n < 0 || n >= |ms| then ms else ms[|ms| - n..]
  }

  function FromFirstUser(ms: seq<Message>): seq<Message> {
    if ms != [] && ms[0].role != User then FromFirstUser(ms[1..]) else ms
  }

  function History(rows: seq<ChatRow>, session: Option<string>, window: int): seq<Message> {
    FromFirstUser(Newest(SeenMessages(rows, session), window))
  }

  method LoadHistory(rows: seq<ChatRow>, session: Option<string>, window: int) returns (msgs: seq<Message>)
    ensures msgs == History(rows, session, window)
  {
    msgs := Newest(SeenMessages(rows, session), window);
    while msgs != [] && msgs[0].role != User
      invariant FromFirstUser(msgs) == History(rows, session, window)
      decreases |msgs|
    {
      msgs := msgs[1..];
    }
  }

  ghost predicate AllPlain(ms: seq<Message>) {
    forall m | m in ms :: m.content.Plain?
  }

  lemma {:induction false} SeenArePlain(rows: seq<ChatRow>, session: Option<string>)
    ensures AllPlain(SeenMessages(rows, session))
  {
    if rows != [] { SeenArePlain(rows[1..], session); }
  }

  lemma {:induction false} FromFirstUserFacts(ms: seq<Message>)
    ensures var out := FromFirstUser(ms);
      && |out| <= |ms| && out == ms[|ms| - |out|..]
      && (out != [] ==> out[0].role == User)
      && (forall i | 0 <= i < |ms| - |out| :: ms[i].role != User)
  {
    if ms != [] && ms[0].role != User {
      FromFirstUserFacts(ms[1..]);
      var k := |ms| - |FromFirstUser(ms)|;
      assert ms[1..][k - 1..] == ms[k..];
      assert forall i | 0 < i < k :: ms[i] == ms[1..][i - 1];
    }
  }

  /** The loaded history is a run of the session's newest messages that opens on a user turn. */
  lemma HistoryFacts(rows: seq<ChatRow>, session: Option<string>, window: int)
    ensures var all, h := SeenMessages(rows, session), History(rows, session, window);
      && |h| <= |all| && h == all[|all| - |h|..]
      && (window >= 0 ==> |h| <= window)
      && (h != [] ==> h[0].role == User)
      && AllPlain(h)
  {
    hide SeenMessages, FromFirstUser;
    SeenArePlain(rows, session);
    FromFirstUserFacts(Newest(SeenMessages(rows, session), window));
  }

  lemma {:induction false} SeenAppend(rows: seq<ChatRow>, r: ChatRow, session: Option<string>)
    ensures SeenMessages(rows + [r], session) == SeenMessages(rows, session) + if Seen(r, session) then [AsMessage(r)] else []
  {
    hide Seen, AsMessage;
    var all := rows + [r];
    if rows == [] {
      assert all == [r] && all[1..] == [];
    } else {
      assert all[0] == rows[0] && all[1..] == rows[1..] + [r];
      SeenAppend(rows[1..], r, session);
      var first, rest := SeenMessages([rows[0]], session), SeenMessages(rows[1..], session);
      var last := if Seen(r, session) then [AsMessage(r)] else [];
      SeenUnfold(rows[0], rows[1..], session);
      SeenUnfold(rows[0], rows[1..] + [r], session);
      hide SeenMessages;
      assert first + (rest + last) == first + rest + last;
      assert [rows[0]] + rows[1..] == rows && all == [rows[0]] + (rows[1..] + [r]);
    }
  }

  lemma SeenUnfold(r: ChatRow, rows: seq<ChatRow>, session: Option<string>)
    ensures SeenMessages([r] + rows, session) == SeenMessages([r], session) + SeenMessages(rows, session)
  {
    hide Seen, AsMessage;
    assert ([r] + rows)[1..] == rows && [r][1..] == [];
  }

  /**
   An outbound row behind an inbound message covers it, whatever wrote the row: a
   reply, a warning, or the note a model switch leaves. The message is then
   skipped exactly when a user turn is left in the history.
   */
  lemma OutboundRowCovers(rows: seq<ChatRow>, r: ChatRow, session: Option<string>, window: int, body: string)
    requires Seen(r, session) && !r.inbound
    ensures var h := History(rows + [r], session, window);
      var o := Opening(h, body);
      && (o[|o| - 1].role == Assistant <==> h != [])
      && (h != [] <==> exists m :: m in Newest(SeenMessages(rows + [r], session), window) && m.role == User)
  {
    SeenAppend(rows, r, session);
    var ms := Newest(SeenMessages(rows + [r], session), window);
    var h := History(rows + [r], session, window);
    FromFirstUserFacts(ms);
    if h != [] {
      assert h[|h| - 1] == ms[|ms| - 1];
      assert h[0] in ms;
    }
  }

  // ── The tool loop ───────────────────────────────────────────────────────

  function RunTools(tools: Tools, i: nat, calls: seq<ToolCall>): seq<ToolResult> {
    seq(|calls|, j requires 0 <= j < |calls| =>
      var (content, isError) := tools(i, j, calls[j]);
      ToolResult(calls[j].id, content, isError))
  }

  /** The two messages one tool round adds. */
  function Round(tools: Tools, i: nat, p: Parsed): seq<Message> {
    [AssistantTurn(p), ResultTurn(RunTools(tools, i, p.calls))]
  }

  /** What a loop leaves behind: the final text, the transcript, and the transcript each request carried. */
  datatype Loop = Loop(text: string, transcript: seq<Message>, requests: seq<seq<Message>>)

  function LoopFrom(model: Model, tools: Tools, messages: seq<Message>, requests: seq<seq<Message>>, i: nat): Loop
    requires i <= MAX_TOOL_ITER
    decreases MAX_TOOL_ITER - i
  {
    if i == MAX_TOOL_ITER then Loop(EXCEEDED, messages, requests)
    else
      var sent := requests + [messages];
      match model(i, messages)
      case ProviderError => Loop(OVERLOADED, messages, sent)
      case Answer(p) =>
        if p.stop == ToolUseStop then
          LoopFrom(model, tools, messages + Round(tools, i, p), sent, i + 1)
        else Loop(p.text, messages, sent)
  }

  /** An assistant turn that calls tools, and the turn that answers those calls in their order. */
  ghost predicate IsRound(a: Message, r: Message) {
    exists p: Parsed, results: seq<ToolResult> ::
      && a == AssistantTurn(p) && r == ResultTurn(results)
      && |results| == |p.calls| && forall j | 0 <= j < |results| :: results[j].id == p.calls[j].id
  }

  lemma RoundParts(a: Message, r: Message) returns (p: Parsed, results: seq<ToolResult>)
    requires IsRound(a, r)
    ensures a == AssistantTurn(p) && r == ResultTurn(results)
    ensures |results| == |p.calls| && forall j | 0 <= j < |results| :: results[j].id == p.calls[j].id
  {
    p, results :|
      && a == AssistantTurn(p) && r == ResultTurn(results)
      && |results| == |p.calls| && forall j | 0 <= j < |results| :: results[j].id == p.calls[j].id;
  }

  /** Every call of a round is answered, by id and in order. */
  lemma RoundPairsIds(a: Message, r: Message)
    requires IsRound(a, r)
    ensures a.role == Assistant && r.role == User && UseIds(a) == ResultIds(r)
  {
    var p, results := RoundParts(a, r);
    IdsOfAssistantTurn(p);
    IdsOfResults(results);
  }

  ghost predicate UserEnds(ms: seq<Message>) {
    ms != [] && ms[0].role == User && ms[|ms| - 1].role == User
  }

  /** `init` followed by `k` rounds. */
  ghost predicate Extends(init: seq<Message>, t: seq<Message>, k: nat) {
    && |t| == |init| + 2 * k
    && t[..|init|] == init
    && forall j | 0 <= j < k :: IsRound(t[|init| + 2 * j], t[|init| + 2 * j + 1])
  }

  lemma RoundExtends(init: seq<Message>, t: seq<Message>, k: nat, tools: Tools, i: nat, p: Parsed)
    requires Extends(init, t, k)
    ensures Extends(init, t + Round(tools, i, p), k + 1)
  {
    var a, r := AssistantTurn(p), ResultTurn(RunTools(tools, i, p.calls));
    var t' := t + Round(tools, i, p);
    assert IsRound(a, r);
    forall j | 0 <= j < k + 1 ensures IsRound(t'[|init| + 2 * j], t'[|init| + 2 * j + 1]) {
      if j < k {
        assert t'[|init| + 2 * j] == t[|init| + 2 * j] && t'[|init| + 2 * j + 1] == t[|init| + 2 * j + 1];
      }
    }
    assert t'[..|init|] == t[..|init|];
  }

  /** Before the `i`-th model call: the requests so far are the transcripts of 0, 1, …, i - 1 rounds. */
  ghost predicate LoopInv(init: seq<Message>, messages: seq<Message>, requests: seq<seq<Message>>, i: nat) {
    && Extends(init, messages, i)
    && |requests| == i
    && forall j | 0 <= j < i :: Extends(init, requests[j], j) && requests[j] == messages[..|init| + 2 * j]
  }

  lemma LoopInvRound(init: seq<Message>, messages: seq<Message>, requests: seq<seq<Message>>, i: nat, tools: Tools, p: Parsed)
    requires LoopInv(init, messages, requests, i)
    ensures LoopInv(init, messages + Round(tools, i, p), requests + [messages], i + 1)
  {
    RoundExtends(init, messages, i, tools, i, p);
    var m', sent := messages + Round(tools, i, p), requests + [messages];
    forall j | 0 <= j < i + 1 ensures Extends(init, sent[j], j) && sent[j] == m'[..|init| + 2 * j] {
      if j < i {
        assert sent[j] == requests[j];
        assert m'[..|init| + 2 * j] == messages[..|init| + 2 * j];
      } else {
        assert m'[..|messages|] == messages;
      }
    }
  }

  /**
   At most twenty model calls happen; the transcript is the initial one plus two
   messages a round; the `j`-th request carries exactly the first `j` rounds.
   */
  ghost predicate LoopOk(init: seq<Message>, out: Loop) {
    && |out.requests| <= MAX_TOOL_ITER
    && (exists k: nat | k <= |out.requests| <= k + 1 :: Extends(init, out.transcript, k))
    && (forall j | 0 <= j < |out.requests| :: Extends(init, out.requests[j], j))
  }

  lemma LoopStops(init: seq<Message>, messages: seq<Message>, requests: seq<seq<Message>>, i: nat, text: string)
    requires i <= MAX_TOOL_ITER && LoopInv(init, messages, requests, i)
    ensures LoopOk(init, Loop(text, messages, requests))
    ensures i < MAX_TOOL_ITER ==> LoopOk(init, Loop(text, messages, requests + [messages]))
  {
  }

  lemma {:induction false} LoopFacts(model: Model, tools: Tools, init: seq<Message>, messages: seq<Message>,
          requests: seq<seq<Message>>, i: nat)
    requires i <= MAX_TOOL_ITER && LoopInv(init, messages, requests, i)
    ensures LoopOk(init, LoopFrom(model, tools, messages, requests, i))
    decreases MAX_TOOL_ITER - i
  {
    var out, sent := LoopFrom(model, tools, messages, requests, i), requests + [messages];
    if i == MAX_TOOL_ITER {
      LoopStops(init, messages, requests, i, EXCEEDED);
      assert out == Loop(EXCEEDED, messages, requests);
    } else {
      match model(i, messages)
      case ProviderError =>
        LoopStops(init, messages, requests, i, OVERLOADED);
        assert out == Loop(OVERLOADED, messages, sent);
      case Answer(p) =>
        if p.stop == ToolUseStop {
          LoopInvRound(init, messages, requests, i, tools, p);
          LoopFacts(model, tools, init, messages + Round(tools, i, p), sent, i + 1);
          assert out == LoopFrom(model, tools, messages + Round(tools, i, p), sent, i + 1);
        } else {
          LoopStops(init, messages, requests, i, p.text);
          assert out == Loop(p.text, messages, sent);
        }
    }
  }

  /** A transcript opened and closed by the user stays so after any number of rounds. */
  lemma ExtendsKeepsUserEnds(init: seq<Message>, t: seq<Message>, k: nat)
    requires UserEnds(init) && Extends(init, t, k)
    ensures UserEnds(t)
  {
    assert t[0] == t[..|init|][0];
    if k == 0 {
      assert t == init;
    } else {
      RoundPairsIds(t[|init| + 2 * (k - 1)], t[|init| + 2 * (k - 1) + 1]);
    }
  }

  // ── One inbound message ─────────────────────────────────────────────────

  datatype Outcome =
    | Covered                       // a reply already follows it: marked read, no model call
    | NoContext                     // the boot document could not be fetched
    | Replied(loop: Loop)

  /** What the turn starts from: the history, or the message alone when there is none. */
  function Opening(history: seq<Message>, body: string): seq<Message> {
    if history == [] then [Message(User, Plain(body))] else history
  }

  lemma OpeningFacts(rows: seq<ChatRow>, session: Option<string>, window: int, body: string)
    ensures var o := Opening(History(rows, session, window), body);
      && o != [] && AllPlain(o)
      && (o[|o| - 1].role != Assistant ==> UserEnds(o))
  {
    HistoryFacts(rows, session, window);
  }

  /** The bounded loop of model calls and tool rounds. */
  method RunLoop(opening: seq<Message>, model: Model, tools: Tools) returns (out: Loop)
    ensures out == LoopFrom(model, tools, opening, [], 0)
  {
    var messages, requests: seq<seq<Message>> := opening, [];
    for i := 0 to MAX_TOOL_ITER
      invariant LoopFrom(model, tools, messages, requests, i) == LoopFrom(model, tools, opening, [], 0)
    {
      requests := requests + [messages];
      var response := model(i, messages);
      match response {
        case ProviderError =>
          return Loop(OVERLOADED, messages, requests);
        case Answer(p) =>
          if p.stop != ToolUseStop {
            return Loop(p.text, messages, requests);
          }
          ghost var before := messages;
          var a := AssistantMessage(p);
          messages := messages + [a];
          var results := RunTools(tools, i, p.calls);
          var r := ToolResultMessage(results);
          messages := messages + [r];
          assert messages == before + Round(tools, i, p);
      }
    }
    return Loop(EXCEEDED, messages, requests);
  }

  /** What holds of the loop run for one inbound message that is not already covered. */
  lemma TurnFacts(rows: seq<ChatRow>, session: Option<string>, window: int, body: string, model: Model, tools: Tools)
    requires var o := Opening(History(rows, session, window), body); o[|o| - 1].role != Assistant
    ensures var o := Opening(History(rows, session, window), body);
      var out := LoopFrom(model, tools, o, [], 0);
      LoopOk(o, out) && forall j | 0 <= j < |out.requests| :: UserEnds(out.requests[j])
  {
    var o := Opening(History(rows, session, window), body);
    OpeningFacts(rows, session, window, body);
    assert LoopInv(o, o, [], 0);
    LoopFacts(model, tools, o, o, [], 0);
    var out := LoopFrom(model, tools, o, [], 0);
    forall j | 0 <= j < |out.requests| ensures UserEnds(out.requests[j]) {
      ExtendsKeepsUserEnds(o, out.requests[j], j);
    }
  }

  /**
   Handles one inbound message. Every request sent begins and ends on a user
   turn; it carries the opening followed by whole rounds, each a tool-calling
   turn and the turn that answers it.
   */
  method ProcessInbound(rows: seq<ChatRow>, session: Option<string>, window: int, body: string, contextLoads: bool,
                        model: Model, tools: Tools) returns (out: Outcome, reply: string)
    ensures var o := Opening(History(rows, session, window), body);
      && (out.Covered? <==> o[|o| - 1].role == Assistant)
      && (out.NoContext? <==> !out.Covered? && !contextLoads)
      && (out.Replied? ==> out.loop == LoopFrom(model, tools, o, [], 0) && LoopOk(o, out.loop))
    ensures out.Replied? ==> forall j | 0 <= j < |out.loop.requests| :: UserEnds(out.loop.requests[j])
    ensures out.Replied? ==> reply == if out.loop.text == "" then EMPTY_REPLY else out.loop.text
    ensures out.NoContext? ==> reply == NO_CONTEXT
    ensures reply == "" <==> out.Covered?
  {
    var history := LoadHistory(rows, session, window);
    var messages := Opening(history, body);
    if messages[|messages| - 1].role == Assistant {
      return Covered, "";
    }
    if !contextLoads {
      return NoContext, NO_CONTEXT;
    }
    TurnFacts(rows, session, window, body, model, tools);
    var loop := RunLoop(messages, model, tools);
    return Replied(loop), if loop.text == "" then EMPTY_REPLY else loop.text;
  }
}
