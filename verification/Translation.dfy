/**
 Translating transcripts to provider messages: OpenAI's, which can be decoded
 back, and Ollama's, which pairs results with calls by tool name.
 */
module Translation {
  import opened Prelude
  import opened Text
  import opened Transcript

  lemma JoinRight<T>(a: seq<T>, b: seq<T>, c: seq<T>)
    ensures a + (b + c) == a + b + c
  {
  }

  // ── Transcripts the loop can build ──────────────────────────────────────

  /** Plain turns and whole rounds, in any order. */
  ghost predicate Buildable(t: seq<Message>) {
    || t == []
    || (t[0].content.Plain? && Buildable(t[1..]))
    || (|t| >= 2 && IsRound(t[0], t[1]) && Buildable(t[2..]))
  }

  lemma {:induction false} PlainIsBuildable(t: seq<Message>)
    requires AllPlain(t)
    ensures Buildable(t)
  {
    if t != [] { PlainIsBuildable(t[1..]); }
  }

  /** Whatever the tool loop makes of a plain opening is such a transcript. */
  lemma {:induction false} ExtendsIsBuildable(init: seq<Message>, t: seq<Message>, k: nat)
    requires AllPlain(init) && Extends(init, t, k)
    ensures Buildable(t)
    decreases |init| + k
  {
    hide IsRound;
    if init != [] {
      assert t[0] == t[..|init|][0];
      assert t[1..][..|init| - 1] == t[..|init|][1..];
      forall j | 0 <= j < k ensures IsRound(t[1..][|init| - 1 + 2 * j], t[1..][|init| - 1 + 2 * j + 1]) {
        assert t[1..][|init| - 1 + 2 * j] == t[|init| + 2 * j];
        assert t[1..][|init| - 1 + 2 * j + 1] == t[|init| + 2 * j + 1];
      }
      ExtendsIsBuildable(init[1..], t[1..], k);
    } else if k > 0 {
      assert IsRound(t[0 + 2 * 0], t[0 + 2 * 0 + 1]);
      forall j | 0 <= j < k - 1 ensures IsRound(t[2..][2 * j], t[2..][2 * j + 1]) {
        assert t[2..][2 * j] == t[2 * (j + 1)] && t[2..][2 * j + 1] == t[2 * (j + 1) + 1];
        assert IsRound(t[|init| + 2 * (j + 1)], t[|init| + 2 * (j + 1) + 1]);
      }
      ExtendsIsBuildable(init, t[2..], k - 1);
    }
  }

  function CallsOf(bs: seq<Block>): seq<ToolCall> {
    if bs == [] then [] else (if bs[0].ToolUse? then [bs[0].call] else []) + CallsOf(bs[1..])
  }

  function ResultsOf(bs: seq<Block>): seq<ToolResult> {
    if bs == [] then [] else (if bs[0].ResultBlock? then [bs[0].result] else []) + ResultsOf(bs[1..])
  }

  function TextsOf(bs: seq<Block>): seq<string> {
    if bs == [] then [] else (if bs[0].TextBlock? then [bs[0].text] else []) + TextsOf(bs[1..])
  }

  lemma {:induction false} PartsOfUses(calls: seq<ToolCall>)
    ensures CallsOf(UseBlocks(calls)) == calls && TextsOf(UseBlocks(calls)) == [] && ResultsOf(UseBlocks(calls)) == []
  {
    if calls != [] {
      PartsOfUses(calls[1..]);
      assert UseBlocks(calls)[1..] == UseBlocks(calls[1..]);
    }
  }

  lemma {:induction false} PartsOfResults(results: seq<ToolResult>)
    ensures ResultsOf(ResultBlocks(results)) == results && CallsOf(ResultBlocks(results)) == []
  {
    if results != [] {
      PartsOfResults(results[1..]);
      assert ResultBlocks(results)[1..] == ResultBlocks(results[1..]);
    }
  }

  lemma PartsOfAssistantTurn(p: Parsed)
    ensures var bs := AssistantTurn(p).content.blocks;
      CallsOf(bs) == p.calls && Join(TextsOf(bs)) == p.text && TextsOf(bs) == if p.text == "" then [] else [p.text]
  {
    PartsOfUses(p.calls);
    var bs := AssistantTurn(p).content.blocks;
    if p.text != "" {
      assert bs[1..] == UseBlocks(p.calls);
    } else {
      assert bs == UseBlocks(p.calls);
    }
  }

  // ── OpenAI ──────────────────────────────────────────────────────────────

  datatype NativeRole = AsUser | AsAssistant | AsTool

  /** A chat-completions message; absent keys are None or an empty list. Arguments stay abstract JSON. */
  datatype Native = Native(role: NativeRole, content: Option<string>, calls: seq<ToolCall>, callId: Option<string>)

  function RoleOf(r: Role): NativeRole {
    if r == User then AsUser else AsAssistant
  }

  function ToolMessages(results: seq<ToolResult>): seq<Native> {
    seq(|results|, i requires 0 <= i < |results| => Native(AsTool, Some(results[i].content), [], Some(results[i].id)))
  }

  function NativeOf(m: Message): seq<Native> {
    if m.content.Plain? then [Native(RoleOf(m.role), Some(m.content.text), [], None)]
    else if m.role == Assistant then
      var text := Join(TextsOf(m.content.blocks));
      [Native(AsAssistant, if text == "" then None else Some(text), CallsOf(m.content.blocks), None)]
    else ToolMessages(ResultsOf(m.content.blocks))
  }

  function ToNative(t: seq<Message>): seq<Native> {
    if t == [] then [] else NativeOf(t[0]) + ToNative(t[1..])
  }

  /** One message's share of the native list. */
  method NativeMessage(m: Message) returns (out: seq<Native>)
    ensures out == NativeOf(m)
  {
    if m.content.Plain? {
      return [Native(RoleOf(m.role), Some(m.content.text), [], None)];
    }
    if m.role == Assistant {
      var text := Join(TextsOf(m.content.blocks));
      return [Native(AsAssistant, if text == "" then None else Some(text), CallsOf(m.content.blocks), None)];
    }
    var results := ResultsOf(m.content.blocks);
    out := [];
    for j := 0 to |results|
      invariant out == ToolMessages(results)[..j]
    {
      out := out + [Native(AsTool, Some(results[j].content), [], Some(results[j].id))];
    }
  }

  method ToNativeMessages(messages: seq<Message>) returns (out: seq<Native>)
    ensures out == ToNative(messages)
  {
    out := [];
    for i := 0 to |messages|
      invariant out + ToNative(messages[i..]) == ToNative(messages)
    {
      hide NativeOf;
      var more := NativeMessage(messages[i]);
      assert messages[i..][1..] == messages[i + 1..];
      JoinRight(out, more, ToNative(messages[i + 1..]));
      out := out + more;
    }
  }

  /** Length of the run of tool messages at the front. */
  function ToolRun(ns: seq<Native>): (k: nat)
    ensures k <= |ns|
  {
    if ns == [] || ns[0].role != AsTool then 0 else 1 + ToolRun(ns[1..])
  }

  function DecodeResults(ns: seq<Native>): seq<ToolResult> {
    seq(|ns|, i requires 0 <= i < |ns| =>
      ToolResult(if ns[i].callId.Some? then ns[i].callId.value else "", if ns[i].content.Some? then ns[i].content.value else "", false))
  }

  /** The inverse reading: a run of tool messages is one result turn. */
  function Decode(ns: seq<Native>): seq<Message>
    decreases |ns|
  {
    if ns == [] then []
    else if ns[0].role == AsTool then
      var k := ToolRun(ns);
      [ResultTurn(DecodeResults(ns[..k]))] + Decode(ns[k..])
    else if ns[0].calls == [] then
      [Message(if ns[0].role == AsUser then User else Assistant, Plain(if ns[0].content.Some? then ns[0].content.value else ""))]
      + Decode(ns[1..])
    else
      [AssistantTurn(Parsed(if ns[0].content.Some? then ns[0].content.value else "", ns[0].calls, ToolUseStop))] + Decode(ns[1..])
  }

  function EraseResult(r: ToolResult): ToolResult {
    r.(isError := false)
  }

  function EraseBlock(b: Block): Block {
    if b.ResultBlock? then ResultBlock(EraseResult(b.result)) else b
  }

  /** A message without its error marks, which OpenAI's format has no place for. */
  function Erase(m: Message): Message {
    if m.content.Plain? then m
    else m.(content := Blocks(seq(|m.content.blocks|, i requires 0 <= i < |m.content.blocks| => EraseBlock(m.content.blocks[i]))))
  }

  function EraseAll(t: seq<Message>): seq<Message> {
    seq(|t|, i requires 0 <= i < |t| => Erase(t[i]))
  }

  /** A tool-calling turn that makes a call, as `assistant_message` expects. */
  ghost predicate EveryRoundCalls(t: seq<Message>) {
    forall i | 0 <= i < |t| && t[i].role == Assistant && t[i].content.Blocks? :: CallsOf(t[i].content.blocks) != []
  }

  /** The translated rest of a transcript never starts inside a run of tool messages. */
  lemma RestIsNoTool(t: seq<Message>)
    requires Buildable(t)
    ensures ToNative(t) != [] ==> ToNative(t)[0].role != AsTool
  {
    if t != [] && !t[0].content.Plain? {
      RoundPairsIds(t[0], t[1]);
    }
  }

  lemma {:induction false} ToolRunOfResults(results: seq<ToolResult>, rest: seq<Native>)
    requires rest != [] ==> rest[0].role != AsTool
    ensures ToolRun(ToolMessages(results) + rest) == |results|
  {
    if results == [] {
      assert ToolMessages(results) + rest == rest;
    } else {
      ToolRunOfResults(results[1..], rest);
      assert (ToolMessages(results) + rest)[1..] == ToolMessages(results[1..]) + rest;
    }
  }

  lemma EraseTurns(p: Parsed, results: seq<ToolResult>)
    ensures Erase(AssistantTurn(p)) == AssistantTurn(p)
    ensures Erase(ResultTurn(results)) == ResultTurn(DecodeResults(ToolMessages(results)))
  {
    var bs := AssistantTurn(p).content.blocks;
    assert Erase(AssistantTurn(p)).content.blocks == bs;
    assert Erase(ResultTurn(results)).content.blocks == ResultBlocks(DecodeResults(ToolMessages(results)));
  }

  /** A run of tool messages decodes to one result turn. */
  lemma {:induction false} DecodeTools(results: seq<ToolResult>, rest: seq<Native>)
    requires results != [] && (rest != [] ==> rest[0].role != AsTool)
    ensures Decode(ToolMessages(results) + rest) == [Erase(ResultTurn(results))] + Decode(rest)
  {
    var ns := ToolMessages(results) + rest;
    ToolRunOfResults(results, rest);
    EraseTurns(Parsed("", [], Other), results);
    assert ns[..|results|] == ToolMessages(results) && ns[|results|..] == rest;
  }

  /** A tool-calling message decodes to the turn that made the calls. */
  lemma {:induction false} DecodeCalls(p: Parsed, tail: seq<Native>)
    requires p.calls != []
    ensures Decode(NativeOf(AssistantTurn(p)) + tail) == [Erase(AssistantTurn(p))] + Decode(tail)
  {
    PartsOfAssistantTurn(p);
    EraseTurns(p, []);
    var ns := NativeOf(AssistantTurn(p)) + tail;
    assert ns[1..] == tail && ns[0].calls == p.calls;
  }

  lemma {:induction false} DecodeParts(p: Parsed, results: seq<ToolResult>, rest: seq<Native>)
    requires p.calls != [] && results != []
    requires rest != [] ==> rest[0].role != AsTool
    ensures Decode(NativeOf(AssistantTurn(p)) + (NativeOf(ResultTurn(results)) + rest))
         == [Erase(AssistantTurn(p)), Erase(ResultTurn(results))] + Decode(rest)
  {
    PartsOfResults(results);
    DecodeCalls(p, ToolMessages(results) + rest);
    DecodeTools(results, rest);
    var a, r := Erase(AssistantTurn(p)), Erase(ResultTurn(results));
    JoinRight([a], [r], Decode(rest));
    assert [a] + [r] == [a, r];
  }

  /** What decoding makes of a round's translation in front of the rest. */
  lemma {:induction false} DecodeRound(a: Message, r: Message, rest: seq<Native>)
    requires IsRound(a, r) && CallsOf(a.content.blocks) != []
    requires rest != [] ==> rest[0].role != AsTool
    ensures Decode(NativeOf(a) + (NativeOf(r) + rest)) == [Erase(a), Erase(r)] + Decode(rest)
  {
    var p, results := RoundParts(a, r);
    PartsOfAssistantTurn(p);
    DecodeParts(p, results, rest);
  }

  lemma {:induction false} DecodePlain(m: Message, rest: seq<Native>)
    requires m.content.Plain?
    ensures Decode(NativeOf(m) + rest) == [Erase(m)] + Decode(rest)
  {
    assert (NativeOf(m) + rest)[1..] == rest;
  }

  /** A tool-calling turn that makes no call decodes to a plain one. */
  lemma {:induction false} DecodeIdle(p: Parsed, tail: seq<Native>)
    requires p.calls == []
    ensures Decode(NativeOf(AssistantTurn(p)) + tail) == [Message(Assistant, Plain(p.text))] + Decode(tail)
  {
    PartsOfAssistantTurn(p);
    var ns := NativeOf(AssistantTurn(p)) + tail;
    assert ns[1..] == tail;
  }

  /** A round without calls leaves only its assistant turn: the empty answer has no messages. */
  lemma {:induction false} DecodeIdleRound(a: Message, r: Message, rest: seq<Native>)
    requires IsRound(a, r) && CallsOf(a.content.blocks) == []
    ensures Decode(NativeOf(a) + (NativeOf(r) + rest)) == [Message(Assistant, Plain(Join(TextsOf(a.content.blocks))))] + Decode(rest)
    ensures NativeOf(r) == []
  {
    var p, results := RoundParts(a, r);
    PartsOfAssistantTurn(p);
    PartsOfResults(results);
    assert NativeOf(r) == [] && [] + rest == rest;
    hide Decode, NativeOf, AssistantTurn, ResultTurn, CallsOf, TextsOf;
    DecodeIdle(p, rest);
  }

  /**
   Decoding the translation gives the transcript back, error marks erased, when
   every round makes a call; otherwise some round's answer is lost.
   */
  lemma {:induction false} DecodeInverts(t: seq<Message>)
    requires Buildable(t)
    ensures EveryRoundCalls(t) ==> Decode(ToNative(t)) == EraseAll(t)
    ensures |Decode(ToNative(t))| <= |t|
    ensures !EveryRoundCalls(t) ==> |Decode(ToNative(t))| < |t|
    decreases |t|
  {
    if t != [] {
      if t[0].content.Plain? {
        DecodeInverts(t[1..]);
        DecodePlain(t[0], ToNative(t[1..]));
        EraseStep(t, 1);
        RoundsStep(t, 1);
      } else {
        DecodeInverts(t[2..]);
        DecodeRoundThen(t);
      }
    }
  }

  /** The case of a round in front of a transcript the decoding already inverts. */
  lemma {:induction false} DecodeRoundThen(t: seq<Message>)
    requires |t| >= 2 && IsRound(t[0], t[1]) && Buildable(t[2..])
    requires EveryRoundCalls(t[2..]) ==> Decode(ToNative(t[2..])) == EraseAll(t[2..])
    requires |Decode(ToNative(t[2..]))| <= |t| - 2
    ensures EveryRoundCalls(t) ==> Decode(ToNative(t)) == EraseAll(t)
    ensures |Decode(ToNative(t))| <= |t|
    ensures !EveryRoundCalls(t) && (!EveryRoundCalls(t[2..]) ==> |Decode(ToNative(t[2..]))| < |t| - 2) ==> |Decode(ToNative(t))| < |t|
  {
    hide Decode, IsRound, EveryRoundCalls, EraseAll, NativeOf, Erase, Buildable, ToNative, CallsOf;
    var rest := ToNative(t[2..]);
    RoundCalls(t[0], t[1]);
    RoundThenNative(t);
    RestIsNoTool(t[2..]);
    EraseStep(t, 2);
    RoundsStep(t, 2);
    assert t[..2] == [t[0], t[1]];
    if CallsOf(t[0].content.blocks) == [] {
      DecodeIdleRound(t[0], t[1], rest);
    } else {
      DecodeRound(t[0], t[1], rest);
    }
  }

  lemma RoundThenNative(t: seq<Message>)
    requires |t| >= 2
    ensures ToNative(t) == NativeOf(t[0]) + (NativeOf(t[1]) + ToNative(t[2..]))
  {
    assert t[1..][1..] == t[2..];
  }

  lemma RoundCalls(a: Message, r: Message)
    requires IsRound(a, r)
    ensures a.content.Blocks?
    ensures EveryRoundCalls([a, r]) <==> CallsOf(a.content.blocks) != []
  {
    RoundPairsIds(a, r);
    assert [a, r][0] == a;
  }

  lemma EraseStep(t: seq<Message>, k: nat)
    requires k <= |t|
    ensures EraseAll(t) == EraseAll(t[..k]) + EraseAll(t[k..])
    ensures k == 1 ==> EraseAll(t[..k]) == [Erase(t[0])]
    ensures k == 2 ==> EraseAll(t[..k]) == [Erase(t[0]), Erase(t[1])]
  {
  }

  lemma RoundsStep(t: seq<Message>, k: nat)
    requires k <= |t|
    ensures EveryRoundCalls(t) <==> EveryRoundCalls(t[..k]) && EveryRoundCalls(t[k..])
  {
    if EveryRoundCalls(t[..k]) && EveryRoundCalls(t[k..]) {
      forall i | 0 <= i < |t| && t[i].role == Assistant && t[i].content.Blocks? ensures CallsOf(t[i].content.blocks) != [] {
        if i < k { assert t[..k][i] == t[i]; } else { assert t[k..][i - k] == t[i]; }
      }
    }
  }

  /** The translation is invertible exactly on the transcripts whose every tool turn makes a call. */
  lemma InverseIff(t: seq<Message>)
    requires Buildable(t)
    ensures Decode(ToNative(t)) == EraseAll(t) <==> EveryRoundCalls(t)
  {
    DecodeInverts(t);
  }

  // ── Transcripts that translate alike ────────────────────────────────────

  /** An assistant turn of blocks says something or makes a call. */
  ghost predicate NoSilentRound(t: seq<Message>) {
    forall i | 0 <= i < |t| && t[i].role == Assistant && t[i].content.Blocks? ::
      CallsOf(t[i].content.blocks) != [] || Join(TextsOf(t[i].content.blocks)) != ""
  }

  lemma SilenceStep(t: seq<Message>, k: nat)
    requires k <= |t|
    ensures NoSilentRound(t) <==> NoSilentRound(t[..k]) && NoSilentRound(t[k..])
  {
    if NoSilentRound(t[..k]) && NoSilentRound(t[k..]) {
      forall i | 0 <= i < |t| && t[i].role == Assistant && t[i].content.Blocks?
        ensures CallsOf(t[i].content.blocks) != [] || Join(TextsOf(t[i].content.blocks)) != ""
      {
        if i < k { assert t[..k][i] == t[i]; } else { assert t[k..][i - k] == t[i]; }
      }
    }
  }

  /** Erasing marks keeps a round a round, and its translation. */
  lemma EraseRound(a: Message, r: Message)
    requires IsRound(a, r)
    ensures IsRound(Erase(a), Erase(r)) && CallsOf(Erase(a).content.blocks) == CallsOf(a.content.blocks)
    ensures NativeOf(Erase(a)) == NativeOf(a) && NativeOf(Erase(r)) == NativeOf(r)
  {
    var p, results := RoundParts(a, r);
    EraseTurns(p, results);
    var erased := DecodeResults(ToolMessages(results));
    PartsOfResults(results);
    PartsOfResults(erased);
    assert ToolMessages(erased) == ToolMessages(results);
  }

  /** What decoding and translating again makes of a transcript: calls in every round, and as many messages. */
  ghost predicate Retranslates(t: seq<Message>, d: seq<Message>) {
    && Buildable(d) && EveryRoundCalls(d) && |ToNative(d)| == |ToNative(t)|
    && (ToNative(d) == ToNative(t) <==> NoSilentRound(t))
  }

  lemma PlainRetranslates(m: Message, t: seq<Message>, d: seq<Message>)
    requires m.content.Plain? && Retranslates(t, d)
    ensures Retranslates([m] + t, [Erase(m)] + d)
  {
    hide Erase;
    assert Erase(m) == m by { ErasePlain(m); }
    assert ([m] + t)[1..] == t && ([m] + d)[1..] == d;
    RoundsStep([m] + d, 1);
    SilenceStep([m] + t, 1);
    assert NoSilentRound([m]) && EveryRoundCalls([m]);
    HeadsThenTails(NativeOf(m), ToNative(d), NativeOf(m), ToNative(t));
  }

  lemma ErasePlain(m: Message)
    requires m.content.Plain?
    ensures Erase(m) == m
  {
  }

  lemma HeadsThenTails<T>(a: seq<T>, b: seq<T>, c: seq<T>, d: seq<T>)
    requires |a| == |c|
    ensures a + b == c + d <==> a == c && b == d
  {
    if a + b == c + d {
      assert a == (a + b)[..|a|] && b == (a + b)[|a|..];
      assert c == (c + d)[..|c|] && d == (c + d)[|c|..];
    }
  }

  lemma RoundRetranslates(a: Message, r: Message, t: seq<Message>, d: seq<Message>)
    requires IsRound(a, r) && CallsOf(a.content.blocks) != [] && Retranslates(t, d)
    ensures Retranslates([a, r] + t, [Erase(a), Erase(r)] + d)
  {
    EraseRound(a, r);
    RoundCalls(a, r);
    RoundCalls(Erase(a), Erase(r));
    RoundPairsIds(a, r);
    hide Erase, NativeOf, CallsOf, IsRound;
    var all, again := [a, r] + t, [Erase(a), Erase(r)] + d;
    assert all[..2] == [a, r] && again[..2] == [Erase(a), Erase(r)] && all[2..] == t && again[2..] == d;
    RoundsStep(again, 2);
    SilenceStep(all, 2);
    RoundThenNative(all);
    RoundThenNative(again);
    assert NoSilentRound([a, r]);
    hide NoSilentRound, EveryRoundCalls, ToNative;
    JoinRight(NativeOf(a), NativeOf(r), ToNative(t));
    JoinRight(NativeOf(a), NativeOf(r), ToNative(d));
    HeadsThenTails(NativeOf(a) + NativeOf(r), ToNative(d), NativeOf(a) + NativeOf(r), ToNative(t));
  }

  lemma IdleParts(a: Message, r: Message)
    requires IsRound(a, r) && CallsOf(a.content.blocks) == []
    ensures a.role == Assistant && r.role == User && a.content.Blocks? && NativeOf(r) == []
    ensures var text := Join(TextsOf(a.content.blocks));
      && NativeOf(Message(Assistant, Plain(text))) == [Native(AsAssistant, Some(text), [], None)]
      && NativeOf(a) == [Native(AsAssistant, if text == "" then None else Some(text), [], None)]
      && (NoSilentRound([a, r]) <==> text != "")
  {
    DecodeIdleRound(a, r, []);
    RoundPairsIds(a, r);
    hide Join, TextsOf, IsRound;
    assert [a, r][0] == a;
  }

  /** A plain turn in front of a transcript. */
  lemma PlainFirst(m: Message, d: seq<Message>)
    requires m.content.Plain? && Buildable(d) && EveryRoundCalls(d)
    ensures Buildable([m] + d) && EveryRoundCalls([m] + d) && ToNative([m] + d) == NativeOf(m) + ToNative(d)
  {
    assert ([m] + d)[1..] == d && ([m] + d)[..1] == [m];
    assert EveryRoundCalls([m]);
    RoundsStep([m] + d, 1);
  }

  /** An idle round in front of a transcript. */
  lemma IdleFirst(a: Message, r: Message, t: seq<Message>)
    requires NativeOf(r) == []
    ensures ToNative([a, r] + t) == NativeOf(a) + ToNative(t)
    ensures NoSilentRound([a, r] + t) <==> NoSilentRound([a, r]) && NoSilentRound(t)
  {
    hide NativeOf, NoSilentRound;
    var all := [a, r] + t;
    assert all[..2] == [a, r] && all[2..] == t;
    SilenceStep(all, 2);
    RoundThenNative(all);
    assert [] + ToNative(t) == ToNative(t);
  }

  lemma IdleRetranslates(a: Message, r: Message, t: seq<Message>, d: seq<Message>)
    requires IsRound(a, r) && CallsOf(a.content.blocks) == [] && Retranslates(t, d)
    ensures Retranslates([a, r] + t, [Message(Assistant, Plain(Join(TextsOf(a.content.blocks))))] + d)
  {
    hide NativeOf, CallsOf, TextsOf, Join, IsRound, NoSilentRound, EveryRoundCalls, Buildable, ToNative;
    IdleParts(a, r);
    var plain := Message(Assistant, Plain(Join(TextsOf(a.content.blocks))));
    PlainFirst(plain, d);
    IdleFirst(a, r, t);
    HeadsThenTails(NativeOf(plain), ToNative(d), NativeOf(a), ToNative(t));
  }

  lemma {:induction false} DecodeRetranslates(t: seq<Message>)
    requires Buildable(t)
    ensures Retranslates(t, Decode(ToNative(t)))
    decreases |t|
  {
    hide Retranslates;
    if t == [] {
      EmptyRetranslates();
    } else if t[0].content.Plain? {
      DecodeRetranslates(t[1..]);
      DecodePlain(t[0], ToNative(t[1..]));
      PlainRetranslates(t[0], t[1..], Decode(ToNative(t[1..])));
      assert t == [t[0]] + t[1..];
    } else {
      DecodeRetranslates(t[2..]);
      RoundFirst(t);
    }
  }

  lemma EmptyRetranslates()
    ensures Retranslates([], Decode(ToNative([])))
  {
  }

  lemma {:induction false} RoundFirst(t: seq<Message>)
    requires |t| >= 2 && IsRound(t[0], t[1]) && Buildable(t[2..]) && Retranslates(t[2..], Decode(ToNative(t[2..])))
    ensures Retranslates(t, Decode(ToNative(t)))
  {
    hide Decode, IsRound, NativeOf, Erase, Buildable, ToNative, CallsOf, TextsOf, Join, Retranslates;
    var rest := ToNative(t[2..]);
    RoundCalls(t[0], t[1]);
    RoundThenNative(t);
    RestIsNoTool(t[2..]);
    assert t == [t[0], t[1]] + t[2..];
    if CallsOf(t[0].content.blocks) == [] {
      DecodeIdleRound(t[0], t[1], rest);
      IdleRetranslates(t[0], t[1], t[2..], Decode(rest));
    } else {
      DecodeRound(t[0], t[1], rest);
      RoundRetranslates(t[0], t[1], t[2..], Decode(rest));
    }
  }

  /**
   A transcript with a round that makes no call translates like another that the
   loop can build, one with calls in every round, if and only if each such round
   has a text: it then reads as a plain turn, and no decoding can tell the two apart.
   */
  lemma IdleRoundsShareTranslationIff(t: seq<Message>)
    requires Buildable(t) && !EveryRoundCalls(t)
    ensures var d := Decode(ToNative(t));
      && Buildable(d) && EveryRoundCalls(d) && EraseAll(d) != EraseAll(t)
      && (ToNative(d) == ToNative(t) <==> NoSilentRound(t))
    ensures NoSilentRound(t) <==> exists d :: Buildable(d) && EveryRoundCalls(d) && ToNative(d) == ToNative(t)
  {
    DecodeRetranslates(t);
    DecodeInverts(t);
    hide Decode, Buildable, EveryRoundCalls, NoSilentRound, ToNative;
    forall d | Buildable(d) && EveryRoundCalls(d) && ToNative(d) == ToNative(t) ensures NoSilentRound(t) {
      DecodeInverts(d);
      SameNative(d);
    }
  }

  /** Error marks do not show in the translation. */
  lemma SameNative(d: seq<Message>)
    requires Buildable(d) && EveryRoundCalls(d)
    ensures ToNative(EraseAll(d)) == ToNative(d)
  {
    DecodeInverts(d);
    DecodeRetranslates(d);
    hide Decode, Buildable, EraseAll;
  }

  // ── Ollama ──────────────────────────────────────────────────────────────

  /** A native `/api/chat` message: calls carry no id, results may carry the tool's name. */
  datatype OllamaMessage = OllamaMessage(role: NativeRole, content: string, calls: seq<(string, Json)>, toolName: Option<string>)

  function Bare(calls: seq<ToolCall>): seq<(string, Json)> {
    seq(|calls|, i requires 0 <= i < |calls| => (calls[i].name, calls[i].input))
  }

  /** All tool calls of a transcript's assistant turns, in order. */
  function AllCalls(t: seq<Message>): seq<ToolCall> {
    if t == [] then []
    else (if t[0].role == Assistant && t[0].content.Blocks? then CallsOf(t[0].content.blocks) else []) + AllCalls(t[1..])
  }

  /** The dict comprehension: a later call with the same id wins. */
  function IdToName(calls: seq<ToolCall>): map<string, string> {
    if calls == [] then map[]
    else IdToName(calls[..|calls| - 1])[calls[|calls| - 1].id := calls[|calls| - 1].name]
  }

  /** A missing or empty name leaves `tool_name` off. */
  function Label(names: map<string, string>, id: string): Option<string> {
    if id in names && names[id] != "" then Some(names[id]) else None
  }

  function OllamaResults(names: map<string, string>, results: seq<ToolResult>): seq<OllamaMessage> {
    seq(|results|, i requires 0 <= i < |results| => OllamaMessage(AsTool, results[i].content, [], Label(names, results[i].id)))
  }

  function OllamaOf(names: map<string, string>, m: Message): seq<OllamaMessage> {
    if m.content.Plain? then [OllamaMessage(RoleOf(m.role), m.content.text, [], None)]
    else if m.role == Assistant then
      [OllamaMessage(AsAssistant, Join(TextsOf(m.content.blocks)), Bare(CallsOf(m.content.blocks)), None)]
    else OllamaResults(names, ResultsOf(m.content.blocks))
  }

  function OllamaFrom(names: map<string, string>, t: seq<Message>): seq<OllamaMessage> {
    if t == [] then [] else OllamaOf(names, t[0]) + OllamaFrom(names, t[1..])
  }

  function ToOllama(t: seq<Message>): seq<OllamaMessage> {
    OllamaFrom(IdToName(AllCalls(t)), t)
  }

  /** One message's share of the native list. */
  method OllamaMessagesOf(names: map<string, string>, m: Message) returns (out: seq<OllamaMessage>)
    ensures out == OllamaOf(names, m)
  {
    if m.content.Plain? {
      return [OllamaMessage(RoleOf(m.role), m.content.text, [], None)];
    }
    if m.role == Assistant {
      return [OllamaMessage(AsAssistant, Join(TextsOf(m.content.blocks)), Bare(CallsOf(m.content.blocks)), None)];
    }
    var results := ResultsOf(m.content.blocks);
    out := [];
    for j := 0 to |results|
      invariant out == OllamaResults(names, results)[..j]
    {
      out := out + [OllamaMessage(AsTool, results[j].content, [], Label(names, results[j].id))];
    }
  }

  method OllamaMessages(messages: seq<Message>) returns (out: seq<OllamaMessage>)
    ensures out == ToOllama(messages)
  {
    var idToName := IdToName(AllCalls(messages));
    out := [];
    for i := 0 to |messages|
      invariant out + OllamaFrom(idToName, messages[i..]) == ToOllama(messages)
    {
      hide OllamaOf, IdToName, AllCalls;
      var more := OllamaMessagesOf(idToName, messages[i]);
      assert messages[i..][1..] == messages[i + 1..];
      JoinRight(out, more, OllamaFrom(idToName, messages[i + 1..]));
      out := out + more;
    }
  }

  /** What passes in a conversation, whatever carries it. */
  datatype Item = Said(role: NativeRole, text: string) | Called(name: string, input: Json) | Answered(content: string)

  function BlockItems(role: NativeRole, bs: seq<Block>): seq<Item> {
    if bs == [] then []
    else
      [match bs[0]
       case TextBlock(text) => Said(role, text)
       case ToolUse(call) => Called(call.name, call.input)
       case ResultBlock(result) => Answered(result.content)]
      + BlockItems(role, bs[1..])
  }

  function MessageItems(m: Message): seq<Item> {
    match m.content
    case Plain(text) => [Said(RoleOf(m.role), text)]
    case Blocks(bs) => BlockItems(RoleOf(m.role), bs)
  }

  function Items(t: seq<Message>): seq<Item> {
    if t == [] then [] else MessageItems(t[0]) + Items(t[1..])
  }

  function CallItems(calls: seq<(string, Json)>): seq<Item> {
    seq(|calls|, i requires 0 <= i < |calls| => Called(calls[i].0, calls[i].1))
  }

  /** An empty text beside tool calls says nothing. */
  function OllamaMessageItems(n: OllamaMessage): seq<Item> {
    if n.role == AsTool then [Answered(n.content)]
    else (if n.content == "" && n.calls != [] then [] else [Said(n.role, n.content)]) + CallItems(n.calls)
  }

  function OllamaItems(ns: seq<OllamaMessage>): seq<Item> {
    if ns == [] then [] else OllamaMessageItems(ns[0]) + OllamaItems(ns[1..])
  }

  lemma OllamaItemsUnfold(n: OllamaMessage, a: seq<OllamaMessage>)
    ensures OllamaItems([n] + a) == OllamaMessageItems(n) + OllamaItems(a)
  {
    assert ([n] + a)[1..] == a;
  }

  lemma {:induction false} OllamaItemsConcat(a: seq<OllamaMessage>, b: seq<OllamaMessage>)
    ensures OllamaItems(a + b) == OllamaItems(a) + OllamaItems(b)
  {
    if a == [] {
      assert a + b == b;
    } else {
      var n, rest := a[0], a[1..];
      calc {
        OllamaItems(a + b);
        { assert a + b == [n] + (rest + b); OllamaItemsUnfold(n, rest + b); }
        OllamaMessageItems(n) + OllamaItems(rest + b);
        { OllamaItemsConcat(rest, b); }
        OllamaMessageItems(n) + (OllamaItems(rest) + OllamaItems(b));
        { JoinRight(OllamaMessageItems(n), OllamaItems(rest), OllamaItems(b)); }
        OllamaMessageItems(n) + OllamaItems(rest) + OllamaItems(b);
        { assert a == [n] + rest; OllamaItemsUnfold(n, rest); }
        OllamaItems(a) + OllamaItems(b);
      }
    }
  }

  lemma {:induction false} ItemsOfUses(calls: seq<ToolCall>)
    ensures BlockItems(AsAssistant, UseBlocks(calls)) == CallItems(Bare(calls))
  {
    if calls != [] {
      ItemsOfUses(calls[1..]);
      assert UseBlocks(calls)[1..] == UseBlocks(calls[1..]);
      assert CallItems(Bare(calls)) == [Called(calls[0].name, calls[0].input)] + CallItems(Bare(calls[1..]));
    }
  }

  lemma {:induction false} ItemsOfResults(names: map<string, string>, results: seq<ToolResult>)
    ensures BlockItems(AsUser, ResultBlocks(results)) == OllamaItems(OllamaResults(names, results))
  {
    if results != [] {
      ItemsOfResults(names, results[1..]);
      assert ResultBlocks(results)[1..] == ResultBlocks(results[1..]);
      assert OllamaResults(names, results)[1..] == OllamaResults(names, results[1..]);
    }
  }

  lemma ItemsOfCalls(names: map<string, string>, p: Parsed)
    requires p.calls != []
    ensures OllamaItems(OllamaOf(names, AssistantTurn(p))) == MessageItems(AssistantTurn(p))
  {
    PartsOfAssistantTurn(p);
    ItemsOfUses(p.calls);
    var bs := AssistantTurn(p).content.blocks;
    if p.text != "" {
      assert bs[0] == TextBlock(p.text) && bs[1..] == UseBlocks(p.calls);
    } else {
      assert bs == UseBlocks(p.calls);
    }
    hide UseBlocks;
    var n := OllamaMessage(AsAssistant, p.text, Bare(p.calls), None);
    assert OllamaOf(names, AssistantTurn(p)) == [n];
    assert OllamaItems([n]) == OllamaMessageItems(n);
    assert Bare(p.calls) != [];
  }

  lemma ItemsOfRound(names: map<string, string>, a: Message, r: Message)
    requires IsRound(a, r) && CallsOf(a.content.blocks) != []
    ensures OllamaItems(OllamaOf(names, a)) == MessageItems(a) && OllamaItems(OllamaOf(names, r)) == MessageItems(r)
  {
    var p, results := RoundParts(a, r);
    PartsOfAssistantTurn(p);
    PartsOfResults(results);
    hide OllamaItems, OllamaResults, ResultBlocks, UseBlocks, BlockItems;
    ItemsOfCalls(names, p);
    ItemsOfResults(names, results);
  }

  /** The same texts, calls and results pass, in the same order. */
  lemma {:induction false} OllamaKeepsItems(names: map<string, string>, t: seq<Message>)
    requires Buildable(t) && EveryRoundCalls(t)
    ensures OllamaItems(OllamaFrom(names, t)) == Items(t)
    decreases |t|
  {
    if t != [] {
      OllamaItemsConcat(OllamaOf(names, t[0]), OllamaFrom(names, t[1..]));
      if t[0].content.Plain? {
        RoundsStep(t, 1);
        OllamaKeepsItems(names, t[1..]);
        assert OllamaItems(OllamaOf(names, t[0])) == MessageItems(t[0]);
      } else {
        RoundPairsIds(t[0], t[1]);
        assert CallsOf(t[0].content.blocks) != [];
        ItemsOfRound(names, t[0], t[1]);
        assert t[1..][1..] == t[2..];
        OllamaItemsConcat(OllamaOf(names, t[1]), OllamaFrom(names, t[2..]));
        RoundsStep(t, 2);
        OllamaKeepsItems(names, t[2..]);
        assert Items(t) == MessageItems(t[0]) + (MessageItems(t[1]) + Items(t[2..]));
      }
    }
  }

  // ── Naming the call a result answers ────────────────────────────────────

  /** Names on the tool messages, in order. */
  function NameOn(n: OllamaMessage): seq<Option<string>> {
    if n.role == AsTool then [n.toolName] else []
  }

  function ToolNames(ns: seq<OllamaMessage>): seq<Option<string>> {
    if ns == [] then [] else NameOn(ns[0]) + ToolNames(ns[1..])
  }

  lemma LabelsConcat(names: map<string, string>, a: seq<ToolCall>, b: seq<ToolCall>)
    ensures Labels(names, a + b) == Labels(names, a) + Labels(names, b)
  {
  }

  lemma {:induction false} ToolNamesConcat(a: seq<OllamaMessage>, b: seq<OllamaMessage>)
    ensures ToolNames(a + b) == ToolNames(a) + ToolNames(b)
  {
    if a == [] {
      assert a + b == b;
    } else {
      hide NameOn;
      ToolNamesConcat(a[1..], b);
      assert (a + b)[1..] == a[1..] + b;
      JoinRight(NameOn(a[0]), ToolNames(a[1..]), ToolNames(b));
    }
  }

  function Labels(names: map<string, string>, calls: seq<ToolCall>): seq<Option<string>> {
    seq(|calls|, i requires 0 <= i < |calls| => Label(names, calls[i].id))
  }

  /** The name each call's answer should carry. */
  function OwnLabels(calls: seq<ToolCall>): seq<Option<string>> {
    seq(|calls|, i requires 0 <= i < |calls| => if calls[i].name == "" then None else Some(calls[i].name))
  }

  lemma {:induction false} NamesOfResults(names: map<string, string>, results: seq<ToolResult>, calls: seq<ToolCall>)
    requires |results| == |calls| && forall j | 0 <= j < |results| :: results[j].id == calls[j].id
    ensures ToolNames(OllamaResults(names, results)) == Labels(names, calls)
  {
    if results != [] {
      NamesOfResults(names, results[1..], calls[1..]);
      assert OllamaResults(names, results)[1..] == OllamaResults(names, results[1..]);
      assert Labels(names, calls) == [Label(names, calls[0].id)] + Labels(names, calls[1..]);
    }
  }

  lemma NamesOfRound(names: map<string, string>, a: Message, r: Message)
    requires IsRound(a, r)
    ensures a.role == Assistant && a.content.Blocks? && r.role == User && r.content.Blocks?
    ensures ToolNames(OllamaOf(names, a)) == [] && ToolNames(OllamaOf(names, r)) == Labels(names, CallsOf(a.content.blocks))
  {
    var p, results := RoundParts(a, r);
    PartsOfAssistantTurn(p);
    PartsOfResults(results);
    NamesOfResults(names, results, p.calls);
  }

  lemma CallsOfRound(t: seq<Message>)
    requires |t| >= 2 && IsRound(t[0], t[1])
    ensures AllCalls(t) == CallsOf(t[0].content.blocks) + AllCalls(t[2..])
  {
    RoundPairsIds(t[0], t[1]);
    RoundCalls(t[0], t[1]);
    hide CallsOf, UseIds, ResultIds, IsRound;
    assert t[1..][1..] == t[2..];
    assert AllCalls(t[1..]) == AllCalls(t[2..]);
  }

  /** The tool messages carry, in order, the names found under the ids of the transcript's calls. */
  lemma {:induction false} NamesInOrder(names: map<string, string>, t: seq<Message>)
    requires Buildable(t)
    ensures ToolNames(OllamaFrom(names, t)) == Labels(names, AllCalls(t))
    decreases |t|
  {
    if t != [] {
      ToolNamesConcat(OllamaOf(names, t[0]), OllamaFrom(names, t[1..]));
      if t[0].content.Plain? {
        NamesInOrder(names, t[1..]);
      } else {
        NamesOfRound(names, t[0], t[1]);
        assert t[1..][1..] == t[2..];
        ToolNamesConcat(OllamaOf(names, t[1]), OllamaFrom(names, t[2..]));
        NamesInOrder(names, t[2..]);
        LabelsConcat(names, CallsOf(t[0].content.blocks), AllCalls(t[2..]));
        CallsOfRound(t);
      }
    }
  }

  /** Calls that share an id share their name. */
  ghost predicate IdsAgree(calls: seq<ToolCall>) {
    forall i, j | 0 <= i < |calls| && 0 <= j < |calls| && calls[i].id == calls[j].id :: calls[i].name == calls[j].name
  }

  /** The map holds, for each id, the name of its last call. */
  lemma {:induction false} IdToNameIsLast(calls: seq<ToolCall>, i: nat)
    requires i < |calls|
    ensures calls[i].id in IdToName(calls)
    ensures exists j | i <= j < |calls| :: calls[j].id == calls[i].id && IdToName(calls)[calls[i].id] == calls[j].name
  {
    var k := |calls| - 1;
    if calls[i].id == calls[k].id {
      assert IdToName(calls)[calls[i].id] == calls[k].name;
    } else {
      IdToNameIsLast(calls[..k], i);
      var j :| i <= j < |calls[..k]| && calls[..k][j].id == calls[..k][i].id
        && IdToName(calls[..k])[calls[..k][i].id] == calls[..k][j].name;
      assert calls[j] == calls[..k][j];
    }
  }

  /** Each tool message names the very call it answers if and only if no id is shared by calls of different names. */
  lemma ResultsNameTheirCalls(t: seq<Message>)
    requires Buildable(t)
    ensures ToolNames(ToOllama(t)) == OwnLabels(AllCalls(t)) <==> IdsAgree(AllCalls(t))
  {
    hide Buildable, ToolNames, IdToName, AllCalls;
    var calls := AllCalls(t);
    var names := IdToName(calls);
    NamesInOrder(names, t);
    if IdsAgree(calls) {
      forall i | 0 <= i < |calls| ensures Labels(names, calls)[i] == OwnLabels(calls)[i] {
        IdToNameIsLast(calls, i);
      }
      assert Labels(names, calls) == OwnLabels(calls);
    } else {
      var i, j :| 0 <= i < |calls| && 0 <= j < |calls| && calls[i].id == calls[j].id && calls[i].name != calls[j].name;
      assert Labels(names, calls)[i] == Labels(names, calls)[j];
      assert OwnLabels(calls)[i] != OwnLabels(calls)[j];
    }
  }
}
