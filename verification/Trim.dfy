/**
 Fitting a transcript into a local model's context window: the newest messages
 that fit beside the system prompt and the reply reserve.
 */
module Trim {
  import opened Transcript

  const CHARS_PER_TOKEN := 4
  const OUTPUT_RESERVE := 2048

  function Est(text: string): nat {
    |text| / CHARS_PER_TOKEN + 1
  }

  /** `dumps` is the JSON text of a block list. */
  type Dumps = seq<Block> -> string

  function MsgTokens(dumps: Dumps, m: Message): nat {
    Est(if m.content.Plain? then m.content.text else dumps(m.content.blocks))
  }

  function Tokens(dumps: Dumps, ms: seq<Message>): nat {
    if ms == [] then 0 else MsgTokens(dumps, ms[0]) + Tokens(dumps, ms[1..])
  }

  /** The messages, the system prompt and the reply reserve share the window. */
  predicate Fits(numCtx: int, dumps: Dumps, ms: seq<Message>, systemText: string) {
    Tokens(dumps, ms) + Est(systemText) + OUTPUT_RESERVE <= numCtx
  }

  /** Index of the first message of the longest suffix that fits, or else of the last message. */
  ghost predicate IsCut(numCtx: int, dumps: Dumps, ms: seq<Message>, systemText: string, k: nat) {
    && k < |ms|
    && (k < |ms| - 1 ==> Fits(numCtx, dumps, ms[k..], systemText))
    && forall j | 0 <= j < k :: !Fits(numCtx, dumps, ms[j..], systemText)
  }

  /** Index of the first user turn at or after the cut, or else of the last message. */
  ghost predicate IsOpening(ms: seq<Message>, k: nat, open: nat) {
    && k <= open < |ms|
    && (forall j | k <= j < open :: ms[j].role != User)
    && (ms[open].role == User || (open == |ms| - 1 && forall j | k <= j < |ms| :: ms[j].role != User))
  }

  lemma {:induction false} LongerCostsMore(dumps: Dumps, ms: seq<Message>, j: nat, k: nat)
    requires j <= k <= |ms|
    ensures Tokens(dumps, ms[j..]) >= Tokens(dumps, ms[k..])
    decreases k - j
  {
    if j < k {
      assert ms[j..][1..] == ms[j + 1..];
      LongerCostsMore(dumps, ms, j + 1, k);
    }
  }

  /** The cut and the opening are unique, so the trimmed transcript is determined. */
  lemma TrimIsDetermined(numCtx: int, dumps: Dumps, ms: seq<Message>, systemText: string, k: nat, k': nat, o: nat, o': nat)
    requires IsCut(numCtx, dumps, ms, systemText, k) && IsCut(numCtx, dumps, ms, systemText, k')
    requires IsOpening(ms, k, o) && IsOpening(ms, k', o')
    ensures k == k' && o == o'
  {
  }

  class OllamaAdapter {
    const numCtx: int
    const dumps: Dumps

    constructor (numCtx: int, dumps: Dumps)
      ensures this.numCtx == numCtx && this.dumps == dumps
    {
      this.numCtx, this.dumps := numCtx, dumps;
    }

    /** Walks newest-first, always keeping the last message. */
    method NewestThatFit(messages: seq<Message>, systemText: string, budget: int) returns (kept: seq<Message>)
      requires messages != [] && budget == numCtx - Est(systemText) - OUTPUT_RESERVE
      ensures 0 < |kept| <= |messages| && kept == messages[|messages| - |kept|..]
      ensures IsCut(numCtx, dumps, messages, systemText, |messages| - |kept|)
    {
      var running, i := 0, |messages|;
      kept := [];
      while i > 0
        invariant 0 <= i <= |messages|
        invariant kept == messages[i..]
        invariant running == Tokens(dumps, messages[i..])
        invariant i < |messages| - 1 ==> running <= budget
      {
        var t := MsgTokens(dumps, messages[i - 1]);
        assert messages[i - 1..][1..] == messages[i..];
        if kept != [] && running + t > budget {
          break;
        }
        kept := [messages[i - 1]] + kept;
        running := running + t;
        i := i - 1;
      }
      forall j | 0 <= j < i ensures !Fits(numCtx, dumps, messages[j..], systemText) {
        LongerCostsMore(dumps, messages, j, i - 1);
      }
    }

    /** Drops leading turns that are not the user's. */
    method DropLeading(messages: seq<Message>) returns (kept: seq<Message>)
      ensures |kept| <= |messages| && kept == messages[|messages| - |kept|..]
      ensures kept != [] ==> kept[0].role == User
      ensures forall j | 0 <= j < |messages| - |kept| :: messages[j].role != User
    {
      kept := messages;
      while kept != [] && kept[0].role != User
        invariant |kept| <= |messages| && kept == messages[|messages| - |kept|..]
        invariant forall j | 0 <= j < |messages| - |kept| :: messages[j].role != User
        decreases |kept|
      {
        kept := kept[1..];
      }
    }

    /**
     Keeps the newest messages that fit, then drops leading turns that are not the
     user's. The result is a non-empty suffix that fits the window or is exactly
     the last message, and it opens on a user turn whenever the transcript ends on one.
     */
    method Trim(messages: seq<Message>, systemText: string) returns (out: seq<Message>)
      ensures messages == [] ==> out == []
      ensures messages != [] ==> 0 < |out| <= |messages| && out == messages[|messages| - |out|..]
      ensures messages != [] ==> Fits(numCtx, dumps, out, systemText) || out == messages[|messages| - 1..]
      ensures messages != [] && messages[|messages| - 1].role == User ==> out[0].role == User
      ensures messages != [] ==>
        exists k: nat :: IsCut(numCtx, dumps, messages, systemText, k) && IsOpening(messages, k, |messages| - |out|)
    {
      var n := |messages|;
      if n == 0 {
        return [];
      }
      var budget := numCtx - Est(systemText) - OUTPUT_RESERVE;
      if budget <= 0 {
        NothingFits(messages, systemText);
        return messages[n - 1..];
      }
      var cut := NewestThatFit(messages, systemText, budget);
      var kept := DropLeading(cut);
      out := if kept != [] then kept else messages[n - 1..];
      ghost var k := n - |cut|;
      TrimIsOpening(messages, k, cut, kept, n - |out|);
      LongerCostsMore(dumps, messages, k, n - |out|);
    }

    lemma TrimIsOpening(messages: seq<Message>, k: nat, cut: seq<Message>, kept: seq<Message>, open: nat)
      requires k < |messages| && cut == messages[k..]
      requires |kept| <= |cut| && kept == cut[|cut| - |kept|..]
      requires kept != [] ==> kept[0].role == User
      requires forall j | 0 <= j < |cut| - |kept| :: cut[j].role != User
      requires open == if kept == [] then |messages| - 1 else |messages| - |kept|
      ensures IsOpening(messages, k, open)
      ensures kept != [] ==> kept == messages[open..]
    {
      forall j | k <= j < k + |cut| - |kept| ensures messages[j].role != User {
        assert messages[j] == cut[j - k];
      }
    }

    lemma NothingFits(messages: seq<Message>, systemText: string)
      requires messages != [] && numCtx - Est(systemText) - OUTPUT_RESERVE <= 0
      ensures IsCut(numCtx, dumps, messages, systemText, |messages| - 1)
      ensures IsOpening(messages, |messages| - 1, |messages| - 1)
    {
      forall j | 0 <= j < |messages| ensures !Fits(numCtx, dumps, messages[j..], systemText) {
        assert Tokens(dumps, messages[j..]) >= 1;
      }
    }
  }
}
