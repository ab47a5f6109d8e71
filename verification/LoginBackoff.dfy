/**
 Login backoff, derived from the `auth_events` log. Times are whole seconds, the
 resolution of `created_at`.
 */
module LoginBackoff {
  import opened Prelude

  const BASE_S := 3
  const CAP_S := 900
  const WINDOW_S := 3600

  datatype Kind = LoginOk | LoginFail | TotpFail | LoginBlocked | SessionCreate

  datatype Event = Event(email: string, kind: Kind, at: int)

  type Log = seq<Event>

  predicate Counted(k: Kind) {
    k == LoginFail || k == TotpFail
  }

  predicate Concerns(e: Event, email: string) {
    Fold(e.email) == Fold(email)
  }

  /** Time of the latest successful login, if any. */
  function LastOk(log: Log, email: string): Option<int> {
    if log == [] then None
    else
      var e, before := log[|log| - 1], LastOk(log[..|log| - 1], email);
      if e.kind == LoginOk && Concerns(e, email) then
        Some(if before.Some? && before.value > e.at then before.value else e.at)
      else before
  }

  predicate Counts(e: Event, email: string, from: int, after: Option<int>) {
    Counted(e.kind) && Concerns(e, email) && e.at >= from && (after.Some? ==> e.at > after.value)
  }

  /** Times of the failures the query selects, in log order. */
  function Selected(log: Log, email: string, from: int, after: Option<int>): seq<int> {
    if log == [] then []
    else
      var e := log[|log| - 1];
      Selected(log[..|log| - 1], email, from, after) + if Counts(e, email, from, after) then [e.at] else []
  }

  lemma SelectedAppend(log: Log, e: Event, email: string, from: int, after: Option<int>)
    ensures Selected(log + [e], email, from, after)
         == if Counts(e, email, from, after) then Selected(log, email, from, after) + [e.at] else Selected(log, email, from, after)
  {
    assert (log + [e])[..|log|] == log;
  }

  function Max(s: seq<int>): int
    requires s != []
  {
    if |s| == 1 || s[|s| - 1] >= Max(s[..|s| - 1]) then s[|s| - 1] else Max(s[..|s| - 1])
  }

  function Pow2(n: nat): (p: nat)
    ensures p >= 1
  {
    if n == 0 then 1 else 2 * Pow2(n - 1)
  }

  /** Wait demanded after the `n`-th counted failure. */
  function Cooldown(n: nat): nat
    requires n > 0
  {
    var c := BASE_S * Pow2(n - 1);
    if c <= CAP_S then c else CAP_S
  }

  function WaitSeconds(log: Log, email: string, now: int): nat {
    var fails := Selected(log, email, now - WINDOW_S, LastOk(log, email));
    if fails == [] then 0
    else
      var remaining := Cooldown(|fails|) - (now - Max(fails));
      if remaining > 0 then remaining else 0
  }

  // ── How the wait moves ──────────────────────────────────────────────────

  /** Only a counted failure or a success of the same email can change the wait. */
  lemma OnlyCountedEventsMatter(log: Log, e: Event, email: string, now: int)
    requires !Concerns(e, email) || (!Counted(e.kind) && e.kind != LoginOk)
    ensures WaitSeconds(log + [e], email, now) == WaitSeconds(log, email, now)
  {
    assert (log + [e])[..|log|] == log;
    SelectedAppend(log, e, email, now - WINDOW_S, LastOk(log, email));
  }

  /** Polling a locked account never moves its timer, nor anyone else's. */
  lemma BlockedNeverExtends(log: Log, blocked: string, at: int, email: string, now: int)
    ensures WaitSeconds(log + [Event(blocked, LoginBlocked, at)], email, now) == WaitSeconds(log, email, now)
  {
    OnlyCountedEventsMatter(log, Event(blocked, LoginBlocked, at), email, now);
  }

  lemma {:induction false} LaterSelectsFewer(log: Log, email: string, from: int, from': int, after: Option<int>)
    requires from <= from'
    ensures |Selected(log, email, from', after)| <= |Selected(log, email, from, after)|
    ensures Selected(log, email, from', after) != [] ==>
              Max(Selected(log, email, from', after)) == Max(Selected(log, email, from, after))
    ensures Selected(log, email, from, after) != [] && Max(Selected(log, email, from, after)) >= from' ==>
              Selected(log, email, from', after) != []
  {
    if log != [] {
      var e, before := log[|log| - 1], log[..|log| - 1];
      LaterSelectsFewer(before, email, from, from', after);
      assert log == before + [e];
      SelectedAppend(before, e, email, from, after);
      SelectedAppend(before, e, email, from', after);
      SelectedBound(before, email, from, after);
      SelectedBound(before, email, from', after);
      MaxAppend(Selected(before, email, from, after), e.at);
      MaxAppend(Selected(before, email, from', after), e.at);
    }
  }

  lemma {:induction false} SelectedBound(log: Log, email: string, from: int, after: Option<int>)
    ensures forall t | t in Selected(log, email, from, after) :: t >= from
  {
    if log != [] {
      SelectedBound(log[..|log| - 1], email, from, after);
    }
  }

  lemma MaxAppend(s: seq<int>, x: int)
    ensures Max(s + [x]) == if s != [] && Max(s) > x then Max(s) else x
    ensures Max(s + [x]) >= x
    ensures s != [] ==> Max(s) in s
  {
    assert (s + [x])[..|s|] == s;
    if s != [] { MaxIn(s); }
  }

  lemma {:induction false} MaxIn(s: seq<int>)
    requires s != []
    ensures Max(s) in s && forall x | x in s :: x <= Max(s)
  {
    if |s| > 1 {
      MaxIn(s[..|s| - 1]);
      assert s == s[..|s| - 1] + [s[|s| - 1]];
    }
  }

  lemma {:induction false} CooldownGrows(m: nat, n: nat)
    requires 0 < m <= n
    ensures Cooldown(m) <= Cooldown(n)
  {
    Pow2Grows(m - 1, n - 1);
  }

  lemma {:induction false} Pow2Grows(m: nat, n: nat)
    requires m <= n
    ensures Pow2(m) <= Pow2(n)
  {
    if m < n { Pow2Grows(m, n - 1); }
  }

  /** With no new event, each passing second takes at least a second off the wait. */
  lemma WaitRunsDown(log: Log, email: string, now: int, later: int)
    requires now <= later
    ensures var left := WaitSeconds(log, email, now) - (later - now);
      WaitSeconds(log, email, later) <= if left > 0 then left else 0
  {
    var after := LastOk(log, email);
    LaterSelectsFewer(log, email, now - WINDOW_S, later - WINDOW_S, after);
    var fails, fails' := Selected(log, email, now - WINDOW_S, after), Selected(log, email, later - WINDOW_S, after);
    if fails' != [] {
      CooldownGrows(|fails'|, |fails|);
    }
  }

  /** Once the returned number of seconds has passed, the caller is clear. */
  lemma WaitIsEnough(log: Log, email: string, now: int, later: int)
    requires later >= now + WaitSeconds(log, email, now)
    ensures WaitSeconds(log, email, later) == 0
  {
    WaitRunsDown(log, email, now, later);
  }

  // ── The bound on guesses ────────────────────────────────────────────────

  /**
   The service at one moment: the log, a clock, and the login attempts that have
   passed the gate and are with the broker, by folded email and gate time.
   Attempts for one email are serialised.
   */
  datatype Gate = Gate(log: Log, now: int, pending: map<string, int>)

  datatype Step =
    | Tick(now: int)
    | Attempt(email: string)
    | Settle(email: string, outcome: Outcome)

  /** How the broker and the user table answer an attempt. */
  datatype Outcome = BadPassword | Unlinked | Inactive | NeedsCode | BadCode | Success

  /** The events one settled attempt leaves in the log. */
  function EventsOf(email: string, outcome: Outcome, at: int): Log {
    match outcome
    case BadPassword => [Event(email, LoginFail, at)]
    case Inactive => [Event(email, LoginFail, at)]
    case BadCode => [Event(email, TotpFail, at)]
    case Success => [Event(email, LoginOk, at), Event(email, SessionCreate, at)]
    case Unlinked => []
    case NeedsCode => []
  }

  predicate Enabled(g: Gate, s: Step) {
    match s
    case Tick(now) => now >= g.now
    case Attempt(email) => Fold(email) !in g.pending
    case Settle(email, _) => Fold(email) in g.pending
  }

  function Next(g: Gate, s: Step): Gate {
    match s
    case Tick(now) => g.(now := now)
    case Attempt(email) =>
      if WaitSeconds(g.log, email, g.now) > 0 then g.(log := g.log + [Event(email, LoginBlocked, g.now)])
      else g.(pending := g.pending[Fold(email) := g.now])
    case Settle(email, outcome) =>
      g.(log := g.log + EventsOf(email, outcome, g.now), pending := g.pending - {Fold(email)})
  }

  /** A counted failure entered the log only after the gate was clear for it. */
  ghost predicate Gated(log: Log) {
    forall i | 0 <= i < |log| && Counted(log[i].kind) ::
      exists gate | gate <= log[i].at :: WaitSeconds(log[..i], log[i].email, gate) == 0
  }

  ghost predicate Ordered(log: Log) {
    forall i, j | 0 <= i < j < |log| :: log[i].at <= log[j].at
  }

  ghost predicate Inv(g: Gate) {
    && Gated(g.log)
    && Ordered(g.log)
    && (forall i | 0 <= i < |g.log| :: g.log[i].at <= g.now)
    && (forall email :: Fold(email) in g.pending ==>
          g.pending[Fold(email)] <= g.now && WaitSeconds(g.log, email, g.pending[Fold(email)]) == 0)
  }

  ghost function Run(start: int, steps: seq<Step>): Gate {
    if steps == [] then Gate([], start, map[])
    else
      var g := Run(start, steps[..|steps| - 1]);
      if Enabled(g, steps[|steps| - 1]) then Next(g, steps[|steps| - 1]) else g
  }

  lemma FoldDetermines(log: Log, a: string, b: string, now: int)
    requires Fold(a) == Fold(b)
    ensures WaitSeconds(log, a, now) == WaitSeconds(log, b, now)
  {
    FoldDeterminesLastOk(log, a, b);
    FoldDeterminesSelected(log, a, b, now - WINDOW_S, LastOk(log, a));
  }

  lemma {:induction false} FoldDeterminesLastOk(log: Log, a: string, b: string)
    requires Fold(a) == Fold(b)
    ensures LastOk(log, a) == LastOk(log, b)
  {
    if log != [] {
      FoldDeterminesLastOk(log[..|log| - 1], a, b);
    }
  }

  lemma {:induction false} FoldDeterminesSelected(log: Log, a: string, b: string, from: int, after: Option<int>)
    requires Fold(a) == Fold(b)
    ensures Selected(log, a, from, after) == Selected(log, b, from, after)
  {
    if log != [] {
      FoldDeterminesSelected(log[..|log| - 1], a, b, from, after);
    }
  }

  lemma AppendKeepsLog(log: Log, e: Event, gate: int)
    requires Gated(log) && Ordered(log) && forall i | 0 <= i < |log| :: log[i].at <= e.at
    requires Counted(e.kind) ==> gate <= e.at && WaitSeconds(log, e.email, gate) == 0
    ensures Gated(log + [e]) && Ordered(log + [e])
  {
    var log' := log + [e];
    forall i | 0 <= i < |log'| && Counted(log'[i].kind)
      ensures exists gate | gate <= log'[i].at :: WaitSeconds(log'[..i], log'[i].email, gate) == 0
    {
      if i == |log| {
        assert log'[..i] == log;
      } else {
        assert log'[..i] == log[..i];
        assert log'[i] == log[i];
      }
    }
  }

  /** Another email's event leaves a pending attempt's clear gate clear. */
  lemma AppendKeepsPending(g: Gate, e: Event, keep: map<string, int>)
    requires Inv(g) && keep.Keys <= g.pending.Keys && forall k | k in keep :: keep[k] == g.pending[k]
    requires Fold(e.email) !in keep || (!Counted(e.kind) && e.kind != LoginOk)
    ensures forall email :: Fold(email) in keep ==> WaitSeconds(g.log + [e], email, keep[Fold(email)]) == 0
  {
    forall email | Fold(email) in keep
      ensures WaitSeconds(g.log + [e], email, keep[Fold(email)]) == 0
    {
      OnlyCountedEventsMatter(g.log, e, email, keep[Fold(email)]);
    }
  }

  lemma AppendKeepsInv(g: Gate, e: Event, keep: map<string, int>)
    requires Inv(g) && e.at == g.now
    requires keep.Keys <= g.pending.Keys && forall k | k in keep :: keep[k] == g.pending[k]
    requires Counted(e.kind) || e.kind == LoginOk ==> Fold(e.email) in g.pending && Fold(e.email) !in keep
    ensures Inv(Gate(g.log + [e], g.now, keep))
  {
    AppendKeepsLog(g.log, e, if Counted(e.kind) then g.pending[Fold(e.email)] else 0);
    AppendKeepsPending(g, e, keep);
  }

  lemma StepKeepsInv(g: Gate, s: Step)
    requires Inv(g) && Enabled(g, s)
    ensures Inv(Next(g, s))
  {
    hide WaitSeconds;
    match s
    case Tick(now) =>
    case Attempt(email) =>
      if WaitSeconds(g.log, email, g.now) > 0 {
        AppendKeepsInv(g, Event(email, LoginBlocked, g.now), g.pending);
      } else {
        forall other | Fold(other) == Fold(email) ensures WaitSeconds(g.log, other, g.now) == 0 {
          FoldDetermines(g.log, other, email, g.now);
        }
      }
    case Settle(email, outcome) =>
      var keep, events := g.pending - {Fold(email)}, EventsOf(email, outcome, g.now);
      if events == [] {
        assert g.log + events == g.log;
      } else {
        AppendKeepsInv(g, events[0], keep);
        if outcome == Success {
          AppendKeepsInv(Gate(g.log + [events[0]], g.now, keep), events[1], keep);
          assert g.log + events == g.log + [events[0]] + [events[1]];
        }
      }
  }

  lemma {:induction false} RunKeepsInv(start: int, steps: seq<Step>)
    ensures Inv(Run(start, steps))
  {
    if steps != [] {
      var g := Run(start, steps[..|steps| - 1]);
      RunKeepsInv(start, steps[..|steps| - 1]);
      if Enabled(g, steps[|steps| - 1]) {
        StepKeepsInv(g, steps[|steps| - 1]);
      }
    }
  }

  /** Times of the counted failures of one email between two instants, in log order. */
  function FailsWithin(log: Log, email: string, from: int, to: int): seq<int> {
    if log == [] then []
    else
      var e := log[|log| - 1];
      FailsWithin(log[..|log| - 1], email, from, to)
      + if Counted(e.kind) && Concerns(e, email) && from <= e.at <= to then [e.at] else []
  }

  lemma FailsAppend(log: Log, e: Event, email: string, from: int, to: int)
    ensures FailsWithin(log + [e], email, from, to)
         == if Counted(e.kind) && Concerns(e, email) && from <= e.at <= to then FailsWithin(log, email, from, to) + [e.at]
            else FailsWithin(log, email, from, to)
  {
    assert (log + [e])[..|log|] == log;
  }

  ghost predicate NoSuccess(log: Log, email: string, from: int, to: int) {
    forall i | 0 <= i < |log| && log[i].kind == LoginOk && Concerns(log[i], email) :: !(from <= log[i].at <= to)
  }

  /** Least time from the first of `n + 1` failures to the last. */
  function Spread(n: nat): nat {
    if n == 0 then 0 else Spread(n - 1) + Cooldown(n)
  }

  lemma SpreadOfThirteen()
    ensures Spread(11) == 3333 && Spread(12) == 4233
  {
    assert Pow2(8) == 256 && Pow2(9) == 512;
    assert Spread(4) == 45;
    assert Spread(8) == 765;
    assert Spread(9) == 1533;
    assert Cooldown(10) == 900 && Pow2(10) == 1024;
    assert Cooldown(11) == 900 && Pow2(11) == 2048;
    assert Cooldown(12) == 900;
  }

  lemma {:induction false} LastOkBefore(log: Log, email: string, from: int, to: int)
    requires Ordered(log) && NoSuccess(log, email, from, to)
    requires forall i | 0 <= i < |log| :: log[i].at <= to
    ensures LastOk(log, email).Some? ==> LastOk(log, email).value < from
  {
    if log != [] {
      LastOkBefore(log[..|log| - 1], email, from, to);
    }
  }

  /** The query at any instant of the window selects every failure the window has seen. */
  lemma {:induction false} WindowIsSelected(log: Log, email: string, from: int, to: int, gate: int, after: Option<int>)
    requires Ordered(log) && (forall i | 0 <= i < |log| :: log[i].at <= to)
    requires after.Some? ==> after.value < from
    requires gate - WINDOW_S <= from
    ensures |FailsWithin(log, email, from, to)| <= |Selected(log, email, gate - WINDOW_S, after)|
    ensures FailsWithin(log, email, from, to) != [] ==>
              && Selected(log, email, gate - WINDOW_S, after) != []
              && Max(Selected(log, email, gate - WINDOW_S, after))
                   >= FailsWithin(log, email, from, to)[|FailsWithin(log, email, from, to)| - 1]
  {
    if log != [] {
      hide Selected, FailsWithin, Max, Fold;
      var before, e := log[..|log| - 1], log[|log| - 1];
      WindowIsSelected(before, email, from, to, gate, after);
      assert log == before + [e];
      SelectedAppend(before, e, email, gate - WINDOW_S, after);
      FailsAppend(before, e, email, from, to);
      var fails := Counted(e.kind) && Concerns(e, email) && from <= e.at <= to;
      OneMoreCovered(Selected(before, email, gate - WINDOW_S, after), FailsWithin(before, email, from, to), e.at,
                     Counts(e, email, gate - WINDOW_S, after), fails);
    }
  }

  /** A selection at least as long and as late as the failures stays so. */
  lemma OneMoreCovered(sel: seq<int>, fails: seq<int>, at: int, selected: bool, failed: bool)
    requires |fails| <= |sel| && (fails != [] ==> Max(sel) >= fails[|fails| - 1])
    requires failed ==> selected
    ensures var sel', fails' := (if selected then sel + [at] else sel), (if failed then fails + [at] else fails);
      |fails'| <= |sel'| && (fails' != [] ==> Max(sel') >= fails'[|fails'| - 1])
  {
    MaxAppend(sel, at);
  }

  /** The next failure of a success-free window keeps clear of the one before by the cooldown. */
  lemma NextFailureWaits(before: Log, e: Event, email: string, from: int, to: int, gate: int)
    requires Ordered(before) && NoSuccess(before, email, from, to) && from <= e.at <= to <= from + WINDOW_S
    requires forall i | 0 <= i < |before| :: before[i].at <= e.at
    requires Concerns(e, email) && gate <= e.at && WaitSeconds(before, e.email, gate) == 0
    requires FailsWithin(before, email, from, to) != []
    ensures var f := FailsWithin(before, email, from, to);
      e.at >= f[|f| - 1] + Cooldown(|f|)
  {
    var f := FailsWithin(before, email, from, to);
    FoldDetermines(before, e.email, email, gate);
    LastOkBefore(before, email, from, to);
    WindowIsSelected(before, email, from, to, gate, LastOk(before, email));
    CooldownGrows(|f|, |Selected(before, email, gate - WINDOW_S, LastOk(before, email))|);
  }

  /** Failures inside a success-free window are spaced by the growing cooldown. */
  lemma {:induction false} FailuresSpread(log: Log, email: string, from: int, to: int)
    requires Gated(log) && Ordered(log) && NoSuccess(log, email, from, to)
    requires from <= to <= from + WINDOW_S
    ensures var f := FailsWithin(log, email, from, to);
      f != [] ==> from <= f[0] && f[|f| - 1] <= to && f[|f| - 1] >= f[0] + Spread(|f| - 1)
  {
    if log != [] {
      var n := |log| - 1;
      var before, e := log[..n], log[n];
      PrefixKeeps(log);
      FailuresSpread(before, email, from, to);
      assert log == before + [e];
      FailsAppend(before, e, email, from, to);
      var f := FailsWithin(before, email, from, to);
      if Counted(e.kind) && Concerns(e, email) && from <= e.at <= to && f != [] {
        var gate :| gate <= e.at && WaitSeconds(log[..n], e.email, gate) == 0;
        NextFailureWaits(before, e, email, from, to, gate);
      }
    }
  }

  lemma {:induction false} SpreadGrows(m: nat, n: nat)
    requires m <= n
    ensures Spread(m) <= Spread(n)
  {
    if m < n { SpreadGrows(m, n - 1); }
  }

  lemma PrefixKeeps(log: Log)
    requires Gated(log) && Ordered(log) && log != []
    ensures Gated(log[..|log| - 1]) && Ordered(log[..|log| - 1])
  {
    var before := log[..|log| - 1];
    forall i | 0 <= i < |before| && Counted(before[i].kind)
      ensures exists gate | gate <= before[i].at :: WaitSeconds(before[..i], before[i].email, gate) == 0
    {
      assert before[i] == log[i] && before[..i] == log[..i];
    }
  }

  /**
   In any run with serialised attempts, no hour without a successful login of an
   email holds more than twelve counted failures of it.
   */
  lemma AtMostTwelveFailures(start: int, steps: seq<Step>, email: string, from: int)
    requires NoSuccess(Run(start, steps).log, email, from, from + WINDOW_S)
    ensures |FailsWithin(Run(start, steps).log, email, from, from + WINDOW_S)| <= 12
  {
    var log := Run(start, steps).log;
    RunKeepsInv(start, steps);
    FailuresSpread(log, email, from, from + WINDOW_S);
    SpreadOfThirteen();
    var f := FailsWithin(log, email, from, from + WINDOW_S);
    if |f| > 12 {
      SpreadGrows(12, |f| - 1);
    }
  }

  // ── The bound is attained ───────────────────────────────────────────────

  /** Guessing as fast as the gate allows. */
  function Hammer(email: string, n: nat): seq<Step> {
    if n == 0 then []
    else Hammer(email, n - 1) + [Tick(Spread(n - 1))] + [Attempt(email)] + [Settle(email, BadPassword)]
  }

  function Guesses(email: string, n: nat): Log {
    if n == 0 then [] else Guesses(email, n - 1) + [Event(email, LoginFail, Spread(n - 1))]
  }

  lemma RunAppend(start: int, steps: seq<Step>, s: Step)
    ensures Run(start, steps + [s])
         == if Enabled(Run(start, steps), s) then Next(Run(start, steps), s) else Run(start, steps)
  {
    assert (steps + [s])[..|steps|] == steps;
  }

  lemma LastOkAppend(log: Log, e: Event, email: string)
    requires e.kind != LoginOk
    ensures LastOk(log + [e], email) == LastOk(log, email)
  {
    assert (log + [e])[..|log|] == log;
  }

  lemma {:induction false} GuessesNoSuccess(email: string, n: nat)
    ensures LastOk(Guesses(email, n), email).None?
    ensures forall i | 0 <= i < |Guesses(email, n)| :: Guesses(email, n)[i].kind == LoginFail
  {
    if n > 0 {
      GuessesNoSuccess(email, n - 1);
      LastOkAppend(Guesses(email, n - 1), Event(email, LoginFail, Spread(n - 1)), email);
    }
  }

  lemma {:induction false} GuessesSelected(email: string, n: nat, from: int)
    requires from <= 0
    ensures |Selected(Guesses(email, n), email, from, None)| == n
    ensures n > 0 ==> Max(Selected(Guesses(email, n), email, from, None)) == Spread(n - 1)
  {
    if n > 0 {
      var e := Event(email, LoginFail, Spread(n - 1));
      GuessesSelected(email, n - 1, from);
      SelectedAppend(Guesses(email, n - 1), e, email, from, None);
      MaxAppend(Selected(Guesses(email, n - 1), email, from, None), e.at);
    }
  }

  lemma {:induction false} GuessesCounted(email: string, n: nat)
    requires n == 0 || Spread(n - 1) <= WINDOW_S
    ensures |FailsWithin(Guesses(email, n), email, 0, WINDOW_S)| == n
  {
    if n > 0 {
      GuessesCounted(email, n - 1);
      FailsAppend(Guesses(email, n - 1), Event(email, LoginFail, Spread(n - 1)), email, 0, WINDOW_S);
    }
  }

  /** Each guess comes when the wait for the ones before it has just run down. */
  lemma NextGuessIsAdmitted(email: string, n: nat)
    requires Spread(n) <= WINDOW_S
    ensures WaitSeconds(Guesses(email, n), email, Spread(n)) == 0
  {
    GuessesNoSuccess(email, n);
    GuessesSelected(email, n, Spread(n) - WINDOW_S);
  }

  /** One wrong password from a caller who is clear and has no attempt under way. */
  lemma GuessRound(start: int, steps: seq<Step>, email: string, at: int)
    requires var g := Run(start, steps); g.pending == map[] && g.now <= at && WaitSeconds(g.log, email, at) == 0
    ensures Run(start, steps + [Tick(at)] + [Attempt(email)] + [Settle(email, BadPassword)])
         == Gate(Run(start, steps).log + [Event(email, LoginFail, at)], at, map[])
  {
    hide Run, WaitSeconds, Fold;
    RunAppend(start, steps, Tick(at));
    RunAppend(start, steps + [Tick(at)], Attempt(email));
    RunAppend(start, steps + [Tick(at)] + [Attempt(email)], Settle(email, BadPassword));
    var k := Fold(email);
    assert map[k := at] - {k} == map[];
  }

  lemma {:induction false} HammerRun(email: string, n: nat)
    requires n > 0 ==> Spread(n - 1) <= WINDOW_S
    ensures Run(0, Hammer(email, n)) == Gate(Guesses(email, n), if n == 0 then 0 else Spread(n - 1), map[])
  {
    if n > 0 {
      HammerRun(email, n - 1);
      NextGuessIsAdmitted(email, n - 1);
      hide Run, WaitSeconds;
      GuessRound(0, Hammer(email, n - 1), email, Spread(n - 1));
    }
  }

  /** Twelve failures in one success-free hour do happen. */
  lemma TwelveAreReachable(email: string)
    ensures NoSuccess(Run(0, Hammer(email, 12)).log, email, 0, WINDOW_S)
    ensures |FailsWithin(Run(0, Hammer(email, 12)).log, email, 0, WINDOW_S)| == 12
  {
    SpreadOfThirteen();
    HammerRun(email, 12);
    GuessesCounted(email, 12);
    GuessesNoSuccess(email, 12);
  }

  // ── The handlers ────────────────────────────────────────────────────────

  /** The login endpoint over its append-only log. */
  class AuthLog {
    var events: Log

    constructor ()
      ensures events == []
    {
      events := [];
    }

    /**
     One login request: the gate reads the log at `gate`, and what the broker
     answers is recorded at `now`. The reply is the HTTP status.
     */
    method Login(email: string, gate: int, now: int, outcome: Outcome) returns (status: int, retryAfter: nat)
      requires gate <= now
      modifies this
      ensures retryAfter == WaitSeconds(old(events), email, gate)
      ensures status == 429 <==> retryAfter > 0
      ensures retryAfter > 0 ==> events == old(events) + [Event(email, LoginBlocked, gate)]
      ensures retryAfter == 0 ==> events == old(events) + EventsOf(email, outcome, now)
      ensures status == 200 <==> retryAfter == 0 && (outcome == NeedsCode || outcome == Success)
      ensures status == 401 <==> retryAfter == 0 && (outcome == BadPassword || outcome == BadCode)
      ensures status == 403 <==> retryAfter == 0 && (outcome == Unlinked || outcome == Inactive)
    {
      retryAfter := WaitSeconds(events, email, gate);
      if retryAfter > 0 {
        events := events + [Event(email, LoginBlocked, gate)];
        return 429, retryAfter;
      }
      match outcome {
        case BadPassword =>
          events := events + [Event(email, LoginFail, now)];
          status := 401;
        case Unlinked =>
          status := 403;
        case Inactive =>
          events := events + [Event(email, LoginFail, now)];
          status := 403;
        case NeedsCode =>
          status := 200;
        case BadCode =>
          events := events + [Event(email, TotpFail, now)];
          status := 401;
        case Success =>
          events := events + [Event(email, LoginOk, now)];
          events := events + [Event(email, SessionCreate, now)];
          status := 200;
      }
      assert events == old(events) + EventsOf(email, outcome, now);
    }
  }
}
