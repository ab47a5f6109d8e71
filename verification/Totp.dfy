/**
 The broker's TOTP store: enrolment, verification with a replay guard, and the
 attempt rate limit. Each store call is one step.
 */
module Totp {
  import opened Prelude

  const RATE_MAX := 5
  const RATE_WINDOW := 60.0
  const STEP_S := 30.0

  /** `seed` stands for the sealed secret; `code(seed, step)` for the digits shown at a step. */
  datatype User = User(email: string, seed: Option<nat>, enrolled: bool, lastStep: Option<int>)

  type Users = map<string, User>

  type CodeBook = (nat, int) -> string

  function StepAt(wall: real): int {
    (wall / STEP_S).Floor
  }

  /** The step of the first of the moments one period back, now, and one period ahead whose code is the given one. */
  function MatchStep(code: CodeBook, seed: nat, given: string, wall: real): Option<int> {
    if code(seed, StepAt(wall - STEP_S)) == given then Some(StepAt(wall - STEP_S))
    else if code(seed, StepAt(wall)) == given then Some(StepAt(wall))
    else if code(seed, StepAt(wall + STEP_S)) == given then Some(StepAt(wall + STEP_S))
    else None
  }

  /** The window is one step either side (RFC 6238, section 5.2), and the code shown is the one asked for. */
  lemma MatchStepIsWithinOne(code: CodeBook, seed: nat, given: string, wall: real)
    ensures var step := MatchStep(code, seed, given, wall);
      && (step.Some? ==> StepAt(wall) - 1 <= step.value <= StepAt(wall) + 1 && code(seed, step.value) == given)
      && (step.None? <==> forall s | StepAt(wall) - 1 <= s <= StepAt(wall) + 1 :: code(seed, s) != given)
  {
    assert (wall - STEP_S) / STEP_S == wall / STEP_S - 1.0;
    assert (wall + STEP_S) / STEP_S == wall / STEP_S + 1.0;
  }

  // ── Rate limit ──────────────────────────────────────────────────────────

  /** Attempts still inside the window that ends now. */
  function Recent(log: seq<real>, now: real): seq<real> {
    if log == [] then []
    else
      var t := log[|log| - 1];
      Recent(log[..|log| - 1], now) + if now - t < RATE_WINDOW then [t] else []
  }

  /** The verdict on an attempt, judged by the complete log of earlier attempts. */
  predicate Admitted(log: seq<real>, now: real) {
    |Recent(log + [now], now)| <= RATE_MAX
  }

  lemma RecentAppend(log: seq<real>, t: real, now: real)
    ensures Recent(log + [t], now) == if now - t < RATE_WINDOW then Recent(log, now) + [t] else Recent(log, now)
  {
    assert (log + [t])[..|log|] == log;
  }

  /** Pruning at an earlier moment loses nothing that still matters later. */
  lemma {:induction false} PruningIsHarmless(log: seq<real>, then': real, now: real)
    requires then' <= now
    ensures Recent(Recent(log, then'), now) == Recent(log, now)
  {
    if log != [] {
      var before, t := log[..|log| - 1], log[|log| - 1];
      PruningIsHarmless(before, then', now);
      RecentAppend(Recent(before, then'), t, now);
      assert log == before + [t];
      RecentAppend(before, t, now);
      assert Recent(log, then') == if then' - t < RATE_WINDOW then Recent(before, then') + [t] else Recent(before, then');
    }
  }

  ghost predicate NonDecreasing(log: seq<real>) {
    forall i, j | 0 <= i < j < |log| :: log[i] <= log[j]
  }

  /** All attempts from the `i`-th on that lie within the window are counted against the last one. */
  lemma {:induction false} RecentCounts(log: seq<real>, i: nat, now: real)
    requires i <= |log| && NonDecreasing(log)
    requires forall k | i <= k < |log| :: now - log[k] < RATE_WINDOW
    ensures |Recent(log, now)| >= |log| - i
  {
    if i < |log| {
      RecentCounts(log[..|log| - 1], i, now);
    }
  }

  /** Whether the `j`-th attempt of a complete log was let through. */
  predicate AdmittedAt(log: seq<real>, j: nat)
    requires j < |log|
  {
    Admitted(log[..j], log[j])
  }

  function AdmittedBetween(log: seq<real>, i: nat, j: nat): nat
    requires i <= j <= |log|
  {
    if i == j then 0 else AdmittedBetween(log, i, j - 1) + if AdmittedAt(log, j - 1) then 1 else 0
  }

  /** No window shorter than the limit's sixty seconds lets more than five attempts through. */
  lemma {:induction false} WindowAdmitsFive(log: seq<real>, i: nat, j: nat)
    requires i < j <= |log| && NonDecreasing(log) && log[j - 1] - log[i] < RATE_WINDOW
    ensures AdmittedBetween(log, i, j) <= RATE_MAX
    ensures AdmittedBetween(log, i, j) <= j - i
  {
    if i < j - 1 {
      WindowAdmitsFive(log, i, j - 1);
    }
    if AdmittedAt(log, j - 1) {
      var upto := log[..j - 1] + [log[j - 1]];
      assert upto == log[..j];
      RecentCounts(upto, i, log[j - 1]);
    }
  }

  // ── One row ─────────────────────────────────────────────────────────────

  function BeginUser(u: User, seed: nat): User {
    if u.enrolled then u else u.(seed := Some(seed), lastStep := None)
  }

  /** The step a confirmation consumes, if it succeeds. */
  function ConfirmStep(code: CodeBook, u: User, given: string, wall: real, admitted: bool): Option<int> {
    if !admitted || u.seed.None? || u.enrolled then None else MatchStep(code, u.seed.value, given, wall)
  }

  /** The step a verification consumes, if it succeeds. */
  function VerifyStep(code: CodeBook, u: User, given: string, wall: real, admitted: bool): Option<int> {
    if !admitted || !u.enrolled || u.seed.None? then None
    else
      var step := MatchStep(code, u.seed.value, given, wall);
      if step.Some? && u.lastStep.Some? && step.value <= u.lastStep.value then None else step
  }

  // ── Rows and names ──────────────────────────────────────────────────────

  /** UNIQUE COLLATE NOCASE. */
  ghost predicate UniqueEmails(users: Users) {
    forall a, b | a in users && b in users && Fold(users[a].email) == Fold(users[b].email) :: a == b
  }

  /** The row an identifier names: SELECT … WHERE account_id=? OR email=? COLLATE NOCASE. */
  ghost function RowOf(users: Users, ident: string): (id: Option<string>)
    ensures id.Some? ==> id.value in users && (id.value == ident || (ident !in users && Fold(users[id.value].email) == Fold(ident)))
    ensures id.None? ==> ident !in users && forall k | k in users :: Fold(users[k].email) != Fold(ident)
  {
    if ident in users then Some(ident)
    else if exists k :: k in users && Fold(users[k].email) == Fold(ident) then
      var k :| k in users && Fold(users[k].email) == Fold(ident);
      Some(k)
    else None
  }

  lemma RowIsUnique(users: Users, ident: string, k: string)
    requires UniqueEmails(users) && ident !in users && k in users && Fold(users[k].email) == Fold(ident)
    ensures RowOf(users, ident) == Some(k)
  {
  }

  function AttemptLog(log: map<string, seq<real>>, ident: string): seq<real> {
    if ident in log then log[ident] else []
  }

  // ── Runs of the store ───────────────────────────────────────────────────

  /** An accepted code's step, and whether the call named the account by its id rather than by its email. */
  datatype Acceptance = Acceptance(step: int, byId: bool)

  /**
   The store over time. `log` is every attempt under each name; `accepted` lists
   each account's acceptances since its last reset, and `maxStep` is the latest
   wall-clock step met.
   */
  datatype Store = Store(users: Users, log: map<string, seq<real>>, accepted: map<string, seq<Acceptance>>, maxStep: int)

  /** One store call, with the seed drawn or the clocks it met. */
  datatype Call =
    | Begin(ident: string, seed: nat)
    | Confirm(ident: string, given: string, now: real, wall: real)
    | Verify(ident: string, given: string, now: real, wall: real)
    | Reset(ident: string)

  function AcceptedBy(s: Store, id: string): seq<Acceptance> {
    if id in s.accepted then s.accepted[id] else []
  }

  function Attempted(s: Store, ident: string, now: real, wall: real): Store {
    s.(log := s.log[ident := AttemptLog(s.log, ident) + [now]], maxStep := if StepAt(wall) > s.maxStep then StepAt(wall) else s.maxStep)
  }

  /** The account and step a call accepts, if it accepts one. */
  ghost function Accepts(code: CodeBook, s: Store, c: Call): Option<(string, int)> {
    if !c.Confirm? && !c.Verify? then None
    else
      var id, admitted := RowOf(s.users, c.ident), Admitted(AttemptLog(s.log, c.ident), c.now);
      if id.None? then None
      else
        var u := s.users[id.value];
        var step := if c.Confirm? then ConfirmStep(code, u, c.given, c.wall, admitted) else VerifyStep(code, u, c.given, c.wall, admitted);
        if step.None? then None else Some((id.value, step.value))
  }

  /** The table after an acceptance: UPDATE … WHERE account_id=? takes the identifier itself. */
  function Stamped(users: Users, ident: string, step: int, confirms: bool): Users {
    if ident !in users then users
    else users[ident := users[ident].(lastStep := Some(step), enrolled := confirms || users[ident].enrolled)]
  }

  /** The store after an attempt and what it accepted. */
  function Judged(s: Store, c: Call, hit: Option<(string, int)>): Store
    requires c.Confirm? || c.Verify?
  {
    var s' := Attempted(s, c.ident, c.now, c.wall);
    if hit.None? then s'
    else
      s'.(users := Stamped(s.users, c.ident, hit.value.1, c.Confirm?),
          accepted := s.accepted[hit.value.0 := AcceptedBy(s, hit.value.0) + [Acceptance(hit.value.1, c.ident in s.users)]])
  }

  ghost function Do(code: CodeBook, s: Store, c: Call): Store {
    match c
    case Begin(ident, seed) => if ident in s.users then s.(users := s.users[ident := BeginUser(s.users[ident], seed)]) else s
    case Reset(ident) =>
      if ident in s.users then
        s.(users := s.users[ident := User(s.users[ident].email, None, false, None)], accepted := s.accepted[ident := []])
      else s
    case _ => Judged(s, c, Accepts(code, s, c))
  }

  ghost function RunCalls(code: CodeBook, s: Store, calls: seq<Call>): Store {
    if calls == [] then s else Do(code, RunCalls(code, s, calls[..|calls| - 1]), calls[|calls| - 1])
  }

  // ── Replay guard ────────────────────────────────────────────────────────

  ghost predicate Increasing(s: seq<Acceptance>) {
    forall i, j | 0 <= i < j < |s| :: s[i].step < s[j].step
  }

  /** A step accepted by id is below every later one. */
  ghost predicate ByIdPassed(s: seq<Acceptance>) {
    forall i, j | 0 <= i < j < |s| && s[i].byId :: s[i].step < s[j].step
  }

  /** The guard does not stand in the way of this step. */
  predicate Unguarded(u: User, step: int) {
    u.seed.Some? && (u.enrolled && u.lastStep.Some? ==> u.lastStep.value < step)
  }

  /** The guard covers what was accepted by id, and never a last step accepted by email. */
  ghost predicate GuardOk(u: User, s: seq<Acceptance>, maxStep: int) {
    && ByIdPassed(s)
    && (s != [] ==> u.seed.Some? && (s[|s| - 1].byId || Unguarded(u, s[|s| - 1].step)))
    && (forall i | 0 <= i < |s| :: s[i].step <= maxStep + 1)
    && (forall i | 0 <= i < |s| && s[i].byId :: u.enrolled && u.lastStep.Some? && s[i].step <= u.lastStep.value)
  }

  ghost predicate GuardInv(s: Store) {
    && (forall id | id in s.accepted :: id in s.users)
    && forall id | id in s.users :: GuardOk(s.users[id], AcceptedBy(s, id), s.maxStep)
  }

  /** An acceptable hit: the row the call names, a step at most one ahead and past its guard and every step accepted by id. */
  ghost predicate Passes(s: Store, c: Call, hit: (string, int))
    requires c.Confirm? || c.Verify?
  {
    && hit.0 in s.users && hit.1 <= StepAt(c.wall) + 1 && Unguarded(s.users[hit.0], hit.1)
    && (c.ident in s.users ==> hit.0 == c.ident)
    && (c.ident in s.users && c.Verify? ==> s.users[hit.0].enrolled)
    && forall i | 0 <= i < |AcceptedBy(s, hit.0)| && AcceptedBy(s, hit.0)[i].byId :: AcceptedBy(s, hit.0)[i].step < hit.1
  }

  lemma AcceptsPasses(code: CodeBook, s: Store, c: Call)
    requires GuardInv(s) && Accepts(code, s, c).Some?
    ensures Passes(s, c, Accepts(code, s, c).value)
  {
    var (id, step) := Accepts(code, s, c).value;
    MatchStepIsWithinOne(code, s.users[id].seed.value, c.given, c.wall);
    assert GuardOk(s.users[id], AcceptedBy(s, id), s.maxStep);
  }

  lemma AcceptanceKeepsGuard(u: User, s: seq<Acceptance>, maxStep: int, step: int, byId: bool, u': User, maxStep': int)
    requires GuardOk(u, s, maxStep) && maxStep <= maxStep' && step <= maxStep' + 1
    requires Unguarded(u, step) && forall i | 0 <= i < |s| && s[i].byId :: s[i].step < step
    requires if byId then u' == u.(enrolled := true, lastStep := Some(step)) else u' == u
    ensures GuardOk(u', s + [Acceptance(step, byId)], maxStep')
  {
  }

  lemma LaterKeepsGuard(u: User, s: seq<Acceptance>, maxStep: int, maxStep': int)
    requires GuardOk(u, s, maxStep) && maxStep <= maxStep'
    ensures GuardOk(u, s, maxStep')
  {
  }

  /** What an attempt does to one account. */
  lemma JudgedRow(s: Store, c: Call, hit: Option<(string, int)>, id: string)
    requires (c.Confirm? || c.Verify?) && (hit.Some? ==> Passes(s, c, hit.value)) && id in s.users
    ensures var s' := Judged(s, c, hit);
      && s'.users.Keys == s.users.Keys && s.maxStep <= s'.maxStep
      && if hit.Some? && hit.value.0 == id then
           && AcceptedBy(s', id) == AcceptedBy(s, id) + [Acceptance(hit.value.1, c.ident in s.users)]
           && hit.value.1 <= s'.maxStep + 1
           && s'.users[id] == if c.ident in s.users then s.users[id].(enrolled := true, lastStep := Some(hit.value.1)) else s.users[id]
         else AcceptedBy(s', id) == AcceptedBy(s, id) && s'.users[id] == s.users[id]
  {
    hide StepAt, AttemptLog;
  }

  lemma JudgedKeepsGuard(s: Store, c: Call, hit: Option<(string, int)>, id: string)
    requires (c.Confirm? || c.Verify?) && (hit.Some? ==> Passes(s, c, hit.value))
    requires id in s.users && GuardOk(s.users[id], AcceptedBy(s, id), s.maxStep)
    ensures var s' := Judged(s, c, hit); id in s'.users && GuardOk(s'.users[id], AcceptedBy(s', id), s'.maxStep)
  {
    JudgedRow(s, c, hit, id);
    var s' := Judged(s, c, hit);
    hide GuardOk, StepAt, Judged;
    if hit.Some? && hit.value.0 == id {
      AcceptanceKeepsGuard(s.users[id], AcceptedBy(s, id), s.maxStep, hit.value.1, c.ident in s.users, s'.users[id], s'.maxStep);
    } else {
      LaterKeepsGuard(s.users[id], AcceptedBy(s, id), s.maxStep, s'.maxStep);
    }
  }

  lemma AttemptKeepsGuard(s: Store, c: Call, hit: Option<(string, int)>)
    requires GuardInv(s) && (c.Confirm? || c.Verify?) && (hit.Some? ==> Passes(s, c, hit.value))
    ensures GuardInv(Judged(s, c, hit))
  {
    hide GuardOk, StepAt, AttemptLog, Passes;
    var s' := Judged(s, c, hit);
    assert hit.Some? ==> hit.value.0 in s.users by { PassesFinds(s, c, hit); }
    forall id | id in s'.users ensures GuardOk(s'.users[id], AcceptedBy(s', id), s'.maxStep) {
      JudgedKeepsGuard(s, c, hit, id);
    }
  }

  lemma PassesFinds(s: Store, c: Call, hit: Option<(string, int)>)
    requires (c.Confirm? || c.Verify?) && (hit.Some? ==> Passes(s, c, hit.value))
    ensures hit.Some? ==> hit.value.0 in s.users
  {
  }

  /** Beginning anew touches no enrolled row; a reset empties the account's acceptances. */
  lemma AdminKeepsGuard(code: CodeBook, s: Store, c: Call)
    requires GuardInv(s) && (c.Begin? || c.Reset?)
    ensures GuardInv(Do(code, s, c))
  {
    var s' := Do(code, s, c);
    forall id | id in s'.users ensures GuardOk(s'.users[id], AcceptedBy(s', id), s'.maxStep) {
      assert GuardOk(s.users[id], AcceptedBy(s, id), s.maxStep);
      if c.Begin? && id == c.ident {
        BegunKeepsGuard(s.users[id], AcceptedBy(s, id), s.maxStep, c.seed);
      }
      hide ByIdPassed, Unguarded;
    }
  }

  lemma BegunKeepsGuard(u: User, s: seq<Acceptance>, maxStep: int, seed: nat)
    requires GuardOk(u, s, maxStep)
    ensures GuardOk(BeginUser(u, seed), s, maxStep)
  {
  }

  lemma DoKeepsGuard(code: CodeBook, s: Store, c: Call)
    requires GuardInv(s)
    ensures GuardInv(Do(code, s, c))
  {
    hide GuardInv, Passes;
    if c.Confirm? || c.Verify? {
      if Accepts(code, s, c).Some? { AcceptsPasses(code, s, c); }
      hide Accepts, Judged;
      AttemptKeepsGuard(s, c, Accepts(code, s, c));
    } else {
      AdminKeepsGuard(code, s, c);
    }
  }

  lemma {:induction false} RunKeepsGuard(code: CodeBook, s: Store, calls: seq<Call>)
    requires GuardInv(s)
    ensures GuardInv(RunCalls(code, s, calls))
  {
    if calls != [] {
      RunKeepsGuard(code, s, calls[..|calls| - 1]);
      DoKeepsGuard(code, RunCalls(code, s, calls[..|calls| - 1]), calls[|calls| - 1]);
    }
  }

  lemma {:induction false} IncreasingIsShort(s: seq<Acceptance>)
    requires Increasing(s) && s != []
    ensures |s| <= s[|s| - 1].step - s[0].step + 1
  {
    if |s| > 1 {
      IncreasingIsShort(s[..|s| - 1]);
    }
  }

  /**
   Over any run of the store, whatever names its calls use, a step accepted under
   the account's id is below every step accepted later, until a reset.
   */
  lemma AcceptedByIdIsPassed(code: CodeBook, users: Users, start: int, calls: seq<Call>, id: string)
    requires id in users
    ensures ByIdPassed(AcceptedBy(RunCalls(code, Store(users, map[], map[], start), calls), id))
  {
    RunHoldsGuard(code, users, start, calls, id);
  }

  lemma RunHoldsGuard(code: CodeBook, users: Users, start: int, calls: seq<Call>, id: string)
    requires id in users
    ensures var s := RunCalls(code, Store(users, map[], map[], start), calls);
      GuardInv(s) && id in s.users && GuardOk(s.users[id], AcceptedBy(s, id), s.maxStep)
  {
    var init := Store(users, map[], map[], start);
    RunKeepsGuard(code, init, calls);
    UsersStay(code, init, calls);
  }

  ghost predicate SameAccounts(users: Users, users': Users) {
    users'.Keys == users.Keys && forall id | id in users :: users'[id].email == users[id].email
  }

  lemma DoKeepsAccounts(code: CodeBook, s: Store, c: Call)
    ensures SameAccounts(s.users, Do(code, s, c).users)
  {
    hide Accepts, StepAt, AttemptLog;
  }

  /** No call adds, drops or renames an account. */
  lemma {:induction false} UsersStay(code: CodeBook, s: Store, calls: seq<Call>)
    ensures SameAccounts(s.users, RunCalls(code, s, calls).users)
  {
    if calls != [] {
      UsersStay(code, s, calls[..|calls| - 1]);
      DoKeepsAccounts(code, RunCalls(code, s, calls[..|calls| - 1]), calls[|calls| - 1]);
      hide Do;
    }
  }

  lemma RunOneMore(code: CodeBook, s: Store, calls: seq<Call>, c: Call)
    ensures RunCalls(code, s, calls + [c]) == Do(code, RunCalls(code, s, calls), c)
  {
    assert (calls + [c])[..|calls|] == calls;
  }

  /** The account's codes are never submitted under its email. */
  ghost predicate NeverByEmail(users: Users, calls: seq<Call>, id: string)
    requires id in users
  {
    forall c | c in calls && (c.Confirm? || c.Verify?) && Fold(c.ident) == Fold(users[id].email) :: c.ident in users
  }

  /**
   An account whose codes are never submitted under its email never has a step
   accepted twice, so its acceptances are bounded by the steps that passed.
   */
  lemma {:induction false} ByIdStepsIncrease(code: CodeBook, users: Users, start: int, calls: seq<Call>, id: string)
    requires id in users && NeverByEmail(users, calls, id)
    ensures var s := RunCalls(code, Store(users, map[], map[], start), calls);
      var acc := AcceptedBy(s, id);
      Increasing(acc) && (acc != [] ==> |acc| <= s.maxStep + 1 - acc[0].step + 1)
  {
    var init := Store(users, map[], map[], start);
    ByIdOnly(code, init, calls, id);
    RunHoldsGuard(code, users, start, calls, id);
    var acc := AcceptedBy(RunCalls(code, init, calls), id);
    if acc != [] {
      IncreasingIsShort(acc);
    }
  }

  lemma {:induction false} ByIdOnly(code: CodeBook, s: Store, calls: seq<Call>, id: string)
    requires id in s.users && NeverByEmail(s.users, calls, id) && s.accepted == map[]
    ensures forall a | a in AcceptedBy(RunCalls(code, s, calls), id) :: a.byId
  {
    if calls != [] {
      var n := |calls| - 1;
      ByIdOnly(code, s, calls[..n], id);
      UsersStay(code, s, calls[..n]);
      assert calls[n] in calls;
      OneMoreById(code, RunCalls(code, s, calls[..n]), calls[n], id);
    }
  }

  lemma OneMoreById(code: CodeBook, s: Store, c: Call, id: string)
    requires id in s.users && ((c.Confirm? || c.Verify?) && Fold(c.ident) == Fold(s.users[id].email) ==> c.ident in s.users)
    requires forall a | a in AcceptedBy(s, id) :: a.byId
    ensures forall a | a in AcceptedBy(Do(code, s, c), id) :: a.byId
  {
    hide MatchStep, Admitted, StepAt, ConfirmStep, VerifyStep;
  }

  // ── When a step is accepted again ───────────────────────────────────────

  /** The call is accepted for the account, at or below the step last accepted for it. */
  ghost predicate Repeats(code: CodeBook, s: Store, c: Call, id: string) {
    var hit, acc := Accepts(code, s, c), AcceptedBy(s, id);
    acc != [] && hit.Some? && hit.value.0 == id && hit.value.1 <= acc[|acc| - 1].step
  }

  /** Some moment from the given one on finds no earlier attempt in its window. */
  lemma {:induction false} QuietMoment(log: seq<real>, clock: real) returns (now: real)
    ensures clock <= now && Recent(log, now) == []
  {
    now := clock;
    if log != [] {
      var before, t := log[..|log| - 1], log[|log| - 1];
      var quiet := QuietMoment(before, clock);
      now := if quiet < t + RATE_WINDOW then t + RATE_WINDOW else quiet;
      PruningIsHarmless(before, quiet, now);
    }
  }

  /** A step later, a step's own code is matched to it before any other. */
  lemma StepMatchesNext(code: CodeBook, seed: nat, step: int) returns (wall: real)
    ensures StepAt(wall) == step + 1 && MatchStep(code, seed, code(seed, step), wall) == Some(step)
  {
    wall := (step + 1) as real * STEP_S;
    assert wall / STEP_S == (step + 1) as real;
    assert (wall - STEP_S) / STEP_S == step as real;
  }

  /**
   In every store a run can reach, some call is accepted at or below the account's
   last accepted step if and only if that acceptance was not under the account's
   id. The step's own code does it, a step later, once the rate window is past.
   */
  lemma RepeatsIff(code: CodeBook, users: Users, start: int, calls: seq<Call>, id: string, clock: real) returns (again: Call)
    requires id in users && AcceptedBy(RunCalls(code, Store(users, map[], map[], start), calls), id) != []
    ensures var s := RunCalls(code, Store(users, map[], map[], start), calls);
      var last := AcceptedBy(s, id)[|AcceptedBy(s, id)| - 1];
      && ((exists c :: Repeats(code, s, c, id)) <==> !last.byId)
      && (!last.byId ==>
            && Repeats(code, s, again, id) && again.ident == id && (again.Verify? <==> s.users[id].enrolled)
            && s.users[id].seed.Some? && again.given == code(s.users[id].seed.value, last.step)
            && clock <= again.now && StepAt(again.wall) == last.step + 1)
  {
    RunHoldsGuard(code, users, start, calls, id);
    var s := RunCalls(code, Store(users, map[], map[], start), calls);
    var last := AcceptedBy(s, id)[|AcceptedBy(s, id)| - 1];
    hide RunCalls;
    if last.byId {
      forall c ensures !Repeats(code, s, c, id) { PassedIsNotRepeated(code, s, c, id); }
      again := Reset(id);
    } else {
      again := AgainAt(code, s, id, last.step, clock);
      assert Repeats(code, s, again, id);
    }
  }

  lemma PassedIsNotRepeated(code: CodeBook, s: Store, c: Call, id: string)
    requires GuardInv(s) && AcceptedBy(s, id) != [] && AcceptedBy(s, id)[|AcceptedBy(s, id)| - 1].byId
    ensures !Repeats(code, s, c, id)
  {
    if Accepts(code, s, c).Some? {
      AcceptsPasses(code, s, c);
    }
  }

  /** A call under the account's id that is accepted at any step its guard does not cover. */
  lemma AgainAt(code: CodeBook, s: Store, id: string, step: int, clock: real) returns (again: Call)
    requires id in s.users && Unguarded(s.users[id], step)
    ensures Accepts(code, s, again) == Some((id, step)) && again.ident == id && (again.Verify? <==> s.users[id].enrolled)
    ensures again.given == code(s.users[id].seed.value, step) && clock <= again.now && StepAt(again.wall) == step + 1
  {
    var now := QuietMoment(AttemptLog(s.log, id), clock);
    RecentAppend(AttemptLog(s.log, id), now, now);
    var wall := StepMatchesNext(code, s.users[id].seed.value, step);
    hide MatchStep, StepAt, Recent, AttemptLog;
    var given := code(s.users[id].seed.value, step);
    again := if s.users[id].enrolled then Verify(id, given, now, wall) else Confirm(id, given, now, wall);
  }

  /**
   A code that was just accepted is accepted once more, under any name of the
   account and wherever its first match is still the same step, if and only if
   the first call did not name the account by its id. A confirmation by email
   leaves even the enrolment undone, so only a verification is asked for.
   */
  lemma ReplayIff(code: CodeBook, s: Store, first: Call, again: Call)
    requires first.Verify? && Accepts(code, s, first).Some?
    requires again.Verify? && again.given == first.given
    requires var (id, step) := Accepts(code, s, first).value;
      var s' := Do(code, s, first);
      && RowOf(s'.users, again.ident) == Some(id)
      && Admitted(AttemptLog(s'.log, again.ident), again.now)
      && MatchStep(code, s.users[id].seed.value, again.given, again.wall) == Some(step)
    ensures Accepts(code, Do(code, s, first), again) == Accepts(code, s, first) <==> first.ident !in s.users
    ensures first.ident in s.users ==> Accepts(code, Do(code, s, first), again) == None
  {
  }

  /** An attempt by email on an enrolled account with the code of the present step, its guard well past. */
  lemma EmailVerifies(code: CodeBook, s: Store, id: string, c: Call)
    requires UniqueEmails(s.users) && id in s.users && c.Verify? && c.ident !in s.users && Fold(s.users[id].email) == Fold(c.ident)
    requires s.users[id].enrolled && s.users[id].seed.Some?
    requires s.users[id].lastStep.Some? ==> s.users[id].lastStep.value < StepAt(c.wall) - 1
    requires c.given == code(s.users[id].seed.value, StepAt(c.wall)) && Admitted(AttemptLog(s.log, c.ident), c.now)
    ensures var hit := Accepts(code, s, c); var s' := Do(code, s, c);
      && hit.Some? && hit.value.0 == id
      && s'.users == s.users && s'.log == s.log[c.ident := AttemptLog(s.log, c.ident) + [c.now]]
      && AcceptedBy(s', id) == AcceptedBy(s, id) + [Acceptance(hit.value.1, false)]
  {
    RowIsUnique(s.users, c.ident, id);
    MatchStepIsWithinOne(code, s.users[id].seed.value, c.given, c.wall);
  }

  /** Enrolment under the account's id: a seed is drawn and its present code confirmed. */
  lemma Enrols(code: CodeBook, s: Store, id: string, seed: nat, now: real, wall: real)
    requires id in s.users && !s.users[id].enrolled
    requires Admitted(AttemptLog(s.log, id), now)
    ensures var s1 := Do(code, s, Begin(id, seed));
      var c := Confirm(id, code(seed, StepAt(wall)), now, wall);
      var hit, s2 := Accepts(code, s1, c), Do(code, s1, c);
      && hit.Some? && hit.value.1 <= StepAt(wall) + 1
      && s2.users == s.users[id := User(s.users[id].email, Some(seed), true, Some(hit.value.1))]
      && s2.log == s.log[id := AttemptLog(s.log, id) + [now]]
  {
    MatchStepIsWithinOne(code, seed, code(seed, StepAt(wall)), wall);
  }

  lemma NinetySecondsOn(wall: real)
    ensures StepAt(wall + 90.0) == StepAt(wall) + 3
  {
    assert (wall + 90.0) / STEP_S == wall / STEP_S + 3.0;
  }

  /** What two equal verifications by email do in an enrolled store that has not heard the name. */
  lemma EmailVerifiesTwice(code: CodeBook, s: Store, id: string, c: Call)
    requires UniqueEmails(s.users) && id in s.users && c.Verify? && c.ident !in s.users && Fold(s.users[id].email) == Fold(c.ident)
    requires s.users[id].enrolled && s.users[id].seed.Some?
    requires s.users[id].lastStep.Some? ==> s.users[id].lastStep.value < StepAt(c.wall) - 1
    requires c.given == code(s.users[id].seed.value, StepAt(c.wall)) && AttemptLog(s.log, c.ident) == []
    ensures var s' := Do(code, s, c);
      && Accepts(code, s, c).Some? && Accepts(code, s', c) == Accepts(code, s, c)
      && !Increasing(AcceptedBy(Do(code, s', c), id))
  {
    hide Do, Accepts, Admitted, StepAt, Increasing, UniqueEmails, Fold, AcceptedBy;
    FewAreAdmitted([], c.now);
    EmailVerifies(code, s, id, c);
    var s' := Do(code, s, c);
    assert AttemptLog(s'.log, c.ident) == [c.now];
    FewAreAdmitted([c.now], c.now);
    hide AttemptLog;
    EmailVerifies(code, s', id, c);
    SameRowSameHit(code, s, s', c);
    TwiceIsNoIncrease(AcceptedBy(s, id), Accepts(code, s, c).value.1);
  }

  lemma TwiceIsNoIncrease(s: seq<Acceptance>, step: int)
    ensures !Increasing(s + [Acceptance(step, false)] + [Acceptance(step, false)])
  {
    var acc, n := s + [Acceptance(step, false)] + [Acceptance(step, false)], |s|;
    assert acc[n].step == acc[n + 1].step;
  }

  /**
   From any table, for any account not yet enrolled: it enrols under its id, and
   ninety seconds on its email is given the same code twice. Every call succeeds.
   */
  lemma EmailReplays(code: CodeBook, users: Users, id: string, name: string, seed: nat, wall: real) returns (calls: seq<Call>)
    requires UniqueEmails(users) && id in users && !users[id].enrolled
    requires name !in users && Fold(users[id].email) == Fold(name)
    ensures |calls| == 4 && calls[0] == Begin(id, seed) && calls[1].Confirm? && calls[1].ident == id
    ensures calls[2] == calls[3] && calls[2].Verify? && calls[2].ident == name
    ensures calls[1].now < calls[2].now && calls[1].wall < calls[2].wall
    ensures var init := Store(users, map[], map[], 0);
      && (forall k | 1 <= k < 4 :: Accepts(code, RunCalls(code, init, calls[..k]), calls[k]).Some?)
      && Accepts(code, RunCalls(code, init, calls[..3]), calls[3]) == Accepts(code, RunCalls(code, init, calls[..2]), calls[2])
      && !Increasing(AcceptedBy(RunCalls(code, init, calls), id))
  {
    var begin, confirm := Begin(id, seed), Confirm(id, code(seed, StepAt(wall)), 0.0, wall);
    var verify := Verify(name, code(seed, StepAt(wall + 90.0)), 90.0, wall + 90.0);
    calls := [begin, confirm, verify, verify];
    var init := Store(users, map[], map[], 0);
    FourSteps(code, init, calls);
    FewAreAdmitted([], 0.0);
    NinetySecondsOn(wall);
    hide Do, Accepts, Admitted, StepAt, RunCalls, Increasing, UniqueEmails, Fold, AcceptedBy;
    Enrols(code, init, id, seed, 0.0, wall);
    EmailVerifiesTwice(code, RunCalls(code, init, calls[..2]), id, verify);
  }

  lemma FourSteps(code: CodeBook, s: Store, calls: seq<Call>)
    requires |calls| == 4
    ensures RunCalls(code, s, calls[..1]) == Do(code, s, calls[0])
    ensures RunCalls(code, s, calls[..2]) == Do(code, RunCalls(code, s, calls[..1]), calls[1])
    ensures RunCalls(code, s, calls[..3]) == Do(code, RunCalls(code, s, calls[..2]), calls[2])
    ensures RunCalls(code, s, calls) == Do(code, RunCalls(code, s, calls[..3]), calls[3])
  {
    hide Do;
    assert calls[..1] == [] + [calls[0]] && calls[..2] == calls[..1] + [calls[1]];
    assert calls[..3] == calls[..2] + [calls[2]] && calls == calls[..3] + [calls[3]];
    RunOneMore(code, s, [], calls[0]);
    RunOneMore(code, s, calls[..1], calls[1]);
    RunOneMore(code, s, calls[..2], calls[2]);
    RunOneMore(code, s, calls[..3], calls[3]);
  }

  /** What a call accepts depends on the table and on the rate limit's verdict alone. */
  lemma SameRowSameHit(code: CodeBook, s: Store, s': Store, c: Call)
    requires s'.users == s.users && (c.Confirm? || c.Verify?)
    requires Admitted(AttemptLog(s'.log, c.ident), c.now) == Admitted(AttemptLog(s.log, c.ident), c.now)
    ensures Accepts(code, s', c) == Accepts(code, s, c)
  {
  }

  lemma {:induction false} RecentIsShort(log: seq<real>, now: real)
    ensures |Recent(log, now)| <= |log|
  {
    if log != [] { RecentIsShort(log[..|log| - 1], now); }
  }

  lemma FewAreAdmitted(log: seq<real>, now: real)
    requires |log| < RATE_MAX
    ensures Admitted(log, now)
  {
    RecentIsShort(log + [now], now);
  }

  // ── The limit is per spelling ───────────────────────────────────────────

  /** Two spellings of an email find the same row; the attempt lists are kept by spelling. */
  lemma SpellingsShareTheRow(users: Users, a: string, b: string)
    requires UniqueEmails(users) && Fold(a) == Fold(b) && a !in users && b !in users
    ensures RowOf(users, a) == RowOf(users, b)
  {
    if RowOf(users, a).Some? {
      RowIsUnique(users, b, RowOf(users, a).value);
    }
  }

  /** Every one of the calls gets past the rate limit when its turn comes. */
  ghost predicate AllAdmitted(code: CodeBook, s: Store, calls: seq<Call>) {
    calls == [] || (
      var n := |calls| - 1;
      && AllAdmitted(code, s, calls[..n]) && (calls[n].Verify? || calls[n].Confirm?)
      && Admitted(AttemptLog(RunCalls(code, s, calls[..n]).log, calls[n].ident), calls[n].now))
  }

  ghost function CountedUnder(code: CodeBook, s: Store, calls: seq<Call>, name: string, now: real): nat {
    |Recent(AttemptLog(RunCalls(code, s, calls).log, name), now)|
  }

  lemma OneMoreAttempt(code: CodeBook, s: Store, calls: seq<Call>, c: Call)
    requires AllAdmitted(code, s, calls) && c.Verify? && CountedUnder(code, s, calls, c.ident, c.now) < RATE_MAX
    ensures AllAdmitted(code, s, calls + [c])
    ensures forall name :: CountedUnder(code, s, calls + [c], name, c.now)
                        == CountedUnder(code, s, calls, name, c.now) + if name == c.ident then 1 else 0
  {
    var all, before := calls + [c], RunCalls(code, s, calls);
    assert all[..|calls|] == calls;
    assert RunCalls(code, s, all) == Do(code, before, c);
    RecentAppend(AttemptLog(before.log, c.ident), c.now, c.now);
  }

  function FiveTimes(calls: seq<Call>, c: Call): seq<Call> {
    calls + [c] + [c] + [c] + [c] + [c]
  }

  lemma FiveMoreAttempts(code: CodeBook, s: Store, calls: seq<Call>, c: Call)
    requires AllAdmitted(code, s, calls) && c.Verify? && CountedUnder(code, s, calls, c.ident, c.now) == 0
    ensures AllAdmitted(code, s, FiveTimes(calls, c))
    ensures forall name :: CountedUnder(code, s, FiveTimes(calls, c), name, c.now)
                        == CountedUnder(code, s, calls, name, c.now) + if name == c.ident then RATE_MAX else 0
  {
    hide CountedUnder, AllAdmitted;
    OneMoreAttempt(code, s, calls, c);
    OneMoreAttempt(code, s, calls + [c], c);
    OneMoreAttempt(code, s, calls + [c] + [c], c);
    OneMoreAttempt(code, s, calls + [c] + [c] + [c], c);
    OneMoreAttempt(code, s, calls + [c] + [c] + [c] + [c], c);
  }

  /** Five verifications under each name, all at one moment. */
  function Burst(names: seq<string>, given: string, now: real, wall: real): seq<Call> {
    if names == [] then []
    else
      var c := Verify(names[|names| - 1], given, now, wall);
      FiveTimes(Burst(names[..|names| - 1], given, now, wall), c)
  }

  /** What such a burst leaves under every name: five more under each of its own. */
  ghost predicate FiveEach(code: CodeBook, s: Store, names: seq<string>, calls: seq<Call>, now: real) {
    forall name :: CountedUnder(code, s, calls, name, now) == |Recent(AttemptLog(s.log, name), now)| + if name in names then RATE_MAX else 0
  }

  lemma FiveMoreUnderOne(code: CodeBook, s: Store, before: seq<string>, name: string, calls: seq<Call>, c: Call)
    requires c.Verify? && c.ident == name && FiveEach(code, s, before, calls, c.now)
    requires name !in before && Recent(AttemptLog(s.log, name), c.now) == [] && AllAdmitted(code, s, calls)
    ensures AllAdmitted(code, s, FiveTimes(calls, c))
    ensures FiveEach(code, s, before + [name], FiveTimes(calls, c), c.now)
  {
    hide CountedUnder, AllAdmitted, Recent, AttemptLog, FiveTimes;
    assert CountedUnder(code, s, calls, name, c.now) == 0;
    FiveMoreAttempts(code, s, calls, c);
    forall n ensures CountedUnder(code, s, FiveTimes(calls, c), n, c.now)
                  == |Recent(AttemptLog(s.log, n), c.now)| + if n in before + [name] then RATE_MAX else 0 {
      assert n in before + [name] <==> n in before || n == name;
      assert CountedUnder(code, s, calls, n, c.now) == |Recent(AttemptLog(s.log, n), c.now)| + if n in before then RATE_MAX else 0;
    }
  }

  /**
   The limit counts by the spelling given, not by account: at one moment every
   spelling of one account's name, however many there are, gets five attempts.
   */
  lemma {:induction false} EverySpellingGetsFive(code: CodeBook, s: Store, names: seq<string>, given: string, now: real, wall: real)
    requires DistinctNames(names) && forall name | name in names :: Recent(AttemptLog(s.log, name), now) == []
    ensures |Burst(names, given, now, wall)| == RATE_MAX * |names|
    ensures AllAdmitted(code, s, Burst(names, given, now, wall))
    ensures FiveEach(code, s, names, Burst(names, given, now, wall), now)
    decreases |names|
  {
    if names != [] {
      var n := |names| - 1;
      var before, name := names[..n], names[n];
      var calls, c := Burst(before, given, now, wall), Verify(name, given, now, wall);
      hide CountedUnder, AllAdmitted, Recent, AttemptLog, FiveEach;
      assert names == before + [name] && name in names;
      LastNameIsNew(before, name);
      hide DistinctNames;
      EverySpellingGetsFive(code, s, before, given, now, wall);
      assert Burst(names, given, now, wall) == FiveTimes(calls, c);
      hide Burst;
      FiveMoreUnderOne(code, s, before, name, calls, c);
    }
  }

  predicate DistinctNames(names: seq<string>) {
    forall i, j | 0 <= i < j < |names| :: names[i] != names[j]
  }

  lemma LastNameIsNew(before: seq<string>, name: string)
    requires DistinctNames(before + [name])
    ensures DistinctNames(before) && name !in before
    ensures forall n :: n in before + [name] <==> n in before || n == name
  {
    var all := before + [name];
    assert forall i | 0 <= i < |before| :: all[i] == before[i];
    assert all[|before|] == name;
  }

  /** From the given moment on, a pruned list answers every question the complete log would. */
  ghost predicate Tracks(hist: seq<real>, log: seq<real>, clock: real) {
    forall now | clock <= now :: Recent(hist, now) == Recent(log, now)
  }

  lemma TracksStep(hist: seq<real>, log: seq<real>, clock: real, now: real)
    requires Tracks(hist, log, clock) && clock <= now
    ensures Tracks(Recent(hist, now) + [now], log + [now], now)
  {
    hide Recent;
    forall later | now <= later ensures Recent(Recent(hist, now) + [now], later) == Recent(log + [now], later) {
      PruningIsHarmless(hist, now, later);
      RecentAppend(Recent(hist, now), now, later);
      RecentAppend(log, now, later);
    }
  }

  /** Attempts are logged in clock order, none of them in the future. */
  ghost predicate Timely(log: seq<real>, clock: real) {
    NonDecreasing(log) && forall i | 0 <= i < |log| :: log[i] <= clock
  }

  // ── The store ───────────────────────────────────────────────────────────

  /** What the store holds under one name. */
  ghost predicate TracksName(attempts: map<string, seq<real>>, log: map<string, seq<real>>, clock: real, name: string) {
    Tracks(AttemptLog(attempts, name), AttemptLog(log, name), clock) && Timely(AttemptLog(log, name), clock)
  }

  function Recorded(m: map<string, seq<real>>, ident: string, attempts: seq<real>, now: real): map<string, seq<real>> {
    m[ident := attempts + [now]]
  }

  /** One pruned, recorded attempt keeps every list in step. */
  lemma AttemptKeepsTracks(attempts: map<string, seq<real>>, log: map<string, seq<real>>, clock: real,
          ident: string, now: real, name: string)
    requires TracksName(attempts, log, clock, name) && clock <= now
    ensures TracksName(Recorded(attempts, ident, Recent(AttemptLog(attempts, ident), now), now),
                       Recorded(log, ident, AttemptLog(log, ident), now), now, name)
  {
    if name == ident {
      TracksStep(AttemptLog(attempts, ident), AttemptLog(log, ident), clock, now);
    }
  }

  /** The verdict on the pruned list is the complete log's. */
  lemma VerdictAgrees(attempts: map<string, seq<real>>, log: map<string, seq<real>>, clock: real, ident: string, now: real)
    requires TracksName(attempts, log, clock, ident) && clock <= now
    ensures |Recent(AttemptLog(attempts, ident), now) + [now]| <= RATE_MAX <==> Admitted(AttemptLog(log, ident), now)
  {
    RecentAppend(AttemptLog(log, ident), now, now);
  }

  /** The comprehension that drops attempts older than the window. */
  method Prune(hist: seq<real>, now: real) returns (recent: seq<real>)
    ensures recent == Recent(hist, now)
  {
    recent := [];
    var i := 0;
    while i < |hist|
      invariant 0 <= i <= |hist|
      invariant recent == Recent(hist[..i], now)
    {
      assert hist[..i + 1] == hist[..i] + [hist[i]];
      RecentAppend(hist[..i], hist[i], now);
      if now - hist[i] < RATE_WINDOW {
        recent := recent + [hist[i]];
      }
      i := i + 1;
    }
    assert hist[..|hist|] == hist;
  }

  class AuthStore {
    const code: CodeBook
    var users: Users
    var attempts: map<string, seq<real>>
    // Every attempt ever made under each name, the monotonic clock, the acceptances and the latest step.
    ghost var log: map<string, seq<real>>
    ghost var clock: real
    ghost var accepted: map<string, seq<Acceptance>>
    ghost var maxStep: int

    ghost predicate Valid() reads this {
      UniqueEmails(users) && forall name :: TracksName(attempts, log, clock, name)
    }

    ghost function Now(): Store reads this { Store(users, log, accepted, maxStep) }

    constructor (code: CodeBook, users: Users)
      requires UniqueEmails(users)
      ensures Valid() && this.code == code && Now() == Store(users, map[], map[], 0)
    {
      this.code, this.users := code, users;
      attempts, log, clock, accepted, maxStep := map[], map[], 0.0, map[], 0;
    }

    /** Prunes, records and judges one attempt; the verdict is the one the complete log gives. */
    method RateOk(ident: string, now: real) returns (ok: bool)
      requires Valid() && now >= clock
      modifies this`attempts, this`log, this`clock
      ensures Valid() && clock == now
      ensures log == old(log)[ident := AttemptLog(old(log), ident) + [now]]
      ensures ok <==> Admitted(AttemptLog(old(log), ident), now)
    {
      VerdictAgrees(attempts, log, clock, ident, now);
      ghost var attempts' := Recorded(attempts, ident, Recent(AttemptLog(attempts, ident), now), now);
      ghost var log' := Recorded(log, ident, AttemptLog(log, ident), now);
      forall name ensures TracksName(attempts', log', now, name) {
        AttemptKeepsTracks(attempts, log, clock, ident, now, name);
      }
      var hist := Prune(AttemptLog(attempts, ident), now);
      hist := hist + [now];
      attempts := attempts[ident := hist];
      log := log[ident := AttemptLog(log, ident) + [now]];
      clock := now;
      return |hist| <= RATE_MAX;
    }

    method Row(ident: string) returns (id: Option<string>)
      requires UniqueEmails(users)
      ensures id == RowOf(users, ident)
    {
      if ident in users {
        return Some(ident);
      }
      var hits := set k | k in users && Fold(users[k].email) == Fold(ident);
      if hits == {} {
        assert forall k | k in users :: Fold(users[k].email) == Fold(ident) ==> k in hits;
        return None;
      }
      var k :| k in hits;
      RowIsUnique(users, ident, k);
      return Some(k);
    }

    /** Draws a seed for the row found, and stores it if the call names that row by its id. */
    method EnrollBegin(ident: string, seed: nat) returns (r: Result<nat, string>)
      requires Valid()
      modifies this`users
      ensures Valid() && Now() == Do(code, old(Now()), Begin(ident, seed))
      ensures r == match RowOf(old(users), ident)
                   case None => Err("no such account")
                   case Some(id) => if old(users)[id].enrolled then Err("already enrolled") else Ok(seed)
    {
      var id := Row(ident);
      if id.None? {
        return Err("no such account");
      }
      if users[id.value].enrolled {
        return Err("already enrolled");
      }
      // UPDATE … WHERE account_id=? names the row by the identifier itself.
      if ident in users {
        users := users[ident := users[ident].(seed := Some(seed), lastStep := None)];
      }
      return Ok(seed);
    }

    method EnrollConfirm(ident: string, given: string, now: real, wall: real) returns (ok: bool)
      requires Valid() && now >= clock
      modifies this
      ensures Valid() && clock == now
      ensures Now() == Do(code, old(Now()), Confirm(ident, given, now, wall))
      ensures ok <==> Accepts(code, old(Now()), Confirm(ident, given, now, wall)).Some?
    {
      hide MatchStep, Admitted, TracksName, StepAt;
      maxStep := if StepAt(wall) > maxStep then StepAt(wall) else maxStep;
      var admitted := RateOk(ident, now);
      if !admitted {
        return false;
      }
      var id := Row(ident);
      if id.None? || users[id.value].seed.None? || users[id.value].enrolled {
        return false;
      }
      var step := MatchStep(code, users[id.value].seed.value, given, wall);
      if step.None? {
        return false;
      }
      accepted := accepted[id.value := AcceptedBy(old(Now()), id.value) + [Acceptance(step.value, ident in users)]];
      if ident in users {
        users := users[ident := users[ident].(enrolled := true, lastStep := step)];
      }
      return true;
    }

    /** Judged by the row found under either name; the guard is written under the name given. */
    method Verify(ident: string, given: string, now: real, wall: real) returns (ok: bool)
      requires Valid() && now >= clock
      modifies this
      ensures Valid() && clock == now
      ensures Now() == Do(code, old(Now()), Call.Verify(ident, given, now, wall))
      ensures ok <==> Accepts(code, old(Now()), Call.Verify(ident, given, now, wall)).Some?
      ensures ok ==> (users != old(users) <==> ident in old(users))
    {
      hide MatchStep, Admitted, TracksName, StepAt;
      maxStep := if StepAt(wall) > maxStep then StepAt(wall) else maxStep;
      var admitted := RateOk(ident, now);
      if !admitted {
        return false;
      }
      var id := Row(ident);
      if id.None? || !users[id.value].enrolled || users[id.value].seed.None? {
        return false;
      }
      var row := users[id.value];
      var step := MatchStep(code, row.seed.value, given, wall);
      if step.None? {
        return false;
      }
      if row.lastStep.Some? && step.value <= row.lastStep.value {
        return false;
      }
      accepted := accepted[id.value := AcceptedBy(old(Now()), id.value) + [Acceptance(step.value, ident in users)]];
      if ident in users {
        users := users[ident := users[ident].(lastStep := step)];
        assert users[ident].lastStep != old(users)[ident].lastStep;
      }
      return true;
    }

    method ResetTotp(ident: string) returns (ok: bool)
      requires Valid()
      modifies this`users, this`accepted
      ensures Valid() && Now() == Do(code, old(Now()), Reset(ident))
      ensures ok <==> ident in old(users)
    {
      if ident !in users {
        return false;
      }
      users := users[ident := users[ident].(seed := None, enrolled := false, lastStep := None)];
      accepted := accepted[ident := []];
      return true;
    }
  }
}
