/**
 The browser-chat dispatcher as an interleaved protocol: the supervisor, a poll
 loop per shell, the loops' pool workers, and everything else that writes the
 tables. Every database statement and every hold of a lock is a step of its own.
 */
module Dispatcher {
  import opened Prelude
  import opened PollLoop
  import Transcript

  /** Rows the dispatcher reads and writes: messages, session owners, non-null turn markers, and the shells with `browser_chat` set. */
  datatype Db = Db(msgs: seq<Msg>, owner: map<string, int>, marker: map<string, nat>, browser: set<int>)

  /** Where a poll loop stands; lists fetched earlier may be stale. */
  datatype Phase =
    | Top
    | Fetched(unread: seq<nat>)
    | Checked(unread: seq<nat>)
    | Snapped(unread: seq<nat>, snapshot: set<Key>)
    | Submitting(rest: seq<nat>)    // the lock is held
    | Shutdown                      // waiting for the pool
    | Dead

  /** `turn` is bookkeeping for the proof: the worker submitted for each session in flight. */
  datatype Loop = Loop(shell: int, stop: bool, phase: Phase, flight: Flight, turn: map<Key, nat>)

  /** A worker writes its session's marker, loads the history, does its work, clears the marker, and is released. */
  datatype Stage = Queued | Marked | Loaded(covered: bool) | Answered | Cleared | Gone

  datatype Worker = Worker(loop: nat, msg: nat, stage: Stage)

  /** The supervisor's cycle: the shells still draining and the members it read from the table. */
  datatype Cycle = Idle | Pruned(busy: set<int>) | Discovered(busy: set<int>, current: set<int>)

  /** A submitted turn. */
  datatype Turn = Turn(shell: int, key: Key, msg: nat)

  /** `joined` and `picks` are history: the shells that ever joined, and every turn submitted. */
  datatype State = State(db: Db, loops: seq<Loop>, workers: seq<Worker>, cycle: Cycle, running: map<int, nat>, draining: set<nat>,
                         joined: set<int>, picks: seq<Turn>)

  /**
   What becomes of the reply's POST: answered with success; carried out, but with
   an error or nothing heard back; refused, as a blank body is; or never received.
   */
  datatype Delivery = Landed | LandedUnheard | Refused | Undelivered

  /** What a turn runs into: covered already, its context missing, a reply to post, or an exception before that. */
  datatype Work = Covers | NoContext(delivery: Delivery) | Answers(delivery: Delivery) | Fails

  /** `_request` tells success from everything else. */
  predicate IsError(d: Delivery) {
    d != Landed
  }

  /** `post_reply`'s status. */
  function Status(d: Delivery): nat {
    if IsError(d) then 0 else 200
  }

  predicate CarriedOut(d: Delivery) {
    d == Landed || d == LandedUnheard
  }

  predicate Posts(work: Work) {
    (work.NoContext? || work.Answers?) && CarriedOut(work.delivery)
  }

  /** Whether `process_inbound` raises; the status of the no-context notice is not looked at. */
  predicate Raises(work: Work) {
    work == Fails || (work.Answers? && Status(work.delivery) >= 400)
  }

  /** Whether the turn marks its message read: by the skip, by the reply, or by the exception handler if its own write succeeds. */
  predicate Settles(work: Work, handled: bool) {
    work == Covers || Posts(work) || (Raises(work) && handled)
  }

  datatype Action =
    | Insert(m: Msg) | SetRead(msg: nat) | SetDeleted(msg: nat) | OpenSession(sid: string, shell: int) | Flip(shell: int, on: bool)
    | Prune | Discover | Leave(shell: int) | Join(shell: int) | EndCycle
    | Fetch(l: nat) | Warn(l: nat, now: int) | Snapshot(l: nat) | Choose(l: nat) | Submit(l: nat, now: int) | EndPoll(l: nat)
    | Halt(l: nat) | Exit(l: nat)
    | Mark(w: nat) | MarkFailed(w: nat) | Load(w: nat, window: int) | Process(w: nat, work: Work, handled: bool)
    | Clear(w: nat) | Release(w: nat)

  // ── What a turn makes of its history ────────────────────────────────────

  /** The chat rows as the history query sees them; whether one is covered does not depend on their texts. */
  function Chat(msgs: seq<Msg>): seq<Transcript.ChatRow> {
    seq(|msgs|, i requires 0 <= i < |msgs| => Transcript.ChatRow(msgs[i].session, msgs[i].inbound, msgs[i].deleted, ""))
  }

  /** The loaded history ends on the shell's own turn. */
  predicate HistoryCovers(msgs: seq<Msg>, key: Key, window: int) {
    var h := Transcript.History(Chat(msgs), key, window);
    h != [] && h[|h| - 1].role == Transcript.Assistant
  }

  /** A turn is skipped if and only if its history covers it; an exception can come at any time. */
  predicate Fits(stage: Stage, work: Work) {
    match stage
    case Marked => work == Fails
    case Loaded(covered) => work == Fails || (work == Covers <==> covered)
    case _ => false
  }

  // ── Steps ───────────────────────────────────────────────────────────────

  predicate Alive(s: State, l: nat) {
    l < |s.loops| && s.loops[l].phase != Dead
  }

  predicate Live(s: State, w: nat) {
    w < |s.workers| && s.workers[w].stage != Gone
  }

  /** A live worker at work for a loop on a message that exists. */
  predicate Placed(s: State, w: nat) {
    Live(s, w) && s.workers[w].loop < |s.loops| && s.workers[w].msg < |s.db.msgs|
  }

  function KeyOf(s: State, w: nat): Key
    requires Placed(s, w)
  {
    s.db.msgs[s.workers[w].msg].session
  }

  predicate At(s: State, w: nat, stage: Stage) {
    Placed(s, w) && s.workers[w].stage == stage
  }

  predicate Polling(s: State, l: nat) {
    l < |s.loops| && !(s.loops[l].phase in {Top, Shutdown, Dead})
  }

  predicate Enabled(s: State, a: Action) {
    match a
    case Insert(m) => !m.read && !m.deleted
    case SetRead(msg) => msg < |s.db.msgs|
    case SetDeleted(msg) => msg < |s.db.msgs|
    case OpenSession(sid, _) => sid !in s.db.owner
    case Flip(_, _) => true
    case Prune => s.cycle.Idle?
    case Discover => s.cycle.Pruned?
    case Leave(shell) => s.cycle.Discovered? && shell in s.running && shell !in s.cycle.current && s.running[shell] < |s.loops|
    case Join(shell) => s.cycle.Discovered? && s.running.Keys <= s.cycle.current && shell in s.cycle.current - s.running.Keys - s.cycle.busy
    case EndCycle => true
    case Fetch(l) => l < |s.loops| && s.loops[l].phase == Top && !s.loops[l].stop
    case Warn(l, _) => l < |s.loops| && s.loops[l].phase.Fetched?
    case Snapshot(l) => l < |s.loops| && s.loops[l].phase.Checked?
    case Choose(l) => l < |s.loops| && s.loops[l].phase.Snapped? && Within(s.db.msgs, s.loops[l].phase.unread)
    case Submit(l, _) => l < |s.loops| && s.loops[l].phase.Submitting?
      && s.loops[l].phase.rest != [] && s.loops[l].phase.rest[0] < |s.db.msgs|
    case EndPoll(l) => Polling(s, l)
    case Halt(l) => l < |s.loops| && s.loops[l].phase == Top && s.loops[l].stop
    case Exit(l) => l < |s.loops| && s.loops[l].phase == Shutdown && forall w | 0 <= w < |s.workers| && Live(s, w) :: s.workers[w].loop != l
    case Mark(w) => At(s, w, Queued)
    case MarkFailed(w) => At(s, w, Queued)
    case Load(w, _) => At(s, w, Marked)
    case Process(w, work, _) => Placed(s, w) && Fits(s.workers[w].stage, work)
    case Clear(w) => At(s, w, Answered)
    case Release(w) => At(s, w, Cleared) && !s.loops[s.workers[w].loop].phase.Submitting?
  }

  function WithPhase(s: State, l: nat, p: Phase): State
    requires l < |s.loops|
  {
    s.(loops := s.loops[l := s.loops[l].(phase := p)])
  }

  function WithStage(s: State, w: nat, stage: Stage): State
    requires w < |s.workers|
  {
    s.(workers := s.workers[w := s.workers[w].(stage := stage)])
  }

  /** One turn of the submit loop: skip a session that is in flight, else put it in flight and hand it to the pool. */
  function SubmitNext(s: State, l: nat, now: int): State
    requires Enabled(s, Submit(l, now))
  {
    var loop := s.loops[l];
    var m := loop.phase.rest[0];
    var key, on := s.db.msgs[m].session, loop.(phase := Submitting(loop.phase.rest[1..]));
    if key in loop.flight.inFlight then s.(loops := s.loops[l := on])
    else
      s.(loops := s.loops[l := on.(flight := TakeOff(loop.flight, key, now), turn := loop.turn[key := |s.workers|])],
         workers := s.workers + [Worker(l, m, Queued)],
         picks := s.picks + [Turn(loop.shell, key, m)])
  }

  function Read(db: Db, m: nat): Db
    requires m < |db.msgs|
  {
    db.(msgs := db.msgs[m := db.msgs[m].(read := true)])
  }

  function Deleted(db: Db, m: nat): Db
    requires m < |db.msgs|
  {
    db.(msgs := db.msgs[m := db.msgs[m].(deleted := true)])
  }

  /** A settling turn marks its message read; a reply that is carried out also adds an outbound row. */
  function Worked(db: Db, m: nat, work: Work, handled: bool): Db
    requires m < |db.msgs|
  {
    var db' := if Settles(work, handled) then Read(db, m) else db;
    if Posts(work) then db'.(msgs := db'.msgs + [Msg(db.msgs[m].shell, db.msgs[m].session, false, false, false)]) else db'
  }

  /** The session's marker column, where the session has a row. */
  function SetMarker(db: Db, key: Key, m: Option<nat>): Db {
    if key.None? || key.value !in db.owner then db
    else db.(marker := if m.Some? then db.marker[key.value := m.value] else db.marker - {key.value})
  }

  function ClearMarkers(db: Db, shell: int): Db {
    db.(marker := map sid | sid in db.marker && !(sid in db.owner && db.owner[sid] == shell) :: db.marker[sid])
  }

  function Joined(s: State, shell: int): State {
    s.(db := ClearMarkers(s.db, shell),
       loops := s.loops + [Loop(shell, false, Top, NOTHING_IN_FLIGHT, map[])],
       running := s.running[shell := |s.loops|],
       joined := s.joined + {shell})
  }

  function Left(s: State, shell: int): State
    requires shell in s.running && s.running[shell] < |s.loops|
  {
    var l := s.running[shell];
    s.(loops := s.loops[l := s.loops[l].(stop := true)], running := s.running - {shell}, draining := s.draining + {l})
  }

  function PrunedState(s: State): State {
    var draining := set l | l in s.draining && Alive(s, l);
    s.(draining := draining, cycle := Pruned(set l | l in draining && l < |s.loops| :: s.loops[l].shell))
  }

  function Released(s: State, w: nat): State
    requires Placed(s, w)
  {
    var l, key := s.workers[w].loop, KeyOf(s, w);
    var loop := s.loops[l];
    WithStage(s, w, Gone).(loops := s.loops[l := loop.(flight := Land(loop.flight, key), turn := loop.turn - {key})])
  }

  function Next(s: State, a: Action): State
    requires Enabled(s, a)
  {
    match a
    case Insert(m) => s.(db := s.db.(msgs := s.db.msgs + [m]))
    case SetRead(msg) => s.(db := Read(s.db, msg))
    case SetDeleted(msg) => s.(db := Deleted(s.db, msg))
    case OpenSession(sid, shell) => s.(db := s.db.(owner := s.db.owner[sid := shell]))
    case Flip(shell, on) => s.(db := s.db.(browser := if on then s.db.browser + {shell} else s.db.browser - {shell}))
    case Prune => PrunedState(s)
    case Discover => s.(cycle := Discovered(s.cycle.busy, s.db.browser))
    case Leave(shell) => Left(s, shell)
    case Join(shell) => Joined(s, shell)
    case EndCycle => s.(cycle := Idle)
    case Fetch(l) => WithPhase(s, l, Fetched(FetchUnread(s.db.msgs, s.loops[l].shell)))
    case Warn(l, now) =>
      s.(loops := s.loops[l := s.loops[l].(phase := Checked(s.loops[l].phase.unread), flight := WarnStuck(s.loops[l].flight, now))])
    case Snapshot(l) => WithPhase(s, l, Snapped(s.loops[l].phase.unread, s.loops[l].flight.inFlight))
    case Choose(l) => WithPhase(s, l, Submitting(PickOldest(s.db.msgs, s.loops[l].phase.unread, s.loops[l].phase.snapshot)))
    case Submit(l, now) => SubmitNext(s, l, now)
    case EndPoll(l) => WithPhase(s, l, Top)
    case Halt(l) => WithPhase(s, l, Shutdown)
    case Exit(l) => WithPhase(s, l, Dead)
    case Mark(w) => WithStage(s, w, Marked).(db := SetMarker(s.db, KeyOf(s, w), Some(s.workers[w].msg)))
    case MarkFailed(w) => WithStage(s, w, Cleared)
    case Load(w, window) => WithStage(s, w, Loaded(HistoryCovers(s.db.msgs, KeyOf(s, w), window)))
    case Process(w, work, handled) => WithStage(s, w, Answered).(db := Worked(s.db, s.workers[w].msg, work, handled))
    case Clear(w) => WithStage(s, w, Cleared).(db := SetMarker(s.db, KeyOf(s, w), None))
    case Release(w) => Released(s, w)
  }

  /** A dispatcher that has just started over any tables, stale markers included. */
  ghost predicate Init(s: State) {
    && s.loops == [] && s.workers == [] && s.cycle == Idle && s.running == map[] && s.draining == {}
    && s.joined == {} && s.picks == [] && s.db.marker.Keys <= s.db.owner.Keys
  }

  /** Any interleaving: actions that are not enabled are passed over. */
  function Run(s: State, actions: seq<Action>): State
    decreases |actions|
  {
    if actions == [] then s
    else Run(if Enabled(s, actions[0]) then Next(s, actions[0]) else s, actions[1..])
  }
}
