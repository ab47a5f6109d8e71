/**
 What every interleaving of the dispatcher keeps: one loop a shell, one turn a
 session, honest records and markers, and turns in message order.
 */
module DispatchSafety {
  import opened Prelude
  import opened PollLoop
  import opened Dispatcher

  // ── What every step keeps ───────────────────────────────────────────────

  /** A shell has at most one loop that is not dead: the running one, or one that is draining. */
  ghost predicate LoopsOk(s: State) {
    && (forall shell | shell in s.running ::
          Alive(s, s.running[shell]) && s.loops[s.running[shell]].shell == shell && !s.loops[s.running[shell]].stop)
    && (forall l | l in s.draining :: l < |s.loops| && s.loops[l].stop)
    && (forall l | 0 <= l < |s.loops| && Alive(s, l) ::
          (s.loops[l].shell in s.running && s.running[s.loops[l].shell] == l) || l in s.draining)
    && (forall l, l' | 0 <= l < l' < |s.loops| && Alive(s, l) && Alive(s, l') :: s.loops[l].shell != s.loops[l'].shell)
    && (forall l | 0 <= l < |s.loops| && s.loops[l].phase in {Shutdown, Dead} :: s.loops[l].stop)
  }

  /** Nothing the supervisor is about to start is still draining. */
  ghost predicate CycleOk(s: State) {
    match s.cycle
    case Idle => true
    case Pruned(busy) => forall l | l in s.draining && Alive(s, l) :: s.loops[l].shell in busy
    case Discovered(busy, current) => forall l | l in s.draining && Alive(s, l) :: s.loops[l].shell in busy || s.loops[l].shell !in current
  }

  /** A loop's records name exactly the sessions of its live workers, one worker each. */
  ghost predicate FlightsOk(s: State) {
    && (forall l | 0 <= l < |s.loops| :: FlightOk(s.loops[l].flight) && s.loops[l].turn.Keys == s.loops[l].flight.inFlight)
    && (forall l, k | 0 <= l < |s.loops| && k in s.loops[l].turn ::
          Placed(s, s.loops[l].turn[k]) && s.workers[s.loops[l].turn[k]].loop == l && KeyOf(s, s.loops[l].turn[k]) == k)
    && (forall w | 0 <= w < |s.workers| && Live(s, w) :: WorkerOk(s, w))
  }

  ghost predicate WorkerOk(s: State, w: nat) {
    && Placed(s, w) && Alive(s, s.workers[w].loop)
    && s.db.msgs[s.workers[w].msg].shell == s.loops[s.workers[w].loop].shell
    && KeyOf(s, w) in s.loops[s.workers[w].loop].turn && s.loops[s.workers[w].loop].turn[KeyOf(s, w)] == w
  }

  /** From the marker's write to its clearing. */
  predicate HoldsMarker(stage: Stage) {
    stage == Marked || stage.Loaded? || stage == Answered
  }

  ghost predicate Holds(s: State, w: nat, sid: string, m: nat) {
    && Placed(s, w) && HoldsMarker(s.workers[w].stage)
    && KeyOf(s, w) == Some(sid) && s.workers[w].msg == m
  }

  /** Once its shell has joined, a session's marker names the message a live worker holds. */
  ghost predicate MarkersOk(s: State) {
    && s.db.marker.Keys <= s.db.owner.Keys
    && forall sid | sid in s.db.marker && s.db.owner[sid] in s.joined :: exists w :: Holds(s, w, sid, s.db.marker[sid])
  }

  predicate Rival(db: Db, e: nat, m: nat)
    requires e < |db.msgs| && m < |db.msgs|
  {
    db.msgs[e].inbound && db.msgs[e].shell == db.msgs[m].shell && db.msgs[e].session == db.msgs[m].session
  }

  /** Every earlier message of the same shell and session is read or deleted. */
  ghost predicate Covered(db: Db, m: nat) {
    && m < |db.msgs|
    && forall e | 0 <= e < m && Rival(db, e, m) :: db.msgs[e].read || db.msgs[e].deleted
  }

  /** No turn submitted for this message's session came later than it. */
  ghost predicate NotBelow(db: Db, picks: seq<Turn>, m: nat)
    requires m < |db.msgs|
  {
    forall p | p in picks && p.shell == db.msgs[m].shell && p.key == db.msgs[m].session :: p.msg <= m
  }

  /** Submitted turns never go back within a session, and each came when everything before it was settled. */
  ghost predicate PicksOk(s: State) {
    && (forall p | p in s.picks :: Covered(s.db, p.msg) && s.db.msgs[p.msg].shell == p.shell && s.db.msgs[p.msg].session == p.key)
    && (forall i, j | 0 <= i < j < |s.picks| && s.picks[i].shell == s.picks[j].shell && s.picks[i].key == s.picks[j].key ::
          s.picks[i].msg <= s.picks[j].msg)
  }

  /** A fetched list, however stale: it misses nothing still open before its entries and lists nothing before an earlier turn. */
  ghost predicate ListOk(db: Db, picks: seq<Turn>, shell: int, unread: seq<nat>) {
    && Within(db.msgs, unread) && Ascending(unread)
    && (forall m | m in unread :: db.msgs[m].shell == shell && db.msgs[m].inbound && NotBelow(db, picks, m))
    && (forall m, e | m in unread && 0 <= e < m && Rival(db, e, m) :: e in unread || db.msgs[e].read || db.msgs[e].deleted)
  }

  ghost predicate RestOk(db: Db, picks: seq<Turn>, shell: int, rest: seq<nat>) {
    && Within(db.msgs, rest) && DistinctSessions(db.msgs, rest)
    && (forall m | m in rest :: db.msgs[m].shell == shell && Covered(db, m) && NotBelow(db, picks, m))
  }

  ghost predicate LoopListOk(db: Db, picks: seq<Turn>, loop: Loop) {
    match loop.phase
    case Fetched(unread) => ListOk(db, picks, loop.shell, unread)
    case Checked(unread) => ListOk(db, picks, loop.shell, unread)
    case Snapped(unread, _) => ListOk(db, picks, loop.shell, unread)
    case Submitting(rest) => RestOk(db, picks, loop.shell, rest)
    case _ => true
  }

  ghost predicate ListsOk(s: State) {
    forall l | 0 <= l < |s.loops| :: LoopListOk(s.db, s.picks, s.loops[l])
  }

  ghost predicate Inv(s: State) {
    LoopsOk(s) && CycleOk(s) && FlightsOk(s) && MarkersOk(s) && PicksOk(s) && ListsOk(s)
  }

  lemma InitIsInv(s: State)
    requires Init(s)
    ensures Inv(s)
  {
  }

  // ── Loops ───────────────────────────────────────────────────────────────

  /** The supervisor's own steps. */
  predicate Supervises(a: Action) {
    a.Prune? || a.Discover? || a.Leave? || a.Join? || a.EndCycle?
  }

  /** Loop `l`, if any, moves on without coming back to life; the rest stay put. */
  ghost predicate OneLoopMoves(s: State, s': State, l: nat) {
    && s'.running == s.running && s'.draining == s.draining && s'.cycle == s.cycle
    && |s'.loops| == |s.loops| && (forall i | 0 <= i < |s.loops| && i != l :: s'.loops[i] == s.loops[i])
    && (l < |s.loops| ==>
          && s'.loops[l].shell == s.loops[l].shell && s'.loops[l].stop == s.loops[l].stop
          && (s.loops[l].phase == Dead ==> s'.loops[l].phase == Dead)
          && (s'.loops[l].phase == Dead ==> s.loops[l].stop)
          && (s'.loops[l].phase == Shutdown ==> s.loops[l].stop))
  }

  lemma MoveKeepsLoops(s: State, s': State, l: nat)
    requires LoopsOk(s) && CycleOk(s) && OneLoopMoves(s, s', l)
    ensures LoopsOk(s') && CycleOk(s')
  {
    forall i | 0 <= i < |s.loops| ensures Alive(s', i) ==> Alive(s, i) {}
    forall shell | shell in s'.running ensures Alive(s', s'.running[shell]) {
      assert s.running[shell] < |s.loops|;
    }
  }

  /** The loop an unsupervised step concerns; out of range when it concerns none. */
  function LoopOf(s: State, a: Action): nat
    requires Enabled(s, a)
  {
    match a
    case Fetch(l) => l
    case Warn(l, _) => l
    case Snapshot(l) => l
    case Choose(l) => l
    case Submit(l, _) => l
    case EndPoll(l) => l
    case Halt(l) => l
    case Exit(l) => l
    case Release(w) => s.workers[w].loop
    case _ => |s.loops|
  }

  lemma StepMovesOneLoop(s: State, a: Action)
    requires LoopsOk(s) && Enabled(s, a) && !Supervises(a)
    ensures OneLoopMoves(s, Next(s, a), LoopOf(s, a))
  {
    hide Within, FetchUnread, PickOldest, WarnStuck, TakeOff, Land, SetMarker, Worked, Read, Deleted;
  }

  lemma LeaveKeepsLoops(s: State, shell: int)
    requires LoopsOk(s) && CycleOk(s) && Enabled(s, Leave(shell))
    ensures LoopsOk(Left(s, shell)) && CycleOk(Left(s, shell))
  {
    var l, s' := s.running[shell], Left(s, shell);
    forall i | 0 <= i < |s.loops| ensures Alive(s', i) == Alive(s, i) && s'.loops[i].shell == s.loops[i].shell {}
    forall x | x in s'.running ensures s'.running[x] != l {
      assert s.loops[s.running[x]].shell == x;
    }
  }

  lemma JoinKeepsLoops(s: State, shell: int)
    requires LoopsOk(s) && CycleOk(s) && Enabled(s, Join(shell))
    ensures LoopsOk(Joined(s, shell)) && CycleOk(Joined(s, shell))
  {
    var n, s' := |s.loops|, Joined(s, shell);
    forall i | 0 <= i < n ensures Alive(s', i) == Alive(s, i) && s'.loops[i] == s.loops[i] {}
    forall i | 0 <= i < n && Alive(s, i) ensures s.loops[i].shell != shell {
      assert s.loops[i].shell in s.running || i in s.draining;
    }
  }

  lemma PruneKeepsLoops(s: State)
    requires LoopsOk(s)
    ensures LoopsOk(PrunedState(s)) && CycleOk(PrunedState(s))
  {
    var s' := PrunedState(s);
    forall l | 0 <= l < |s.loops| ensures Alive(s', l) == Alive(s, l) {}
  }

  lemma NextKeepsLoops(s: State, a: Action)
    requires LoopsOk(s) && CycleOk(s) && Enabled(s, a)
    ensures LoopsOk(Next(s, a)) && CycleOk(Next(s, a))
  {
    if !Supervises(a) {
      StepMovesOneLoop(s, a);
      MoveKeepsLoops(s, Next(s, a), LoopOf(s, a));
    } else {
      match a
      case Prune => PruneKeepsLoops(s);
      case Leave(shell) => LeaveKeepsLoops(s, shell);
      case Join(shell) => JoinKeepsLoops(s, shell);
      case _ =>
    }
  }

  // ── The tables only move forward ────────────────────────────────────────

  /** Messages keep their place, shell, session and direction; `read` and `deleted` are never reset. */
  ghost predicate Grows(before: seq<Msg>, after: seq<Msg>) {
    && |before| <= |after|
    && forall i | 0 <= i < |before| ::
      && after[i].shell == before[i].shell && after[i].session == before[i].session && after[i].inbound == before[i].inbound
      && (before[i].read ==> after[i].read) && (before[i].deleted ==> after[i].deleted)
  }

  lemma NextGrows(s: State, a: Action)
    requires Enabled(s, a)
    ensures Grows(s.db.msgs, Next(s, a).db.msgs)
  {
    hide Within, FetchUnread, PickOldest, WarnStuck, TakeOff, Land, HistoryCovers, Fits, Settles, Posts;
  }

  // ── In-flight records ───────────────────────────────────────────────────

  /** Workers keep their work, and stay live or gone. */
  ghost predicate WorkersStay(s: State, s': State) {
    && |s'.workers| == |s.workers|
    && forall w | 0 <= w < |s.workers| ::
      && s'.workers[w].loop == s.workers[w].loop && s'.workers[w].msg == s.workers[w].msg
      && (s'.workers[w].stage == Gone <==> s.workers[w].stage == Gone)
  }

  /** Loops keep their turns; new ones have none. */
  ghost predicate TurnsStay(s: State, s': State) {
    && |s.loops| <= |s'.loops|
    && (forall l | 0 <= l < |s.loops| ::
          && s'.loops[l].shell == s.loops[l].shell && s'.loops[l].turn == s.loops[l].turn
          && s'.loops[l].flight.inFlight == s.loops[l].flight.inFlight && FlightOk(s'.loops[l].flight))
    && (forall l | |s.loops| <= l < |s'.loops| :: s'.loops[l].turn == map[] && s'.loops[l].flight == NOTHING_IN_FLIGHT)
  }

  /** No loop dies with a live worker. */
  ghost predicate WorkingLoopsStay(s: State, s': State) {
    forall w | 0 <= w < |s.workers| && Live(s, w) && Alive(s, s.workers[w].loop) :: Alive(s', s.workers[w].loop)
  }

  ghost predicate FlightsFrame(s: State, s': State) {
    Grows(s.db.msgs, s'.db.msgs) && WorkersStay(s, s') && TurnsStay(s, s') && WorkingLoopsStay(s, s')
  }

  lemma FrameKeepsFlights(s: State, s': State)
    requires FlightsOk(s) && FlightsFrame(s, s')
    ensures FlightsOk(s')
  {
    forall l, k | 0 <= l < |s'.loops| && k in s'.loops[l].turn
      ensures Placed(s', s'.loops[l].turn[k]) && s'.workers[s'.loops[l].turn[k]].loop == l && KeyOf(s', s'.loops[l].turn[k]) == k
    {
      assert l < |s.loops| && Placed(s, s.loops[l].turn[k]);
    }
    forall w | 0 <= w < |s'.workers| && Live(s', w) ensures WorkerOk(s', w) {
      assert Live(s, w) && WorkerOk(s, w);
    }
  }

  lemma StepKeepsTurns(s: State, a: Action)
    requires FlightsOk(s) && Enabled(s, a) && !a.Submit? && !a.Release?
    ensures TurnsStay(s, Next(s, a))
  {
    hide Within, FetchUnread, PickOldest, SetMarker, Worked, Read, Deleted, ClearMarkers, WorkerOk, Placed, KeyOf;
  }

  lemma StepKeepsWorking(s: State, a: Action)
    requires Enabled(s, a) && !a.Submit? && !a.Release?
    ensures WorkersStay(s, Next(s, a)) && WorkingLoopsStay(s, Next(s, a))
  {
    hide Within, FetchUnread, PickOldest, WarnStuck, SetMarker, Worked, Read, Deleted, ClearMarkers, Land;
  }

  lemma StepFramesFlights(s: State, a: Action)
    requires FlightsOk(s) && Enabled(s, a) && !a.Submit? && !a.Release?
    ensures FlightsFrame(s, Next(s, a))
  {
    NextGrows(s, a);
    StepKeepsTurns(s, a);
    StepKeepsWorking(s, a);
  }

  lemma SkipKeepsFlights(s: State, l: nat, now: int)
    requires FlightsOk(s) && Enabled(s, Submit(l, now)) && SubmitNext(s, l, now).workers == s.workers
    ensures FlightsOk(SubmitNext(s, l, now))
  {
    var s' := SubmitNext(s, l, now);
    assert s'.loops[l].turn == s.loops[l].turn && s'.loops[l].flight == s.loops[l].flight;
    assert FlightsFrame(s, s');
    FrameKeepsFlights(s, s');
  }

  lemma SubmitKeepsFlights(s: State, l: nat, now: int)
    requires FlightsOk(s) && Enabled(s, Submit(l, now))
    requires s.db.msgs[s.loops[l].phase.rest[0]].shell == s.loops[l].shell
    ensures FlightsOk(SubmitNext(s, l, now))
  {
    var s', m := SubmitNext(s, l, now), s.loops[l].phase.rest[0];
    var key := s.db.msgs[m].session;
    if key in s.loops[l].flight.inFlight {
      SkipKeepsFlights(s, l, now);
    } else {
      FlightStaysOk(s.loops[l].flight, key, now);
      forall i, k | 0 <= i < |s'.loops| && k in s'.loops[i].turn
        ensures Placed(s', s'.loops[i].turn[k]) && s'.workers[s'.loops[i].turn[k]].loop == i && KeyOf(s', s'.loops[i].turn[k]) == k
      {
        if i != l || k != key { assert Placed(s, s.loops[i].turn[k]); }
      }
      forall w | 0 <= w < |s'.workers| && Live(s', w) ensures WorkerOk(s', w) {
        if w < |s.workers| { assert WorkerOk(s, w); }
      }
    }
  }

  lemma ReleaseKeepsTurns(s: State, w: nat)
    requires FlightsOk(s) && Enabled(s, Release(w))
    ensures var s' := Released(s, w);
      forall l | 0 <= l < |s'.loops| :: FlightOk(s'.loops[l].flight) && s'.loops[l].turn.Keys == s'.loops[l].flight.inFlight
  {
    assert WorkerOk(s, w);
    FlightStaysOk(s.loops[s.workers[w].loop].flight, KeyOf(s, w), 0);
  }

  /** What is left in the records of turns still points at their workers. */
  lemma ReleaseKeepsPointers(s: State, w: nat)
    requires FlightsOk(s) && Enabled(s, Release(w))
    ensures var s' := Released(s, w);
      forall i, k | 0 <= i < |s'.loops| && k in s'.loops[i].turn ::
        Placed(s', s'.loops[i].turn[k]) && s'.workers[s'.loops[i].turn[k]].loop == i && KeyOf(s', s'.loops[i].turn[k]) == k
  {
    hide FlightOk, Land;
    var s' := Released(s, w);
    assert WorkerOk(s, w);
    forall i, k | 0 <= i < |s'.loops| && k in s'.loops[i].turn
      ensures Placed(s', s'.loops[i].turn[k]) && s'.workers[s'.loops[i].turn[k]].loop == i && KeyOf(s', s'.loops[i].turn[k]) == k
    {
      assert Placed(s, s.loops[i].turn[k]) && s.loops[i].turn[k] != w;
    }
  }

  lemma ReleaseKeepsWorker(s: State, w: nat, x: nat)
    requires FlightsOk(s) && Enabled(s, Release(w)) && x < |s.workers| && Live(Released(s, w), x)
    ensures WorkerOk(Released(s, w), x)
  {
    hide FlightOk, Land;
    assert x != w && WorkerOk(s, x) && WorkerOk(s, w);
  }

  lemma ReleaseKeepsFlights(s: State, w: nat)
    requires FlightsOk(s) && Enabled(s, Release(w))
    ensures FlightsOk(Released(s, w))
  {
    ReleaseKeepsTurns(s, w);
    ReleaseKeepsPointers(s, w);
    forall x | 0 <= x < |s.workers| && Live(Released(s, w), x) ensures WorkerOk(Released(s, w), x) {
      ReleaseKeepsWorker(s, w, x);
    }
  }

  /** The message to be submitted next belongs to the loop's shell. */
  lemma NextInItsShell(s: State, l: nat, now: int)
    requires ListsOk(s) && Enabled(s, Submit(l, now))
    ensures s.db.msgs[s.loops[l].phase.rest[0]].shell == s.loops[l].shell
  {
    assert LoopListOk(s.db, s.picks, s.loops[l]);
  }

  lemma NextKeepsFlights(s: State, a: Action)
    requires FlightsOk(s) && ListsOk(s) && Enabled(s, a)
    ensures FlightsOk(Next(s, a))
  {
    hide FlightsOk, FlightsFrame, SubmitNext, Released, ListsOk;
    if a.Submit? {
      NextInItsShell(s, a.l, a.now);
      SubmitKeepsFlights(s, a.l, a.now);
    } else if a.Release? {
      ReleaseKeepsFlights(s, a.w);
    } else {
      hide Next, Enabled;
      StepFramesFlights(s, a);
      FrameKeepsFlights(s, Next(s, a));
    }
  }

  // ── Markers ─────────────────────────────────────────────────────────────

  /** Each marker that counts is an old one whose holders go on holding it. */
  ghost predicate MarkersFrame(s: State, s': State) {
    && s'.db.marker.Keys <= s'.db.owner.Keys
    && forall sid | sid in s'.db.marker && s'.db.owner[sid] in s'.joined ::
      && sid in s.db.marker && sid in s.db.owner && s.db.owner[sid] in s.joined && s'.db.marker[sid] == s.db.marker[sid]
      && forall w | Holds(s, w, sid, s.db.marker[sid]) :: Holds(s', w, sid, s.db.marker[sid])
  }

  lemma FrameKeepsMarkers(s: State, s': State)
    requires MarkersOk(s) && MarkersFrame(s, s')
    ensures MarkersOk(s')
  {
    forall sid | sid in s'.db.marker && s'.db.owner[sid] in s'.joined ensures exists w :: Holds(s', w, sid, s'.db.marker[sid]) {
      var w :| Holds(s, w, sid, s.db.marker[sid]);
      assert Holds(s', w, sid, s'.db.marker[sid]);
    }
  }

  /** Workers that hold a marker are neither queued nor past clearing it. */
  ghost predicate HoldersStay(s: State, s': State) {
    && Grows(s.db.msgs, s'.db.msgs) && |s.loops| <= |s'.loops| && |s.workers| <= |s'.workers|
    && forall w | 0 <= w < |s.workers| && HoldsMarker(s.workers[w].stage) ::
      s'.workers[w].loop == s.workers[w].loop && s'.workers[w].msg == s.workers[w].msg && HoldsMarker(s'.workers[w].stage)
  }

  lemma HoldersGoOn(s: State, s': State, w: nat, sid: string, m: nat)
    requires HoldersStay(s, s') && Holds(s, w, sid, m)
    ensures Holds(s', w, sid, m)
  {
  }

  lemma StepKeepsHolders(s: State, a: Action)
    requires Enabled(s, a) && !a.Clear?
    ensures HoldersStay(s, Next(s, a))
  {
    NextGrows(s, a);
    hide Grows, Within, FetchUnread, PickOldest, WarnStuck, TakeOff, Land, SetMarker, Worked, Read, Deleted, ClearMarkers;
  }

  lemma MarkKeepsMarkers(s: State, w: nat)
    requires MarkersOk(s) && Enabled(s, Mark(w))
    ensures MarkersOk(Next(s, Mark(w)))
  {
    var s', key, m := Next(s, Mark(w)), KeyOf(s, w), s.workers[w].msg;
    StepKeepsHolders(s, Mark(w));
    forall sid | sid in s'.db.marker && s'.db.owner[sid] in s'.joined ensures exists x :: Holds(s', x, sid, s'.db.marker[sid]) {
      if key == Some(sid) {
        assert Holds(s', w, sid, m);
      } else {
        var x :| Holds(s, x, sid, s.db.marker[sid]);
        HoldersGoOn(s, s', x, sid, s.db.marker[sid]);
      }
    }
  }

  lemma ClearKeepsMarkers(s: State, w: nat)
    requires MarkersOk(s) && Enabled(s, Clear(w))
    ensures MarkersOk(Next(s, Clear(w)))
  {
    var s' := Next(s, Clear(w));
    forall sid | sid in s'.db.marker && s'.db.owner[sid] in s'.joined ensures exists x :: Holds(s', x, sid, s'.db.marker[sid]) {
      var x :| Holds(s, x, sid, s.db.marker[sid]);
      assert x != w;
      assert Holds(s', x, sid, s.db.marker[sid]);
    }
  }

  lemma OtherStepFramesMarkers(s: State, a: Action)
    requires MarkersOk(s) && Enabled(s, a) && !a.Mark? && !a.Clear?
    ensures MarkersFrame(s, Next(s, a))
  {
    var s' := Next(s, a);
    StepKeepsHolders(s, a);
    MarkerColumns(s, a);
    hide Next, Holds, HoldersStay, MarkersOk, Enabled;
    forall sid, w | sid in s'.db.marker && s'.db.owner[sid] in s'.joined && Holds(s, w, sid, s.db.marker[sid])
      ensures Holds(s', w, sid, s.db.marker[sid])
    {
      HoldersGoOn(s, s', w, sid, s.db.marker[sid]);
    }
  }

  lemma MarkerColumns(s: State, a: Action)
    requires MarkersOk(s) && Enabled(s, a) && !a.Mark? && !a.Clear?
    ensures var s' := Next(s, a);
      && s'.db.marker.Keys <= s'.db.owner.Keys
      && forall sid | sid in s'.db.marker && s'.db.owner[sid] in s'.joined ::
        sid in s.db.marker && sid in s.db.owner && s.db.owner[sid] in s.joined && s'.db.marker[sid] == s.db.marker[sid]
  {
    hide Holds, Within, FetchUnread, PickOldest, WarnStuck, TakeOff, Land;
  }

  lemma NextKeepsMarkers(s: State, a: Action)
    requires MarkersOk(s) && Enabled(s, a)
    ensures MarkersOk(Next(s, a))
  {
    hide MarkersOk, MarkersFrame;
    match a
    case Mark(w) => MarkKeepsMarkers(s, w);
    case Clear(w) => ClearKeepsMarkers(s, w);
    case _ =>
      OtherStepFramesMarkers(s, a);
      FrameKeepsMarkers(s, Next(s, a));
  }

  // ── The order of turns ──────────────────────────────────────────────────

  lemma GrowthKeepsCovered(db: Db, db': Db, m: nat)
    requires Covered(db, m) && Grows(db.msgs, db'.msgs)
    ensures Covered(db', m)
  {
    forall e | 0 <= e < m && Rival(db', e, m) ensures db'.msgs[e].read || db'.msgs[e].deleted {
      assert Rival(db, e, m);
    }
  }

  lemma GrowthKeepsList(db: Db, db': Db, picks: seq<Turn>, shell: int, unread: seq<nat>)
    requires ListOk(db, picks, shell, unread) && Grows(db.msgs, db'.msgs)
    ensures ListOk(db', picks, shell, unread)
  {
    forall m | m in unread ensures m < |db.msgs| && NotBelow(db', picks, m) {
      assert NotBelow(db, picks, m);
    }
    forall m, e | m in unread && 0 <= e < m && Rival(db', e, m) ensures e in unread || db'.msgs[e].read || db'.msgs[e].deleted {
      assert Rival(db, e, m);
    }
  }

  lemma GrowthKeepsRest(db: Db, db': Db, picks: seq<Turn>, shell: int, rest: seq<nat>)
    requires RestOk(db, picks, shell, rest) && Grows(db.msgs, db'.msgs)
    ensures RestOk(db', picks, shell, rest)
  {
    forall m | m in rest ensures db'.msgs[m].shell == shell && Covered(db', m) && NotBelow(db', picks, m) {
      GrowthKeepsCovered(db, db', m);
      assert NotBelow(db, picks, m);
    }
  }

  lemma GrowthKeepsLoopList(db: Db, db': Db, picks: seq<Turn>, loop: Loop)
    requires LoopListOk(db, picks, loop) && Grows(db.msgs, db'.msgs)
    ensures LoopListOk(db', picks, loop)
  {
    match loop.phase
    case Fetched(unread) => GrowthKeepsList(db, db', picks, loop.shell, unread);
    case Checked(unread) => GrowthKeepsList(db, db', picks, loop.shell, unread);
    case Snapped(unread, _) => GrowthKeepsList(db, db', picks, loop.shell, unread);
    case Submitting(rest) => GrowthKeepsRest(db, db', picks, loop.shell, rest);
    case _ =>
  }

  /** A fresh list starts no earlier than any turn so far: what came before those turns is settled. */
  lemma FetchIsOk(s: State, shell: int)
    requires PicksOk(s)
    ensures ListOk(s.db, s.picks, shell, FetchUnread(s.db.msgs, shell))
  {
    FetchFacts(s.db.msgs, shell);
    var unread := FetchUnread(s.db.msgs, shell);
    forall m, p | m in unread && p in s.picks && p.shell == shell && p.key == s.db.msgs[m].session ensures p.msg <= m {
      CoveredIsSettled(s.db, p.msg, m);
    }
  }

  lemma CoveredIsSettled(db: Db, m: nat, e: nat)
    requires Covered(db, m)
    ensures e < m && Rival(db, e, m) ==> db.msgs[e].read || db.msgs[e].deleted
  {
  }

  /** What is chosen from a list, even a stale one, has nothing open before it. */
  lemma ChoiceIsOk(db: Db, picks: seq<Turn>, shell: int, unread: seq<nat>, snapshot: set<Key>)
    requires ListOk(db, picks, shell, unread)
    ensures RestOk(db, picks, shell, PickOldest(db.msgs, unread, snapshot))
  {
    PickFacts(db.msgs, unread, snapshot);
    var rest := PickOldest(db.msgs, unread, snapshot);
    forall m | m in rest ensures db.msgs[m].shell == shell && Covered(db, m) && NotBelow(db, picks, m) {
      assert m in unread;
      forall e | 0 <= e < m && Rival(db, e, m) ensures db.msgs[e].read || db.msgs[e].deleted {
        if e in unread {
          PickedIsOldest(db.msgs, unread, snapshot, m, e);
        }
      }
    }
  }

  /** A loop goes on with the list it had, or with none. */
  ghost predicate ListCarried(before: Loop, after: Loop) {
    && after.shell == before.shell
    && match after.phase
       case Fetched(unread) => after.phase == before.phase
       case Checked(unread) => after.phase == before.phase || before.phase == Fetched(unread)
       case Snapped(unread, _) => after.phase == before.phase || before.phase == Checked(unread)
       case Submitting(_) => after.phase == before.phase
       case _ => true
  }

  lemma CarriedListOk(db: Db, db': Db, picks: seq<Turn>, before: Loop, after: Loop)
    requires LoopListOk(db, picks, before) && Grows(db.msgs, db'.msgs) && ListCarried(before, after)
    ensures LoopListOk(db', picks, after)
  {
    hide ListOk, RestOk, Grows;
    GrowthKeepsLoopList(db, db', picks, before);
  }

  lemma StepCarriesLists(s: State, a: Action)
    requires Enabled(s, a) && !a.Fetch? && !a.Choose? && !a.Submit?
    ensures var s' := Next(s, a);
      && s'.picks == s.picks && |s.loops| <= |s'.loops|
      && (forall l | 0 <= l < |s.loops| :: ListCarried(s.loops[l], s'.loops[l]))
      && (forall l | |s.loops| <= l < |s'.loops| :: s'.loops[l].phase == Top)
  {
    hide Within, WarnStuck, Land, SetMarker, Worked, Read, Deleted, ClearMarkers;
  }

  lemma StepKeepsLists(s: State, a: Action)
    requires ListsOk(s) && Enabled(s, a) && !a.Fetch? && !a.Choose? && !a.Submit?
    ensures ListsOk(Next(s, a))
  {
    var s' := Next(s, a);
    NextGrows(s, a);
    StepCarriesLists(s, a);
    hide Next, Enabled, LoopListOk, ListCarried, Grows;
    forall l | 0 <= l < |s'.loops| ensures LoopListOk(s'.db, s'.picks, s'.loops[l]) {
      if l < |s.loops| {
        CarriedListOk(s.db, s'.db, s.picks, s.loops[l], s'.loops[l]);
      } else {
        TopHasNoList(s'.db, s'.picks, s'.loops[l]);
      }
    }
  }

  lemma TopHasNoList(db: Db, picks: seq<Turn>, loop: Loop)
    requires loop.phase == Top
    ensures LoopListOk(db, picks, loop)
  {
  }

  /** One loop gets a list that is in order; nothing else the lists depend on changes. */
  lemma NewListKeepsLists(s: State, s': State, l: nat, loop: Loop)
    requires ListsOk(s) && l < |s.loops| && s'.loops == s.loops[l := loop] && s'.db == s.db && s'.picks == s.picks
    requires LoopListOk(s.db, s.picks, loop)
    ensures ListsOk(s')
  {
    hide LoopListOk;
  }

  lemma ListFacts(s: State, l: nat)
    requires ListsOk(s) && l < |s.loops|
    ensures LoopListOk(s.db, s.picks, s.loops[l])
  {
  }

  lemma FetchKeepsLists(s: State, l: nat)
    requires ListsOk(s) && PicksOk(s) && Enabled(s, Fetch(l))
    ensures ListsOk(Next(s, Fetch(l)))
  {
    hide ListsOk, PicksOk, ListOk;
    FetchIsOk(s, s.loops[l].shell);
    var s' := Next(s, Fetch(l));
    NewListKeepsLists(s, s', l, s'.loops[l]);
  }

  lemma ChooseKeepsLists(s: State, l: nat)
    requires ListsOk(s) && Enabled(s, Choose(l))
    ensures ListsOk(Next(s, Choose(l)))
  {
    hide ListsOk, ListOk, RestOk;
    ListFacts(s, l);
    ChoiceIsOk(s.db, s.picks, s.loops[l].shell, s.loops[l].phase.unread, s.loops[l].phase.snapshot);
    var s' := Next(s, Choose(l));
    NewListKeepsLists(s, s', l, s'.loops[l]);
  }

  // ── Submitting a turn ───────────────────────────────────────────────────

  /** A turn of another shell moves no list's lower bound. */
  lemma TurnElsewhere(db: Db, picks: seq<Turn>, t: Turn, loop: Loop)
    requires LoopListOk(db, picks, loop) && (t.shell != loop.shell || loop.phase in {Top, Shutdown, Dead})
    ensures LoopListOk(db, picks + [t], loop)
  {
    match loop.phase
    case Fetched(unread) => TurnBeyondList(db, picks, t, loop.shell, unread);
    case Checked(unread) => TurnBeyondList(db, picks, t, loop.shell, unread);
    case Snapped(unread, _) => TurnBeyondList(db, picks, t, loop.shell, unread);
    case Submitting(rest) => TurnBeyondRest(db, picks, t, loop.shell, rest);
    case _ =>
  }

  lemma TurnBeyondList(db: Db, picks: seq<Turn>, t: Turn, shell: int, unread: seq<nat>)
    requires ListOk(db, picks, shell, unread) && t.shell != shell
    ensures ListOk(db, picks + [t], shell, unread)
  {
    forall m | m in unread ensures NotBelow(db, picks + [t], m) {
      assert NotBelow(db, picks, m);
    }
  }

  /** In the rest of the chosen list the submitted session does not occur again. */
  lemma TurnBeyondRest(db: Db, picks: seq<Turn>, t: Turn, shell: int, rest: seq<nat>)
    requires RestOk(db, picks, shell, rest) && (t.shell != shell || forall m | m in rest :: db.msgs[m].session != t.key)
    ensures RestOk(db, picks + [t], shell, rest)
  {
    forall m | m in rest ensures NotBelow(db, picks + [t], m) {
      assert NotBelow(db, picks, m);
    }
  }

  lemma RestTail(db: Db, picks: seq<Turn>, shell: int, rest: seq<nat>)
    requires RestOk(db, picks, shell, rest) && rest != []
    ensures RestOk(db, picks, shell, rest[1..]) && rest[0] < |db.msgs|
    ensures forall m | m in rest[1..] :: m < |db.msgs| && db.msgs[m].session != db.msgs[rest[0]].session
    ensures db.msgs[rest[0]].shell == shell && Covered(db, rest[0]) && NotBelow(db, picks, rest[0])
  {
    var tail := rest[1..];
    assert rest[0] in rest;
    forall i | 0 <= i < |tail| ensures tail[i] in rest && tail[i] < |db.msgs| && db.msgs[tail[i]].session != db.msgs[rest[0]].session {
      assert tail[i] == rest[i + 1];
    }
    forall i, j | 0 <= i < j < |tail| ensures db.msgs[tail[i]].session != db.msgs[tail[j]].session {
      assert tail[i] == rest[i + 1] && tail[j] == rest[j + 1];
    }
  }

  lemma SubmitKeepsLists(s: State, l: nat, now: int)
    requires LoopsOk(s) && ListsOk(s) && Enabled(s, Submit(l, now))
    ensures ListsOk(SubmitNext(s, l, now))
  {
    var s', rest := SubmitNext(s, l, now), s.loops[l].phase.rest;
    ListFacts(s, l);
    RestTail(s.db, s.picks, s.loops[l].shell, rest);
    if s'.picks == s.picks {
      NewListKeepsLists(s, s', l, s'.loops[l]);
    } else {
      var t := s'.picks[|s.picks|];
      TurnBeyondRest(s.db, s.picks, t, s.loops[l].shell, rest[1..]);
      forall i | 0 <= i < |s'.loops| ensures LoopListOk(s'.db, s'.picks, s'.loops[i]) {
        if i != l {
          ListFacts(s, i);
          LoopsApart(s, i, l);
          hide LoopListOk, ListsOk, LoopsOk;
          TurnElsewhere(s.db, s.picks, t, s.loops[i]);
        }
      }
    }
  }

  lemma LoopsApart(s: State, i: nat, l: nat)
    requires LoopsOk(s) && i < |s.loops| && l < |s.loops| && i != l && Alive(s, l)
    ensures s.loops[i].shell != s.loops[l].shell || s.loops[i].phase == Dead
  {
  }

  lemma SubmitKeepsPicks(s: State, l: nat, now: int)
    requires PicksOk(s) && ListsOk(s) && Enabled(s, Submit(l, now))
    ensures PicksOk(SubmitNext(s, l, now))
  {
    ListFacts(s, l);
    RestTail(s.db, s.picks, s.loops[l].shell, s.loops[l].phase.rest);
    var s', m := SubmitNext(s, l, now), s.loops[l].phase.rest[0];
    hide Covered;
    if s'.picks != s.picks {
      var t := Turn(s.loops[l].shell, s.db.msgs[m].session, m);
      assert s'.picks == s.picks + [t];
      forall i, j | 0 <= i < j < |s'.picks| && s'.picks[i].shell == s'.picks[j].shell && s'.picks[i].key == s'.picks[j].key
        ensures s'.picks[i].msg <= s'.picks[j].msg
      {
        if j == |s.picks| {
          assert s.picks[i] in s.picks;
        }
      }
    }
  }

  lemma GrowthKeepsPicks(s: State, s': State)
    requires PicksOk(s) && s'.picks == s.picks && Grows(s.db.msgs, s'.db.msgs)
    ensures PicksOk(s')
  {
    forall p | p in s.picks ensures Covered(s'.db, p.msg) && s'.db.msgs[p.msg].shell == p.shell && s'.db.msgs[p.msg].session == p.key {
      GrowthKeepsCovered(s.db, s'.db, p.msg);
    }
  }

  lemma NextKeepsOrder(s: State, a: Action)
    requires LoopsOk(s) && PicksOk(s) && ListsOk(s) && Enabled(s, a)
    ensures PicksOk(Next(s, a)) && ListsOk(Next(s, a))
  {
    match a
    case Submit(l, now) =>
      SubmitKeepsPicks(s, l, now);
      SubmitKeepsLists(s, l, now);
    case _ =>
      OtherStepKeepsOrder(s, a);
  }

  lemma OtherStepKeepsOrder(s: State, a: Action)
    requires PicksOk(s) && ListsOk(s) && Enabled(s, a) && !a.Submit?
    ensures PicksOk(Next(s, a)) && ListsOk(Next(s, a))
  {
    hide PicksOk, ListsOk;
    NextGrows(s, a);
    GrowthKeepsPicks(s, Next(s, a));
    match a
    case Fetch(l) => FetchKeepsLists(s, l);
    case Choose(l) => ChooseKeepsLists(s, l);
    case _ => StepKeepsLists(s, a);
  }

  // ── Over every interleaving ─────────────────────────────────────────────

  lemma NextKeepsInv(s: State, a: Action)
    requires Inv(s) && Enabled(s, a)
    ensures Inv(Next(s, a))
  {
    hide LoopsOk, CycleOk, FlightsOk, MarkersOk, PicksOk, ListsOk, Next, Enabled;
    NextKeepsLoops(s, a);
    NextKeepsFlights(s, a);
    NextKeepsMarkers(s, a);
    NextKeepsOrder(s, a);
  }

  /** Every state of every interleaving, from a start over any tables, satisfies the invariants. */
  lemma {:induction false} RunKeepsInv(s: State, actions: seq<Action>)
    requires Inv(s)
    ensures Inv(Run(s, actions))
    decreases |actions|
  {
    if actions != [] {
      if Enabled(s, actions[0]) {
        NextKeepsInv(s, actions[0]);
        RunKeepsInv(Next(s, actions[0]), actions[1..]);
      } else {
        RunKeepsInv(s, actions[1..]);
      }
    }
  }

  /**
   At most one turn of a shell's session is queued or running, whichever loops
   the turns belong to.
   */
  lemma OneTurnPerSession(init: State, actions: seq<Action>, w: nat, w': nat)
    requires Init(init)
    requires var s := Run(init, actions); w < |s.workers| && w' < |s.workers| && Live(s, w) && Live(s, w') && w != w'
    ensures var s := Run(init, actions);
      && Placed(s, w) && Placed(s, w')
      && (s.loops[s.workers[w].loop].shell == s.loops[s.workers[w'].loop].shell ==> KeyOf(s, w) != KeyOf(s, w'))
  {
    InitIsInv(init);
    RunKeepsInv(init, actions);
    var s := Run(init, actions);
    assert WorkerOk(s, w) && WorkerOk(s, w');
    var l, l' := s.workers[w].loop, s.workers[w'].loop;
    if l != l' {
      LoopsApart(s, l, l');
    }
  }

  /** A loop's `in_flight` is exactly the set of sessions with a live worker, and the other two records fit it. */
  lemma InFlightIsLiveWork(init: State, actions: seq<Action>, l: nat, k: Key)
    requires Init(init) && l < |Run(init, actions).loops|
    ensures var s := Run(init, actions);
      && (k in s.loops[l].flight.inFlight <==> exists w: nat :: Placed(s, w) && s.workers[w].loop == l && KeyOf(s, w) == k)
      && s.loops[l].flight.started.Keys == s.loops[l].flight.inFlight && s.loops[l].flight.warned <= s.loops[l].flight.inFlight
  {
    InitIsInv(init);
    RunKeepsInv(init, actions);
    var s := Run(init, actions);
    if w: nat :| Placed(s, w) && s.workers[w].loop == l && KeyOf(s, w) == k {
      assert WorkerOk(s, w);
    }
    if k in s.loops[l].flight.inFlight {
      assert k in s.loops[l].turn;
    }
  }

  /** A shell has at most one poll loop that has not ended. */
  lemma OneLoopPerShell(init: State, actions: seq<Action>, l: nat, l': nat)
    requires Init(init)
    requires var s := Run(init, actions); l < l' && l' < |s.loops| && s.loops[l].shell == s.loops[l'].shell
    ensures !Alive(Run(init, actions), l) || !Alive(Run(init, actions), l')
  {
    InitIsInv(init);
    RunKeepsInv(init, actions);
  }

  /** Once its shell has joined, a session's marker is null or names the message a live worker holds. */
  lemma MarkersNameLiveWork(init: State, actions: seq<Action>, sid: string)
    requires Init(init)
    ensures var s := Run(init, actions);
      sid in s.db.marker && sid in s.db.owner && s.db.owner[sid] in s.joined ==> exists w :: Holds(s, w, sid, s.db.marker[sid])
  {
    InitIsInv(init);
    RunKeepsInv(init, actions);
  }

  /**
   Over a whole run the turns of a session never go back, and a turn is only
   submitted when every earlier message of the session is read or deleted.
   */
  lemma TurnsInOrder(init: State, actions: seq<Action>, i: nat, j: nat, e: nat)
    requires Init(init)
    requires var picks := Run(init, actions).picks;
      i < j < |picks| && picks[i].shell == picks[j].shell && picks[i].key == picks[j].key
    ensures var s := Run(init, actions);
      && s.picks[i].msg <= s.picks[j].msg < |s.db.msgs|
      && (e < s.picks[j].msg && Rival(s.db, e, s.picks[j].msg) ==> s.db.msgs[e].read || s.db.msgs[e].deleted)
  {
    InitIsInv(init);
    RunKeepsInv(init, actions);
    var s := Run(init, actions);
    assert s.picks[j] in s.picks;
  }

  /** At the very step that submits a turn, everything before it in its session is already settled. */
  lemma SubmittedAfterItsRivals(init: State, actions: seq<Action>, l: nat, now: int, e: nat)
    requires Init(init) && Enabled(Run(init, actions), Submit(l, now))
    requires var s := Run(init, actions); e < s.loops[l].phase.rest[0] && Rival(s.db, e, s.loops[l].phase.rest[0])
    ensures var s := Run(init, actions); s.db.msgs[e].read || s.db.msgs[e].deleted
  {
    InitIsInv(init);
    RunKeepsInv(init, actions);
    var s := Run(init, actions);
    ListFacts(s, l);
    RestTail(s.db, s.picks, s.loops[l].shell, s.loops[l].phase.rest);
  }

  // ── Nothing gets stuck ──────────────────────────────────────────────────

  /** The bounds in the step guards always hold, so they never hold a step back. */
  lemma BoundsHold(s: State)
    requires Inv(s)
    ensures forall l | 0 <= l < |s.loops| && s.loops[l].phase.Snapped? :: Enabled(s, Choose(l))
    ensures forall l, now | 0 <= l < |s.loops| && s.loops[l].phase.Submitting? && s.loops[l].phase.rest != [] :: Enabled(s, Submit(l, now))
    ensures forall shell | shell in s.running && s.cycle.Discovered? && shell !in s.cycle.current :: Enabled(s, Leave(shell))
  {
    forall l | 0 <= l < |s.loops| && s.loops[l].phase.Submitting? && s.loops[l].phase.rest != []
      ensures s.loops[l].phase.rest[0] < |s.db.msgs|
    {
      ListFacts(s, l);
    }
    forall l | 0 <= l < |s.loops| && s.loops[l].phase.Snapped? ensures Within(s.db.msgs, s.loops[l].phase.unread) {
      ListFacts(s, l);
    }
  }

  /** The step that takes a worker on, or the one that lets it go on. */
  ghost predicate CanGoOn(s: State, w: nat, now: int)
    requires Placed(s, w)
  {
    match s.workers[w].stage
    case Queued => Enabled(s, Mark(w))
    case Marked => forall window :: Enabled(s, Load(w, window))
    case Loaded(covered) => forall work, handled | work == Fails || (work == Covers <==> covered) :: Enabled(s, Process(w, work, handled))
    case Answered => Enabled(s, Clear(w))
    case Cleared =>
      || Enabled(s, Release(w))
      || Enabled(s, Submit(s.workers[w].loop, now))
      || (s.loops[s.workers[w].loop].phase == Submitting([]) && Enabled(s, EndPoll(s.workers[w].loop)))
    case Gone => false
  }

  lemma PlacedGoesOn(s: State, w: nat, now: int)
    requires Inv(s) && Placed(s, w)
    ensures CanGoOn(s, w, now)
  {
    hide Inv;
    var l := s.workers[w].loop;
    if s.loops[l].phase.Submitting? {
      BoundsHold(s);
    }
  }

  /** A live worker can always take its next step; only its release may have to wait for the submit loop to give up the lock. */
  lemma NoWorkerIsStuck(init: State, actions: seq<Action>, w: nat, now: int)
    requires Init(init) && Live(Run(init, actions), w)
    ensures Placed(Run(init, actions), w) && CanGoOn(Run(init, actions), w, now)
  {
    InitIsInv(init);
    RunKeepsInv(init, actions);
    assert WorkerOk(Run(init, actions), w);
    PlacedGoesOn(Run(init, actions), w, now);
  }
}
