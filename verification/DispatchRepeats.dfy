/**
 When the dispatcher submits a message again: after every earlier turn left it
 open, or from a list fetched before it was settled. Both do happen.
 */
module DispatchRepeats {
  import opened Prelude
  import opened PollLoop
  import opened Dispatcher
  import opened DispatchSafety

  // ── Repeated turns ──────────────────────────────────────────────────────

  /** Between the copy of `in_flight` and the submit, no session waiting for its turn is in flight. */
  ghost predicate FreeOk(s: State) {
    forall l | 0 <= l < |s.loops| :: LoopFreeOk(s.db, s.loops[l])
  }

  ghost predicate LoopFreeOk(db: Db, loop: Loop) {
    match loop.phase
    case Snapped(_, snapshot) => loop.flight.inFlight <= snapshot
    case Submitting(rest) => forall m | m in rest && m < |db.msgs| :: db.msgs[m].session !in loop.flight.inFlight
    case _ => true
  }

  lemma NextKeepsFree(s: State, a: Action)
    requires FreeOk(s) && ListsOk(s) && Enabled(s, a)
    ensures FreeOk(Next(s, a))
  {
    var s' := Next(s, a);
    NextGrows(s, a);
    forall l | 0 <= l < |s'.loops| ensures LoopFreeOk(s'.db, s'.loops[l]) {
      if l < |s.loops| {
        assert LoopFreeOk(s.db, s.loops[l]);
        ListFacts(s, l);
        LoopStaysFree(s, a, l);
      }
    }
  }

  lemma LoopStaysFree(s: State, a: Action, l: nat)
    requires l < |s.loops| && LoopFreeOk(s.db, s.loops[l]) && LoopListOk(s.db, s.picks, s.loops[l]) && Enabled(s, a)
    ensures LoopFreeOk(Next(s, a).db, Next(s, a).loops[l])
  {
    if a == Choose(l) {
      ChosenAreFree(s.db, s.loops[l].phase.unread, s.loops[l].phase.snapshot, s.loops[l].flight.inFlight);
    } else if a.Submit? && a.l == l {
      RestTail(s.db, s.picks, s.loops[l].shell, s.loops[l].phase.rest);
    } else {
      NextGrows(s, a);
      hide LoopListOk, Grows;
      OtherStepStaysFree(s, a, l);
    }
  }

  lemma OtherStepStaysFree(s: State, a: Action, l: nat)
    requires l < |s.loops| && LoopFreeOk(s.db, s.loops[l]) && LoopListOk(s.db, s.picks, s.loops[l]) && Enabled(s, a)
    requires a != Choose(l) && !(a.Submit? && a.l == l)
    ensures LoopFreeOk(Next(s, a).db, Next(s, a).loops[l])
  {
    NextGrows(s, a);
    hide ListOk, RestOk, Within, FetchUnread, PickOldest, SetMarker, ClearMarkers, WarnStuck, Worked;
    if s.loops[l].phase.Submitting? {
      ListWithin(s.db, s.picks, s.loops[l]);
    }
  }

  lemma ListWithin(db: Db, picks: seq<Turn>, loop: Loop)
    requires LoopListOk(db, picks, loop) && loop.phase.Submitting?
    ensures Within(db.msgs, loop.phase.rest)
  {
  }

  lemma ChosenAreFree(db: Db, unread: seq<nat>, snapshot: set<Key>, inFlight: set<Key>)
    requires Within(db.msgs, unread) && inFlight <= snapshot
    ensures forall m | m in PickOldest(db.msgs, unread, snapshot) && m < |db.msgs| :: db.msgs[m].session !in inFlight
  {
    PickFacts(db.msgs, unread, snapshot);
    forall m | m in PickOldest(db.msgs, unread, snapshot) && m < |db.msgs| ensures db.msgs[m].session !in inFlight {
      KeyPresent(db.msgs, PickOldest(db.msgs, unread, snapshot), m);
    }
  }

  lemma {:induction false} RunKeepsFree(s: State, actions: seq<Action>)
    requires Inv(s) && FreeOk(s)
    ensures Inv(Run(s, actions)) && FreeOk(Run(s, actions))
    decreases |actions|
  {
    if actions != [] {
      hide FreeOk, LoopsOk, CycleOk, FlightsOk, MarkersOk, PicksOk, ListsOk, Next, Enabled;
      if Enabled(s, actions[0]) {
        NextKeepsInv(s, actions[0]);
        NextKeepsFree(s, actions[0]);
        RunKeepsFree(Next(s, actions[0]), actions[1..]);
      } else {
        RunKeepsFree(s, actions[1..]);
      }
    }
  }

  /** The second look at `in_flight` under the lock never finds a picked session there: every chosen turn is submitted. */
  lemma RecheckNeverFires(init: State, actions: seq<Action>, l: nat, now: int)
    requires Init(init) && Enabled(Run(init, actions), Submit(l, now))
    ensures var s := Run(init, actions); var m := s.loops[l].phase.rest[0];
      Next(s, Submit(l, now)).picks == s.picks + [Turn(s.loops[l].shell, s.db.msgs[m].session, m)]
  {
    InitIsInv(init);
    RunKeepsFree(init, actions);
    var s := Run(init, actions);
    assert LoopFreeOk(s.db, s.loops[l]);
    assert s.loops[l].phase.rest[0] in s.loops[l].phase.rest;
  }

  /** A loop past its snapshot is going to submit `m` unless the poll breaks off. */
  ghost predicate Awaits(s: State, l: nat, m: nat) {
    && l < |s.loops| && m < |s.db.msgs|
    && match s.loops[l].phase
       case Snapped(unread, snapshot) => m in unread && s.db.msgs[m].session !in snapshot
       case Submitting(rest) => m in rest
       case _ => false
  }

  ghost predicate AwaitsThroughout(s: State, actions: seq<Action>, l: nat, m: nat)
    decreases |actions|
  {
    && Awaits(s, l, m)
    && (actions != [] ==> AwaitsThroughout(if Enabled(s, actions[0]) then Next(s, actions[0]) else s, actions[1..], l, m))
  }

  predicate SameReadMark(before: seq<Msg>, after: seq<Msg>, m: nat) {
    m < |before| && m < |after| && after[m].read == before[m].read
  }

  /** No worker can settle a message that a loop is about to submit: its session would have to be in flight. */
  lemma AwaitedIsLeftAlone(s: State, a: Action, l: nat, m: nat)
    requires Inv(s) && FreeOk(s) && Enabled(s, a) && Awaits(s, l, m) && a != SetRead(m)
    ensures SameReadMark(s.db.msgs, Next(s, a).db.msgs, m)
  {
    if a.Process? {
      assert LoopFreeOk(s.db, s.loops[l]);
      ListFacts(s, l);
      LoopsApartForWorker(s, a.w, l, m);
    }
    hide Inv, FreeOk, Awaits;
    ReadByWhom(s, a, m);
  }

  /** Who can mark a message read: the worker that holds it, and writers outside. */
  lemma ReadByWhom(s: State, a: Action, m: nat)
    requires Enabled(s, a) && m < |s.db.msgs| && a != SetRead(m)
    requires a.Process? ==> s.workers[a.w].msg != m
    ensures SameReadMark(s.db.msgs, Next(s, a).db.msgs, m)
  {
    hide Within, FetchUnread, PickOldest, WarnStuck, TakeOff, Land;
  }

  lemma LoopsApartForWorker(s: State, w: nat, l: nat, m: nat)
    requires LoopsOk(s) && FlightsOk(s) && Live(s, w) && Awaits(s, l, m)
    requires LoopFreeOk(s.db, s.loops[l]) && LoopListOk(s.db, s.picks, s.loops[l])
    ensures s.workers[w].msg != m
  {
    assert WorkerOk(s, w);
    if s.workers[w].loop != l {
      LoopsApart(s, s.workers[w].loop, l);
    }
  }

  /** Between the snapshot and the submit only writers outside the dispatcher change a chosen message's read mark. */
  lemma {:induction false} UnreadFromSnapshotToSubmit(s: State, actions: seq<Action>, l: nat, m: nat)
    requires Inv(s) && FreeOk(s) && AwaitsThroughout(s, actions, l, m) && SetRead(m) !in actions
    ensures SameReadMark(s.db.msgs, Run(s, actions).db.msgs, m)
    decreases |actions|
  {
    if actions != [] {
      var a := actions[0];
      hide Inv, FreeOk, Next, Enabled;
      if Enabled(s, a) {
        assert a in actions;
        AwaitedIsLeftAlone(s, a, l, m);
        StepKeepsBoth(s, a);
        UnreadFromSnapshotToSubmit(Next(s, a), actions[1..], l, m);
      } else {
        UnreadFromSnapshotToSubmit(s, actions[1..], l, m);
      }
    }
  }

  lemma StepKeepsBoth(s: State, a: Action)
    requires Inv(s) && FreeOk(s) && Enabled(s, a)
    ensures Inv(Next(s, a)) && FreeOk(Next(s, a))
  {
    hide FreeOk, Next, Enabled;
    NextKeepsInv(s, a);
    NextKeepsFree(s, a);
  }

  // ── How a turn ends ─────────────────────────────────────────────────────

  /** `post_reply` reports 0 or 200, so an answering turn never raises, and settles its message exactly when the POST is carried out. */
  lemma AnswerSettlesIffCarriedOut(d: Delivery, handled: bool)
    ensures Status(d) < 400 && !Raises(Answers(d))
    ensures Settles(Answers(d), handled) <==> CarriedOut(d)
  {
  }

  /** A step that ends worker `w`'s work with its message settled. */
  predicate SettlesFor(a: Action, w: nat) {
    a.Process? && a.w == w && Settles(a.work, a.handled)
  }

  /** A step that ends it with the message left open: no marker written, or a turn that does not settle it. */
  predicate LeavesOpen(a: Action, w: nat) {
    a == MarkFailed(w) || (a.Process? && a.w == w && !Settles(a.work, a.handled))
  }

  function StepFrom(s: State, a: Action): State {
    if Enabled(s, a) then Next(s, a) else s
  }

  /** Some step of the run settles, or leaves open, for worker `w`. */
  predicate SettledBy(s: State, actions: seq<Action>, w: nat)
    decreases |actions|
  {
    actions != [] && ((Enabled(s, actions[0]) && SettlesFor(actions[0], w)) || SettledBy(StepFrom(s, actions[0]), actions[1..], w))
  }

  predicate LeftOpenBy(s: State, actions: seq<Action>, w: nat)
    decreases |actions|
  {
    actions != [] && ((Enabled(s, actions[0]) && LeavesOpen(actions[0], w)) || LeftOpenBy(StepFrom(s, actions[0]), actions[1..], w))
  }

  /** Not submitted yet, or submitted and still to do its work. */
  predicate Pending(s: State, w: nat) {
    w >= |s.workers| || (s.workers[w].stage == Queued || s.workers[w].stage == Marked || s.workers[w].stage.Loaded?)
  }

  lemma StageMoves(s: State, a: Action, w: nat)
    requires Enabled(s, a)
    ensures var s' := Next(s, a);
      && |s.workers| <= |s'.workers|
      && (w < |s.workers| ==> s'.workers[w].msg == s.workers[w].msg && s'.workers[w].loop == s.workers[w].loop)
      && (SettlesFor(a, w) || LeavesOpen(a, w) ==> Pending(s, w) && w < |s.workers|)
      && (Pending(s', w) <==> Pending(s, w) && !SettlesFor(a, w) && !LeavesOpen(a, w))
  {
    hide Within, FetchUnread, PickOldest, WarnStuck, TakeOff, Land, SetMarker, Worked, Settles, ClearMarkers, HistoryCovers;
  }

  /** A worker does its work once. */
  lemma {:induction false} DoneIsDone(s: State, actions: seq<Action>, w: nat)
    requires !Pending(s, w)
    ensures !Pending(Run(s, actions), w) && !SettledBy(s, actions, w) && !LeftOpenBy(s, actions, w)
    decreases |actions|
  {
    if actions != [] {
      hide Next, Enabled, Settles;
      if Enabled(s, actions[0]) { StageMoves(s, actions[0], w); }
      DoneIsDone(StepFrom(s, actions[0]), actions[1..], w);
    }
  }

  /** Every worker that has done its work has settled its message or left it open, one or the other. */
  lemma {:induction false} TurnEndsOneWay(s: State, actions: seq<Action>, w: nat)
    requires Pending(s, w)
    ensures !(SettledBy(s, actions, w) && LeftOpenBy(s, actions, w))
    ensures Pending(Run(s, actions), w) <==> !SettledBy(s, actions, w) && !LeftOpenBy(s, actions, w)
    decreases |actions|
  {
    if actions != [] {
      var a, s' := actions[0], StepFrom(s, actions[0]);
      hide Next, Enabled, Settles;
      if Enabled(s, a) { StageMoves(s, a, w); }
      if Pending(s', w) {
        TurnEndsOneWay(s', actions[1..], w);
      } else {
        DoneIsDone(s', actions[1..], w);
      }
    }
  }

  // ── Who marked a message read ───────────────────────────────────────────

  predicate MarksRead(s: State, a: Action, m: nat) {
    && Enabled(s, a) && m < |s.db.msgs|
    && (a == SetRead(m) || (a.Process? && s.workers[a.w].msg == m && Settles(a.work, a.handled)))
  }

  lemma ReadIffMarked(s: State, a: Action, m: nat)
    requires Enabled(s, a) && m < |s.db.msgs|
    ensures m < |Next(s, a).db.msgs|
    ensures Next(s, a).db.msgs[m].read <==> s.db.msgs[m].read || MarksRead(s, a, m)
  {
    hide Within, FetchUnread, PickOldest, WarnStuck, TakeOff, Land, Settles, Posts;
  }

  lemma {:induction false} SettledIsRead(s: State, actions: seq<Action>, w: nat)
    requires SettledBy(s, actions, w)
    ensures var s' := Run(s, actions);
      w < |s'.workers| && s'.workers[w].msg < |s'.db.msgs| && s'.db.msgs[s'.workers[w].msg].read
    decreases |actions|
  {
    var a := actions[0];
    if Enabled(s, a) && SettlesFor(a, w) {
      StageMoves(s, a, w);
      ReadIffMarked(s, a, s.workers[w].msg);
      hide Next, Enabled, Settles;
      ReadStays(Next(s, a), actions[1..], w);
    } else {
      SettledIsRead(StepFrom(s, a), actions[1..], w);
    }
  }

  lemma {:induction false} ReadStays(s: State, actions: seq<Action>, w: nat)
    requires w < |s.workers| && s.workers[w].msg < |s.db.msgs| && s.db.msgs[s.workers[w].msg].read
    ensures var s' := Run(s, actions);
      && w < |s'.workers| && s'.workers[w].msg == s.workers[w].msg
      && s'.workers[w].msg < |s'.db.msgs| && s'.db.msgs[s'.workers[w].msg].read
    decreases |actions|
  {
    if actions != [] {
      hide Next, Enabled;
      if Enabled(s, actions[0]) {
        StageMoves(s, actions[0], w);
        NextGrows(s, actions[0]);
      }
      ReadStays(StepFrom(s, actions[0]), actions[1..], w);
    }
  }

  /**
   Over all runs: when a message is about to be submitted, each earlier worker
   that held it has ended, and either left it open or the message is read.
   */
  lemma EarlierTurnsEnded(init: State, actions: seq<Action>, l: nat, now: int, w: nat)
    requires Init(init) && Enabled(Run(init, actions), Submit(l, now))
    requires var s := Run(init, actions); w < |s.workers| && s.workers[w].msg == s.loops[l].phase.rest[0]
    ensures var s := Run(init, actions);
      && s.workers[w].stage == Gone
      && (LeftOpenBy(init, actions, w) || s.db.msgs[s.loops[l].phase.rest[0]].read)
  {
    InitIsInv(init);
    RunKeepsFree(init, actions);
    var s := Run(init, actions);
    assert s.loops[l].phase.rest[0] in s.loops[l].phase.rest;
    if Live(s, w) {
      assert LoopFreeOk(s.db, s.loops[l]);
      ListFacts(s, l);
      LoopsApartForWorker(s, w, l, s.loops[l].phase.rest[0]);
    }
    TurnEndsOneWay(init, actions, w);
    if SettledBy(init, actions, w) { SettledIsRead(init, actions, w); }
  }

  // ── A settled message submitted again ───────────────────────────────────

  ghost predicate PollingThroughout(s: State, actions: seq<Action>, l: nat)
    decreases |actions|
  {
    Polling(s, l) && (actions != [] ==> PollingThroughout(StepFrom(s, actions[0]), actions[1..], l))
  }

  /** The poll still has `m` on the list from which it will be submitted. */
  predicate Carries(db: Db, loop: Loop, m: nat) {
    m < |db.msgs| && match loop.phase
    case Fetched(unread) => m in unread
    case Checked(unread) => m in unread
    case Snapped(unread, snapshot) => m in unread && db.msgs[m].session !in snapshot
    case Submitting(rest) => m in rest
    case _ => false
  }

  /** What a poll carries on it already carried. */
  lemma CarriedBack(s: State, a: Action, l: nat, m: nat)
    requires Enabled(s, a) && Polling(s, l) && LoopListOk(s.db, s.picks, s.loops[l])
    requires Polling(Next(s, a), l) && Carries(Next(s, a).db, Next(s, a).loops[l], m)
    ensures Carries(s.db, s.loops[l], m)
  {
    NextGrows(s, a);
    if a == Choose(l) {
      PickFacts(s.db.msgs, s.loops[l].phase.unread, s.loops[l].phase.snapshot);
      KeyPresent(s.db.msgs, PickOldest(s.db.msgs, s.loops[l].phase.unread, s.loops[l].phase.snapshot), m);
    } else {
      OtherCarriedBack(s, a, l, m);
    }
  }

  lemma OtherCarriedBack(s: State, a: Action, l: nat, m: nat)
    requires Enabled(s, a) && Polling(s, l) && a != Choose(l) && LoopListOk(s.db, s.picks, s.loops[l])
    requires Polling(Next(s, a), l) && Carries(Next(s, a).db, Next(s, a).loops[l], m)
    ensures Carries(s.db, s.loops[l], m)
  {
    NextGrows(s, a);
    ListedExist(s.db, s.picks, s.loops[l]);
    if a.Fetch? || a.Choose? || a.Submit? {
      hide LoopListOk, ListOk, RestOk, FetchUnread, PickOldest, TakeOff, Grows;
      assert a.l != l || a.Submit?;
    } else {
      StepCarriesLists(s, a);
      hide LoopListOk, ListOk, RestOk, Next, Enabled;
    }
  }

  lemma ListedExist(db: Db, picks: seq<Turn>, loop: Loop)
    requires LoopListOk(db, picks, loop)
    ensures loop.phase.Fetched? || loop.phase.Checked? || loop.phase.Snapped? ==> forall m | m in loop.phase.unread :: m < |db.msgs|
    ensures loop.phase.Submitting? ==> forall m | m in loop.phase.rest :: m < |db.msgs|
  {
  }

  /** The step marks `m` read in time: by a writer outside, or by the worker that holds it while the poll has no snapshot yet. */
  predicate MarksInGap(s: State, a: Action, l: nat, m: nat) {
    MarksRead(s, a, m) && (a == SetRead(m) || (l < |s.loops| && (s.loops[l].phase.Fetched? || s.loops[l].phase.Checked?)))
  }

  predicate MarkedInGap(s: State, actions: seq<Action>, l: nat, m: nat)
    decreases |actions|
  {
    actions != [] && (MarksInGap(s, actions[0], l, m) || MarkedInGap(StepFrom(s, actions[0]), actions[1..], l, m))
  }

  lemma {:induction false} ReadIffMarkedInGap(s: State, actions: seq<Action>, l: nat, m: nat)
    requires Inv(s) && FreeOk(s) && PollingThroughout(s, actions, l)
    requires l < |Run(s, actions).loops| && Carries(Run(s, actions).db, Run(s, actions).loops[l], m)
    ensures Carries(s.db, s.loops[l], m)
    ensures Run(s, actions).db.msgs[m].read <==> s.db.msgs[m].read || MarkedInGap(s, actions, l, m)
    decreases |actions|
  {
    if actions != [] {
      var a := actions[0];
      hide Inv, FreeOk, Next, Enabled, Carries, MarksInGap, MarksRead;
      if Enabled(s, a) {
        StepKeepsBoth(s, a);
        ReadIffMarkedInGap(Next(s, a), actions[1..], l, m);
        GapStep(s, a, l, m);
      } else {
        ReadIffMarkedInGap(s, actions[1..], l, m);
        NotEnabledMarksNothing(s, a, l, m);
      }
    }
  }

  lemma NotEnabledMarksNothing(s: State, a: Action, l: nat, m: nat)
    requires !Enabled(s, a)
    ensures !MarksInGap(s, a, l, m)
  {
  }

  lemma GapStep(s: State, a: Action, l: nat, m: nat)
    requires Inv(s) && FreeOk(s) && Enabled(s, a) && Polling(s, l) && Polling(Next(s, a), l)
    requires Carries(Next(s, a).db, Next(s, a).loops[l], m)
    ensures Carries(s.db, s.loops[l], m)
    ensures m < |Next(s, a).db.msgs| && (Next(s, a).db.msgs[m].read <==> s.db.msgs[m].read || MarksInGap(s, a, l, m))
  {
    ListFacts(s, l);
    CarriedBack(s, a, l, m);
    ReadIffMarked(s, a, m);
    hide Next, Enabled;
    if Awaits(s, l, m) && a != SetRead(m) {
      AwaitedIsLeftAlone(s, a, l, m);
    }
  }

  lemma {:induction false} RunConcat(s: State, a: seq<Action>, b: seq<Action>)
    ensures Run(s, a + b) == Run(Run(s, a), b)
    decreases |a|
  {
    if a == [] {
      assert a + b == b;
    } else {
      assert (a + b)[0] == a[0] && (a + b)[1..] == a[1..] + b;
      RunConcat(StepFrom(s, a[0]), a[1..], b);
    }
  }

  /**
   Why the poll that began in `s` is about to submit `m` in `s'`, `during` later.
   It fetched `m` unread. `m` is read by now if and only if, since then, a writer
   outside marked it or, before the poll's snapshot, a worker's turn settled it.
   If `m` is unread, every earlier worker that held it left it open.
   */
  ghost predicate Explained(init: State, actions: seq<Action>, s: State, during: seq<Action>, s': State, l: nat, m: nat) {
    && m < |s.db.msgs| && m < |s'.db.msgs| && !s.db.msgs[m].read
    && (s'.db.msgs[m].read <==> MarkedInGap(s, during, l, m))
    && forall w: nat | w < |s'.workers| && s'.workers[w].msg == m ::
      s'.workers[w].stage == Gone && (s'.db.msgs[m].read || LeftOpenBy(init, actions, w))
  }

  /** What holds when a poll that began with this fetch is about to submit. */
  lemma AgainAfterFetch(init: State, before: seq<Action>, l: nat, during: seq<Action>, now: int)
    requires Init(init) && Enabled(Run(init, before), Fetch(l))
    requires var s := Next(Run(init, before), Fetch(l)); PollingThroughout(s, during, l) && Enabled(Run(s, during), Submit(l, now))
    ensures var actions, s := before + [Fetch(l)] + during, Next(Run(init, before), Fetch(l));
      var s' := Run(s, during);
      Run(init, actions) == s' && Explained(init, actions, s, during, s', l, s'.loops[l].phase.rest[0])
  {
    var s0 := Run(init, before);
    var s := Next(s0, Fetch(l));
    var s' := Run(s, during);
    var m := s'.loops[l].phase.rest[0];
    InitIsInv(init);
    RunKeepsFree(init, before);
    StepKeepsBoth(s0, Fetch(l));
    RunKeepsFree(s, during);
    RunAppend(init, before, Fetch(l));
    RunConcat(init, before + [Fetch(l)], during);
    assert m in s'.loops[l].phase.rest;
    ReadIffMarkedInGap(s, during, l, m);
    FetchFacts(s0.db.msgs, s0.loops[l].shell);
    forall w: nat | w < |s'.workers| && s'.workers[w].msg == m
      ensures s'.workers[w].stage == Gone && (s'.db.msgs[m].read || LeftOpenBy(init, before + [Fetch(l)] + during, w))
    {
      EarlierTurnsEnded(init, before + [Fetch(l)] + during, l, now, w);
    }
  }

  lemma {:induction false} RunAppend(s: State, actions: seq<Action>, a: Action)
    ensures Run(s, actions + [a]) == StepFrom(Run(s, actions), a)
    decreases |actions|
  {
    var all := actions + [a];
    if actions == [] {
      assert all == [a] && all[1..] == [];
    } else {
      assert all[0] == actions[0] && all[1..] == actions[1..] + [a];
      RunAppend(StepFrom(s, actions[0]), actions[1..], a);
    }
  }

  lemma {:induction false} PollingAppend(s: State, actions: seq<Action>, a: Action, l: nat)
    requires PollingThroughout(s, actions, l) && Polling(Run(s, actions + [a]), l)
    ensures PollingThroughout(s, actions + [a], l)
    decreases |actions|
  {
    var all := actions + [a];
    if actions == [] {
      assert all == [a] && all[1..] == [];
      assert Run(s, all) == Run(StepFrom(s, a), []);
    } else {
      assert all[0] == actions[0] && all[1..] == actions[1..] + [a];
      PollingAppend(StepFrom(s, actions[0]), actions[1..], a, l);
    }
  }

  /** Only a fetch begins a poll. */
  lemma OnlyFetchBegins(s: State, a: Action, l: nat)
    requires Enabled(s, a) && !Polling(s, l) && Polling(Next(s, a), l)
    ensures a == Fetch(l)
  {
    hide Within, FetchUnread, PickOldest, WarnStuck, TakeOff, Land, SetMarker, Worked, ClearMarkers;
  }

  /** A poll under way began with a fetch and has been under way since. */
  lemma {:induction false} PollBegan(init: State, actions: seq<Action>, l: nat) returns (k: nat)
    requires Init(init) && Polling(Run(init, actions), l)
    ensures k < |actions| && actions[k] == Fetch(l) && Enabled(Run(init, actions[..k]), Fetch(l))
    ensures var s := Next(Run(init, actions[..k]), Fetch(l));
      PollingThroughout(s, actions[k + 1..], l) && Run(s, actions[k + 1..]) == Run(init, actions)
    decreases |actions|
  {
    var n := |actions| - 1;
    var before, a := actions[..n], actions[n];
    assert actions == before + [a];
    RunAppend(init, before, a);
    hide Next, Enabled, Polling;
    if Polling(Run(init, before), l) {
      k := PollBegan(init, before, l);
      assert before[..k] == actions[..k] && before[k + 1..] + [a] == actions[k + 1..];
      var s := Next(Run(init, actions[..k]), Fetch(l));
      RunAppend(s, before[k + 1..], a);
      PollingAppend(s, before[k + 1..], a, l);
    } else {
      OnlyFetchBegins(Run(init, before), a, l);
      k := n;
      assert actions[n + 1..] == [];
    }
  }

  /** Over all runs, exactly when a message is submitted again: the `k`-th step began the poll, and what happened since explains it. */
  lemma SubmittedAgainIff(init: State, actions: seq<Action>, l: nat, now: int) returns (k: nat)
    requires Init(init) && Enabled(Run(init, actions), Submit(l, now))
    ensures k < |actions| && actions[k] == Fetch(l) && Enabled(Run(init, actions[..k]), Fetch(l))
    ensures var s, s' := Next(Run(init, actions[..k]), Fetch(l)), Run(init, actions);
      Explained(init, actions, s, actions[k + 1..], s', l, s'.loops[l].phase.rest[0])
  {
    assert Polling(Run(init, actions), l);
    hide Next, Enabled, Explained, PollingThroughout, Init, Polling;
    k := PollBegan(init, actions, l);
    assert actions[..k] + [Fetch(l)] + actions[k + 1..] == actions;
    AgainAfterFetch(init, actions[..k], l, actions[k + 1..], now);
  }

  // ── Both do happen ──────────────────────────────────────────────────────

  const SESSION: Key := Some("s")

  /** The session's rows: one inbound message and, once that is read, its reply. */
  function Rows(read: bool): seq<Msg> {
    [Msg(1, SESSION, true, read, false)] + if read then [Msg(1, SESSION, false, false, false)] else []
  }

  /** One shell with one session; its loop in `phase`, its turns at `stages`, the last of them in flight or none. */
  function Small(read: bool, held: bool, phase: Phase, flying: bool, stages: seq<Stage>): State
    requires flying ==> stages != []
  {
    var flight := if flying then Flight({SESSION}, map[SESSION := 0], {}) else NOTHING_IN_FLIGHT;
    State(Db(Rows(read), map["s" := 1], if held then map["s" := 0] else map[], {1}),
          [Loop(1, false, phase, flight, if flying then map[SESSION := |stages| - 1] else map[])],
          seq(|stages|, i requires 0 <= i < |stages| => Worker(0, 0, stages[i])),
          Discovered({}, {1}), map[1 := 0], {}, {1}, seq(|stages|, i => Turn(1, SESSION, 0)))
  }

  const FRESH := State(Db(Rows(false), map["s" := 1], map[], {1}), [], [], Idle, map[], {}, {}, [])

  ghost predicate Leads(s: State, a: Action, s': State) {
    Enabled(s, a) && Next(s, a) == s'
  }

  lemma Go(s: State, actions: seq<Action>, a: Action, s': State) returns (longer: seq<Action>)
    requires Leads(Run(s, actions), a, s')
    ensures longer == actions + [a] && Run(s, longer) == s'
  {
    longer := actions + [a];
    RunAppend(s, actions, a);
  }

  lemma JoinLeads()
    ensures Leads(FRESH, Prune, FRESH.(cycle := Pruned({})))
    ensures Leads(FRESH.(cycle := Pruned({})), Discover, FRESH.(cycle := Discovered({}, {1})))
    ensures Leads(FRESH.(cycle := Discovered({}, {1})), Join(1), Small(false, false, Top, false, []))
  {
    assert PrunedState(FRESH).draining == {};
    assert PrunedState(FRESH).cycle.busy == {};
  }

  lemma RowsFetched()
    ensures FetchUnread(Rows(false), 1) == [0]
  {
    var row := Msg(1, SESSION, true, false, false);
    assert Rows(false) == [row] && [row][..0] == [];
    assert FetchUnread([row][..0], 1) == [];
  }

  lemma RowsPicked(read: bool)
    ensures PickOldest(Rows(read), [0], {}) == [0]
  {
    PickAppend(Rows(read), [], 0, {});
    assert [] + [0] == [0];
  }

  lemma FetchLeads(flying: bool, stages: seq<Stage>)
    requires flying ==> stages != []
    ensures Leads(Small(false, false, Top, flying, stages), Fetch(0), Small(false, false, Fetched([0]), flying, stages))
  {
    RowsFetched();
  }

  lemma WarnLeads(flying: bool, stages: seq<Stage>)
    requires flying ==> stages != []
    ensures Leads(Small(false, false, Fetched([0]), flying, stages), Warn(0, 0), Small(false, false, Checked([0]), flying, stages))
  {
    var flight := if flying then Flight({SESSION}, map[SESSION := 0], {}) else NOTHING_IN_FLIGHT;
    assert WarnStuck(flight, 0) == flight;
  }

  lemma ChooseLeads(read: bool, stages: seq<Stage>)
    ensures Leads(Small(read, false, Checked([0]), false, stages), Snapshot(0), Small(read, false, Snapped([0], {}), false, stages))
    ensures Leads(Small(read, false, Snapped([0], {}), false, stages), Choose(0), Small(read, false, Submitting([0]), false, stages))
  {
    RowsPicked(read);
  }

  lemma SubmitLeads(read: bool, stages: seq<Stage>)
    ensures Leads(Small(read, false, Submitting([0]), false, stages), Submit(0, 0),
                  Small(read, false, Submitting([]), true, stages + [Queued]))
  {
    var s, s' := Small(read, false, Submitting([0]), false, stages), Small(read, false, Submitting([]), true, stages + [Queued]);
    assert [0][1..] == [];
    assert s.workers + [Worker(0, 0, Queued)] == s'.workers;
    assert s.picks + [Turn(1, SESSION, 0)] == s'.picks;
    assert TakeOff(NOTHING_IN_FLIGHT, SESSION, 0) == Flight({SESSION}, map[SESSION := 0], {});
    assert SubmitNext(s, 0, 0).loops == s'.loops;
  }

  lemma EndPollLeads(stages: seq<Stage>)
    requires stages != []
    ensures Leads(Small(false, false, Submitting([]), true, stages), EndPoll(0), Small(false, false, Top, true, stages))
  {
  }

  /** The newest worker, of `gone` and one more, changes its stage and nothing else. */
  lemma NewestMoves(read: bool, held: bool, phase: Phase, gone: seq<Stage>, st: Stage, st': Stage)
    ensures WithStage(Small(read, held, phase, true, gone + [st]), |gone|, st') == Small(read, held, phase, true, gone + [st'])
  {
    var s, s' := Small(read, held, phase, true, gone + [st]), Small(read, held, phase, true, gone + [st']);
    assert s.workers[|gone| := Worker(0, 0, st')] == s'.workers;
    assert s.picks == s'.picks;
  }

  lemma MarkLeads(phase: Phase, gone: seq<Stage>)
    ensures Leads(Small(false, false, phase, true, gone + [Queued]), Mark(|gone|), Small(false, true, phase, true, gone + [Marked]))
  {
    NewestMoves(false, false, phase, gone, Queued, Marked);
  }

  lemma UnansweredIsUncovered()
    ensures !HistoryCovers(Rows(false), SESSION, 20)
  {
    var rows := Chat(Rows(false));
    assert rows == [Transcript.ChatRow(SESSION, true, false, "")];
    assert rows[1..] == [];
    assert Transcript.SeenMessages(rows, SESSION) == [Transcript.Message(Transcript.User, Transcript.Plain(""))];
  }

  lemma LoadLeads(phase: Phase, gone: seq<Stage>)
    ensures Leads(Small(false, true, phase, true, gone + [Marked]), Load(|gone|, 20),
                  Small(false, true, phase, true, gone + [Loaded(false)]))
  {
    UnansweredIsUncovered();
    hide HistoryCovers;
    NewestMoves(false, true, phase, gone, Marked, Loaded(false));
  }

  lemma LostReplyLeads(phase: Phase, gone: seq<Stage>)
    ensures Leads(Small(false, true, phase, true, gone + [Loaded(false)]), Process(|gone|, Answers(Undelivered), true),
                  Small(false, true, phase, true, gone + [Answered]))
  {
    AnswerSettlesIffCarriedOut(Undelivered, true);
    NewestMoves(false, true, phase, gone, Loaded(false), Answered);
  }

  lemma ReplyLeads(phase: Phase, gone: seq<Stage>)
    ensures Leads(Small(false, true, phase, true, gone + [Loaded(false)]), Process(|gone|, Answers(Landed), true),
                  Small(true, true, phase, true, gone + [Answered]))
  {
    AnswerSettlesIffCarriedOut(Landed, true);
    NewestMoves(false, true, phase, gone, Loaded(false), Answered);
    assert Worked(Small(false, true, phase, true, gone + [Loaded(false)]).db, 0, Answers(Landed), true).msgs == Rows(true);
  }

  lemma ClearLeads(read: bool, phase: Phase, gone: seq<Stage>)
    ensures Leads(Small(read, true, phase, true, gone + [Answered]), Clear(|gone|), Small(read, false, phase, true, gone + [Cleared]))
  {
    NewestMoves(read, true, phase, gone, Answered, Cleared);
    assert map["s" := 0] - {"s"} == map[];
  }

  lemma ReleaseLeads(read: bool, phase: Phase, gone: seq<Stage>)
    requires !phase.Submitting?
    ensures Leads(Small(read, false, phase, true, gone + [Cleared]), Release(|gone|), Small(read, false, phase, false, gone + [Gone]))
  {
    NewestMoves(read, false, phase, gone, Cleared, Gone);
    assert Land(Flight({SESSION}, map[SESSION := 0], {}), SESSION) == NOTHING_IN_FLIGHT;
    assert map[SESSION := |gone|] - {SESSION} == map[];
  }

  /** From an idle poll over the open message, one poll submits it. */
  lemma SubmitsOnce(actions: seq<Action>, gone: seq<Stage>) returns (longer: seq<Action>)
    requires Run(FRESH, actions) == Small(false, false, Top, false, gone)
    ensures Run(FRESH, longer) == Small(false, false, Top, true, gone + [Queued])
  {
    FetchLeads(false, gone);
    WarnLeads(false, gone);
    ChooseLeads(false, gone);
    SubmitLeads(false, gone);
    EndPollLeads(gone + [Queued]);
    hide Leads, Small, Next, Enabled;
    longer := Go(FRESH, actions, Fetch(0), Small(false, false, Fetched([0]), false, gone));
    longer := Go(FRESH, longer, Warn(0, 0), Small(false, false, Checked([0]), false, gone));
    longer := Go(FRESH, longer, Snapshot(0), Small(false, false, Snapped([0], {}), false, gone));
    longer := Go(FRESH, longer, Choose(0), Small(false, false, Submitting([0]), false, gone));
    longer := Go(FRESH, longer, Submit(0, 0), Small(false, false, Submitting([]), true, gone + [Queued]));
    longer := Go(FRESH, longer, EndPoll(0), Small(false, false, Top, true, gone + [Queued]));
  }

  /** The submitted turn runs, and its reply is not delivered. */
  lemma LosesReply(actions: seq<Action>, gone: seq<Stage>) returns (longer: seq<Action>)
    requires Run(FRESH, actions) == Small(false, false, Top, true, gone + [Queued])
    ensures Run(FRESH, longer) == Small(false, false, Top, false, gone + [Gone])
  {
    MarkLeads(Top, gone);
    LoadLeads(Top, gone);
    LostReplyLeads(Top, gone);
    ClearLeads(false, Top, gone);
    ReleaseLeads(false, Top, gone);
    hide Leads, Small, Next, Enabled;
    longer := Go(FRESH, actions, Mark(|gone|), Small(false, true, Top, true, gone + [Marked]));
    longer := Go(FRESH, longer, Load(|gone|, 20), Small(false, true, Top, true, gone + [Loaded(false)]));
    longer := Go(FRESH, longer, Process(|gone|, Answers(Undelivered), true), Small(false, true, Top, true, gone + [Answered]));
    longer := Go(FRESH, longer, Clear(|gone|), Small(false, false, Top, true, gone + [Cleared]));
    longer := Go(FRESH, longer, Release(|gone|), Small(false, false, Top, false, gone + [Gone]));
  }

  lemma Joins() returns (actions: seq<Action>)
    ensures Run(FRESH, actions) == Small(false, false, Top, false, [])
  {
    JoinLeads();
    hide Leads, Small, Next, Enabled;
    actions := Go(FRESH, [], Prune, FRESH.(cycle := Pruned({})));
    actions := Go(FRESH, actions, Discover, FRESH.(cycle := Discovered({}, {1})));
    actions := Go(FRESH, actions, Join(1), Small(false, false, Top, false, []));
  }

  lemma {:induction false} LosesReplies(n: nat) returns (actions: seq<Action>, gone: seq<Stage>)
    ensures |gone| == n && Run(FRESH, actions) == Small(false, false, Top, false, gone)
  {
    if n == 0 {
      actions := Joins();
      gone := [];
    } else {
      hide Small;
      actions, gone := LosesReplies(n - 1);
      actions := SubmitsOnce(actions, gone);
      actions := LosesReply(actions, gone);
      gone := gone + [Gone];
    }
  }

  /** There is no bound on repeats: for every `n` a run submits one message `n` times, each reply being lost. */
  lemma LostRepliesRepeat(n: nat) returns (actions: seq<Action>)
    ensures Init(FRESH)
    ensures var s := Run(FRESH, actions); |s.picks| == n && forall i | 0 <= i < n :: s.picks[i] == Turn(1, SESSION, 0)
  {
    var gone;
    actions, gone := LosesReplies(n);
  }

  /** The next poll fetches while the turn is still queued; the turn then replies and ends; only then is the snapshot taken. */
  lemma StaleSnapshot() returns (actions: seq<Action>)
    ensures Run(FRESH, actions) == Small(true, false, Submitting([0]), false, [] + [Gone])
  {
    actions := Joins();
    actions := SubmitsOnce(actions, []);
    FetchLeads(true, [] + [Queued]);
    WarnLeads(true, [] + [Queued]);
    MarkLeads(Checked([0]), []);
    LoadLeads(Checked([0]), []);
    ReplyLeads(Checked([0]), []);
    ClearLeads(true, Checked([0]), []);
    ReleaseLeads(true, Checked([0]), []);
    ChooseLeads(true, [] + [Gone]);
    hide Leads, Small, Next, Enabled;
    actions := Go(FRESH, actions, Fetch(0), Small(false, false, Fetched([0]), true, [] + [Queued]));
    actions := Go(FRESH, actions, Warn(0, 0), Small(false, false, Checked([0]), true, [] + [Queued]));
    actions := Go(FRESH, actions, Mark(0), Small(false, true, Checked([0]), true, [] + [Marked]));
    actions := Go(FRESH, actions, Load(0, 20), Small(false, true, Checked([0]), true, [] + [Loaded(false)]));
    actions := Go(FRESH, actions, Process(0, Answers(Landed), true), Small(true, true, Checked([0]), true, [] + [Answered]));
    actions := Go(FRESH, actions, Clear(0), Small(true, false, Checked([0]), true, [] + [Cleared]));
    actions := Go(FRESH, actions, Release(0), Small(true, false, Checked([0]), false, [] + [Gone]));
    actions := Go(FRESH, actions, Snapshot(0), Small(true, false, Snapped([0], {}), false, [] + [Gone]));
    actions := Go(FRESH, actions, Choose(0), Small(true, false, Submitting([0]), false, [] + [Gone]));
  }

  /**
   The release order does not rule out a second turn: a list fetched before the
   first turn ended still names its message when the snapshot is taken after it.
   */
  lemma StaleFetchRepeats() returns (actions: seq<Action>)
    ensures Init(FRESH)
    ensures var s := Run(FRESH, actions); s.db.msgs != [] && s.db.msgs[0].read && Enabled(s, Submit(0, 0))
    ensures var s := Run(FRESH, actions + [Submit(0, 0)]); |s.picks| == 2 && s.picks[0] == s.picks[1]
    ensures Run(FRESH, actions + [Submit(0, 0)]) == Small(true, false, Submitting([]), true, [] + [Gone] + [Queued])
  {
    actions := StaleSnapshot();
    SubmitLeads(true, [] + [Gone]);
    var last := Go(FRESH, actions, Submit(0, 0), Small(true, false, Submitting([]), true, [] + [Gone] + [Queued]));
  }
}
