/**
 The dispatcher's supervisor: one cycle reconciles the running loops with
 `browser_chat`. Every cycle is a run of the protocol's supervisor steps.
 */
module Supervisor {
  import opened Dispatcher
  import opened DispatchSafety
  import opened DispatchRepeats

  /** A draining loop: its shell and its thread. */
  datatype Drain = Drain(shell: int, thread: nat)

  /** What `main` keeps; threads are numbered as they are started, and `stopped` are those whose event is set. */
  datatype Members = Members(running: map<int, nat>, draining: seq<Drain>, stopped: set<nat>, started: nat)

  /** Draining loops whose thread has not ended. */
  function StillDraining(draining: seq<Drain>, ended: set<nat>): seq<Drain> {
    if draining == [] then []
    else
      var k := |draining| - 1;
      StillDraining(draining[..k], ended) + if draining[k].thread in ended then [] else [draining[k]]
  }

  function ShellsOf(draining: seq<Drain>): set<int> {
    set d | d in draining :: d.shell
  }

  lemma StillDrainingAppend(draining: seq<Drain>, d: Drain, ended: set<nat>)
    ensures StillDraining(draining + [d], ended) == StillDraining(draining, ended) + if d.thread in ended then [] else [d]
  {
    assert (draining + [d])[..|draining|] == draining;
  }

  lemma {:induction false} StillDrainingFacts(draining: seq<Drain>, ended: set<nat>)
    ensures forall d :: d in StillDraining(draining, ended) <==> d in draining && d.thread !in ended
  {
    if draining != [] {
      var k := |draining| - 1;
      StillDrainingFacts(draining[..k], ended);
      assert draining == draining[..k] + [draining[k]];
    }
  }

  // ── The three moves, and orders of them ─────────────────────────────────

  function PrunedMembers(m: Members, ended: set<nat>): Members {
    m.(draining := StillDraining(m.draining, ended))
  }

  function LeftMembers(m: Members, shell: int): Members {
    if shell !in m.running then m
    else
      var t := m.running[shell];
      m.(running := m.running - {shell}, draining := m.draining + [Drain(shell, t)], stopped := m.stopped + {t})
  }

  function JoinedMembers(m: Members, shell: int): Members {
    m.(running := m.running[shell := m.started], started := m.started + 1)
  }

  function LeaveAll(m: Members, order: seq<int>): Members {
    if order == [] then m else LeftMembers(LeaveAll(m, order[..|order| - 1]), order[|order| - 1])
  }

  function JoinAll(m: Members, order: seq<int>): Members {
    if order == [] then m else JoinedMembers(JoinAll(m, order[..|order| - 1]), order[|order| - 1])
  }

  lemma LeaveAllAppend(m: Members, order: seq<int>, shell: int)
    ensures LeaveAll(m, order + [shell]) == LeftMembers(LeaveAll(m, order), shell)
  {
    assert (order + [shell])[..|order|] == order;
  }

  lemma JoinAllAppend(m: Members, order: seq<int>, shell: int)
    ensures JoinAll(m, order + [shell]) == JoinedMembers(JoinAll(m, order), shell)
  {
    assert (order + [shell])[..|order|] == order;
  }

  predicate Distinct(order: seq<int>) {
    forall i, j | 0 <= i < j < |order| :: order[i] != order[j]
  }

  function Elements(order: seq<int>): set<int> {
    set x | x in order
  }

  /** `supervisor`'s variables, and the moves of one cycle. */
  class Membership {
    var running: map<int, nat>
    var draining: seq<Drain>
    var stopped: set<nat>
    var started: nat

    /** No shell is running and draining at once, no thread serves two shells, and a running thread has not been told to stop. */
    ghost predicate Valid()
      reads this
    {
      && running.Keys !! ShellsOf(draining)
      && (forall shell | shell in running :: running[shell] < started && running[shell] !in stopped)
      && (forall a, b | a in running && b in running && a != b :: running[a] != running[b])
      && (forall d | d in draining :: d.thread in stopped)
      && (forall t | t in stopped :: t < started)
    }

    function Now(): Members
      reads this
    {
      Members(running, draining, stopped, started)
    }

    constructor ()
      ensures Valid() && Now() == Members(map[], [], {}, 0)
    {
      running, draining, stopped, started := map[], [], {}, 0;
    }

    /** Forgets the draining loops that have ended. */
    method Prune(ended: set<nat>)
      requires Valid()
      modifies this`draining
      ensures Valid() && Now() == PrunedMembers(old(Now()), ended)
    {
      var kept: seq<Drain> := [];
      ghost var done: seq<Drain> := [];
      for i := 0 to |draining|
        invariant draining == old(draining) && done == draining[..i] && kept == StillDraining(done, ended)
      {
        StillDrainingAppend(done, draining[i], ended);
        if draining[i].thread !in ended {
          kept := kept + [draining[i]];
        }
        done := done + [draining[i]];
      }
      assert done == draining;
      StillDrainingFacts(draining, ended);
      draining := kept;
    }

    /** Tells the loop of a shell that left to stop; it drains from now on. */
    method Leave(shell: int)
      requires Valid() && shell in running
      modifies this`running, this`draining, this`stopped
      ensures Valid() && Now() == LeftMembers(old(Now()), shell)
      ensures ShellsOf(draining) == ShellsOf(old(draining)) + {shell}
    {
      var t := running[shell];
      running := running - {shell};
      stopped := stopped + {t};
      draining := draining + [Drain(shell, t)];
    }

    /** Starts a loop for a shell that has none. */
    method Join(shell: int)
      requires Valid() && shell !in running && shell !in ShellsOf(draining)
      modifies this`running, this`started
      ensures Valid() && Now() == JoinedMembers(old(Now()), shell)
    {
      running := running[shell := started];
      started := started + 1;
    }

    /**
     One cycle against the members read from the table. Members keep their loop
     or get one, unless their previous loop is still draining; everyone else's
     loop is told to stop. `left` and `joined` are the orders in which that happens.
     */
    method Reconcile(current: set<int>, ended: set<nat>) returns (ghost left: seq<int>, ghost joined: seq<int>)
      requires Valid()
      modifies this
      ensures Valid()
      ensures var busy := ShellsOf(StillDraining(old(draining), ended));
        && running.Keys == current * old(running).Keys + (current - old(running).Keys - busy)
        && ShellsOf(draining) == busy + (old(running).Keys - current)
        && Distinct(left) && Elements(left) == old(running).Keys - current
        && Distinct(joined) && Elements(joined) == current - old(running).Keys - busy
      ensures forall shell | shell in current * old(running).Keys :: running[shell] == old(running)[shell]
      ensures forall shell | shell in running.Keys - old(running).Keys :: running[shell] >= old(started)
      ensures stopped == old(stopped) + set shell | shell in old(running).Keys - current :: old(running)[shell]
      ensures Now() == JoinAll(LeaveAll(PrunedMembers(old(Now()), ended), left), joined)
    {
      Prune(ended);
      var busy := ShellsOf(draining);
      left := StopLeavers(current);
      joined := StartJoiners(current, busy);
    }

    method StopLeavers(current: set<int>) returns (ghost left: seq<int>)
      requires Valid()
      modifies this`running, this`draining, this`stopped
      ensures Valid() && Now() == LeaveAll(old(Now()), left)
      ensures Distinct(left) && Elements(left) == old(running).Keys - current
      ensures running == old(running) - (old(running).Keys - current)
      ensures ShellsOf(draining) == ShellsOf(old(draining)) + (old(running).Keys - current)
      ensures stopped == old(stopped) + set shell | shell in old(running).Keys - current :: old(running)[shell]
    {
      hide Valid, ShellsOf;
      left := [];
      var leaving := running.Keys - current;
      while leaving != {}
        invariant Valid() && leaving <= running.Keys && leaving !! current
        invariant Now() == LeaveAll(old(Now()), left) && Distinct(left)
        invariant Elements(left) == old(running).Keys - current - leaving
        invariant running == old(running) - (old(running).Keys - current - leaving)
        invariant ShellsOf(draining) == ShellsOf(old(draining)) + (old(running).Keys - current - leaving)
        invariant stopped == old(stopped) + set shell | shell in old(running).Keys - current - leaving :: old(running)[shell]
        decreases leaving
      {
        Inhabited(leaving);
        var shell :| shell in leaving;
        LeaveStep(old(running), current, leaving, shell);
        LeaveAllAppend(old(Now()), left, shell);
        DistinctMore(left, shell);
        hide Elements, Distinct;
        Leave(shell);
        left := left + [shell];
        leaving := leaving - {shell};
      }
    }

    method StartJoiners(current: set<int>, busy: set<int>) returns (ghost joined: seq<int>)
      requires Valid() && running.Keys <= current && ShellsOf(draining) * current <= busy
      modifies this`running, this`started
      ensures Valid() && started >= old(started) && Now() == JoinAll(old(Now()), joined)
      ensures Distinct(joined) && Elements(joined) == current - old(running).Keys - busy
      ensures running.Keys == old(running).Keys + (current - old(running).Keys - busy)
      ensures forall shell | shell in old(running) :: running[shell] == old(running)[shell]
      ensures forall shell | shell in running.Keys - old(running).Keys :: running[shell] >= old(started)
    {
      hide Valid, ShellsOf;
      joined := [];
      var joining := current - running.Keys - busy;
      ghost var wanted := joining;
      while joining != {}
        invariant Valid() && joining <= wanted && joining !! running.Keys
        invariant Now() == JoinAll(old(Now()), joined) && Distinct(joined) && Elements(joined) == wanted - joining
        invariant running.Keys == old(running).Keys + (wanted - joining)
        invariant forall shell | shell in running ::
          if shell in old(running) then running[shell] == old(running)[shell] else running[shell] >= old(started)
        invariant started >= old(started)
        decreases joining
      {
        Inhabited(joining);
        var shell :| shell in joining;
        JoinAllAppend(old(Now()), joined, shell);
        DistinctMore(joined, shell);
        hide Elements, Distinct;
        Join(shell);
        joined := joined + [shell];
        joining := joining - {shell};
      }
    }
  }

  lemma DistinctMore(order: seq<int>, x: int)
    requires Distinct(order) && x !in Elements(order)
    ensures Distinct(order + [x]) && Elements(order + [x]) == Elements(order) + {x}
  {
    assert forall i | 0 <= i < |order| :: order[i] in order;
  }

  lemma Inhabited(s: set<int>)
    ensures s == {} || exists x: int :: x in s
  {
    if forall x: int :: x !in s {
      assert s == {};
    }
  }

  lemma LeaveStep(running: map<int, nat>, current: set<int>, leaving: set<int>, shell: int)
    requires shell in leaving && leaving <= running.Keys && leaving !! current
    ensures running - (running.Keys - current - (leaving - {shell})) == running - (running.Keys - current - leaving) - {shell}
    ensures (set x | x in running.Keys - current - (leaving - {shell}) :: running[x])
         == (set x | x in running.Keys - current - leaving :: running[x]) + {running[shell]}
  {
    assert running.Keys - current - (leaving - {shell}) == running.Keys - current - leaving + {shell};
  }

  // ── A cycle as steps of the protocol ────────────────────────────────────

  /** The supervisor's variables as the protocol's state shows them. */
  ghost predicate Shown(m: Members, s: State) {
    && m.running == s.running && m.started == |s.loops|
    && (forall d | d in m.draining :: d.thread in s.draining && d.thread < |s.loops| && s.loops[d.thread].shell == d.shell)
    && (forall t | t in s.draining :: t < |s.loops| && Drain(s.loops[t].shell, t) in m.draining)
    && (forall t: nat | t < |s.loops| :: t in m.stopped <==> s.loops[t].stop)
    && (forall t | t in m.stopped :: t < |s.loops|)
  }

  /** Between cycles the loops, their workers and everyone else change nothing the supervisor keeps. */
  lemma OthersKeepShown(m: Members, s: State, a: Action)
    requires Shown(m, s) && LoopsOk(s) && Enabled(s, a) && !Supervises(a)
    ensures Shown(m, Next(s, a))
  {
    StepMovesOneLoop(s, a);
    hide Next, Enabled, LoopsOk;
    var s' := Next(s, a);
    assert forall t: nat | t < |s.loops| :: s'.loops[t].shell == s.loops[t].shell && s'.loops[t].stop == s.loops[t].stop;
  }

  /** The threads that have ended. */
  ghost predicate Ended(ended: set<nat>, s: State) {
    forall t: nat | t < |s.loops| :: t in ended <==> s.loops[t].phase == Dead
  }

  lemma PruneShown(m: Members, s: State, ended: set<nat>)
    requires Shown(m, s) && Ended(ended, s)
    ensures Shown(PrunedMembers(m, ended), PrunedState(s))
    ensures PrunedState(s).cycle == Pruned(ShellsOf(StillDraining(m.draining, ended)))
  {
    StillDrainingFacts(m.draining, ended);
    var kept, s' := StillDraining(m.draining, ended), PrunedState(s);
    forall x ensures x in s'.cycle.busy <==> x in ShellsOf(kept) {
      if x in ShellsOf(kept) {
        var d :| d in kept && d.shell == x;
        assert d.thread in s'.draining;
      }
      if x in s'.cycle.busy {
        var t :| t in s'.draining && t < |s.loops| && s.loops[t].shell == x;
        assert Drain(x, t) in kept;
      }
    }
  }

  lemma LeaveShown(m: Members, s: State, shell: int)
    requires Shown(m, s) && shell in s.running && s.running[shell] < |s.loops| && s.loops[s.running[shell]].shell == shell
    ensures Shown(LeftMembers(m, shell), Left(s, shell))
  {
    var m', s' := LeftMembers(m, shell), Left(s, shell);
    var l := s.running[shell];
    forall t | t in s'.draining ensures t < |s'.loops| && Drain(s'.loops[t].shell, t) in m'.draining {
      if t != l { assert Drain(s.loops[t].shell, t) in m.draining; } else { assert m'.draining[|m.draining|] == Drain(shell, l); }
    }
  }

  lemma JoinShown(m: Members, s: State, shell: int)
    requires Shown(m, s)
    ensures Shown(JoinedMembers(m, shell), Joined(s, shell))
  {
    var s' := Joined(s, shell);
    assert forall t: nat | t < |s.loops| :: s'.loops[t] == s.loops[t];
  }

  function Leaves(order: seq<int>): seq<Action> {
    seq(|order|, i requires 0 <= i < |order| => Action.Leave(order[i]))
  }

  function Joins(order: seq<int>): seq<Action> {
    seq(|order|, i requires 0 <= i < |order| => Action.Join(order[i]))
  }

  /** The state a supervisor may be in once it has read the members. */
  ghost predicate InCycle(m: Members, s: State) {
    Shown(m, s) && LoopsOk(s) && CycleOk(s) && s.cycle.Discovered?
  }

  lemma LeaveOnce(m: Members, s: State, shell: int)
    requires InCycle(m, s) && shell in s.running && shell !in s.cycle.current
    ensures var s' := StepFrom(s, Action.Leave(shell));
      InCycle(LeftMembers(m, shell), s') && s'.cycle == s.cycle && s'.running.Keys == s.running.Keys - {shell}
  {
    LeaveShown(m, s, shell);
    LeaveKeepsLoops(s, shell);
  }

  lemma JoinOnce(m: Members, s: State, shell: int)
    requires InCycle(m, s) && s.running.Keys <= s.cycle.current && shell in s.cycle.current - s.running.Keys - s.cycle.busy
    ensures var s' := StepFrom(s, Action.Join(shell));
      InCycle(JoinedMembers(m, shell), s') && s'.cycle == s.cycle && s'.running.Keys == s.running.Keys + {shell}
  {
    JoinShown(m, s, shell);
    JoinKeepsLoops(s, shell);
  }

  lemma LastIsNew(before: seq<int>, x: int)
    requires Distinct(before + [x])
    ensures Distinct(before) && x !in Elements(before) && Elements(before + [x]) == Elements(before) + {x}
  {
    var all := before + [x];
    assert forall i | 0 <= i < |before| :: all[i] == before[i];
    assert all[|before|] == x;
  }

  /** Stopping the leavers in any order is that many enabled steps. */
  lemma {:induction false} LeavesRun(m: Members, s: State, order: seq<int>)
    requires InCycle(m, s) && Distinct(order) && Elements(order) <= s.running.Keys - s.cycle.current
    ensures var s' := Run(s, Leaves(order));
      InCycle(LeaveAll(m, order), s') && s'.cycle == s.cycle && s'.running.Keys == s.running.Keys - Elements(order)
    decreases |order|
  {
    if order != [] {
      var n := |order| - 1;
      var before, shell := order[..n], order[n];
      assert Leaves(order) == Leaves(before) + [Action.Leave(shell)] && order == before + [shell];
      LastIsNew(before, shell);
      hide InCycle, Next, Enabled, Distinct, Elements;
      LeavesRun(m, s, before);
      RunAppend(s, Leaves(before), Action.Leave(shell));
      LeaveOnce(LeaveAll(m, before), Run(s, Leaves(before)), shell);
    } else {
      assert Leaves(order) == [];
    }
  }

  /** So is starting the joiners, once only members are left running. */
  lemma {:induction false} JoinsRun(m: Members, s: State, order: seq<int>)
    requires InCycle(m, s) && s.running.Keys <= s.cycle.current
    requires Distinct(order) && Elements(order) <= s.cycle.current - s.running.Keys - s.cycle.busy
    ensures var s' := Run(s, Joins(order));
      InCycle(JoinAll(m, order), s') && s'.cycle == s.cycle && s'.running.Keys == s.running.Keys + Elements(order)
    decreases |order|
  {
    if order != [] {
      var n := |order| - 1;
      var before, shell := order[..n], order[n];
      assert Joins(order) == Joins(before) + [Action.Join(shell)] && order == before + [shell];
      LastIsNew(before, shell);
      hide InCycle, Next, Enabled, Distinct, Elements;
      JoinsRun(m, s, before);
      RunAppend(s, Joins(before), Action.Join(shell));
      JoinOnce(JoinAll(m, before), Run(s, Joins(before)), shell);
    } else {
      assert Joins(order) == [];
    }
  }

  /** The steps of one cycle. */
  function CycleSteps(left: seq<int>, joined: seq<int>): seq<Action> {
    [Action.Prune, Discover] + Leaves(left) + Joins(joined)
  }

  /**
   What `Reconcile` makes of its variables is what the protocol's state shows
   after a prune, a discovery and the leaves and joins in the same orders, every
   one of them enabled in its turn.
   */
  lemma CycleIsRun(m: Members, s: State, ended: set<nat>, left: seq<int>, joined: seq<int>)
    requires Shown(m, s) && Ended(ended, s) && LoopsOk(s) && s.cycle == Idle
    requires Distinct(left) && Elements(left) == m.running.Keys - s.db.browser
    requires Distinct(joined) && Elements(joined) == s.db.browser - m.running.Keys - ShellsOf(StillDraining(m.draining, ended))
    ensures var s' := Run(s, CycleSteps(left, joined));
      && InCycle(JoinAll(LeaveAll(PrunedMembers(m, ended), left), joined), s')
      && s'.running.Keys == s.db.browser * s.running.Keys + (s.db.browser - s.running.Keys - ShellsOf(StillDraining(m.draining, ended)))
  {
    var m1, s2 := PrunedMembers(m, ended), Discovery(s);
    DiscoveryShown(m, s, ended);
    hide InCycle, Distinct, Elements, Shown, LoopsOk, CycleOk, StillDraining, ShellsOf, Next, Enabled;
    RunConcat(s, [Action.Prune, Discover] + Leaves(left), Joins(joined));
    RunConcat(s, [Action.Prune, Discover], Leaves(left));
    LeavesRun(m1, s2, left);
    JoinsRun(LeaveAll(m1, left), Run(s2, Leaves(left)), joined);
  }

  function Discovery(s: State): State {
    PrunedState(s).(cycle := Discovered(PrunedState(s).cycle.busy, s.db.browser))
  }

  lemma DiscoveryShown(m: Members, s: State, ended: set<nat>)
    requires Shown(m, s) && Ended(ended, s) && LoopsOk(s) && s.cycle == Idle
    ensures var s2 := Discovery(s);
      && Run(s, [Action.Prune, Discover]) == s2 && InCycle(PrunedMembers(m, ended), s2)
      && s2.running == m.running
      && s2.cycle == Discovered(ShellsOf(StillDraining(m.draining, ended)), s.db.browser)
  {
    PruneShown(m, s, ended);
    PruneKeepsLoops(s);
    NextKeepsLoops(PrunedState(s), Discover);
    TwoSteps(s, Action.Prune, Discover);
  }

  lemma TwoSteps(s: State, a: Action, b: Action)
    ensures Run(s, [a, b]) == StepFrom(StepFrom(s, a), b)
  {
    assert [a, b][1..] == [b] && [b][1..] == [];
    assert Run(StepFrom(s, a), [b]) == Run(StepFrom(StepFrom(s, a), b), []);
  }
}
