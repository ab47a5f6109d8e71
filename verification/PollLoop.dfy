/**
 One shell's poll loop: what a poll fetches, which messages it picks, and the
 in-flight records it shares with its workers. Messages are numbered in
 (sent_at, message_id) order.
 */
module PollLoop {
  import opened Prelude

  const STUCK_SESSION_SEC := 300

  /** Messages serialise by session; those without one share the key None. */
  type Key = Option<string>

  datatype Msg = Msg(shell: int, session: Key, inbound: bool, read: bool, deleted: bool)

  predicate Unread(m: Msg, shell: int) {
    m.shell == shell && m.inbound && !m.read && !m.deleted
  }

  function FetchUnread(msgs: seq<Msg>, shell: int): (unread: seq<nat>)
    ensures Within(msgs, unread)
  {
    if msgs == [] then []
    else
      var k := |msgs| - 1;
      FetchUnread(msgs[..k], shell) + if Unread(msgs[k], shell) then [k] else []
  }

  ghost predicate Ascending(ms: seq<nat>) {
    forall i, j | 0 <= i < j < |ms| :: ms[i] < ms[j]
  }

  /** A fetch lists exactly the unread messages, oldest first. */
  lemma {:induction false} FetchFacts(msgs: seq<Msg>, shell: int)
    ensures Ascending(FetchUnread(msgs, shell))
    ensures forall m: nat :: m in FetchUnread(msgs, shell) <==> m < |msgs| && Unread(msgs[m], shell)
  {
    if msgs != [] {
      var k := |msgs| - 1;
      FetchFacts(msgs[..k], shell);
      forall m: nat ensures m in FetchUnread(msgs, shell) <==> m < |msgs| && Unread(msgs[m], shell) {
        if m < k { assert msgs[..k][m] == msgs[m]; }
      }
    }
  }

  // ── Picking ─────────────────────────────────────────────────────────────

  predicate Within(msgs: seq<Msg>, ms: seq<nat>) {
    forall i | 0 <= i < |ms| :: ms[i] < |msgs|
  }

  function KeysOf(msgs: seq<Msg>, ms: seq<nat>): set<Key>
    requires Within(msgs, ms)
  {
    set m | m in ms :: msgs[m].session
  }

  /** The oldest unread message of each session, sessions in the snapshot aside. */
  function PickOldest(msgs: seq<Msg>, unread: seq<nat>, snapshot: set<Key>): (picked: seq<nat>)
    requires Within(msgs, unread)
    ensures Within(msgs, picked)
  {
    if unread == [] then []
    else
      var before, m := PickOldest(msgs, unread[..|unread| - 1], snapshot), unread[|unread| - 1];
      if msgs[m].session in snapshot + KeysOf(msgs, before) then before else before + [m]
  }

  ghost predicate DistinctSessions(msgs: seq<Msg>, ms: seq<nat>)
    requires Within(msgs, ms)
  {
    forall i, j | 0 <= i < j < |ms| :: msgs[ms[i]].session != msgs[ms[j]].session
  }

  /** `ms[i]` is the first of its session. */
  ghost predicate FirstOfSession(msgs: seq<Msg>, ms: seq<nat>, i: nat)
    requires Within(msgs, ms) && i < |ms|
  {
    forall j | 0 <= j < i :: msgs[ms[j]].session != msgs[ms[i]].session
  }

  /** What is picked: the first unread message of every session not in the snapshot, and nothing else. */
  ghost predicate PickOk(msgs: seq<Msg>, unread: seq<nat>, snapshot: set<Key>, picked: seq<nat>)
    requires Within(msgs, unread) && Within(msgs, picked)
  {
    && DistinctSessions(msgs, picked)
    && KeysOf(msgs, picked) == KeysOf(msgs, unread) - snapshot
    && (forall m | m in picked :: m in unread)
    && (forall i | 0 <= i < |unread| && FirstOfSession(msgs, unread, i) && msgs[unread[i]].session !in snapshot :: unread[i] in picked)
  }

  lemma {:induction false} PickFacts(msgs: seq<Msg>, unread: seq<nat>, snapshot: set<Key>)
    requires Within(msgs, unread)
    ensures PickOk(msgs, unread, snapshot, PickOldest(msgs, unread, snapshot))
  {
    if unread != [] {
      var before, m := unread[..|unread| - 1], unread[|unread| - 1];
      PickFacts(msgs, before, snapshot);
      var chosen := PickOldest(msgs, before, snapshot);
      assert unread == before + [m];
      if msgs[m].session in snapshot + KeysOf(msgs, chosen) {
        PassedOver(msgs, before, m, snapshot, chosen);
      } else {
        Chosen(msgs, before, m, snapshot, chosen);
      }
    }
  }

  lemma PassedOver(msgs: seq<Msg>, before: seq<nat>, m: nat, snapshot: set<Key>, picked: seq<nat>)
    requires Within(msgs, before) && Within(msgs, picked) && m < |msgs| && PickOk(msgs, before, snapshot, picked)
    requires msgs[m].session in snapshot + KeysOf(msgs, picked)
    ensures PickOk(msgs, before + [m], snapshot, picked)
  {
    var all := before + [m];
    KeysOfAppend(msgs, before, m);
    forall i | 0 <= i < |all| && FirstOfSession(msgs, all, i) && msgs[all[i]].session !in snapshot ensures all[i] in picked {
      if i < |before| {
        assert forall j | 0 <= j < i :: all[j] == before[j];
        assert FirstOfSession(msgs, before, i);
      } else {
        assert forall j | 0 <= j < |before| :: all[j] == before[j];
        NotAmong(msgs, before, m);
      }
    }
  }

  lemma Chosen(msgs: seq<Msg>, before: seq<nat>, m: nat, snapshot: set<Key>, picked: seq<nat>)
    requires Within(msgs, before) && Within(msgs, picked) && m < |msgs| && PickOk(msgs, before, snapshot, picked)
    requires msgs[m].session !in snapshot + KeysOf(msgs, picked)
    ensures PickOk(msgs, before + [m], snapshot, picked + [m])
  {
    var all := before + [m];
    KeysOfAppend(msgs, before, m);
    KeysOfAppend(msgs, picked, m);
    forall i | 0 <= i < |picked| ensures msgs[picked[i]].session != msgs[m].session {
      InKeys(msgs, picked, i);
    }
    forall i | 0 <= i < |all| && FirstOfSession(msgs, all, i) && msgs[all[i]].session !in snapshot ensures all[i] in picked + [m] {
      if i < |before| {
        assert forall j | 0 <= j < i :: all[j] == before[j];
        assert FirstOfSession(msgs, before, i);
      }
    }
  }

  lemma InKeys(msgs: seq<Msg>, ms: seq<nat>, i: nat)
    requires Within(msgs, ms) && i < |ms|
    ensures msgs[ms[i]].session in KeysOf(msgs, ms)
  {
    assert ms[i] in ms;
  }

  lemma KeysOfAppend(msgs: seq<Msg>, ms: seq<nat>, m: nat)
    requires Within(msgs, ms) && m < |msgs|
    ensures KeysOf(msgs, ms + [m]) == KeysOf(msgs, ms) + {msgs[m].session}
  {
  }

  lemma NotAmong(msgs: seq<Msg>, ms: seq<nat>, m: nat)
    requires Within(msgs, ms) && m < |msgs|
    requires forall j | 0 <= j < |ms| :: msgs[ms[j]].session != msgs[m].session
    ensures msgs[m].session !in KeysOf(msgs, ms)
  {
  }

  /** In an ascending list nothing of the picked message's session precedes it. */
  lemma {:induction false} PickedIsOldest(msgs: seq<Msg>, unread: seq<nat>, snapshot: set<Key>, m: nat, e: nat)
    requires Within(msgs, unread) && Ascending(unread)
    requires m in PickOldest(msgs, unread, snapshot) && e in unread && msgs[e].session == msgs[m].session
    ensures m <= e
  {
    var before, last := unread[..|unread| - 1], unread[|unread| - 1];
    assert unread == before + [last];
    assert forall i | 0 <= i < |before| :: before[i] == unread[i] && unread[i] < last;
    PickAppend(msgs, before, last, snapshot);
    PickFacts(msgs, before, snapshot);
    var chosen := PickOldest(msgs, before, snapshot);
    KeyPresent(msgs, before, e);
    hide PickOldest, DistinctSessions, FirstOfSession, KeysOf;
    if m in chosen && e in before {
      PickedIsOldest(msgs, before, snapshot, m, e);
    }
  }

  lemma KeyPresent(msgs: seq<Msg>, ms: seq<nat>, e: nat)
    requires Within(msgs, ms)
    ensures e in ms ==> e < |msgs| && msgs[e].session in KeysOf(msgs, ms)
  {
  }

  // ── In-flight records ───────────────────────────────────────────────────

  datatype Flight = Flight(inFlight: set<Key>, started: map<Key, int>, warned: set<Key>)

  const NOTHING_IN_FLIGHT := Flight({}, map[], {})

  ghost predicate FlightOk(f: Flight) {
    f.started.Keys == f.inFlight && f.warned <= f.inFlight
  }

  function WarnStuck(f: Flight, now: int): Flight {
    f.(warned := f.warned + set k | k in f.started && now - f.started[k] > STUCK_SESSION_SEC)
  }

  /** One picked key, under the lock: skipped if its session has meanwhile gone into flight. */
  function TakeOff(f: Flight, key: Key, now: int): Flight {
    if key in f.inFlight then f else f.(inFlight := f.inFlight + {key}, started := f.started[key := now])
  }

  function Land(f: Flight, key: Key): Flight {
    Flight(f.inFlight - {key}, f.started - {key}, f.warned - {key})
  }

  /** The picked messages that are submitted: those whose session is not in flight when its turn comes. */
  function Submitted(msgs: seq<Msg>, f: Flight, picked: seq<nat>, now: int): (seq<nat>, Flight)
    requires Within(msgs, picked)
  {
    if picked == [] then ([], f)
    else
      var (before, mid) := Submitted(msgs, f, picked[..|picked| - 1], now);
      var m := picked[|picked| - 1];
      (if msgs[m].session in mid.inFlight then before else before + [m], TakeOff(mid, msgs[m].session, now))
  }

  lemma FlightStaysOk(f: Flight, key: Key, now: int)
    requires FlightOk(f)
    ensures FlightOk(WarnStuck(f, now)) && FlightOk(TakeOff(f, key, now)) && FlightOk(Land(f, key))
  {
  }

  /** Each session in flight afterwards was there before or had one message submitted, and only one. */
  ghost predicate SubmittedOk(msgs: seq<Msg>, f: Flight, picked: seq<nat>, submitted: seq<nat>, f': Flight)
    requires Within(msgs, picked)
  {
    && FlightOk(f') && Within(msgs, submitted) && DistinctSessions(msgs, submitted)
    && f'.inFlight == f.inFlight + KeysOf(msgs, submitted) && f.inFlight !! KeysOf(msgs, submitted)
    && f'.inFlight == f.inFlight + KeysOf(msgs, picked)
  }

  lemma {:induction false} SubmittedFacts(msgs: seq<Msg>, f: Flight, picked: seq<nat>, now: int)
    requires Within(msgs, picked) && FlightOk(f)
    ensures var (submitted, f') := Submitted(msgs, f, picked, now); SubmittedOk(msgs, f, picked, submitted, f')
  {
    if picked != [] {
      var before, m := picked[..|picked| - 1], picked[|picked| - 1];
      SubmittedFacts(msgs, f, before, now);
      var (submitted, mid) := Submitted(msgs, f, before, now);
      assert picked == before + [m];
      hide SubmittedOk, Within;
      SubmittedStep(msgs, f, before, submitted, mid, m, now);
    }
  }

  lemma SubmittedStep(msgs: seq<Msg>, f: Flight, before: seq<nat>, submitted: seq<nat>, mid: Flight, m: nat, now: int)
    requires Within(msgs, before) && m < |msgs| && SubmittedOk(msgs, f, before, submitted, mid)
    ensures Within(msgs, before + [m])
    ensures SubmittedOk(msgs, f, before + [m], if msgs[m].session in mid.inFlight then submitted else submitted + [m],
                        TakeOff(mid, msgs[m].session, now))
  {
    KeysOfAppend(msgs, before, m);
    KeysOfAppend(msgs, submitted, m);
    FlightStaysOk(mid, msgs[m].session, now);
    if msgs[m].session !in mid.inFlight {
      forall i | 0 <= i < |submitted| ensures msgs[submitted[i]].session != msgs[m].session {
        InKeys(msgs, submitted, i);
      }
    }
  }

  lemma SubmittedAppend(msgs: seq<Msg>, f: Flight, picked: seq<nat>, m: nat, now: int)
    requires Within(msgs, picked) && m < |msgs|
    ensures var (before, mid) := Submitted(msgs, f, picked, now);
      Submitted(msgs, f, picked + [m], now)
        == (if msgs[m].session in mid.inFlight then before else before + [m], TakeOff(mid, msgs[m].session, now))
  {
    assert (picked + [m])[..|picked|] == picked;
  }

  lemma PickAppend(msgs: seq<Msg>, unread: seq<nat>, m: nat, snapshot: set<Key>)
    requires Within(msgs, unread) && m < |msgs|
    ensures var before := PickOldest(msgs, unread, snapshot);
      PickOldest(msgs, unread + [m], snapshot) == if msgs[m].session in snapshot + KeysOf(msgs, before) then before else before + [m]
  {
    assert (unread + [m])[..|unread|] == unread;
  }

  // ── The loop's state ────────────────────────────────────────────────────

  /** `shell_loop`'s shared records; each method body runs under the loop's lock, or on values fetched before. */
  class ShellLoop {
    var inFlight: set<Key>
    var started: map<Key, int>
    var warned: set<Key>

    constructor ()
      ensures Records() == NOTHING_IN_FLIGHT && FlightOk(Records())
    {
      inFlight, started, warned := {}, map[], {};
    }

    function Records(): Flight
      reads this
    {
      Flight(inFlight, started, warned)
    }

    /** Reports each session that has been in flight too long, once. */
    method WarnStuckSessions(now: int) returns (reported: set<Key>)
      requires FlightOk(Records())
      modifies this`warned
      ensures Records() == WarnStuck(old(Records()), now) && FlightOk(Records())
      ensures reported !! old(warned) && warned == old(warned) + reported
    {
      reported := {};
      var pending := started.Keys;
      while pending != {}
        invariant pending <= started.Keys
        invariant reported == set k | k in started && k !in pending && now - started[k] > STUCK_SESSION_SEC && k !in old(warned)
        invariant warned == old(warned) + reported
        decreases pending
      {
        var k :| k in pending;
        if now - started[k] > STUCK_SESSION_SEC && k !in warned {
          warned := warned + {k};
          reported := reported + {k};
        }
        pending := pending - {k};
      }
      assert Records().warned == WarnStuck(old(Records()), now).warned;
    }

    /** Chooses from a fetched list against a copy of the in-flight set; both may be stale. */
    static method Pick(msgs: seq<Msg>, unread: seq<nat>, snapshot: set<Key>) returns (picked: seq<nat>)
      requires Within(msgs, unread)
      ensures picked == PickOldest(msgs, unread, snapshot)
    {
      picked := [];
      var sessions: set<Key> := {};
      ghost var done: seq<nat> := [];
      for k := 0 to |unread|
        invariant done == unread[..k] && Within(msgs, done)
        invariant picked == PickOldest(msgs, done, snapshot)
        invariant sessions == KeysOf(msgs, picked)
      {
        var m := unread[k];
        PickAppend(msgs, done, m, snapshot);
        if msgs[m].session !in snapshot && msgs[m].session !in sessions {
          KeysOfAppend(msgs, picked, m);
          picked := picked + [m];
          sessions := sessions + {msgs[m].session};
        }
        done := done + [m];
      }
      assert done == unread;
    }

    /** Checks every picked session again and submits those still free, in one hold of the lock. */
    method SubmitPicked(msgs: seq<Msg>, picked: seq<nat>, now: int) returns (submitted: seq<nat>)
      requires Within(msgs, picked) && FlightOk(Records())
      modifies this
      ensures (submitted, Records()) == Submitted(msgs, old(Records()), picked, now)
      ensures Within(msgs, submitted) && DistinctSessions(msgs, submitted)
      ensures inFlight == old(inFlight) + KeysOf(msgs, submitted) && old(inFlight) !! KeysOf(msgs, submitted)
      ensures FlightOk(Records())
    {
      submitted := [];
      ghost var done: seq<nat> := [];
      for k := 0 to |picked|
        invariant done == picked[..k] && Within(msgs, done)
        invariant (submitted, Records()) == Submitted(msgs, old(Records()), done, now)
      {
        var m := picked[k];
        SubmittedAppend(msgs, old(Records()), done, m, now);
        if msgs[m].session !in inFlight {
          inFlight := inFlight + {msgs[m].session};
          started := started[msgs[m].session := now];
          submitted := submitted + [m];
        }
        done := done + [m];
      }
      assert done == picked;
      SubmittedFacts(msgs, old(Records()), picked, now);
    }

    /** A worker's last act. */
    method Release(key: Key)
      requires FlightOk(Records())
      modifies this
      ensures Records() == Land(old(Records()), key) && FlightOk(Records())
    {
      inFlight := inFlight - {key};
      started := started - {key};
      warned := warned - {key};
    }
  }
}
