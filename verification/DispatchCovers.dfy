/**
 When a message that was answered is answered again. A turn is skipped if its
 history ends on the shell's own row, so the second answer needs a history in
 which the first one no longer closes the conversation.
 */
module DispatchCovers {
  import opened Prelude
  import opened PollLoop
  import opened Dispatcher
  import opened DispatchSafety
  import opened DispatchRepeats
  import Transcript

  // ── When a history covers its message ───────────────────────────────────

  /** A row the session's history query sees. */
  predicate Listed(m: Msg, key: Key) {
    key.Some? && m.session == key && !m.deleted
  }

  /** The session's rows, oldest first. */
  function ListedRows(msgs: seq<Msg>, key: Key): (rows: seq<nat>)
    ensures Within(msgs, rows)
  {
    if msgs == [] then []
    else
      var k := |msgs| - 1;
      ListedRows(msgs[..k], key) + if Listed(msgs[k], key) then [k] else []
  }

  lemma {:induction false} ListedFacts(msgs: seq<Msg>, key: Key)
    ensures Ascending(ListedRows(msgs, key))
    ensures forall m: nat :: m in ListedRows(msgs, key) <==> m < |msgs| && Listed(msgs[m], key)
  {
    if msgs != [] {
      var k := |msgs| - 1;
      ListedFacts(msgs[..k], key);
      forall m: nat ensures m in ListedRows(msgs, key) <==> m < |msgs| && Listed(msgs[m], key) {
        if m < k { assert msgs[..k][m] == msgs[m]; }
      }
    }
  }

  /** The rows before a given one come first in the list. */
  lemma {:induction false} ListedPrefix(msgs: seq<Msg>, key: Key, k: nat)
    requires k <= |msgs|
    ensures ListedRows(msgs[..k], key) <= ListedRows(msgs, key)
  {
    if k == |msgs| {
      assert msgs[..k] == msgs;
    } else {
      var n := |msgs| - 1;
      ListedPrefix(msgs[..n], key, k);
      assert msgs[..n][..k] == msgs[..k];
    }
  }

  /** Each message of the history stands for one listed row. */
  lemma {:induction false} SeenAreListed(msgs: seq<Msg>, key: Key)
    ensures |Transcript.SeenMessages(Chat(msgs), key)| == |ListedRows(msgs, key)|
    ensures forall j | 0 <= j < |ListedRows(msgs, key)| ::
              Transcript.SeenMessages(Chat(msgs), key)[j].role == Transcript.User <==> msgs[ListedRows(msgs, key)[j]].inbound
  {
    if msgs != [] {
      var k := |msgs| - 1;
      SeenAreListed(msgs[..k], key);
      var row := Transcript.ChatRow(msgs[k].session, msgs[k].inbound, msgs[k].deleted, "");
      assert Chat(msgs) == Chat(msgs[..k]) + [row];
      Transcript.SeenAppend(Chat(msgs[..k]), row, key);
      hide Chat, Transcript.SeenMessages;
      assert forall i | 0 <= i < k :: msgs[..k][i] == msgs[i];
    }
  }

  /** The session's newest row is the shell's own. */
  predicate EndsOnReply(msgs: seq<Msg>, key: Key) {
    var rows := ListedRows(msgs, key);
    rows != [] && !msgs[rows[|rows| - 1]].inbound
  }

  /** The `i`-th of `n` rows is among the newest `window`; a negative limit keeps every row. */
  predicate Recent(n: nat, i: nat, window: int) {
    i < n && (window < 0 || n - i <= window)
  }

  ghost predicate InboundInWindow(msgs: seq<Msg>, key: Key, window: int) {
    var rows := ListedRows(msgs, key);
    exists i: nat :: Recent(|rows|, i, window) && msgs[rows[i]].inbound
  }

  ghost predicate UserInWindow(all: seq<Transcript.Message>, window: int) {
    exists i: nat :: Recent(|all|, i, window) && all[i].role == Transcript.User
  }

  /** What is left of a list of messages once the leading ones that are not the user's are dropped from its newest. */
  lemma NewestFromUser(all: seq<Transcript.Message>, window: int)
    ensures var h := Transcript.FromFirstUser(Transcript.Newest(all, window));
      && (h != [] ==> all != [] && h[|h| - 1] == all[|all| - 1])
      && (h != [] <==> UserInWindow(all, window))
  {
    var ms := Transcript.Newest(all, window);
    Transcript.FromFirstUserFacts(ms);
    var h, skip := Transcript.FromFirstUser(ms), |all| - |ms|;
    assert forall j | 0 <= j < |ms| :: ms[j] == all[skip + j];
    hide Transcript.FromFirstUser;
    if h != [] {
      assert h[0] == all[|all| - |h|] && Recent(|all|, |all| - |h|, window);
    } else {
      forall i: nat | Recent(|all|, i, window) ensures all[i].role != Transcript.User {
        assert ms[i - skip] == all[i];
      }
    }
  }

  /**
   A history covers its message if and only if the session's newest row is the
   shell's own and an inbound row is left in the window.
   */
  lemma CoversIff(msgs: seq<Msg>, key: Key, window: int)
    ensures HistoryCovers(msgs, key, window) <==> EndsOnReply(msgs, key) && InboundInWindow(msgs, key, window)
  {
    SeenAreListed(msgs, key);
    var rows, all := ListedRows(msgs, key), Transcript.SeenMessages(Chat(msgs), key);
    NewestFromUser(all, window);
    hide Transcript.FromFirstUser, Transcript.Newest, ListedRows, Chat, Transcript.SeenMessages;
    if InboundInWindow(msgs, key, window) {
      var i: nat :| Recent(|rows|, i, window) && msgs[rows[i]].inbound;
      assert all[i].role == Transcript.User;
    }
  }

  /** The chat table's rows: the dispatcher's, with texts. */
  predicate Texted(rows: seq<Transcript.ChatRow>, msgs: seq<Msg>) {
    && |rows| == |msgs|
    && forall i | 0 <= i < |rows| :: rows[i].(body := "") == Chat(msgs)[i]
  }

  lemma {:induction false} TextsDoNotMatter(rows: seq<Transcript.ChatRow>, msgs: seq<Msg>, key: Key)
    requires Texted(rows, msgs)
    ensures var with, without := Transcript.SeenMessages(rows, key), Transcript.SeenMessages(Chat(msgs), key);
      |with| == |without| && forall i | 0 <= i < |with| :: with[i].role == without[i].role
  {
    if rows != [] {
      var k := |rows| - 1;
      assert Chat(msgs[..k]) == Chat(msgs)[..k];
      TextsDoNotMatter(rows[..k], msgs[..k], key);
      assert rows == rows[..k] + [rows[k]] && Chat(msgs) == Chat(msgs)[..k] + [Chat(msgs)[k]];
      Transcript.SeenAppend(rows[..k], rows[k], key);
      Transcript.SeenAppend(Chat(msgs)[..k], Chat(msgs)[k], key);
      hide Chat, Transcript.SeenMessages;
    }
  }

  /** The history left of a list of messages ends on the assistant's turn. */
  ghost predicate EndsOnAssistant(all: seq<Transcript.Message>, window: int) {
    UserInWindow(all, window) && all[|all| - 1].role == Transcript.Assistant
  }

  lemma EndsIff(all: seq<Transcript.Message>, window: int)
    ensures var h := Transcript.FromFirstUser(Transcript.Newest(all, window));
      EndsOnAssistant(all, window) <==> h != [] && h[|h| - 1].role == Transcript.Assistant
  {
    NewestFromUser(all, window);
    hide Transcript.FromFirstUser, Transcript.Newest;
  }

  lemma SkipIff(rows: seq<Transcript.ChatRow>, key: Key, window: int, body: string)
    ensures var o := Transcript.Opening(Transcript.History(rows, key, window), body);
      o[|o| - 1].role == Transcript.Assistant <==> EndsOnAssistant(Transcript.SeenMessages(rows, key), window)
  {
    EndsIff(Transcript.SeenMessages(rows, key), window);
    hide Transcript.FromFirstUser, Transcript.Newest, Transcript.SeenMessages, EndsOnAssistant;
  }

  /** Whatever the texts, the history covers the message exactly when `process_inbound` finds its last turn the assistant's. */
  lemma CoversIsTheSkip(rows: seq<Transcript.ChatRow>, msgs: seq<Msg>, key: Key, window: int, body: string)
    requires Texted(rows, msgs)
    ensures var o := Transcript.Opening(Transcript.History(rows, key, window), body);
      HistoryCovers(msgs, key, window) <==> o[|o| - 1].role == Transcript.Assistant
  {
    var with, without := Transcript.SeenMessages(rows, key), Transcript.SeenMessages(Chat(msgs), key);
    SkipIff(rows, key, window, body);
    SkipIff(Chat(msgs), key, window, "");
    TextsDoNotMatter(rows, msgs, key);
    hide Texted, Transcript.SeenMessages, Chat, Transcript.FromFirstUser, Transcript.Newest;
    SameRolesInWindow(with, without, window);
    SameRolesInWindow(without, with, window);
    hide UserInWindow;
  }

  lemma SameRolesInWindow(a: seq<Transcript.Message>, b: seq<Transcript.Message>, window: int)
    requires |a| == |b| && forall i | 0 <= i < |a| :: a[i].role == b[i].role
    ensures UserInWindow(a, window) ==> UserInWindow(b, window)
  {
    if UserInWindow(a, window) {
      var i: nat :| Recent(|a|, i, window) && a[i].role == Transcript.User;
      assert b[i].role == Transcript.User;
    }
  }

  // ── An answered message ─────────────────────────────────────────────────

  /** The row is within reach of the session's history. */
  predicate InWindow(msgs: seq<Msg>, key: Key, m: nat, window: int)
    requires m < |msgs|
  {
    Listed(msgs[m], key) && Recent(|ListedRows(msgs, key)|, |ListedRows(msgs[..m], key)|, window)
  }

  ghost predicate LaterInbound(msgs: seq<Msg>, key: Key, o: nat) {
    exists i: nat :: o < i < |msgs| && Listed(msgs[i], key) && msgs[i].inbound
  }

  /** Row `o` answers message `m`. */
  predicate AnsweredBy(msgs: seq<Msg>, m: nat, o: nat) {
    m < o < |msgs| && msgs[o].session == msgs[m].session && !msgs[o].inbound
  }

  lemma RowIsListedAt(msgs: seq<Msg>, key: Key, m: nat)
    requires m < |msgs| && Listed(msgs[m], key)
    ensures var n := |ListedRows(msgs[..m], key)|; n < |ListedRows(msgs, key)| && ListedRows(msgs, key)[n] == m
  {
    var upto := msgs[..m + 1];
    assert upto[..m] == msgs[..m];
    ListedPrefix(msgs, key, m + 1);
    assert ListedRows(upto, key) == ListedRows(msgs[..m], key) + [m];
    assert ListedRows(msgs, key)[..|ListedRows(upto, key)|] == ListedRows(upto, key);
  }

  /** With nothing inbound after it, a listed outbound row leaves the session ending on a reply. */
  lemma EndsAfterReply(msgs: seq<Msg>, key: Key, o: nat)
    requires o < |msgs| && Listed(msgs[o], key) && !msgs[o].inbound && !LaterInbound(msgs, key, o)
    ensures EndsOnReply(msgs, key)
  {
    RowIsListedAt(msgs, key, o);
    ListedFacts(msgs, key);
    hide ListedRows;
    var rows := ListedRows(msgs, key);
    assert rows[|rows| - 1] in rows && o <= rows[|rows| - 1];
  }

  /** An answered message in reach is covered until its answer is deleted or a later message comes in. */
  lemma AnsweredIsCovered(msgs: seq<Msg>, key: Key, m: nat, o: nat, window: int)
    requires AnsweredBy(msgs, m, o) && msgs[m].session == key && msgs[m].inbound && InWindow(msgs, key, m, window)
    requires !msgs[o].deleted && !LaterInbound(msgs, key, o)
    ensures HistoryCovers(msgs, key, window)
  {
    CoversIff(msgs, key, window);
    EndsAfterReply(msgs, key, o);
    RowIsListedAt(msgs, key, m);
    hide HistoryCovers, ListedRows, EndsOnReply;
    assert msgs[ListedRows(msgs, key)[|ListedRows(msgs[..m], key)|]].inbound;
  }

  // ── Over whole runs ─────────────────────────────────────────────────────

  /** Every message a worker holds, or is about to, came in. */
  ghost predicate InboundOk(s: State) {
    && (forall w | 0 <= w < |s.workers| :: s.workers[w].msg < |s.db.msgs| && s.db.msgs[s.workers[w].msg].inbound)
    && (forall l, m: nat | 0 <= l < |s.loops| && s.loops[l].phase.Submitting? && m in s.loops[l].phase.rest ::
          m < |s.db.msgs| && s.db.msgs[m].inbound)
  }

  lemma ChooseKeepsInbound(s: State, l: nat)
    requires ListsOk(s) && InboundOk(s) && Enabled(s, Choose(l))
    ensures InboundOk(Next(s, Choose(l)))
  {
    assert LoopListOk(s.db, s.picks, s.loops[l]);
    PickFacts(s.db.msgs, s.loops[l].phase.unread, s.loops[l].phase.snapshot);
  }

  /** No other step but a submit has new work, and only from what is left to submit. */
  lemma WorkIsNotNew(s: State, a: Action)
    requires Enabled(s, a) && !a.Choose?
    ensures var s' := Next(s, a);
      && (forall w | 0 <= w < |s'.workers| :: if w < |s.workers| then s'.workers[w].msg == s.workers[w].msg
                                               else a.Submit? && s'.workers[w].msg in s.loops[a.l].phase.rest)
      && (forall l, m: nat | 0 <= l < |s'.loops| && s'.loops[l].phase.Submitting? && m in s'.loops[l].phase.rest ::
            l < |s.loops| && s.loops[l].phase.Submitting? && m in s.loops[l].phase.rest)
  {
    hide Within, FetchUnread, PickOldest, WarnStuck, TakeOff, Land, HistoryCovers, Worked, ClearMarkers, SetMarker, Fits;
  }

  lemma NextKeepsInbound(s: State, a: Action)
    requires ListsOk(s) && InboundOk(s) && Enabled(s, a)
    ensures InboundOk(Next(s, a))
  {
    if a.Choose? {
      ChooseKeepsInbound(s, a.l);
    } else {
      NextGrows(s, a);
      WorkIsNotNew(s, a);
      hide Next, ListsOk;
    }
  }

  lemma {:induction false} RunKeepsInbound(s: State, actions: seq<Action>)
    requires Inv(s) && InboundOk(s)
    ensures InboundOk(Run(s, actions))
    decreases |actions|
  {
    if actions != [] {
      if Enabled(s, actions[0]) {
        NextKeepsInv(s, actions[0]);
        NextKeepsInbound(s, actions[0]);
      }
      hide Inv, InboundOk, Next, Enabled;
      RunKeepsInbound(StepFrom(s, actions[0]), actions[1..]);
    }
  }

  /** Rows and workers stay what they are. */
  lemma {:induction false} RunKeepsRows(s: State, actions: seq<Action>)
    ensures Grows(s.db.msgs, Run(s, actions).db.msgs)
    ensures |s.workers| <= |Run(s, actions).workers|
    ensures forall w | 0 <= w < |s.workers| :: Run(s, actions).workers[w].msg == s.workers[w].msg
    decreases |actions|
  {
    if actions != [] {
      var a := actions[0];
      if Enabled(s, a) {
        NextGrows(s, a);
        forall w: nat | w < |s.workers| ensures w < |Next(s, a).workers| && Next(s, a).workers[w].msg == s.workers[w].msg {
          StageMoves(s, a, w);
        }
        if |s.workers| > 0 { StageMoves(s, a, 0); }
      }
      hide Next, Enabled;
      RunKeepsRows(StepFrom(s, a), actions[1..]);
    }
  }

  /** The `p`-th step of the run posts worker `w`'s reply. */
  ghost predicate RepliesAt(init: State, actions: seq<Action>, p: nat, w: nat) {
    && p < |actions| && Enabled(Run(init, actions[..p]), actions[p])
    && actions[p].Process? && actions[p].w == w && Posts(actions[p].work)
  }

  /** The `k`-th step of the run is worker `w`'s look at the history, which covers its message or not. */
  ghost predicate LoadsAt(init: State, actions: seq<Action>, k: nat, w: nat, covered: bool) {
    && k < |actions| && Enabled(Run(init, actions[..k]), actions[k])
    && actions[k].Load? && actions[k].w == w
    && (covered <==> HistoryCovers(Run(init, actions[..k]).db.msgs, KeyOf(Run(init, actions[..k]), w), actions[k].window))
  }

  lemma SplitRun(init: State, actions: seq<Action>, k: nat)
    requires k < |actions|
    ensures Run(init, actions) == Run(StepFrom(Run(init, actions[..k]), actions[k]), actions[k + 1..])
  {
    assert actions == (actions[..k] + [actions[k]]) + actions[k + 1..];
    RunConcat(init, actions[..k] + [actions[k]], actions[k + 1..]);
    RunAppend(init, actions[..k], actions[k]);
  }

  /** A reply, once posted, is a row behind its message for good. */
  lemma ReplyStands(init: State, actions: seq<Action>, p: nat, w: nat) returns (o: nat)
    requires RepliesAt(init, actions, p, w)
    ensures var s := Run(init, actions); w < |s.workers| && AnsweredBy(s.db.msgs, s.workers[w].msg, o)
  {
    var s, a := Run(init, actions[..p]), actions[p];
    o := |s.db.msgs|;
    assert AnsweredBy(Next(s, a).db.msgs, s.workers[w].msg, o) && w < |s.workers|;
    SplitRun(init, actions, p);
    StageMoves(s, a, w);
    RunKeepsRows(Next(s, a), actions[p + 1..]);
  }

  lemma StageLoads(s: State, a: Action, w: nat, covered: bool)
    requires Enabled(s, a) && w < |Next(s, a).workers| && Next(s, a).workers[w].stage == Loaded(covered)
    ensures w < |s.workers| && s.workers[w].stage != Loaded(covered) ==>
      a.Load? && a.w == w && (covered <==> HistoryCovers(s.db.msgs, KeyOf(s, w), a.window))
    ensures w < |s.workers|
  {
    hide Within, FetchUnread, PickOldest, WarnStuck, TakeOff, Land, SetMarker, Worked, Settles, ClearMarkers, HistoryCovers;
  }

  /** A worker that has loaded its history did so at some step. */
  lemma {:induction false} LoadedAt(init: State, actions: seq<Action>, w: nat, covered: bool) returns (k: nat)
    requires init.workers == [] && w < |Run(init, actions).workers| && Run(init, actions).workers[w].stage == Loaded(covered)
    ensures LoadsAt(init, actions, k, w, covered)
    decreases |actions|
  {
    var n := |actions| - 1;
    var before, a := actions[..n], actions[n];
    assert actions == before + [a];
    RunAppend(init, before, a);
    var s := Run(init, before);
    if Enabled(s, a) { StageLoads(s, a, w, covered); }
    hide Next, Enabled, HistoryCovers;
    if w < |s.workers| && s.workers[w].stage == Loaded(covered) {
      k := LoadedAt(init, before, w, covered);
      assert before[..k] == actions[..k];
    } else {
      k := n;
    }
  }

  /** While a worker is about to load its history, every earlier one with its message is gone. */
  lemma EarlierIsGone(init: State, actions: seq<Action>, w0: nat, w: nat)
    requires Init(init) && w0 < w
    requires var s := Run(init, actions); Placed(s, w) && s.workers[w0].msg == s.workers[w].msg
    ensures !Live(Run(init, actions), w0)
  {
    var s := Run(init, actions);
    InitIsInv(init);
    RunKeepsInv(init, actions);
    assert WorkerOk(s, w) && (Live(s, w0) ==> WorkerOk(s, w0));
    if Live(s, w0) {
      OneTurnPerSession(init, actions, w0, w);
    }
  }

  /** Why a second turn of an answered message is not skipped. */
  ghost predicate AnswerLost(msgs: seq<Msg>, m: nat, o: nat, window: int) {
    && AnsweredBy(msgs, m, o)
    && (msgs[o].deleted || LaterInbound(msgs, msgs[m].session, o) || !InWindow(msgs, msgs[m].session, m, window))
  }

  /** What a worker finds that looks at the history of a message already answered. */
  lemma LoadAfterReply(init: State, before: seq<Action>, p0: nat, w0: nat, w: nat, window: int) returns (o: nat)
    requires Init(init) && RepliesAt(init, before, p0, w0) && Enabled(Run(init, before), Load(w, window))
    requires w0 < |Run(init, before).workers| && Run(init, before).workers[w0].msg == Run(init, before).workers[w].msg
    ensures var s := Run(init, before); var m := s.workers[w].msg;
      && AnsweredBy(s.db.msgs, m, o)
      && (!HistoryCovers(s.db.msgs, s.db.msgs[m].session, window) ==> AnswerLost(s.db.msgs, m, o, window))
  {
    o := ReplyStands(init, before, p0, w0);
    InitIsInv(init);
    RunKeepsInbound(init, before);
    var s := Run(init, before);
    var m := s.workers[w].msg;
    assert s.db.msgs[m].inbound;
    hide Run, Inv, InboundOk, RepliesAt, HistoryCovers, InWindow, LaterInbound;
    if !AnswerLost(s.db.msgs, m, o, window) {
      AnsweredIsCovered(s.db.msgs, s.db.msgs[m].session, m, o, window);
    }
  }

  lemma RepliesBeforeGone(init: State, actions: seq<Action>, p0: nat, w0: nat, k: nat)
    requires RepliesAt(init, actions, p0, w0) && k <= |actions|
    requires var s := Run(init, actions[..k]); w0 < |s.workers| && !Live(s, w0)
    ensures p0 < k && RepliesAt(init, actions[..k], p0, w0)
  {
    var s := Run(init, actions[..k]);
    if k <= p0 {
      assert actions[..p0] == actions[..k] + actions[k..p0];
      RunConcat(init, actions[..k], actions[k..p0]);
      DoneIsDone(s, actions[k..p0], w0);
      assert false;
    }
    assert actions[..k][..p0] == actions[..p0];
  }

  /** A worker that replies has loaded a history that does not cover its message. */
  lemma LoadedBeforeReply(init: State, actions: seq<Action>, p: nat, w: nat) returns (k: nat)
    requires Init(init) && RepliesAt(init, actions, p, w)
    ensures k < p && LoadsAt(init, actions, k, w, false)
  {
    var before := actions[..p];
    assert Run(init, before).workers[w].stage == Loaded(false);
    k := LoadedAt(init, before, w, false);
    assert before[..k] == actions[..k];
  }

  lemma MessagesStay(init: State, actions: seq<Action>, k: nat, w: nat)
    requires k <= |actions| && w < |Run(init, actions[..k]).workers|
    ensures w < |Run(init, actions).workers| && Run(init, actions).workers[w].msg == Run(init, actions[..k]).workers[w].msg
  {
    assert actions == actions[..k] + actions[k..];
    RunConcat(init, actions[..k], actions[k..]);
    RunKeepsRows(Run(init, actions[..k]), actions[k..]);
  }

  /**
   Over all runs, whoever else writes: a message is answered twice only if, when
   the second turn loads the history, the first answer has been deleted, a later
   message of the session has come in, or the message itself is out of reach of
   the history's window.
   */
  lemma AnsweredAgainIf(init: State, actions: seq<Action>, p0: nat, w0: nat, p: nat, w: nat) returns (k: nat, o: nat)
    requires Init(init) && RepliesAt(init, actions, p0, w0) && RepliesAt(init, actions, p, w) && w0 < w
    requires var s := Run(init, actions); w < |s.workers| && s.workers[w0].msg == s.workers[w].msg
    ensures p0 < k < p && LoadsAt(init, actions, k, w, false)
    ensures var s := Run(init, actions[..k]);
      w < |s.workers| && AnswerLost(s.db.msgs, s.workers[w].msg, o, actions[k].window)
  {
    k := LoadedBeforeReply(init, actions, p, w);
    hide Run, HistoryCovers, RepliesAt, AnswerLost;
    MessagesStay(init, actions, k, w0);
    MessagesStay(init, actions, k, w);
    EarlierIsGone(init, actions[..k], w0, w);
    RepliesBeforeGone(init, actions, p0, w0, k);
    o := LoadAfterReply(init, actions[..k], p0, w0, w, actions[k].window);
  }

  const FOLLOW_UP := Msg(1, SESSION, true, false, false)

  /** The rows of an answered message and one that came in behind the answer. */
  lemma FollowUpUncovers()
    ensures !HistoryCovers(Rows(true) + [FOLLOW_UP], SESSION, 20)
  {
    var msgs := Rows(true) + [FOLLOW_UP];
    CoversIff(msgs, SESSION, 20);
    hide HistoryCovers;
    assert msgs[..2] == Rows(true);
    assert ListedRows(msgs, SESSION) == ListedRows(msgs[..2], SESSION) + [2];
  }

  /** The stale second turn of an answered message, with such a message in behind the answer, at a stage. */
  function Stale(stage: Stage): State {
    var s := Small(true, stage != Queued, Submitting([]), true, [] + [Gone] + [stage]);
    s.(db := s.db.(msgs := Rows(true) + [FOLLOW_UP]))
  }

  lemma FollowUpLeads()
    ensures Leads(Small(true, false, Submitting([]), true, [] + [Gone] + [Queued]), Insert(FOLLOW_UP), Stale(Queued))
  {
  }

  lemma StaleMarkLeads()
    ensures Leads(Stale(Queued), Mark(1), Stale(Marked))
  {
    StaleMoves(Queued, Marked);
    assert SetMarker(Stale(Queued).db, SESSION, Some(0)) == Stale(Marked).db;
  }

  lemma StaleLoadLeads()
    ensures Leads(Stale(Marked), Load(1, 20), Stale(Loaded(false)))
  {
    FollowUpUncovers();
    StaleMoves(Marked, Loaded(false));
    hide HistoryCovers;
  }

  lemma StaleMoves(st: Stage, st': Stage)
    ensures WithStage(Stale(st), 1, st').workers == Stale(st').workers && Stale(st).picks == Stale(st').picks
  {
    assert Stale(st).workers[1 := Worker(0, 0, st')] == Stale(st').workers;
  }

  lemma StaleAnswers()
    ensures var s := Stale(Loaded(false));
      && |s.workers| == 2 && s.workers[0].msg == s.workers[1].msg == 0 && s.workers[0].stage == Gone
      && AnsweredBy(s.db.msgs, 0, 1) && s.db.msgs[0].read && !s.db.msgs[1].deleted
      && Enabled(s, Process(1, Answers(Landed), true))
  {
  }

  /** It does happen: such a second turn is about to answer again. */
  lemma StaleFetchAnswersTwice() returns (actions: seq<Action>)
    ensures var s := Run(FRESH, actions);
      && |s.workers| == 2 && s.workers[0].msg == s.workers[1].msg == 0 && s.workers[0].stage == Gone
      && AnsweredBy(s.db.msgs, 0, 1) && s.db.msgs[0].read && !s.db.msgs[1].deleted
      && Enabled(s, Process(1, Answers(Landed), true))
  {
    FollowUpLeads();
    StaleMarkLeads();
    StaleLoadLeads();
    StaleAnswers();
    hide Leads, Small, Next, Enabled, Stale, AnsweredBy;
    actions := StaleFetchRepeats();
    actions := Go(FRESH, actions + [Submit(0, 0)], Insert(FOLLOW_UP), Stale(Queued));
    actions := Go(FRESH, actions, Mark(1), Stale(Marked));
    actions := Go(FRESH, actions, Load(1, 20), Stale(Loaded(false)));
  }
}
