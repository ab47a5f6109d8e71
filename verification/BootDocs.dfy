/**
 The session and identity write paths: which of them render stored boot
 documents again, and what that keeps true. Each request is one atomic step; a
 step that fails on a duplicate key is rolled back.
 */
module BootDocs {
  import opened Prelude
  import opened Text
  import opened BootRender

  const SEED_CAP := 10
  const LNS_CAP := 20
  const DEFAULT_CONTEXT_WINDOW := 128000

  datatype Reply = Done | BadRequest | NotFound | Conflict | Unprocessable | ServerError

  datatype Session = Session(shell: int, user: int, model: Option<int>, active: bool, tokens: int, warned: bool, doc: Option<Doc>)

  datatype ModelRow = ModelRow(active: bool, window: Option<int>)

  datatype Db = Db(tables: Tables, sessions: map<string, Session>, models: map<int, ModelRow>)

  datatype ShellPatch = ShellPatch(displayName: Option<string>, shortname: Option<string>, partner: Option<string>, role: Option<string>,
                                   mandate: Option<string>, currentState: Option<string>, connections: Option<string>)

  datatype DecisionPatch = DecisionPatch(date: Option<string>, priority: Option<string>, decision: Option<string>,
                                         rationale: Option<string>, deleted: Option<bool>)

  /** A missing session id or user is "" or 0, as the handlers test them for truth. */
  datatype Op =
    | CreateShell(shell: int, row: ShellRow)
    | UpdateShell(shell: int, patch: ShellPatch)
    | CreateEntry(shell: int, kind: string, body: string, date: Option<string>, today: string)
    | UpdateEntry(shell: int, entry: nat, retire: bool)
    | CreateDecision(shell: int, priority: string, decision: string, rationale: Option<string>, date: Option<string>, today: string)
    | UpdateDecision(shell: int, decisionId: nat, changes: DecisionPatch)
    | CreateSession(shell: int, user: int, newId: string, model: Option<int>)
    | UpdateSession(shell: int, sid: string, tokens: Option<int>, warned: Option<bool>, switch: Option<Option<int>>)
    | ClearSession(shell: int, sid: string)
    | PostReply(shell: int, sid: string, user: int, text: string, used: int, isNew: bool, newId: string)
    | SessionStart(shell: int, sid: string)
    | PutSection(shell: int, section: string, body: string)
    | DeleteChat(shell: int, user: int)

  // ── Rendering into sessions ─────────────────────────────────────────────

  /** A fresh render for every shell. */
  function Docs(t: Tables): map<int, Doc> {
    map shell | shell in t.shells :: Compose(t, shell)
  }

  /** The session after a render for `shell`. */
  function Drawn(s: Session, shell: int, doc: Doc): Session {
    if s.shell == shell && s.active then s.(doc := Some(doc)) else s
  }

  function Rerendered(sessions: map<string, Session>, shell: int, doc: Doc): map<string, Session> {
    map sid | sid in sessions :: Drawn(sessions[sid], shell, doc)
  }

  /** One session's document, active or not. */
  function RenderedOne(sessions: map<string, Session>, sid: string, doc: Doc): map<string, Session>
    requires sid in sessions
  {
    sessions[sid := sessions[sid].(doc := Some(doc))]
  }

  // ── Shells ──────────────────────────────────────────────────────────────

  predicate ValidShort(s: string) {
    && 1 <= |s| <= 8 && 'a' <= s[0] <= 'z'
    && forall i | 0 <= i < |s| :: 'a' <= s[i] <= 'z' || '0' <= s[i] <= '9'
  }

  predicate Taken(t: Tables, short: string, except: Option<int>) {
    exists id | id in t.shells :: Some(id) != except && t.shells[id].shortname == Some(short)
  }

  function ShortOf(s: string): string {
    Fold(Strip(s))
  }

  function OrNull(s: string): Option<string> {
    if Strip(s) == "" then None else Some(Strip(s))
  }

  function Edited(old': Option<string>, given: Option<string>): Option<string> {
    if given.Some? then OrNull(given.value) else old'
  }

  function EditedShell(s: ShellRow, p: ShellPatch): ShellRow {
    ShellRow(if p.displayName.Some? then Strip(p.displayName.value) else s.displayName,
             if p.shortname.Some? then Some(ShortOf(p.shortname.value)) else s.shortname,
             Edited(s.partner, p.partner), Edited(s.role, p.role), Edited(s.mandate, p.mandate),
             Edited(s.currentState, p.currentState), Edited(s.connections, p.connections))
  }

  /** `connections` is not among the fields that render documents again. */
  predicate Identity(p: ShellPatch) {
    p.displayName.Some? || p.shortname.Some? || p.partner.Some? || p.role.Some? || p.mandate.Some? || p.currentState.Some?
  }

  predicate BadShort(short: string) {
    !ValidShort(short) || short == "forge"
  }

  /** A write to the tables, and whether the shell's sessions are rendered again. */
  datatype Write = Write(tables: Tables, reply: Reply, render: bool)

  function CreatedShell(t: Tables, id: int, row: ShellRow): Write {
    var short := if row.shortname.Some? then ShortOf(row.shortname.value) else "";
    if BadShort(short) then Write(t, Unprocessable, false)
    else if Taken(t, short, None) then Write(t, Conflict, false)
    else if id in t.shells then Write(t, ServerError, false)
    else Write(t.(shells := t.shells[id := row.(shortname := Some(short), currentState := None)]), Done, false)
  }

  function PatchedShell(t: Tables, shell: int, p: ShellPatch): Write {
    if shell !in t.shells then Write(t, NotFound, false)
    else if p.displayName.Some? && Strip(p.displayName.value) == "" then Write(t, Unprocessable, false)
    else if p.shortname.Some? && BadShort(ShortOf(p.shortname.value)) then Write(t, Unprocessable, false)
    else if p.shortname.Some? && Taken(t, ShortOf(p.shortname.value), Some(shell)) then Write(t, Conflict, false)
    else Write(t.(shells := t.shells[shell := EditedShell(t.shells[shell], p)]), Done, Identity(p))
  }

  function PutText(t: Tables, shell: int, section: string, body: string): Write {
    if shell !in t.shells then Write(t, NotFound, false)
    else if section in {"SYSTEM OVERRIDE", "DEFINITIONS", "MEMORY PROTOCOL", "PROHIBITIONS", "COMMUNICATION"} then Write(t, Done, false)
    else if section !in {"OPERATING CONTEXT", "CURRENT STATE"} then Write(t, BadRequest, false)
    else
      var s := t.shells[shell];
      var s' := if section == "CURRENT STATE" then s.(currentState := Some(body)) else s.(connections := Some(body));
      Write(t.(shells := t.shells[shell := s']), Done, false)
  }

  // ── Entries and decisions ───────────────────────────────────────────────

  function KindOf(s: string): Option<Kind> {
    if s == "seed" then Some(Seed) else if s == "lns" then Some(Lns) else None
  }

  function Cap(k: Kind): nat {
    if k == Seed then SEED_CAP else LNS_CAP
  }

  function DateOr(date: Option<string>, today: string): string {
    var d := if date.Some? then Strip(date.value) else "";
    if d == "" then today else d
  }

  function CreatedEntry(t: Tables, shell: int, kind: string, body: string, date: Option<string>, today: string): Write {
    if shell !in t.shells then Write(t, NotFound, false)
    else if KindOf(kind).None? || Strip(body) == "" then Write(t, Unprocessable, false)
    else
      var k := KindOf(kind).value;
      if |LiveEntries(t.entries, shell, k)| >= Cap(k) then Write(t, Conflict, false)
      else Write(t.(entries := t.entries + [Entry(shell, k, DateOr(date, today), Strip(body), false, false)]), Done, true)
  }

  function RetiredEntry(t: Tables, shell: int, entry: nat, retire: bool): Write {
    var es := t.entries;
    if shell !in t.shells || entry >= |es| || es[entry].shell != shell then Write(t, NotFound, false)
    else if !retire then Write(t, Unprocessable, false)
    else if es[entry].retired then Write(t, Conflict, false)
    else Write(t.(entries := es[entry := es[entry].(retired := true)]), Done, true)
  }

  function CreatedDecision(t: Tables, shell: int, priority: string, decision: string, rationale: Option<string>,
                           date: Option<string>, today: string): Write
  {
    if shell !in t.shells then Write(t, NotFound, false)
    else if priority !in {"M", "m"} || Strip(decision) == "" then Write(t, Unprocessable, false)
    else
      var d := Decision(shell, DateOr(date, today), priority, Strip(decision), Edited(None, rationale), false);
      Write(t.(decisions := t.decisions + [d]), Done, true)
  }

  function EditedDecision(d: Decision, p: DecisionPatch): Decision {
    d.(date := if p.date.Some? then Strip(p.date.value) else d.date,
       priority := if p.priority.Some? then p.priority.value else d.priority,
       decision := if p.decision.Some? then Strip(p.decision.value) else d.decision,
       rationale := Edited(d.rationale, p.rationale),
       deleted := if p.deleted.Some? then p.deleted.value else d.deleted)
  }

  const NO_CHANGE := DecisionPatch(None, None, None, None, None)

  function PatchedDecision(t: Tables, shell: int, id: nat, p: DecisionPatch): Write {
    var ds := t.decisions;
    if shell !in t.shells || id >= |ds| || ds[id].shell != shell then Write(t, NotFound, false)
    else if p.priority.Some? && p.priority.value !in {"M", "m"} then Write(t, Unprocessable, false)
    else if p.decision.Some? && Strip(p.decision.value) == "" then Write(t, Unprocessable, false)
    else Write(t.(decisions := ds[id := EditedDecision(ds[id], p)]), Done, p != NO_CHANGE)
  }

  predicate IsWrite(op: Op) {
    op.CreateShell? || op.UpdateShell? || op.PutSection? || op.CreateEntry? || op.UpdateEntry? || op.CreateDecision? || op.UpdateDecision?
  }

  function ApplyWrite(t: Tables, op: Op): Write
    requires IsWrite(op)
  {
    match op
    case CreateShell(id, row) => CreatedShell(t, id, row)
    case UpdateShell(shell, patch) => PatchedShell(t, shell, patch)
    case PutSection(shell, section, body) => PutText(t, shell, section, body)
    case CreateEntry(shell, kind, body, date, today) => CreatedEntry(t, shell, kind, body, date, today)
    case UpdateEntry(shell, entry, retire) => RetiredEntry(t, shell, entry, retire)
    case CreateDecision(shell, priority, decision, rationale, date, today) =>
      CreatedDecision(t, shell, priority, decision, rationale, date, today)
    case UpdateDecision(shell, id, changes) => PatchedDecision(t, shell, id, changes)
  }

  // ── Sessions ────────────────────────────────────────────────────────────

  predicate ModelAccepted(models: map<int, ModelRow>, model: Option<int>) {
    model.Some? ==> model.value in models && models[model.value].active
  }

  function Closed(s: Session): Session {
    s.(active := false)
  }

  /** Deactivates the sessions of a shell and user, all of them or those that have used no tokens. */
  function ClosedFor(sessions: map<string, Session>, shell: int, user: int, unusedOnly: bool): map<string, Session> {
    map sid | sid in sessions ::
      if sessions[sid].shell == shell && sessions[sid].user == user && (unusedOnly ==> sessions[sid].tokens == 0) then Closed(sessions[sid])
      else sessions[sid]
  }

  function Opened(shell: int, user: int, model: Option<int>, tokens: int): Session {
    Session(shell, user, model, true, tokens, false, None)
  }

  function CreatedSession(docs: map<int, Doc>, models: map<int, ModelRow>, sessions: map<string, Session>,
                          shell: int, user: int, newId: string, model: Option<int>): (map<string, Session>, Reply)
  {
    if shell !in docs then (sessions, NotFound)
    else if !ModelAccepted(models, model) then (sessions, Unprocessable)
    else if newId in sessions then (sessions, ServerError)
    else (RenderedOne(ClosedFor(sessions, shell, user, false)[newId := Opened(shell, user, model, 0)], newId, docs[shell]), Done)
  }

  predicate Owns(docs: map<int, Doc>, sessions: map<string, Session>, shell: int, sid: string) {
    shell in docs && sid in sessions && sessions[sid].shell == shell
  }

  function EditedSession(s: Session, tokens: Option<int>, warned: Option<bool>, switch: Option<Option<int>>): Session {
    s.(tokens := if tokens.Some? then tokens.value else s.tokens,
       warned := if warned.Some? then warned.value else s.warned,
       model := if switch.Some? then switch.value else s.model)
  }

  function PatchedSession(docs: map<int, Doc>, models: map<int, ModelRow>, sessions: map<string, Session>,
                          shell: int, sid: string, tokens: Option<int>, warned: Option<bool>, switch: Option<Option<int>>)
    : (map<string, Session>, Reply)
  {
    if !Owns(docs, sessions, shell, sid) then (sessions, NotFound)
    else if switch.Some? && !ModelAccepted(models, switch.value) then (sessions, Unprocessable)
    else
      var s' := EditedSession(sessions[sid], tokens, warned, switch);
      var after := sessions[sid := s'];
      (if s'.model != sessions[sid].model then RenderedOne(after, sid, docs[shell]) else after, Done)
  }

  function ClosedSession(docs: map<int, Doc>, sessions: map<string, Session>, shell: int, sid: string): (map<string, Session>, Reply) {
    if !Owns(docs, sessions, shell, sid) then (sessions, NotFound)
    else (sessions[sid := Closed(sessions[sid])], Done)
  }

  /** A missing or zero context window falls back to the default. */
  function Window(models: map<int, ModelRow>, sessions: map<string, Session>, sid: string): int {
    if sid in sessions && sessions[sid].model.Some? && sessions[sid].model.value in models then
      var w := models[sessions[sid].model.value].window;
      if w.Some? && w.value != 0 then w.value else DEFAULT_CONTEXT_WINDOW
    else DEFAULT_CONTEXT_WINDOW
  }

  /** Token accounting; a new session replaces the user's unused ones, unless its id is already there. */
  function Accounted(sessions: map<string, Session>, shell: int, sid: string, user: int, used: int, isNew: bool): map<string, Session> {
    if isNew then
      var closed := ClosedFor(sessions, shell, user, true);
      if sid in closed then closed else closed[sid := Opened(shell, user, None, used)]
    else if sid in sessions then sessions[sid := sessions[sid].(tokens := used)]
    else sessions
  }

  function Warned(sessions: map<string, Session>, sid: string, used: int, window: int): map<string, Session> {
    if 100 * used >= 80 * window && sid in sessions then sessions[sid := sessions[sid].(warned := true)] else sessions
  }

  /** The over-full session closes and a rendered one with its model takes its place. */
  function AutoCleared(sessions: map<string, Session>, shell: int, sid: string, user: int, newId: string, doc: Doc): map<string, Session> {
    var model := if sid in sessions then sessions[sid].model else None;
    var closed := if sid in sessions then sessions[sid := Closed(sessions[sid])] else sessions;
    RenderedOne(closed[newId := Opened(shell, user, model, 0)], newId, doc)
  }

  function PostedReply(docs: map<int, Doc>, models: map<int, ModelRow>, sessions: map<string, Session>,
                       shell: int, sid: string, user: int, text: string, used: int, isNew: bool, newId: string)
    : (map<string, Session>, Reply)
  {
    if shell !in docs then (sessions, NotFound)
    else if Strip(text) == "" then (sessions, BadRequest)
    else if sid == "" || user == 0 then (sessions, Done)
    else
      var accounted := Accounted(sessions, shell, sid, user, used, isNew);
      var window := Window(models, accounted, sid);
      var warned := Warned(accounted, sid, used, window);
      if 100 * used < 95 * window then (warned, Done)
      else if newId in warned then (sessions, ServerError)
      else (AutoCleared(warned, shell, sid, user, newId, docs[shell]), Done)
  }

  function Started(docs: map<int, Doc>, sessions: map<string, Session>, shell: int, sid: string): (map<string, Session>, Reply) {
    if !Owns(docs, sessions, shell, sid) then (sessions, NotFound)
    else (if sessions[sid].doc.None? then RenderedOne(sessions, sid, docs[shell]) else sessions, Done)
  }

  function ChatDeleted(docs: map<int, Doc>, sessions: map<string, Session>, shell: int, user: int): (map<string, Session>, Reply) {
    if shell !in docs then (sessions, NotFound) else (ClosedFor(sessions, shell, user, false), Done)
  }

  /** A request that touches only sessions; `docs` is what a render would produce. */
  function ApplySession(docs: map<int, Doc>, models: map<int, ModelRow>, sessions: map<string, Session>,
                  op: Op): (map<string, Session>, Reply)
    requires !IsWrite(op)
  {
    match op
    case CreateSession(shell, user, newId, model) => CreatedSession(docs, models, sessions, shell, user, newId, model)
    case UpdateSession(shell, sid, tokens, warned, switch) => PatchedSession(docs, models, sessions, shell, sid, tokens, warned, switch)
    case ClearSession(shell, sid) => ClosedSession(docs, sessions, shell, sid)
    case PostReply(shell, sid, user, text, used, isNew, newId) =>
      PostedReply(docs, models, sessions, shell, sid, user, text, used, isNew, newId)
    case SessionStart(shell, sid) => Started(docs, sessions, shell, sid)
    case DeleteChat(shell, user) => ChatDeleted(docs, sessions, shell, user)
  }

  /** The write lands, and the shell's active sessions are rendered again if it asks for that. */
  function AfterWrite(db: Db, shell: int, w: Write): Db {
    var sessions := if w.render && shell in w.tables.shells then Rerendered(db.sessions, shell, Docs(w.tables)[shell]) else db.sessions;
    Db(w.tables, sessions, db.models)
  }

  function Apply(db: Db, op: Op): (Db, Reply) {
    if IsWrite(op) then
      var w := ApplyWrite(db.tables, op);
      (AfterWrite(db, op.shell, w), w.reply)
    else
      var (sessions, reply) := ApplySession(Docs(db.tables), db.models, db.sessions, op);
      (db.(sessions := sessions), reply)
  }

  function Run(db: Db, ops: seq<Op>): Db
    decreases |ops|
  {
    if ops == [] then db else Run(Apply(db, ops[0]).0, ops[1..])
  }

  // ── Coherence ───────────────────────────────────────────────────────────

  /** A session's stored document is absent, or agrees with a fresh render if the session is active. */
  predicate UpToDate(docs: map<int, Doc>, s: Session) {
    s.shell in docs && (s.active && s.doc.Some? ==> Agrees(s.doc.value, docs[s.shell]))
  }

  ghost predicate AllUpToDate(docs: map<int, Doc>, sessions: map<string, Session>) {
    forall sid | sid in sessions :: UpToDate(docs, sessions[sid])
  }

  ghost predicate Coherent(db: Db) {
    AllUpToDate(Docs(db.tables), db.sessions)
  }

  predicate AgreeAt(docs: map<int, Doc>, docs': map<int, Doc>, x: int) {
    x in docs && x in docs' && Agrees(docs[x], docs'[x])
  }

  /** Every shell but `shell` keeps its four sections. */
  ghost predicate OthersAgree(docs: map<int, Doc>, docs': map<int, Doc>, shell: int) {
    forall x | x in docs :: x in docs' && (x != shell ==> AgreeAt(docs, docs', x))
  }

  /** A write to one shell's rows, followed by a render of that shell's sessions. */
  lemma WriteThenRender(docs: map<int, Doc>, docs': map<int, Doc>, sessions: map<string, Session>, shell: int)
    requires AllUpToDate(docs, sessions) && shell in docs' && OthersAgree(docs, docs', shell)
    ensures AllUpToDate(docs', Rerendered(sessions, shell, docs'[shell]))
  {
    forall sid | sid in sessions ensures UpToDate(docs', Drawn(sessions[sid], shell, docs'[shell])) {
      assert UpToDate(docs, sessions[sid]);
    }
  }

  /** A write that leaves the four sections of every shell alone needs no render. */
  lemma WriteAlone(docs: map<int, Doc>, docs': map<int, Doc>, sessions: map<string, Session>, shell: int)
    requires AllUpToDate(docs, sessions) && OthersAgree(docs, docs', shell)
    requires shell in docs ==> AgreeAt(docs, docs', shell)
    ensures AllUpToDate(docs', sessions)
  {
    forall sid | sid in sessions ensures UpToDate(docs', sessions[sid]) {
      assert UpToDate(docs, sessions[sid]);
    }
  }

  /** The queries behind the four sections see the same rows. */
  ghost predicate SameRows(t: Tables, t': Tables, x: int) {
    && x in t.shells && x in t'.shells
    && t'.shells[x].(currentState := None, connections := None) == t.shells[x].(currentState := None, connections := None)
    && (forall k | k in {Seed, Lns} :: LiveEntries(t'.entries, x, k) == LiveEntries(t.entries, x, k))
    && LiveDecisions(t'.decisions, x) == LiveDecisions(t.decisions, x)
  }

  /** Equal rows render equal sections; the current state and operating context may differ. */
  lemma SameRowsAgree(t: Tables, t': Tables, x: int)
    requires SameRows(t, t', x)
    ensures AgreeAt(Docs(t), Docs(t'), x)
  {
    hide IdentityText, Cell, Listing, Sort, NewestFirst, LiveEntries, LiveDecisions, RenderText;
    assert Seed in {Seed, Lns} && Lns in {Seed, Lns};
    var s, s' := t.shells[x], t'.shells[x];
    var n, n' := s.(currentState := None, connections := None), s'.(currentState := None, connections := None);
    assert n.displayName == s.displayName && n.shortname == s.shortname && n.partner == s.partner
      && n.role == s.role && n.mandate == s.mandate;
    assert n'.displayName == s'.displayName && n'.shortname == s'.shortname && n'.partner == s'.partner
      && n'.role == s'.role && n'.mandate == s'.mandate;
  }

  /** What a write can do to the tables: at most one row of its own shell is added or changed. */
  ghost predicate OneRowWritten(t: Tables, shell: int, t': Tables) {
    || t' == t
    || (t'.entries == t.entries && t'.decisions == t.decisions && shell in t'.shells && t'.shells == t.shells[shell := t'.shells[shell]])
    || (t'.shells == t.shells && t'.decisions == t.decisions && EntryWritten(t.entries, shell, t'.entries))
    || (t'.shells == t.shells && t'.entries == t.entries && DecisionWritten(t.decisions, shell, t'.decisions))
  }

  ghost predicate EntryWritten(es: seq<Entry>, shell: int, es': seq<Entry>) {
    || (|es'| == |es| + 1 && es' == es + [es'[|es|]] && es'[|es|].shell == shell
        && |LiveEntries(es, shell, es'[|es|].kind)| < Cap(es'[|es|].kind))
    || (exists i | 0 <= i < |es| :: es[i].shell == shell && es' == es[i := es[i].(retired := true)])
  }

  ghost predicate DecisionWritten(ds: seq<Decision>, shell: int, ds': seq<Decision>) {
    || (|ds'| == |ds| + 1 && ds' == ds + [ds'[|ds|]] && ds'[|ds|].shell == shell)
    || (exists i | 0 <= i < |ds| :: |ds'| == |ds| && ds[i].shell == ds'[i].shell == shell && ds' == ds[i := ds'[i]])
  }

  lemma ShellWriteWritesOneRow(t: Tables, op: Op)
    requires op.CreateShell? || op.UpdateShell? || op.PutSection?
    ensures OneRowWritten(t, op.shell, ApplyWrite(t, op).tables)
  {
    hide EntryWritten, DecisionWritten, CreatedEntry, RetiredEntry, CreatedDecision, PatchedDecision,
      BadShort, Taken, EditedShell, Identity;
  }

  lemma EntryWriteWritesOneRow(t: Tables, op: Op)
    requires op.CreateEntry? || op.UpdateEntry?
    ensures OneRowWritten(t, op.shell, ApplyWrite(t, op).tables)
  {
    hide LiveEntries, CreatedShell, PatchedShell, PutText, CreatedDecision, PatchedDecision;
  }

  lemma DecisionWriteWritesOneRow(t: Tables, op: Op)
    requires op.CreateDecision? || op.UpdateDecision?
    ensures OneRowWritten(t, op.shell, ApplyWrite(t, op).tables)
  {
    hide EntryWritten, CreatedShell, PatchedShell, PutText, CreatedEntry, RetiredEntry;
  }

  lemma WritesOneRow(t: Tables, op: Op)
    requires IsWrite(op)
    ensures OneRowWritten(t, op.shell, ApplyWrite(t, op).tables)
  {
    hide OneRowWritten, ApplyWrite;
    if op.CreateEntry? || op.UpdateEntry? {
      EntryWriteWritesOneRow(t, op);
    } else if op.CreateDecision? || op.UpdateDecision? {
      DecisionWriteWritesOneRow(t, op);
    } else {
      ShellWriteWritesOneRow(t, op);
    }
  }

  /** The rows of other shells, as the queries see them. */
  lemma OthersKeepRows(t: Tables, shell: int, t': Tables, x: int)
    requires OneRowWritten(t, shell, t') && x in t.shells && x != shell
    ensures SameRows(t, t', x)
  {
    if EntryWritten(t.entries, shell, t'.entries) {
      forall k ensures LiveEntries(t'.entries, x, k) == LiveEntries(t.entries, x, k) {
        EntryWrittenElsewhere(t.entries, shell, t'.entries, x, k);
      }
    }
    if DecisionWritten(t.decisions, shell, t'.decisions) {
      DecisionWrittenElsewhere(t.decisions, shell, t'.decisions, x);
    }
  }

  lemma EntryWrittenElsewhere(es: seq<Entry>, shell: int, es': seq<Entry>, x: int, k: Kind)
    requires EntryWritten(es, shell, es') && x != shell
    ensures LiveEntries(es', x, k) == LiveEntries(es, x, k)
  {
    if |es'| == |es| + 1 {
      EntryAppended(es, es'[|es|], x, k);
    } else {
      var i :| 0 <= i < |es| && es[i].shell == shell && es' == es[i := es[i].(retired := true)];
      EntryRetired(es, i, x, k);
    }
  }

  lemma DecisionWrittenElsewhere(ds: seq<Decision>, shell: int, ds': seq<Decision>, x: int)
    requires DecisionWritten(ds, shell, ds') && x != shell
    ensures LiveDecisions(ds', x) == LiveDecisions(ds, x)
  {
    if |ds'| == |ds| + 1 {
      DecisionAppended(ds, ds'[|ds|], x);
    } else {
      var i :| 0 <= i < |ds| && |ds'| == |ds| && ds[i].shell == ds'[i].shell == shell && ds' == ds[i := ds'[i]];
      DecisionEdited(ds, i, ds'[i], x);
    }
  }

  lemma OthersAgreeAfterWrite(t: Tables, shell: int, t': Tables)
    requires OneRowWritten(t, shell, t')
    ensures OthersAgree(Docs(t), Docs(t'), shell)
  {
    hide AgreeAt, Compose, SameRows, EntryWritten, DecisionWritten;
    forall x | x in t.shells && x != shell ensures AgreeAt(Docs(t), Docs(t'), x) {
      OthersKeepRows(t, shell, t', x);
      SameRowsAgree(t, t', x);
    }
  }

  lemma EmptyPatch(ds: seq<Decision>, i: nat)
    requires i < |ds|
    ensures ds[i := EditedDecision(ds[i], NO_CHANGE)] == ds
  {
    assert EditedDecision(ds[i], NO_CHANGE) == ds[i];
  }

  /** A write that renders nothing leaves the written shell's four sections alone. */
  lemma UnrenderedWriteAgrees(t: Tables, op: Op, t': Tables)
    requires IsWrite(op) && !ApplyWrite(t, op).render && t' == ApplyWrite(t, op).tables && op.shell in t.shells
    ensures AgreeAt(Docs(t), Docs(t'), op.shell)
  {
    hide AgreeAt, Compose, LiveEntries, LiveDecisions;
    if op.UpdateDecision? && op.decisionId < |t.decisions| {
      EmptyPatch(t.decisions, op.decisionId);
    }
    SameRowsAgree(t, t', op.shell);
  }

  lemma ApplyWriteKeepsCoherent(db: Db, op: Op)
    requires Coherent(db) && IsWrite(op)
    ensures Coherent(Apply(db, op).0)
  {
    hide Compose;
    var w := ApplyWrite(db.tables, op);
    var docs, docs' := Docs(db.tables), Docs(w.tables);
    WritesOneRow(db.tables, op);
    OthersAgreeAfterWrite(db.tables, op.shell, w.tables);
    if w.render {
      WriteThenRender(docs, docs', db.sessions, op.shell);
    } else {
      if op.shell in db.tables.shells { UnrenderedWriteAgrees(db.tables, op, ApplyWrite(db.tables, op).tables); }
      WriteAlone(docs, docs', db.sessions, op.shell);
    }
  }

  /** A session request leaves every session up to date. */
  lemma SessionRequestKeeps(docs: map<int, Doc>, models: map<int, ModelRow>, sessions: map<string, Session>, op: Op)
    requires AllUpToDate(docs, sessions) && !IsWrite(op)
    ensures AllUpToDate(docs, ApplySession(docs, models, sessions, op).0)
  {
    if op.PostReply? {
      if op.shell in docs {
        ReplyKeeps(docs, sessions, op.shell, op.sid, op.user, op.used, op.isNew,
                   Window(models, Accounted(sessions, op.shell, op.sid, op.user, op.used, op.isNew), op.sid), op.newId);
      }
    } else {
      hide Agrees;
    }
  }

  lemma ReplyKeeps(docs: map<int, Doc>, sessions: map<string, Session>, shell: int, sid: string, user: int, used: int, isNew: bool,
                   window: int, newId: string)
    requires AllUpToDate(docs, sessions) && shell in docs
    ensures var warned := Warned(Accounted(sessions, shell, sid, user, used, isNew), sid, used, window);
      AllUpToDate(docs, warned) && AllUpToDate(docs, AutoCleared(warned, shell, sid, user, newId, docs[shell]))
  {
    assert AllUpToDate(docs, Accounted(sessions, shell, sid, user, used, isNew));
  }

  lemma ApplyKeepsCoherent(db: Db, op: Op)
    requires Coherent(db)
    ensures Coherent(Apply(db, op).0)
  {
    if IsWrite(op) {
      ApplyWriteKeepsCoherent(db, op);
    } else {
      SessionRequestKeeps(Docs(db.tables), db.models, db.sessions, op);
    }
  }

  /** After any run of requests, every active session's stored document is absent or up to date. */
  lemma {:induction false} RunKeepsCoherent(db: Db, ops: seq<Op>)
    requires Coherent(db)
    ensures Coherent(Run(db, ops))
    decreases |ops|
  {
    if ops != [] {
      ApplyKeepsCoherent(db, ops[0]);
      RunKeepsCoherent(Apply(db, ops[0]).0, ops[1..]);
    }
  }

  // ── Sessions stay closed ────────────────────────────────────────────────

  /** No session disappears, moves to another shell or user, or opens again. */
  ghost predicate NoneReopened(before: map<string, Session>, after: map<string, Session>) {
    forall sid | sid in before ::
      && sid in after && after[sid].shell == before[sid].shell && after[sid].user == before[sid].user
      && (after[sid].active ==> before[sid].active)
  }

  lemma ReopenNoneTwice(a: map<string, Session>, b: map<string, Session>, c: map<string, Session>)
    requires NoneReopened(a, b) && NoneReopened(b, c)
    ensures NoneReopened(a, c)
  {
    forall sid | sid in a
      ensures sid in c && c[sid].shell == a[sid].shell && c[sid].user == a[sid].user && (c[sid].active ==> a[sid].active)
    {
      assert sid in b;
    }
  }

  lemma ReplyReopensNone(sessions: map<string, Session>, shell: int, sid: string, user: int, used: int, isNew: bool, window: int,
                         newId: string, doc: Doc)
    ensures var warned := Warned(Accounted(sessions, shell, sid, user, used, isNew), sid, used, window);
      NoneReopened(sessions, warned) && (newId !in warned ==> NoneReopened(sessions, AutoCleared(warned, shell, sid, user, newId, doc)))
  {
    var accounted := Accounted(sessions, shell, sid, user, used, isNew);
    var warned := Warned(accounted, sid, used, window);
    ReopenNoneTwice(sessions, accounted, warned);
    if newId !in warned {
      ReopenNoneTwice(sessions, warned, AutoCleared(warned, shell, sid, user, newId, doc));
    }
  }

  lemma SessionRequestReopensNone(docs: map<int, Doc>, models: map<int, ModelRow>, sessions: map<string, Session>, op: Op)
    requires !IsWrite(op)
    ensures NoneReopened(sessions, ApplySession(docs, models, sessions, op).0)
  {
    if op.PostReply? {
      hide Accounted, Warned, AutoCleared, NoneReopened;
      var accounted := Accounted(sessions, op.shell, op.sid, op.user, op.used, op.isNew);
      if op.shell in docs {
        ReplyReopensNone(sessions, op.shell, op.sid, op.user, op.used, op.isNew,
        Window(models, accounted, op.sid), op.newId, docs[op.shell]);
      }
    }
  }

  lemma ApplyReopensNone(db: Db, op: Op)
    ensures NoneReopened(db.sessions, Apply(db, op).0.sessions)
  {
    if IsWrite(op) {
      RenderReopensNone(db, op, ApplyWrite(db.tables, op));
    } else {
      SessionRequestReopensNone(Docs(db.tables), db.models, db.sessions, op);
    }
  }

  lemma RenderReopensNone(db: Db, op: Op, w: Write)
    requires IsWrite(op) && w == ApplyWrite(db.tables, op)
    ensures NoneReopened(db.sessions, Apply(db, op).0.sessions)
  {
    hide ApplyWrite, Compose;
    if w.render && op.shell in w.tables.shells {
      var after := Rerendered(db.sessions, op.shell, Docs(w.tables)[op.shell]);
      assert NoneReopened(db.sessions, after);
      assert Apply(db, op).0.sessions == after;
    } else {
      assert Apply(db, op).0.sessions == db.sessions;
    }
  }

  /** A session closed at some point of a run is closed ever after. */
  lemma {:induction false} RunReopensNone(db: Db, ops: seq<Op>)
    ensures NoneReopened(db.sessions, Run(db, ops).sessions)
    decreases |ops|
  {
    if ops != [] {
      var db' := Apply(db, ops[0]).0;
      ApplyReopensNone(db, ops[0]);
      RunReopensNone(db', ops[1..]);
      ReopenNoneTwice(db.sessions, db'.sessions, Run(db, ops).sessions);
    }
  }

  // ── What a render refreshes, and what stays stale ───────────────────────

  lemma RenderedShellExists(t: Tables, op: Op)
    requires IsWrite(op) && ApplyWrite(t, op).render
    ensures op.shell in t.shells && op.shell in ApplyWrite(t, op).tables.shells
  {
  }

  /** The session is active and holds exactly the fresh document, all six sections of it. */
  ghost predicate Whole(docs: map<int, Doc>, sessions: map<string, Session>, sid: string) {
    && sid in sessions && sessions[sid].active && sessions[sid].shell in docs
    && sessions[sid].doc == Some(docs[sessions[sid].shell])
  }

  /** A write that renders leaves every active session of the shell whole. */
  lemma RenderIsComplete(db: Db, op: Op, sid: string)
    requires IsWrite(op) && ApplyWrite(db.tables, op).render
    requires sid in db.sessions && db.sessions[sid].shell == op.shell && db.sessions[sid].active
    ensures var db' := Apply(db, op).0; Whole(Docs(db'.tables), db'.sessions, sid)
  {
    hide Compose;
    var t' := ApplyWrite(db.tables, op).tables;
    RenderedShellExists(db.tables, op);
    DrawnIsWhole(Docs(t'), db.sessions, op.shell, sid);
    assert Apply(db, op).0 == Db(t', Rerendered(db.sessions, op.shell, Docs(t')[op.shell]), db.models);
  }

  lemma DrawnIsWhole(docs: map<int, Doc>, sessions: map<string, Session>, shell: int, sid: string)
    requires shell in docs && sid in sessions && sessions[sid].shell == shell && sessions[sid].active
    ensures Whole(docs, Rerendered(sessions, shell, docs[shell]), sid)
  {
  }

  lemma TextSections(t: Tables, x: int)
    requires x in t.shells
    ensures Docs(t)[x].operatingContext == RenderText(t.shells[x].connections)
    ensures Docs(t)[x].currentState == RenderText(t.shells[x].currentState)
  {
    hide IdentityText, Cell, Listing, Sort, NewestFirst, LiveEntries, LiveDecisions, RenderText;
  }

  /** After a write that renders nothing, a whole document is whole if and only if both text sections render as before. */
  lemma UnrenderedWriteIsWholeIff(db: Db, op: Op, sid: string)
    requires IsWrite(op) && !ApplyWrite(db.tables, op).render
    requires Whole(Docs(db.tables), db.sessions, sid) && db.sessions[sid].shell == op.shell
    ensures op.shell in ApplyWrite(db.tables, op).tables.shells
    ensures var db', s, s' := Apply(db, op).0, db.tables.shells[op.shell], ApplyWrite(db.tables, op).tables.shells[op.shell];
      Whole(Docs(db'.tables), db'.sessions, sid) <==>
        RenderText(s'.connections) == RenderText(s.connections) && RenderText(s'.currentState) == RenderText(s.currentState)
  {
    hide ApplyWrite, Compose, RenderText;
    var t' := ApplyWrite(db.tables, op).tables;
    UnrenderedWriteAgrees(db.tables, op, ApplyWrite(db.tables, op).tables);
    TextSections(db.tables, op.shell);
    TextSections(t', op.shell);
    var db' := Apply(db, op).0;
    assert db'.tables == t' && db'.sessions == db.sessions;
    var d, d' := Docs(db.tables)[op.shell], Docs(t')[op.shell];
    assert d == d' <==> d.operatingContext == d'.operatingContext && d.currentState == d'.currentState;
  }

  /**
   Editing a section text in place renders nothing, so a whole document stays
   whole exactly when the new text renders as the old one did.
   */
  lemma PutSectionGoesStale(db: Db, shell: int, section: string, body: string, sid: string)
    requires Whole(Docs(db.tables), db.sessions, sid) && db.sessions[sid].shell == shell
    requires section in {"CURRENT STATE", "OPERATING CONTEXT"}
    ensures var s, db' := db.tables.shells[shell], Apply(db, PutSection(shell, section, body)).0;
      var was := if section == "CURRENT STATE" then s.currentState else s.connections;
      Whole(Docs(db'.tables), db'.sessions, sid) <==> RenderText(Some(body)) == RenderText(was)
  {
    hide Compose, RenderText, PutText;
    PutTextRow(db.tables, shell, section, body);
    UnrenderedWriteIsWholeIff(db, PutSection(shell, section, body), sid);
  }

  lemma PutTextRow(t: Tables, shell: int, section: string, body: string)
    requires shell in t.shells && section in {"CURRENT STATE", "OPERATING CONTEXT"}
    ensures var w, s := PutText(t, shell, section, body), t.shells[shell];
      && !w.render && shell in w.tables.shells
      && w.tables.shells[shell] == (if section == "CURRENT STATE" then s.(currentState := Some(body)) else s.(connections := Some(body)))
      && ApplyWrite(t, PutSection(shell, section, body)) == w
  {
    var state, context, laws := "CURRENT STATE", "OPERATING CONTEXT",
      ["SYSTEM OVERRIDE", "DEFINITIONS", "MEMORY PROTOCOL", "PROHIBITIONS", "COMMUNICATION"];
    assert forall k | 0 <= k < |laws| :: laws[k][1] != state[1] && laws[k][1] != context[1];
  }

  /** A shell patch that gives nothing but `connections` leaves a whole document
      stale whenever they now render otherwise; no other patch can. */
  lemma PatchGoesStale(db: Db, shell: int, p: ShellPatch, sid: string)
    requires Whole(Docs(db.tables), db.sessions, sid) && db.sessions[sid].shell == shell && Apply(db, UpdateShell(shell, p)).1 == Done
    ensures var s, db' := db.tables.shells[shell], Apply(db, UpdateShell(shell, p)).0;
      Whole(Docs(db'.tables), db'.sessions, sid) <==>
        Identity(p) || RenderText(Edited(s.connections, p.connections)) == RenderText(s.connections)
  {
    hide Compose, RenderText, Docs;
    var op := UpdateShell(shell, p);
    if Identity(p) {
      RenderIsComplete(db, op, sid);
    } else {
      UnrenderedWriteIsWholeIff(db, op, sid);
    }
  }

  // ── Identity entries ────────────────────────────────────────────────────

  /** At most ten live seed entries and twenty lessons and stances a shell. */
  ghost predicate WithinCaps(t: Tables) {
    forall shell, k: Kind :: |LiveEntries(t.entries, shell, k)| <= Cap(k)
  }

  /** Rows are only appended, and change only by being retired. */
  ghost predicate OnlyRetires(before: seq<Entry>, after: seq<Entry>) {
    && |before| <= |after|
    && forall i | 0 <= i < |before| :: after[i] == before[i] || after[i] == before[i].(retired := true)
  }

  lemma WriteKeepsCaps(es: seq<Entry>, shell: int, es': seq<Entry>, x: int, k: Kind)
    requires EntryWritten(es, shell, es') && |LiveEntries(es, x, k)| <= Cap(k)
    ensures |LiveEntries(es', x, k)| <= Cap(k) && OnlyRetires(es, es')
  {
    if |es'| == |es| + 1 {
      EntryAppended(es, es'[|es|], x, k);
    } else {
      var i :| 0 <= i < |es| && es[i].shell == shell && es' == es[i := es[i].(retired := true)];
      EntryRetired(es, i, x, k);
    }
  }

  lemma ApplyKeepsCaps(db: Db, op: Op)
    requires WithinCaps(db.tables)
    ensures WithinCaps(Apply(db, op).0.tables)
    ensures OnlyRetires(db.tables.entries, Apply(db, op).0.tables.entries)
  {
    if IsWrite(op) {
      var es, es' := db.tables.entries, ApplyWrite(db.tables, op).tables.entries;
      WritesOneRow(db.tables, op);
      hide ApplyWrite, EntryWritten, LiveEntries;
      if es' != es {
        forall x, k: Kind ensures |LiveEntries(es', x, k)| <= Cap(k) && OnlyRetires(es, es') {
          WriteKeepsCaps(es, op.shell, es', x, k);
        }
        WriteKeepsCaps(es, op.shell, es', op.shell, Seed);
      }
      assert Apply(db, op).0.tables.entries == es';
    }
  }

  /** Over any run the caps hold, and no entry is ever rewritten or brought back. */
  lemma {:induction false} RunKeepsCaps(db: Db, ops: seq<Op>)
    requires WithinCaps(db.tables)
    ensures WithinCaps(Run(db, ops).tables)
    ensures OnlyRetires(db.tables.entries, Run(db, ops).tables.entries)
    decreases |ops|
  {
    if ops != [] {
      ApplyKeepsCaps(db, ops[0]);
      RunKeepsCaps(Apply(db, ops[0]).0, ops[1..]);
    }
  }

  // ── The store ───────────────────────────────────────────────────────────

  class ShellStore {
    var shells: map<int, ShellRow>
    var entries: seq<Entry>
    var decisions: seq<Decision>
    var sessions: map<string, Session>
    var models: map<int, ModelRow>

    constructor ()
      ensures Now() == Db(Tables(map[], [], []), map[], map[]) && Coherent(Now()) && WithinCaps(Now().tables)
    {
      shells, entries, decisions, sessions, models := map[], [], [], map[], map[];
    }

    function AllTables(): Tables
      reads this`shells, this`entries, this`decisions
    {
      Tables(shells, entries, decisions)
    }

    function Now(): Db
      reads this
    {
      Db(AllTables(), sessions, models)
    }

    method RerenderBootDocument(sid: string)
      requires sid in sessions && sessions[sid].shell in shells
      modifies this`sessions
      ensures sessions == RenderedOne(old(sessions), sid, Docs(AllTables())[old(sessions)[sid].shell])
    {
      hide Compose;
      var doc := Compose(AllTables(), sessions[sid].shell);
      sessions := sessions[sid := sessions[sid].(doc := Some(doc))];
    }

    /** Renders the active sessions of a shell one after another, in whatever order the query lists them. */
    method RerenderShellSessions(shell: int)
      requires shell in shells
      modifies this`sessions
      ensures sessions == Rerendered(old(sessions), shell, Docs(AllTables())[shell])
    {
      hide Compose;
      ghost var doc := Docs(AllTables())[shell];
      var pending := set sid | sid in sessions && sessions[sid].shell == shell && sessions[sid].active;
      while pending != {}
        invariant sessions.Keys == old(sessions).Keys && pending <= sessions.Keys
        invariant forall sid | sid in sessions ::
                    sessions[sid] == if sid in pending then old(sessions)[sid] else Drawn(old(sessions)[sid], shell, doc)
        invariant forall sid | sid in pending :: old(sessions)[sid].shell == shell && old(sessions)[sid].active
        decreases pending
      {
        var sid :| sid in pending;
        RerenderBootDocument(sid);
        pending := pending - {sid};
      }
    }

    method UpdateShell(shell: int, p: ShellPatch) returns (r: Reply)
      modifies this`shells, this`sessions
      ensures var w := PatchedShell(old(AllTables()), shell, p); Now() == AfterWrite(old(Now()), shell, w) && r == w.reply
    {
      hide Compose;
      if shell !in shells { return NotFound; }
      if p.displayName.Some? && Strip(p.displayName.value) == "" { return Unprocessable; }
      if p.shortname.Some? {
        var short := ShortOf(p.shortname.value);
        if BadShort(short) { return Unprocessable; }
        if Taken(AllTables(), short, Some(shell)) { return Conflict; }
      }
      shells := shells[shell := EditedShell(shells[shell], p)];
      if Identity(p) {
        RerenderShellSessions(shell);
      }
      return Done;
    }

    method CreateIdentityEntry(shell: int, kind: string, body: string, date: Option<string>, today: string) returns (r: Reply)
      modifies this`entries, this`sessions
      ensures var w := CreatedEntry(old(AllTables()), shell, kind, body, date, today);
        Now() == AfterWrite(old(Now()), shell, w) && r == w.reply
    {
      hide Compose;
      if shell !in shells { return NotFound; }
      var k := KindOf(kind);
      if k.None? || Strip(body) == "" { return Unprocessable; }
      if |LiveEntries(entries, shell, k.value)| >= Cap(k.value) { return Conflict; }
      entries := entries + [Entry(shell, k.value, DateOr(date, today), Strip(body), false, false)];
      RerenderShellSessions(shell);
      return Done;
    }

    method UpdateIdentityEntry(shell: int, entry: nat, retire: bool) returns (r: Reply)
      modifies this`entries, this`sessions
      ensures var w := RetiredEntry(old(AllTables()), shell, entry, retire); Now() == AfterWrite(old(Now()), shell, w) && r == w.reply
    {
      hide Compose;
      if shell !in shells || entry >= |entries| || entries[entry].shell != shell { return NotFound; }
      if !retire { return Unprocessable; }
      if entries[entry].retired { return Conflict; }
      entries := entries[entry := entries[entry].(retired := true)];
      RerenderShellSessions(shell);
      return Done;
    }

    method CreateDecision(shell: int, priority: string, decision: string, rationale: Option<string>, date: Option<string>, today: string)
      returns (r: Reply)
      modifies this`decisions, this`sessions
      ensures var w := CreatedDecision(old(AllTables()), shell, priority, decision, rationale, date, today);
        Now() == AfterWrite(old(Now()), shell, w) && r == w.reply
    {
      hide Compose;
      if shell !in shells { return NotFound; }
      if priority !in {"M", "m"} || Strip(decision) == "" { return Unprocessable; }
      decisions := decisions + [Decision(shell, DateOr(date, today), priority, Strip(decision), Edited(None, rationale), false)];
      RerenderShellSessions(shell);
      return Done;
    }

    method UpdateDecision(shell: int, id: nat, p: DecisionPatch) returns (r: Reply)
      modifies this`decisions, this`sessions
      ensures var w := PatchedDecision(old(AllTables()), shell, id, p); Now() == AfterWrite(old(Now()), shell, w) && r == w.reply
    {
      hide Compose;
      if shell !in shells || id >= |decisions| || decisions[id].shell != shell { return NotFound; }
      if p.priority.Some? && p.priority.value !in {"M", "m"} { return Unprocessable; }
      if p.decision.Some? && Strip(p.decision.value) == "" { return Unprocessable; }
      if p != NO_CHANGE {
        decisions := decisions[id := EditedDecision(decisions[id], p)];
        RerenderShellSessions(shell);
      } else {
        EmptyPatch(decisions, id);
      }
      return Done;
    }

    method PutPromptSection(shell: int, section: string, body: string) returns (r: Reply)
      modifies this`shells
      ensures var w := PutText(old(AllTables()), shell, section, body); Now() == AfterWrite(old(Now()), shell, w) && r == w.reply
      ensures shell in shells && section == "CURRENT STATE" ==>
        shells == old(shells)[shell := old(shells)[shell].(currentState := Some(body))]
      ensures shell in shells && section == "OPERATING CONTEXT" ==>
        shells == old(shells)[shell := old(shells)[shell].(connections := Some(body))]
      ensures section != "CURRENT STATE" && section != "OPERATING CONTEXT" ==> shells == old(shells)
      ensures r == Done && section != "CURRENT STATE" && section != "OPERATING CONTEXT" ==>
        section in {"SYSTEM OVERRIDE", "DEFINITIONS", "MEMORY PROTOCOL", "PROHIBITIONS", "COMMUNICATION"}
    {
      hide Compose;
      if shell !in shells { return NotFound; }
      if section in {"SYSTEM OVERRIDE", "DEFINITIONS", "MEMORY PROTOCOL", "PROHIBITIONS", "COMMUNICATION"} {
        return Done;
      }
      if section == "CURRENT STATE" {
        shells := shells[shell := shells[shell].(currentState := Some(body))];
      } else if section == "OPERATING CONTEXT" {
        shells := shells[shell := shells[shell].(connections := Some(body))];
      } else {
        return BadRequest;
      }
      return Done;
    }

    method CreateChatSession(shell: int, user: int, newId: string, model: Option<int>) returns (r: Reply)
      modifies this`sessions
      ensures (sessions, r) == CreatedSession(Docs(AllTables()), models, old(sessions), shell, user, newId, model)
    {
      hide Compose;
      if shell !in shells { return NotFound; }
      if !ModelAccepted(models, model) { return Unprocessable; }
      if newId in sessions { return ServerError; }
      sessions := ClosedFor(sessions, shell, user, false);
      sessions := sessions[newId := Opened(shell, user, model, 0)];
      RerenderBootDocument(newId);
      return Done;
    }

    method UpdateSession(shell: int, sid: string, tokens: Option<int>, warned: Option<bool>, switch: Option<Option<int>>) returns (r: Reply)
      modifies this`sessions
      ensures (sessions, r) == PatchedSession(Docs(AllTables()), models, old(sessions), shell, sid, tokens, warned, switch)
    {
      hide Compose;
      if shell !in shells || sid !in sessions || sessions[sid].shell != shell { return NotFound; }
      if switch.Some? && !ModelAccepted(models, switch.value) { return Unprocessable; }
      var changed := switch.Some? && switch.value != sessions[sid].model;
      sessions := sessions[sid := EditedSession(sessions[sid], tokens, warned, switch)];
      if changed {
        RerenderBootDocument(sid);
      }
      return Done;
    }

    method ClearSession(shell: int, sid: string) returns (r: Reply)
      modifies this`sessions
      ensures (sessions, r) == ClosedSession(Docs(AllTables()), old(sessions), shell, sid)
    {
      hide Compose;
      if shell !in shells || sid !in sessions || sessions[sid].shell != shell { return NotFound; }
      sessions := sessions[sid := sessions[sid].(active := false)];
      return Done;
    }

    /** Over the limit, the session retires and a rendered one takes its place. */
    method PostShellChatReply(shell: int, sid: string, user: int, text: string, used: int, isNew: bool, newId: string) returns (r: Reply)
      modifies this`sessions
      ensures (sessions, r) == PostedReply(Docs(AllTables()), models, old(sessions), shell, sid, user, text, used, isNew, newId)
    {
      hide Compose;
      if shell !in shells { return NotFound; }
      if Strip(text) == "" { return BadRequest; }
      if sid == "" || user == 0 { return Done; }
      var before := sessions;
      if isNew {
        sessions := ClosedFor(sessions, shell, user, true);
        if sid !in sessions {
          sessions := sessions[sid := Opened(shell, user, None, used)];
        }
      } else if sid in sessions {
        sessions := sessions[sid := sessions[sid].(tokens := used)];
      }
      var window := Window(models, sessions, sid);
      if 100 * used >= 80 * window && sid in sessions {
        sessions := sessions[sid := sessions[sid].(warned := true)];
      }
      if 100 * used >= 95 * window {
        if newId in sessions {
          sessions := before;
          return ServerError;
        }
        var model := if sid in sessions then sessions[sid].model else None;
        if sid in sessions {
          sessions := sessions[sid := sessions[sid].(active := false)];
        }
        sessions := sessions[newId := Opened(shell, user, model, 0)];
        RerenderBootDocument(newId);
      }
      return Done;
    }

    /** A missing document is rendered on the spot. */
    method SessionStartPayload(shell: int, sid: string) returns (r: Reply, doc: Option<Doc>)
      modifies this`sessions
      ensures (sessions, r) == Started(Docs(AllTables()), old(sessions), shell, sid)
      ensures r == Done ==> sid in sessions && doc.Some? && doc == sessions[sid].doc
    {
      hide Compose;
      if shell !in shells || sid !in sessions || sessions[sid].shell != shell { return NotFound, None; }
      if sessions[sid].doc.None? {
        RerenderBootDocument(sid);
      }
      return Done, sessions[sid].doc;
    }

    /** Closes every session of the shell and user, and changes no other column of any session. */
    method DeleteShellChat(shell: int, user: int) returns (r: Reply)
      modifies this`sessions
      ensures (sessions, r) == ChatDeleted(Docs(AllTables()), old(sessions), shell, user)
      ensures r == if shell in shells then Done else NotFound
      ensures sessions.Keys == old(sessions).Keys && NoneReopened(old(sessions), sessions)
      ensures forall sid | sid in sessions ::
                && sessions[sid] == old(sessions)[sid].(active := sessions[sid].active)
                && (sessions[sid].active <==>
                      old(sessions)[sid].active && (r == NotFound || sessions[sid].shell != shell || sessions[sid].user != user))
    {
      hide Compose;
      if shell !in shells { return NotFound; }
      var open := set sid | sid in sessions && sessions[sid].shell == shell && sessions[sid].user == user;
      while open != {}
        invariant sessions.Keys == old(sessions).Keys && open <= sessions.Keys
        invariant forall sid | sid in open ::
                    old(sessions)[sid].shell == shell && old(sessions)[sid].user == user && sessions[sid] == old(sessions)[sid]
        invariant forall sid | sid in sessions && sid !in open ::
                    sessions[sid] == ClosedFor(old(sessions), shell, user, false)[sid]
        decreases open
      {
        var sid :| sid in open;
        sessions := sessions[sid := sessions[sid].(active := false)];
        open := open - {sid};
      }
      assert sessions == ClosedFor(old(sessions), shell, user, false);
      return Done;
    }
  }
}
