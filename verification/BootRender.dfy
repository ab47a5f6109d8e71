/**
 The sections of a boot document that draw on shell columns, identity entries
 and decisions. Rows are numbered by their place in the table, as the
 autoincrement ids order them.
 */
module BootRender {
  import opened Prelude
  import opened Text

  const RECENT_DECISIONS_N := 3

  datatype ShellRow = ShellRow(displayName: string, shortname: Option<string>, partner: Option<string>, role: Option<string>,
                               mandate: Option<string>, currentState: Option<string>, connections: Option<string>)

  datatype Kind = Seed | Lns

  datatype Entry = Entry(shell: int, kind: Kind, date: string, body: string, retired: bool, deleted: bool)

  datatype Decision = Decision(shell: int, date: string, priority: string, decision: string, rationale: Option<string>, deleted: bool)

  datatype Tables = Tables(shells: map<int, ShellRow>, entries: seq<Entry>, decisions: seq<Decision>)

  /** What a query lists: the sort key, and the text the row contributes. */
  datatype Row = Row(date: string, id: nat, text: string)

  datatype Doc = Doc(identity: string, seed: string, lns: string, decisions: string, operatingContext: string, currentState: string)

  // ── Ordering ────────────────────────────────────────────────────────────

  /** BINARY collation. */
  predicate Less(a: string, b: string) {
    b != "" && (a == "" || a[0] < b[0] || (a[0] == b[0] && Less(a[1..], b[1..])))
  }

  lemma {:induction false} LessIsTotal(a: string, b: string)
    ensures a == b || Less(a, b) || Less(b, a)
    ensures !(Less(a, b) && Less(b, a)) && !Less(a, a)
    decreases |a|
  {
    if a != "" {
      LessIsTotal(a[1..], a[1..]);
      if b != "" && a[0] == b[0] {
        LessIsTotal(a[1..], b[1..]);
        assert a == [a[0]] + a[1..] && b == [b[0]] + b[1..];
      }
    }
  }

  lemma {:induction false} LessIsTransitive(a: string, b: string, c: string)
    requires Less(a, b) && Less(b, c)
    ensures Less(a, c)
  {
    if a != "" && a[0] == b[0] == c[0] {
      LessIsTransitive(a[1..], b[1..], c[1..]);
    }
  }

  /** ORDER BY date, id. */
  predicate Earlier(a: Row, b: Row) {
    Less(a.date, b.date) || (a.date == b.date && a.id <= b.id)
  }

  function Insert(r: Row, rows: seq<Row>): seq<Row> {
    if rows == [] || Earlier(r, rows[0]) then [r] + rows else [rows[0]] + Insert(r, rows[1..])
  }

  function Sort(rows: seq<Row>): seq<Row> {
    if rows == [] then [] else Insert(rows[|rows| - 1], Sort(rows[..|rows| - 1]))
  }

  ghost predicate Sorted(rows: seq<Row>) {
    forall i, j | 0 <= i < j < |rows| :: Earlier(rows[i], rows[j])
  }

  lemma {:induction false} InsertKeepsOrder(r: Row, rows: seq<Row>)
    requires Sorted(rows)
    ensures Sorted(Insert(r, rows)) && multiset(Insert(r, rows)) == multiset(rows) + multiset{r}
  {
    hide Less;
    if rows == [] {
    } else if Earlier(r, rows[0]) {
      forall j | 0 <= j < |rows| ensures Earlier(r, rows[j]) {
        EarlierIsTransitive(r, rows[0], rows[j]);
      }
    } else {
      LessIsTotal(r.date, rows[0].date);
      var rest := Insert(r, rows[1..]);
      InsertKeepsOrder(r, rows[1..]);
      assert rows == [rows[0]] + rows[1..];
      forall j | 0 <= j < |rest| ensures Earlier(rows[0], rest[j]) {
        assert rest[j] in multiset(rest);
      }
    }
  }

  lemma EarlierIsTransitive(a: Row, b: Row, c: Row)
    requires Earlier(a, b) && (b == c || Earlier(b, c))
    ensures Earlier(a, c)
  {
    if Less(a.date, b.date) && Less(b.date, c.date) {
      LessIsTransitive(a.date, b.date, c.date);
    }
  }

  /** The listing is the query's rows, each once, in key order. */
  lemma {:induction false} SortSorts(rows: seq<Row>)
    ensures Sorted(Sort(rows)) && multiset(Sort(rows)) == multiset(rows) && |Sort(rows)| == |rows|
  {
    if rows != [] {
      var k := |rows| - 1;
      SortSorts(rows[..k]);
      InsertKeepsOrder(rows[k], Sort(rows[..k]));
      assert rows == rows[..k] + [rows[k]];
    }
    assert |multiset(Sort(rows))| == |multiset(rows)|;
  }

  /** ORDER BY date DESC, id DESC LIMIT n. */
  function NewestFirst(rows: seq<Row>, n: nat): seq<Row> {
    var s := Sort(rows);
    seq(if n < |s| then n else |s|, i requires 0 <= i < |s| => s[|s| - 1 - i])
  }

  /** The newest rows come first, and nothing left out is newer than anything listed. */
  lemma NewestFirstFacts(rows: seq<Row>, n: nat)
    ensures var out := NewestFirst(rows, n);
      && |out| == (if n < |rows| then n else |rows|)
      && (forall i, j | 0 <= i < j < |out| :: Earlier(out[j], out[i]))
      && multiset(out) <= multiset(rows)
      && (forall x, i | x in multiset(rows) - multiset(out) && 0 <= i < |out| :: Earlier(x, out[i]))
  {
    hide Sort, Earlier;
    SortSorts(rows);
    var s, out := Sort(rows), NewestFirst(rows, n);
    var k := |s| - |out|;
    ReversedTail(s, k, out);
    assert s == s[..k] + s[k..];
    forall x, i | x in multiset(rows) - multiset(out) && 0 <= i < |out| ensures Earlier(x, out[i]) {
      assert x in s[..k];
      var j :| 0 <= j < k && s[..k][j] == x;
      assert Earlier(s[j], s[|s| - 1 - i]);
    }
  }

  lemma {:induction false} ReversedTail(s: seq<Row>, k: nat, out: seq<Row>)
    requires k <= |s| && |out| == |s| - k && forall i | 0 <= i < |out| :: out[i] == s[|s| - 1 - i]
    ensures multiset(out) == multiset(s[k..])
    decreases |s| - k
  {
    if k < |s| {
      var m := |out| - 1;
      ReversedTail(s, k + 1, out[..m]);
      assert out == out[..m] + [out[m]] && s[k..] == [s[k]] + s[k + 1..];
    } else {
      assert s[k..] == out;
    }
  }

  // ── Queries ─────────────────────────────────────────────────────────────

  predicate Shows(e: Entry, shell: int, kind: Kind) {
    e.shell == shell && e.kind == kind && !e.deleted && !e.retired
  }

  function EntryText(e: Entry): string {
    if e.kind == Seed then "### " + e.date + "\n" + e.body else e.body
  }

  function LiveEntries(es: seq<Entry>, shell: int, kind: Kind): (rows: seq<Row>)
    ensures |rows| <= |es|
  {
    if es == [] then []
    else
      var k := |es| - 1;
      LiveEntries(es[..k], shell, kind) + if Shows(es[k], shell, kind) then [Row(es[k].date, k, EntryText(es[k]))] else []
  }

  function DecisionText(d: Decision): string {
    var line := "[" + d.date + "] " + d.priority + " · " + d.decision;
    var why := if d.rationale.Some? then Strip(d.rationale.value) else "";
    if why == "" then line else line + "\nrationale: " + why
  }

  function LiveDecisions(ds: seq<Decision>, shell: int): seq<Row> {
    if ds == [] then []
    else
      var k := |ds| - 1;
      LiveDecisions(ds[..k], shell)
      + if ds[k].shell == shell && !ds[k].deleted then [Row(ds[k].date, k, DecisionText(ds[k]))] else []
  }

  // ── Sections ────────────────────────────────────────────────────────────

  function Cell(v: Option<string>): string {
    var s := if v.Some? then Strip(v.value) else "";
    if s == "" then "—" else s
  }

  function JoinTexts(sep: string, rows: seq<Row>): string {
    if rows == [] then "" else if |rows| == 1 then rows[0].text else rows[0].text + sep + JoinTexts(sep, rows[1..])
  }

  function Listing(sep: string, rows: seq<Row>, none: string): string {
    if rows == [] then none else JoinTexts(sep, rows)
  }

  function RenderIdentity(s: ShellRow): string {
    IdentityText(Cell(Some(s.displayName)), Cell(s.shortname), Cell(s.partner), Cell(s.role), Cell(s.mandate))
  }

  function IdentityText(name: string, short: string, partner: string, role: string, mandate: string): string {
    "you are " + name + ", an AI shell. your FnB partner is " + partner
    + ", a human collaborator. the substrate gives you persistent memory, tools, skills, and context for the work you do together."
    + "\n\n| | |\n|---|---|\n"
    + "| **Name** | " + name + " |\n"
    + "| **Shortname** | " + short + " |\n"
    + "| **Partner** | " + partner + " |\n"
    + "| **Role** | " + role + " |\n"
    + "| **Mandate** | " + mandate + " |"
  }

  function RenderText(v: Option<string>): string {
    var s := if v.Some? then Strip(v.value) else "";
    if s == "" then "(none)" else s
  }

  function Compose(t: Tables, shell: int): Doc
    requires shell in t.shells
  {
    var s := t.shells[shell];
    Doc(RenderIdentity(s),
        Listing("\n\n", Sort(LiveEntries(t.entries, shell, Seed)), "(none)"),
        Listing("\n\n", Sort(LiveEntries(t.entries, shell, Lns)), "(none)"),
        Listing("\n", NewestFirst(LiveDecisions(t.decisions, shell), RECENT_DECISIONS_N), "(none recorded yet)"),
        RenderText(s.connections),
        RenderText(s.currentState))
  }

  /** The four sections every writer of their rows renders again. */
  predicate Agrees(a: Doc, b: Doc) {
    a.identity == b.identity && a.seed == b.seed && a.lns == b.lns && a.decisions == b.decisions
  }

  // ── What a write can change ─────────────────────────────────────────────

  /** A new row changes the listing of no other shell and of no other kind. */
  lemma EntryAppended(es: seq<Entry>, e: Entry, shell: int, kind: Kind)
    ensures LiveEntries(es + [e], shell, kind)
         == LiveEntries(es, shell, kind) + if Shows(e, shell, kind) then [Row(e.date, |es|, EntryText(e))] else []
  {
    assert (es + [e])[..|es|] == es;
  }

  lemma {:induction false} EntryRetired(es: seq<Entry>, i: nat, shell: int, kind: Kind)
    requires i < |es|
    ensures var after := LiveEntries(es[i := es[i].(retired := true)], shell, kind);
      && |after| <= |LiveEntries(es, shell, kind)|
      && (es[i].shell != shell ==> after == LiveEntries(es, shell, kind))
  {
    var k := |es| - 1;
    var after := es[i := es[i].(retired := true)];
    if i < k {
      EntryRetired(es[..k], i, shell, kind);
      assert after[..k] == es[..k][i := es[i].(retired := true)];
    } else {
      assert after[..k] == es[..k];
    }
  }

  lemma DecisionAppended(ds: seq<Decision>, d: Decision, shell: int)
    requires d.shell != shell
    ensures LiveDecisions(ds + [d], shell) == LiveDecisions(ds, shell)
  {
    assert (ds + [d])[..|ds|] == ds;
  }

  lemma {:induction false} DecisionEdited(ds: seq<Decision>, i: nat, d: Decision, shell: int)
    requires i < |ds| && d.shell == ds[i].shell != shell
    ensures LiveDecisions(ds[i := d], shell) == LiveDecisions(ds, shell)
  {
    var k := |ds| - 1;
    if i < k {
      DecisionEdited(ds[..k], i, d, shell);
      assert ds[i := d][..k] == ds[..k][i := d];
    } else {
      assert ds[i := d][..k] == ds[..k];
    }
  }
}
