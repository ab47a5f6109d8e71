/**
 The recursive `flag_schedule` view. On a forest its walk visits every live flag
 exactly once and agrees with `SlotOf`, a recursion along parents.
 */
module FlagSchedule {
  import opened Prelude
  import opened FlagForest

  const DEFAULT_LEAD := 3

  datatype Slot = Slot(start: int, end: Option<int>)

  datatype Row = Row(id: int, slot: Slot)

  /** SQLite's DATE(d, '+' || e || ' days'): fractions floor, and a negative amount reads '+-…' and yields NULL. */
  function AddDays(d: int, e: real): Option<int> {
    if e < 0.0 then None else Some(d + e.Floor)
  }

  function EndOf(f: Flag, start: int): Option<int> {
    if f.status == Resolved then f.resolvedDate
    else if f.estimate.Some? then AddDays(start, f.estimate.value)
    else None
  }

  function AnchorSlot(f: Flag): Slot {
    var start := Coalesce(f.start, Some(f.created + DEFAULT_LEAD)).value;
    Slot(start, EndOf(f, start))
  }

  /** The slot of a row with no start of its own, from its parent's row and slot. */
  function InheritedSlot(f: Flag, parent: Flag, at: Slot): Slot {
    var resolvedOn := if parent.status == Resolved then parent.resolvedDate else None;
    var start := Coalesce(Coalesce(resolvedOn, at.end), Some(f.created + DEFAULT_LEAD)).value;
    Slot(start, EndOf(f, start))
  }

  predicate IsAnchor(f: Flag) {
    !f.deleted && (f.parent.None? || f.start.Some?)
  }

  predicate Inherits(f: Flag, parent: int) {
    !f.deleted && f.parent == Some(parent) && f.start.None?
  }

  // ── The view as a recursion on the forest ───────────────────────────────

  ghost function SlotOf(t: Table, id: int): Slot
    requires Forest(t) && Live(t, id)
    decreases TheRank(t)[id]
  {
    if IsAnchor(t[id]) then AnchorSlot(t[id])
    else InheritedSlot(t[id], t[t[id].parent.value], SlotOf(t, t[id].parent.value))
  }

  // ── The view as SQLite runs it ──────────────────────────────────────────

  /** `scan` is some order in which the table can be read: every row once. */
  ghost predicate IsScan(t: Table, scan: seq<int>) {
    && (forall i | 0 <= i < |scan| :: scan[i] in t)
    && (forall i, j | 0 <= i < j < |scan| :: scan[i] != scan[j])
    && (forall id | id in t :: id in scan)
  }

  function Anchors(t: Table, scan: seq<int>): seq<Row>
    requires forall i | 0 <= i < |scan| :: scan[i] in t
  {
    if scan == [] then []
    else (if IsAnchor(t[scan[0]]) then [Row(scan[0], AnchorSlot(t[scan[0]]))] else []) + Anchors(t, scan[1..])
  }

  function Children(t: Table, scan: seq<int>, p: Row): seq<Row>
    requires p.id in t && forall i | 0 <= i < |scan| :: scan[i] in t
  {
    if scan == [] then []
    else
      (if Inherits(t[scan[0]], p.id) then [Row(scan[0], InheritedSlot(t[scan[0]], t[p.id], p.slot))] else [])
      + Children(t, scan[1..], p)
  }

  ghost predicate DistinctIds(rows: seq<Row>) {
    forall i, j | 0 <= i < j < |rows| :: rows[i].id != rows[j].id
  }

  function Ids(rows: seq<Row>): set<int> {
    set r | r in rows :: r.id
  }

  lemma IdsConcat(a: seq<Row>, b: seq<Row>)
    ensures Ids(a + b) == Ids(a) + Ids(b)
  {
  }

  lemma DistinctConcat(a: seq<Row>, b: seq<Row>)
    requires DistinctIds(a) && DistinctIds(b) && Ids(a) !! Ids(b)
    ensures DistinctIds(a + b)
  {
    forall i, j | 0 <= i < j < |a + b| ensures (a + b)[i].id != (a + b)[j].id {
      if i < |a| <= j {
        assert a[i].id in Ids(a) && b[j - |a|].id in Ids(b);
      }
    }
  }

  lemma {:induction false} AnchorsFacts(t: Table, scan: seq<int>)
    requires forall i | 0 <= i < |scan| :: scan[i] in t
    requires forall i, j | 0 <= i < j < |scan| :: scan[i] != scan[j]
    ensures Ids(Anchors(t, scan)) == set id | id in scan && IsAnchor(t[id])
    ensures DistinctIds(Anchors(t, scan))
    ensures forall r | r in Anchors(t, scan) :: r.id in t && r.slot == AnchorSlot(t[r.id])
  {
    if scan != [] {
      AnchorsFacts(t, scan[1..]);
      var first := if IsAnchor(t[scan[0]]) then [Row(scan[0], AnchorSlot(t[scan[0]]))] else [];
      IdsConcat(first, Anchors(t, scan[1..]));
      DistinctConcat(first, Anchors(t, scan[1..]));
    }
  }

  lemma {:induction false} ChildrenFacts(t: Table, scan: seq<int>, p: Row)
    requires p.id in t && forall i | 0 <= i < |scan| :: scan[i] in t
    requires forall i, j | 0 <= i < j < |scan| :: scan[i] != scan[j]
    ensures Ids(Children(t, scan, p)) == set id | id in scan && Inherits(t[id], p.id)
    ensures DistinctIds(Children(t, scan, p))
    ensures forall r | r in Children(t, scan, p) :: r.id in t && r.slot == InheritedSlot(t[r.id], t[p.id], p.slot)
  {
    if scan != [] {
      ChildrenFacts(t, scan[1..], p);
      var first := if Inherits(t[scan[0]], p.id) then [Row(scan[0], InheritedSlot(t[scan[0]], t[p.id], p.slot))] else [];
      IdsConcat(first, Children(t, scan[1..], p));
      DistinctConcat(first, Children(t, scan[1..], p));
    }
  }

  /** What the walk keeps: `done` rows have been expanded, `queue` rows have not. */
  ghost predicate WalkInv(t: Table, done: seq<Row>, queue: seq<Row>)
    requires Forest(t)
  {
    && DistinctIds(done + queue)
    && (forall r | r in done + queue :: Live(t, r.id) && r.slot == SlotOf(t, r.id))
    && (forall id | id in t && IsAnchor(t[id]) :: id in Ids(done + queue))
    && (forall id | id in t && !t[id].deleted && !IsAnchor(t[id]) ::
          id in Ids(done + queue) <==> t[id].parent.value in Ids(done))
  }

  lemma WalkStart(t: Table, scan: seq<int>)
    requires Forest(t) && IsScan(t, scan)
    ensures WalkInv(t, [], Anchors(t, scan))
  {
    AnchorsFacts(t, scan);
    assert [] + Anchors(t, scan) == Anchors(t, scan);
    forall r | r in Anchors(t, scan) ensures Live(t, r.id) && IsAnchor(t[r.id]) {
      assert r.id in Ids(Anchors(t, scan));
    }
  }

  /** Expanding the head of the queue. */
  lemma WalkExpand(t: Table, scan: seq<int>, done: seq<Row>, queue: seq<Row>)
    requires Forest(t) && IsScan(t, scan) && queue != [] && WalkInv(t, done, queue) && queue[0].id in t
    ensures WalkInv(t, done + [queue[0]], queue[1..] + Children(t, scan, queue[0]))
  {
    hide Children, Chain;
    var p := queue[0];
    var kids := Children(t, scan, p);
    ChildrenFacts(t, scan, p);
    var before, after := done + queue, (done + [p]) + (queue[1..] + kids);
    assert after == before + kids;
    IdsConcat(before, kids);
    IdsConcat(done, [p]);
    HeadNotDone(done, queue);
    forall r | r in kids ensures Live(t, r.id) && r.slot == SlotOf(t, r.id) && r.id !in Ids(before) {
      assert r.id in Ids(kids);
      assert p in before;
    }
    DistinctConcat(before, kids);
  }

  lemma HeadNotDone(done: seq<Row>, queue: seq<Row>)
    requires queue != [] && DistinctIds(done + queue)
    ensures queue[0].id !in Ids(done)
  {
    var all := done + queue;
    assert all[|done|] == queue[0];
    forall i | 0 <= i < |done| ensures done[i].id != queue[0].id {
      assert all[i] == done[i];
    }
  }

  /** With nothing left to expand, every live flag has been reached. */
  lemma {:induction false} WalkReaches(t: Table, done: seq<Row>, id: int)
    requires Forest(t) && WalkInv(t, done, []) && Live(t, id)
    ensures id in Ids(done)
    decreases TheRank(t)[id]
  {
    assert done + [] == done;
    if !IsAnchor(t[id]) {
      WalkReaches(t, done, t[id].parent.value);
    }
  }

  lemma {:induction false} DistinctCount(rows: seq<Row>)
    requires DistinctIds(rows)
    ensures |rows| == |Ids(rows)|
  {
    if rows == [] {
      assert Ids(rows) == {};
    } else {
      var k := |rows| - 1;
      DistinctCount(rows[..k]);
      assert rows == rows[..k] + [rows[k]];
      IdsConcat(rows[..k], [rows[k]]);
      assert Ids([rows[k]]) == {rows[k].id};
      assert rows[k].id !in Ids(rows[..k]);
    }
  }

  function LiveIds(t: Table): set<int> {
    set id | id in t && !t[id].deleted
  }

  /**
   SQLite's evaluation of the view: rows leave the queue one at a time and each
   brings in the rows the recursive branch derives from it alone. It halts, and
   lists each live flag exactly once with the slot the forest gives it.
   */
  method RunView(t: Table, scan: seq<int>) returns (rows: seq<Row>)
    requires Forest(t) && IsScan(t, scan)
    ensures DistinctIds(rows)
    ensures Ids(rows) == LiveIds(t)
    ensures forall r | r in rows :: Live(t, r.id) && r.slot == SlotOf(t, r.id)
  {
    rows := [];
    var queue := Anchors(t, scan);
    WalkStart(t, scan);
    while queue != []
      invariant WalkInv(t, rows, queue)
      decreases |LiveIds(t)| - |rows|
    {
      assert queue[0] in rows + queue;
      WalkExpand(t, scan, rows, queue);
      BoundedByLive(t, rows, queue);
      rows, queue := rows + [queue[0]], queue[1..] + Children(t, scan, queue[0]);
    }
    assert rows + [] == rows;
    forall id | id in LiveIds(t) ensures id in Ids(rows) {
      WalkReaches(t, rows, id);
    }
  }

  lemma BoundedByLive(t: Table, done: seq<Row>, queue: seq<Row>)
    requires Forest(t) && WalkInv(t, done, queue) && queue != []
    ensures |done| < |LiveIds(t)|
  {
    DistinctCount(done + queue);
    assert Ids(done + queue) <= LiveIds(t);
    SubsetSize(Ids(done + queue), LiveIds(t));
  }

  lemma {:induction false} SubsetSize(a: set<int>, b: set<int>)
    requires a <= b
    ensures |a| <= |b|
  {
    assert b == a + (b - a);
  }

  // ── The list query ──────────────────────────────────────────────────────

  /** `flags LEFT JOIN flag_schedule`: one output per matching view row, or one with NULL columns. */
  function LeftJoin(ids: seq<int>, rows: seq<Row>): seq<(int, Option<Slot>)> {
    if ids == [] then []
    else
      var hits := Matches(ids[0], rows);
      (if hits == [] then [(ids[0], None)] else hits) + LeftJoin(ids[1..], rows)
  }

  function Matches(id: int, rows: seq<Row>): seq<(int, Option<Slot>)> {
    if rows == [] then []
    else (if rows[0].id == id then [(id, Some(rows[0].slot))] else []) + Matches(id, rows[1..])
  }

  lemma {:induction false} MatchOnce(id: int, rows: seq<Row>, i: nat)
    requires DistinctIds(rows) && i < |rows| && rows[i].id == id
    ensures Matches(id, rows) == [(id, Some(rows[i].slot))]
  {
    if i == 0 {
      MatchNone(id, rows[1..]);
    } else {
      MatchOnce(id, rows[1..], i - 1);
    }
  }

  lemma {:induction false} MatchNone(id: int, rows: seq<Row>)
    requires forall r | r in rows :: r.id != id
    ensures Matches(id, rows) == []
  {
    if rows != [] {
      MatchNone(id, rows[1..]);
    }
  }

  /** The list query returns each selected live flag once, in the selected order, with its slot. */
  lemma {:induction false} ListNeitherDropsNorDuplicates(t: Table, rows: seq<Row>, ids: seq<int>)
    requires Forest(t) && DistinctIds(rows) && Ids(rows) == LiveIds(t)
    requires forall r | r in rows :: Live(t, r.id) && r.slot == SlotOf(t, r.id)
    requires forall id | id in ids :: Live(t, id)
    ensures |LeftJoin(ids, rows)| == |ids|
    ensures forall i | 0 <= i < |ids| :: LeftJoin(ids, rows)[i] == (ids[i], Some(SlotOf(t, ids[i])))
  {
    if ids != [] {
      assert forall id | id in ids[1..] :: id in ids;
      ListNeitherDropsNorDuplicates(t, rows, ids[1..]);
      assert ids[0] in ids;
      assert Live(t, ids[0]) && ids[0] in LiveIds(t);
      var r :| r in rows && r.id == ids[0];
      var i :| 0 <= i < |rows| && rows[i] == r;
      MatchOnce(ids[0], rows, i);
    }
  }

  /**
   The three-way COALESCE of the recursive branch comes to this: a flag without
   its own start begins when its parent ends, or three days after its creation
   when the parent has no end.
   */
  lemma StartsWhenParentEnds(t: Table, id: int)
    requires Forest(t) && Live(t, id) && !IsAnchor(t[id])
    ensures Live(t, t[id].parent.value)
    ensures var end := SlotOf(t, t[id].parent.value).end;
      SlotOf(t, id).start == if end.Some? then end.value else t[id].created + 3
  {
  }

  // ── Start dates along a chain ───────────────────────────────────────────

  /** A path downward: each flag unresolved and estimated, none but the first with a start of its own. */
  ghost predicate EstimatedPath(t: Table, path: seq<int>) {
    && path != []
    && (forall i | 0 <= i < |path| :: Live(t, path[i]))
    && (forall i | 0 < i < |path| :: Inherits(t[path[i]], path[i - 1]))
    && (forall i | 0 <= i < |path| - 1 :: Carries(t[path[i]]))
  }

  predicate Carries(f: Flag) {
    f.status != Resolved && f.estimate.Some? && f.estimate.value >= 0.0
  }

  function FlooredEstimate(t: Table, id: int): int {
    if id in t && t[id].estimate.Some? then t[id].estimate.value.Floor else 0
  }

  function FloorSum(t: Table, path: seq<int>): int {
    if path == [] then 0 else FloorSum(t, path[..|path| - 1]) + FlooredEstimate(t, path[|path| - 1])
  }

  /** The last flag starts at the first one's start plus the floored estimates of everything above it. */
  lemma {:induction false} StartIsSumOfEstimates(t: Table, path: seq<int>)
    requires Forest(t) && EstimatedPath(t, path)
    ensures SlotOf(t, path[|path| - 1]).start
         == SlotOf(t, path[0]).start + FloorSum(t, path[..|path| - 1])
    decreases |path|
  {
    var k := |path| - 1;
    if k > 0 {
      var up := path[..k];
      StartIsSumOfEstimates(t, up);
      assert path[..k][..k - 1] == path[..k - 1];
      assert Inherits(t[path[k]], path[k - 1]) && Carries(t[path[k - 1]]);
      assert up[k - 1] == path[k - 1];
    }
  }

  /** Leaving out an element before the last, then the last, or the other way round. */
  lemma CutButLast(path: seq<int>, k: nat)
    requires k < |path| - 1
    ensures var n, cut := |path| - 1, path[..k] + path[k + 1..];
      |cut| == n && cut[n - 1] == path[n] && cut[..n - 1] == path[..n][..k] + path[..n][k + 1..]
  {
  }

  lemma {:induction false} FloorSumSplit(t: Table, path: seq<int>, k: nat)
    requires k < |path|
    ensures FloorSum(t, path) == FloorSum(t, path[..k] + path[k + 1..]) + FlooredEstimate(t, path[k])
    decreases |path|
  {
    hide FlooredEstimate;
    var n := |path| - 1;
    if k < n {
      FloorSumSplit(t, path[..n], k);
      CutButLast(path, k);
    } else {
      assert path[..k] + path[k + 1..] == path[..k];
    }
  }

  lemma {:induction false} FloorSumAgree(t: Table, t': Table, path: seq<int>)
    requires forall id :: FlooredEstimate(t', id) == FlooredEstimate(t, id)
    ensures FloorSum(t', path) == FloorSum(t, path)
  {
    if path != [] {
      FloorSumAgree(t, t', path[..|path| - 1]);
    }
  }

  /** Splicing a flag out leaves the slot of every live flag that is not below it alone. */
  lemma {:induction false} SlotUnmoved(t: Table, id: int, x: int)
    requires Forest(t) && Live(t, id) && Live(t, x) && id !in Chain(t, x)
    ensures Forest(Splice(t, id)) && Live(Splice(t, id), x)
    ensures SlotOf(Splice(t, id), x) == SlotOf(t, x)
    decreases TheRank(t)[x]
  {
    SpliceKeepsForest(t, id);
    ChainUnfold(t, x);
    if !IsAnchor(t[x]) {
      SlotUnmoved(t, id, t[x].parent.value);
      ChainUnfold(t, t[x].parent.value);
    }
  }

  /** The path without the deleted flag is a path of the spliced table. */
  lemma CutPath(t: Table, path: seq<int>, k: nat)
    requires Forest(t) && EstimatedPath(t, path) && 0 < k < |path| - 1
    ensures EstimatedPath(Splice(t, path[k]), path[..k] + path[k + 1..])
  {
    PathDistinct(t, path);
    var t', cut := Splice(t, path[k]), path[..k] + path[k + 1..];
    forall i | 0 <= i < |cut| ensures Live(t', cut[i]) && (i < |cut| - 1 ==> Carries(t'[cut[i]])) {
      var j := if i < k then i else i + 1;
      assert cut[i] == path[j] && path[j] != path[k];
    }
    forall i | 0 < i < |cut| ensures Inherits(t'[cut[i]], cut[i - 1]) {
      var j := if i < k then i else i + 1;
      assert Inherits(t[path[j]], path[j - 1]) && Inherits(t[path[k]], path[k - 1]);
      assert cut[i] == path[j] && cut[i - 1] == if i == k then path[k - 1] else path[j - 1];
    }
  }

  lemma CutSum(t: Table, t': Table, path: seq<int>, k: nat)
    requires 0 < k < |path| - 1
    requires forall id :: FlooredEstimate(t', id) == FlooredEstimate(t, id)
    ensures var cut := path[..k] + path[k + 1..];
      FloorSum(t', cut[..|cut| - 1]) == FloorSum(t, path[..|path| - 1]) - FlooredEstimate(t, path[k])
  {
    hide FlooredEstimate, FloorSum;
    var n, cut := |path| - 1, path[..k] + path[k + 1..];
    FloorSumSplit(t, path[..n], k);
    CutButLast(path, k);
    FloorSumAgree(t, t', cut[..|cut| - 1]);
  }

  /** The top of such a path is not below any flag further down it. */
  lemma PathTopUnmoved(t: Table, path: seq<int>, k: nat)
    requires Forest(t) && EstimatedPath(t, path) && 0 < k < |path|
    ensures Forest(Splice(t, path[k])) && Live(Splice(t, path[k]), path[0])
    ensures SlotOf(Splice(t, path[k]), path[0]) == SlotOf(t, path[0])
  {
    hide SlotOf;
    PathRank(t, path, 0, k);
    ChainRank(t, path[0]);
    SlotUnmoved(t, path[k], path[0]);
  }

  /**
   Deleting a flag strictly inside such a path, whatever the path hangs under,
   brings every flag below it forward by exactly the deleted flag's floored estimate.
   */
  lemma DeleteShiftsSubtree(t: Table, path: seq<int>, k: nat)
    requires Forest(t) && EstimatedPath(t, path) && 0 < k < |path| - 1
    ensures Forest(Splice(t, path[k])) && Live(Splice(t, path[k]), path[|path| - 1])
    ensures SlotOf(Splice(t, path[k]), path[|path| - 1]).start
         == SlotOf(t, path[|path| - 1]).start - t[path[k]].estimate.value.Floor
  {
    hide SlotOf, FloorSum, Inherits;
    assert Carries(t[path[k]]);
    var t', cut := Splice(t, path[k]), path[..k] + path[k + 1..];
    PathTopUnmoved(t, path, k);
    CutPath(t, path, k);
    CutSum(t, t', path, k) by {
      assert forall id :: FlooredEstimate(t', id) == FlooredEstimate(t, id);
    }
    hide FlooredEstimate, Splice;
    StartIsSumOfEstimates(t, path);
    StartIsSumOfEstimates(t', cut);
  }

  /** A downward path never repeats a flag. */
  lemma PathDistinct(t: Table, path: seq<int>)
    requires Forest(t) && EstimatedPath(t, path)
    ensures forall i, j | 0 <= i < j < |path| :: path[i] != path[j]
  {
    forall i, j | 0 <= i < j < |path| ensures path[i] != path[j] {
      PathRank(t, path, i, j);
    }
  }

  lemma {:induction false} PathRank(t: Table, path: seq<int>, i: nat, j: nat)
    requires Forest(t) && EstimatedPath(t, path) && i < j < |path|
    ensures path[i] in t && path[j] in t && TheRank(t)[path[i]] < TheRank(t)[path[j]]
    decreases j
  {
    assert Inherits(t[path[j]], path[j - 1]);
    if i < j - 1 {
      PathRank(t, path, i, j - 1);
    }
  }
}
