/**
 The `flags` table as a linked structure: each row may name a parent row.
 This module defines what makes the table a forest and proves that linking and
 splicing rows keeps it one.
 */
module FlagForest {
  import opened Prelude

  datatype Status = Open | Resolved | Tracking

  /** Dates are whole days. `estimate` is the REAL column `estimated_days`. */
  datatype Flag = Flag(
    parent: Option<int>,
    created: int,
    start: Option<int>,
    estimate: Option<real>,
    status: Status,
    resolvedDate: Option<int>,
    deleted: bool)

  type Table = map<int, Flag>

  predicate Live(t: Table, id: int) {
    id in t && !t[id].deleted
  }

  /** `rank` strictly decreases from every row to its parent. */
  ghost predicate IsRank(t: Table, rank: map<int, nat>) {
    forall id | id in t ::
      id in rank && (t[id].parent.Some? ==>
        && t[id].parent.value in t
        && t[id].parent.value in rank
        && rank[t[id].parent.value] < rank[id])
  }

  ghost predicate Acyclic(t: Table) {
    exists rank :: IsRank(t, rank)
  }

  /** No row, live or deleted, points at a deleted row. */
  ghost predicate LiveParents(t: Table) {
    forall id | id in t && t[id].parent.Some? :: Live(t, t[id].parent.value)
  }

  ghost predicate Forest(t: Table) {
    Acyclic(t) && LiveParents(t)
  }

  ghost function TheRank(t: Table): (rank: map<int, nat>)
    requires Acyclic(t)
    ensures IsRank(t, rank)
  {
    var rank :| IsRank(t, rank);
    rank
  }

  /** A row followed by its ancestors, nearest first. */
  ghost function Chain(t: Table, id: int): (c: seq<int>)
    requires Acyclic(t) && id in t
    ensures c != [] && c[0] == id
    decreases TheRank(t)[id]
  {
    [id] + if t[id].parent.Some? then Chain(t, t[id].parent.value) else []
  }

  function WithParent(t: Table, id: int, parent: Option<int>): Table
    requires id in t
  {
    t[id := t[id].(parent := parent)]
  }

  lemma {:induction false} ChainRank(t: Table, id: int)
    requires Acyclic(t) && id in t
    ensures forall x | x in Chain(t, id) :: x in t && TheRank(t)[x] <= TheRank(t)[id]
    decreases TheRank(t)[id]
  {
    if t[id].parent.Some? {
      ChainRank(t, t[id].parent.value);
    }
  }

  /** A flag never occurs among its own ancestors. */
  lemma NotOwnAncestor(t: Table, id: int)
    requires Acyclic(t) && id in t
    ensures id !in Chain(t, id)[1..]
  {
    if t[id].parent.Some? {
      var p := t[id].parent.value;
      assert Chain(t, id)[1..] == Chain(t, p);
      ChainRank(t, p);
    }
  }

  // ── Re-parenting ────────────────────────────────────────────────────────

  /** In any table that keeps `t`'s links off `id`, ranks fall along a chain. */
  lemma {:induction false} RankFallsAlongChain(t: Table, id: int, parent: int, from: int, rank: map<int, nat>)
    requires Acyclic(t) && id in t && from in t
    requires IsRank(WithParent(t, id, Some(parent)), rank)
    requires id in Chain(t, from)
    ensures from in rank && id in rank && rank[id] <= rank[from]
    decreases TheRank(t)[from]
  {
    assert from in WithParent(t, id, Some(parent));
    if from != id {
      RankFallsAlongChain(t, id, parent, t[from].parent.value, rank);
    }
  }

  /** The rank witnessing a harmless new edge: descendants of `id` are lifted above `parent`. */
  ghost function LiftedRank(t: Table, id: int, parent: int): map<int, nat>
    requires Acyclic(t) && id in t && parent in t
  {
    var r := TheRank(t);
    map x | x in t :: if id in Chain(t, x) then r[x] + r[parent] + 1 else r[x]
  }

  lemma LiftedRankWorks(t: Table, id: int, parent: int)
    requires Acyclic(t) && id in t && parent in t && id !in Chain(t, parent)
    ensures IsRank(WithParent(t, id, Some(parent)), LiftedRank(t, id, parent))
  {
    var t' := WithParent(t, id, Some(parent));
    var r' := LiftedRank(t, id, parent);
    forall x | x in t'
      ensures x in r' && (t'[x].parent.Some? ==>
        && t'[x].parent.value in t' && t'[x].parent.value in r'
        && r'[t'[x].parent.value] < r'[x])
    {
      if x != id && t[x].parent.Some? {
        assert Chain(t, x) == [x] + Chain(t, t[x].parent.value);
      }
    }
  }

  /**
   The walk up from the proposed parent meets `id` exactly when the new edge
   would close a cycle, and otherwise a new well-founded rank exists.
   */
  lemma CycleCheckExact(t: Table, id: int, parent: int)
    requires Acyclic(t) && id in t && parent in t
    ensures id !in Chain(t, parent) <==> Acyclic(WithParent(t, id, Some(parent)))
  {
    var t' := WithParent(t, id, Some(parent));
    if id !in Chain(t, parent) {
      LiftedRankWorks(t, id, parent);
    } else if Acyclic(t') {
      var rank := TheRank(t');
      assert id in t';
      RankFallsAlongChain(t, id, parent, parent, rank);
      assert false;
    }
  }

  lemma LinkKeepsForest(t: Table, id: int, parent: int)
    requires Forest(t) && id in t && Live(t, parent) && id !in Chain(t, parent)
    ensures Forest(WithParent(t, id, Some(parent)))
  {
    CycleCheckExact(t, id, parent);
  }

  /** Changing a row's other columns, or clearing its parent, keeps the forest. */
  lemma ColumnsKeepForest(t: Table, id: int, f: Flag)
    requires Forest(t) && id in t
    requires f.parent == t[id].parent || f.parent.None?
    requires f.deleted == t[id].deleted
    ensures Forest(t[id := f])
  {
    assert IsRank(t[id := f], TheRank(t));
  }

  /** With every parent link untouched, every chain is untouched. */
  lemma {:induction false} ColumnsKeepChain(t: Table, t': Table, x: int)
    requires Acyclic(t) && Acyclic(t') && x in t && t.Keys == t'.Keys
    requires forall y | y in t :: t[y].parent == t'[y].parent
    ensures Chain(t', x) == Chain(t, x)
    decreases TheRank(t)[x]
  {
    if t[x].parent.Some? {
      ColumnsKeepChain(t, t', t[x].parent.value);
    }
  }

  lemma InsertKeepsForest(t: Table, id: int, f: Flag)
    requires Forest(t) && id !in t
    requires f.parent.Some? ==> Live(t, f.parent.value)
    ensures Forest(t[id := f])
  {
    var r := TheRank(t);
    var r' := r[id := if f.parent.Some? then r[f.parent.value] + 1 else 0];
    assert IsRank(t[id := f], r');
  }

  // ── Splice-delete ───────────────────────────────────────────────────────

  /** Every child of `id`, deleted ones included, moves to `id`'s own parent; then `id` is marked deleted. */
  function Splice(t: Table, id: int): Table
    requires id in t
  {
    map x | x in t ::
      if x == id then t[x].(deleted := true)
      else if t[x].parent == Some(id) then t[x].(parent := t[id].parent)
      else t[x]
  }

  lemma SpliceKeepsForest(t: Table, id: int)
    requires Forest(t) && id in t
    ensures Forest(Splice(t, id))
  {
    assert IsRank(Splice(t, id), TheRank(t));
    NotOwnAncestor(t, id);
  }

  function Without(s: seq<int>, x: int): seq<int> {
    if s == [] then [] else (if s[0] == x then [] else [s[0]]) + Without(s[1..], x)
  }

  lemma WithoutAbsent(s: seq<int>, x: int)
    requires x !in s
    ensures Without(s, x) == s
  {
  }

  lemma WithoutCons(y: int, s: seq<int>, x: int)
    ensures Without([y] + s, x) == (if y == x then [] else [y]) + Without(s, x)
  {
    assert ([y] + s)[1..] == s;
  }

  lemma ChainUnfold(t: Table, id: int)
    requires Acyclic(t) && id in t
    ensures t[id].parent.None? ==> Chain(t, id) == [id]
    ensures t[id].parent.Some? ==> t[id].parent.value in t && Chain(t, id) == [id] + Chain(t, t[id].parent.value)
    ensures t[id].parent != Some(id)
  {
  }

  /** Deleting a flag removes exactly that flag from every other row's ancestry, in place and in order. */
  lemma {:induction false} SpliceChain(t: Table, id: int, x: int)
    requires Forest(t) && id in t && x in t && x != id
    ensures Forest(Splice(t, id)) && x in Splice(t, id)
    ensures Chain(Splice(t, id), x) == Without(Chain(t, x), id)
    decreases TheRank(t)[x]
  {
    SpliceKeepsForest(t, id);
    ChainUnfold(t, x);
    ChainUnfold(Splice(t, id), x);
    if t[x].parent.Some? {
      var p := t[x].parent.value;
      WithoutCons(x, Chain(t, p), id);
      if p != id {
        SpliceChain(t, id, p);
      } else {
        SpliceChainOfChild(t, id, x);
      }
    } else {
      WithoutCons(x, [], id);
    }
  }

  lemma {:induction false} SpliceChainOfChild(t: Table, id: int, x: int)
    requires Forest(t) && id in t && x in t && x != id && t[x].parent == Some(id)
    ensures Forest(Splice(t, id)) && x in Splice(t, id)
    ensures Chain(Splice(t, id), x) == [x] + Without(Chain(t, id), id)
    decreases TheRank(t)[x], 0
  {
    SpliceKeepsForest(t, id);
    ChainUnfold(t, id);
    ChainUnfold(Splice(t, id), x);
    NotOwnAncestor(t, id);
    if t[id].parent.Some? {
      var g := t[id].parent.value;
      SpliceChain(t, id, g);
      WithoutCons(id, Chain(t, g), id);
    } else {
      WithoutCons(id, [], id);
    }
  }

  /** The deleted row keeps its own ancestry, and nothing points at it any more. */
  lemma SpliceUnlinks(t: Table, id: int)
    requires Forest(t) && id in t
    ensures Forest(Splice(t, id))
    ensures Chain(Splice(t, id), id) == Chain(t, id)
    ensures forall x | x in t :: Splice(t, id)[x].parent != Some(id)
  {
    SpliceKeepsForest(t, id);
    NotOwnAncestor(t, id);
    var t' := Splice(t, id);
    if t[id].parent.Some? {
      var g := t[id].parent.value;
      assert g != id;
      assert Chain(t, id)[1..] == Chain(t, g);
      SpliceChain(t, id, g);
      WithoutAbsent(Chain(t, g), id);
    }
  }
}
