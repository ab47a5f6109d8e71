/**
 The flag endpoints: each handler is one atomic step over the `flags` table.
 `sees` is the caller's visibility of the row it names; display columns, notes
 and the event log are not kept.
 */
module FlagStore {
  import opened Prelude
  import opened FlagForest

  datatype Reply = Done | NotFound | Unprocessable

  datatype Project = Unnamed | NotMember | Member

  datatype Op =
    | Create(start: Option<int>, status: Option<int>, parent: Option<int>, estimate: Option<real>, project: Project)
    | Update(id: int, sees: bool, start: Option<int>, parent: Option<int>, clearParent: bool, estimate: Option<real>)
    | SetStart(id: int, sees: bool, start: Option<int>)
    | Resolve(id: int, sees: bool, status: Option<int>)
    | Delete(id: int, sees: bool)

  datatype Store = Store(rows: Table, nextId: int) {
    ghost predicate Valid() {
      Forest(rows) && forall id | id in rows :: id < nextId
    }
  }

  const EMPTY := Store(map[], 1)

  function StatusOf(code: int): (s: Option<Status>) {
    if code == 0 then Some(Open) else if code == 1 then Some(Resolved) else if code == 2 then Some(Tracking) else None
  }

  function Reopened(s: Status): Status {
    if s == Tracking then Open else s
  }

  predicate Visible(t: Table, id: int, sees: bool) {
    Live(t, id) && sees
  }

  /** The row an accepted `Update` leaves behind, its parent aside. */
  function EditedColumns(f: Flag, start: Option<int>, estimate: Option<real>): Flag {
    f.(start := Coalesce(start, f.start),
       status := if start.Some? then Reopened(f.status) else f.status,
       estimate := Coalesce(estimate, f.estimate))
  }

  function Scheduled(f: Flag, start: Option<int>): Flag {
    f.(start := start, status := if start.None? then Tracking else Reopened(f.status))
  }

  function WithStatus(f: Flag, s: Status, today: int): Flag {
    match s
    case Resolved => f.(status := Resolved, resolvedDate := Some(today))
    case Tracking => f.(status := Tracking, resolvedDate := None, start := None)
    case Open => f.(status := Open, resolvedDate := None)
  }

  /** A proposed parent is acceptable when it is live and not below the row being moved. */
  ghost predicate ParentAccepted(t: Table, id: int, parent: int)
    requires Acyclic(t)
  {
    Live(t, parent) && id !in Chain(t, parent)
  }

  /** What one request does to the table, and how it answers. */
  ghost function Apply(s: Store, today: int, op: Op): (out: (Store, Reply))
    requires s.Valid()
  {
    var t := s.rows;
    match op
    case Create(start, code, parent, estimate, project) =>
      var status := if code.None? then Some(Open) else StatusOf(code.value);
      if status.None? || (parent.Some? && !Live(t, parent.value)) || project == Unnamed then (s, Unprocessable)
      else if project == NotMember then (s, NotFound)
      else (Store(t[s.nextId := Flag(parent, today, start, estimate, status.value, None, false)], s.nextId + 1), Done)
    case Update(id, sees, start, parent, clearParent, estimate) =>
      if !Visible(t, id, sees) then (s, NotFound)
      else if parent.Some? && !ParentAccepted(t, id, parent.value) then (s, Unprocessable)
      else
        var f := EditedColumns(t[id], start, estimate);
        var p := if parent.Some? then parent else if clearParent then None else f.parent;
        (s.(rows := t[id := f.(parent := p)]), Done)
    case SetStart(id, sees, start) =>
      if !Visible(t, id, sees) then (s, NotFound) else (s.(rows := t[id := Scheduled(t[id], start)]), Done)
    case Resolve(id, sees, code) =>
      if code.None? || StatusOf(code.value).None? then (s, Unprocessable)
      else if !Visible(t, id, sees) then (s, NotFound)
      else (s.(rows := t[id := WithStatus(t[id], StatusOf(code.value).value, today)]), Done)
    case Delete(id, sees) =>
      if !Visible(t, id, sees) then (s, NotFound) else (s.(rows := Splice(t, id)), Done)
  }

  lemma ApplyKeepsForest(s: Store, today: int, op: Op)
    requires s.Valid()
    ensures Apply(s, today, op).0.Valid()
  {
    var t := s.rows;
    match op
    case Create(start, code, parent, estimate, project) =>
      if Apply(s, today, op).1 == Done {
        InsertKeepsForest(t, s.nextId, Apply(s, today, op).0.rows[s.nextId]);
      }
    case Update(id, sees, start, parent, clearParent, estimate) =>
      if Apply(s, today, op).1 == Done {
        if parent.Some? {
          LinkKeepsForest(t, id, parent.value);
          var t' := WithParent(t, id, parent);
          ColumnsKeepForest(t', id, Apply(s, today, op).0.rows[id]);
          assert t'[id := Apply(s, today, op).0.rows[id]] == Apply(s, today, op).0.rows;
        } else {
          ColumnsKeepForest(t, id, Apply(s, today, op).0.rows[id]);
        }
      }
    case SetStart(id, sees, start) =>
      if Visible(t, id, sees) { ColumnsKeepForest(t, id, Scheduled(t[id], start)); }
    case Resolve(id, sees, code) =>
      if Apply(s, today, op).1 == Done { ColumnsKeepForest(t, id, Apply(s, today, op).0.rows[id]); }
    case Delete(id, sees) =>
      if Visible(t, id, sees) { SpliceKeepsForest(t, id); }
  }

  /** A dated request log, replayed from the empty table. */
  ghost function Replay(ops: seq<(int, Op)>): (s: Store)
    ensures s.Valid()
  {
    if ops == [] then
      assert IsRank(map[], map[]);
      EMPTY
    else
      var last := ops[|ops| - 1];
      var s := Replay(ops[..|ops| - 1]);
      ApplyKeepsForest(s, last.0, last.1);
      Apply(s, last.0, last.1).0
  }

  /** Every reachable table is a forest in which no row points at a deleted row. */
  lemma ReachableIsForest(ops: seq<(int, Op)>)
    ensures Acyclic(Replay(ops).rows)
    ensures forall id | id in Replay(ops).rows && Replay(ops).rows[id].parent.Some? ::
              Live(Replay(ops).rows, Replay(ops).rows[id].parent.value)
    ensures forall id | id in Replay(ops).rows :: id !in Chain(Replay(ops).rows, id)[1..]
  {
    var t := Replay(ops).rows;
    assert Replay(ops).Valid();
    forall id | id in t ensures id !in Chain(t, id)[1..] {
      NotOwnAncestor(t, id);
    }
  }

  /** Requests that ask for a parent to change. */
  predicate Relinks(op: Op) {
    op.Delete? || (op.Update? && (op.parent.Some? || op.clearParent))
  }

  lemma ParentsStay(s: Store, today: int, op: Op)
    requires s.Valid() && (Relinks(op) ==> Apply(s, today, op).1 != Done)
    requires op.Create? ==> Apply(s, today, op).1 != Done
    ensures var t' := Apply(s, today, op).0.rows; t'.Keys == s.rows.Keys && forall y | y in s.rows :: t'[y].parent == s.rows[y].parent
  {
    hide Chain;
  }

  /** Requests other than an accepted re-parent or delete leave every ancestry alone. */
  lemma OtherChainsUnchanged(s: Store, today: int, op: Op, x: int)
    requires s.Valid() && x in s.rows
    requires Relinks(op) ==> Apply(s, today, op).1 != Done
    ensures Apply(s, today, op).0.Valid()
    ensures x in Apply(s, today, op).0.rows
    ensures Chain(Apply(s, today, op).0.rows, x) == Chain(s.rows, x)
  {
    ApplyKeepsForest(s, today, op);
    var t, t' := s.rows, Apply(s, today, op).0.rows;
    if op.Create? && Apply(s, today, op).1 == Done {
      InsertKeepsChain(t, s.nextId, t'[s.nextId], x);
    } else {
      ParentsStay(s, today, op);
      hide Apply;
      ColumnsKeepChain(t, t', x);
    }
  }

  lemma {:induction false} InsertKeepsChain(t: Table, id: int, f: Flag, x: int)
    requires Acyclic(t) && Acyclic(t[id := f]) && id !in t && x in t
    ensures Chain(t[id := f], x) == Chain(t, x)
    decreases TheRank(t)[x]
  {
    if t[x].parent.Some? {
      InsertKeepsChain(t, id, f, t[x].parent.value);
    }
  }

  /** The live service: handlers updating the table in place. */
  class FlagTable {
    var rows: Table
    var nextId: int

    ghost predicate Valid() reads this { Abs().Valid() }

    ghost function Abs(): Store reads this { Store(rows, nextId) }

    constructor ()
      ensures Valid() && Abs() == EMPTY
    {
      rows, nextId := map[], 1;
      assert IsRank(map[], map[]);
    }

    /**
     Walks the parent chain upward from the proposed parent, collecting it, and
     then looks for `id` in it. `found` is the raised 422.
     */
    method CheckNoCycle(id: int, proposed: int) returns (found: bool)
      requires Valid() && id in rows && proposed in rows
      ensures found <==> !Acyclic(WithParent(rows, id, Some(proposed)))
      ensures found <==> id in Chain(rows, proposed)
    {
      CycleCheckExact(rows, id, proposed);
      if id == proposed {
        return true;
      }
      var chain, at := [proposed], proposed;
      while rows[at].parent.Some?
        invariant at in rows
        invariant Chain(rows, proposed) == chain + Chain(rows, at)[1..]
        decreases TheRank(rows)[at]
      {
        ChainUnfold(rows, at);
        at := rows[at].parent.value;
        chain := chain + [at];
        ChainUnfold(rows, at);
      }
      ChainUnfold(rows, at);
      return id in chain;
    }

    method CreateFlag(today: int, start: Option<int>, code: Option<int>, parent: Option<int>,
                      estimate: Option<real>, project: Project) returns (r: Reply)
      requires Valid()
      modifies this
      ensures Valid()
      ensures (Abs(), r) == Apply(old(Abs()), today, Create(start, code, parent, estimate, project))
    {
      ApplyKeepsForest(Abs(), today, Create(start, code, parent, estimate, project));
      var status := Some(Open);
      if code.Some? {
        status := StatusOf(code.value);
        if status.None? {
          return Unprocessable;
        }
      }
      if parent.Some? && !Live(rows, parent.value) {
        return Unprocessable;
      }
      if project == Unnamed {
        return Unprocessable;
      }
      if project == NotMember {
        return NotFound;
      }
      rows := rows[nextId := Flag(parent, today, start, estimate, status.value, None, false)];
      nextId := nextId + 1;
      return Done;
    }

    method UpdateFlag(ghost today: int, id: int, sees: bool, start: Option<int>, parent: Option<int>,
                      clearParent: bool, estimate: Option<real>) returns (r: Reply)
      requires Valid()
      modifies this
      ensures Valid()
      ensures (Abs(), r) == Apply(old(Abs()), today, Update(id, sees, start, parent, clearParent, estimate))
    {
      ghost var op := Update(id, sees, start, parent, clearParent, estimate);
      ApplyKeepsForest(Abs(), today, op);
      if !Visible(rows, id, sees) {
        return NotFound;
      }
      if parent.Some? {
        if !Live(rows, parent.value) {
          return Unprocessable;
        }
        var found := CheckNoCycle(id, parent.value);
        if found {
          return Unprocessable;
        }
      }
      var was := rows[id].status;
      if start.Some? {
        rows := rows[id := rows[id].(start := start, status := if was == Tracking then Open else was)];
      }
      if parent.Some? {
        rows := rows[id := rows[id].(parent := parent)];
      } else if clearParent {
        rows := rows[id := rows[id].(parent := None)];
      }
      if estimate.Some? {
        rows := rows[id := rows[id].(estimate := estimate)];
      }
      assert rows == Apply(old(Abs()), today, op).0.rows;
      return Done;
    }

    method UpdateStartDate(ghost today: int, id: int, sees: bool, start: Option<int>) returns (r: Reply)
      requires Valid()
      modifies this
      ensures Valid()
      ensures (Abs(), r) == Apply(old(Abs()), today, SetStart(id, sees, start))
    {
      ApplyKeepsForest(Abs(), today, SetStart(id, sees, start));
      if !Visible(rows, id, sees) {
        return NotFound;
      }
      var was := rows[id].status;
      var status := if start.None? then Tracking else if was == Tracking then Open else was;
      rows := rows[id := rows[id].(start := start, status := status)];
      return Done;
    }

    method ResolveFlag(today: int, id: int, sees: bool, code: Option<int>) returns (r: Reply)
      requires Valid()
      modifies this
      ensures Valid()
      ensures (Abs(), r) == Apply(old(Abs()), today, Resolve(id, sees, code))
    {
      ApplyKeepsForest(Abs(), today, Resolve(id, sees, code));
      if code.None? || !(0 <= code.value <= 2) {
        return Unprocessable;
      }
      if !Visible(rows, id, sees) {
        return NotFound;
      }
      var f := rows[id];
      if code.value == 1 {
        f := f.(status := Resolved, resolvedDate := Some(today));
      } else if code.value == 2 {
        f := f.(status := Tracking, resolvedDate := None, start := None);
      } else {
        f := f.(status := Open, resolvedDate := None);
      }
      rows := rows[id := f];
      return Done;
    }

    method DeleteFlag(ghost today: int, id: int, sees: bool) returns (r: Reply)
      requires Valid()
      modifies this
      ensures Valid()
      ensures (Abs(), r) == Apply(old(Abs()), today, Delete(id, sees))
    {
      ApplyKeepsForest(Abs(), today, Delete(id, sees));
      if id in rows { ChainUnfold(rows, id); }
      if !Visible(rows, id, sees) {
        return NotFound;
      }
      var grandparent := rows[id].parent;
      rows := map x | x in rows ::
        if rows[x].parent == Some(id) then rows[x].(parent := grandparent) else rows[x];
      rows := rows[id := rows[id].(deleted := true)];
      assert rows == Splice(old(rows), id);
      return Done;
    }
  }
}
