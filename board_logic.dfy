/** The board page's state transitions as functions from the old column state (and pending
    queue) to the new one, with the properties the page relies on. */
module BoardLogic {
  import opened KanbanTypes

  /** What the page holds between events: its columns and its queue of pending moves. */
  datatype BoardState = BoardState(columns: seq<Column>, pending: seq<PendingChange>)

  // ---------------------------------------------------------------------------
  // Lookups

  /** `columns.find(col => col.id === key)`, as an index; `None` stands for `undefined`,
      which matches no column. */
  function ColumnIndex(cols: seq<Column>, key: Option<string>): (r: Option<nat>)
    ensures r.Some? ==> r.value < |cols| && key == Some(cols[r.value].id)
    ensures r.Some? ==> forall j :: 0 <= j < r.value ==> key != Some(cols[j].id)
    ensures r.None? ==> forall j :: 0 <= j < |cols| ==> key != Some(cols[j].id)
  {
    if cols == [] then None
    else if key == Some(cols[0].id) then Some(0)
    else match ColumnIndex(cols[1..], key)
      case None => None
      case Some(k) => Some(k + 1)
  }

  /** `tasks.findIndex(task => task.id === taskId)`, with `None` for -1. */
  function TaskIndex(ts: seq<Task>, taskId: int): (r: Option<nat>)
    ensures r.Some? ==> r.value < |ts| && ts[r.value].id == taskId
    ensures r.Some? ==> forall j :: 0 <= j < r.value ==> ts[j].id != taskId
    ensures r.None? ==> forall j :: 0 <= j < |ts| ==> ts[j].id != taskId
  {
    if ts == [] then None
    else if ts[0].id == taskId then Some(0)
    else match TaskIndex(ts[1..], taskId)
      case None => None
      case Some(k) => Some(k + 1)
  }

  /** `columns[index + delta]?.id`: the id of a neighbouring column, or `undefined` past
      either end. */
  function NeighbourId(cols: seq<Column>, index: int, delta: int): (r: Option<string>)
    ensures r.Some? <==> 0 <= index + delta < |cols|
    ensures r.Some? ==> r.value == cols[index + delta].id
  {
    if 0 <= index + delta < |cols| then Some(cols[index + delta].id) else None
  }

  // ---------------------------------------------------------------------------
  // Moving a task

  /** `tasks.splice(k, 1)`: the list without its element at `k`. */
  function RemoveAt(ts: seq<Task>, k: nat): (r: seq<Task>)
    requires k < |ts|
    ensures |r| == |ts| - 1
    ensures forall j :: 0 <= j < k ==> r[j] == ts[j]
    ensures forall j :: k <= j < |r| ==> r[j] == ts[j + 1]
  {
    ts[..k] + ts[k + 1..]
  }

  /** Splicing one task out of a list removes exactly one copy of its id. */
  lemma RemoveAtIds(ts: seq<Task>, k: nat)
    requires k < |ts|
    ensures multiset(Ids(ts)) == multiset(Ids(RemoveAt(ts, k))) + multiset{ts[k].id}
  {
    var a, b := ts[..k], ts[k + 1..];
    SplitAround(ts, k);
    IdsConcat(a + [ts[k]], b);
    IdsConcat(a, [ts[k]]);
    IdsConcat(a, b);
    assert Ids([ts[k]]) == [ts[k].id];
    var ia, ib := multiset(Ids(a)), multiset(Ids(b));
    assert multiset(Ids(ts)) == ia + multiset{ts[k].id} + ib;
    assert multiset(Ids(RemoveAt(ts, k))) == ia + ib;
    forall e ensures multiset(Ids(ts))[e] == (multiset(Ids(RemoveAt(ts, k))) + multiset{ts[k].id})[e] {
    }
  }

  lemma SplitAround(ts: seq<Task>, k: nat)
    requires k < |ts|
    ensures ts == (ts[..k] + [ts[k]]) + ts[k + 1..]
  {
  }

  /** The task at `k` of column `f` given column `t`'s status and numeric id. */
  function Retagged(cols: seq<Column>, f: nat, t: nat, k: nat): (r: Task)
    requires f < |cols| && t < |cols| && k < |cols[f].tasks| && IsDigits(cols[t].id)
    ensures r.status == cols[t].status && r.columnId == ColumnNumber(cols[t])
    ensures r.(status := cols[f].tasks[k].status, columnId := cols[f].tasks[k].columnId) == cols[f].tasks[k]
  {
    cols[f].tasks[k].(status := cols[t].status, columnId := ColumnNumber(cols[t]))
  }

  /** The columns after splicing task `k` out of column `f` and pushing it, retagged, on
      column `t`; when `f == t` the push goes on the already spliced list. */
  function Relocate(cols: seq<Column>, f: nat, t: nat, k: nat): (r: seq<Column>)
    requires f < |cols| && t < |cols| && k < |cols[f].tasks| && IsDigits(cols[t].id)
    ensures SameFrame(r, cols)
  {
    var spliced := cols[f := cols[f].(tasks := RemoveAt(cols[f].tasks, k))];
    spliced[t := spliced[t].(tasks := spliced[t].tasks + [Retagged(cols, f, t, k)])]
  }

  /** Both columns are found and the source column holds the task. */
  predicate MoveApplies(s: BoardState, taskId: int, from: Option<string>, to: Option<string>) {
    var f := ColumnIndex(s.columns, from);
    ColumnIndex(s.columns, to).Some? && f.Some? && TaskIndex(s.columns[f.value].tasks, taskId).Some?
  }

  /** `moveTaskToColumn(taskId, from, to)`: take the first task with that id out of the
      source column, give it the destination's status and numeric id, push it on the
      destination column (which is the source column itself when the ids are equal) and
      queue one pending change whose order number is the destination's new length. */
  function Move(s: BoardState, taskId: int, from: Option<string>, to: Option<string>): (r: BoardState)
    requires NumericIds(s.columns)
    ensures SameFrame(r.columns, s.columns)
    ensures r.pending == s.pending || (|r.pending| == |s.pending| + 1 && r.pending[..|s.pending|] == s.pending)
  {
    if !MoveApplies(s, taskId, from, to) then s
    else
      var f, t := ColumnIndex(s.columns, from).value, ColumnIndex(s.columns, to).value;
      var k := TaskIndex(s.columns[f].tasks, taskId).value;
      var r := Relocate(s.columns, f, t, k);
      var dest := s.columns[t];
      BoardState(r, s.pending + [PendingChange(taskId, ColumnNumber(dest), |r[t].tasks|, dest.status)])
  }

  /** A move changes the board exactly when both columns resolve and the source column
      holds the task; otherwise columns and queue stay as they were. */
  lemma MoveNoOpIff(s: BoardState, taskId: int, from: Option<string>, to: Option<string>)
    requires NumericIds(s.columns)
    ensures Move(s, taskId, from, to) == s <==> !MoveApplies(s, taskId, from, to)
    ensures ColumnIndex(s.columns, from).None? || ColumnIndex(s.columns, to).None? ==> Move(s, taskId, from, to) == s
  {
    if MoveApplies(s, taskId, from, to) {
      assert |Move(s, taskId, from, to).pending| == |s.pending| + 1;
    }
  }

  /** The indices a move that applies works on: `f` and `t` are the first columns whose ids
      are `from` and `to`, `k` the first position of the task in `f`. */
  lemma MoveIndices(s: BoardState, taskId: int, from: Option<string>, to: Option<string>)
      returns (f: nat, t: nat, k: nat)
    requires NumericIds(s.columns)
    requires MoveApplies(s, taskId, from, to)
    ensures f < |s.columns| && t < |s.columns| && k < |s.columns[f].tasks|
    ensures Some(s.columns[f].id) == from && Some(s.columns[t].id) == to
    ensures s.columns[f].tasks[k].id == taskId
    ensures forall j :: 0 <= j < k ==> s.columns[f].tasks[j].id != taskId
    ensures Move(s, taskId, from, to).columns == Relocate(s.columns, f, t, k)
    ensures from == to <==> f == t
    ensures ColumnIndex(s.columns, from) == Some(f) && ColumnIndex(s.columns, to) == Some(t)
    ensures TaskIndex(s.columns[f].tasks, taskId) == Some(k)
  {
    f := ColumnIndex(s.columns, from).value;
    t := ColumnIndex(s.columns, to).value;
    k := TaskIndex(s.columns[f].tasks, taskId).value;
  }

  /** The effect of a move that applies, in terms of the indices it works on, for a board
      with the fixed layout: it keeps the layout and the status invariant. */
  lemma MoveEffect(s: BoardState, taskId: int, from: Option<string>, to: Option<string>, f: nat, t: nat, k: nat)
    requires Layout(s.columns) && StatusPlaced(s.columns)
    requires ColumnIndex(s.columns, from) == Some(f) && ColumnIndex(s.columns, to) == Some(t)
    requires TaskIndex(s.columns[f].tasks, taskId) == Some(k)
    ensures NumericIds(s.columns)
    ensures var r := Relocate(s.columns, f, t, k);
      Move(s, taskId, from, to) == BoardState(r, s.pending + [PendingChange(taskId, ColumnNumber(s.columns[t]), |r[t].tasks|, s.columns[t].status)]) &&
      Layout(r) && StatusPlaced(r)
  {
    LayoutNumbers(s.columns);
    RelocateShape(s.columns, f, t, k);
    RelocatePreservesPlacement(s.columns, f, t, k);
  }

  /** Where everything ends up: the task leaves the source, sits last in the destination
      with the destination's status and numeric id and every other field as before; every
      other task keeps its column and relative order, and column ids, titles and statuses
      do not change. */
  lemma RelocateShape(cols: seq<Column>, f: nat, t: nat, k: nat)
    requires f < |cols| && t < |cols| && k < |cols[f].tasks| && IsDigits(cols[t].id)
    ensures var r := Relocate(cols, f, t, k);
      var moved := cols[f].tasks[k].(status := cols[t].status, columnId := ColumnNumber(cols[t]));
      SameFrame(r, cols) &&
      (forall j :: 0 <= j < |r| && j != f && j != t ==> r[j] == cols[j]) &&
      (f != t ==> r[f].tasks == RemoveAt(cols[f].tasks, k) && r[t].tasks == cols[t].tasks + [moved]) &&
      (f == t ==> r[t].tasks == RemoveAt(cols[f].tasks, k) + [moved])
  {
  }

  /** Moving neither creates nor loses tasks: the multiset of task ids over all columns is
      the same afterwards. */
  lemma RelocateConservesIds(cols: seq<Column>, f: nat, t: nat, k: nat)
    requires f < |cols| && t < |cols| && k < |cols[f].tasks| && IsDigits(cols[t].id)
    ensures BoardIds(Relocate(cols, f, t, k)) == BoardIds(cols)
  {
    var src := cols[f];
    var rest := RemoveAt(src.tasks, k);
    var moved := Retagged(cols, f, t, k);
    var spliced := cols[f := src.(tasks := rest)];
    var pushed := spliced[t := spliced[t].(tasks := spliced[t].tasks + [moved])];
    assert Relocate(cols, f, t, k) == pushed;
    RemoveAtIds(src.tasks, k);
    BoardIdsUpdate(cols, f, src.(tasks := rest));
    IdsConcat(spliced[t].tasks, [moved]);
    BoardIdsUpdate(spliced, t, spliced[t].(tasks := spliced[t].tasks + [moved]));
    BagCancel(BoardIds(pushed), BoardIds(spliced), BoardIds(cols), multiset(Ids(spliced[t].tasks)),
              multiset(Ids(src.tasks)), multiset(Ids(rest)), multiset{moved.id});
  }

  /** Bookkeeping for RelocateConservesIds: `d` the destination's ids before the push,
      `o`/`w` the source's ids before and after the splice, `x` the moved id. */
  lemma BagCancel(p: multiset<int>, sp: multiset<int>, c: multiset<int>, d: multiset<int>,
                  o: multiset<int>, w: multiset<int>, x: multiset<int>)
    requires sp + o == c + w
    requires o == w + x
    requires p + d == sp + (d + x)
    ensures p == c
  {
    forall e ensures p[e] == c[e] {
      assert (sp + o)[e] == (c + w)[e];
      assert (p + d)[e] == (sp + (d + x))[e];
    }
  }

  lemma MoveConservesIds(s: BoardState, taskId: int, from: Option<string>, to: Option<string>)
    requires NumericIds(s.columns)
    ensures BoardIds(Move(s, taskId, from, to).columns) == BoardIds(s.columns)
  {
    if MoveApplies(s, taskId, from, to) {
      var f, t, k := MoveIndices(s, taskId, from, to);
      RelocateConservesIds(s.columns, f, t, k);
    }
  }

  /** Relocating keeps every task's status (and, when the board had it, its column id) in
      agreement with the column that holds it. */
  lemma RelocatePreservesPlacement(cols: seq<Column>, f: nat, t: nat, k: nat)
    requires f < |cols| && t < |cols| && k < |cols[f].tasks| && IsDigits(cols[t].id)
    ensures StatusPlaced(cols) ==> StatusPlaced(Relocate(cols, f, t, k))
    ensures Placed(cols) ==> Placed(Relocate(cols, f, t, k))
  {
    var r := Relocate(cols, f, t, k);
    var moved := Retagged(cols, f, t, k);
    if StatusPlaced(cols) {
      forall i | 0 <= i < |r| ensures StatusAgrees(r[i]) {
        forall j | 0 <= j < |r[i].tasks| ensures r[i].tasks[j].status == r[i].status {
          var j' := RelocateOrigin(cols, f, t, k, i, j);
        }
      }
    }
    if Placed(cols) {
      forall i | 0 <= i < |r| ensures Agrees(r[i]) {
        forall j | 0 <= j < |r[i].tasks| ensures r[i].tasks[j].status == r[i].status && r[i].tasks[j].columnId == ColumnNumber(r[i]) {
          var j' := RelocateOrigin(cols, f, t, k, i, j);
        }
      }
    }
  }

  /** Every task of the relocated board is the moved one, last in column `t`, or a task
      that column `i` already held. */
  lemma RelocateOrigin(cols: seq<Column>, f: nat, t: nat, k: nat, i: nat, j: nat) returns (j': nat)
    requires f < |cols| && t < |cols| && k < |cols[f].tasks| && IsDigits(cols[t].id)
    requires i < |cols| && j < |Relocate(cols, f, t, k)[i].tasks|
    ensures var r := Relocate(cols, f, t, k);
      SameFrame(r, cols) &&
      ((i == t && j == |r[i].tasks| - 1 && r[i].tasks[j] == Retagged(cols, f, t, k)) ||
       (j' < |cols[i].tasks| && r[i].tasks[j] == cols[i].tasks[j']))
  {
    RelocateShape(cols, f, t, k);
    var r := Relocate(cols, f, t, k);
    j' := 0;
    if i == t && j == |r[i].tasks| - 1 {
    } else if i == f {
      j' := if j < k then j else j + 1;
    } else {
      j' := j;
    }
  }

  lemma MovePreservesPlacement(s: BoardState, taskId: int, from: Option<string>, to: Option<string>)
    requires NumericIds(s.columns)
    ensures StatusPlaced(s.columns) ==> StatusPlaced(Move(s, taskId, from, to).columns)
    ensures Placed(s.columns) ==> Placed(Move(s, taskId, from, to).columns)
  {
    if MoveApplies(s, taskId, from, to) {
      var f, t, k := MoveIndices(s, taskId, from, to);
      RelocatePreservesPlacement(s.columns, f, t, k);
    }
  }

  /** A move that applies queues exactly one change at the end: the task id, the
      destination's numeric id and status, and the destination's new length as order number
      (at least 1; one more than before unless the task stays in its own column). */
  lemma MoveQueues(s: BoardState, taskId: int, from: Option<string>, to: Option<string>)
    requires NumericIds(s.columns)
    requires MoveApplies(s, taskId, from, to)
    ensures var t := ColumnIndex(s.columns, to).value;
      var dest := s.columns[t];
      var r := Move(s, taskId, from, to);
      r.pending == s.pending + [PendingChange(taskId, ColumnNumber(dest), |r.columns[t].tasks|, dest.status)] &&
      r.pending[|s.pending|].orderNum >= 1 &&
      r.pending[|s.pending|].orderNum == (if from == to then |dest.tasks| else |dest.tasks| + 1)
  {
    var f, t, k := MoveIndices(s, taskId, from, to);
    RelocateShape(s.columns, f, t, k);
  }

  /** Moving a task within its own column sends it to the end of that column without
      duplicating it. */
  lemma MoveWithinColumn(s: BoardState, taskId: int, c: string)
    requires NumericIds(s.columns)
    requires MoveApplies(s, taskId, Some(c), Some(c))
    ensures var f := ColumnIndex(s.columns, Some(c)).value;
      var r := Move(s, taskId, Some(c), Some(c)).columns;
      |r[f].tasks| == |s.columns[f].tasks| &&
      multiset(Ids(r[f].tasks)) == multiset(Ids(s.columns[f].tasks)) &&
      r[f].tasks[|r[f].tasks| - 1].id == taskId
  {
    var f, t, k := MoveIndices(s, taskId, Some(c), Some(c));
    RelocateShape(s.columns, f, t, k);
    var src := s.columns[f].tasks;
    RemoveAtIds(src, k);
    IdsConcat(RemoveAt(src, k), [Retagged(s.columns, f, t, k)]);
  }

  /** The page's arrow buttons: the left arrow of the first column and the right arrow of
      the last are disabled, so the page never moves to `undefined`. Were such a call made,
      the handler's own guard would still make it change nothing. */
  lemma MoveOffTheEdge(s: BoardState, taskId: int)
    requires Layout(s.columns)
    ensures NumericIds(s.columns)
    ensures Move(s, taskId, Some(s.columns[0].id), NeighbourId(s.columns, 0, -1)) == s
    ensures Move(s, taskId, Some(s.columns[2].id), NeighbourId(s.columns, 2, 1)) == s
  {
    LayoutNumbers(s.columns);
  }

  // ---------------------------------------------------------------------------
  // Loading

  /** `tasks.filter(task => task.status === status)`. */
  function Filter(ts: seq<Task>, status: TaskStatus): seq<Task> {
    if ts == [] then []
    else Filter(ts[..|ts| - 1], status) + (if ts[|ts| - 1].status == status then [ts[|ts| - 1]] else [])
  }

  /** Filtering one more task extends the filtered list by it exactly when it has the
      status. */
  lemma FilterSnoc(ts: seq<Task>, x: Task, status: TaskStatus)
    ensures Filter(ts + [x], status) == Filter(ts, status) + (if x.status == status then [x] else [])
  {
    assert (ts + [x])[..|ts + [x]| - 1] == ts;
  }

  /** A task is in the filtered list exactly when it was fetched and has the status. */
  lemma {:induction false} FilterMembers(ts: seq<Task>, status: TaskStatus)
    ensures forall x :: x in Filter(ts, status) <==> x in ts && x.status == status
  {
    if ts != [] {
      var pre, last := ts[..|ts| - 1], ts[|ts| - 1];
      assert ts == pre + [last];
      FilterMembers(pre, status);
      FilterSnoc(pre, last, status);
    }
  }

  /** Filtering keeps fetch order: filtering a concatenation filters each part. */
  lemma {:induction false} FilterConcat(a: seq<Task>, b: seq<Task>, status: TaskStatus)
    ensures Filter(a + b, status) == Filter(a, status) + Filter(b, status)
  {
    if b == [] {
      assert a + b == a;
    } else {
      var pre, last := b[..|b| - 1], b[|b| - 1];
      assert (a + b)[..|a + b| - 1] == a + pre && (a + b)[|a + b| - 1] == last;
      FilterConcat(a, pre, status);
    }
  }

  /** The multiset of a filter of a non-empty list: that of the filter of all but the last
      task, plus the last task when it has the status. */
  lemma FilterLastBag(ts: seq<Task>, status: TaskStatus)
    requires ts != []
    ensures multiset(Filter(ts, status)) ==
      multiset(Filter(ts[..|ts| - 1], status)) + (if ts[|ts| - 1].status == status then multiset{ts[|ts| - 1]} else multiset{})
  {
  }

  /** The five status filters split the fetched tasks: every task lands in exactly one. */
  lemma {:induction false} StatusPartition(ts: seq<Task>)
    ensures multiset(Filter(ts, Todo)) + multiset(Filter(ts, InProgress)) + multiset(Filter(ts, Done))
          + multiset(Filter(ts, Blocked)) + multiset(Filter(ts, Archived)) == multiset(ts)
  {
    if ts != [] {
      var pre, x := ts[..|ts| - 1], ts[|ts| - 1];
      assert multiset(ts) == multiset(pre) + multiset{x} by {
        assert ts == pre + [x];
      }
      StatusPartition(pre);
      FilterLastBag(ts, Todo);
      FilterLastBag(ts, InProgress);
      FilterLastBag(ts, Done);
      FilterLastBag(ts, Blocked);
      FilterLastBag(ts, Archived);
      PartitionStep(multiset(Filter(pre, Todo)), multiset(Filter(pre, InProgress)), multiset(Filter(pre, Done)),
                    multiset(Filter(pre, Blocked)), multiset(Filter(pre, Archived)), multiset(pre), x);
    }
  }

  /** Bookkeeping for StatusPartition: one more task goes to the part of its status. */
  lemma PartitionStep(a: multiset<Task>, b: multiset<Task>, c: multiset<Task>, d: multiset<Task>, e: multiset<Task>,
                      all: multiset<Task>, x: Task)
    requires a + b + c + d + e == all
    ensures (a + (if x.status == Todo then multiset{x} else multiset{}))
          + (b + (if x.status == InProgress then multiset{x} else multiset{}))
          + (c + (if x.status == Done then multiset{x} else multiset{}))
          + (d + (if x.status == Blocked then multiset{x} else multiset{}))
          + (e + (if x.status == Archived then multiset{x} else multiset{})) == all + multiset{x}
  {
    var a', b', c' := a + (if x.status == Todo then multiset{x} else multiset{}), b + (if x.status == InProgress then multiset{x} else multiset{}), c + (if x.status == Done then multiset{x} else multiset{});
    var d', e' := d + (if x.status == Blocked then multiset{x} else multiset{}), e + (if x.status == Archived then multiset{x} else multiset{});
    forall y ensures (a' + b' + c' + d' + e')[y] == (all + multiset{x})[y] {
      assert (a + b + c + d + e)[y] == all[y];
    }
  }

  /** The load step: every column's list becomes the fetched tasks of its status. */
  function LoadColumns(cols: seq<Column>, fetched: seq<Task>): (r: seq<Column>)
    ensures SameFrame(r, cols)
  {
    seq(|cols|, i requires 0 <= i < |cols| => cols[i].(tasks := Filter(fetched, cols[i].status)))
  }

  /** A load keeps the fixed layout and leaves every column holding tasks of its status
      only. */
  lemma LoadKeepsInvariant(cols: seq<Column>, fetched: seq<Task>)
    requires Layout(cols)
    ensures Layout(LoadColumns(cols, fetched)) && StatusPlaced(LoadColumns(cols, fetched))
  {
    var r := LoadColumns(cols, fetched);
    forall i | 0 <= i < |r| ensures StatusAgrees(r[i]) {
      FilterMembers(fetched, cols[i].status);
      assert forall j :: 0 <= j < |r[i].tasks| ==> r[i].tasks[j] in r[i].tasks;
    }
  }

  /** After a load each column holds exactly the fetched tasks of its status, in fetch
      order; tasks that are blocked or archived are in no column; no task is in two
      columns; and nothing is lost or duplicated. */
  lemma LoadPartitions(cols: seq<Column>, fetched: seq<Task>)
    requires Layout(cols)
    ensures var r := LoadColumns(cols, fetched);
      r[0].tasks == Filter(fetched, Todo) && r[1].tasks == Filter(fetched, InProgress) &&
      r[2].tasks == Filter(fetched, Done)
    ensures var r := LoadColumns(cols, fetched);
      (forall i, x :: 0 <= i < 3 ==> (x in r[i].tasks <==> x in fetched && x.status == cols[i].status)) &&
      (forall i, x :: 0 <= i < 3 && x in r[i].tasks ==> x.status != Blocked && x.status != Archived) &&
      (forall i, j, x :: 0 <= i < j < 3 && x in r[i].tasks ==> x !in r[j].tasks) &&
      multiset(r[0].tasks) + multiset(r[1].tasks) + multiset(r[2].tasks)
        + multiset(Filter(fetched, Blocked)) + multiset(Filter(fetched, Archived)) == multiset(fetched)
  {
    var r := LoadColumns(cols, fetched);
    LayoutNumbers(cols);
    assert r[0].tasks == Filter(fetched, Todo);
    assert r[1].tasks == Filter(fetched, InProgress);
    assert r[2].tasks == Filter(fetched, Done);
    FilterMembers(fetched, Todo);
    FilterMembers(fetched, InProgress);
    FilterMembers(fetched, Done);
    StatusPartition(fetched);
  }

  /** The store's column ids are trusted on load: when every fetched task on the board
      carries the numeric id of its status's column, the loaded board satisfies the full
      placement invariant. */
  lemma LoadPlacedWhenConsistent(cols: seq<Column>, fetched: seq<Task>)
    requires Layout(cols)
    requires forall x :: x in fetched && x.status == Todo ==> x.columnId == 1
    requires forall x :: x in fetched && x.status == InProgress ==> x.columnId == 2
    requires forall x :: x in fetched && x.status == Done ==> x.columnId == 3
    ensures Placed(LoadColumns(cols, fetched))
  {
    var r := LoadColumns(cols, fetched);
    LayoutNumbers(cols);
    LoadKeepsInvariant(cols, fetched);
    LoadPartitions(cols, fetched);
    forall i, j | 0 <= i < 3 && 0 <= j < |r[i].tasks|
      ensures r[i].tasks[j].columnId == ColumnNumber(r[i])
    {
      assert r[i].tasks[j] in r[i].tasks;
    }
  }

  // ---------------------------------------------------------------------------
  // Creating a task

  /** The local copy of a task the store has just created with id `id`: status todo in
      column 1 at order 0, description and priority defaulted when the form leaves them
      empty. */
  function NewTask(id: int, boardId: Num, form: TaskForm): Task {
    Task(id, boardId, form.title,
         if form.description.Some? then form.description.value else "",
         if form.priority.Some? then form.priority.value else Medium,
         Todo, 1, 0)
  }

  /** The create step: push `t` on every column whose id is "1". */
  function AddToFirstColumn(cols: seq<Column>, t: Task): (r: seq<Column>)
    ensures SameFrame(r, cols)
  {
    seq(|cols|, i requires 0 <= i < |cols| =>
      if cols[i].id == "1" then cols[i].(tasks := cols[i].tasks + [t]) else cols[i])
  }

  /** A created task goes last in column "1" and columns "2" and "3" do not change; the
      new task has the store's id, status todo, column id 1 and order 0. */
  lemma CreateAppends(cols: seq<Column>, id: int, boardId: Num, form: TaskForm)
    requires Layout(cols)
    ensures var t := NewTask(id, boardId, form);
      var r := AddToFirstColumn(cols, t);
      Layout(r) && r == cols[0 := cols[0].(tasks := cols[0].tasks + [t])] &&
      t.id == id && t.status == Todo && t.columnId == 1 && t.orderNum == 0
  {
    var t := NewTask(id, boardId, form);
    var r := AddToFirstColumn(cols, t);
    LayoutNumbers(cols);
    assert r == cols[0 := cols[0].(tasks := cols[0].tasks + [t])];
  }

  /** Creating a task adds exactly its id to the board. */
  lemma CreateAddsId(cols: seq<Column>, id: int, boardId: Num, form: TaskForm)
    requires Layout(cols)
    ensures BoardIds(AddToFirstColumn(cols, NewTask(id, boardId, form))) == BoardIds(cols) + multiset{id}
  {
    var t := NewTask(id, boardId, form);
    var r := AddToFirstColumn(cols, t);
    CreateAppends(cols, id, boardId, form);
    var first := cols[0].(tasks := cols[0].tasks + [t]);
    BoardIdsUpdate(cols, 0, first);
    IdsConcat(cols[0].tasks, [t]);
    assert multiset(Ids(first.tasks)) == multiset(Ids(cols[0].tasks)) + multiset{id};
    forall e ensures BoardIds(r)[e] == (BoardIds(cols) + multiset{id})[e] {
      assert (BoardIds(r) + multiset(Ids(cols[0].tasks)))[e] == (BoardIds(cols) + multiset(Ids(first.tasks)))[e];
    }
  }

  /** Creating a task keeps the placement invariant: it enters the todo column as a todo
      task with column id 1. */
  lemma CreatePreservesPlacement(cols: seq<Column>, id: int, boardId: Num, form: TaskForm)
    requires Layout(cols)
    ensures StatusPlaced(cols) ==> StatusPlaced(AddToFirstColumn(cols, NewTask(id, boardId, form)))
    ensures Placed(cols) ==> Placed(AddToFirstColumn(cols, NewTask(id, boardId, form)))
  {
    var t := NewTask(id, boardId, form);
    var r := AddToFirstColumn(cols, t);
    CreateAppends(cols, id, boardId, form);
    LayoutNumbers(cols);
    assert forall j :: 0 <= j < |r[0].tasks| - 1 ==> r[0].tasks[j] == cols[0].tasks[j];
  }

  // ---------------------------------------------------------------------------
  // Batch save

  /** The first call, from `i` on, that the store rejects (`n` when it accepts them all).
      `respond(k)` is the store's answer to the `k`-th call of one save. */
  function FirstRejected(respond: nat -> bool, i: nat, n: nat): (r: nat)
    requires i <= n
    ensures i <= r <= n
    ensures forall k :: i <= k < r ==> respond(k)
    ensures r < n ==> !respond(r)
    decreases n - i
  {
    if i == n then n
    else if !respond(i) then i
    else FirstRejected(respond, i + 1, n)
  }

  /** The first rejection is the call that is rejected after all earlier ones were
      accepted. */
  lemma FirstRejectedAt(respond: nat -> bool, i: nat, n: nat)
    requires i <= n
    requires forall k :: 0 <= k < i ==> respond(k)
    requires i == n || !respond(i)
    ensures FirstRejected(respond, 0, n) == i
  {
  }

  /** Every call of the save is accepted. */
  predicate SaveSucceeds(queue: seq<PendingChange>, respond: nat -> bool) {
    forall k :: 0 <= k < |queue| ==> respond(k)
  }

  /** How many calls a save issues: all of them, or up to and including the first one
      the store rejects. */
  function SaveSent(queue: seq<PendingChange>, respond: nat -> bool): (n: nat)
    ensures n <= |queue|
    ensures n < |queue| ==> 1 <= n && !respond(n - 1)
  {
    var r := FirstRejected(respond, 0, |queue|);
    if r < |queue| then r + 1 else r
  }

  /** The `moveTask` calls replaying a queue, one per entry, in queue order. */
  function MoveCalls(queue: seq<PendingChange>): (calls: seq<RemoteCall>)
    ensures |calls| == |queue|
    ensures forall k :: 0 <= k < |queue| ==>
      calls[k] == MoveTask(queue[k].taskId, queue[k].newColumnId, queue[k].orderNum, queue[k].status)
  {
    if queue == [] then []
    else [MoveTask(queue[0].taskId, queue[0].newColumnId, queue[0].orderNum, queue[0].status)] + MoveCalls(queue[1..])
  }

  /** The queue after a save: empty after full success, untouched otherwise. */
  function SavedQueue(queue: seq<PendingChange>, respond: nat -> bool): seq<PendingChange> {
    if SaveSucceeds(queue, respond) then [] else queue
  }

  /** A save sends every entry when all are accepted, and otherwise stops right after the
      first rejected call, having sent an accepted prefix; the queue empties only on full
      success, and a failed save leaves every entry, sent or not, queued. */
  lemma SaveOutcome(queue: seq<PendingChange>, respond: nat -> bool)
    ensures SaveSent(queue, respond) <= |queue|
    ensures SaveSucceeds(queue, respond) <==> SaveSent(queue, respond) == |queue| && (queue == [] || respond(|queue| - 1))
    ensures !SaveSucceeds(queue, respond) ==>
      var n := SaveSent(queue, respond);
      n >= 1 && !respond(n - 1) && forall k :: 0 <= k < n - 1 ==> respond(k)
    ensures SavedQueue(queue, respond) == [] <==> SaveSucceeds(queue, respond) || queue == []
    ensures SaveSucceeds(queue, respond) ==> SavedQueue(queue, respond) == []
    ensures !SaveSucceeds(queue, respond) ==> SavedQueue(queue, respond) == queue
  {
  }

  /** Replaying a queue in two parts issues the same calls, in the same order, as
      replaying it at once. */
  lemma {:induction false} MoveCallsConcat(a: seq<PendingChange>, b: seq<PendingChange>)
    ensures MoveCalls(a + b) == MoveCalls(a) + MoveCalls(b)
  {
    if a != [] {
      assert (a + b)[1..] == a[1..] + b;
      MoveCallsConcat(a[1..], b);
    } else {
      assert a + b == b;
    }
  }

  // ---------------------------------------------------------------------------
  // Scenarios

  /** Loading one todo and one done task fills columns "1" and "3" and leaves "2" empty. */
  lemma LoadScenario(a: Task, b: Task)
    requires a.status == Todo && b.status == Done
    ensures var r := LoadColumns(InitialColumns(), [a, b]);
      r[0].tasks == [a] && r[1].tasks == [] && r[2].tasks == [b]
  {
    var ts := [a, b];
    assert [a] + [b] == ts && [] + [a] == [a];
    assert Filter(ts, Todo) == [a] by {
      FilterSnoc([], a, Todo);
      FilterSnoc([a], b, Todo);
    }
    assert Filter(ts, InProgress) == [] by {
      FilterSnoc([], a, InProgress);
      FilterSnoc([a], b, InProgress);
    }
    assert Filter(ts, Done) == [b] by {
      FilterSnoc([], a, Done);
      FilterSnoc([a], b, Done);
    }
    var cols := InitialColumns();
    assert cols[0].status == Todo && cols[1].status == InProgress && cols[2].status == Done;
    var r := LoadColumns(cols, ts);
    assert r[0].tasks == Filter(ts, Todo) && r[1].tasks == Filter(ts, InProgress) && r[2].tasks == Filter(ts, Done);
  }

  /** Moving task 7 from column "1" to column "2" of a board with no other tasks. */
  lemma MoveScenario(t: Task)
    requires t.id == 7 && t.status == Todo && t.columnId == 1
    ensures var cols := InitialColumns()[0 := InitialColumns()[0].(tasks := [t])];
      NumericIds(cols) &&
      var r := Move(BoardState(cols, []), 7, Some("1"), Some("2"));
      r.columns[0].tasks == [] &&
      r.columns[1].tasks == [t.(status := InProgress, columnId := 2)] &&
      r.pending == [PendingChange(7, 2, 1, InProgress)]
  {
    var cols := InitialColumns()[0 := InitialColumns()[0].(tasks := [t])];
    LayoutNumbers(cols);
    var s := BoardState(cols, []);
    assert ColumnIndex(cols, Some("1")) == Some(0);
    assert ColumnIndex(cols[1..], Some("2")) == Some(0);
    assert ColumnIndex(cols, Some("2")) == Some(1);
    assert TaskIndex(cols[0].tasks, 7) == Some(0);
    assert MoveApplies(s, 7, Some("1"), Some("2"));
    var r := Relocate(cols, 0, 1, 0);
    assert Move(s, 7, Some("1"), Some("2")).columns == r;
    RelocateShape(cols, 0, 1, 0);
  }
}
