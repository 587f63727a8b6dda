/** The board page's state as an object: its columns, its queue of pending moves, the board
    metadata it shows, whether the task dialog is open and the calls it has made to the
    remote store. Each event handler of the page is a method that updates these fields. */
module Page {
  import opened KanbanTypes
  import opened BoardLogic

  class BoardPage {
    /** The board id read from the query string, already converted with `Number`. */
    const boardId: Num
    var boardMetadata: Option<BoardMeta>
    var boardTitle: string
    var columns: seq<Column>
    var pendingChanges: seq<PendingChange>
    var dialogOpen: bool
    /** Every call made to the remote store so far, oldest first. */
    var calls: seq<RemoteCall>

    /** The three fixed columns, each holding only tasks of its own status. */
    ghost predicate Valid()
      reads this
    {
      Layout(columns) && StatusPlaced(columns)
    }

    function State(): BoardState
      reads this
    {
      BoardState(columns, pendingChanges)
    }

    /** The page as first rendered. */
    constructor (boardId: Num)
      ensures Valid()
      ensures this.boardId == boardId && columns == InitialColumns() && pendingChanges == []
      ensures boardMetadata == None && boardTitle == "Loading..." && !dialogOpen && calls == []
    {
      this.boardId := boardId;
      boardMetadata := None;
      boardTitle := "Loading...";
      columns := InitialColumns();
      pendingChanges := [];
      dialogOpen := false;
      calls := [];
    }

    /** The load effect. With no usable board id (0 or NaN) nothing happens. Otherwise the
        board metadata is fetched (and shown when the store has the board), then the tasks,
        and every column is refilled with the fetched tasks of its status. The pending queue
        is kept. `board` and `fetched` are the store's answers. */
    method LoadBoardData(board: Option<BoardMeta>, fetched: seq<Task>)
      requires Valid()
      modifies this
      ensures Valid()
      ensures !Truthy(boardId) ==>
        columns == old(columns) && calls == old(calls) &&
        boardMetadata == old(boardMetadata) && boardTitle == old(boardTitle)
      ensures Truthy(boardId) ==>
        calls == old(calls) + [GetBoardById(boardId), GetTasksByBoard(boardId)] &&
        columns == LoadColumns(old(columns), fetched)
      ensures Truthy(boardId) && board.Some? ==> boardMetadata == board && boardTitle == board.value.name
      ensures board.None? ==> boardMetadata == old(boardMetadata) && boardTitle == old(boardTitle)
      ensures pendingChanges == old(pendingChanges) && dialogOpen == old(dialogOpen)
    {
      if !Truthy(boardId) {
        return;
      }
      calls := calls + [GetBoardById(boardId)];
      if board.Some? {
        boardMetadata := board;
        boardTitle := board.value.name;
      }
      calls := calls + [GetTasksByBoard(boardId)];
      LoadKeepsInvariant(columns, fetched);
      columns := LoadColumns(columns, fetched);
    }

    /** `moveTaskToColumn`: find both columns and the task, splice the task out of the
        source list, push it, retagged, on the destination list and queue the change. */
    method MoveTaskToColumn(taskId: int, fromColumnId: Option<string>, toColumnId: Option<string>)
      requires Valid()
      modifies this
      ensures Valid()
      ensures NumericIds(old(columns))
      ensures State() == Move(old(State()), taskId, fromColumnId, toColumnId)
      ensures calls == old(calls) && boardMetadata == old(boardMetadata) && boardTitle == old(boardTitle)
      ensures dialogOpen == old(dialogOpen)
    {
      LayoutNumbers(columns);
      ghost var before := State();
      var fromColumn := ColumnIndex(columns, fromColumnId);
      var toColumn := ColumnIndex(columns, toColumnId);
      if fromColumn.None? || toColumn.None? {
        assert !MoveApplies(before, taskId, fromColumnId, toColumnId);
        return;
      }
      var f, t := fromColumn.value, toColumn.value;
      var taskIndex := TaskIndex(columns[f].tasks, taskId);
      if taskIndex.None? {
        assert !MoveApplies(before, taskId, fromColumnId, toColumnId);
        return;
      }
      var k := taskIndex.value;
      var task := columns[f].tasks[k];
      var cols := columns[f := columns[f].(tasks := RemoveAt(columns[f].tasks, k))];
      var destination := cols[t];
      var updatedTask := task.(status := destination.status, columnId := DecimalValue(destination.id));
      cols := cols[t := destination.(tasks := destination.tasks + [updatedTask])];
      var change := PendingChange(taskId, DecimalValue(destination.id), |cols[t].tasks|, destination.status);
      MoveEffect(before, taskId, fromColumnId, toColumnId, f, t, k);
      assert cols == Relocate(before.columns, f, t, k);
      columns := cols;
      pendingChanges := pendingChanges + [change];
    }

    /** `handleBatchSave`: send one `moveTask` per queued change, oldest first, waiting for
        each; stop at the first call the store rejects. The queue is emptied only when every
        call was accepted; after a rejection it is left exactly as it was, including the
        changes already sent. `respond(k)` is false when the `k`-th call's promise rejects,
        which ends the loop in the `catch`; a call that resolves, whatever it returns,
        counts as accepted. */
    method BatchSave(respond: nat -> bool) returns (saved: bool)
      requires Valid()
      modifies this
      ensures Valid()
      ensures saved == SaveSucceeds(old(pendingChanges), respond)
      ensures calls == old(calls) + MoveCalls(old(pendingChanges)[..SaveSent(old(pendingChanges), respond)])
      ensures pendingChanges == SavedQueue(old(pendingChanges), respond)
      ensures columns == old(columns) && boardMetadata == old(boardMetadata)
      ensures boardTitle == old(boardTitle) && dialogOpen == old(dialogOpen)
    {
      var queue := pendingChanges;
      var i := 0;
      saved := true;
      while i < |queue|
        invariant 0 <= i <= |queue|
        invariant forall k :: 0 <= k < i ==> respond(k)
        invariant calls == old(calls) + MoveCalls(queue[..i])
        invariant saved && pendingChanges == queue && columns == old(columns)
        invariant boardMetadata == old(boardMetadata) && boardTitle == old(boardTitle) && dialogOpen == old(dialogOpen)
      {
        var change := queue[i];
        calls := calls + [MoveTask(change.taskId, change.newColumnId, change.orderNum, change.status)];
        assert queue[..i + 1] == queue[..i] + [change];
        MoveCallsConcat(queue[..i], [change]);
        if !respond(i) {
          saved := false;
          FirstRejectedAt(respond, i, |queue|);
          return;
        }
        i := i + 1;
      }
      FirstRejectedAt(respond, i, |queue|);
      assert queue[..i] == queue;
      pendingChanges := [];
    }

    /** `handleTaskSave` for a new task: the task is created in the store at once, in column
        1; when the store returns its id, the local copy is pushed on column "1" and the
        dialog closes. When the call fails nothing else changes. `created` is the store's
        answer: the new id, or `None` when the call failed. */
    method HandleTaskSave(form: TaskForm, created: Option<int>)
      requires Valid()
      modifies this
      ensures Valid()
      ensures calls == old(calls) + [CreateTask(boardId, form.title, form.description, 1, form.priority)]
      ensures created.Some? ==>
        columns == AddToFirstColumn(old(columns), NewTask(created.value, boardId, form)) && !dialogOpen
      ensures created.None? ==> columns == old(columns) && dialogOpen == old(dialogOpen)
      ensures pendingChanges == old(pendingChanges) && boardMetadata == old(boardMetadata)
      ensures boardTitle == old(boardTitle)
    {
      calls := calls + [CreateTask(boardId, form.title, form.description, 1, form.priority)];
      if created.None? {
        return;
      }
      var newTask := NewTask(created.value, boardId, form);
      CreateAppends(columns, created.value, boardId, form);
      CreatePreservesPlacement(columns, created.value, boardId, form);
      columns := AddToFirstColumn(columns, newTask);
      dialogOpen := false;
    }
  }
}
