# Kanban board page: a verified model of its task-board state

This project models the state logic of the board page of a small Kanban dashboard
(`app/dashboard/board/page.tsx`). The page shows three fixed columns, "To Do", "In Progress"
and "Done". Their string ids are `"1"`, `"2"` and `"3"` and their statuses are `todo`,
`in_progress` and `done`. Each column holds an ordered list of tasks. Beside the columns the
page keeps a first-in, first-out queue of pending changes.

The page has four operations:

- **Load.** When the board id from the query string is usable, the page fetches the board
  metadata and the board's tasks. It then refills every column with the fetched tasks of
  that column's status.
- **Move.** A task is moved between columns on the page only. Its status and numeric column
  id are rewritten, and a pending change is queued.
- **Batch save.** The queued changes are replayed to the remote store one after another. The
  queue is emptied only if every call succeeds.
- **Create.** A new task is written to the store at once. When the store answers with an
  id, the task is appended to column `"1"`.

The project has three files:

- `kanban_types.dfy` (module `KanbanTypes`): the entities (tasks, columns, pending changes,
  remote calls), the fixed layout, JavaScript `Number` on digit strings, the placement
  predicates and the multiset of task ids held by a board.
- `board_logic.dfy` (module `BoardLogic`): every operation as a function from the old state
  to the new one (`Move`, `LoadColumns`, `AddToFirstColumn`, the batch-save functions), and
  the lemmas about them.
- `board_page.dfy` (module `Page`): class `BoardPage`, whose fields are the page's state.
  Each event handler is a method that updates those fields. Each method's `ensures` ties the
  new state to the functions of `BoardLogic` and keeps the invariant `Valid()`: the fixed
  layout, and every task carrying its column's status.

The remote store is not modelled. The page's calls to it are appended to the field
`calls`, and the store's answers are parameters. `LoadBoardData` receives the fetched
metadata and tasks. `BatchSave` receives `respond(k)`, the outcome of the `k`-th `moveTask`
call: `false` means the call's promise rejects, so control reaches the `catch` at
`app/dashboard/board/page.tsx:108`. A call that resolves with a failure value counts as
accepted, and the loop goes on. `HandleTaskSave` receives the id returned by `createTask`, or `None` when that call
throws.

Two behaviours of the code bear on the placement invariant:

- A loaded task keeps the `column_id` the store sent. The load only filters by status, so
  the invariant kept by the page covers status alone. `LoadPlacedWhenConsistent` states when
  the column ids agree as well.
- A moved task gets a new `status` and `column_id`, but its `order_num` field is not
  updated locally. The order number goes only into the pending change.

## Model

| member | source | states |
|---|---|---|
| KanbanTypes.InitialColumns | app/dashboard/board/page.tsx:35-39 | The page starts with exactly three columns, all empty. |
| KanbanTypes.LayoutNumbers | app/dashboard/board/page.tsx:35-39 | In the fixed layout, `Number(id)` of the columns is 1, 2 and 3, and the three ids and statuses are pairwise distinct. |
| KanbanTypes.DecimalValue | app/dashboard/board/page.tsx:82 | `Number` of a one-digit column id is that digit's value. |
| KanbanTypes.IdsConcat | app/dashboard/board/page.tsx:78-84 | The id list of a concatenation is the concatenation of the id lists. |
| KanbanTypes.BoardIdsUpdate | app/dashboard/board/page.tsx:69-84 | Replacing one column's list trades that list's ids for the new list's ids in the board's id multiset. |
| BoardLogic.ColumnIndex | app/dashboard/board/page.tsx:70-71 | `find` by column id returns the first column whose id equals the key, or nothing when no id matches. `undefined` matches no column. |
| BoardLogic.TaskIndex | app/dashboard/board/page.tsx:75-76 | `findIndex` returns the first position holding the task id, or -1 (`None`) exactly when no task has that id. |
| BoardLogic.NeighbourId | app/dashboard/board/page.tsx:205-213 | `columns[i ± 1]?.id` is defined exactly when the neighbour index is inside the column list, and is then that neighbouring column's id. |
| BoardLogic.RemoveAt | app/dashboard/board/page.tsx:78 | `splice(k, 1)` shortens the list by one and keeps the elements before and after `k` in order. |
| BoardLogic.RemoveAtIds | app/dashboard/board/page.tsx:78 | Splicing a task out removes exactly one copy of its id. |
| KanbanTypes.Truthy | app/dashboard/board/page.tsx:49 | JavaScript truthiness of the board id: false exactly for 0 and NaN. It has no contract of its own; `Page.BoardPage.LoadBoardData` states the skip it guards. |
| BoardLogic.Retagged | app/dashboard/board/page.tsx:79-83 | The moved task takes the destination's status and `Number(id)`, and every other field is kept. |
| BoardLogic.Relocate | app/dashboard/board/page.tsx:78-84 | The splice and push keep every column's id, title and status. `RelocateShape`, `RelocateConservesIds`, `RelocatePreservesPlacement` and `RelocateOrigin` state the rest of its behaviour. |
| BoardLogic.Move | app/dashboard/board/page.tsx:68-94 | A move keeps the columns' ids, titles and statuses. It leaves the queue as it was or appends exactly one entry. `MoveNoOpIff`, `MoveIndices`, `MoveQueues`, `MoveConservesIds` and `MovePreservesPlacement` state the rest. |
| BoardLogic.MoveNoOpIff | app/dashboard/board/page.tsx:70-76 | A move leaves columns and queue unchanged if and only if a column id does not resolve or the task is not in the source column. |
| BoardLogic.MoveIndices | app/dashboard/board/page.tsx:70-78 | A move that applies works on the columns `find` returns for `from` and `to` (the first ones with those ids) and on the position `findIndex` returns (the task's first position in the source). |
| BoardLogic.MoveEffect | app/dashboard/board/page.tsx:78-93 | On the fixed layout, a move that applies relocates the task, queues one change with the destination's new length, and keeps the layout and the status invariant. |
| BoardLogic.RelocateShape | app/dashboard/board/page.tsx:78-84 | The task leaves the source list and is appended last to the destination list with the destination's status and numeric id, all other fields kept. Other tasks keep their order, other columns are untouched, and column ids, titles and statuses never change. Within one column, the task goes to the end of the spliced list. |
| BoardLogic.RelocateConservesIds | app/dashboard/board/page.tsx:78-84 | The splice and push preserve the multiset of task ids over all columns. |
| BoardLogic.MoveConservesIds | app/dashboard/board/page.tsx:68-94 | No move, applied or not, creates or loses a task: the multiset of ids over all columns is unchanged. |
| BoardLogic.RelocatePreservesPlacement | app/dashboard/board/page.tsx:79-84 | After the splice and push, every task still agrees with its column in status, and also in column id when the board agreed before. |
| BoardLogic.RelocateOrigin | app/dashboard/board/page.tsx:78-84 | Every task after the splice and push is either the moved task, last in the destination, or a task that the same column already held. |
| BoardLogic.MovePreservesPlacement | app/dashboard/board/page.tsx:79-84 | Moves keep the placement invariant (status, and status plus column id). |
| BoardLogic.MoveQueues | app/dashboard/board/page.tsx:88-93 | A move that applies appends exactly one change: task id, `Number(toColumn.id)`, the destination status, and the destination's length after the push as `orderNum`. The `orderNum` is at least 1, and it is one more than the old length unless source and destination are the same. Earlier entries are untouched. |
| BoardLogic.MoveWithinColumn | app/dashboard/board/page.tsx:78-84 | A move within one column keeps the column's length and its multiset of ids, and puts the task last: it is not duplicated. |
| BoardLogic.MoveOffTheEdge | app/dashboard/board/page.tsx:202-217 | The left arrow of the first column and the right arrow of the last are disabled, so the page never moves to `undefined`. Were such a call made, the handler's own guard would make it change nothing. |
| BoardLogic.Filter | app/dashboard/board/page.tsx:61 | `tasks.filter(task => task.status === status)`. It has no contract of its own; `FilterMembers`, `FilterConcat`, `FilterSnoc` and `FilterLastBag` state its behaviour. |
| BoardLogic.FilterSnoc | app/dashboard/board/page.tsx:61 | Filtering one more fetched task appends it to the filtered list exactly when it has the status. |
| BoardLogic.FilterMembers | app/dashboard/board/page.tsx:61 | A task is in the filtered list if and only if it was fetched and has the given status. |
| BoardLogic.FilterLastBag | app/dashboard/board/page.tsx:61 | The filtered multiset grows by the last fetched task exactly when that task has the status. |
| BoardLogic.FilterConcat | app/dashboard/board/page.tsx:61 | Filtering keeps fetch order: the filter of a concatenation is the concatenation of the filters. |
| BoardLogic.StatusPartition | app/dashboard/board/page.tsx:59-62 | The five status filters split the fetched tasks: their multisets add up to the fetched multiset. |
| BoardLogic.PartitionStep | app/dashboard/board/page.tsx:59-62 | One more fetched task goes to exactly one of the five status parts. |
| BoardLogic.LoadKeepsInvariant | app/dashboard/board/page.tsx:59-62 | A load keeps the three-column layout, and each column holds only tasks of its own status. |
| BoardLogic.LoadColumns | app/dashboard/board/page.tsx:59-62 | The load keeps every column's id, title and status (`...column`). |
| BoardLogic.LoadPartitions | app/dashboard/board/page.tsx:59-62 | After a load, each column holds exactly the fetched tasks of its status, in fetch order (the column's list is the status filter of the fetched list). Blocked and archived tasks are in no column, no task is in two columns, and the columns plus the dropped tasks are the fetched multiset. |
| BoardLogic.LoadPlacedWhenConsistent | app/dashboard/board/page.tsx:59-62 | If the store's column ids match the statuses, the loaded board satisfies the full placement invariant. |
| BoardLogic.NewTask | app/dashboard/board/page.tsx:128-145 | The local copy of a created task. It has no contract of its own; `CreateAppends` states its id, status `todo`, column id 1 and order 0, and `CreatePreservesPlacement` states that it agrees with column `"1"`. |
| BoardLogic.AddToFirstColumn | app/dashboard/board/page.tsx:148-156 | The create step keeps every column's id, title and status. `CreateAppends` and `CreateAddsId` state what it appends. |
| BoardLogic.CreateAppends | app/dashboard/board/page.tsx:128-156 | A created task is appended last to column `"1"` with the store's id, status `todo`, column id 1 and order 0. Columns `"2"` and `"3"` are unchanged. |
| BoardLogic.CreateAddsId | app/dashboard/board/page.tsx:148-156 | Creating adds exactly the new id to the board's id multiset. |
| BoardLogic.CreatePreservesPlacement | app/dashboard/board/page.tsx:134-144 | The created task agrees with column `"1"`, so the placement invariants are kept. |
| BoardLogic.FirstRejected | app/dashboard/board/page.tsx:98-106 | The first rejected call: all earlier calls were accepted, and it was rejected unless all were accepted. |
| BoardLogic.FirstRejectedAt | app/dashboard/board/page.tsx:98-106 | The first rejection is the call that fails after all earlier calls were accepted. |
| BoardLogic.MoveCalls | app/dashboard/board/page.tsx:98-105 | One `moveTask` call per queued change, in queue order, carrying that change's task id, column id, order number and status. |
| BoardLogic.MoveCallsConcat | app/dashboard/board/page.tsx:98-105 | Replaying two parts of a queue one after the other issues the calls of replaying the whole queue. |
| BoardLogic.SaveSent | app/dashboard/board/page.tsx:98-106 | A save issues at most one call per queued change. When it stops early, the last call it issued was rejected. `SaveOutcome` states the rest. |
| BoardLogic.SavedQueue | app/dashboard/board/page.tsx:98-107 | The queue after a save. It has no contract of its own; `SaveOutcome` states that it empties exactly on full success and is otherwise kept whole. |
| BoardLogic.SaveOutcome | app/dashboard/board/page.tsx:96-111 | A save issues all calls when every one is accepted, and otherwise stops right after the first rejection, all calls before it accepted. The queue becomes empty exactly on full success (or when it was empty). After a failed save the queue is kept whole, including the entries already sent. |
| BoardLogic.LoadScenario | app/dashboard/board/page.tsx:59-62 | Loading one `todo` and one `done` task puts them in columns `"1"` and `"3"` and leaves `"2"` empty. |
| BoardLogic.MoveScenario | app/dashboard/board/page.tsx:68-94 | Moving task 7 from `"1"` to `"2"` empties `"1"`, puts task 7 in `"2"` as `in_progress` with column id 2, and queues `{7, 2, 1, in_progress}`. |
| Page.BoardPage.constructor | app/dashboard/board/page.tsx:32-45 | The page starts with the three empty columns, an empty queue, no metadata, the title "Loading..." and the dialog closed. |
| Page.BoardPage.LoadBoardData | app/dashboard/board/page.tsx:47-66 | With board id 0 or NaN nothing happens. Otherwise both fetches are issued, the metadata and title are set when the board exists, the columns become `LoadColumns` of the fetched tasks, and the queue is kept. |
| Page.BoardPage.MoveTaskToColumn | app/dashboard/board/page.tsx:68-94 | The new columns and queue are `Move` of the old ones. No remote call is made, and the invariant is kept. |
| Page.BoardPage.BatchSave | app/dashboard/board/page.tsx:96-111 | The calls issued are the queue's `moveTask` calls up to and including the first rejected one, in order. Success is reported exactly when all are accepted. The queue is emptied on success and left unchanged otherwise, and the columns are untouched. |
| Page.BoardPage.HandleTaskSave | app/dashboard/board/page.tsx:113-162 | One `createTask` call with column id 1. On success the local task is appended to column `"1"` and the dialog closes. On failure the columns and dialog are unchanged, and the queue is never touched. |

## Left out

- Rendering, React hooks, dialogs and the header component are not modelled: they only display state.
- React's asynchronous state updates are not modelled. Each handler's updates are applied at once, and the handlers read the current state rather than the state captured when the page was rendered.
- The page keeps no guard against a load overwriting unsaved moves or against a double save. The model runs handlers one at a time, so it has no such interleavings. One concrete effect: `setPendingChanges([])` at `app/dashboard/board/page.tsx:107` uses the plain setter. A move made while a save is still waiting is therefore dropped from the queue without being saved.
- MoveTaskToColumn: the in-place `splice` and `push` on a tasks array shared with the previous React state are not modelled. The model replaces the column values, so the aliasing with the old state object is not captured.
- LoadBoardData: a fetch that throws is not modelled; both fetches are assumed to answer. The conversion of the query string with `Number`, and non-integer board ids, are not modelled: the board id is given as an integer or NaN.
- The `console.error` reports when a save fails (`app/dashboard/board/page.tsx:109`) or a create fails (`app/dashboard/board/page.tsx:160`) are not modelled: logging has no effect on the page's state.
- The network actions `getBoardById`, `getTasksByBoard`, `moveTask` and `createTask` are not modelled. They are recorded in `calls`, and their answers are parameters.
- Task fields the page only copies or fills cosmetically are not modelled: timestamps, checklist JSON, due date, estimated and completion times, markdown content and the comments flag. The `due_date` argument of `createTask` is left out for the same reason.
- The edit branch of `handleTaskSave` is not modelled. `selectedTask` is never set on this page, so the branch cannot run.
- `Number` of a column id is modelled only for digit strings (`DecimalValue`). Column ids are the fixed strings "1", "2" and "3".
- The task table's schema is used only for its status and priority enumerations (`src-tauri/src/lib.rs:64-65`). The rest of that file is not part of this model.
