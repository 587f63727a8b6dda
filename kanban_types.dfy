/** Entities of the Kanban board page: tasks, the three fixed columns, the queue of
    pending moves and the calls the page makes to the remote task store. */
module KanbanTypes {

  datatype Option<T> = None | Some(value: T)

  /** A JavaScript number as far as the page uses one: an integer or NaN. */
  datatype Num = NaN | Int(value: int)

  /** JavaScript truthiness of a number: false for 0 and NaN. */
  predicate Truthy(n: Num) {
    n.Int? && n.value != 0
  }

  /** Every status the task table allows. */
  datatype TaskStatus = Todo | InProgress | Done | Blocked | Archived

  datatype Priority = Low | Medium | High | Urgent

  /** The fields of a task that the board page reads or writes; the store keeps more. */
  datatype Task = Task(
    id: int,
    boardId: Num,
    title: string,
    description: string,
    priority: Priority,
    status: TaskStatus,
    columnId: int,
    orderNum: int)

  /** One column of the board: a string id, a display title, the status it shows and its
      ordered list of tasks. */
  datatype Column = Column(id: string, title: string, status: TaskStatus, tasks: seq<Task>)

  /** A move made on the page and not yet sent to the store. */
  datatype PendingChange = PendingChange(taskId: int, newColumnId: int, orderNum: int, status: TaskStatus)

  /** What the board metadata fetch returns. */
  datatype BoardMeta = BoardMeta(id: int, name: string, description: string)

  /** The fields of the task form that the create path reads. */
  datatype TaskForm = TaskForm(title: string, description: Option<string>, priority: Option<Priority>)

  /** A call issued by the page to the remote store, in the order issued. */
  datatype RemoteCall =
    | GetBoardById(boardId: Num)
    | GetTasksByBoard(boardId: Num)
    | MoveTask(taskId: int, columnId: int, orderNum: int, status: TaskStatus)
    | CreateTask(boardId: Num, title: string, description: Option<string>, columnId: int, priority: Option<Priority>)

  /** The three columns the page starts with, all empty. */
  function InitialColumns(): (cols: seq<Column>)
    ensures |cols| == 3
    ensures forall i :: 0 <= i < |cols| ==> cols[i].tasks == []
  {
    [ Column("1", "To Do", Todo, []),
      Column("2", "In Progress", InProgress, []),
      Column("3", "Done", Done, []) ]
  }

  /** `a` and `b` have the same columns (ids, titles, statuses) in the same order,
      whatever tasks they hold. */
  predicate SameFrame(a: seq<Column>, b: seq<Column>) {
    |a| == |b| &&
    forall i :: 0 <= i < |a| ==> a[i].id == b[i].id && a[i].title == b[i].title && a[i].status == b[i].status
  }

  /** The fixed three-column layout of the page. */
  predicate Layout(cols: seq<Column>) {
    SameFrame(cols, InitialColumns())
  }

  predicate IsDigits(s: string) {
    forall i :: 0 <= i < |s| ==> '0' <= s[i] <= '9'
  }

  /** JavaScript `Number(s)` for a string of decimal digits (the empty string gives 0). */
  function DecimalValue(s: string): (n: nat)
    requires IsDigits(s)
    ensures |s| == 1 ==> n == (s[0] as int) - ('0' as int)
  {
    if s == [] then 0
    else 10 * DecimalValue(s[..|s| - 1]) + ((s[|s| - 1] as int) - ('0' as int))
  }

  predicate NumericIds(cols: seq<Column>) {
    forall i :: 0 <= i < |cols| ==> IsDigits(cols[i].id)
  }

  /** The numeric column id the page writes into tasks and pending changes. */
  function ColumnNumber(c: Column): int
    requires IsDigits(c.id)
  {
    DecimalValue(c.id)
  }

  lemma LayoutNumbers(cols: seq<Column>)
    requires Layout(cols)
    ensures NumericIds(cols)
    ensures forall i :: 0 <= i < 3 ==> ColumnNumber(cols[i]) == i + 1
    ensures forall i, j :: 0 <= i < 3 && 0 <= j < 3 && i != j ==> cols[i].status != cols[j].status && cols[i].id != cols[j].id
  {
    assert cols[0].id == "1" && cols[1].id == "2" && cols[2].id == "3";
  }

  /** Every task in the column carries the column's status. */
  predicate StatusAgrees(c: Column) {
    forall j :: 0 <= j < |c.tasks| ==> c.tasks[j].status == c.status
  }

  /** Every task in the column carries the column's status and its numeric id. */
  predicate Agrees(c: Column) {
    IsDigits(c.id) && StatusAgrees(c) &&
    forall j :: 0 <= j < |c.tasks| ==> c.tasks[j].columnId == ColumnNumber(c)
  }

  /** The placement invariant: each task's status and column id agree with the column
      that holds it. */
  predicate Placed(cols: seq<Column>) {
    forall i :: 0 <= i < |cols| ==> Agrees(cols[i])
  }

  predicate StatusPlaced(cols: seq<Column>) {
    forall i :: 0 <= i < |cols| ==> StatusAgrees(cols[i])
  }

  /** The task ids of a list, in order. */
  function Ids(ts: seq<Task>): (r: seq<int>)
    ensures |r| == |ts|
  {
    if ts == [] then [] else Ids(ts[..|ts| - 1]) + [ts[|ts| - 1].id]
  }

  /** The multiset of task ids held by the board's columns. */
  function BoardIds(cols: seq<Column>): multiset<int> {
    if cols == [] then multiset{} else BoardIds(cols[..|cols| - 1]) + multiset(Ids(cols[|cols| - 1].tasks))
  }

  lemma {:induction false} IdsConcat(a: seq<Task>, b: seq<Task>)
    ensures Ids(a + b) == Ids(a) + Ids(b)
  {
    if b != [] {
      assert (a + b)[..|a + b| - 1] == a + b[..|b| - 1];
      IdsConcat(a, b[..|b| - 1]);
    } else {
      assert a + b == a;
    }
  }

  /** Replacing column `i` by `c` trades the ids of the old column for those of `c`. */
  lemma {:induction false} BoardIdsUpdate(cols: seq<Column>, i: nat, c: Column)
    requires i < |cols|
    ensures BoardIds(cols[i := c]) + multiset(Ids(cols[i].tasks)) == BoardIds(cols) + multiset(Ids(c.tasks))
  {
    var n := |cols|;
    var cols' := cols[i := c];
    if i < n - 1 {
      var pre := cols[..n - 1];
      assert cols'[..n - 1] == pre[i := c];
      assert cols'[n - 1] == cols[n - 1];
      BoardIdsUpdate(pre, i, c);
      BagAddBoth(BoardIds(pre[i := c]), BoardIds(pre), multiset(Ids(cols[n - 1].tasks)),
                 multiset(Ids(cols[i].tasks)), multiset(Ids(c.tasks)));
    } else {
      assert cols'[..n - 1] == cols[..n - 1];
    }
  }

  /** Multiset union is commutative and associative: the same `l` added on both sides keeps
      an equation between unions. */
  lemma BagAddBoth(x: multiset<int>, y: multiset<int>, l: multiset<int>, w: multiset<int>, v: multiset<int>)
    requires x + w == y + v
    ensures (x + l) + w == (y + l) + v
  {
    forall k ensures ((x + l) + w)[k] == ((y + l) + v)[k] {
      assert (x + w)[k] == (y + v)[k];
    }
  }
}
