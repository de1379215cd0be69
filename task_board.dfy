/** The task board: tasks in three status columns, a move menu per task and
    the progress bar. */
module TaskBoard {
  import opened Base

  datatype TaskStatus = Todo | InProgress | Completed
  datatype Priority = Low | Medium | High

  datatype Task = Task(id: string, title: string, status: TaskStatus, priority: Priority)

  /** `prev.map(task => task.id === taskId ? {...task, status} : task)`. */
  function WithStatus(tasks: seq<Task>, id: string, status: TaskStatus): (r: seq<Task>)
    ensures |r| == |tasks|
    ensures forall i :: 0 <= i < |tasks| && tasks[i].id == id ==> r[i] == tasks[i].(status := status)
    ensures forall i :: 0 <= i < |tasks| && tasks[i].id != id ==> r[i] == tasks[i]
  {
    if tasks == [] then []
    else [if tasks[0].id == id then tasks[0].(status := status) else tasks[0]] + WithStatus(tasks[1..], id, status)
  }

  /** A move for an id no task has changes nothing. */
  lemma UnknownIdUnchanged(tasks: seq<Task>, id: string, status: TaskStatus)
    requires forall i :: 0 <= i < |tasks| ==> tasks[i].id != id
    ensures WithStatus(tasks, id, status) == tasks
  {
  }

  /** Making the same move twice is making it once. */
  lemma MoveIdempotent(tasks: seq<Task>, id: string, status: TaskStatus)
    ensures WithStatus(WithStatus(tasks, id, status), id, status) == WithStatus(tasks, id, status)
  {
  }

  /** A later move of the same task overrides an earlier one. */
  lemma LastMoveWins(tasks: seq<Task>, id: string, s1: TaskStatus, s2: TaskStatus)
    ensures WithStatus(WithStatus(tasks, id, s1), id, s2) == WithStatus(tasks, id, s2)
  {
  }

  /** One column of `groupedTasks`. */
  function Column(tasks: seq<Task>, status: TaskStatus): (r: seq<Task>)
    ensures IsSubsequence(r, tasks) && |r| <= |tasks|
    ensures forall i :: 0 <= i < |r| ==> r[i] in tasks && r[i].status == status
    ensures forall i :: 0 <= i < |tasks| && tasks[i].status == status ==> tasks[i] in r
    ensures forall x: Task :: multiset(r)[x] == if x.status == status then multiset(tasks)[x] else 0
  {
    FilterIsSubsequence(tasks, (t: Task) => t.status == status);
    FilterMultiplicity(tasks, (t: Task) => t.status == status);
    Filter(tasks, (t: Task) => t.status == status)
  }

  /** The three columns together hold every task exactly once. */
  lemma ColumnsPartition(tasks: seq<Task>)
    ensures |Column(tasks, Todo)| + |Column(tasks, InProgress)| + |Column(tasks, Completed)| == |tasks|
  {
    CountThree(tasks, (t: Task) => t.status == Todo, (t: Task) => t.status == InProgress,
               (t: Task) => t.status == Completed);
  }

  /** `progress`: the completed share in percent (`Percent`), 0 for an empty board. */
  function Progress(tasks: seq<Task>): (p: real)
    ensures tasks == [] ==> p == 0.0
    ensures 0.0 <= p <= 100.0
    ensures tasks != [] && |Column(tasks, Completed)| == |tasks| ==> p == 100.0
    ensures Column(tasks, Completed) == [] ==> p == 0.0
  {
    if tasks == [] then 0.0 else Percent(|Column(tasks, Completed)|, |tasks|)
  }

  /** `(completed / total) * 100` for a non-empty board: the share out of 100. */
  function Percent(completed: nat, total: nat): (share: real)
    requires 0 < total && completed <= total
    ensures 0.0 <= share <= 100.0
    ensures share * (total as real) == (completed as real) * 100.0
    ensures completed == total ==> share == 100.0
    ensures completed == 0 ==> share == 0.0
  {
    var q := completed as real / total as real;
    ProgressBounds(completed as real, total as real, q);
    q * 100.0
  }

  lemma ProgressBounds(c: real, t: real, q: real)
    requires 0.0 <= c <= t && 0.0 < t
    requires q == c / t
    ensures 0.0 <= q * 100.0 <= 100.0
    ensures (q * 100.0) * t == c * 100.0
    ensures c == t ==> q * 100.0 == 100.0
    ensures c == 0.0 ==> q == 0.0
  {
    ShareAtMostOne(c, t, q);
    ShareNonNegative(c, t, q);
    assert q * t == c;
    assert (q * 100.0) * t == (q * t) * 100.0;
  }

  /** A positive factor can be cancelled from both sides of an inequality. */
  lemma CancelPositive(x: real, y: real, t: real)
    requires 0.0 < t && x * t <= y * t
    ensures x <= y
  {
  }

  lemma ShareAtMostOne(c: real, t: real, q: real)
    requires c <= t && 0.0 < t
    requires q == c / t
    ensures q <= 1.0
  {
    assert q * t == c;
    assert c <= 1.0 * t;
    CancelPositive(q, 1.0, t);
  }

  lemma ShareNonNegative(c: real, t: real, q: real)
    requires 0.0 <= c && 0.0 < t
    requires q == c / t
    ensures 0.0 <= q
  {
    assert q * t == c;
    assert 0.0 * t <= c;
    CancelPositive(0.0, q, t);
  }

  /** The moves a task's menu offers: every status but its own, in board order. */
  function MenuOptions(current: TaskStatus): (r: seq<TaskStatus>)
    ensures |r| == 2 && current !in r
    ensures forall s: TaskStatus :: s != current ==> s in r
  {
    Filter([Todo, InProgress, Completed], (s: TaskStatus) => s != current)
  }

  /** The board's own copy of the tasks. */
  class Board {
    var localTasks: seq<Task>

    constructor (tasks: seq<Task>)
      ensures localTasks == tasks
    {
      localTasks := tasks;
    }

    /** `handleStatusChange(taskId, newStatus)`; the parent's callback is not modelled. */
    method HandleStatusChange(id: string, status: TaskStatus)
      modifies this
      ensures localTasks == WithStatus(old(localTasks), id, status)
    {
      localTasks := WithStatus(localTasks, id, status);
    }
  }
}
