/** The task manager page: a list of tasks, newest first, that the user adds
    to from a small form and whose tasks are ticked off and on. */
module TaskManager {
  import opened Wrappers
  import opened Strings
  import opened Lists

  datatype TaskStatus = New | Completed

  /** A task. Dates are timestamps; the id comes from `crypto.randomUUID()`
      and the creation time from `new Date()`, both passed in. */
  datatype Task = Task(id: string, name: string, description: string, scheduledDate: int,
                       status: TaskStatus, createdAt: int)

  function Flip(s: TaskStatus): (r: TaskStatus)
    ensures r != s
  {
    if s == New then Completed else New
  }

  /** `tasks.map(...)` in `toggleTaskStatus(taskId)`: every task with that id
      changes status, every other task stays as it is. */
  function Toggled(tasks: seq<Task>, taskId: string): (r: seq<Task>)
    ensures |r| == |tasks|
    ensures forall i :: 0 <= i < |tasks| && tasks[i].id != taskId ==> r[i] == tasks[i]
    ensures forall i :: 0 <= i < |tasks| && tasks[i].id == taskId ==>
      r[i] == tasks[i].(status := Flip(tasks[i].status))
  {
    seq(|tasks|, i requires 0 <= i < |tasks| =>
      if tasks[i].id == taskId then tasks[i].(status := Flip(tasks[i].status)) else tasks[i])
  }

  /** Toggling the same task twice restores the list. */
  lemma ToggleTwice(tasks: seq<Task>, taskId: string)
    ensures Toggled(Toggled(tasks, taskId), taskId) == tasks
  {
    var r := Toggled(Toggled(tasks, taskId), taskId);
    forall i | 0 <= i < |tasks| ensures r[i] == tasks[i] {
      if tasks[i].id == taskId {
        assert Flip(Flip(tasks[i].status)) == tasks[i].status;
      }
    }
  }

  /** Toggling an id that no task has changes nothing. */
  lemma ToggleUnknown(tasks: seq<Task>, taskId: string)
    requires forall i :: 0 <= i < |tasks| ==> tasks[i].id != taskId
    ensures Toggled(tasks, taskId) == tasks
  {
  }

  function IsNew(t: Task): bool { t.status == New }
  function IsCompleted(t: Task): bool { t.status == Completed }

  /** `newTasksCount` */
  function NewCount(tasks: seq<Task>): (r: nat)
    ensures r <= |tasks|
    ensures r == 0 <==> forall i :: 0 <= i < |tasks| ==> tasks[i].status != New
  {
    CountZero(tasks, IsNew);
    |Filter(tasks, IsNew)|
  }
  /** `completedTasksCount` */
  function CompletedCount(tasks: seq<Task>): (r: nat)
    ensures r <= |tasks|
    ensures r == 0 <==> forall i :: 0 <= i < |tasks| ==> tasks[i].status != Completed
  {
    CountZero(tasks, IsCompleted);
    |Filter(tasks, IsCompleted)|
  }

  /** Nothing passes a test exactly when the filter keeps nothing. */
  lemma CountZero(tasks: seq<Task>, p: Task -> bool)
    ensures Filter(tasks, p) == [] <==> forall i :: 0 <= i < |tasks| ==> !p(tasks[i])
  {
    FilterSound(tasks, p);
    FilterComplete(tasks, p);
    if Filter(tasks, p) != [] {
      assert Filter(tasks, p)[0] in Filter(tasks, p);
    }
  }

  /** Every task is either new or completed, so the two counts add up to the list's length. */
  lemma {:induction false} CountsAddUp(tasks: seq<Task>)
    ensures NewCount(tasks) + CompletedCount(tasks) == |tasks|
  {
    if tasks != [] {
      CountsAddUp(tasks[1..]);
    }
  }

  /** Toggling a task whose id no other task shares moves it from one count to the other. */
  lemma {:induction false} ToggleMovesOne(tasks: seq<Task>, k: nat)
    requires k < |tasks|
    requires forall i :: 0 <= i < |tasks| && i != k ==> tasks[i].id != tasks[k].id
    ensures var t := Toggled(tasks, tasks[k].id);
      if tasks[k].status == New
      then NewCount(t) == NewCount(tasks) - 1 && CompletedCount(t) == CompletedCount(tasks) + 1
      else NewCount(t) == NewCount(tasks) + 1 && CompletedCount(t) == CompletedCount(tasks) - 1
  {
    var id := tasks[k].id;
    var t := Toggled(tasks, id);
    if k == 0 {
      assert t[1..] == tasks[1..];
    } else {
      assert tasks[0].id != id;
      ToggleMovesOne(tasks[1..], k - 1);
      assert Toggled(tasks[1..], id) == t[1..];
    }
  }

  /** The page state: the task list and the three inputs of the form. */
  class TaskPage {
    var tasks: seq<Task>
    var taskName: string
    var taskDescription: string
    var scheduledDate: Option<int>

    /** The page opens with no tasks and an empty form. */
    constructor ()
      ensures tasks == [] && taskName == "" && taskDescription == "" && scheduledDate == None
    {
      tasks := [];
      taskName := "";
      taskDescription := "";
      scheduledDate := None;
    }

    /** `handleAddTask`, given the fresh id and the current time. Without a
        name (after trimming) or a date nothing happens; otherwise the new
        task goes in front, trimmed and new, and the form is cleared. */
    method HandleAddTask(freshId: string, now: int) returns (added: bool)
      modifies this
      ensures added <==> Trim(old(taskName)) != [] && old(scheduledDate).Some?
      ensures added ==>
        tasks == [Task(freshId, Trim(old(taskName)), Trim(old(taskDescription)), old(scheduledDate).value, New, now)]
                 + old(tasks)
        && taskName == "" && taskDescription == "" && scheduledDate == None
      ensures !added ==> unchanged(this)
    {
      var name, description, date := Trim(taskName), Trim(taskDescription), scheduledDate;
      if name == [] || date.None? {
        return false;
      }
      tasks := [Task(freshId, name, description, date.value, New, now)] + tasks;
      taskName := "";
      taskDescription := "";
      scheduledDate := None;
      added := true;
    }

    /** `toggleTaskStatus(taskId)`: only the list changes. */
    method ToggleTaskStatus(taskId: string)
      modifies this
      ensures tasks == Toggled(old(tasks), taskId)
      ensures taskName == old(taskName) && taskDescription == old(taskDescription)
      ensures scheduledDate == old(scheduledDate)
    {
      tasks := Toggled(tasks, taskId);
    }
  }

  /** An added task counts as new. */
  lemma AddCountsNew(task: Task, tasks: seq<Task>)
    requires task.status == New
    ensures NewCount([task] + tasks) == NewCount(tasks) + 1
    ensures CompletedCount([task] + tasks) == CompletedCount(tasks)
  {
    FilterCons(task, tasks, IsNew);
    FilterCons(task, tasks, IsCompleted);
  }
}
