/**
 * The table of help-request tasks (client/src/components/TaskManagement.tsx): status updates by id,
 * a status filter, and the per-status actions the table offers.
 */
module TaskManagement {
  import opened Wrappers
  import opened Seqs

  /** A help-request task. Statuses and filters are plain strings, as in the component. */
  datatype Task = Task(
    id: string,
    requestType: string,
    location: string,
    peopleCount: int,
    urgencyLevel: string,
    requesterName: string,
    status: string,
    assignedTo: Option<string>,
    createdAt: string)

  /** No two tasks share an id. */
  predicate DistinctIds(tasks: seq<Task>)
  {
    forall i, j :: 0 <= i < j < |tasks| ==> tasks[i].id != tasks[j].id
  }

  /** The table after `updateTaskStatus(taskId, newStatus)`. */
  function StatusUpdated(tasks: seq<Task>, taskId: string, newStatus: string): (r: seq<Task>)
    ensures |r| == |tasks|
    ensures forall i :: 0 <= i < |tasks| && tasks[i].id == taskId ==> r[i] == tasks[i].(status := newStatus)
    ensures forall i :: 0 <= i < |tasks| && tasks[i].id != taskId ==> r[i] == tasks[i]
  {
    if tasks == [] then []
    else [if tasks[0].id == taskId then tasks[0].(status := newStatus) else tasks[0]]
         + StatusUpdated(tasks[1..], taskId, newStatus)
  }

  /** An id that is not in the table leaves it unchanged. */
  lemma UpdateMissingId(tasks: seq<Task>, taskId: string, newStatus: string)
    requires forall i :: 0 <= i < |tasks| ==> tasks[i].id != taskId
    ensures StatusUpdated(tasks, taskId, newStatus) == tasks
  {
  }

  /** Setting the same status twice is the same as setting it once. */
  lemma UpdateIdempotent(tasks: seq<Task>, taskId: string, newStatus: string)
    ensures StatusUpdated(StatusUpdated(tasks, taskId, newStatus), taskId, newStatus)
         == StatusUpdated(tasks, taskId, newStatus)
  {
  }

  /** The filter predicate: a task's status equals `filter`. */
  function HasStatus(filter: string): Task -> bool
  {
    (t: Task) => t.status == filter
  }

  /** `filteredTasks`: all tasks for "all", otherwise those whose status equals the filter. */
  function FilteredTasks(tasks: seq<Task>, filter: string): (r: seq<Task>)
    ensures filter == "all" ==> r == tasks
    ensures filter != "all" ==> forall t :: t in r ==> t in tasks && t.status == filter
  {
    if filter == "all" then tasks
    else
      FilterSound(tasks, HasStatus(filter));
      Filter(tasks, HasStatus(filter))
  }

  /**
   * A non-"all" filter keeps every task with that status as often as it occurs in the
   * table, drops every other task, and keeps the table order.
   */
  lemma FilterExact(tasks: seq<Task>, filter: string)
    requires filter != "all"
    ensures forall t :: multiset(FilteredTasks(tasks, filter))[t]
                     == (if t.status == filter then multiset(tasks)[t] else 0)
    ensures forall i :: 0 <= i < |tasks| && tasks[i].status == filter ==> tasks[i] in FilteredTasks(tasks, filter)
    ensures IsSubsequence(FilteredTasks(tasks, filter), tasks)
  {
    var p := HasStatus(filter);
    FilterMultiset(tasks, p);
    forall i | 0 <= i < |tasks| && tasks[i].status == filter
      ensures tasks[i] in FilteredTasks(tasks, filter)
    {
      FilterKeeps(tasks, p, i);
    }
    FilterIsSubsequence(tasks, p);
  }

  /** The status change the action column offers for a status: Accept, Complete, or none. */
  function OfferedTransition(status: string): (next: Option<string>)
    ensures status == "pending" ==> next == Some("in-progress")
    ensures status == "in-progress" ==> next == Some("completed")
    ensures status != "pending" && status != "in-progress" ==> next == None
  {
    if status == "pending" then Some("in-progress")
    else if status == "in-progress" then Some("completed")
    else None
  }

  /** The stage of a status along pending, in-progress, completed. */
  function Stage(status: string): nat
  {
    if status == "pending" then 0 else if status == "in-progress" then 1 else 2
  }

  /** Every offered transition moves exactly one stage forward; completed offers none. */
  lemma TransitionsMoveForward(status: string)
    ensures OfferedTransition(status) != None ==> Stage(OfferedTransition(status).value) == Stage(status) + 1
    ensures OfferedTransition("completed") == None
  {
  }

  /** Applying the offered transitions repeatedly, starting from a status. */
  function ClickThrough(status: string, clicks: nat): string
    decreases clicks
  {
    if clicks == 0 then status
    else match OfferedTransition(status)
      case None => status
      case Some(next) => ClickThrough(next, clicks - 1)
  }

  /** No sequence of clicks moves a task backwards, and at most two reach completed. */
  lemma {:induction false} ClicksNeverGoBack(status: string, clicks: nat)
    ensures Stage(ClickThrough(status, clicks)) >= Stage(status)
    ensures status == "pending" && clicks >= 2 ==> ClickThrough(status, clicks) == "completed"
    decreases clicks
  {
    if clicks > 0 && OfferedTransition(status) != None {
      ClicksNeverGoBack(OfferedTransition(status).value, clicks - 1);
      if status == "pending" && clicks >= 2 {
        assert ClickThrough(status, clicks) == ClickThrough("in-progress", clicks - 1);
        assert ClickThrough("in-progress", clicks - 1) == ClickThrough("completed", clicks - 2);
      }
    }
  }

  /** The mock task list the table starts with. */
  function MockTasks(): (ts: seq<Task>)
    ensures DistinctIds(ts)
  {
    [ Task("task-1", "rescue", "Borivali East, Mumbai", 3, "emergency", "Amit Sharma", "pending", None, "2023-04-03T10:30:00Z"),
      Task("task-2", "medical", "Andheri West, Mumbai", 1, "high", "Priya Patel", "in-progress", Some("Dr. Mehta"), "2023-04-03T09:15:00Z"),
      Task("task-3", "food", "Dadar, Mumbai", 12, "medium", "Raj Malhotra", "completed", Some("Food Relief Team"), "2023-04-02T14:45:00Z"),
      Task("task-4", "shelter", "Kurla, Mumbai", 8, "high", "Sunita Shah", "pending", None, "2023-04-03T11:20:00Z"),
      Task("task-5", "rescue", "Bandra, Mumbai", 2, "emergency", "John Mathews", "in-progress", Some("Rescue Team Alpha"), "2023-04-03T08:50:00Z") ]
  }

  /** State of the table component (TaskManagement). */
  class TaskBoard {
    var tasks: seq<Task>
    var filter: string

    /** Task ids are never edited, so the distinct mock ids stay distinct. */
    predicate Valid()
      reads this
    {
      DistinctIds(tasks)
    }

    constructor ()
      ensures tasks == MockTasks() && filter == "all"
      ensures Valid()
    {
      tasks := MockTasks();
      filter := "all";
    }

    /** `updateTaskStatus(taskId, newStatus)` */
    method UpdateTaskStatus(taskId: string, newStatus: string)
      requires Valid()
      modifies this
      ensures tasks == StatusUpdated(old(tasks), taskId, newStatus)
      ensures filter == old(filter)
      ensures Valid()
    {
      tasks := StatusUpdated(tasks, taskId, newStatus);
    }

    /**
     * The Accept or Complete button of row `i` of the displayed (filtered) table; a
     * completed row has none. With distinct ids only the clicked task changes, and no
     * task ever moves back a stage.
     */
    method ClickAction(i: nat)
      requires Valid()
      requires i < |FilteredTasks(tasks, filter)|
      modifies this
      ensures var row := FilteredTasks(old(tasks), old(filter))[i];
        (OfferedTransition(row.status) == None ==> tasks == old(tasks)) &&
        (OfferedTransition(row.status) != None ==>
           tasks == StatusUpdated(old(tasks), row.id, OfferedTransition(row.status).value))
      ensures |tasks| == |old(tasks)|
      ensures forall k :: 0 <= k < |tasks| ==> Stage(tasks[k].status) >= Stage(old(tasks)[k].status)
      ensures filter == old(filter) && Valid()
    {
      var row := FilteredTasks(tasks, filter)[i];
      assert row in tasks;
      var next := OfferedTransition(row.status);
      if next != None {
        ghost var before := tasks;
        ghost var k :| 0 <= k < |before| && before[k] == row;
        UpdateTaskStatus(row.id, next.value);
        TransitionsMoveForward(row.status);
        forall j | 0 <= j < |tasks|
          ensures Stage(tasks[j].status) >= Stage(before[j].status)
        {
          if before[j].id == row.id {
            assert j == k;
          }
        }
      }
    }

    /** The filter select. */
    method SetFilter(f: string)
      requires Valid()
      modifies this
      ensures filter == f && tasks == old(tasks)
      ensures Valid()
    {
      filter := f;
    }
  }
}
