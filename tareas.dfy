/**
 * The data state of the to-do list window (gui-listas.py): the texts of the tasks in
 * display order and the set of row indices marked as done. The Tk widgets are
 * not modelled: the entry text and the list-box selection become parameters,
 * and `update_listbox` becomes a method that returns the rows it would show.
 */
module Tareas {
  import opened Wrappers
  import Text

  /** The prefix `update_listbox` puts in front of a completed task. */
  const CheckMark: string := "\U{2714}\U{FE0F} "

  /** The text of one list-box row: it ends with its task's text, and a done
      task's row starts with the check mark. */
  function Row(task: string, done: bool): (r: string)
    ensures |r| == |task| + (if done then |CheckMark| else 0)
    ensures r[|r| - |task|..] == task
    ensures done ==> CheckMark <= r
  {
    if done then CheckMark + task else task
  }

  /** The set comprehension `{j if j < i else j-1 for j in completed if j != i}`
      that renumbers the completed rows after row `i` is deleted: a mark
      below `i` stays, a mark above `i` moves down by one, and every new mark
      comes from one of those two. */
  function Reindex(completed: set<int>, i: int): (r: set<int>)
    ensures forall k :: k in r ==> (k < i && k in completed) || (k >= i && k + 1 in completed)
    ensures forall j :: j in completed && j < i ==> j in r
    ensures forall j :: j in completed && j > i ==> j - 1 in r
  {
    set j | j in completed && j != i :: if j < i then j else j - 1
  }

  /** After deleting row `i`, `k` is marked exactly when the row that now sits
      at `k` was marked before: rows before `i` keep their number, rows after
      it move up by one, and `i` itself is gone. */
  lemma ReindexMembership(completed: set<int>, i: int, k: int)
    ensures k in Reindex(completed, i) <==> (k < i && k in completed) || (k >= i && k + 1 in completed)
  {
    if k < i && k in completed {
      assert (if k < i then k else k - 1) == k;
    } else if k >= i && k + 1 in completed {
      assert k + 1 != i && (if k + 1 < i then k + 1 else k + 1 - 1) == k;
    }
  }

  /** Deleting a row keeps every index below the new number of tasks. */
  lemma ReindexBounded(completed: set<int>, i: int, n: int)
    requires 0 <= i < n
    requires forall j :: j in completed ==> 0 <= j < n
    ensures forall k :: k in Reindex(completed, i) ==> 0 <= k < n - 1
  {
  }

  /** Every task marked done before a delete, other than the deleted one, is
      still marked done afterwards, at its new position. */
  lemma DeleteKeepsMarks(tasks: seq<string>, completed: set<int>, i: int, j: int)
    requires 0 <= i < |tasks| && 0 <= j < |tasks|
    requires j in completed && j != i
    ensures var j' := if j < i then j else j - 1;
      && j' in Reindex(completed, i)
      && 0 <= j' < |tasks| - 1
      && (tasks[..i] + tasks[i + 1..])[j'] == tasks[j]
  {
    var rest := tasks[..i] + tasks[i + 1..];
    if j < i {
      assert rest[j] == tasks[..i][j];
    } else {
      assert rest[j - 1] == tasks[i + 1..][j - 1 - i];
    }
  }

  /** The window's task list. */
  class TaskManager {
    var tasks: seq<string>
    var completed: set<int>

    /** Every completed index names a row of the list. */
    ghost predicate Valid()
      reads this
    {
      forall j :: j in completed ==> 0 <= j < |tasks|
    }

    constructor ()
      ensures Valid()
      ensures tasks == [] && completed == {}
    {
      tasks := [];
      completed := {};
    }

    /** `add_task`, with the entry's text as a parameter: a text that is blank
        after stripping is refused (a warning box in the window). */
    method AddTask(entry: string)
      requires Valid()
      modifies this
      ensures Valid()
      ensures Text.Strip(entry) != [] ==> tasks == old(tasks) + [Text.Strip(entry)]
      ensures Text.Strip(entry) == [] ==> tasks == old(tasks)
      ensures completed == old(completed)
    {
      var task := Text.Strip(entry);
      if task != [] {
        tasks := tasks + [task];
      }
    }

    /** `mark_completed`, with the list-box selection as a parameter: `None`
        when nothing is selected; a selection is always a row of the list. */
    method MarkCompleted(selection: Option<nat>)
      requires Valid()
      requires selection.Some? ==> selection.value < |tasks|
      modifies this
      ensures Valid()
      ensures tasks == old(tasks)
      ensures completed == if selection.Some? then old(completed) + {selection.value} else old(completed)
    {
      if selection.Some? {
        completed := completed + {selection.value};
      }
    }

    /** `delete_task`: removes the selected row and renumbers the completed
        indices behind it. */
    method DeleteTask(selection: Option<nat>)
      requires Valid()
      requires selection.Some? ==> selection.value < |tasks|
      modifies this
      ensures Valid()
      ensures selection.None? ==> tasks == old(tasks) && completed == old(completed)
      ensures selection.Some? ==>
        var i := selection.value;
        && tasks == old(tasks)[..i] + old(tasks)[i + 1..]
        && completed == Reindex(old(completed), i)
    {
      if selection.Some? {
        var i := selection.value;
        ReindexBounded(completed, i, |tasks|);
        tasks := tasks[..i] + tasks[i + 1..];
        completed := Reindex(completed, i);
      }
    }

    /** `update_listbox`: one row per task, in order, with the check mark in
        front of the completed ones. */
    method UpdateListbox() returns (rows: seq<string>)
      ensures |rows| == |tasks|
      ensures forall k :: 0 <= k < |tasks| ==> rows[k] == Row(tasks[k], k in completed)
    {
      rows := [];
      var i := 0;
      while i < |tasks|
        invariant 0 <= i <= |tasks|
        invariant |rows| == i
        invariant forall k :: 0 <= k < i ==> rows[k] == Row(tasks[k], k in completed)
      {
        if i in completed {
          rows := rows + [CheckMark + tasks[i]];
        } else {
          rows := rows + [tasks[i]];
        }
        i := i + 1;
      }
    }
  }
}
