/**
 * The task handlers of the Vite front end's `App`: each builds a new task
 * set from the previous one with `filter`, `map` or spread, without
 * changing anything in place.
 */
module AppTasks {
  import opened Tasks
  import TaskBoard

  /** `handleReorderTasks`: the named group becomes `newOrder`. */
  function ReorderTasks(tasks: TaskSet, group: Group, newOrder: seq<Task>): (r: TaskSet)
    ensures r.Get(group) == newOrder && r.Get(Other(group)) == tasks.Get(Other(group))
  {
    tasks.With(group, newOrder)
  }

  /** `s.filter((_, i) => i !== index)`, with `pos` the index of `s[0]` in the whole array. */
  function FilterOutIndex(s: seq<Task>, index: nat, pos: nat): seq<Task>
    decreases |s|
  {
    if s == [] then []
    else (if pos == index then [] else [s[0]]) + FilterOutIndex(s[1..], index, pos + 1)
  }

  /** `s.map((task, i) => i === index ? updated : task)`, with `pos` as above. */
  function MapAtIndex(s: seq<Task>, index: nat, updated: Task, pos: nat): seq<Task>
    decreases |s|
  {
    if s == [] then []
    else [if pos == index then updated else s[0]] + MapAtIndex(s[1..], index, updated, pos + 1)
  }

  /** Filtering out one index removes exactly that element, as `splice(index, 1)` does. */
  lemma {:induction false} FilterOutIndexIsWithout(s: seq<Task>, index: nat, pos: nat)
    requires pos <= index
    ensures FilterOutIndex(s, index, pos) == Without(s, index - pos)
    decreases |s|
  {
    if s != [] {
      if pos == index {
        assert FilterOutIndex(s[1..], index, pos + 1) == s[1..] by {
          FilterPastIndex(s[1..], index, pos + 1);
        }
      } else {
        FilterOutIndexIsWithout(s[1..], index, pos + 1);
        WithoutAfterFirst(s, index - pos);
      }
    }
  }

  /** Removing a position other than the first keeps the first element in front. */
  lemma WithoutAfterFirst(s: seq<Task>, k: nat)
    requires s != [] && k >= 1
    ensures Without(s, k) == [s[0]] + Without(s[1..], k - 1)
  {
    if k < |s| {
      assert s[..k] == [s[0]] + s[1..][..k - 1];
      assert s[k + 1..] == s[1..][k..];
    } else {
      assert s == [s[0]] + s[1..];
    }
  }

  /** Positions past `index` are all kept. */
  lemma {:induction false} FilterPastIndex(s: seq<Task>, index: nat, pos: nat)
    requires pos > index
    ensures FilterOutIndex(s, index, pos) == s
    decreases |s|
  {
    if s != [] {
      FilterPastIndex(s[1..], index, pos + 1);
    }
  }

  /** Mapping with one replacement changes exactly that element. */
  lemma {:induction false} MapAtIndexReplaces(s: seq<Task>, index: nat, updated: Task, pos: nat)
    ensures var r := MapAtIndex(s, index, updated, pos);
            |r| == |s| && forall k :: 0 <= k < |s| ==> r[k] == if pos + k == index then updated else s[k]
    decreases |s|
  {
    if s != [] {
      MapAtIndexReplaces(s[1..], index, updated, pos + 1);
      var r := MapAtIndex(s, index, updated, pos);
      var t := MapAtIndex(s[1..], index, updated, pos + 1);
      assert r == [if pos == index then updated else s[0]] + t;
      forall k | 1 <= k < |s| ensures r[k] == if pos + k == index then updated else s[k] {
        assert r[k] == t[k - 1];
      }
    }
  }

  /**
   * `handleDeleteTask`: removes exactly the element at `index` of the named
   * group; an index past the end leaves it as it was.  The other group is
   * untouched.  It agrees with the other front end's `splice(index, 1)`.
   */
  function DeleteTask(tasks: TaskSet, group: Group, index: nat): (r: TaskSet)
    ensures r.Get(group) == Without(tasks.Get(group), index)
    ensures r.Get(Other(group)) == tasks.Get(Other(group))
  {
    FilterOutIndexIsWithout(tasks.Get(group), index, 0);
    tasks.With(group, FilterOutIndex(tasks.Get(group), index, 0))
  }

  /**
   * `handleEditTask`: the element at `index` becomes `updated`; the length
   * and every other element stay, and so does the other group.
   */
  function EditTask(tasks: TaskSet, group: Group, index: nat, updated: Task): (r: TaskSet)
    ensures |r.Get(group)| == |tasks.Get(group)|
    ensures index < |tasks.Get(group)| ==> r.Get(group)[index] == updated
    ensures forall k :: 0 <= k < |tasks.Get(group)| && k != index ==> r.Get(group)[k] == tasks.Get(group)[k]
    ensures r.Get(Other(group)) == tasks.Get(Other(group))
  {
    MapAtIndexReplaces(tasks.Get(group), index, updated, 0);
    tasks.With(group, MapAtIndex(tasks.Get(group), index, updated, 0))
  }

  /** `handleAddTask`: `newTask` goes at the end; the earlier tasks and the other group stay. */
  function AddTask(tasks: TaskSet, group: Group, newTask: Task): (r: TaskSet)
    ensures |r.Get(group)| == |tasks.Get(group)| + 1
    ensures r.Get(group)[..|tasks.Get(group)|] == tasks.Get(group)
    ensures r.Get(group)[|tasks.Get(group)|] == newTask
    ensures r.Get(Other(group)) == tasks.Get(Other(group))
  {
    tasks.With(group, tasks.Get(group) + [newTask])
  }

  /** The count on the Tasks tab. */
  function TaskCount(tasks: TaskSet): nat
  {
    |tasks.userStories| + |tasks.engineeringTasks|
  }

  /** `Object.values(tasks)`. */
  function Values(tasks: TaskSet): seq<seq<Task>>
  {
    [tasks.userStories, tasks.engineeringTasks]
  }

  /** `Object.values(tasks).some(arr => arr.length > 0)`: shows the Tasks and Export tabs. */
  predicate TabsVisible(tasks: TaskSet)
  {
    exists k :: 0 <= k < |Values(tasks)| && |Values(tasks)[k]| > 0
  }

  /**
   * The Tasks and Export tabs show exactly when the count is positive,
   * which is exactly when the other front end's list renders something.
   */
  lemma TabsVisibleIffTasks(tasks: TaskSet)
    ensures TabsVisible(tasks) <==> TaskCount(tasks) > 0
    ensures TabsVisible(tasks) <==> !TaskBoard.RendersNothing(tasks)
  {
    if |tasks.userStories| > 0 {
      assert |Values(tasks)[0]| > 0;
    } else if |tasks.engineeringTasks| > 0 {
      assert |Values(tasks)[1]| > 0;
    }
  }
}
