/**
 * The task list of the Vite front end: per-group expand and add-form
 * flags, a draft for the task being added, and a drop handler that hands a
 * new order for a group to the parent's `onReorder`.
 */
module TaskPanel {
  import opened Common
  import opened Tasks
  import JsArrays

  /** A `{ userStories, engineeringTasks }` record of flags. */
  datatype GroupFlags = GroupFlags(userStories: bool, engineeringTasks: bool) {

    function Get(g: Group): bool
    {
      match g
      case UserStories => userStories
      case EngineeringTasks => engineeringTasks
    }

    /** `{ ...this, [g]: b }`. */
    function With(g: Group, b: bool): (r: GroupFlags)
      ensures r.Get(g) == b && r.Get(Other(g)) == Get(Other(g))
    {
      match g
      case UserStories => GroupFlags(b, engineeringTasks)
      case EngineeringTasks => GroupFlags(userStories, b)
    }
  }

  /** The `{ index, group }` the drag start writes into the drag data. */
  datatype DragData = DragData(index: nat, group: Group)

  const EmptyDraft := Task("", "", None)

  class Panel {
    var expandedGroups: GroupFlags
    var showAddForm: GroupFlags
    var newTask: Task

    /** Both groups start expanded, both add forms hidden, the draft empty. */
    constructor ()
      ensures expandedGroups == GroupFlags(true, true)
      ensures showAddForm == GroupFlags(false, false)
      ensures newTask == EmptyDraft
    {
      expandedGroups := GroupFlags(true, true);
      showAddForm := GroupFlags(false, false);
      newTask := EmptyDraft;
    }

    /** `toggleGroup`: flips the named group's flag only. */
    method ToggleGroup(group: Group)
      modifies this
      ensures expandedGroups == old(expandedGroups).With(group, !old(expandedGroups).Get(group))
      ensures showAddForm == old(showAddForm) && newTask == old(newTask)
    {
      expandedGroups := expandedGroups.With(group, !expandedGroups.Get(group));
    }

    /** The "+ Add" button: shows the group's add form. */
    method OpenAddForm(group: Group)
      modifies this
      ensures showAddForm == old(showAddForm).With(group, true)
      ensures expandedGroups == old(expandedGroups) && newTask == old(newTask)
    {
      showAddForm := showAddForm.With(group, true);
    }

    /** The form's Cancel button: hides the group's form and clears the draft. */
    method CancelAddForm(group: Group)
      modifies this
      ensures showAddForm == old(showAddForm).With(group, false)
      ensures newTask == EmptyDraft && expandedGroups == old(expandedGroups)
    {
      showAddForm := showAddForm.With(group, false);
      newTask := EmptyDraft;
    }

    /**
     * `handleAddTask`: only a draft with a non-empty title and description
     * is passed to `onAdd` (returned here); then the draft is cleared and the
     * group's form hidden.  Otherwise nothing happens.
     */
    method HandleAddTask(group: Group) returns (added: Option<Task>)
      modifies this
      ensures old(newTask.title != "" && newTask.description != "") ==>
                added == Some(old(newTask)) && newTask == EmptyDraft
                && showAddForm == old(showAddForm).With(group, false)
      ensures old(newTask.title == "" || newTask.description == "") ==>
                added == None && newTask == old(newTask) && showAddForm == old(showAddForm)
      ensures expandedGroups == old(expandedGroups)
    {
      if newTask.title != "" && newTask.description != "" {
        added := Some(newTask);
        newTask := EmptyDraft;
        showAddForm := showAddForm.With(group, false);
      } else {
        added := None;
      }
    }

    /**
     * `handleDrop`, as written: unreadable drag data (`None`) or data from
     * the other group does not call `onReorder`.  Otherwise the task is
     * spliced out of a copy and back in at `Math.max(0, sourceIndex)`, which
     * is its own index, so the order handed to `onReorder` is the group as
     * it was.  The index is that of a rendered task of the group.
     */
    method HandleDrop(data: Option<DragData>, group: Group, tasks: TaskSet)
      returns (reorder: Option<seq<Task>>)
      requires data.Some? && data.value.group == group ==> data.value.index < |tasks.Get(group)|
      ensures reorder.Some? <==> data.Some? && data.value.group == group
      ensures reorder.Some? ==> reorder.value == tasks.Get(group)
    {
      if data.None? || data.value.group != group {
        return None;
      }
      var s := tasks.Get(group);
      var sourceIndex := data.value.index;
      var allItems := new JsArrays.JsArray(s);
      var draggedItem := allItems.items[sourceIndex];
      var removed := allItems.Splice(sourceIndex, Some(1), []);
      assert allItems.items == Without(s, sourceIndex);
      var targetIndex := if 0 <= sourceIndex then sourceIndex else 0;
      var none := allItems.Splice(targetIndex, Some(0), [draggedItem]);
      assert allItems.items == InsertAt(Without(s, sourceIndex), targetIndex, draggedItem);
      MovedToItselfIsIdentity(s, sourceIndex);
      reorder := Some(allItems.items);
    }

    /**
     * The drop the handler evidently means: the dragged task moves to the
     * index it was dropped on, as in the other front end, and the order
     * handed to `onReorder` is that move.
     */
    method HandleDropAt(data: Option<DragData>, group: Group, targetIndex: nat, tasks: TaskSet)
      returns (reorder: Option<seq<Task>>)
      requires data.Some? && data.value.group == group ==> data.value.index < |tasks.Get(group)|
      ensures reorder.Some? <==> data.Some? && data.value.group == group
      ensures reorder.Some? ==> reorder.value == Moved(tasks.Get(group), data.value.index, targetIndex)
      ensures reorder.Some? ==> multiset(reorder.value) == multiset(tasks.Get(group))
      ensures reorder.Some? && targetIndex < |tasks.Get(group)| ==>
                reorder.value[targetIndex] == tasks.Get(group)[data.value.index]
    {
      if data.None? || data.value.group != group {
        return None;
      }
      var s := tasks.Get(group);
      var sourceIndex := data.value.index;
      var allItems := new JsArrays.JsArray(s);
      var draggedItem := allItems.items[sourceIndex];
      var removed := allItems.Splice(sourceIndex, Some(1), []);
      assert allItems.items == Without(s, sourceIndex);
      var none := allItems.Splice(targetIndex, Some(0), [draggedItem]);
      assert allItems.items == InsertAt(Without(s, sourceIndex), targetIndex, draggedItem);
      MovedIsPermutation(s, sourceIndex, targetIndex);
      MovedPlacesTask(s, sourceIndex, targetIndex);
      reorder := Some(allItems.items);
    }
  }

  /**
   * The handler as written cannot reorder: a drag of the first of two
   * different tasks is put back at index `max(0, 0) = 0`, so the order
   * handed on is the old one, while a move onto the second slot, which
   * `HandleDropAt` performs, swaps them.
   */
  lemma DropCannotReorder(a: Task, b: Task)
    requires a != b
    ensures Moved([a, b], 0, 0) == [a, b] && Moved([a, b], 1, 1) == [a, b]
    ensures Moved([a, b], 0, 1) == [b, a] && [b, a] != [a, b]
  {
    MovedToItselfIsIdentity([a, b], 0);
    MovedToItselfIsIdentity([a, b], 1);
    assert Without([a, b], 0) == [b];
  }
}
