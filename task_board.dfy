/**
 * The editable task list of the Next.js front end.  The two groups are the
 * props the parent page owns; each handler copies one group, changes the
 * copy in place and hands both groups back through `onTasksUpdate`, which
 * the page stores, so the handlers here assign the new groups to `tasks`.
 */
module TaskBoard {
  import opened Common
  import opened Tasks
  import JsArrays

  /** The dragged task: its group and its index in that group. */
  datatype DragSource = DragSource(group: Group, index: nat)

  /** The `${type}-${index}` key of the task being edited. */
  datatype EditKey = EditKey(group: Group, index: nat)

  /** The group after saving an edit: only title and description of task `i` change. */
  function Saved(s: seq<Task>, i: nat, title: string, description: string): (r: seq<Task>)
    requires i < |s|
    ensures |r| == |s|
    ensures r[i].title == title && r[i].description == description && r[i].id == s[i].id
    ensures forall k :: 0 <= k < |s| && k != i ==> r[k] == s[k]
  {
    s[i := s[i].(title := title, description := description)]
  }

  /** Nothing is rendered when both groups are empty. */
  predicate RendersNothing(tasks: TaskSet)
  {
    |tasks.userStories| == 0 && |tasks.engineeringTasks| == 0
  }

  class Board {
    var tasks: TaskSet
    var editingId: Option<EditKey>
    var editTitle: string
    var editDescription: string
    var draggedItem: Option<DragSource>
    var collapsedSections: set<Group>

    /** Initial state: nothing edited, nothing dragged, no section collapsed. */
    constructor (tasks: TaskSet)
      ensures this.tasks == tasks && editingId == None && editTitle == "" && editDescription == ""
      ensures draggedItem == None && collapsedSections == {}
    {
      this.tasks := tasks;
      editingId := None;
      editTitle := "";
      editDescription := "";
      draggedItem := None;
      collapsedSections := {};
    }

    /** `handleEdit`: opens the editor on a task, seeded with its title and description. */
    method HandleEdit(task: Task, group: Group, index: nat)
      modifies this
      ensures editingId == Some(EditKey(group, index))
      ensures editTitle == task.title && editDescription == task.description
      ensures tasks == old(tasks) && draggedItem == old(draggedItem)
      ensures collapsedSections == old(collapsedSections)
    {
      editingId := Some(EditKey(group, index));
      editTitle := task.title;
      editDescription := task.description;
    }

    /**
     * `handleSave`: task `index` of `group` takes the edited title and
     * description, keeping its other fields; the other group is untouched
     * and the editor closes.  The index is that of a rendered task.
     */
    method HandleSave(group: Group, index: nat)
      requires index < |tasks.Get(group)|
      modifies this
      ensures tasks == old(tasks.With(group, Saved(tasks.Get(group), index, editTitle, editDescription)))
      ensures editingId == None
      ensures editTitle == old(editTitle) && editDescription == old(editDescription)
      ensures draggedItem == old(draggedItem) && collapsedSections == old(collapsedSections)
    {
      var copy := new JsArrays.JsArray(tasks.Get(group));
      copy.SetAt(index, copy.items[index].(title := editTitle, description := editDescription));
      tasks := tasks.With(group, copy.items);
      editingId := None;
    }

    /** `handleDelete`: `splice(index, 1)` on a copy of the group; the other group is untouched. */
    method HandleDelete(group: Group, index: nat)
      modifies this
      ensures tasks == old(tasks.With(group, Without(tasks.Get(group), index)))
      ensures editingId == old(editingId) && editTitle == old(editTitle)
      ensures editDescription == old(editDescription)
      ensures draggedItem == old(draggedItem) && collapsedSections == old(collapsedSections)
    {
      var copy := new JsArrays.JsArray(tasks.Get(group));
      var removed := copy.Splice(index, Some(1), []);
      tasks := tasks.With(group, copy.items);
    }

    /** `handleDragStart`: remembers which task is being dragged. */
    method HandleDragStart(group: Group, index: nat)
      modifies this
      ensures draggedItem == Some(DragSource(group, index))
      ensures tasks == old(tasks) && editingId == old(editingId) && editTitle == old(editTitle)
      ensures editDescription == old(editDescription) && collapsedSections == old(collapsedSections)
    {
      draggedItem := Some(DragSource(group, index));
    }

    /**
     * `handleDrop`: with no drag in progress, or a drop on the other group,
     * nothing happens (the drag is not even cleared).  Otherwise the dragged
     * task is spliced out and spliced back in at `targetIndex`, the other
     * group is passed through, and the drag is cleared.  The dragged index is
     * that of a rendered task of the group.
     */
    method HandleDrop(targetGroup: Group, targetIndex: nat)
      requires draggedItem.Some? && draggedItem.value.group == targetGroup
               ==> draggedItem.value.index < |tasks.Get(targetGroup)|
      modifies this
      ensures old(draggedItem.None? || draggedItem.value.group != targetGroup) ==>
                tasks == old(tasks) && draggedItem == old(draggedItem)
      ensures old(draggedItem.Some? && draggedItem.value.group == targetGroup) ==>
                tasks == old(tasks.With(targetGroup,
                  Moved(tasks.Get(targetGroup), draggedItem.value.index, targetIndex)))
                && draggedItem == None
      ensures editingId == old(editingId) && editTitle == old(editTitle)
      ensures editDescription == old(editDescription) && collapsedSections == old(collapsedSections)
    {
      if draggedItem.None? || draggedItem.value.group != targetGroup {
        return;
      }
      var s := tasks.Get(targetGroup);
      var from := draggedItem.value.index;
      var copy := new JsArrays.JsArray(s);
      var removed := copy.Splice(from, Some(1), []);
      assert removed == [s[from]] && copy.items == Without(s, from);
      var movedTask := removed[0];
      var none := copy.Splice(targetIndex, Some(0), [movedTask]);
      assert copy.items == InsertAt(Without(s, from), targetIndex, movedTask);
      tasks := tasks.With(targetGroup, copy.items);
      draggedItem := None;
    }

    /** `toggleSection`: flips whether one section is collapsed. */
    method ToggleSection(section: Group)
      modifies this
      ensures collapsedSections == Toggled(old(collapsedSections), section)
      ensures tasks == old(tasks) && editingId == old(editingId) && editTitle == old(editTitle)
      ensures editDescription == old(editDescription) && draggedItem == old(draggedItem)
    {
      var newCollapsed := collapsedSections;
      if section in newCollapsed {
        newCollapsed := newCollapsed - {section};
      } else {
        newCollapsed := newCollapsed + {section};
      }
      collapsedSections := newCollapsed;
    }
  }
}
