/**
 * The task tracker (components/Tasks.tsx): add, toggle and delete handlers that
 * update the view's list and write it back under `tasks_<email>`, the
 * All/Active/Done filter and the priority colours.
 */
module TaskList {
  import opened Types
  import opened Text
  import opened Seqs
  import opened Storage

  datatype TaskFilter = All | Active | Done

  function NewTask(id: string, title: string, priority: Priority, dueDate: string): (t: Task)
    ensures !t.completed && t.title == title && t.priority == priority
  {
    Task(id, title, priority, dueDate, false)
  }

  /** `tasks.map(t => t.id === id ? { ...t, completed: !t.completed } : t)` */
  function Toggled(ts: seq<Task>, id: string): (r: seq<Task>)
    ensures |r| == |ts|
    ensures forall i :: 0 <= i < |ts| ==> r[i] == if ts[i].id == id then ts[i].(completed := !ts[i].completed) else ts[i]
  {
    if ts == [] then [] else
      [if ts[0].id == id then ts[0].(completed := !ts[0].completed) else ts[0]] + Toggled(ts[1..], id)
  }

  function LacksId(id: string): Task -> bool {
    (t: Task) => t.id != id
  }

  function HasId(id: string): Task -> bool {
    (t: Task) => t.id == id
  }

  /** `tasks.filter(t => t.id !== id)` */
  function Deleted(ts: seq<Task>, id: string): (r: seq<Task>)
    ensures forall i :: 0 <= i < |r| ==> r[i].id != id
  {
    FilterMembers(LacksId(id), ts);
    Filter(LacksId(id), ts)
  }

  function IsOpen(t: Task): bool { !t.completed }

  function IsDone(t: Task): bool { t.completed }

  /** `filteredTasks`: the tasks the current filter shows. */
  function Filtered(ts: seq<Task>, f: TaskFilter): (r: seq<Task>)
    ensures f == All ==> r == ts
    ensures f == Active ==> forall i :: 0 <= i < |r| ==> !r[i].completed
    ensures f == Done ==> forall i :: 0 <= i < |r| ==> r[i].completed
  {
    FilterMembers(IsOpen, ts);
    FilterMembers(IsDone, ts);
    match f
    case All => ts
    case Active => Filter(IsOpen, ts)
    case Done => Filter(IsDone, ts)
  }

  const RedClasses: string := "text-red-400 " + "bg-red-400/10 " + "border-red-400/20"
  const AmberClasses: string := "text-amber-400 " + "bg-amber-400/10 " + "border-amber-400/20"
  const GreenClasses: string := "text-green-400 " + "bg-green-400/10 " + "border-green-400/20"

  /** The three colour class lists are different strings. */
  lemma ColoursDistinct()
    ensures RedClasses != AmberClasses && AmberClasses != GreenClasses && RedClasses != GreenClasses
  {
    assert RedClasses[5] == 'r' && AmberClasses[5] == 'a' && GreenClasses[5] == 'g';
  }

  /** `getPriorityColor(p)`: red exactly for High, amber exactly for Medium, green for anything else (Low included). */
  function PriorityColor(p: string): (c: string)
    ensures c == RedClasses <==> p == "High"
    ensures c == AmberClasses <==> p == "Medium"
    ensures c == GreenClasses <==> p != "High" && p != "Medium"
  {
    ColoursDistinct();
    if p == "High" then RedClasses
    else if p == "Medium" then AmberClasses
    else GreenClasses
  }

  /** A task's priority, stored as its label, picks the colour of that priority. */
  lemma PriorityColorOfLabel(p: Priority)
    ensures PriorityColor(p.Label()) == match p
      case High => RedClasses
      case Medium => AmberClasses
      case Low => GreenClasses
  {
  }

  // ----- properties -----

  /** Toggling an id twice restores the list. */
  lemma {:induction false} ToggleTwice(ts: seq<Task>, id: string)
    ensures Toggled(Toggled(ts, id), id) == ts
  {
    var once := Toggled(ts, id);
    var twice := Toggled(once, id);
    assert forall i :: 0 <= i < |ts| ==> once[i].id == ts[i].id;
    assert forall i :: 0 <= i < |ts| ==> twice[i] == ts[i];
  }

  /**
   * Deleting removes every task with the id and keeps every copy of all others, in order;
   * with the removed tasks it makes up the whole list; an absent id changes nothing.
   */
  lemma DeleteRemovesOnlyId(ts: seq<Task>, id: string)
    ensures forall i :: 0 <= i < |Deleted(ts, id)| ==> Deleted(ts, id)[i].id != id
    ensures forall i :: 0 <= i < |ts| && ts[i].id != id ==> ts[i] in Deleted(ts, id)
    ensures IsSubsequence(Deleted(ts, id), ts)
    ensures multiset(Deleted(ts, id)) + multiset(Filter(HasId(id), ts)) == multiset(ts)
    ensures (forall i :: 0 <= i < |ts| ==> ts[i].id != id) ==> Deleted(ts, id) == ts
  {
    assert IsSubsequence(Deleted(ts, id), ts) by {
      FilterIsSubsequence(LacksId(id), ts);
    }
    assert multiset(Deleted(ts, id)) + multiset(Filter(HasId(id), ts)) == multiset(ts) by {
      FilterPartition(LacksId(id), HasId(id), ts);
    }
    FilterMembers(LacksId(id), ts);
    if forall i :: 0 <= i < |ts| ==> ts[i].id != id {
      FilterKeepsAll(LacksId(id), ts);
    }
  }

  /** Active shows exactly the open tasks, Done exactly the completed ones, each in order; together they are the whole list. */
  lemma FilterPartitions(ts: seq<Task>)
    ensures Filtered(ts, All) == ts
    ensures forall t :: t in Filtered(ts, Active) <==> t in ts && !t.completed
    ensures forall t :: t in Filtered(ts, Done) <==> t in ts && t.completed
    ensures IsSubsequence(Filtered(ts, Active), ts) && IsSubsequence(Filtered(ts, Done), ts)
    ensures multiset(Filtered(ts, Active)) + multiset(Filtered(ts, Done)) == multiset(ts)
  {
    FilterPartition(IsOpen, IsDone, ts);
    FilterMembers(IsOpen, ts);
    FilterMembers(IsDone, ts);
    FilterIsSubsequence(IsOpen, ts);
    FilterIsSubsequence(IsDone, ts);
  }

  /** The Tasks view: its list, filter and form fields, over the shared store. */
  class TasksView {
    const email: string
    const store: Store
    var tasks: seq<Task>
    var filter: TaskFilter
    var newTaskTitle: string
    var newTaskPriority: Priority

    ghost predicate Valid()
      reads this, store
    {
      store.Valid()
    }

    /** Mounting loads the user's stored tasks; the filter starts at All and the priority at Medium. */
    constructor (user: User, store: Store)
      requires store.Valid()
      ensures Valid() && this.store == store && email == user.email
      ensures tasks == TasksOf(store.entries, user.email)
      ensures filter == All && newTaskTitle == "" && newTaskPriority == Medium
    {
      this.email := user.email;
      this.store := store;
      new;
      tasks := store.GetUserTasks(user.email);
      filter := All;
      newTaskTitle := "";
      newTaskPriority := Medium;
    }

    /** `handleAddTask`: a blank title is ignored; otherwise the new open task goes first and the list is saved. */
    method AddTask(id: string, dueDate: string)
      requires Valid()
      modifies this, store
      ensures Valid()
      ensures IsBlank(old(newTaskTitle)) ==> tasks == old(tasks) && newTaskTitle == old(newTaskTitle) && store.entries == old(store.entries)
      ensures !IsBlank(old(newTaskTitle)) ==>
        && tasks == [NewTask(id, old(newTaskTitle), old(newTaskPriority), dueDate)] + old(tasks)
        && newTaskTitle == ""
        && store.entries == WithTasks(old(store.entries), email, tasks)
        && TasksOf(store.entries, email) == tasks
      ensures filter == old(filter) && newTaskPriority == old(newTaskPriority)
    {
      if IsBlank(newTaskTitle) {
        return;
      }
      var task := NewTask(id, newTaskTitle, newTaskPriority, dueDate);
      var updated := [task] + tasks;
      tasks := updated;
      store.SaveUserTasks(email, updated);
      SaveTasksThenRead(old(store.entries), email, updated);
      newTaskTitle := "";
    }

    /** `toggleTask(id)` */
    method ToggleTask(id: string)
      requires Valid()
      modifies this, store
      ensures Valid()
      ensures tasks == Toggled(old(tasks), id)
      ensures store.entries == WithTasks(old(store.entries), email, tasks)
      ensures TasksOf(store.entries, email) == tasks
      ensures filter == old(filter) && newTaskTitle == old(newTaskTitle) && newTaskPriority == old(newTaskPriority)
    {
      var updated := Toggled(tasks, id);
      tasks := updated;
      store.SaveUserTasks(email, updated);
      SaveTasksThenRead(old(store.entries), email, updated);
    }

    /** `deleteTask(id)` */
    method DeleteTask(id: string)
      requires Valid()
      modifies this, store
      ensures Valid()
      ensures tasks == Deleted(old(tasks), id)
      ensures store.entries == WithTasks(old(store.entries), email, tasks)
      ensures TasksOf(store.entries, email) == tasks
      ensures filter == old(filter) && newTaskTitle == old(newTaskTitle) && newTaskPriority == old(newTaskPriority)
    {
      var updated := Deleted(tasks, id);
      tasks := updated;
      store.SaveUserTasks(email, updated);
      SaveTasksThenRead(old(store.entries), email, updated);
    }
  }
}
