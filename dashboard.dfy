/** The dashboard page: its task list, the handlers that change it after the store answers,
    the view partition recomputed on every render, and the greeting name. */
module Dashboard {
  import opened Types
  import opened Seqs
  import opened Strings

  // ---------------------------------------------------------------------------
  // View partition

  predicate IsOpen(t: Task) { !t.completed }
  predicate IsHigh(t: Task) { t.priority == High }
  predicate IsNotHigh(t: Task) { t.priority != High }
  predicate IsDone(t: Task) { t.completed }

  /** `todayTasks`: the tasks not yet completed. */
  function TodayTasks(tasks: seq<Task>): seq<Task> {
    Filter(tasks, IsOpen)
  }

  /** `highPriorityTasks`: the open tasks of priority high. */
  function HighPriorityTasks(tasks: seq<Task>): seq<Task> {
    Filter(TodayTasks(tasks), IsHigh)
  }

  /** `otherTasks`: the open tasks of any other priority. */
  function OtherTasks(tasks: seq<Task>): seq<Task> {
    Filter(TodayTasks(tasks), IsNotHigh)
  }

  /** The completed tasks, which the page shows in no group. */
  ghost function CompletedTasks(tasks: seq<Task>): seq<Task> {
    Filter(tasks, IsDone)
  }

  /** The two displayed groups hold exactly the open tasks of high and of other priority; the inbox
      holds exactly the open tasks; completed tasks are in neither group. */
  lemma PartitionMembers(tasks: seq<Task>)
    ensures forall t :: t in TodayTasks(tasks) <==> t in tasks && !t.completed
    ensures forall t :: t in HighPriorityTasks(tasks) <==> t in tasks && !t.completed && t.priority == High
    ensures forall t :: t in OtherTasks(tasks) <==> t in tasks && !t.completed && t.priority != High
  {
  }

  /** The two groups split the inbox without overlap, and the inbox and the completed tasks split
      the whole list: every task is counted exactly once. */
  lemma PartitionCounts(tasks: seq<Task>)
    ensures multiset(HighPriorityTasks(tasks)) + multiset(OtherTasks(tasks)) == multiset(TodayTasks(tasks))
    ensures multiset(HighPriorityTasks(tasks)) !! multiset(OtherTasks(tasks))
    ensures |HighPriorityTasks(tasks)| + |OtherTasks(tasks)| == |TodayTasks(tasks)|
    ensures multiset(TodayTasks(tasks)) + multiset(CompletedTasks(tasks)) == multiset(tasks)
    ensures multiset(TodayTasks(tasks)) !! multiset(CompletedTasks(tasks))
  {
  }

  /** Both groups list their tasks in the order of the task list. */
  lemma PartitionOrder(tasks: seq<Task>)
    ensures Subseq(TodayTasks(tasks), tasks)
    ensures Subseq(HighPriorityTasks(tasks), tasks) && Subseq(OtherTasks(tasks), tasks)
  {
    FilterFilter(tasks, IsOpen, IsHigh);
    FilterFilter(tasks, IsOpen, IsNotHigh);
  }

  /** What the board shows: the inbox badge, the two groups and whether each is rendered,
      and the empty-state message. */
  datatype Board = Board(
    inboxCount: nat,
    high: seq<Task>,
    showHigh: bool,
    other: seq<Task>,
    showOther: bool,
    showEmpty: bool)

  function Render(tasks: seq<Task>): (b: Board)
    ensures b.high == HighPriorityTasks(tasks) && b.other == OtherTasks(tasks)
    ensures b.inboxCount == |TodayTasks(tasks)| == |b.high| + |b.other|
    ensures b.showHigh <==> exists t :: t in tasks && !t.completed && t.priority == High
    ensures b.showOther <==> exists t :: t in tasks && !t.completed && t.priority != High
    ensures b.showEmpty <==> tasks == []
  {
    PartitionMembers(tasks);
    PartitionCounts(tasks);
    var high, other := HighPriorityTasks(tasks), OtherTasks(tasks);
    assert high != [] ==> high[0] in high;
    assert other != [] ==> other[0] in other;
    Board(|TodayTasks(tasks)|, high, |high| > 0, other, |other| > 0, |tasks| == 0)
  }

  /** A list holding only completed tasks shows no group and no empty-state message either. */
  lemma OnlyCompletedShowsNothing(tasks: seq<Task>)
    requires tasks != []
    requires forall t :: t in tasks ==> t.completed
    ensures Render(tasks).inboxCount == 0
    ensures !Render(tasks).showHigh && !Render(tasks).showOther && !Render(tasks).showEmpty
  {
  }

  // ---------------------------------------------------------------------------
  // List transforms applied by the handlers

  /** `tasks.map(task => task.id === taskId ? { ...task, completed: value } : task)`. */
  function ToggleMatching(tasks: seq<Task>, taskId: string, value: bool): (r: seq<Task>)
    ensures |r| == |tasks|
    ensures forall i :: 0 <= i < |r| ==> r[i].(completed := tasks[i].completed) == tasks[i]
    ensures forall i :: 0 <= i < |r| ==> r[i].completed == (if tasks[i].id == taskId then value else tasks[i].completed)
  {
    if tasks == [] then []
    else
      var t := tasks[0];
      [if t.id == taskId then t.(completed := value) else t] + ToggleMatching(tasks[1..], taskId, value)
  }

  /** The filter predicate of the delete handler: `task => task.id !== taskId`. */
  function IdIsNot(taskId: string): Task -> bool {
    (t: Task) => t.id != taskId
  }

  /** `tasks.filter(task => task.id !== taskId)`. */
  function WithoutTask(tasks: seq<Task>, taskId: string): (r: seq<Task>)
    ensures forall t :: t in r ==> t.id != taskId
    ensures forall t: Task :: t.id != taskId ==> multiset(r)[t] == multiset(tasks)[t]
    ensures Subseq(r, tasks)
  {
    Filter(tasks, IdIsNot(taskId))
  }

  /** The value written comes from the argument alone, so toggling twice with the same argument
      changes nothing the first call did not. */
  lemma {:induction false} ToggleIdempotent(tasks: seq<Task>, taskId: string, value: bool)
    ensures ToggleMatching(ToggleMatching(tasks, taskId, value), taskId, value) == ToggleMatching(tasks, taskId, value)
  {
  }

  /** Deleting is idempotent. */
  lemma DeleteIdempotent(tasks: seq<Task>, taskId: string)
    ensures WithoutTask(WithoutTask(tasks, taskId), taskId) == WithoutTask(tasks, taskId)
  {
    FilterKeepsAll(WithoutTask(tasks, taskId), IdIsNot(taskId));
  }

  /** Deleting the row just added, when its id was fresh, gives back the list before the add. */
  lemma DeleteUndoesAdd(tasks: seq<Task>, row: Task)
    requires forall t :: t in tasks ==> t.id != row.id
    ensures WithoutTask([row] + tasks, row.id) == tasks
  {
    assert ([row] + tasks)[1..] == tasks;
    FilterKeepsAll(tasks, IdIsNot(row.id));
  }

  /** Marking a task completed takes exactly the tasks with that id out of the inbox and leaves
      the rest of the inbox in order. */
  lemma {:induction false} CompletingLeavesInbox(tasks: seq<Task>, taskId: string)
    ensures TodayTasks(ToggleMatching(tasks, taskId, true)) == WithoutTask(TodayTasks(tasks), taskId)
  {
    if tasks != [] {
      CompletingLeavesInbox(tasks[1..], taskId);
      var r := ToggleMatching(tasks, taskId, true);
      assert r[1..] == ToggleMatching(tasks[1..], taskId, true);
    }
  }

  // ---------------------------------------------------------------------------
  // Greeting name

  /** The user has a non-empty `user_metadata.full_name`. */
  predicate HasFullName(user: Option<User>) {
    user.Some? && user.value.fullName.Some? && user.value.fullName.value != ""
  }

  /** The user has an email whose part before the first '@' is non-empty. */
  predicate HasMailbox(user: Option<User>) {
    user.Some? && user.value.email.Some? && BeforeFirst(user.value.email.value, '@') != ""
  }

  /** `getUserName`: first word of the full name, else the mailbox part of the email, else "User". */
  function GetUserName(user: Option<User>): (r: string)
    ensures HasFullName(user) ==>
      var name := user.value.fullName.value;
      r <= name && ' ' !in r && (|r| < |name| ==> name[|r|] == ' ')
    ensures !HasFullName(user) && HasMailbox(user) ==>
      var email := user.value.email.value;
      r != "" && r <= email && '@' !in r && (|r| < |email| ==> email[|r|] == '@')
    ensures !HasFullName(user) && !HasMailbox(user) ==> r == "User"
    ensures r == "" ==> HasFullName(user) && user.value.fullName.value[0] == ' '
  {
    if HasFullName(user) then BeforeFirst(user.value.fullName.value, ' ')
    else if HasMailbox(user) then BeforeFirst(user.value.email.value, '@')
    else "User"
  }

  // ---------------------------------------------------------------------------
  // Component state and handlers

  /** The update the toggle handler sends: `update({ completed }).eq("id", id)`. */
  datatype CompletionUpdate = CompletionUpdate(id: string, completed: bool)

  /** What the page renders: the loading screen, or the board with the greeting name. */
  datatype Screen = Loading | Dashboard(board: Board, userName: string)

  /** The dashboard component; its state hooks are fields, and each handler is a method that
      receives the store's reply as a parameter. Handlers run one at a time. */
  class DashboardPage {
    var tasks: seq<Task>
    var projects: seq<Project>
    var newTaskTitle: string
    var user: Option<User>
    var loading: bool

    constructor ()
      ensures tasks == [] && projects == [] && newTaskTitle == "" && user == None && loading
    {
      tasks, projects, newTaskTitle, user, loading := [], [], "", None, true;
    }

    function View(): (s: Screen)
      reads this
      ensures s.Loading? <==> loading
      ensures s.Dashboard? ==> s.board == Render(tasks) && s.userName == GetUserName(user)
    {
      if loading then Loading else Dashboard(Render(tasks), GetUserName(user))
    }

    /** `checkUser`: remembers the session's user; without a session the page navigates away (not modelled). */
    method CheckUser(session: Option<Session>)
      modifies this`user
      ensures user == if session.Some? then Some(session.value.user) else old(user)
    {
      if session.Some? {
        user := Some(session.value.user);
      }
    }

    /** `loadTasks`: with a session, selects the user's tasks; returns the user id the query was scoped to. */
    method LoadTasks(session: Option<Session>, reply: StoreReply<Option<seq<Task>>>) returns (scope: Option<string>)
      modifies this`tasks, this`loading
      ensures scope == if session.Some? then Some(session.value.user.id) else None
      ensures session.None? ==> tasks == old(tasks) && loading == old(loading)
      ensures session.Some? ==> !loading
      ensures session.Some? && reply.Error? ==> tasks == old(tasks)
      ensures session.Some? && reply.Ok? ==> tasks == if reply.data.Some? then reply.data.value else []
    {
      if session.None? {
        return None;
      }
      scope := Some(session.value.user.id);
      match reply {
        case Error(_) =>
        case Ok(data) =>
          tasks := if data.Some? then data.value else [];
      }
      loading := false;
    }

    /** `loadProjects`: with a session, selects the user's projects. */
    method LoadProjects(session: Option<Session>, reply: StoreReply<Option<seq<Project>>>) returns (scope: Option<string>)
      modifies this`projects
      ensures scope == if session.Some? then Some(session.value.user.id) else None
      ensures session.None? || reply.Error? ==> projects == old(projects)
      ensures session.Some? && reply.Ok? ==> projects == if reply.data.Some? then reply.data.value else []
    {
      if session.None? {
        return None;
      }
      scope := Some(session.value.user.id);
      if reply.Ok? {
        projects := if reply.data.Some? then reply.data.value else [];
      }
    }

    /** `handleAddTask`: a blank title (after trimming) sends nothing; otherwise the untrimmed
        title is inserted as an open, low-priority task owned by the session user, and on success
        the returned row is prepended and the input cleared. */
    method AddTask(session: Option<Session>, reply: StoreReply<Task>) returns (sent: Option<NewTodo>)
      modifies this`tasks, this`newTaskTitle
      ensures sent.Some? <==> !IsBlank(old(newTaskTitle)) && session.Some?
      ensures sent.Some? ==> sent.value == NewTodo(old(newTaskTitle), Low, None, None, session.value.user.id, false)
      ensures sent.Some? && reply.Ok? ==> tasks == [reply.data] + old(tasks) && newTaskTitle == ""
      ensures sent.None? || reply.Error? ==> tasks == old(tasks) && newTaskTitle == old(newTaskTitle)
    {
      TrimEmptyIffBlank(newTaskTitle);
      if Trim(newTaskTitle) == "" {
        return None;
      }
      if session.None? {
        return None;
      }
      sent := Some(NewTodo(newTaskTitle, Low, None, None, session.value.user.id, false));
      if reply.Ok? {
        tasks := [reply.data] + tasks;
        newTaskTitle := "";
      }
    }

    /** `handleToggleTask`: sends `completed := !completed` for the id, and on success writes that
        same value into every local task with the id. */
    method ToggleTask(taskId: string, completed: bool, reply: StoreReply<()>) returns (sent: CompletionUpdate)
      modifies this`tasks
      ensures sent == CompletionUpdate(taskId, !completed)
      ensures tasks == if reply.Ok? then ToggleMatching(old(tasks), taskId, !completed) else old(tasks)
    {
      sent := CompletionUpdate(taskId, !completed);
      if reply.Ok? {
        tasks := ToggleMatching(tasks, taskId, !completed);
      }
    }

    /** `handleDeleteTask`: deletes by id (the id sent is returned), and on success drops every
        local task with the id. */
    method DeleteTask(taskId: string, reply: StoreReply<()>) returns (sent: string)
      modifies this`tasks
      ensures sent == taskId
      ensures tasks == if reply.Ok? then WithoutTask(old(tasks), taskId) else old(tasks)
    {
      sent := taskId;
      if reply.Ok? {
        tasks := WithoutTask(tasks, taskId);
      }
    }
  }
}
