/** Records shared by the dashboard, the auth forms and the todo route handlers. */
module Types {

  datatype Option<+T> = None | Some(value: T)

  /** The three priorities a task may carry. */
  datatype Priority = High | Medium | Low

  datatype Project = Project(
    id: string,
    name: string,
    color: string,
    userId: string,
    createdAt: string,
    updatedAt: string)

  /** A row of the `todos` table, as the store returns it (optionally joined with its project). */
  datatype Task = Task(
    id: string,
    title: string,
    completed: bool,
    priority: Priority,
    dueDate: Option<string>,
    projectId: Option<string>,
    project: Option<Project>,
    userId: string,
    createdAt: string,
    updatedAt: string)

  /** The authenticated user as the session reports it (`user_metadata.full_name` and `email`). */
  datatype User = User(id: string, email: Option<string>, fullName: Option<string>)

  datatype Session = Session(user: User)

  /** The payload of an insert into `todos`: what the client or the route sends, before the store adds id and timestamps. */
  datatype NewTodo = NewTodo(
    title: string,
    priority: Priority,
    projectId: Option<string>,
    dueDate: Option<string>,
    userId: string,
    completed: bool)

  /** What a call to the hosted store answers: its data, or an error carrying a message. */
  datatype StoreReply<+T> = Ok(data: T) | Error(message: string)
}
