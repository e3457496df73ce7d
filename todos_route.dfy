/** The `/api/todos` collection handlers, GET (list) and POST (create), as decisions from the
    session, the request body and the store's answer to a response and the calls made. */
module TodosRoute {
  import opened Types
  import opened Seqs
  import opened Strings

  /** The outcome of looking up the session: none, a session, or an exception. */
  datatype Auth = Anonymous | SignedIn(session: Session) | AuthThrew(message: string)

  /** The JSON body of a create request; `None` is an absent (or null) field. */
  datatype TodoBody = TodoBody(
    title: Option<string>,
    priority: Option<Priority>,
    projectId: Option<string>,
    dueDate: Option<string>)

  /** `request.json()`: the parsed body, or the exception it throws. */
  datatype Payload = Parsed(body: TodoBody) | Malformed(message: string)

  datatype ResponseBody = ErrorBody(error: string) | ListBody(rows: seq<Task>) | RowBody(row: Task)

  datatype Response = Response(status: nat, body: ResponseBody)

  /** The effects a handler has beyond the session lookup: reading the body, one select, one insert. */
  datatype Call = ReadBody | SelectOwn(userId: string) | Insert(row: NewTodo)

  datatype Handled = Handled(response: Response, calls: seq<Call>)

  const Unauthorized := Response(401, ErrorBody("Unauthorized"))
  const TitleRequired := Response(400, ErrorBody("Title is required"))

  /** A store error or any exception becomes a 500 carrying its message unchanged. */
  function ServerError(message: string): Response {
    Response(500, ErrorBody(message))
  }

  // ---------------------------------------------------------------------------
  // GET: the caller's rows, newest first

  function OwnedBy(userId: string): Task -> bool {
    (t: Task) => t.userId == userId
  }

  /** `.eq("user_id", userId)` */
  function Owned(table: seq<Task>, userId: string): (r: seq<Task>)
    ensures forall t :: t in r <==> t in table && t.userId == userId
    ensures forall t: Task :: t.userId == userId ==> multiset(r)[t] == multiset(table)[t]
  {
    Filter(table, OwnedBy(userId))
  }

  /** `.order("created_at", { ascending: false })`: no row is newer than one listed before it.
      Timestamps are compared as their ISO-8601 text. */
  ghost predicate NewestFirst(rows: seq<Task>) {
    forall i, j :: 0 <= i < j < |rows| ==> LexLe(rows[j].createdAt, rows[i].createdAt)
  }

  function InsertByAge(row: Task, rows: seq<Task>): (r: seq<Task>)
    ensures multiset(r) == multiset(rows) + multiset{row}
  {
    if rows == [] || LexLe(rows[0].createdAt, row.createdAt) then [row] + rows
    else
      assert rows == [rows[0]] + rows[1..];
      [rows[0]] + InsertByAge(row, rows[1..])
  }

  function SortNewestFirst(rows: seq<Task>): (r: seq<Task>)
    ensures multiset(r) == multiset(rows)
  {
    if rows == [] then []
    else
      assert rows == [rows[0]] + rows[1..];
      InsertByAge(rows[0], SortNewestFirst(rows[1..]))
  }

  lemma {:induction false} InsertByAgeKeepsOrder(row: Task, rows: seq<Task>)
    requires NewestFirst(rows)
    ensures NewestFirst(InsertByAge(row, rows))
  {
    if rows == [] {
    } else if LexLe(rows[0].createdAt, row.createdAt) {
      forall j | 0 <= j < |rows| ensures LexLe(rows[j].createdAt, row.createdAt) {
        if j > 0 {
          LexLeTransitive(rows[j].createdAt, rows[0].createdAt, row.createdAt);
        }
      }
    } else {
      LexLeTotal(rows[0].createdAt, row.createdAt);
      var tail := InsertByAge(row, rows[1..]);
      InsertByAgeKeepsOrder(row, rows[1..]);
      forall k | 0 <= k < |tail| ensures LexLe(tail[k].createdAt, rows[0].createdAt) {
        assert tail[k] in multiset(tail);
        if tail[k] != row {
          var j :| 1 <= j < |rows| && rows[j] == tail[k] by {
            assert tail[k] in multiset(rows[1..]);
            assert tail[k] in rows[1..];
          }
        }
      }
    }
  }

  lemma {:induction false} SortNewestFirstOrders(rows: seq<Task>)
    ensures NewestFirst(SortNewestFirst(rows))
  {
    if rows != [] {
      SortNewestFirstOrders(rows[1..]);
      InsertByAgeKeepsOrder(rows[0], SortNewestFirst(rows[1..]));
    }
  }

  /** `GET /api/todos`. `failure` is the store's error for the select, if it reports one. */
  function Get(auth: Auth, table: seq<Task>, failure: Option<string>): (h: Handled)
    ensures auth.Anonymous? ==> h == Handled(Unauthorized, [])
    ensures auth.AuthThrew? ==> h == Handled(ServerError(auth.message), [])
    ensures auth.SignedIn? ==> h.calls == [SelectOwn(auth.session.user.id)]
    ensures auth.SignedIn? && failure.Some? ==> h.response == ServerError(failure.value)
    ensures h.response.status == 200 <==> auth.SignedIn? && failure.None?
    ensures h.response.status == 200 ==> h.response.body.ListBody?
    ensures h.response.status == 200 ==>
      var uid, rows := auth.session.user.id, h.response.body.rows;
      (forall t :: t in rows ==> t.userId == uid)
      && (forall t :: t in table && t.userId == uid ==> t in rows)
      && multiset(rows) == multiset(Owned(table, uid))
      && NewestFirst(rows)
  {
    match auth
    case AuthThrew(message) => Handled(ServerError(message), [])
    case Anonymous => Handled(Unauthorized, [])
    case SignedIn(session) =>
      var uid := session.user.id;
      var calls := [SelectOwn(uid)];
      if failure.Some? then Handled(ServerError(failure.value), calls)
      else
        var rows := SortNewestFirst(Owned(table, uid));
        SortNewestFirstOrders(Owned(table, uid));
        assert forall t :: t in rows <==> t in multiset(Owned(table, uid));
        Handled(Response(200, ListBody(rows)), calls)
  }

  // ---------------------------------------------------------------------------
  // POST: create one todo for the caller

  /** `!title`: absent, null or the empty string. A title of spaces is truthy. */
  predicate IsFalsy(title: Option<string>) {
    title.None? || title.value == ""
  }

  /** The row POST inserts: the body's fields with `priority` defaulting to low, never completed,
      owned by the caller whatever the body says. */
  function RowToInsert(body: TodoBody, userId: string): (n: NewTodo)
    requires !IsFalsy(body.title)
    ensures n.title == body.title.value && n.projectId == body.projectId && n.dueDate == body.dueDate
    ensures body.priority.None? ==> n.priority == Low
    ensures body.priority.Some? ==> n.priority == body.priority.value
    ensures !n.completed && n.userId == userId
  {
    NewTodo(body.title.value, if body.priority.Some? then body.priority.value else Low,
            body.projectId, body.dueDate, userId, false)
  }

  /** `POST /api/todos`. `reply` is the store's answer to the insert (the inserted row, or an error);
      it is ignored when no insert is made. */
  function Post(auth: Auth, payload: Payload, reply: StoreReply<Task>): (h: Handled)
    ensures auth.Anonymous? ==> h == Handled(Unauthorized, [])
    ensures auth.AuthThrew? ==> h == Handled(ServerError(auth.message), [])
    ensures auth.SignedIn? ==> h.calls != [] && h.calls[0] == ReadBody
    ensures auth.SignedIn? && payload.Malformed? ==> h == Handled(ServerError(payload.message), [ReadBody])
    ensures auth.SignedIn? && payload.Parsed? && IsFalsy(payload.body.title) ==> h == Handled(TitleRequired, [ReadBody])
    ensures h.response.status == 400 <==> auth.SignedIn? && payload.Parsed? && IsFalsy(payload.body.title)
    ensures (exists n :: Insert(n) in h.calls) <==> auth.SignedIn? && payload.Parsed? && !IsFalsy(payload.body.title)
    ensures auth.SignedIn? && payload.Parsed? && !IsFalsy(payload.body.title) ==>
      h.calls == [ReadBody, Insert(RowToInsert(payload.body, auth.session.user.id))]
      && h.response == (if reply.Ok? then Response(201, RowBody(reply.data)) else ServerError(reply.message))
    ensures h.response.status == 201 <==> auth.SignedIn? && payload.Parsed? && !IsFalsy(payload.body.title) && reply.Ok?
  {
    match auth
    case AuthThrew(message) => Handled(ServerError(message), [])
    case Anonymous => Handled(Unauthorized, [])
    case SignedIn(session) =>
      match payload
      case Malformed(message) => Handled(ServerError(message), [ReadBody])
      case Parsed(body) =>
        if IsFalsy(body.title) then Handled(TitleRequired, [ReadBody])
        else
          var row := RowToInsert(body, session.user.id);
          var calls := [ReadBody, Insert(row)];
          assert Insert(row) in calls;
          match reply
          case Error(message) => Handled(ServerError(message), calls)
          case Ok(data) => Handled(Response(201, RowBody(data)), calls)
  }

  // ---------------------------------------------------------------------------
  // Scenarios across the two handlers

  /** The row the store creates for an insert, with its server-assigned id and timestamp. */
  function StoredRow(n: NewTodo, id: string, createdAt: string): Task {
    Task(id, n.title, n.completed, n.priority, n.dueDate, n.projectId, None, n.userId, createdAt, createdAt)
  }

  /** Create `{title}` without a priority: the store gets an open, low-priority row for the caller;
      once stored, the caller's list shows it and another user's list does not. */
  lemma CreateThenList(caller: Session, other: Session, title: string, table: seq<Task>, id: string, createdAt: string)
    requires title != ""
    requires other.user.id != caller.user.id
    ensures var body := TodoBody(Some(title), None, None, None);
      var n := RowToInsert(body, caller.user.id);
      var row := StoredRow(n, id, createdAt);
      var created := Post(SignedIn(caller), Parsed(body), Ok(row));
      created.response == Response(201, RowBody(row))
      && !row.completed && row.priority == Low && row.userId == caller.user.id
      && row in Get(SignedIn(caller), table + [row], None).response.body.rows
      && row !in Get(SignedIn(other), table + [row], None).response.body.rows
  {
  }

  /** Any non-empty title made only of white space passes the route's check, although the
      dashboard's `trim` check would refuse it. */
  lemma BlankTitlesAccepted(caller: Session, title: string, reply: StoreReply<Task>)
    requires title != "" && IsBlank(title)
    ensures Trim(title) == []
    ensures Post(SignedIn(caller), Parsed(TodoBody(Some(title), None, None, None)), reply).response.status != 400
  {
    TrimEmptyIffBlank(title);
  }
}
