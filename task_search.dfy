/** The Google Tasks tools of `google_tasks_tools.py`: `create_google_task` with its duplicate
    check, `search_google_tasks` and `find_near_due_date_tasks`.

    These tools catch only `HttpError`: any other exception leaves the tool, which the model
    records as `Raised`. The service is an oracle as in `TaskTools`. */
module TaskSearch {
  import opened Wrappers
  import opened Text
  import opened Service
  import DateTimes

  type Task = map<string, string>

  function GetOr(t: Task, key: string, default: string): string {
    if key in t then t[key] else default
  }

  function Get(t: Task, key: string): Option<string> {
    if key in t then Some(t[key]) else None
  }

  /** `str(KeyError(key))`. */
  function KeyError(key: string): string {
    "'" + key + "'"
  }

  /** The projection of a task the tools hand back to the model. */
  datatype Summary = Summary(id: string, title: string, due: Option<string>)

  /** What a tool gives the model: a message, a list of task summaries, or an exception. */
  datatype ToolResult = Text(text: string) | Records(records: seq<Summary>) | Raised(error: string)

  /** The requests a tool makes: building the service, the list of open tasks, the list of
      open tasks due between two RFC 3339 times, the insert. */
  datatype Call = Connect | ListOpen | ListDueSoon(dueMin: string, dueMax: string) | Insert(body: Task)

  const AuthFailed := "Lỗi xác thực Google."
  const NoMatch := "Không tìm thấy công việc nào khớp với từ khóa của bạn."
  const CreateHttpFailed := "Đã xảy ra lỗi khi tạo công việc: "
  const SearchHttpFailed := "Đã xảy ra lỗi khi tìm kiếm công việc: "
  const NearDueHttpFailed := "Đã xảy ra lỗi khi tìm công việc sắp hết hạn: "
  const DueSuffix := "T00:00:00.000Z"

  function Duplicate(title: string): string {
    "Cảnh báo: Một công việc với tiêu đề '" + title + "' đã tồn tại. Không tạo task mới."
  }

  function NoneDueSoon(days: int): string {
    "Không có công việc nào sắp hết hạn trong vòng " + IntToDecimal(days) + " ngày tới."
  }

  /** The title check of the duplicate loop: equal titles ignoring case. */
  predicate SameTitle(task: Task, title: string) {
    Lower(GetOr(task, "title", "")) == Lower(title)
  }

  /** The duplicate check ignores case: a title and its lower-cased form find the same
      duplicates. */
  lemma CaseOfTitleIrrelevant(task: Task, title: string)
    ensures SameTitle(task, Lower(title)) <==> SameTitle(task, title)
  {
    LowerIdempotent(title);
  }

  /** The insert body: the title, the notes when given, and the due date given with the
      midnight suffix appended as it is, without any check of its format. */
  function NewTaskBody(title: string, notes: Option<string>, dueDate: Option<string>): (body: Task)
    ensures "title" in body && body["title"] == title
    ensures "notes" in body <==> Truthy(notes)
    ensures "notes" in body ==> body["notes"] == notes.value
    ensures "due" in body <==> Truthy(dueDate)
    ensures "due" in body ==> body["due"] == dueDate.value + DueSuffix
    ensures body.Keys <= {"title", "notes", "due"}
  {
    var withTitle := map["title" := title];
    var withNotes := if Truthy(notes) then withTitle["notes" := notes.value] else withTitle;
    if Truthy(dueDate) then withNotes["due" := dueDate.value + DueSuffix] else withNotes
  }

  /** The reply after a successful insert: `result['title']` and `result['id']`, read in
      that order. */
  function CreatedReply(result: Task): (r: ToolResult)
    ensures r.Text? <==> "title" in result && "id" in result
  {
    if "title" !in result then Raised(KeyError("title"))
    else if "id" !in result then Raised(KeyError("id"))
    else Text("Tạo công việc thành công! Tên: '" + result["title"] + "', ID: " + result["id"])
  }

  /** `create_google_task(title, notes, due_date)`; `list` answers the list of open tasks,
      `insert` the insert request. */
  method CreateTask(title: string, notes: Option<string>, dueDate: Option<string>,
                    conn: Connection, list: Response<seq<Task>>, insert: Response<Task>)
    returns (result: ToolResult, calls: seq<Call>)
    ensures conn.NoService? ==> result == Text(AuthFailed) && calls == [Connect]
    ensures conn.ConnectFailed? ==> result == Raised(conn.detail) && calls == [Connect]
    ensures conn.Connected? && list.HttpError? ==> result == Text(CreateHttpFailed + list.detail) && calls == [Connect, ListOpen]
    ensures conn.Connected? && list.Failure? ==> result == Raised(list.detail) && calls == [Connect, ListOpen]
    ensures conn.Connected? && list.Ok? && (exists i :: 0 <= i < |list.value| && SameTitle(list.value[i], title)) ==>
      result == Text(Duplicate(title)) && calls == [Connect, ListOpen]
    ensures conn.Connected? && list.Ok? && (forall i :: 0 <= i < |list.value| ==> !SameTitle(list.value[i], title)) ==>
      calls == [Connect, ListOpen, Insert(NewTaskBody(title, notes, dueDate))] &&
      result == match insert
        case Ok(created) => CreatedReply(created)
        case HttpError(_, detail) => Text(CreateHttpFailed + detail)
        case Failure(detail) => Raised(detail)
  {
    calls := [Connect];
    if conn.NoService? {
      return Text(AuthFailed), calls;
    }
    if conn.ConnectFailed? {
      return Raised(conn.detail), calls;
    }
    calls := calls + [ListOpen];
    match list {
      case HttpError(_, detail) => return Text(CreateHttpFailed + detail), calls;
      case Failure(detail) => return Raised(detail), calls;
      case Ok(_) =>
    }
    var existing := list.value;
    var k := 0;
    while k < |existing|
      invariant 0 <= k <= |existing|
      invariant forall i :: 0 <= i < k ==> !SameTitle(existing[i], title)
    {
      if Lower(GetOr(existing[k], "title", "")) == Lower(title) {
        return Text(Duplicate(title)), calls;
      }
      k := k + 1;
    }
    var body: Task := map["title" := title];
    if Truthy(notes) {
      body := body["notes" := notes.value];
    }
    if Truthy(dueDate) {
      body := body["due" := dueDate.value + DueSuffix];
    }
    calls := calls + [Insert(body)];
    match insert {
      case Ok(created) => result := CreatedReply(created);
      case HttpError(_, detail) => result := Text(CreateHttpFailed + detail);
      case Failure(detail) => result := Raised(detail);
    }
  }

  /** The search filter: the lower-cased query occurs in the lower-cased title or notes,
      a missing field counting as empty. */
  predicate Matches(query: string, task: Task) {
    Contains(Lower(GetOr(task, "title", "")), Lower(query)) ||
    Contains(Lower(GetOr(task, "notes", "")), Lower(query))
  }

  /** `[task for task in all_tasks if ...]`. */
  function Filter(query: string, tasks: seq<Task>): (kept: seq<Task>)
    ensures |kept| <= |tasks|
    ensures forall t :: t in kept <==> t in tasks && Matches(query, t)
  {
    if tasks == [] then []
    else (if Matches(query, tasks[0]) then [tasks[0]] else []) + Filter(query, tasks[1..])
  }

  /** The filter keeps the service's order: filtering a concatenation filters each part. */
  lemma {:induction false} FilterAppend(query: string, a: seq<Task>, b: seq<Task>)
    ensures Filter(query, a + b) == Filter(query, a) + Filter(query, b)
  {
    if a != [] {
      assert (a + b)[0] == a[0] && (a + b)[1..] == a[1..] + b;
      FilterAppend(query, a[1..], b);
    } else {
      assert a + b == b;
    }
  }

  /** An empty query matches every task. */
  lemma {:induction false} EmptyQueryKeepsAll(tasks: seq<Task>)
    ensures Filter("", tasks) == tasks
  {
    if tasks != [] {
      assert Matches("", tasks[0]) by {
        assert "" <= Lower(GetOr(tasks[0], "title", ""))[0..];
      }
      EmptyQueryKeepsAll(tasks[1..]);
    }
  }

  /** The projection `{"id": task["id"], "title": task["title"], "due": ...}` over `tasks`,
      `due` being `task.get("due", default)`; the first task without an id or a title
      raises `KeyError`. */
  function Project(tasks: seq<Task>, dueDefault: Option<string>): (r: Result<seq<Summary>, string>)
    ensures r.Ok? <==> forall i :: 0 <= i < |tasks| ==> "id" in tasks[i] && "title" in tasks[i]
    ensures r.Ok? ==> |r.value| == |tasks|
    ensures r.Ok? ==> forall i :: 0 <= i < |tasks| ==>
      r.value[i] == Summary(tasks[i]["id"], tasks[i]["title"], if "due" in tasks[i] then Some(tasks[i]["due"]) else dueDefault)
    ensures r.Err? ==> r.error == KeyError("id") || r.error == KeyError("title")
  {
    if tasks == [] then Result.Ok([])
    else
      var t := tasks[0];
      if "id" !in t then Err(KeyError("id"))
      else if "title" !in t then Err(KeyError("title"))
      else
        match Project(tasks[1..], dueDefault)
        case Err(e) => Err(e)
        case Ok(rest) =>
          var s := Summary(t["id"], t["title"], if "due" in t then Some(t["due"]) else dueDefault);
          assert forall i :: 1 <= i < |tasks| ==> tasks[i] == tasks[1..][i - 1];
          Result.Ok([s] + rest)
  }

  /** The `KeyError` is that of the first task lacking a key, `id` being read before
      `title`. */
  lemma {:induction false} ProjectFirstError(tasks: seq<Task>, dueDefault: Option<string>, k: nat)
    requires k < |tasks| && !("id" in tasks[k] && "title" in tasks[k])
    requires forall i :: 0 <= i < k ==> "id" in tasks[i] && "title" in tasks[i]
    ensures Project(tasks, dueDefault) == Err(if "id" !in tasks[k] then KeyError("id") else KeyError("title"))
  {
    if k > 0 {
      assert forall i :: 0 <= i < k - 1 ==> tasks[1..][i] == tasks[i + 1];
      ProjectFirstError(tasks[1..], dueDefault, k - 1);
    }
  }

  /** `search_google_tasks(query)`; `list` answers the list of open tasks. */
  method SearchTasks(query: string, conn: Connection, list: Response<seq<Task>>)
    returns (result: ToolResult, calls: seq<Call>)
    ensures conn.NoService? ==> result == Text(AuthFailed) && calls == [Connect]
    ensures conn.ConnectFailed? ==> result == Raised(conn.detail) && calls == [Connect]
    ensures conn.Connected? ==> calls == [Connect, ListOpen]
    ensures conn.Connected? && list.HttpError? ==> result == Text(SearchHttpFailed + list.detail)
    ensures conn.Connected? && list.Failure? ==> result == Raised(list.detail)
    ensures conn.Connected? && list.Ok? && Filter(query, list.value) == [] ==> result == Text(NoMatch)
    ensures conn.Connected? && list.Ok? && Filter(query, list.value) != [] ==>
      result == match Project(Filter(query, list.value), Some("Không có"))
        case Ok(records) => Records(records)
        case Err(e) => Raised(e)
  {
    calls := [Connect];
    if conn.NoService? {
      return Text(AuthFailed), calls;
    }
    if conn.ConnectFailed? {
      return Raised(conn.detail), calls;
    }
    calls := calls + [ListOpen];
    match list {
      case HttpError(_, detail) => result := Text(SearchHttpFailed + detail);
      case Failure(detail) => result := Raised(detail);
      case Ok(all) =>
        var matching := Filter(query, all);
        if matching == [] {
          result := Text(NoMatch);
        } else {
          match Project(matching, Some("Không có")) {
            case Ok(records) => result := Records(records);
            case Err(e) => result := Raised(e);
          }
        }
    }
  }

  /** The largest day count `timedelta` accepts. */
  const MaxDeltaDays := 999999999

  /** The range of a C `int`, which `timedelta` converts its day count to first. */
  const CIntLimit := 0x8000_0000

  /** `now + timedelta(days=days)`: the instant `days` days away, or the text of the
      `OverflowError` raised by `timedelta` for a day count it cannot hold or by the
      addition outside years 1 to 9999. */
  function DueMax(now: DateTimes.ValidDateTime, days: int): (r: Result<DateTimes.ValidDateTime, string>)
    ensures r.Ok? <==>
      -MaxDeltaDays <= days <= MaxDeltaDays &&
      1 <= DateTimes.Ordinal(now.date) + days <= DateTimes.Ordinal(DateTimes.LastDate)
    ensures r.Ok? ==>
      DateTimes.WallSeconds(r.value) == DateTimes.WallSeconds(now) + days * 86400 &&
      r.value.offset == now.offset && r.value.micro == now.micro
    ensures (days < -CIntLimit || days >= CIntLimit) ==> r == Err("Python int too large to convert to C int")
    ensures -CIntLimit <= days < CIntLimit && (days < -MaxDeltaDays || days > MaxDeltaDays) ==>
      r == Err("days=" + IntToDecimal(days) + "; must have magnitude <= 999999999")
    ensures -MaxDeltaDays <= days <= MaxDeltaDays && r.Err? ==> r.error == "date value out of range"
  {
    if days < -CIntLimit || days >= CIntLimit then Err("Python int too large to convert to C int")
    else if days < -MaxDeltaDays || days > MaxDeltaDays then
      Err("days=" + IntToDecimal(days) + "; must have magnitude <= 999999999")
    else DateTimes.PlusDays(now, days)
  }

  /** The request of `find_near_due_date_tasks`: open tasks due from now to `due_max_dt`,
      both written as naive UTC `isoformat` followed by `Z`. */
  function DueSoonRequest(now: DateTimes.ValidDateTime, dueMax: DateTimes.ValidDateTime): Call {
    ListDueSoon(DateTimes.IsoFormat(now) + "Z", DateTimes.IsoFormat(dueMax) + "Z")
  }

  /** `find_near_due_date_tasks(days)`: `utcNow` is the UTC clock `utcnow()` reads, and
      `list` answers the list of open tasks due within `days` days of now. The
      `OverflowError` of `now + timedelta(days=days)` is not an `HttpError`, so it leaves the
      tool before any listing. */
  method FindNearDueDateTasks(days: int, utcNow: DateTimes.ValidDateTime, conn: Connection,
                              list: Response<seq<Task>>)
    returns (result: ToolResult, calls: seq<Call>)
    ensures conn.NoService? ==> result == Text(AuthFailed) && calls == [Connect]
    ensures conn.ConnectFailed? ==> result == Raised(conn.detail) && calls == [Connect]
    ensures conn.Connected? ==>
      match DueMax(DateTimes.Naive(utcNow), days)
      case Err(e) => result == Raised(e) && calls == [Connect]
      case Ok(later) => calls == [Connect, DueSoonRequest(DateTimes.Naive(utcNow), later)]
    ensures conn.Connected? && DueMax(DateTimes.Naive(utcNow), days).Ok? ==>
      (list.HttpError? ==> result == Text(NearDueHttpFailed + list.detail)) &&
      (list.Failure? ==> result == Raised(list.detail)) &&
      (list.Ok? && list.value == [] ==> result == Text(NoneDueSoon(days))) &&
      (list.Ok? && list.value != [] ==>
        result == match Project(list.value, None)
          case Ok(records) => Records(records)
          case Err(e) => Raised(e))
  {
    calls := [Connect];
    if conn.NoService? {
      return Text(AuthFailed), calls;
    }
    if conn.ConnectFailed? {
      return Raised(conn.detail), calls;
    }
    var now := DateTimes.Naive(utcNow);
    var later := DueMax(now, days);
    if later.Err? {
      return Raised(later.error), calls;
    }
    calls := calls + [DueSoonRequest(now, later.value)];
    match list {
      case HttpError(_, detail) => result := Text(NearDueHttpFailed + detail);
      case Failure(detail) => result := Raised(detail);
      case Ok(tasks) =>
        if tasks == [] {
          result := Text(NoneDueSoon(days));
        } else {
          match Project(tasks, None) {
            case Ok(records) => result := Records(records);
            case Err(e) => result := Raised(e);
          }
        }
    }
  }

  /** With the default of seven days the listing request is made whenever now is at least
      a week before the end of year 9999. */
  lemma DefaultWindowExists(utcNow: DateTimes.ValidDateTime)
    requires DateTimes.Ordinal(utcNow.date) + 7 <= DateTimes.Ordinal(DateTimes.LastDate)
    ensures DueMax(DateTimes.Naive(utcNow), 7).Ok?
  {
  }
}
