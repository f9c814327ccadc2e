/** The Google Tasks tools `list_tasks`, `create_task`, `update_task` and `delete_task`, as
    `tools/google_tasks_tools.py` defines them and `TaskAgent.py` repeats them.

    The service is an oracle: how building it ends (`Connection`) and what each `.execute()`
    returns (`Response`). Every tool also returns the API requests it issued, in order, so
    that "no service access" and "nothing inserted" can be stated. */
module TaskTools {
  import opened Wrappers
  import opened Text
  import opened Service
  import DueDate

  /** A task resource as the API returns it: its string fields. */
  type Task = map<string, string>

  /** `d.get(key, default)` on a task. */
  function GetOr(t: Task, key: string, default: string): string {
    if key in t then t[key] else default
  }

  /** `str(d.get(key))`. */
  function ShowField(t: Task, key: string): string {
    if key in t then t[key] else "None"
  }

  /** The requests a tool makes: building the service, then the API calls. */
  datatype Call = Connect | List | Insert(body: Task) | Patch(taskId: string, body: Task) | Delete(taskId: string)

  const NoDue := "Không có hạn"
  const NoTasks := "Bạn không có công việc nào."
  const ListHeader := "Đây là danh sách các công việc của bạn:\n"
  const ListFailed := "Lỗi khi liệt kê công việc: "
  const MissingTitle := "Lỗi: Không thể tạo task mà không có tiêu đề."
  const CreateFailed := "Lỗi khi tạo công việc: "
  const MissingUpdateId := "Lỗi: Cần phải có ID của công việc để cập nhật."
  const BadStatus := "Lỗi: Trạng thái mới phải là 'completed' hoặc 'needsAction'."
  const NothingToUpdate := "Lỗi: Không có thông tin gì để cập nhật."
  const UpdateHttpFailed := "Lỗi HTTP khi cập nhật công việc: "
  const UpdateFailed := "Lỗi không xác định khi cập nhật công việc: "
  const MissingDeleteId := "Lỗi: Cần phải có ID của công việc để xóa."
  const DeleteHttpFailed := "Lỗi HTTP khi xóa công việc: "
  const DeleteFailed := "Lỗi không xác định khi xóa công việc: "

  function InvalidDate(dueDate: string): string {
    "Lỗi: Định dạng ngày '" + dueDate + "' không hợp lệ. Vui lòng dùng YYYY-MM-DD."
  }

  function Created(task: Task): string {
    "Đã tạo thành công công việc: '" + ShowField(task, "title") + "'."
  }

  function Updated(taskId: string, task: Task): string {
    "Đã cập nhật thành công công việc ID " + taskId + ". Tiêu đề mới: '" + ShowField(task, "title") + "'."
  }

  function UpdateNotFound(taskId: string): string {
    "Lỗi: Không tìm thấy công việc với ID '" + taskId + "'."
  }

  function Deleted(taskId: string): string {
    "Đã xóa thành công công việc với ID: " + taskId + "."
  }

  function DeleteNotFound(taskId: string): string {
    "Lỗi: Không tìm thấy công việc với ID '" + taskId + "' để xóa."
  }

  /** The due date a listed task shows: the date part of its `due`, or the placeholder. */
  function ShownDue(item: Task): string {
    BeforeFirst(GetOr(item, "due", NoDue), 'T')
  }

  function Entry(taskId: string, title: string, due: string, status: string): string {
    "-  ID: " + taskId + "\n  Tiêu đề: " + title + "\n  Hạn chót: " + due + "\n  Trạng thái: " + status
  }

  /** One entry of the `list_tasks` listing. */
  function TaskLine(item: Task): string {
    Entry(GetOr(item, "id", "Không có ID"), GetOr(item, "title", "Không có tiêu đề"),
          ShownDue(item), GetOr(item, "status", "needsAction"))
  }

  /** The entries of `items`, one per item, in order. */
  function Entries<T>(items: seq<T>, entry: T -> string): (lines: seq<string>)
    ensures |lines| == |items|
  {
    if items == [] then [] else [entry(items[0])] + Entries(items[1..], entry)
  }

  lemma {:induction false} EntriesAt<T>(items: seq<T>, entry: T -> string, i: nat)
    requires i < |items|
    ensures Entries(items, entry)[i] == entry(items[i])
  {
    if i > 0 {
      EntriesAt(items[1..], entry, i - 1);
    }
  }

  lemma EntriesPointwise<T>(items: seq<T>, entry: T -> string, lines: seq<string>)
    requires |lines| == |items|
    requires forall i :: 0 <= i < |items| ==> lines[i] == entry(items[i])
    ensures lines == Entries(items, entry)
  {
    forall i | 0 <= i < |items|
      ensures lines[i] == Entries(items, entry)[i]
    {
      EntriesAt(items, entry, i);
    }
  }

  /** `list_tasks()`; `list` is the response to the list request, its `items` in order
      (an answer without `items` is the empty list). */
  method ListTasks(conn: Connection, list: Response<seq<Task>>) returns (reply: string, calls: seq<Call>)
    ensures !conn.Connected? ==> calls == [Connect] && reply == ListFailed + ConnectionError(conn, "tasks")
    ensures conn.Connected? ==> calls == [Connect, List]
    ensures conn.Connected? && !list.Ok? ==> reply == ListFailed + list.Detail()
    ensures conn.Connected? && list.Ok? && list.value == [] ==> reply == NoTasks
    ensures conn.Connected? && list.Ok? && list.value != [] ==>
      reply == ListHeader + Join("\n\n", Entries(list.value, TaskLine))
  {
    calls := [Connect];
    if !conn.Connected? {
      return ListFailed + ConnectionError(conn, "tasks"), calls;
    }
    calls := calls + [List];
    if !list.Ok? {
      return ListFailed + list.Detail(), calls;
    }
    var items := list.value;
    if items == [] {
      return NoTasks, calls;
    }
    var formatted := FormatTasks(items);
    reply := ListHeader + Join("\n\n", formatted);
  }

  /** The loop of `list_tasks` that builds `formatted_tasks`. */
  method FormatTasks(items: seq<Task>) returns (formatted: seq<string>)
    ensures formatted == Entries(items, TaskLine)
  {
    formatted := [];
    for k := 0 to |items|
      invariant |formatted| == k
      invariant forall i :: 0 <= i < k ==> formatted[i] == TaskLine(items[i])
    {
      LinesExtend(items, formatted, k, TaskLine);
      formatted := formatted + [TaskLine(items[k])];
    }
    EntriesPointwise(items, TaskLine, formatted);
  }

  /** Appending the next entry keeps the listing built so far entry by entry. */
  lemma LinesExtend<T>(items: seq<T>, formatted: seq<string>, k: nat, entry: T -> string)
    requires k < |items| && |formatted| == k
    requires forall i :: 0 <= i < k ==> formatted[i] == entry(items[i])
    ensures forall i :: 0 <= i < k + 1 ==> (formatted + [entry(items[k])])[i] == entry(items[i])
  {
  }

  /** A due date `create_task` stored (a normalised date, then `T` and a time) is listed as
      exactly that date. */
  lemma {:induction false} ListShowsStoredDate(item: Task, date: DueDate.Date, time: string)
    requires DueDate.ValidDate(date)
    requires "due" in item && item["due"] == DueDate.IsoDate(date) + "T" + time
    ensures ShownDue(item) == DueDate.IsoDate(date)
  {
    var iso := DueDate.IsoDate(date);
    assert 'T' !in iso by {
      assert forall i :: 0 <= i < |iso| ==> iso[i] == '-' || IsDigit(iso[i]);
    }
    BeforeFirstOfPrefix(iso, "T" + time, 'T');
    assert iso + "T" + time == iso + ("T" + time);
  }

  lemma {:induction false} BeforeFirstOfPrefix(s: string, rest: string, c: char)
    requires c !in s && |rest| > 0 && rest[0] == c
    ensures BeforeFirst(s + rest, c) == s
    decreases |s|
  {
    if s == [] {
      assert (s + rest)[0] == c;
    } else {
      assert (s + rest)[1..] == s[1..] + rest;
      BeforeFirstOfPrefix(s[1..], rest, c);
    }
  }

  /** The insert body of `create_task`: the title, the notes when given, the normalised due
      date when given. */
  function NewTaskBody(title: string, notes: Option<string>, dueDate: Option<string>): (body: Task)
    requires Truthy(dueDate) ==> DueDate.FormatDueDate(dueDate).Some?
    ensures "title" in body && body["title"] == title
    ensures "notes" in body <==> Truthy(notes)
    ensures "notes" in body ==> body["notes"] == notes.value
    ensures "due" in body <==> Truthy(dueDate)
    ensures "due" in body ==> body["due"] == DueDate.FormatDueDate(dueDate).value
    ensures body.Keys <= {"title", "notes", "due"}
  {
    var withTitle := map["title" := title];
    var withNotes := if Truthy(notes) then withTitle["notes" := notes.value] else withTitle;
    if Truthy(dueDate) then withNotes["due" := DueDate.FormatDueDate(dueDate).value] else withNotes
  }

  /** `create_task(title, notes, due_date)`; `insert` is the answer to the insert request. */
  method CreateTask(title: string, notes: Option<string>, dueDate: Option<string>,
                    conn: Connection, insert: Response<Task>) returns (reply: string, calls: seq<Call>)
    ensures title == "" ==> reply == MissingTitle && calls == []
    ensures title != "" && conn.ConnectFailed? ==> reply == CreateFailed + conn.detail && calls == [Connect]
    ensures title != "" && !conn.ConnectFailed? && Truthy(dueDate) && DueDate.FormatDueDate(dueDate).None? ==>
      reply == InvalidDate(dueDate.value) && calls == [Connect]
    ensures title != "" && conn.NoService? && (Truthy(dueDate) ==> DueDate.FormatDueDate(dueDate).Some?) ==>
      reply == CreateFailed + ConnectionError(conn, "tasks") && calls == [Connect]
    ensures title != "" && conn.Connected? && (Truthy(dueDate) ==> DueDate.FormatDueDate(dueDate).Some?) ==>
      calls == [Connect, Insert(NewTaskBody(title, notes, dueDate))] &&
      reply == if insert.Ok? then Created(insert.value) else CreateFailed + insert.Detail()
  {
    if title == "" {
      return MissingTitle, [];
    }
    calls := [Connect];
    if conn.ConnectFailed? {
      return CreateFailed + conn.detail, calls;
    }
    var body: Task := map["title" := title];
    if Truthy(notes) {
      body := body["notes" := notes.value];
    }
    if Truthy(dueDate) {
      var formatted := DueDate.FormatDueDate(dueDate);
      if formatted.Some? {
        body := body["due" := formatted.value];
      } else {
        return InvalidDate(dueDate.value), calls;
      }
    }
    if conn.NoService? {
      return CreateFailed + ConnectionError(conn, "tasks"), calls;
    }
    calls := calls + [Insert(body)];
    reply := if insert.Ok? then Created(insert.value) else CreateFailed + insert.Detail();
  }

  predicate IsTaskStatus(s: string) {
    s == "completed" || s == "needsAction"
  }

  /** The patch body of `update_task`: exactly the fields given non-empty. */
  function PatchBody(title: Option<string>, notes: Option<string>, status: Option<string>): (body: Task)
    ensures "title" in body <==> Truthy(title)
    ensures "title" in body ==> body["title"] == title.value
    ensures "notes" in body <==> Truthy(notes)
    ensures "notes" in body ==> body["notes"] == notes.value
    ensures "status" in body <==> Truthy(status)
    ensures "status" in body ==> body["status"] == status.value
    ensures body.Keys <= {"title", "notes", "status"}
    ensures body == map[] <==> !Truthy(title) && !Truthy(notes) && !Truthy(status)
  {
    var withTitle: Task := if Truthy(title) then map["title" := title.value] else map[];
    var withNotes := if Truthy(notes) then withTitle["notes" := notes.value] else withTitle;
    var r := if Truthy(status) then withNotes["status" := status.value] else withNotes;
    assert Truthy(title) ==> "title" in r;
    r
  }

  /** `update_task(task_id, new_title, new_notes, new_status)`; `patch` is the answer to the
      patch request. The guards run in order: the id, the status, the empty body. */
  method UpdateTask(taskId: string, newTitle: Option<string>, newNotes: Option<string>, newStatus: Option<string>,
                    conn: Connection, patch: Response<Task>) returns (reply: string, calls: seq<Call>)
    ensures taskId == "" ==> reply == MissingUpdateId && calls == []
    ensures taskId != "" && conn.ConnectFailed? ==> reply == UpdateFailed + conn.detail && calls == [Connect]
    ensures taskId != "" && !conn.ConnectFailed? && Truthy(newStatus) && !IsTaskStatus(newStatus.value) ==>
      reply == BadStatus && calls == [Connect]
    ensures taskId != "" && !conn.ConnectFailed? && !Truthy(newTitle) && !Truthy(newNotes) && !Truthy(newStatus) ==>
      reply == NothingToUpdate && calls == [Connect]
    ensures (taskId != "" && conn.NoService? && PatchBody(newTitle, newNotes, newStatus) != map[] &&
             (Truthy(newStatus) ==> IsTaskStatus(newStatus.value))) ==>
      reply == UpdateFailed + ConnectionError(conn, "tasks") && calls == [Connect]
    ensures (taskId != "" && conn.Connected? && PatchBody(newTitle, newNotes, newStatus) != map[] &&
             (Truthy(newStatus) ==> IsTaskStatus(newStatus.value))) ==>
      calls == [Connect, Patch(taskId, PatchBody(newTitle, newNotes, newStatus))] &&
      reply == match patch
        case Ok(task) => Updated(taskId, task)
        case HttpError(status, detail) => if status == 404 then UpdateNotFound(taskId) else UpdateHttpFailed + detail
        case Failure(detail) => UpdateFailed + detail
  {
    if taskId == "" {
      return MissingUpdateId, [];
    }
    calls := [Connect];
    if conn.ConnectFailed? {
      return UpdateFailed + conn.detail, calls;
    }
    var body: Task := map[];
    if Truthy(newTitle) {
      body := body["title" := newTitle.value];
    }
    if Truthy(newNotes) {
      body := body["notes" := newNotes.value];
    }
    if Truthy(newStatus) {
      if !IsTaskStatus(newStatus.value) {
        return BadStatus, calls;
      }
      body := body["status" := newStatus.value];
    }
    assert body == PatchBody(newTitle, newNotes, newStatus);
    if body == map[] {
      return NothingToUpdate, calls;
    }
    if conn.NoService? {
      return UpdateFailed + ConnectionError(conn, "tasks"), calls;
    }
    calls := calls + [Patch(taskId, body)];
    match patch
    case Ok(task) => reply := Updated(taskId, task);
    case HttpError(status, detail) =>
      reply := if status == 404 then UpdateNotFound(taskId) else UpdateHttpFailed + detail;
    case Failure(detail) => reply := UpdateFailed + detail;
  }

  /** `delete_task(task_id)`; `delete` is the answer to the delete request. */
  method DeleteTask(taskId: string, conn: Connection, delete: Response<()>) returns (reply: string, calls: seq<Call>)
    ensures taskId == "" ==> reply == MissingDeleteId && calls == []
    ensures taskId != "" && !conn.Connected? ==> reply == DeleteFailed + ConnectionError(conn, "tasks") && calls == [Connect]
    ensures taskId != "" && conn.Connected? ==>
      calls == [Connect, Delete(taskId)] &&
      reply == match delete
        case Ok(_) => Deleted(taskId)
        case HttpError(status, detail) => if status == 404 then DeleteNotFound(taskId) else DeleteHttpFailed + detail
        case Failure(detail) => DeleteFailed + detail
  {
    if taskId == "" {
      return MissingDeleteId, [];
    }
    calls := [Connect];
    if !conn.Connected? {
      return DeleteFailed + ConnectionError(conn, "tasks"), calls;
    }
    calls := calls + [Delete(taskId)];
    match delete
    case Ok(_) => reply := Deleted(taskId);
    case HttpError(status, detail) =>
      reply := if status == 404 then DeleteNotFound(taskId) else DeleteHttpFailed + detail;
    case Failure(detail) => reply := DeleteFailed + detail;
  }
}
