/** The calendar tools of `tools/google_calendar_tools.py`: `list_events`,
    `create_event`, `update_event` and `delete_event` on the calendar of the user whose
    access token they are given, each change mirrored to the InCard app.

    Building the service from the token, each Google Calendar request and each InCard POST
    are oracles: a `Connection`, one `Response` per request, and the boolean
    `call_incard_api` returns. The UTC+7 wall clock, today's date and `fromisoformat` are
    parameters. */
module CalendarTools {
  import opened Wrappers
  import Text
  import Json
  import opened Service
  import opened Scanning
  import opened DateTimes
  import opened Events
  import DueDate

  const TokenHint := ". Hãy chắc chắn access token còn hiệu lực."
  const NoEventsFound := "Không có sự kiện nào được tìm thấy trong khoảng thời gian này."
  const UserId := 5089
  const Synced := " và đã đồng bộ với InCard app"
  const NotSynced := " (lỗi đồng bộ InCard app)"
  const Removed := " và đã xóa khỏi InCard app"
  const NotRemoved := " (lỗi xóa khỏi InCard app)"

  /** `str(e)` when building the service from the token failed. */
  function BuildError(conn: Connection): string
    requires !conn.Connected?
  {
    match conn
    case ConnectFailed(detail) => "Failed to create calendar service: " + detail
    case NoService => ConnectionError(conn, "events")
  }

  function ListFailed(detail: string): string {
    "Lỗi khi liệt kê sự kiện: " + detail + TokenHint
  }

  function CreateFailed(detail: string): string {
    "Lỗi khi tạo sự kiện: " + detail + TokenHint
  }

  function UpdateFailed(detail: string): string {
    "Lỗi khi cập nhật sự kiện: " + detail + TokenHint
  }

  function DeleteFailed(detail: string): string {
    "Lỗi khi xóa sự kiện: " + detail + TokenHint
  }

  /** The suffix of an add or update reply: whether the InCard app accepted the copy. */
  function SyncStatus(incardOk: bool): string {
    if incardOk then Synced else NotSynced
  }

  // ---------------------------------------------------------------- list_events

  const EventsFound := "Đây là các sự kiện được tìm thấy:\n"

  /** The reply once the window is built: the listing request's error, or the listing. */
  function ListOutcome(list: Response<seq<Event>>): string {
    if !list.Ok? then ListFailed(list.Detail())
    else match ListingReply(list.value, true, EventsFound, NoEventsFound)
      case Ok(message) => message
      case Err(e) => ListFailed(e)
  }

  /** `list_events(access_token, start_time, end_time)`: the window (a given start is kept
      as it is, only read in UTC+7 when naive), the listing request, then one preview per
      event. */
  method ListEvents(startTime: Option<string>, endTime: Option<string>, conn: Connection,
                    wallClock: ValidDateTime, parse: IsoParser, list: Response<seq<Event>>)
    returns (reply: string, calls: seq<Call>)
    ensures !conn.Connected? ==> reply == ListFailed(BuildError(conn)) && calls == []
    ensures conn.Connected? ==>
      match WindowFor(startTime, endTime, wallClock, parse, false)
      case Err(e) => reply == ListFailed(e) && calls == []
      case Ok(w) => calls == [ListWindowed(w.timeMin, w.timeMax)] && reply == ListOutcome(list)
  {
    if !conn.Connected? {
      return ListFailed(BuildError(conn)), [];
    }
    var window := ListWindow(startTime, endTime, wallClock, parse, false);
    if window.Err? {
      return ListFailed(window.error), [];
    }
    calls := [ListWindowed(window.value.timeMin, window.value.timeMax)];
    if !list.Ok? {
      return ListFailed(list.Detail()), calls;
    }
    var listing := FormatListing(list.value, true, EventsFound, NoEventsFound);
    match listing {
      case Ok(message) => reply := message;
      case Err(e) => reply := ListFailed(e);
    }
  }

  // ---------------------------------------------------------------- create_event

  /** The body `create_event` inserts. */
  function NewEventBody(summary: string, startTime: string, endTime: string, description: Option<string>,
                        attendees: Option<seq<string>>): Event
  {
    map["summary" := Json.Str(summary),
        "description" := OptText(description),
        "start" := Slot(startTime),
        "end" := Slot(endTime),
        "reminders" := DefaultReminders,
        "attendees" := AttendeeList(attendees)]
  }

  /** The inserted body carries both times in the Asia/Ho_Chi_Minh zone, the default
      reminders, and exactly the attendees given; its start is what a listing shows. */
  lemma NewEventBodyFields(summary: string, startTime: string, endTime: string, description: Option<string>,
                           attendees: Option<seq<string>>)
    ensures var body := NewEventBody(summary, startTime, endTime, description, attendees);
      body.Keys == {"summary", "description", "start", "end", "reminders", "attendees"} &&
      body["summary"] == Json.Str(summary) &&
      (Text.Truthy(description) || description == Some("") ==> body["description"] == Json.Str(description.value)) &&
      (description.None? ==> body["description"] == Json.Null) &&
      SlotAt(body["start"], startTime) && SlotAt(body["end"], endTime) &&
      StartShown(body) == Result.Ok(Json.Str(startTime)) &&
      body["reminders"] == DefaultReminders &&
      body["attendees"].Arr? &&
      Emails(body["attendees"].items) == if GivenList(attendees) then attendees.value else []
  {
    var body := NewEventBody(summary, startTime, endTime, description, attendees);
    assert body["start"] == Slot(startTime);
  }

  /** The InCard copy of a new event: start date, start and end `HH:MM` separated by one
      space, the description or "", the default user, and the id Google gave the event. */
  function NewInCardPayload(summary: string, startTime: string, endTime: string, description: Option<string>,
                            created: Event, parse: IsoParser, today: CivilDate): Event
  {
    map["title" := Json.Str(summary),
        "date" := Json.Str(ExtractDate(startTime, parse, today)),
        "time" := Json.Str(ExtractTime(startTime, parse) + " " + ExtractTime(endTime, parse)),
        "note" := Json.Str(if Text.Truthy(description) then description.value else ""),
        "user_id" := Json.Int(UserId),
        "google_calendar_id" := Json.GetOr(created, "id", Json.Null)]
  }

  /** The InCard copy of a new event carries the title, the start's date, the description
      or "" when there is none, the default user, and the id Google gave the event or null. */
  lemma {:induction false} NewInCardPayloadFields(summary: string, startTime: string, endTime: string,
                                                  description: Option<string>, created: Event, parse: IsoParser,
                                                  today: CivilDate)
    ensures var p := NewInCardPayload(summary, startTime, endTime, description, created, parse, today);
      p.Keys == {"title", "date", "time", "note", "user_id", "google_calendar_id"} &&
      p["title"] == Json.Str(summary) &&
      p["date"] == Json.Str(ExtractDate(startTime, parse, today)) &&
      (!Text.Truthy(description) ==> p["note"] == Json.Str("")) &&
      (Text.Truthy(description) ==> p["note"] == Json.Str(description.value)) &&
      p["user_id"] == Json.Int(UserId) &&
      ("id" in created ==> p["google_calendar_id"] == created["id"]) &&
      ("id" !in created ==> p["google_calendar_id"] == Json.Null)
  {
    var p := NewInCardPayload(summary, startTime, endTime, description, created, parse, today);
    assert p.Keys == {"title", "date", "time", "note", "user_id", "google_calendar_id"};
    assert p["title"] == Json.Str(summary);
    assert p["date"] == Json.Str(ExtractDate(startTime, parse, today));
    assert p["note"] == Json.Str(if Text.Truthy(description) then description.value else "");
    assert p["user_id"] == Json.Int(UserId);
    assert p["google_calendar_id"] == Json.GetOr(created, "id", Json.Null);
  }

  /** The InCard `time` field: eleven characters, the start and end `HH:MM` clock times
      around one space. */
  lemma {:induction false} NewInCardPayloadTime(summary: string, startTime: string, endTime: string,
                                                description: Option<string>, created: Event, parse: IsoParser,
                                                today: CivilDate)
    ensures var p := NewInCardPayload(summary, startTime, endTime, description, created, parse, today);
      p["time"].Str? && |p["time"].s| == 11 && p["time"].s[2] == ':' && p["time"].s[5] == ' ' && p["time"].s[8] == ':' &&
      p["time"].s[..5] == ExtractTime(startTime, parse) && p["time"].s[6..] == ExtractTime(endTime, parse)
  {
    var p := NewInCardPayload(summary, startTime, endTime, description, created, parse, today);
    var t := ExtractTime(startTime, parse) + " " + ExtractTime(endTime, parse);
    assert t[..5] == ExtractTime(startTime, parse) && t[6..] == ExtractTime(endTime, parse);
    assert p["time"] == Json.Str(t);
  }

  /** The reply once the event is inserted: the message, or the exception reading the
      answer's start raises. */
  function CreateOutcome(created: Event, incardOk: bool): string {
    match CreatedReply(created, SyncStatus(incardOk))
    case Ok(message) => message
    case Err(e) => CreateFailed(e)
  }

  /** `create_event(access_token, summary, start_time, end_time, description, attendees)`:
      the insert, then the InCard add, whose outcome only picks the reply's suffix. */
  method CreateEvent(summary: string, startTime: string, endTime: string, description: Option<string>,
                     attendees: Option<seq<string>>, conn: Connection, insert: Response<Event>, incardOk: bool,
                     parse: IsoParser, today: CivilDate) returns (reply: string, calls: seq<Call>)
    ensures !conn.Connected? ==> reply == CreateFailed(BuildError(conn)) && calls == []
    ensures conn.Connected? && !insert.Ok? ==>
      reply == CreateFailed(insert.Detail()) &&
      calls == [Insert(NewEventBody(summary, startTime, endTime, description, attendees))]
    ensures conn.Connected? && insert.Ok? ==>
      calls == [Insert(NewEventBody(summary, startTime, endTime, description, attendees)),
                InCard("add", NewInCardPayload(summary, startTime, endTime, description, insert.value, parse, today))] &&
      reply == CreateOutcome(insert.value, incardOk)
  {
    if !conn.Connected? {
      return CreateFailed(BuildError(conn)), [];
    }
    var body := NewEventBody(summary, startTime, endTime, description, attendees);
    calls := [Insert(body)];
    if !insert.Ok? {
      return CreateFailed(insert.Detail()), calls;
    }
    var created := insert.value;
    var payload := NewInCardPayload(summary, startTime, endTime, description, created, parse, today);
    calls := calls + [InCard("add", payload)];
    reply := CreateOutcome(created, incardOk);
  }

  // ---------------------------------------------------------------- update_event

  /** `extract_time_from_datetime` on a value read from the answer: a non-text value makes
      `.replace` raise, which the bare `except` turns into the default. */
  function TimeOf(v: Json.Value, parse: IsoParser): string {
    if v.Str? then ExtractTime(v.s, parse) else DefaultTime
  }

  function DateOf(v: Json.Value, parse: IsoParser, today: CivilDate): string {
    if v.Str? then ExtractDate(v.s, parse, today) else DueDate.IsoDate(today)
  }

  /** `updated_event[key].get('dateTime', '')`. */
  function SlotTime(updated: Event, key: string): (r: Result<Json.Value, string>)
    ensures r.Ok? <==> Settable(updated, key)
    ensures r.Ok? ==> r.value == Json.GetOr(updated[key].fields, "dateTime", Json.Str(""))
  {
    match Json.Index(Json.Obj(updated), key)
    case Err(e) => Err(e)
    case Ok(slot) => Json.GetFrom(slot, "dateTime", Json.Str(""))
  }

  /** The InCard copy of an updated event, keyed by the Google event id. */
  function UpdateInCardPayload(eventId: string, updated: Event, start: Json.Value, end: Json.Value,
                               parse: IsoParser, today: CivilDate): Event
  {
    map["user_id" := Json.Str("5089"),
        "note" := Json.GetOr(updated, "description", Json.Str("")),
        "date" := Json.Str(DateOf(start, parse, today)),
        "time" := Json.Str(TimeOf(start, parse) + " " + TimeOf(end, parse)),
        "title" := Json.GetOr(updated, "summary", Json.Str("")),
        "google_calendar_id" := Json.Str(eventId)]
  }

  /** The update arguments this tool set takes: no location and no reminders. */
  function ToolUpdate(newSummary: Option<string>, newStart: Option<string>, newEnd: Option<string>,
                      newDescription: Option<string>, newAttendees: Option<seq<string>>): (u: EventUpdate)
    ensures Written(u) <= {"summary", "start", "end", "description", "attendees"}
  {
    EventUpdate(newSummary, newStart, newEnd, newDescription, None, None, newAttendees)
  }

  /** How `update_event` reports a failed request: 404, another HTTP status, or anything
      else. */
  function UpdateRequestFailed(eventId: string, failed: Response<Event>): string
    requires !failed.Ok?
  {
    if failed.IsNotFound() then UpdateNotFound(eventId)
    else if failed.HttpError? then UpdateHttpError(failed.detail)
    else UpdateFailed(failed.detail)
  }

  /** What follows the update request: its error, the exception reading the answer's start
      or end raises, or the InCard copy and the success reply. */
  function AfterUpdate(eventId: string, update: Response<Event>, incardOk: bool, parse: IsoParser,
                       today: CivilDate): (string, seq<Call>)
  {
    if !update.Ok? then (UpdateRequestFailed(eventId, update), [])
    else
      var updated := update.value;
      match SlotTime(updated, "start")
      case Err(e) => (UpdateFailed(e), [])
      case Ok(start) =>
        match SlotTime(updated, "end")
        case Err(e) => (UpdateFailed(e), [])
        case Ok(end) =>
          (UpdatedReply(updated, SyncStatus(incardOk)),
           [InCard("update", UpdateInCardPayload(eventId, updated, start, end, parse, today))])
  }

  /** The InCard copy is sent exactly when Google accepted the update and its answer has
      start and end dictionaries, and the reply is then the success message; a missing
      event is reported by its id. */
  lemma AfterUpdateMeaning(eventId: string, update: Response<Event>, incardOk: bool, parse: IsoParser,
                           today: CivilDate)
    ensures var (reply, calls) := AfterUpdate(eventId, update, incardOk, parse, today);
      (|calls| == 1 <==> update.Ok? && Settable(update.value, "start") && Settable(update.value, "end")) &&
      (|calls| == 1 ==> reply == UpdatedReply(update.value, SyncStatus(incardOk)) && calls[0].InCard? &&
                        calls[0].endpoint == "update" && calls[0].payload["google_calendar_id"] == Json.Str(eventId)) &&
      (update.IsNotFound() ==> reply == UpdateNotFound(eventId)) &&
      (update.Failure? ==> reply == UpdateFailed(update.detail))
  {
  }

  /** `update_event(access_token, event_id, ...)`: fetch, merge the given fields in place,
      send the whole event back, then mirror the result to the InCard app. */
  method UpdateEvent(eventId: string, newSummary: Option<string>, newStart: Option<string>, newEnd: Option<string>,
                     newDescription: Option<string>, newAttendees: Option<seq<string>>, conn: Connection,
                     get: Response<Event>, update: Response<Event>, incardOk: bool, parse: IsoParser,
                     today: CivilDate) returns (reply: string, calls: seq<Call>)
    ensures !conn.Connected? ==> reply == UpdateFailed(BuildError(conn)) && calls == []
    ensures conn.Connected? ==> |calls| >= 1 && calls[0] == GetEvent(eventId)
    ensures conn.Connected? && !get.Ok? ==> reply == UpdateRequestFailed(eventId, get) && |calls| == 1
    ensures conn.Connected? && get.Ok? ==>
      var u := ToolUpdate(newSummary, newStart, newEnd, newDescription, newAttendees);
      (|calls| >= 2 <==> (Given(u.start) ==> Settable(get.value, "start")) && (Given(u.end) ==> Settable(get.value, "end")))
    ensures conn.Connected? && get.Ok? && Given(newStart) && !Settable(get.value, "start") ==>
      reply == UpdateFailed(SlotError(get.value, "start"))
    ensures conn.Connected? && get.Ok? && (Given(newStart) ==> Settable(get.value, "start")) &&
            Given(newEnd) && !Settable(get.value, "end") ==>
      reply == UpdateFailed(SlotError(get.value, "end"))
    ensures |calls| >= 2 ==>
      get.Ok? && calls[1].Update? && calls[1].eventId == eventId &&
      (reply, calls[2..]) == AfterUpdate(eventId, update, incardOk, parse, today)
    ensures |calls| >= 2 ==>
      MergedFrom(get.value, ToolUpdate(newSummary, newStart, newEnd, newDescription, newAttendees), calls[1].body)
  {
    if !conn.Connected? {
      return UpdateFailed(BuildError(conn)), [];
    }
    calls := [GetEvent(eventId)];
    if !get.Ok? {
      return UpdateRequestFailed(eventId, get), calls;
    }
    var u := ToolUpdate(newSummary, newStart, newEnd, newDescription, newAttendees);
    var merged := ApplyUpdate(get.value, u);
    if merged.Err? {
      return UpdateFailed(merged.error), calls;
    }
    calls := calls + [Update(eventId, merged.value)];
    var (message, rest) := AfterUpdate(eventId, update, incardOk, parse, today);
    reply := message;
    calls := calls + rest;
  }

  // ---------------------------------------------------------------- delete_event

  function DeleteInCardPayload(eventId: string): Event {
    map["user_id" := Json.Int(UserId), "created_by" := Json.Int(UserId), "google_calendar_id" := Json.Str(eventId)]
  }

  /** `delete_event(access_token, event_id)`: the InCard delete first, then the Google
      delete, whose outcome alone decides between success and error; the InCard outcome
      only picks the suffix. */
  method DeleteEvent(eventId: string, conn: Connection, incardOk: bool, delete: Response<()>)
    returns (reply: string, calls: seq<Call>)
    ensures !conn.Connected? ==> reply == DeleteFailed(BuildError(conn)) && calls == []
    ensures conn.Connected? ==> calls == [InCard("delete", DeleteInCardPayload(eventId)), Delete(eventId)]
    ensures conn.Connected? && delete.Ok? ==>
      reply == DeletedReply(eventId, if incardOk then Removed else NotRemoved)
    ensures conn.Connected? && delete.IsNotFound() ==> reply == DeleteNotFound(eventId)
    ensures conn.Connected? && delete.HttpError? && !delete.IsNotFound() ==> reply == DeleteHttpError(delete.detail)
    ensures conn.Connected? && delete.Failure? ==> reply == DeleteFailed(delete.detail)
  {
    if !conn.Connected? {
      return DeleteFailed(BuildError(conn)), [];
    }
    var payload := DeleteInCardPayload(eventId);
    calls := [InCard("delete", payload)];
    calls := calls + [Delete(eventId)];
    match delete {
      case Ok(_) =>
        var status := if incardOk then Removed else NotRemoved;
        reply := DeletedReply(eventId, status);
      case HttpError(status, detail) =>
        reply := if status == 404 then DeleteNotFound(eventId) else DeleteHttpError(detail);
      case Failure(detail) =>
        reply := DeleteFailed(detail);
    }
  }
}
