/** The calendar tools of `Agents/CalendarAgent.py`: `list_events`, `create_event`,
    `update_event` and `delete_event` on the primary calendar of the user the local OAuth
    token belongs to, with no InCard copy.

    `get_google_calendar_service` either raises (no credentials file, a failed refresh),
    which the tool reports at once, or returns `None` when building the client fails, which
    only raises at the first `service.events()`; `Connection` models the three outcomes. */
module CalendarAgent {
  import opened Wrappers
  import Text
  import Json
  import opened Service
  import opened DateTimes
  import opened Events

  const FormatHint := ". Hãy chắc chắn định dạng thời gian là đúng (YYYY-MM-DDTHH:MM:SS)."
  const EventsFound := "Đây là các sự kiện được tìm thấy:\n"
  const NoEventsFound := "Không có sự kiện nào được tìm thấy trong khoảng thời gian này."

  function ListFailed(detail: string): string {
    "Lỗi khi liệt kê sự kiện: " + detail + FormatHint
  }

  function CreateFailed(detail: string): string {
    "Lỗi khi tạo sự kiện: " + detail + FormatHint
  }

  function UpdateUnknown(detail: string): string {
    "Lỗi không xác định khi cập nhật sự kiện: " + detail
  }

  function DeleteUnknown(detail: string): string {
    "Lỗi không xác định khi xóa sự kiện: " + detail
  }

  // ---------------------------------------------------------------- list_events

  /** The reply once the window is built and the client exists. */
  function ListOutcome(list: Response<seq<Event>>): string {
    if !list.Ok? then ListFailed(list.Detail())
    else match ListingReply(list.value, true, EventsFound, NoEventsFound)
      case Ok(message) => message
      case Err(e) => ListFailed(e)
  }

  /** `list_events(start_time, end_time)`: the window, whose start is moved to 00:00:01 of
      its day whether given or not, then the listing request and one preview per event. */
  method ListEvents(startTime: Option<string>, endTime: Option<string>, conn: Connection,
                    wallClock: ValidDateTime, parse: IsoParser, list: Response<seq<Event>>)
    returns (reply: string, calls: seq<Call>)
    ensures conn.ConnectFailed? ==> reply == ListFailed(conn.detail) && calls == []
    ensures !conn.ConnectFailed? ==>
      match WindowFor(startTime, endTime, wallClock, parse, true)
      case Err(e) => reply == ListFailed(e) && calls == []
      case Ok(w) =>
        if conn.NoService? then reply == ListFailed(ConnectionError(conn, "events")) && calls == []
        else calls == [ListWindowed(w.timeMin, w.timeMax)] && reply == ListOutcome(list)
  {
    if conn.ConnectFailed? {
      return ListFailed(conn.detail), [];
    }
    var window := ListWindow(startTime, endTime, wallClock, parse, true);
    if window.Err? {
      return ListFailed(window.error), [];
    }
    if conn.NoService? {
      return ListFailed(ConnectionError(conn, "events")), [];
    }
    calls := [ListWindowed(window.value.timeMin, window.value.timeMax)];
    if !list.Ok? {
      return ListFailed(list.Detail()), calls;
    }
    var listing := FormatListing(list.value, true, EventsFound, NoEventsFound);
    match listing {
      case Ok(message) => reply := message;
      case Err(e) => reply := ListFailed(e);
    }
  }

  /** This tool set and the token tool set ask for the same window but for its start:
      here the start is always moved to 00:00:01 of its day, there only when it is not
      given. */
  lemma SnappedWindowDiffersOnlyInStart(startTime: Option<string>, endTime: Option<string>,
                                          wallClock: ValidDateTime, parse: IsoParser)
    ensures var snapped := WindowFor(startTime, endTime, wallClock, parse, true);
      var kept := WindowFor(startTime, endTime, wallClock, parse, false);
      (snapped.Ok? <==> kept.Ok?) &&
      (snapped.Ok? ==>
        snapped.value.timeMax == kept.value.timeMax && snapped.value.start == kept.value.start &&
        snapped.value.timeMin == IsoFormat(Snap(kept.value.start)) &&
        (!Text.Truthy(startTime) ==> snapped.value.timeMin == kept.value.timeMin))
  {
    var start := if Text.Truthy(startTime) then ReadAware(startTime.value, parse) else Result.Ok(NowInVietnam(wallClock));
    if start.Ok? {
      var end := if Text.Truthy(endTime) then ReadAware(endTime.value, parse) else PlusDays(start.value, 7);
      if end.Ok? {
        var shown := if Text.Truthy(startTime) then start.value else Snap(start.value);
        assert WindowFor(startTime, endTime, wallClock, parse, true) ==
               Result.Ok(Window(IsoFormat(Snap(start.value)), IsoFormat(end.value), start.value, end.value));
        assert WindowFor(startTime, endTime, wallClock, parse, false) ==
               Result.Ok(Window(IsoFormat(shown), IsoFormat(end.value), start.value, end.value));
      }
    }
  }

  // ---------------------------------------------------------------- create_event

  /** The body `create_event` inserts: the reminders given, when given, else the default
      ones. */
  function NewEventBody(summary: string, startTime: string, endTime: string, description: Option<string>,
                        location: Option<string>, reminders: Option<Json.Value>, attendees: Option<seq<string>>): Event
  {
    map["summary" := Json.Str(summary),
        "location" := OptText(location),
        "description" := OptText(description),
        "start" := Slot(startTime),
        "end" := Slot(endTime),
        "reminders" := if GivenValue(reminders) then reminders.value else DefaultReminders,
        "attendees" := AttendeeList(attendees)]
  }

  /** The inserted body carries both times in the Asia/Ho_Chi_Minh zone, the reminders
      given or else the default ones, and exactly the attendees given. */
  lemma NewEventBodyFields(summary: string, startTime: string, endTime: string, description: Option<string>,
                           location: Option<string>, reminders: Option<Json.Value>, attendees: Option<seq<string>>)
    ensures var body := NewEventBody(summary, startTime, endTime, description, location, reminders, attendees);
      body.Keys == {"summary", "location", "description", "start", "end", "reminders", "attendees"} &&
      SlotAt(body["start"], startTime) && SlotAt(body["end"], endTime) &&
      StartShown(body) == Result.Ok(Json.Str(startTime)) &&
      (GivenValue(reminders) ==> body["reminders"] == reminders.value) &&
      (!GivenValue(reminders) ==> body["reminders"] == DefaultReminders) &&
      (location.None? ==> body["location"] == Json.Null) &&
      body["attendees"].Arr? &&
      Emails(body["attendees"].items) == if GivenList(attendees) then attendees.value else []
  {
    var body := NewEventBody(summary, startTime, endTime, description, location, reminders, attendees);
    assert body["start"] == Slot(startTime);
  }

  /** `create_event(summary, start_time, end_time, description, location, reminders,
      attendees)`. */
  method CreateEvent(summary: string, startTime: string, endTime: string, description: Option<string>,
                     location: Option<string>, reminders: Option<Json.Value>, attendees: Option<seq<string>>,
                     conn: Connection, insert: Response<Event>) returns (reply: string, calls: seq<Call>)
    ensures !conn.Connected? ==> reply == CreateFailed(ConnectionError(conn, "events")) && calls == []
    ensures conn.Connected? ==>
      calls == [Insert(NewEventBody(summary, startTime, endTime, description, location, reminders, attendees))]
    ensures conn.Connected? && !insert.Ok? ==> reply == CreateFailed(insert.Detail())
    ensures conn.Connected? && insert.Ok? ==>
      match CreatedReply(insert.value, "")
      case Ok(message) => reply == message
      case Err(e) => reply == CreateFailed(e)
  {
    if !conn.Connected? {
      return CreateFailed(ConnectionError(conn, "events")), [];
    }
    var body := NewEventBody(summary, startTime, endTime, description, location, reminders, attendees);
    calls := [Insert(body)];
    if !insert.Ok? {
      return CreateFailed(insert.Detail()), calls;
    }
    match CreatedReply(insert.value, "") {
      case Ok(message) => reply := message;
      case Err(e) => reply := CreateFailed(e);
    }
  }

  // ---------------------------------------------------------------- update_event

  /** How `update_event` reports a failed request: 404, another HTTP status, or anything
      else. */
  function UpdateRequestFailed(eventId: string, failed: Response<Event>): string
    requires !failed.Ok?
  {
    if failed.IsNotFound() then UpdateNotFound(eventId)
    else if failed.HttpError? then UpdateHttpError(failed.detail)
    else UpdateUnknown(failed.detail)
  }

  /** `update_event(event_id, new_summary, ...)`: fetch, merge the given fields in place,
      and send the whole event back. */
  method UpdateEvent(eventId: string, u: EventUpdate, conn: Connection, get: Response<Event>, update: Response<Event>)
    returns (reply: string, calls: seq<Call>)
    ensures !conn.Connected? ==> reply == UpdateUnknown(ConnectionError(conn, "events")) && calls == []
    ensures conn.Connected? ==> |calls| >= 1 && calls[0] == GetEvent(eventId)
    ensures conn.Connected? && !get.Ok? ==> reply == UpdateRequestFailed(eventId, get) && |calls| == 1
    ensures conn.Connected? && get.Ok? ==>
      (|calls| == 2 <==> (Given(u.start) ==> Settable(get.value, "start")) && (Given(u.end) ==> Settable(get.value, "end")))
    ensures conn.Connected? && get.Ok? && Given(u.start) && !Settable(get.value, "start") ==>
      reply == UpdateUnknown(SlotError(get.value, "start"))
    ensures conn.Connected? && get.Ok? && (Given(u.start) ==> Settable(get.value, "start")) &&
            Given(u.end) && !Settable(get.value, "end") ==>
      reply == UpdateUnknown(SlotError(get.value, "end"))
    ensures |calls| == 2 ==>
      get.Ok? && calls[1].Update? && calls[1].eventId == eventId && MergedFrom(get.value, u, calls[1].body) &&
      reply == if update.Ok? then UpdatedReply(update.value, "") else UpdateRequestFailed(eventId, update)
    ensures |calls| <= 2
  {
    if !conn.Connected? {
      return UpdateUnknown(ConnectionError(conn, "events")), [];
    }
    calls := [GetEvent(eventId)];
    if !get.Ok? {
      return UpdateRequestFailed(eventId, get), calls;
    }
    var merged := ApplyUpdate(get.value, u);
    if merged.Err? {
      return UpdateUnknown(merged.error), calls;
    }
    calls := calls + [Update(eventId, merged.value)];
    if !update.Ok? {
      return UpdateRequestFailed(eventId, update), calls;
    }
    reply := UpdatedReply(update.value, "");
  }

  // ---------------------------------------------------------------- delete_event

  /** `delete_event(event_id)`: one delete request; a missing event is reported by its id. */
  method DeleteEvent(eventId: string, conn: Connection, delete: Response<()>) returns (reply: string, calls: seq<Call>)
    ensures !conn.Connected? ==> reply == DeleteUnknown(ConnectionError(conn, "events")) && calls == []
    ensures conn.Connected? ==> calls == [Delete(eventId)]
    ensures conn.Connected? && delete.Ok? ==> reply == DeletedReply(eventId, "")
    ensures conn.Connected? && delete.IsNotFound() ==> reply == DeleteNotFound(eventId)
    ensures conn.Connected? && delete.HttpError? && !delete.IsNotFound() ==> reply == DeleteHttpError(delete.detail)
    ensures conn.Connected? && delete.Failure? ==> reply == DeleteUnknown(delete.detail)
  {
    if !conn.Connected? {
      return DeleteUnknown(ConnectionError(conn, "events")), [];
    }
    calls := [Delete(eventId)];
    match delete {
      case Ok(_) => reply := DeletedReply(eventId, "");
      case HttpError(status, detail) =>
        reply := if status == 404 then DeleteNotFound(eventId) else DeleteHttpError(detail);
      case Failure(detail) => reply := DeleteUnknown(detail);
    }
  }
}
