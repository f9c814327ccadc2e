/** The calendar tools of `CalendarAgent.py`, the first and smallest tool set: upcoming
    events from the current UTC time, an event with a title, times, description and
    location, an update of title and times only, and the same `delete_event` as
    `Agents/CalendarAgent.py`. */
module SimpleCalendarAgent {
  import opened Wrappers
  import Text
  import Json
  import opened Service
  import opened DateTimes
  import opened Events
  import CalendarAgent

  const UpcomingFound := "Đây là các sự kiện sắp tới của bạn:\n"
  const NoUpcoming := "Bạn không có sự kiện nào sắp diễn ra."

  function ListFailed(detail: string): string {
    "Lỗi khi liệt kê sự kiện: " + detail
  }

  // ---------------------------------------------------------------- list_events

  /** `datetime.utcnow().isoformat() + "Z"`. */
  function UtcTimeMin(utcNow: ValidDateTime): string {
    IsoFormat(Naive(utcNow)) + "Z"
  }

  /** The `Z` the listing appends marks the naive UTC clock as UTC: read the way
      `fromisoformat` is given it elsewhere, it is the same wall time at offset +00:00, so
      the same instant. */
  lemma {:induction false} UtcTimeMinIsUtc(utcNow: ValidDateTime)
    ensures UtcAsOffset(UtcTimeMin(utcNow)) == IsoFormat(utcNow.(offset := Some(0)))
    ensures Instant(utcNow.(offset := Some(0))) == WallSeconds(utcNow)
  {
    var naive := Naive(utcNow);
    var utc: ValidDateTime := utcNow.(offset := Some(0));
    Text.ReplaceAllAppend(IsoFormat(naive), "Z", 'Z', "+00:00");
    NaiveIsoFormatHasNoZulu(naive);
    Text.ReplaceAllAbsent(IsoFormat(naive), 'Z', "+00:00");
    assert Text.ReplaceAll("Z", 'Z', "+00:00") == "+00:00";
    IsoFormatAware(utc);
    OffsetTextOfUtc();
    assert utc.(offset := None) == naive;
  }

  /** The reply once the client exists: the request's error, or the listing without
      notes. */
  function ListOutcome(list: Response<seq<Event>>): string {
    if !list.Ok? then ListFailed(list.Detail())
    else match ListingReply(list.value, false, UpcomingFound, NoUpcoming)
      case Ok(message) => message
      case Err(e) => ListFailed(e)
  }

  /** `list_events(max_results)`: at most `max_results` events from now on. */
  method ListEvents(maxResults: int, conn: Connection, utcNow: ValidDateTime, list: Response<seq<Event>>)
    returns (reply: string, calls: seq<Call>)
    ensures !conn.Connected? ==> reply == ListFailed(ConnectionError(conn, "events")) && calls == []
    ensures conn.Connected? ==> calls == [ListUpcoming(UtcTimeMin(utcNow), maxResults)] && reply == ListOutcome(list)
  {
    if !conn.Connected? {
      return ListFailed(ConnectionError(conn, "events")), [];
    }
    var now := UtcTimeMin(utcNow);
    calls := [ListUpcoming(now, maxResults)];
    if !list.Ok? {
      return ListFailed(list.Detail()), calls;
    }
    var listing := FormatListing(list.value, false, UpcomingFound, NoUpcoming);
    match listing {
      case Ok(message) => reply := message;
      case Err(e) => reply := ListFailed(e);
    }
  }

  // ---------------------------------------------------------------- create_event

  /** The body `create_event` inserts: no attendees, the default reminders. */
  function NewEventBody(summary: string, startTime: string, endTime: string, description: Option<string>,
                        location: Option<string>): Event
  {
    map["summary" := Json.Str(summary),
        "location" := OptText(location),
        "description" := OptText(description),
        "start" := Slot(startTime),
        "end" := Slot(endTime),
        "reminders" := DefaultReminders]
  }

  /** This body is the one of `Agents/CalendarAgent.py` given no reminders and no
      attendees, but for its empty attendee list. */
  lemma NewEventBodyIsAgentBodyWithoutAttendees(summary: string, startTime: string, endTime: string,
                                                description: Option<string>, location: Option<string>)
    ensures var agent := CalendarAgent.NewEventBody(summary, startTime, endTime, description, location, None, None);
      NewEventBody(summary, startTime, endTime, description, location) == agent - {"attendees"} &&
      agent["attendees"] == Json.Arr([])
  {
    var body := NewEventBody(summary, startTime, endTime, description, location);
    var agent := CalendarAgent.NewEventBody(summary, startTime, endTime, description, location, None, None);
    assert body.Keys == (agent - {"attendees"}).Keys;
  }

  /** `create_event(summary, start_time, end_time, description, location)`. */
  method CreateEvent(summary: string, startTime: string, endTime: string, description: Option<string>,
                     location: Option<string>, conn: Connection, insert: Response<Event>)
    returns (reply: string, calls: seq<Call>)
    ensures !conn.Connected? ==> reply == CalendarAgent.CreateFailed(ConnectionError(conn, "events")) && calls == []
    ensures conn.Connected? ==> calls == [Insert(NewEventBody(summary, startTime, endTime, description, location))]
    ensures conn.Connected? && !insert.Ok? ==> reply == CalendarAgent.CreateFailed(insert.Detail())
    ensures conn.Connected? && insert.Ok? ==>
      match CreatedReply(insert.value, "")
      case Ok(message) => reply == message
      case Err(e) => reply == CalendarAgent.CreateFailed(e)
  {
    if !conn.Connected? {
      return CalendarAgent.CreateFailed(ConnectionError(conn, "events")), [];
    }
    var body := NewEventBody(summary, startTime, endTime, description, location);
    calls := [Insert(body)];
    if !insert.Ok? {
      return CalendarAgent.CreateFailed(insert.Detail()), calls;
    }
    match CreatedReply(insert.value, "") {
      case Ok(message) => reply := message;
      case Err(e) => reply := CalendarAgent.CreateFailed(e);
    }
  }

  // ---------------------------------------------------------------- update_event

  /** The update arguments this tool set takes: title and times only. */
  function TitleAndTimes(newSummary: Option<string>, newStart: Option<string>, newEnd: Option<string>): (u: EventUpdate)
    ensures Written(u) <= {"summary", "start", "end"}
  {
    EventUpdate(newSummary, newStart, newEnd, None, None, None, None)
  }

  /** `update_event(event_id, new_summary, new_start_time, new_end_time)`: the merge and the
      replies of `Agents/CalendarAgent.py` restricted to three fields; every other field of
      the fetched event is sent back untouched. */
  method UpdateEvent(eventId: string, newSummary: Option<string>, newStart: Option<string>, newEnd: Option<string>,
                     conn: Connection, get: Response<Event>, update: Response<Event>)
    returns (reply: string, calls: seq<Call>)
    ensures !conn.Connected? ==> reply == CalendarAgent.UpdateUnknown(ConnectionError(conn, "events")) && calls == []
    ensures conn.Connected? ==> |calls| >= 1 && calls[0] == GetEvent(eventId)
    ensures conn.Connected? && !get.Ok? ==> reply == CalendarAgent.UpdateRequestFailed(eventId, get) && |calls| == 1
    ensures conn.Connected? && get.Ok? ==>
      (|calls| == 2 <==> (Given(newStart) ==> Settable(get.value, "start")) && (Given(newEnd) ==> Settable(get.value, "end")))
    ensures conn.Connected? && get.Ok? && Given(newStart) && !Settable(get.value, "start") ==>
      reply == CalendarAgent.UpdateUnknown(SlotError(get.value, "start"))
    ensures conn.Connected? && get.Ok? && (Given(newStart) ==> Settable(get.value, "start")) &&
            Given(newEnd) && !Settable(get.value, "end") ==>
      reply == CalendarAgent.UpdateUnknown(SlotError(get.value, "end"))
    ensures |calls| == 2 ==>
      get.Ok? && calls[1].Update? && calls[1].eventId == eventId &&
      MergedFrom(get.value, TitleAndTimes(newSummary, newStart, newEnd), calls[1].body) &&
      (forall k :: k in get.value && k !in {"summary", "start", "end"} ==> calls[1].body[k] == get.value[k]) &&
      reply == if update.Ok? then UpdatedReply(update.value, "") else CalendarAgent.UpdateRequestFailed(eventId, update)
    ensures |calls| <= 2
  {
    reply, calls := CalendarAgent.UpdateEvent(eventId, TitleAndTimes(newSummary, newStart, newEnd), conn, get, update);
  }

  // `delete_event` of this file is `CalendarAgent.DeleteEvent`: the two definitions are
  // the same text.
}
