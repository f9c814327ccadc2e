/** Calendar events as the Google Calendar API exchanges them, JSON dictionaries, and what
    the three calendar tool sets do with them: the in-place merge of `update_event`, the
    attendee records, the pieces of a `create_event` body, the preview line of
    `list_events`, and the replies built from an API answer. */
module Events {
  import opened Wrappers
  import opened Json
  import Text
  import opened Scanning

  type Event = map<string, Value>

  /** The requests the calendar tools make: the Google Calendar API and the InCard app. */
  datatype Call =
    | ListWindowed(timeMin: string, timeMax: string)
    | ListUpcoming(timeMin: string, maxResults: int)
    | Insert(body: Event)
    | GetEvent(eventId: string)
    | Update(eventId: string, body: Event)
    | Delete(eventId: string)
    | InCard(endpoint: string, payload: Event)

  const TimeZone := "Asia/Ho_Chi_Minh"
  const NoId := "Không có ID"
  const NoSummary := "Không có tiêu đề"
  const NoDescription := "Không có mô tả"

  function KeyError(key: string): string {
    "'" + key + "'"
  }

  // ---------------------------------------------------------------- attendees

  function AttendeeRecord(email: string): Value {
    Obj(map["email" := Str(email)])
  }

  /** `[{"email": email} for email in emails]`. */
  function AttendeeRecords(emails: seq<string>): (r: seq<Value>)
    ensures |r| == |emails|
  {
    seq(|emails|, i requires 0 <= i < |emails| => AttendeeRecord(emails[i]))
  }

  /** The addresses a list of attendee records names, in order; an entry without a text
      `email` names none. */
  function Emails(records: seq<Value>): seq<string> {
    if records == [] then []
    else
      var rest := Emails(records[1..]);
      match records[0]
      case Obj(fields) => if "email" in fields && fields["email"].Str? then [fields["email"].s] + rest else rest
      case _ => rest
  }

  /** The records name exactly the addresses they were made from, in order. */
  lemma {:induction false} EmailsOfAttendeeRecords(emails: seq<string>)
    ensures Emails(AttendeeRecords(emails)) == emails
  {
    if emails != [] {
      assert AttendeeRecords(emails)[1..] == AttendeeRecords(emails[1..]);
      EmailsOfAttendeeRecords(emails[1..]);
      assert [emails[0]] + emails[1..] == emails;
    }
  }

  // ---------------------------------------------------------------- update_event

  /** The optional arguments of `update_event`; a tool set without one of them passes
      `None` for it. */
  datatype EventUpdate = EventUpdate(
    summary: Option<string>, start: Option<string>, end: Option<string>,
    description: Option<string>, location: Option<string>,
    reminders: Option<Value>, attendees: Option<seq<string>>)

  /** `if new_x:` on an optional text. */
  predicate Given(s: Option<string>) {
    Text.Truthy(s)
  }

  /** `if new_reminders:` on an optional dictionary. */
  predicate GivenValue(v: Option<Value>) {
    v.Some? && Json.Truthy(v.value)
  }

  /** `if new_attendees:` on an optional list. */
  predicate GivenList(a: Option<seq<string>>) {
    a.Some? && a.value != []
  }

  /** The top-level keys an update writes: first summary, start and end ... */
  function WrittenFirst(u: EventUpdate): set<string> {
    (if Given(u.summary) then {"summary"} else {}) +
    (if Given(u.start) then {"start"} else {}) +
    (if Given(u.end) then {"end"} else {})
  }

  /** ... then description, location, reminders and attendees. */
  function WrittenThen(u: EventUpdate): set<string> {
    (if Given(u.description) then {"description"} else {}) +
    (if Given(u.location) then {"location"} else {}) +
    (if GivenValue(u.reminders) then {"reminders"} else {}) +
    (if GivenList(u.attendees) then {"attendees"} else {})
  }

  function Written(u: EventUpdate): set<string> {
    WrittenFirst(u) + WrittenThen(u)
  }

  /** `event[key]['dateTime'] = t` can be carried out: the key is there and holds a dict. */
  predicate Settable(event: Event, key: string) {
    key in event && event[key].Obj?
  }

  /** `str(e)` of the exception `event[key]['dateTime'] = t` raises otherwise. */
  function SlotError(event: Event, key: string): string
    requires !Settable(event, key)
  {
    match Index(Obj(event), key)
    case Err(e) => e
    case Ok(slot) => SetIn(slot, "dateTime", Null).error
  }

  /** A `start`/`end` dictionary with its `dateTime` overwritten. */
  function WithDateTime(slot: Value, t: string): Value
    requires slot.Obj?
  {
    Obj(slot.fields["dateTime" := Str(t)])
  }

  /** Sets `event[key]['dateTime']`, or gives the exception it raises. */
  method SetDateTime(event: Event, key: string, t: string) returns (r: Result<Event, string>)
    ensures !Settable(event, key) ==> r == Err(SlotError(event, key))
    ensures Settable(event, key) ==> r == Result.Ok(event[key := WithDateTime(event[key], t)])
  {
    match Index(Obj(event), key) {
      case Err(e) => r := Err(e);
      case Ok(slot) =>
        match SetIn(slot, "dateTime", Str(t)) {
          case Err(e) => r := Err(e);
          case Ok(updated) => r := Result.Ok(event[key := updated]);
        }
    }
  }

  /** The first steps of the merge: summary, then start and end `dateTime`; they fail
      when a time is given and the event has no dictionary to put it in. */
  method UpdateTitleAndTimes(event: Event, u: EventUpdate) returns (r: Result<Event, string>)
    ensures r.Ok? <==> (Given(u.start) ==> Settable(event, "start")) && (Given(u.end) ==> Settable(event, "end"))
    ensures Given(u.start) && !Settable(event, "start") ==> r == Err(SlotError(event, "start"))
    ensures (Given(u.start) ==> Settable(event, "start")) && Given(u.end) && !Settable(event, "end") ==>
      r == Err(SlotError(event, "end"))
    ensures r.Ok? ==> r.value.Keys == event.Keys + WrittenFirst(u)
    ensures r.Ok? ==> forall k :: k in event && k !in WrittenFirst(u) ==> r.value[k] == event[k]
    ensures r.Ok? && Given(u.summary) ==> r.value["summary"] == Str(u.summary.value)
    ensures r.Ok? && Given(u.start) ==> r.value["start"] == WithDateTime(event["start"], u.start.value)
    ensures r.Ok? && Given(u.end) ==> r.value["end"] == WithDateTime(event["end"], u.end.value)
  {
    var e := event;
    if Given(u.summary) {
      e := e["summary" := Str(u.summary.value)];
    }
    if Given(u.start) {
      var slotSet := SetDateTime(e, "start", u.start.value);
      if slotSet.Err? {
        return Err(slotSet.error);
      }
      e := slotSet.value;
    }
    if Given(u.end) {
      var slotSet := SetDateTime(e, "end", u.end.value);
      if slotSet.Err? {
        return Err(slotSet.error);
      }
      e := slotSet.value;
    }
    r := Result.Ok(e);
  }

  /** The remaining steps of the merge: description, location, reminders, attendees. */
  method UpdateDetails(event: Event, u: EventUpdate) returns (e: Event)
    ensures e.Keys == event.Keys + WrittenThen(u)
    ensures forall k :: k in event && k !in WrittenThen(u) ==> e[k] == event[k]
    ensures Given(u.description) ==> e["description"] == Str(u.description.value)
    ensures Given(u.location) ==> e["location"] == Str(u.location.value)
    ensures GivenValue(u.reminders) ==> e["reminders"] == u.reminders.value
    ensures GivenList(u.attendees) ==> e["attendees"] == Arr(AttendeeRecords(u.attendees.value))
  {
    e := event;
    if Given(u.description) {
      e := e["description" := Str(u.description.value)];
    }
    if Given(u.location) {
      e := e["location" := Str(u.location.value)];
    }
    if GivenValue(u.reminders) {
      e := e["reminders" := u.reminders.value];
    }
    if GivenList(u.attendees) {
      e := e["attendees" := Arr(AttendeeRecords(u.attendees.value))];
    }
  }

  /** The merge of `update_event`: the fetched event with each given field overwritten in
      turn, every other field sent back as it was. It fails only when a start or end time
      is given and the event has no dictionary to put it in. */
  method ApplyUpdate(event: Event, u: EventUpdate) returns (r: Result<Event, string>)
    ensures r.Ok? <==> (Given(u.start) ==> Settable(event, "start")) && (Given(u.end) ==> Settable(event, "end"))
    ensures Given(u.start) && !Settable(event, "start") ==> r == Err(SlotError(event, "start"))
    ensures (Given(u.start) ==> Settable(event, "start")) && Given(u.end) && !Settable(event, "end") ==>
      r == Err(SlotError(event, "end"))
    ensures r.Ok? ==> r.value.Keys == event.Keys + Written(u)
    ensures r.Ok? ==> forall k :: k in event && k !in Written(u) ==> r.value[k] == event[k]
    ensures r.Ok? && Given(u.summary) ==> r.value["summary"] == Str(u.summary.value)
    ensures r.Ok? && Given(u.start) ==> r.value["start"] == WithDateTime(event["start"], u.start.value)
    ensures r.Ok? && Given(u.end) ==> r.value["end"] == WithDateTime(event["end"], u.end.value)
    ensures r.Ok? && Given(u.description) ==> r.value["description"] == Str(u.description.value)
    ensures r.Ok? && Given(u.location) ==> r.value["location"] == Str(u.location.value)
    ensures r.Ok? && GivenValue(u.reminders) ==> r.value["reminders"] == u.reminders.value
    ensures r.Ok? && GivenList(u.attendees) ==> r.value["attendees"] == Arr(AttendeeRecords(u.attendees.value))
    ensures Written(u) == {} ==> r == Result.Ok(event)
  {
    var first := UpdateTitleAndTimes(event, u);
    if first.Err? {
      return first;
    }
    var e := UpdateDetails(first.value, u);
    ComposedFrame(event, first.value, e, u);
    ComposedFirstFields(event, first.value, e, u);
    r := Result.Ok(e);
  }

  /** `sent` is `event` with the fields `u` gives overwritten and every other field as it
      was: what `ApplyUpdate` promises of a merge that succeeds. */
  predicate MergedFrom(event: Event, u: EventUpdate, sent: Event) {
    sent.Keys == event.Keys + Written(u) &&
    (forall k :: k in event && k !in Written(u) ==> sent[k] == event[k]) &&
    (Given(u.summary) ==> "summary" in sent && sent["summary"] == Str(u.summary.value)) &&
    (Given(u.start) ==> Settable(event, "start") && "start" in sent &&
                        sent["start"] == WithDateTime(event["start"], u.start.value)) &&
    (Given(u.end) ==> Settable(event, "end") && "end" in sent && sent["end"] == WithDateTime(event["end"], u.end.value)) &&
    (Given(u.description) ==> "description" in sent && sent["description"] == Str(u.description.value)) &&
    (Given(u.location) ==> "location" in sent && sent["location"] == Str(u.location.value)) &&
    (GivenValue(u.reminders) ==> "reminders" in sent && sent["reminders"] == u.reminders.value) &&
    (GivenList(u.attendees) ==> "attendees" in sent && sent["attendees"] == Arr(AttendeeRecords(u.attendees.value)))
  }

  /** The two stages of the merge together leave alone every key neither writes. */
  lemma ComposedFrame(event: Event, first: Event, e: Event, u: EventUpdate)
    requires first.Keys == event.Keys + WrittenFirst(u)
    requires forall k :: k in event && k !in WrittenFirst(u) ==> first[k] == event[k]
    requires e.Keys == first.Keys + WrittenThen(u)
    requires forall k :: k in first && k !in WrittenThen(u) ==> e[k] == first[k]
    ensures e.Keys == event.Keys + Written(u)
    ensures forall k :: k in event && k !in Written(u) ==> e[k] == event[k]
    ensures Written(u) == {} ==> e == event
  {
  }

  /** The second stage of the merge keeps what the first one wrote. */
  lemma ComposedFirstFields(event: Event, first: Event, e: Event, u: EventUpdate)
    requires Given(u.summary) ==> "summary" in first && first["summary"] == Str(u.summary.value)
    requires Given(u.start) ==>
      Settable(event, "start") && "start" in first && first["start"] == WithDateTime(event["start"], u.start.value)
    requires Given(u.end) ==>
      Settable(event, "end") && "end" in first && first["end"] == WithDateTime(event["end"], u.end.value)
    requires e.Keys == first.Keys + WrittenThen(u)
    requires forall k :: k in first && k !in WrittenThen(u) ==> e[k] == first[k]
    ensures Given(u.summary) ==> "summary" in e && e["summary"] == Str(u.summary.value)
    ensures Given(u.start) ==> "start" in e && e["start"] == WithDateTime(event["start"], u.start.value)
    ensures Given(u.end) ==> "end" in e && e["end"] == WithDateTime(event["end"], u.end.value)
  {
    assert "summary" !in WrittenThen(u) && "start" !in WrittenThen(u) && "end" !in WrittenThen(u);
  }

  // ---------------------------------------------------------------- create_event bodies

  /** `{"dateTime": t, "timeZone": "Asia/Ho_Chi_Minh"}`. */
  function Slot(t: string): Value {
    Obj(map["dateTime" := Str(t), "timeZone" := Str(TimeZone)])
  }

  /** An optional argument as the body holds it: the text, or `None`. */
  function OptText(s: Option<string>): Value {
    match s
    case Some(t) => Str(t)
    case None => Null
  }

  const DefaultReminders := Obj(map["useDefault" := Bool(true)])

  /** `[{"email": email} for email in attendees] if attendees else []`. */
  function AttendeeList(attendees: Option<seq<string>>): (v: Value)
    ensures v.Arr? && Emails(v.items) == if GivenList(attendees) then attendees.value else []
  {
    if GivenList(attendees) then
      EmailsOfAttendeeRecords(attendees.value);
      Arr(AttendeeRecords(attendees.value))
    else Arr([])
  }

  /** A time slot the body sends: the given time, in the Asia/Ho_Chi_Minh zone. */
  predicate SlotAt(v: Value, t: string) {
    v.Obj? && "dateTime" in v.fields && v.fields["dateTime"] == Str(t) &&
    "timeZone" in v.fields && v.fields["timeZone"] == Str(TimeZone)
  }

  // ---------------------------------------------------------------- list_events lines

  /** `event["start"].get("dateTime", event["start"].get("date"))`: the start time, or
      for an all-day event its date, or `None`. */
  function StartShown(event: Event): (r: Result<Value, string>)
    ensures r.Ok? <==> Settable(event, "start")
    ensures r.Ok? && "dateTime" in event["start"].fields ==> r.value == event["start"].fields["dateTime"]
    ensures r.Ok? && "dateTime" !in event["start"].fields ==> r.value == GetOr(event["start"].fields, "date", Null)
  {
    match Index(Obj(event), "start")
    case Err(e) => Err(e)
    case Ok(slot) =>
      match GetFrom(slot, "date", Null)
      case Err(e) => Err(e)
      case Ok(date) => GetFrom(slot, "dateTime", date)
  }

  /** The preview of one event: id, summary and start, and with `withNotes` the
      description, each with its default. */
  function EventLine(event: Event, withNotes: bool): Result<string, string> {
    match StartShown(event)
    case Err(e) => Err(e)
    case Ok(start) =>
      var line := "- ID: " + Show(Some(GetOr(event, "id", Str(NoId)))) +
                  "\n  Tóm tắt: " + Show(Some(GetOr(event, "summary", Str(NoSummary)))) +
                  "\n  Thời gian: " + Show(Some(start));
      Result.Ok(if withNotes then line + "\n  Ghi chú: " + Show(Some(GetOr(event, "description", Str(NoDescription))))
                else line)
  }

  function EventStep(withNotes: bool, event: Event): Step<()> {
    Step(EventLine(event, withNotes), [])
  }

  /** A listing succeeds exactly when every event has a start dictionary; it then has one
      line per event, in order, and otherwise fails with the first event's error. */
  lemma {:induction false} ListingLines(events: seq<Event>, withNotes: bool)
    ensures ScanAll(events, e => EventStep(withNotes, e)).lines.Ok? <==>
      forall i :: 0 <= i < |events| ==> Settable(events[i], "start")
    ensures ScanAll(events, e => EventStep(withNotes, e)).lines.Ok? ==>
      var lines := ScanAll(events, e => EventStep(withNotes, e)).lines.value;
      |lines| == |events| &&
      forall i :: 0 <= i < |events| ==> lines[i] == EventLine(events[i], withNotes).value
    ensures forall k :: (0 <= k < |events| && !Settable(events[k], "start") &&
                         (forall i :: 0 <= i < k ==> Settable(events[i], "start"))) ==>
      ScanAll(events, e => EventStep(withNotes, e)).lines == Err(SlotErrorOf(events[k]))
  {
    var step := e => EventStep(withNotes, e);
    ScanAllLines(events, step);
    forall k | 0 <= k < |events| && !Settable(events[k], "start") &&
      (forall i :: 0 <= i < k ==> Settable(events[i], "start"))
      ensures ScanAll(events, step).lines == Err(SlotErrorOf(events[k]))
    {
      ScanAllFirstError(events, step, k);
    }
  }

  /** `str(e)` of the exception `event["start"].get(...)` raises. */
  function SlotErrorOf(event: Event): string
    requires !Settable(event, "start")
  {
    StartShown(event).error
  }

  /** What a listing tool makes of the events it got back: `none` when there are none,
      otherwise `header` and the previews separated by blank lines, or the exception the
      first event without a start dictionary raises. */
  function ListingReply(events: seq<Event>, withNotes: bool, header: string, none: string): Result<string, string> {
    if events == [] then Result.Ok(none)
    else match ScanAll(events, e => EventStep(withNotes, e)).lines
      case Ok(lines) => Result.Ok(header + Text.Join("\n\n", lines))
      case Err(e) => Err(e)
  }

  /** The loop of a listing tool over the events it got back. */
  method FormatListing(events: seq<Event>, withNotes: bool, header: string, none: string)
    returns (r: Result<string, string>)
    ensures r == ListingReply(events, withNotes, header, none)
  {
    if events == [] {
      return Result.Ok(none);
    }
    var lines, _ := CollectLines(events, e => EventStep(withNotes, e));
    match lines {
      case Ok(formatted) => r := Result.Ok(header + Text.Join("\n\n", formatted));
      case Err(e) => r := Err(e);
    }
  }

  /** A listing fails exactly when some event has no start dictionary, and then with the
      first such event's exception; with no events it is `none`. */
  lemma {:induction false} ListingReplyMeaning(events: seq<Event>, withNotes: bool, header: string, none: string)
    ensures events == [] ==> ListingReply(events, withNotes, header, none) == Result.Ok(none)
    ensures ListingReply(events, withNotes, header, none).Ok? <==>
      forall i :: 0 <= i < |events| ==> Settable(events[i], "start")
    ensures forall k :: (0 <= k < |events| && !Settable(events[k], "start") &&
                         (forall i :: 0 <= i < k ==> Settable(events[i], "start"))) ==>
      ListingReply(events, withNotes, header, none) == Err(SlotErrorOf(events[k]))
  {
    ListingLines(events, withNotes);
  }

  // ---------------------------------------------------------------- replies

  /** `created_event['start'].get('dateTime')`. */
  function CreatedStart(created: Event): (r: Result<Value, string>)
    ensures r.Ok? <==> Settable(created, "start")
    ensures r.Ok? ==> r.value == GetOr(created["start"].fields, "dateTime", Null)
  {
    match Index(Obj(created), "start")
    case Err(e) => Err(e)
    case Ok(slot) => GetFrom(slot, "dateTime", Null)
  }

  /** The reply to a created event, `suffix` before the final full stop; it fails when the
      answer has no start dictionary. */
  function CreatedReply(created: Event, suffix: string): (r: Result<string, string>)
    ensures r.Ok? <==> Settable(created, "start")
  {
    match CreatedStart(created)
    case Err(e) => Err(e)
    case Ok(start) =>
      Result.Ok("Đã tạo thành công sự kiện '" + Show(Get(created, "summary")) + "' vào lúc " + Show(Some(start)) + suffix + ".")
  }

  function UpdatedReply(updated: Event, suffix: string): string {
    "Đã cập nhật thành công sự kiện '" + Show(Get(updated, "summary")) + "'" + suffix + "."
  }

  function DeletedReply(eventId: string, suffix: string): string {
    "Đã xóa thành công sự kiện với ID: " + eventId + suffix + "."
  }

  function UpdateNotFound(eventId: string): string {
    "Lỗi: Không tìm thấy sự kiện với ID '" + eventId + "'."
  }

  function DeleteNotFound(eventId: string): string {
    "Lỗi: Không tìm thấy sự kiện với ID '" + eventId + "' để xóa."
  }

  function UpdateHttpError(detail: string): string {
    "Lỗi HTTP khi cập nhật sự kiện: " + detail
  }

  function DeleteHttpError(detail: string): string {
    "Lỗi HTTP khi xóa sự kiện: " + detail
  }
}
