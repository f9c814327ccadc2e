# MultiAgent-Langchain tools and agent graph, modelled in Dafny

This project models the deterministic core of a LangGraph multi-agent assistant that
manages Google Tasks, Gmail and Google Calendar for a Vietnamese-speaking user. The
model covers the following pieces.

- **The agent graph** (`agent.py`, `agent_graph.py`, and the copies in `TaskAgent.py`,
  `CalendarAgent.py` and `Agents/CalendarAgent.py`):
  - the routing rule `should_continue`;
  - the wiring of the `StateGraph`;
  - a run of the compiled graph over the message list, where the chat model and the
    tools are oracles;
  - the tool wrapper of `create_agent_with_token`, which binds the access token in front
    of every tool's arguments.
- **The Google Tasks tools**:
  - `tools/google_tasks_tools.py` and its copy in `TaskAgent.py`: due-date
    normalisation through `strptime("%Y-%m-%d")`, the ordered argument guards, the
    insert and patch bodies, the listing and the 404 handling;
  - `google_tasks_tools.py`: the case-insensitive duplicate check, the keyword search
    and the projections handed back to the model.
- **The Gmail tools** (`tools/google_gmail_tools.py`): the search-query builder, the
  first-match header lookup, the selection of the `text/plain` part, truncation to 2000
  characters, and the label, e-mail and draft listings.
- **The calendar tools**, in their three variants:
  - `tools/google_calendar_tools.py`: token based, each change mirrored to the InCard
    app;
  - `Agents/CalendarAgent.py`: seven updatable fields, and a query start always moved
    to 00:00:01;
  - `CalendarAgent.py`: upcoming events from the UTC clock, and three updatable fields.

  The model covers the `list_events` window, the `create_event` body, the in-place
  merge of `update_event`, the InCard payloads and their order, and the replies.

Every Google request, the InCard POST, the chat model, the clock and `fromisoformat`
are parameters:
- a `Connection` says how building the service ended;
- a `Response` gives the answer to each `.execute()`: `Ok`, an `HttpError` with its
  status, or any other exception;
- a boolean is what `call_incard_api` returns.

Each tool is a method that returns both its reply and the requests it issued, in order.
This lets "no API call", "nothing inserted" and "InCard before Google" be stated.

Modules:
- `AgentLoop`: routing, graph, run.
- `ToolWrapping`.
- `DueDate`: `_format_due_date`.
- `TaskTools`, `TaskSearch`, `GmailTools`.
- `DateTimes`: the `datetime` arithmetic and `isoformat` the calendar tools rely on.
- `Events`: the event dictionaries, the merge, the listings and the replies.
- `CalendarTools`, `CalendarAgent`, `SimpleCalendarAgent`.
- Helpers: `Wrappers`, `Text`, `Json`, `Service`, `Scanning` (the `for` loops that
  build previews and stop at the first exception).

## Model

| member | source | states |
|---|---|---|
| AgentLoop.ShouldContinue | agent.py:25-28 | "continue" exactly when the last message is an AI message with at least one tool call, "end" otherwise |
| AgentLoop.CallModel | agent.py:30-31 | an agent step contributes exactly one message, an AI message carrying the model's content and tool calls |
| AgentLoop.ToolNode | agent.py:35 | the tools node answers every call of the last AI message, in order, with a tool message carrying that call's id |
| AgentLoop.Workflow | agent.py:33-38 | the graph has the nodes agent and tools and enters at agent; "continue" leads to tools and "end" to END; tools always leads back to agent; nothing leaves END |
| AgentLoop.Invoke | agent.py:33-40 | executing the wired graph node by node from its entry point yields exactly the run `Run` defines |
| AgentLoop.RunKeepsInput | agent.py:12 | the caller's messages stay in front of everything a run appends |
| AgentLoop.RunAppendsRounds | agent.py:25-38 | a run appends complete rounds (an AI tool request answered call by call); a finished run then ends on an AI message without tool calls, on which the routing says "end" |
| AgentLoop.RoundThenFinished | agent.py:37-38 | one round in front of a finished run keeps the rounds-then-answer shape |
| AgentLoop.RoundThenRounds | agent.py:37-38 | one round in front of rounds is rounds |
| AgentLoop.PrependRound | agent.py:37-38 | an AI tool request followed by its answers, then rounds, is rounds |
| AgentLoop.RunEndsOnModelAnswer | agent.py:30-31 | the last message of a finished run is the model's answer to everything before it |
| AgentLoop.RunFuelMonotone | agent.py:33-38 | allowing more model calls never changes a run that has finished |
| AgentLoop.AnswerWithoutTools | agent.py:37 | a model that answers without tool calls ends the turn at once: one message appended and no tool run |
| AgentLoop.AlwaysActingNeverFinishes | agent.py:37-38 | the graph has no iteration cap: a model that always requests a tool never lets a run finish, and each round appends at least two messages |
| ToolWrapping.CreateWrapper | agent_graph.py:21-39 | the wrapped tool keeps the original name and description, and calling it is calling the original with the token as first positional argument and all other arguments unchanged |
| ToolWrapping.CreateWrappedTools | agent_graph.py:18-41 | one wrapped tool per input tool, in the same order, each bound to the factory's access token |
| ToolWrapping.Lookup | agent_graph.py:43 | a tool is found by name exactly when some tool has that name, and it is a tool of the list with that name |
| ToolWrapping.WrappedCall | agent_graph.py:29-43 | a call by name to the wrapped tools is the same call to the original tools with the token in front; a name unknown to one list is unknown to the other |
| DueDate.DaysInMonth | tools/google_tasks_tools.py:19 | every month `strptime` accepts has between 28 and 31 days |
| DueDate.Strptime | tools/google_tasks_tools.py:19 | every date `strptime("%Y-%m-%d")` accepts is a valid calendar date |
| DueDate.IsoDate | tools/google_tasks_tools.py:20 | `isoformat` of a date is ten characters with `-` at positions 4 and 7 |
| DueDate.FormatDueDate | tools/google_tasks_tools.py:15-23 | a due date is produced exactly when a string is given and `strptime` accepts it; otherwise the result is None |
| DueDate.TwoDigitValue | tools/google_tasks_tools.py:19 | the value of a two-digit field |
| DueDate.StrptimeOfTokens | tools/google_tasks_tools.py:19 | a year, month and day token joined by `-` parse to the date they name exactly when that date is valid |
| DueDate.StrptimeAcceptsOnlyTokens | tools/google_tasks_tools.py:19 | every string `strptime` accepts is such a year, month and day joined by `-` |
| DueDate.StrptimeOfIsoDate | tools/google_tasks_tools.py:19-20 | `strptime` reads `isoformat` of any valid date back unchanged |
| DueDate.FormatDueDateShape | tools/google_tasks_tools.py:15-20 | an accepted date becomes that date zero padded followed by `T00:00:00Z`, twenty characters in all |
| DueDate.RejectsMonth13 | tools/google_tasks_tools.py:21-23 | month 13 is rejected |
| DueDate.RejectsFebruary30 | tools/google_tasks_tools.py:21-23 | February 30 is rejected in every year |
| DueDate.FourDigitValue | tools/google_tasks_tools.py:19 | the value of a four-digit year |
| DueDate.RejectsFebruary29OfCommonYear | tools/google_tasks_tools.py:21-23 | February 29 of 2023 is rejected |
| DueDate.CommonYearDigits | tools/google_tasks_tools.py:19 | "2023" is a year token naming the common year 2023 |
| DueDate.FormatOfParsed | tools/google_tasks_tools.py:15-20 | a parsed string is normalised to the `isoformat` of its date at midnight UTC |
| DueDate.ParsesLeapDay | tools/google_tasks_tools.py:19 | "2024-02-29" parses to February 29 of 2024 |
| DueDate.AcceptsFebruary29OfLeapYear | tools/google_tasks_tools.py:15-20 | February 29 of a leap year is accepted and normalised |
| DueDate.ParsesUnpadded | tools/google_tasks_tools.py:19 | `strptime` also accepts one-digit months and days |
| DueDate.PadsShortFields | tools/google_tasks_tools.py:15-20 | a date written without padding comes out zero padded |
| DueDate.RejectsTrailingText | tools/google_tasks_tools.py:21-23 | trailing text after the day is rejected |
| TaskTools.Entries | tools/google_tasks_tools.py:43-49 | one listing entry per task, in order |
| TaskTools.EntriesAt | tools/google_tasks_tools.py:43-49 | the i-th entry of the listing is the entry of the i-th task |
| TaskTools.EntriesPointwise | tools/google_tasks_tools.py:43-49 | a list with one entry per task, each the entry of its task, is the listing |
| TaskTools.ListTasks | tools/google_tasks_tools.py:26-53 | the list request is made once the service is built; an empty answer is "no tasks"; otherwise the header and one entry per task joined by blank lines; any exception is reported with the listing error prefix |
| TaskTools.FormatTasks | tools/google_tasks_tools.py:43-49 | the loop builds exactly one entry per task, in order |
| TaskTools.LinesExtend | tools/google_tasks_tools.py:44-49 | appending the next entry keeps the entries built so far |
| TaskTools.ListShowsStoredDate | tools/google_tasks_tools.py:48 | a due date `create_task` stored is listed as exactly its date, the text before the first `T` |
| TaskTools.BeforeFirstOfPrefix | tools/google_tasks_tools.py:48 | the text before the first `T` of a date followed by `T` and a time is the date |
| TaskTools.NewTaskBody | tools/google_tasks_tools.py:67-73 | the insert body always has the title, has the notes exactly when non-empty, has the normalised due date exactly when one is given, and nothing else |
| TaskTools.CreateTask | tools/google_tasks_tools.py:56-80 | an empty title errors before any service access; a rejected due date errors without inserting; otherwise exactly one insert of the body, and the reply names the created title or gives the error |
| TaskTools.PatchBody | tools/google_tasks_tools.py:95-103 | the patch body holds exactly the non-empty fields among title, notes and status, with their values; it is empty exactly when none is given |
| TaskTools.UpdateTask | tools/google_tasks_tools.py:82-115 | guards in order (empty id, status outside completed/needsAction, nothing to update) before any patch; then exactly one patch of the body; a 404 names the id, another HTTP error and any other exception have their own messages |
| TaskTools.DeleteTask | tools/google_tasks_tools.py:117-131 | an empty id errors without deleting; otherwise one delete; success, 404 naming the id, other HTTP error and other exception each have their reply |
| TaskSearch.CaseOfTitleIrrelevant | google_tasks_tools.py:73 | the duplicate check ignores case: a title and its lower-cased form find the same duplicates |
| TaskSearch.NewTaskBody | google_tasks_tools.py:76-82 | the body has the title, the notes exactly when non-empty, and the due string exactly when given, as the given text followed by `T00:00:00.000Z` with no validation |
| TaskSearch.CreatedReply | google_tasks_tools.py:85 | the success message is given exactly when the answer has a title and an id, otherwise the KeyError escapes |
| TaskSearch.CreateTask | google_tasks_tools.py:63-87 | no service gives the authentication error; a task whose title equals the new one ignoring case gives the warning and inserts nothing; otherwise exactly one insert of the body; only HttpError is caught |
| TaskSearch.Filter | google_tasks_tools.py:104-107 | a task is kept exactly when the lower-cased query occurs in its lower-cased title or notes, missing fields counting as "" |
| TaskSearch.FilterAppend | google_tasks_tools.py:104-107 | the filter keeps the service's order |
| TaskSearch.EmptyQueryKeepsAll | google_tasks_tools.py:104-107 | an empty query keeps every task |
| TaskSearch.Project | google_tasks_tools.py:113-116 | one record per task in order with its id, title and due (or the default); a task without id or title raises KeyError |
| TaskSearch.ProjectFirstError | google_tasks_tools.py:113-116 | the KeyError is that of the first task lacking a key, `id` checked before `title` |
| TaskSearch.SearchTasks | google_tasks_tools.py:94-118 | no match gives the no-match message; otherwise the projection of the matches, due defaulting to "Không có" |
| TaskSearch.FindNearDueDateTasks | google_tasks_tools.py:126-155 | no service gives the authentication error; then `now + timedelta(days=days)` either raises its `OverflowError` out of the tool before any request or gives the one listing request from now to that instant, both written as naive UTC `isoformat` plus `Z`; after it, no task gives the message naming the day count, otherwise the projection of all tasks returned, in order |
| TaskSearch.DueMax | google_tasks_tools.py:133 | `now + timedelta(days=days)` succeeds exactly when the day count fits `timedelta` and the result stays within years 1 to 9999, and is then `days` whole days away on the same clock; otherwise the `OverflowError` text of `timedelta` or of the addition |
| TaskSearch.DefaultWindowExists | google_tasks_tools.py:122-133 | with the default seven days the window exists whenever now is at least a week before the end of year 9999 |
| GmailTools.FindHeader | tools/google_gmail_tools.py:91-92 | the value of the first header whose lower-cased name matches, otherwise the default |
| GmailTools.FirstPlainText | tools/google_gmail_tools.py:118 | the index of the first `text/plain` part, or None exactly when there is none |
| GmailTools.BodyData | tools/google_gmail_tools.py:115-123 | with parts, the data of the first `text/plain` part or "" when none; without parts, the data of the top-level body |
| GmailTools.BodyIgnoredWithParts | tools/google_gmail_tools.py:116-123 | when the payload has parts, the top-level body is never read, even when it holds data |
| GmailTools.Truncate | tools/google_gmail_tools.py:132 | the shown text is a prefix of the decoded text, of length at most 2000 |
| GmailTools.LabelNames | tools/google_gmail_tools.py:36 | one name per label in order; a label without a name raises KeyError('name') |
| GmailTools.ListLabelsTool | tools/google_gmail_tools.py:22-39 | one labels request; no labels is the not-found message; otherwise the names after `- `, one per line |
| GmailTools.BuildSearchQuery | tools/google_gmail_tools.py:64-76 | the query is the set search terms joined by spaces, or `in:inbox` when none is set |
| GmailTools.NoFilterSearchesInbox | tools/google_gmail_tools.py:76 | with no filter the search string is exactly `in:inbox` |
| GmailTools.AllFiltersInOrder | tools/google_gmail_tools.py:64-76 | with every filter set the terms are query, `from:` sender, the label in double quotes, `is:unread`, in that order |
| GmailTools.JoinOfFour | tools/google_gmail_tools.py:76 | four terms joined by single spaces |
| GmailTools.SearchTermCount | tools/google_gmail_tools.py:64-74 | each set filter contributes exactly one term and only set filters do |
| GmailTools.ListEmails | tools/google_gmail_tools.py:41-99 | one search with the built query, then one metadata request per message in order, stopping at the first exception; previews joined by blank lines, or the not-found message |
| GmailTools.ReadEmailContent | tools/google_gmail_tools.py:101-138 | no selected body data gives the cannot-extract message; otherwise the snippet and the first 2000 decoded characters followed by `...`; 404 names the id |
| GmailTools.ListDraftsTool | tools/google_gmail_tools.py:140-165 | one drafts request, then one request per draft in order, stopping at the first exception; previews joined by blank lines, or the no-drafts message |
| GmailTools.ReadDraftContent | tools/google_gmail_tools.py:167-215 | recipient and subject from the first matching headers with their defaults; the same body selection as e-mails; no data gives "Nội dung trống."; 404 names the id |
| Scanning.ScanAllLines | tools/google_gmail_tools.py:85-94 | a preview loop succeeds exactly when every step does, with one line per item in order |
| Scanning.ScanAllFirstError | tools/google_gmail_tools.py:85-98 | a preview loop fails with the first failing item's exception |
| Scanning.CollectLines | tools/google_gmail_tools.py:85-94 | the `for` loop over the items computes the scan: the lines and the requests, in order |
| Scanning.ScanStopsAtError | tools/google_gmail_tools.py:85-98 | nothing after the first exception is requested |
| Text.Lower | google_tasks_tools.py:73 | ASCII lower-casing keeps the length |
| Text.LowerIdempotent | google_tasks_tools.py:106 | lower-casing twice is lower-casing once |
| Text.BeforeFirstIsPrefix | tools/google_tasks_tools.py:48 | `split('T')[0]` is a prefix without `T`, followed by `T` when shorter than the text |
| Text.ReplaceAll | tools/google_calendar_tools.py:40 | `replace` of a character by text free of it leaves no such character |
| Text.ReplaceAllAppend | tools/google_calendar_tools.py:40 | `replace` distributes over concatenation |
| Text.ReplaceAllAbsent | tools/google_calendar_tools.py:40 | `replace` of an absent character changes nothing |
| Text.NatToDecimal | google_tasks_tools.py:148 | `str` of a natural number is a non-empty digit string whose value is the number |
| Text.Pad2 | tools/google_calendar_tools.py:41 | two-digit zero padding keeps the value |
| Text.Pad4 | tools/google_calendar_tools.py:49 | four-digit zero padding keeps the value |
| Json.Index | tools/google_calendar_tools.py:108 | `d[key]` succeeds exactly on a dictionary holding the key, and then gives the value stored under it |
| Json.GetFrom | tools/google_calendar_tools.py:108 | `d.get(key, default)` succeeds exactly on a dictionary, and gives the value stored under the key, or the default when the key is missing |
| Json.SetIn | tools/google_calendar_tools.py:172 | `d[key] = x` succeeds exactly on a dictionary and then writes that key |
| DateTimes.YearLength | tools/google_calendar_tools.py:85 | the twelve months make up the year |
| DateTimes.NextDay | tools/google_calendar_tools.py:85 | the next day is one ordinal later, and is missing only after 9999-12-31 |
| DateTimes.AddDays | tools/google_calendar_tools.py:85 | n days later is n ordinals later, and there is no result exactly when that passes 9999-12-31 |
| DateTimes.OrdinalAtMostLast | tools/google_calendar_tools.py:85 | every supported date has an ordinal between 1 and that of 9999-12-31 |
| DateTimes.PrevDay | google_tasks_tools.py:133 | the previous day is one ordinal earlier, and is missing exactly for 0001-01-01 |
| DateTimes.SubDays | google_tasks_tools.py:133 | n days earlier is n ordinals earlier, and there is no result exactly when that falls before 0001-01-01 |
| DateTimes.ShiftDate | google_tasks_tools.py:133 | a date moved by any whole number of days lands that many ordinals away, and fails exactly outside years 1 to 9999 |
| DateTimes.PlusDays | tools/google_calendar_tools.py:85 | `dt + timedelta(days=n)` keeps the zone and microseconds and is n·86400 s later on the wall clock; it raises the out-of-range error exactly when the date would leave years 1 to 9999 |
| DateTimes.PlusSevenDaysInstant | tools/google_calendar_tools.py:85 | the default end is exactly 604800 seconds after the start instant |
| DateTimes.Snap | Agents/CalendarAgent.py:75 | `replace(hour=0, minute=0, second=1)` keeps date, zone and microseconds and is one second into the day |
| DateTimes.SnapIdempotent | Agents/CalendarAgent.py:69-75 | snapping twice is snapping once, and never moves a time past one second into its day |
| DateTimes.AttachVietnam | tools/google_calendar_tools.py:80-81 | a naive value gets the +07:00 zone with the same wall clock; an aware one is unchanged |
| DateTimes.NowInVietnam | tools/google_calendar_tools.py:76 | `now(UTC+7)` is the UTC+7 wall clock with the +07:00 zone |
| DateTimes.Naive | CalendarAgent.py:65 | `utcnow()` is the UTC wall clock without a zone |
| DateTimes.Pad6 | tools/google_calendar_tools.py:77 | microseconds are written as six digits whose value is the microseconds |
| DateTimes.OffsetText | tools/google_calendar_tools.py:77 | an offset is written `±HH:MM`: `-` exactly for a negative offset, then the hours and the minutes of its magnitude |
| DateTimes.ClockText | tools/google_calendar_tools.py:41 | `strftime("%H:%M")` is five characters whose fields are the hour and minute |
| DateTimes.IsoFormatShape | tools/google_calendar_tools.py:77 | `isoformat` is the date, `T`, the `HH:MM` clock and `:`, with a length that counts the seconds, the fraction unless the microseconds are zero, and, when aware, the offset at the end |
| DateTimes.IsoFormatSeconds | tools/google_calendar_tools.py:77 | the seconds follow as two digits, then, unless the microseconds are zero, `.` and the six-digit microseconds |
| DateTimes.NaiveIsoFormatHasNoZulu | CalendarAgent.py:65 | a naive `isoformat` holds no `Z` |
| DateTimes.IsoFormatAware | tools/google_calendar_tools.py:77 | an aware `isoformat` is the naive one followed by the offset |
| DateTimes.OffsetTextOfUtc | tools/google_calendar_tools.py:40 | offset zero is written `+00:00` |
| DateTimes.ExtractTime | tools/google_calendar_tools.py:37-43 | `HH:MM` of the parsed value (a `Z` read as +00:00), or "09:00" when parsing fails |
| DateTimes.ExtractDate | tools/google_calendar_tools.py:45-51 | a `YYYY-MM-DD` date that reads back as the parsed date, or as today when parsing fails |
| DateTimes.TrailingZIsUtc | tools/google_calendar_tools.py:40 | a trailing `Z` gives the same time and date as `+00:00` |
| DateTimes.ReadAware | tools/google_calendar_tools.py:79-82 | a given time that parses is read as aware |
| DateTimes.WindowForMeaning | tools/google_calendar_tools.py:74-91 | both ends aware; a missing start is now in UTC+7 at 00:00:01; naive times get +07:00; a missing end is exactly 7 days after the unsnapped start; errors are those of the first value that cannot be built |
| DateTimes.DefaultWindowRange | tools/google_calendar_tools.py:74-86 | with neither end given, the window fails exactly when now is within seven days of the end of year 9999, with the out-of-range error |
| DateTimes.ListWindow | tools/google_calendar_tools.py:74-91 | reassigning start and end step by step computes exactly the window `WindowFor` defines |
| Events.AttendeeRecords | tools/google_calendar_tools.py:178 | one attendee record per address |
| Events.EmailsOfAttendeeRecords | tools/google_calendar_tools.py:178 | the records name exactly the given addresses, in order |
| Events.SetDateTime | tools/google_calendar_tools.py:172 | setting a slot's `dateTime` succeeds exactly when the slot is a dictionary, and then changes only that slot |
| Events.UpdateTitleAndTimes | tools/google_calendar_tools.py:169-174 | summary, start and end are overwritten when given; fails exactly when a time is given for a missing slot; nothing else changes |
| Events.UpdateDetails | Agents/CalendarAgent.py:157-164 | description, location, reminders and attendees are overwritten when given; nothing else changes |
| Events.ApplyUpdate | Agents/CalendarAgent.py:151-164 | the merge overwrites exactly the given non-empty fields, leaves every other field as fetched, and fails only when a time is given for an event without that slot; with nothing given the event is unchanged |
| Events.ComposedFrame | Agents/CalendarAgent.py:151-164 | the two stages of the merge together leave alone every key neither writes |
| Events.ComposedFirstFields | Agents/CalendarAgent.py:151-164 | the second stage of the merge keeps what the first wrote |
| Events.AttendeeList | tools/google_calendar_tools.py:136 | the attendee list names exactly the given addresses, or none |
| Events.StartShown | tools/google_calendar_tools.py:108 | a listing shows the start `dateTime`, or the all-day `date`; it raises exactly when the event has no start dictionary |
| Events.ListingLines | tools/google_calendar_tools.py:105-114 | the preview loop succeeds exactly when every event has a start dictionary, one line per event in order |
| Events.FormatListing | tools/google_calendar_tools.py:101-116 | the listing loop computes exactly the reply `ListingReply` defines |
| Events.ListingReplyMeaning | tools/google_calendar_tools.py:101-116 | no events gives the "no events" message; the listing fails exactly when some event has no start dictionary, with the first such event's error |
| Events.CreatedStart | tools/google_calendar_tools.py:153 | the reply reads the created start `dateTime`, raising exactly when there is no start dictionary |
| Events.CreatedReply | tools/google_calendar_tools.py:153 | the success message is given exactly when the created event has a start dictionary |
| CalendarTools.ListEvents | tools/google_calendar_tools.py:63-118 | the listing request is made with the window's `timeMin`/`timeMax` (a given start kept, only made aware); a failing window makes no request; every failure gets the token hint |
| CalendarTools.NewEventBodyFields | tools/google_calendar_tools.py:130-137 | the body has both times in Asia/Ho_Chi_Minh, default reminders, the description as given, and records for exactly the given attendees, or [] |
| CalendarTools.NewInCardPayloadTime | tools/google_calendar_tools.py:144 | the InCard `time` field is the start `HH:MM`, one space and the end `HH:MM` |
| CalendarTools.NewInCardPayloadFields | tools/google_calendar_tools.py:141-148 | the InCard copy has exactly its six fields: the title, the start's date, the description or "" when there is none, the default user 5089, and Google's id for the event or null |
| CalendarTools.CreateEvent | tools/google_calendar_tools.py:120-155 | one insert of the body, then the InCard add only when the insert succeeded; the InCard outcome only picks the reply suffix |
| CalendarTools.SlotTime | tools/google_calendar_tools.py:183-184 | the updated slot's `dateTime` or "", raising exactly when there is no slot dictionary |
| CalendarTools.ToolUpdate | tools/google_calendar_tools.py:158 | this tool set can write only summary, start, end, description and attendees |
| CalendarTools.AfterUpdateMeaning | tools/google_calendar_tools.py:180-204 | the InCard copy, keyed by the event id, is sent exactly when Google accepted the update and its answer has both slots, and the reply is then the success message; a 404 names the id |
| CalendarTools.UpdateEvent | tools/google_calendar_tools.py:157-204 | fetch, then send back the event merged from exactly the given fields, then the InCard update; a fetch failure or a merge failure stops before the update |
| CalendarTools.DeleteEvent | tools/google_calendar_tools.py:206-236 | the InCard delete precedes the Google delete; the Google outcome alone decides success, 404 or error, and the InCard outcome only picks the suffix |
| CalendarAgent.ListEvents | Agents/CalendarAgent.py:56-112 | the listing request uses the window with its start snapped to 00:00:01 whether given or not; a failing window makes no request |
| CalendarAgent.SnappedWindowDiffersOnlyInStart | Agents/CalendarAgent.py:66-84 | this window and the token tool set's differ only in `timeMin`, which here is always the snapped start, and the two agree when no start is given |
| CalendarAgent.NewEventBodyFields | Agents/CalendarAgent.py:125-133 | both times in Asia/Ho_Chi_Minh, the reminders given when non-empty else the default, and exactly the given attendees |
| CalendarAgent.CreateEvent | Agents/CalendarAgent.py:114-137 | one insert of the body; failures get the time-format hint |
| CalendarAgent.UpdateEvent | Agents/CalendarAgent.py:139-173 | fetch, then at most one update sending the event merged from exactly the given fields among seven; 404 names the id |
| CalendarAgent.DeleteEvent | Agents/CalendarAgent.py:175-187 | one delete; success, 404 naming the id, other HTTP error and other exception each have their reply |
| SimpleCalendarAgent.UtcTimeMinIsUtc | CalendarAgent.py:65 | the `Z` the listing appends marks the naive UTC clock as UTC: the same text and instant as the UTC wall clock at +00:00 |
| SimpleCalendarAgent.ListEvents | CalendarAgent.py:56-89 | one request for at most `max_results` upcoming events from now in UTC; no events gives the "no upcoming events" message |
| SimpleCalendarAgent.NewEventBodyIsAgentBodyWithoutAttendees | CalendarAgent.py:101-108 | this body is the `Agents/CalendarAgent.py` body given no reminders and no attendees, without its empty attendee list |
| SimpleCalendarAgent.CreateEvent | CalendarAgent.py:91-112 | one insert of the body; failures get the time-format hint |
| SimpleCalendarAgent.TitleAndTimes | CalendarAgent.py:115 | this tool set writes only summary, start and end |
| SimpleCalendarAgent.UpdateEvent | CalendarAgent.py:114-141 | fetch, then at most one update; a new start or end given for an event whose slot is missing or not a dictionary sends no update and replies with the unknown-error text of that slot; every field other than summary, start and end is sent back as fetched |

## Left out

- Building the services is not modelled: OAuth, credentials files, the Streamlit session,
  the `_services` cache, `get_google_service`, `get_tasks_service`,
  `get_google_calendar_service` and the token variants. How building ends is the
  `Connection` parameter.
- The Google API client, the Gemini model and the InCard HTTP POST are network calls.
  Their answers are parameters: one `Response` per `.execute()`, a reply function for the
  model, and a boolean for `call_incard_api`.
- LangGraph internals (`StateGraph.compile`, `ToolNode`, `add_messages`) are not
  modelled.
  - `add_messages` is modelled as concatenation, which holds for messages with fresh ids.
  - The tools node is modelled as one tool message per call.
- AgentLoop.Run: a run is bounded by `fuel`, the number of model calls. This is only a
  modelling device: the graph itself has no cap, as `AlwaysActingNeverFinishes` shows.
- Prompt texts, the system messages and the `main()` loops are not modelled. The same
  holds for `app.py`, `main.py`, `example.py`, `config.py`, `test_api.py` and
  `test_token_api.py`.
- `datetime.now`, `utcnow`, `date.today` and `fromisoformat` are parameters.
  - `fromisoformat` is an arbitrary parser that gives a valid date-time or an error.
  - Offsets are whole minutes.
  - `strftime("%Y")` is taken to pad years below 1000 to four digits.
- `base64.urlsafe_b64decode(...).decode('utf-8')` is a decoder parameter.
- DueDate.Strptime: a digit is an ASCII digit. CPython's `\d` also matches the other Unicode decimal digits (a fullwidth `２０２５-08-05` parses there), which the model rejects.
- Text.Lower: `str.lower` is modelled on ASCII letters only, so accented Vietnamese capitals keep their case. Full Unicode case mapping is not modelled.
- `str(...)` of dictionaries and lists in replies is a stand-in rendering (`Json.Show`),
  not Python's `repr`.
- The requests record the parameters that differ between the tools (query window,
  maximum count, body). The constant `calendarId`, `tasklist`, `singleEvents` and
  `orderBy` arguments are not recorded.
- The `print` lines (`DEBUG` in `Agents/CalendarAgent.py`, the InCard failure log) are not
  modelled.
- CalendarTools.BuildError: the token variant's service builder raises instead of
  returning `None`, so its `NoService` case cannot occur. It is kept for a uniform
  `Connection`.
- TaskAgent.py's tools are the same text as tools/google_tasks_tools.py's apart from the
  service getter; `TaskTools` models both.
- The `delete_event` of CalendarAgent.py is the same text as that of
  Agents/CalendarAgent.py; `CalendarAgent.DeleteEvent` models both.
- The `timeZone` of a given start or end is not checked against its offset. The source
  sends both as given.
