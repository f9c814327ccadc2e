/** The Gmail tools of `tools/google_gmail_tools.py`: `list_labels`, `list_emails`,
    `read_email_content`, `list_drafts` and `read_draft_content`.

    The service is an oracle. Building it from the access token either works or raises;
    each request is answered by a `Response`; base64url decoding of a body is a parameter
    that gives the text or the exception it raised. */
module GmailTools {
  import opened Wrappers
  import opened Text
  import opened Service
  import opened Scanning

  datatype Header = Header(name: string, value: string)

  /** A `body` dictionary: its optional `data`. */
  datatype Body = Body(data: Option<string>)

  /** An entry of `payload['parts']`. */
  datatype Part = Part(mimeType: Option<string>, body: Option<Body>)

  /** A message `payload`, each key possibly absent. */
  datatype Payload = Payload(headers: Option<seq<Header>>, parts: Option<seq<Part>>, body: Option<Body>)

  /** A message resource as `messages().get` returns it. */
  datatype Email = Email(payload: Option<Payload>, snippet: Option<string>)

  /** A draft resource as `drafts().get` returns it. */
  datatype Draft = Draft(message: Option<Email>)

  /** An entry of a list answer (`{'id': ...}`, `{'name': ...}`). */
  type Record = map<string, string>

  type Decoder = string -> Result<string, string>

  /** The requests the tools make. */
  datatype Call =
    | ListLabels
    | ListMessages(q: string, maxResults: int)
    | GetMessage(id: string, format: string)
    | ListDrafts(maxResults: int)
    | GetDraft(id: string)

  const EmptyPayload := Payload(None, None, None)
  const TokenHint := ". Hãy chắc chắn access token còn hiệu lực."
  const NoSubject := "Không có tiêu đề"
  const NoSender := "Không rõ người gửi"
  const NoRecipient := "Chưa có người nhận"
  const EmptyContent := "Nội dung trống."
  const NoText := "Không thể trích xuất nội dung văn bản từ email này."
  const ContentLimit := 2000

  function KeyError(key: string): string {
    "'" + key + "'"
  }

  /** `str(e)` when building the service from the token failed. */
  function BuildError(conn: Connection): string
    requires !conn.Connected?
  {
    match conn
    case ConnectFailed(detail) => "Failed to create gmail service: " + detail
    case NoService => ConnectionError(conn, "users")
  }

  // ---------------------------------------------------------------- headers and bodies

  predicate HeaderIs(h: Header, name: string) {
    Lower(h.name) == name
  }

  /** `next((h['value'] for h in headers if h['name'].lower() == name), default)`. */
  function FindHeader(headers: seq<Header>, name: string, default: string): (r: string)
    ensures (forall i :: 0 <= i < |headers| ==> !HeaderIs(headers[i], name)) ==> r == default
    ensures forall j :: (0 <= j < |headers| && HeaderIs(headers[j], name) &&
                         (forall i :: 0 <= i < j ==> !HeaderIs(headers[i], name))) ==> r == headers[j].value
  {
    if headers == [] then default
    else if HeaderIs(headers[0], name) then headers[0].value
    else
      var r := FindHeader(headers[1..], name, default);
      assert forall j :: 1 <= j < |headers| ==> headers[j] == headers[1..][j - 1];
      r
  }

  predicate IsPlainText(p: Part) {
    p.mimeType == Some("text/plain")
  }

  /** `next((p for p in parts if p.get('mimeType') == 'text/plain'), None)`. */
  function FirstPlainText(parts: seq<Part>): (r: Option<nat>)
    ensures r.None? <==> forall i :: 0 <= i < |parts| ==> !IsPlainText(parts[i])
    ensures r.Some? ==> r.value < |parts| && IsPlainText(parts[r.value])
    ensures r.Some? ==> forall i :: 0 <= i < r.value ==> !IsPlainText(parts[i])
  {
    if parts == [] then None
    else if IsPlainText(parts[0]) then Some(0)
    else
      match FirstPlainText(parts[1..])
      case None => None
      case Some(k) => Some(k + 1)
  }

  function BodyDataOf(body: Option<Body>): string {
    if body.Some? && body.value.data.Some? then body.value.data.value else ""
  }

  /** The `body_data` both readers select: with parts, the data of the first `text/plain`
      part ("" when there is none); without parts, the data of the top-level body. */
  function BodyData(payload: Payload): (r: string)
    ensures payload.parts.Some? && payload.parts.value != [] ==>
      r == match FirstPlainText(payload.parts.value)
        case None => ""
        case Some(k) => BodyDataOf(payload.parts.value[k].body)
    ensures (payload.parts.None? || payload.parts.value == []) ==> r == BodyDataOf(payload.body)
  {
    var parts := payload.parts.GetOr([]);
    if parts != [] then
      match FirstPlainText(parts)
      case None => ""
      case Some(k) => BodyDataOf(parts[k].body)
    else BodyDataOf(payload.body)
  }

  /** With parts present the top-level body is never read, even when it holds data. */
  lemma BodyIgnoredWithParts(payload: Payload, other: Option<Body>)
    requires payload.parts.Some? && payload.parts.value != []
    ensures BodyData(payload) == BodyData(payload.(body := other))
  {
  }

  /** `decoded_data[:2000]`. */
  function Truncate(s: string): (r: string)
    ensures r <= s
    ensures |r| == if |s| <= ContentLimit then |s| else ContentLimit
  {
    if |s| <= ContentLimit then s else s[..ContentLimit]
  }

  // ---------------------------------------------------------------- list_labels

  /** `[label['name'] for label in labels]`. */
  function LabelNames(labels: seq<Record>): (r: Result<seq<string>, string>)
    ensures r.Ok? <==> forall i :: 0 <= i < |labels| ==> "name" in labels[i]
    ensures r.Ok? ==> |r.value| == |labels| && forall i :: 0 <= i < |labels| ==> r.value[i] == labels[i]["name"]
    ensures r.Err? ==> r.error == KeyError("name")
  {
    if labels == [] then Result.Ok([])
    else if "name" !in labels[0] then Err(KeyError("name"))
    else
      match LabelNames(labels[1..])
      case Err(e) => Err(e)
      case Ok(rest) =>
        assert forall i :: 1 <= i < |labels| ==> labels[i] == labels[1..][i - 1];
        Result.Ok([labels[0]["name"]] + rest)
  }

  function LabelsFailed(detail: string): string {
    "Lỗi khi liệt kê nhãn: " + detail + TokenHint
  }

  /** `list_labels(access_token)`; `list` answers the labels request. */
  method ListLabelsTool(conn: Connection, list: Response<seq<Record>>) returns (reply: string, calls: seq<Call>)
    ensures !conn.Connected? ==> reply == LabelsFailed(BuildError(conn)) && calls == []
    ensures conn.Connected? ==> calls == [ListLabels]
    ensures conn.Connected? && !list.Ok? ==> reply == LabelsFailed(list.Detail())
    ensures conn.Connected? && list.Ok? && list.value == [] ==> reply == "Không tìm thấy nhãn nào."
    ensures conn.Connected? && list.Ok? && list.value != [] ==>
      reply == match LabelNames(list.value)
        case Ok(names) => "Đây là danh sách các nhãn của bạn:\n- " + Join("\n- ", names)
        case Err(e) => LabelsFailed(e)
  {
    if !conn.Connected? {
      return LabelsFailed(BuildError(conn)), [];
    }
    calls := [ListLabels];
    if !list.Ok? {
      return LabelsFailed(list.Detail()), calls;
    }
    var labels := list.value;
    if labels == [] {
      return "Không tìm thấy nhãn nào.", calls;
    }
    match LabelNames(labels) {
      case Ok(names) => reply := "Đây là danh sách các nhãn của bạn:\n- " + Join("\n- ", names);
      case Err(e) => reply := LabelsFailed(e);
    }
  }

  // ---------------------------------------------------------------- list_emails

  /** The search terms in their fixed order, each present only when its filter is set. */
  function SearchTerms(query: Option<string>, fromSender: Option<string>, labelName: Option<string>, isUnread: bool): seq<string> {
    (if Truthy(query) then [query.value] else []) +
    (if Truthy(fromSender) then ["from:" + fromSender.value] else []) +
    (if Truthy(labelName) then ["label:\"" + labelName.value + "\""] else []) +
    (if isUnread then ["is:unread"] else [])
  }

  function SearchQuery(terms: seq<string>): string {
    if terms == [] then "in:inbox" else Join(" ", terms)
  }

  /** The part of `list_emails` that builds `search_query`. */
  method BuildSearchQuery(query: Option<string>, fromSender: Option<string>, labelName: Option<string>, isUnread: bool)
    returns (q: string)
    ensures q == SearchQuery(SearchTerms(query, fromSender, labelName, isUnread))
  {
    var parts: seq<string> := [];
    if Truthy(query) {
      parts := parts + [query.value];
    }
    ghost var terms := if Truthy(query) then [query.value] else [];
    assert parts == terms;
    if Truthy(fromSender) {
      parts := parts + ["from:" + fromSender.value];
    }
    terms := terms + if Truthy(fromSender) then ["from:" + fromSender.value] else [];
    assert parts == terms;
    if Truthy(labelName) {
      parts := parts + ["label:\"" + labelName.value + "\""];
    }
    terms := terms + if Truthy(labelName) then ["label:\"" + labelName.value + "\""] else [];
    assert parts == terms;
    if isUnread {
      parts := parts + ["is:unread"];
    }
    terms := terms + if isUnread then ["is:unread"] else [];
    assert parts == terms == SearchTerms(query, fromSender, labelName, isUnread);
    q := if parts == [] then "in:inbox" else Join(" ", parts);
  }

  /** With no filter set, the search is the inbox. */
  lemma NoFilterSearchesInbox(query: Option<string>, fromSender: Option<string>, labelName: Option<string>)
    requires !Truthy(query) && !Truthy(fromSender) && !Truthy(labelName)
    ensures SearchQuery(SearchTerms(query, fromSender, labelName, false)) == "in:inbox"
  {
  }

  /** With all four filters the terms are query, sender, quoted label and unread, in that
      order, joined by single spaces. */
  lemma {:induction false} AllFiltersInOrder(query: string, fromSender: string, labelName: string)
    requires query != "" && fromSender != "" && labelName != ""
    ensures SearchQuery(SearchTerms(Some(query), Some(fromSender), Some(labelName), true)) ==
      query + " from:" + fromSender + " label:\"" + labelName + "\" is:unread"
  {
    var b, c := "from:" + fromSender, "label:\"" + labelName + "\"";
    var terms := SearchTerms(Some(query), Some(fromSender), Some(labelName), true);
    assert terms == [query, b, c, "is:unread"];
    JoinOfFour(query, b, c, "is:unread");
    calc {
      SearchQuery(terms);
      query + (" " + b) + (" " + c) + (" " + "is:unread");
      { assert " " + b == " from:" + fromSender by { assert " " + "from:" == " from:"; }
        assert " " + c == " label:\"" + labelName + "\"" by { assert " " + "label:\"" == " label:\""; }
        assert " " + "is:unread" == " is:unread"; }
      query + (" from:" + fromSender) + (" label:\"" + labelName + "\"") + " is:unread";
      { assert "\"" + " is:unread" == "\" is:unread"; }
      query + " from:" + fromSender + " label:\"" + labelName + "\" is:unread";
    }
  }

  /** Four terms joined by spaces. */
  lemma JoinOfFour(a: string, b: string, c: string, d: string)
    ensures Join(" ", [a, b, c, d]) == a + (" " + b) + (" " + c) + (" " + d)
  {
    assert [a, b, c, d][1..] == [b, c, d];
    assert [b, c, d][1..] == [c, d];
    assert [c, d][1..] == [d];
    assert Join(" ", [c, d]) == c + " " + d;
    assert Join(" ", [b, c, d]) == b + " " + (c + " " + d);
  }

  /** Each set filter contributes exactly one term, and only set filters do. */
  lemma SearchTermCount(query: Option<string>, fromSender: Option<string>, labelName: Option<string>, isUnread: bool)
    ensures |SearchTerms(query, fromSender, labelName, isUnread)| ==
      (if Truthy(query) then 1 else 0) + (if Truthy(fromSender) then 1 else 0) +
      (if Truthy(labelName) then 1 else 0) + (if isUnread then 1 else 0)
    ensures SearchTerms(query, fromSender, labelName, isUnread) == [] <==>
      !Truthy(query) && !Truthy(fromSender) && !Truthy(labelName) && !isUnread
  {
  }

  /** One entry of `list_emails`: `msg['id']`, the metadata request,
      `msg_content['payload']['headers']`, then the subject and sender lookups. */
  function EmailStep(fetch: string -> Response<Email>, msg: Record): Step<Call> {
    if "id" !in msg then Step(Err(KeyError("id")), [])
    else
      var id := msg["id"];
      var calls := [GetMessage(id, "metadata")];
      match fetch(id)
      case HttpError(_, detail) => Step(Err(detail), calls)
      case Failure(detail) => Step(Err(detail), calls)
      case Ok(email) =>
        if email.payload.None? then Step(Err(KeyError("payload")), calls)
        else if email.payload.value.headers.None? then Step(Err(KeyError("headers")), calls)
        else
          var headers := email.payload.value.headers.value;
          Step(Result.Ok("- ID: " + id + "\n  Tiêu đề: " + FindHeader(headers, "subject", NoSubject) +
                         "\n  Người gửi: " + FindHeader(headers, "from", NoSender)), calls)
  }

  function EmailsFailed(detail: string): string {
    "Lỗi khi tìm kiếm email: " + detail + TokenHint
  }

  /** `list_emails(access_token, query, from_sender, label, is_unread, max_results)`;
      `list` answers the search, `fetch` each metadata request. */
  method ListEmails(query: Option<string>, fromSender: Option<string>, labelName: Option<string>, isUnread: bool,
                    maxResults: int, conn: Connection, list: Response<seq<Record>>,
                    fetch: string -> Response<Email>) returns (reply: string, calls: seq<Call>)
    ensures !conn.Connected? ==> reply == EmailsFailed(BuildError(conn)) && calls == []
    ensures conn.Connected? && !list.Ok? ==>
      reply == EmailsFailed(list.Detail()) &&
      calls == [ListMessages(SearchQuery(SearchTerms(query, fromSender, labelName, isUnread)), maxResults)]
    ensures conn.Connected? && list.Ok? && list.value == [] ==>
      reply == "Không tìm thấy email nào khớp với tiêu chí của bạn." &&
      calls == [ListMessages(SearchQuery(SearchTerms(query, fromSender, labelName, isUnread)), maxResults)]
    ensures conn.Connected? && list.Ok? && list.value != [] ==>
      var scan := ScanAll(list.value, r => EmailStep(fetch, r));
      calls == [ListMessages(SearchQuery(SearchTerms(query, fromSender, labelName, isUnread)), maxResults)] + scan.calls &&
      reply == match scan.lines
        case Ok(previews) => "Đây là các email được tìm thấy:\n\n" + Join("\n\n", previews)
        case Err(e) => EmailsFailed(e)
  {
    if !conn.Connected? {
      return EmailsFailed(BuildError(conn)), [];
    }
    var q := BuildSearchQuery(query, fromSender, labelName, isUnread);
    calls := [ListMessages(q, maxResults)];
    if !list.Ok? {
      return EmailsFailed(list.Detail()), calls;
    }
    var messages := list.value;
    if messages == [] {
      return "Không tìm thấy email nào khớp với tiêu chí của bạn.", calls;
    }
    var lines, more := CollectLines(messages, r => EmailStep(fetch, r));
    calls := calls + more;
    match lines {
      case Ok(previews) => reply := "Đây là các email được tìm thấy:\n\n" + Join("\n\n", previews);
      case Err(e) => reply := EmailsFailed(e);
    }
  }

  // ---------------------------------------------------------------- read_email_content

  function ReadEmailFailed(detail: string): string {
    "Lỗi không xác định khi đọc email: " + detail + TokenHint
  }

  /** `read_email_content(access_token, email_id)`; `get` answers the full-format request. */
  method ReadEmailContent(emailId: string, conn: Connection, get: Response<Email>, decode: Decoder)
    returns (reply: string, calls: seq<Call>)
    ensures !conn.Connected? ==> reply == ReadEmailFailed(BuildError(conn)) && calls == []
    ensures conn.Connected? ==> calls == [GetMessage(emailId, "full")]
    ensures conn.Connected? && get.HttpError? ==>
      reply == if get.status == 404 then "Lỗi: Không tìm thấy email với ID '" + emailId + "'."
               else "Lỗi HTTP khi đọc email: " + get.detail
    ensures conn.Connected? && get.Failure? ==> reply == ReadEmailFailed(get.detail)
    ensures conn.Connected? && get.Ok? ==>
      var data := BodyData(get.value.payload.GetOr(EmptyPayload));
      reply == if data == "" then NoText
               else match decode(data)
                 case Err(e) => ReadEmailFailed(e)
                 case Ok(text) =>
                   "Tóm tắt ngắn: " + get.value.snippet.GetOr("Không có tóm tắt.") +
                   "\n\nNội dung đầy đủ:\n---\n" + Truncate(text) + "..."
  {
    if !conn.Connected? {
      return ReadEmailFailed(BuildError(conn)), [];
    }
    calls := [GetMessage(emailId, "full")];
    match get {
      case HttpError(status, detail) =>
        return if status == 404 then "Lỗi: Không tìm thấy email với ID '" + emailId + "'."
               else "Lỗi HTTP khi đọc email: " + detail, calls;
      case Failure(detail) => return ReadEmailFailed(detail), calls;
      case Ok(message) =>
        var payload := message.payload.GetOr(EmptyPayload);
        var bodyData := BodyData(payload);
        if bodyData == "" {
          return NoText, calls;
        }
        match decode(bodyData) {
          case Err(e) => reply := ReadEmailFailed(e);
          case Ok(text) =>
            var snippet := message.snippet.GetOr("Không có tóm tắt.");
            reply := "Tóm tắt ngắn: " + snippet + "\n\nNội dung đầy đủ:\n---\n" + Truncate(text) + "...";
        }
    }
  }

  // ---------------------------------------------------------------- list_drafts

  /** One entry of `list_drafts`: `draft['id']`, the draft request,
      `draft_content['message']['payload']['headers']`, then the subject lookup. */
  function DraftStep(fetch: string -> Response<Draft>, draft: Record): Step<Call> {
    if "id" !in draft then Step(Err(KeyError("id")), [])
    else
      var id := draft["id"];
      var calls := [GetDraft(id)];
      match fetch(id)
      case HttpError(_, detail) => Step(Err(detail), calls)
      case Failure(detail) => Step(Err(detail), calls)
      case Ok(content) =>
        if content.message.None? then Step(Err(KeyError("message")), calls)
        else if content.message.value.payload.None? then Step(Err(KeyError("payload")), calls)
        else if content.message.value.payload.value.headers.None? then Step(Err(KeyError("headers")), calls)
        else
          var headers := content.message.value.payload.value.headers.value;
          Step(Result.Ok("- ID Nháp: " + id + "\n  Tiêu đề: " + FindHeader(headers, "subject", NoSubject)), calls)
  }

  function DraftsFailed(detail: string): string {
    "Lỗi khi liệt kê thư nháp: " + detail + TokenHint
  }

  /** `list_drafts(access_token, max_results)`; `list` answers the drafts request, `fetch`
      each draft request. */
  method ListDraftsTool(maxResults: int, conn: Connection, list: Response<seq<Record>>,
                        fetch: string -> Response<Draft>) returns (reply: string, calls: seq<Call>)
    ensures !conn.Connected? ==> reply == DraftsFailed(BuildError(conn)) && calls == []
    ensures conn.Connected? && !list.Ok? ==> reply == DraftsFailed(list.Detail()) && calls == [ListDrafts(maxResults)]
    ensures conn.Connected? && list.Ok? && list.value == [] ==>
      reply == "Bạn không có thư nháp nào." && calls == [ListDrafts(maxResults)]
    ensures conn.Connected? && list.Ok? && list.value != [] ==>
      var scan := ScanAll(list.value, r => DraftStep(fetch, r));
      calls == [ListDrafts(maxResults)] + scan.calls &&
      reply == match scan.lines
        case Ok(previews) => "Đây là danh sách các thư nháp của bạn:\n\n" + Join("\n\n", previews)
        case Err(e) => DraftsFailed(e)
  {
    if !conn.Connected? {
      return DraftsFailed(BuildError(conn)), [];
    }
    calls := [ListDrafts(maxResults)];
    if !list.Ok? {
      return DraftsFailed(list.Detail()), calls;
    }
    var drafts := list.value;
    if drafts == [] {
      return "Bạn không có thư nháp nào.", calls;
    }
    var lines, more := CollectLines(drafts, r => DraftStep(fetch, r));
    calls := calls + more;
    match lines {
      case Ok(previews) => reply := "Đây là danh sách các thư nháp của bạn:\n\n" + Join("\n\n", previews);
      case Err(e) => reply := DraftsFailed(e);
    }
  }

  // ---------------------------------------------------------------- read_draft_content

  function ReadDraftFailed(detail: string): string {
    "Lỗi không xác định khi đọc thư nháp: " + detail + TokenHint
  }

  /** `read_draft_content(access_token, draft_id)`; `get` answers the draft request. */
  method ReadDraftContent(draftId: string, conn: Connection, get: Response<Draft>, decode: Decoder)
    returns (reply: string, calls: seq<Call>)
    ensures !conn.Connected? ==> reply == ReadDraftFailed(BuildError(conn)) && calls == []
    ensures conn.Connected? ==> calls == [GetDraft(draftId)]
    ensures conn.Connected? && get.HttpError? ==>
      reply == if get.status == 404 then "Lỗi: Không tìm thấy thư nháp với ID '" + draftId + "'."
               else "Lỗi HTTP khi đọc thư nháp: " + get.detail
    ensures conn.Connected? && get.Failure? ==> reply == ReadDraftFailed(get.detail)
    ensures conn.Connected? && get.Ok? ==>
      var payload := if get.value.message.Some? then get.value.message.value.payload.GetOr(EmptyPayload) else EmptyPayload;
      var headers := payload.headers.GetOr([]);
      var data := BodyData(payload);
      var head := "Người nhận: " + FindHeader(headers, "to", NoRecipient) + "\nTiêu đề: " +
                  FindHeader(headers, "subject", NoSubject) + "\n--- Nội dung ---\n";
      reply == if data == "" then head + EmptyContent
               else match decode(data)
                 case Err(e) => ReadDraftFailed(e)
                 case Ok(text) => head + text
  {
    if !conn.Connected? {
      return ReadDraftFailed(BuildError(conn)), [];
    }
    calls := [GetDraft(draftId)];
    match get {
      case HttpError(status, detail) =>
        return if status == 404 then "Lỗi: Không tìm thấy thư nháp với ID '" + draftId + "'."
               else "Lỗi HTTP khi đọc thư nháp: " + detail, calls;
      case Failure(detail) => return ReadDraftFailed(detail), calls;
      case Ok(draft) =>
        var message := draft.message.GetOr(Email(None, None));
        var payload := message.payload.GetOr(EmptyPayload);
        var headers := payload.headers.GetOr([]);
        var recipient := FindHeader(headers, "to", NoRecipient);
        var subject := FindHeader(headers, "subject", NoSubject);
        var bodyData := BodyData(payload);
        var content := EmptyContent;
        if bodyData != "" {
          match decode(bodyData) {
            case Err(e) => return ReadDraftFailed(e), calls;
            case Ok(text) => content := text;
          }
        }
        reply := "Người nhận: " + recipient + "\nTiêu đề: " + subject + "\n--- Nội dung ---\n" + content;
    }
  }
}
