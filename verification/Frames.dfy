/** One mTLS connection: response bodies, their two size limits, and the bounded request/response loop. */
module Frames {
  import opened Prelude
  import opened Uuids
  import Text

  const MAX_REQUEST_BYTES: nat := 20 * 1024
  const MAX_RESPONSE_BYTES: nat := 64 * 1024

  // Bodies are serialized bytes, one character a byte.

  datatype FrameRequest = FrameRequest(requestId: Uuid, tenantId: Uuid, bearerToken: string)

  /** The error codes this transport can answer with. */
  datatype Code = InvalidRequest | Unauthorized | Forbidden | TemporarilyUnavailable | ResponseTooLarge

  function CodeText(code: Code): string {
    match code
    case InvalidRequest => "invalid_request"
    case Unauthorized => "unauthorized"
    case Forbidden => "forbidden"
    case TemporarilyUnavailable => "temporarily_unavailable"
    case ResponseTooLarge => "response_too_large"
  }

  /** What authorisation and `list_cases` came to: an error code, or the serialized case list. */
  datatype Outcome = Denied(code: Code) | Listed(cases: string)

  /** `list_cases` serialized: the rows, newest first, as a JSON array. */
  function CaseList(rows: seq<string>): (list: string)
    ensures |list| >= 2
  {
    if rows == [] then "[]" else "[" + Text.Join(rows, ',') + "]"
  }

  /** Every response starts with the request id it answers. */
  function Head(id: Uuid): string {
    "{\"request_id\":\"" + Print(id) + "\""
  }

  /** `encode_failure`. */
  function FailureBody(id: Uuid, code: Code): string {
    Head(id) + ",\"status\":\"error\",\"error\":\"" + CodeText(code) + "\"}"
  }

  function OkBody(id: Uuid, cases: string): string {
    Head(id) + ",\"status\":\"ok\",\"payload\":{\"cases\":" + cases + ",\"mode\":\"stateful_mtls_tcp\"}}"
  }

  // ---------------------------------------------------------------- the client's side

  /** What a client reads out of a response: the id it answers, and the cases or the error code. */
  datatype Reading = Success(id: string, cases: string) | Refusal(id: string, error: string) | Unreadable

  predicate EndsWith(s: string, tail: string) {
    |tail| <= |s| && s[|s| - |tail|..] == tail
  }

  /** The text between `front` and `back`, if it is there. */
  function Between(s: string, front: string, back: string): Option<string> {
    if |front| + |back| <= |s| && front <= s && EndsWith(s, back) then Some(s[|front|..|s| - |back|]) else None
  }

  function ReadResponse(body: string): Reading {
    if |body| < 52 || !("{\"request_id\":\"" <= body) || body[51] != '\"' then Unreadable
    else
      var id, rest := body[15..51], body[52..];
      match Between(rest, ",\"status\":\"ok\",\"payload\":{\"cases\":", ",\"mode\":\"stateful_mtls_tcp\"}}")
      case Some(cases) => Success(id, cases)
      case None =>
        match Between(rest, ",\"status\":\"error\",\"error\":\"", "\"}")
        case Some(error) => Refusal(id, error)
        case None => Unreadable
  }

  function ReadCode(text: string): Option<Code> {
    match text
    case "invalid_request" => Some(InvalidRequest)
    case "unauthorized" => Some(Unauthorized)
    case "forbidden" => Some(Forbidden)
    case "temporarily_unavailable" => Some(TemporarilyUnavailable)
    case "response_too_large" => Some(ResponseTooLarge)
    case _ => None
  }

  lemma CodeRoundTrip(code: Code)
    ensures ReadCode(CodeText(code)) == Some(code)
  {
  }

  lemma BetweenFound(front: string, text: string, back: string)
    ensures Between(front + text + back, front, back) == Some(text)
  {
    var s := front + text + back;
    assert s[|s| - |back|..] == back && s[..|front|] == front && s[|front|..|s| - |back|] == text;
  }

  lemma HeadParts(id: Uuid, rest: string)
    ensures var body := Head(id) + rest;
            && |body| == 52 + |rest| && "{\"request_id\":\"" <= body
            && body[15..51] == Print(id) && body[51] == '\"' && body[52..] == rest
  {
    hide Print;
    assert |"{\"request_id\":\""| == 15;
    assert Head(id)[15..51] == Print(id);
  }

  lemma OkReads(id: Uuid, cases: string)
    ensures ReadResponse(OkBody(id, cases)) == Success(Print(id), cases)
  {
    hide Head, Print, Between;
    var rest := ",\"status\":\"ok\",\"payload\":{\"cases\":" + cases + ",\"mode\":\"stateful_mtls_tcp\"}}";
    assert OkBody(id, cases) == Head(id) + rest;
    HeadParts(id, rest);
    BetweenFound(",\"status\":\"ok\",\"payload\":{\"cases\":", cases, ",\"mode\":\"stateful_mtls_tcp\"}}");
  }

  lemma FailureReads(id: Uuid, code: Code)
    ensures ReadResponse(FailureBody(id, code)) == Refusal(Print(id), CodeText(code))
  {
    hide Head, Print, CodeText, Between;
    var rest := ",\"status\":\"error\",\"error\":\"" + CodeText(code) + "\"}";
    assert FailureBody(id, code) == Head(id) + rest;
    HeadParts(id, rest);
    BetweenFound(",\"status\":\"error\",\"error\":\"", CodeText(code), "\"}");
    NotOkText(CodeText(code) + "\"}");
    assert rest == ",\"status\":\"error\",\"error\":\"" + (CodeText(code) + "\"}");
  }

  lemma NotOkText(more: string)
    ensures Between(",\"status\":\"error\",\"error\":\"" + more,
                    ",\"status\":\"ok\",\"payload\":{\"cases\":", ",\"mode\":\"stateful_mtls_tcp\"}}") == None
  {
    assert (",\"status\":\"error\",\"error\":\"" + more)[11] == 'e';
    assert ",\"status\":\"ok\",\"payload\":{\"cases\":"[11] == 'o';
  }

  /** A client reads back from every response the request id, and the cases or the error code. */
  lemma ResponsesRead(id: Uuid, cases: string, code: Code)
    ensures ReadResponse(OkBody(id, cases)) == Success(Print(id), cases)
    ensures ReadResponse(FailureBody(id, code)).Refusal?
    ensures ReadResponse(FailureBody(id, code)).id == Print(id)
    ensures ReadCode(ReadResponse(FailureBody(id, code)).error) == Some(code)
  {
    hide ReadResponse, OkBody, FailureBody, ReadCode;
    OkReads(id, cases);
    FailureReads(id, code);
    CodeRoundTrip(code);
  }

  // ---------------------------------------------------------------- execute

  /** The tail of `execute`: an oversized success becomes a small failure. */
  function ListedBody(id: Uuid, cases: string): string {
    if |OkBody(id, cases)| <= MAX_RESPONSE_BYTES then OkBody(id, cases) else FailureBody(id, ResponseTooLarge)
  }

  /** The request id a response carries; an undecodable frame has none. */
  function IdOf(request: Option<FrameRequest>): Uuid {
    match request
    case None => NIL
    case Some(r) => r.requestId
  }

  /** `execute`. */
  function Execute(request: Option<FrameRequest>, outcome: Outcome): string {
    match request
    case None => FailureBody(NIL, InvalidRequest)
    case Some(r) =>
      match outcome
      case Denied(code) => FailureBody(r.requestId, code)
      case Listed(cases) => ListedBody(r.requestId, cases)
  }

  /** The one codec limits both directions: a longer frame is an error when sending too. */
  predicate Sendable(body: string) {
    |body| <= MAX_REQUEST_BYTES
  }

  const OK_OVERHEAD: nat := 115
  const FAILURE_OVERHEAD: nat := 81

  lemma BodySizes(id: Uuid, cases: string, code: Code)
    ensures |OkBody(id, cases)| == OK_OVERHEAD + |cases|
    ensures |FailureBody(id, code)| == FAILURE_OVERHEAD + |CodeText(code)| <= 128
  {
    assert |Head(id)| == 52;
    assert |",\"status\":\"ok\",\"payload\":{\"cases\":"| == 34;
    assert |",\"mode\":\"stateful_mtls_tcp\"}}"| == 29;
    assert |",\"status\":\"error\",\"error\":\""| == 27;
    assert |"\"}"| == 2;
  }

  /** `execute` always gives a non-empty body within 64 KiB, so the later length check never fires. */
  lemma ExecuteBounded(request: Option<FrameRequest>, outcome: Outcome)
    ensures 0 < |Execute(request, outcome)| <= 65536
  {
    hide FailureBody, OkBody;
    BodySizes(NIL, "", InvalidRequest);
    if request.Some? {
      var id := request.value.requestId;
      match outcome
      case Denied(code) => BodySizes(id, "", code);
      case Listed(cases) => BodySizes(id, cases, ResponseTooLarge);
    }
  }

  /**
    Which responses can be written: every failure, and a case list exactly when it is small enough for the
    codec or so large that it was replaced by a failure. Lists in between end the connection.
   */
  lemma SendableIff(request: Option<FrameRequest>, outcome: Outcome)
    ensures Sendable(Execute(request, outcome)) <==>
            !(request.Some? && outcome.Listed? &&
              20365 < |outcome.cases| <= 65421)
  {
    hide FailureBody, OkBody;
    BodySizes(NIL, "", InvalidRequest);
    if request.Some? {
      var id := request.value.requestId;
      match outcome
      case Denied(code) => BodySizes(id, "", code);
      case Listed(cases) => BodySizes(id, cases, ResponseTooLarge);
    }
  }

  /** The longest case lists that can be written, and the longest that are not replaced by a failure. */
  const MAX_SENT_LIST: nat := MAX_REQUEST_BYTES - OK_OVERHEAD
  const MAX_KEPT_LIST: nat := MAX_RESPONSE_BYTES - OK_OVERHEAD

  /** Any one row below this leaves no way around the lists in between. */
  const MAX_ROW: nat := MAX_KEPT_LIST - MAX_SENT_LIST - 1

  /** A case is put in front of the list that was there before, behind the bracket. */
  lemma ListCons(row: string, rows: seq<string>)
    ensures CaseList([]) == "[]"
    ensures CaseList([row] + rows) == if rows == [] then "[" + row + "]" else "[" + row + "," + CaseList(rows)[1..]
  {
    if rows == [] {
      assert [row] + rows == [row];
      assert CaseList([row]) == "[" + row + "]";
    } else {
      hide Text.Join;
      Text.JoinCons(row, rows, ',');
      var tail := Text.Join(rows, ',');
      assert ("[" + tail + "]")[1..] == tail + "]";
      assert "[" + (row + [','] + tail) + "]" == "[" + row + "," + (tail + "]");
    }
  }

  lemma ListGrows(rows: seq<string>)
    requires rows != []
    ensures |CaseList(rows)| <= |CaseList(rows[1..])| + |rows[0]| + 1
  {
    hide CaseList;
    ListCons(rows[0], rows[1..]);
    assert rows == [rows[0]] + rows[1..];
  }

  /** A list that grows case by case past the first limit is at some time between the two. */
  lemma {:induction false} PassesBetween(rows: seq<string>) returns (n: nat)
    requires forall row | row in rows :: |row| <= MAX_ROW
    requires |CaseList(rows)| > MAX_SENT_LIST
    ensures n < |rows| && MAX_SENT_LIST < |CaseList(rows[n..])| <= MAX_KEPT_LIST
  {
    hide CaseList;
    EmptyList();
    if |CaseList(rows)| <= MAX_KEPT_LIST {
      n := 0;
      assert rows[0..] == rows;
    } else {
      ListGrows(rows);
      var later := PassesBetween(rows[1..]);
      n := later + 1;
      assert rows[1..][later..] == rows[n..];
    }
  }

  lemma EmptyList()
    ensures |CaseList([])| == 2
  {
  }

  /**
    The intended follow-on fails for every tenant that grows: whatever its cases, if none is longer than
    45055 bytes and the list outgrows what can be written, then when only the oldest of them existed there was a
    list that `execute` answers with "ok" and the codec refuses.
   */
  lemma AcceptedButUnsendable(r: FrameRequest, rows: seq<string>)
    requires forall row | row in rows :: |row| <= 45055
    requires |CaseList(rows)| > 20365
    ensures exists n: nat | n < |rows| ::
              var cases := CaseList(rows[n..]);
              Execute(Some(r), Listed(cases)) == OkBody(r.requestId, cases)
              && !Sendable(Execute(Some(r), Listed(cases)))
  {
    hide FailureBody, OkBody, CaseList;
    var n := PassesBetween(rows);
    BodySizes(r.requestId, CaseList(rows[n..]), ResponseTooLarge);
    assert Execute(Some(r), Listed(CaseList(rows[n..]))) == OkBody(r.requestId, CaseList(rows[n..]));
  }

  /** Every response carries the id of the request it answers, and the nil id if there was none to read. */
  lemma ExecuteCarriesId(request: Option<FrameRequest>, outcome: Outcome)
    ensures |Execute(request, outcome)| >= 52
    ensures Execute(request, outcome)[15..51] == Print(IdOf(request))
  {
    hide Head, Print, CodeText;
    var id, body := IdOf(request), Execute(request, outcome);
    assert Head(id) <= body && body == Head(id) + body[|Head(id)|..];
    HeadParts(id, body[|Head(id)|..]);
  }

  /** Responses to different requests differ. */
  lemma ExecuteTellsApart(a: FrameRequest, x: Outcome, b: FrameRequest, y: Outcome)
    requires Execute(Some(a), x) == Execute(Some(b), y)
    ensures a.requestId == b.requestId
  {
    hide Execute;
    ExecuteCarriesId(Some(a), x);
    ExecuteCarriesId(Some(b), y);
    PrintInjective(a.requestId, b.requestId);
  }

  // ---------------------------------------------------------------- the loop

  /** What the connection meets in one turn. */
  datatype Turn =
    | Frame(request: Option<FrameRequest>, outcome: Outcome, sendFails: bool)
    | EndOfStream
    | Broken  // idle timeout, oversized or unreadable frame

  datatype Ending = Done | Failed

  predicate Written(t: Turn) {
    t.Frame? && !t.sendFails && Sendable(Execute(t.request, t.outcome))
  }

  /** A peer that says no more has closed its stream. */
  function TurnAt(turns: seq<Turn>, k: nat): Turn {
    if k < |turns| then turns[k] else EndOfStream
  }

  /**
    `serve_connection`: at most `budget` requests, each answered before the next is read. Turn k's response is
    written k-th, and the loop stops at the first turn whose response cannot be written.
   */
  method ServeConnection(budget: nat, turns: seq<Turn>)
    returns (written: seq<string>, framesRead: nat, ending: Ending)
    ensures |written| <= framesRead <= |written| + 1 && framesRead <= budget
    ensures forall k | 0 <= k < |written| ::
              Written(TurnAt(turns, k)) && written[k] == Execute(TurnAt(turns, k).request, TurnAt(turns, k).outcome)
    ensures |written| < budget ==> !Written(TurnAt(turns, |written|))
    ensures framesRead == |written| + 1 <==> |written| < budget && TurnAt(turns, |written|).Frame?
    ensures ending.Done? <==> |written| == budget || TurnAt(turns, |written|).EndOfStream?
  {
    hide Execute;
    written, framesRead, ending := [], 0, Done;
    for k := 0 to budget
      invariant framesRead == k == |written|
      invariant ending.Done?
      invariant forall j | 0 <= j < k ::
                  Written(TurnAt(turns, j)) && written[j] == Execute(TurnAt(turns, j).request, TurnAt(turns, j).outcome)
    {
      match TurnAt(turns, k) {
        case EndOfStream => return;
        case Broken =>
          ending := Failed;
          return;
        case Frame(request, outcome, sendFails) =>
          framesRead := framesRead + 1;
          var response := Execute(request, outcome);
          ExecuteBounded(request, outcome);
          if |response| == 0 || |response| > MAX_RESPONSE_BYTES {
            assert false;
          }
          if sendFails || |response| > MAX_REQUEST_BYTES {
            ending := Failed;
            return;
          }
          written := written + [response];
      }
    }
  }
}
