/** Where asynchronous status responses go: NATS subjects, message ids and the response body. */
module Routing {
  import opened Uuids
  import Text

  const RESPONSE_SUBJECT_PREFIX: string := "apme.web_api.inbox.status"
  const MESSAGE_ID_PREFIX: string := "apme-status-response-"
  const MAX_RESPONSE_BYTES: nat := 64 * 1024

  function ResponseSubject(id: Uuid): string {
    RESPONSE_SUBJECT_PREFIX + "." + Print(id)
  }

  function MessageId(id: Uuid): string {
    MESSAGE_ID_PREFIX + Print(id)
  }

  /** The serialized `StatusResponse`. */
  function ResponsePayload(id: Uuid): string {
    "{\"schema\":\"apme.async-status-response.v1\",\"operation_id\":\"" + Print(id)
    + "\",\"status\":\"ok\",\"service\":\"apme-api\",\"database_ready\":true}"
  }

  /** NATS subject matching on tokens: `*` stands for one non-empty token, `>` for one or more. */
  predicate TokensMatch(pattern: seq<string>, tokens: seq<string>)
    decreases |pattern|
  {
    if pattern == [] then tokens == []
    else if pattern[0] == ">" then tokens != []
    else
      && tokens != []
      && (if pattern[0] == "*" then tokens[0] != "" else pattern[0] == tokens[0])
      && TokensMatch(pattern[1..], tokens[1..])
  }

  predicate SubjectMatches(pattern: string, subject: string) {
    TokensMatch(Text.Split(pattern, '.'), Text.Split(subject, '.'))
  }

  lemma {:induction false} TokensMatchLast(prefix: seq<string>, token: string)
    requires token != ""
    ensures TokensMatch(prefix + ["*"], prefix + [token])
    decreases |prefix|
  {
    if prefix != [] {
      TokensMatchLast(prefix[1..], token);
      assert (prefix + ["*"])[1..] == prefix[1..] + ["*"];
      assert (prefix + [token])[1..] == prefix[1..] + [token];
    }
  }

  /** Every response subject is one that the demanded `prefix.*` subject matches. */
  lemma ResponseSubjectMatches(id: Uuid)
    ensures SubjectMatches(RESPONSE_SUBJECT_PREFIX + ".*", ResponseSubject(id))
  {
    PrintAlphabet(id);
    var prefix := Text.Split(RESPONSE_SUBJECT_PREFIX, '.');
    Text.SplitAppendField(RESPONSE_SUBJECT_PREFIX, Print(id), '.');
    Text.SplitAppendField(RESPONSE_SUBJECT_PREFIX, "*", '.');
    assert RESPONSE_SUBJECT_PREFIX + ".*" == RESPONSE_SUBJECT_PREFIX + ['.'] + "*";
    assert ResponseSubject(id) == RESPONSE_SUBJECT_PREFIX + ['.'] + Print(id);
    TokensMatchLast(prefix, Print(id));
  }

  /** Distinct operations never share a subject or a message id. */
  lemma RoutingInjective(a: Uuid, b: Uuid)
    ensures ResponseSubject(a) == ResponseSubject(b) ==> a == b
    ensures MessageId(a) == MessageId(b) ==> a == b
  {
    var n, m := |RESPONSE_SUBJECT_PREFIX + "."|, |MESSAGE_ID_PREFIX|;
    assert ResponseSubject(a)[n..] == Print(a) && ResponseSubject(b)[n..] == Print(b);
    assert MessageId(a)[m..] == Print(a) && MessageId(b)[m..] == Print(b);
    if ResponseSubject(a) == ResponseSubject(b) || MessageId(a) == MessageId(b) {
      PrintInjective(a, b);
    }
  }

  /** The response body on the wire, with the operation id in its place. */
  lemma PayloadText(id: Uuid)
    ensures |ResponsePayload(id)| == 153
    ensures ResponsePayload(id)[..58] == "{\"schema\":\"apme.async-status-response.v1\",\"operation_id\":\""
    ensures ResponsePayload(id)[58..94] == Print(id)
    ensures ResponsePayload(id)[94..] == "\",\"status\":\"ok\",\"service\":\"apme-api\",\"database_ready\":true}"
  {
    hide Print;
  }

  /** The response body always fits, so the size check of `handle` never fails. */
  lemma ResponseFits(id: Uuid)
    ensures 0 < |ResponsePayload(id)| <= MAX_RESPONSE_BYTES
  {
  }

  datatype Storage = File | Memory
  datatype Retention = Limits | Interest | WorkQueue
  datatype StreamInfo = StreamInfo(
    storage: Storage, retention: Retention, allowDirect: bool, subjects: seq<string>, duplicateWindow: nat)

  /** `validate_response_stream`. */
  predicate ValidResponseStream(info: StreamInfo) {
    && info.storage.File? && info.retention.Limits? && info.allowDirect
    && (RESPONSE_SUBJECT_PREFIX + ".*") in info.subjects
    && info.duplicateWindow != 0
  }

  /** A stream that passes validation owns the subject of every possible response. */
  lemma ValidStreamOwnsEveryResponse(info: StreamInfo, id: Uuid)
    requires ValidResponseStream(info)
    ensures exists pattern | pattern in info.subjects :: SubjectMatches(pattern, ResponseSubject(id))
  {
    ResponseSubjectMatches(id);
  }
}
