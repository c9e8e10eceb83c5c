/**
  The bearer path: a token taken from a frame is put into an Authorization header (section 2.1 of RFC 6750),
  read back from it, checked by the local guard and by protected introspection, and only then names a subject.
 */
module Auth {
  import opened Prelude
  import Text

  const MAX_TOKEN_BYTES: nat := 16 * 1024
  const SCHEME: string := "Bearer "

  datatype AuthFailure = Unauthorized | Forbidden | Degraded

  datatype Identity = Identity(sharedUserId: string, sessionId: Option<string>, sandboxed: bool)

  datatype GuardOutcome =
    | Authenticated(identity: Identity, sharedAuth: bool)
    | Anonymous
    | Unauthenticated
    | GuardDegraded

  datatype Introspection = Introspection(
    active: bool, sub: Option<string>, iss: Option<string>, aud: Option<string>, sid: Option<string>,
    exp: Option<nat>, nbf: Option<nat>, scopes: set<string>)

  datatype Subject = Subject(sharedUserId: string, sessionId: string)

  // ---------------------------------------------------------------- the header

  /** The checks `authorize_token` makes before it builds a header. */
  predicate Admitted(token: string) {
    && token != ""
    && Text.ByteLength(token) <= MAX_TOKEN_BYTES
    && (forall c | c in token :: !Text.IsWhitespace(c) && !Text.IsControl(c))
  }

  /** `HeaderValue::from_str(&format!("Bearer {token}"))`. */
  function AuthorizationHeader(token: string): Option<string> {
    if Text.HeaderValueAccepts(SCHEME + token) then Some(SCHEME + token) else None
  }

  /** `bearer`: readable text, the exact scheme, trimmed, not empty. */
  function Bearer(header: string): Option<string> {
    if !Text.HeaderTextReadable(header) || !(SCHEME <= header) then None
    else
      var token := Text.Trim(header[|SCHEME|..]);
      if token == "" then None else Some(token)
  }

  predicate Ascii(s: string) {
    forall c | c in s :: c as int < 128
  }

  lemma AdmittedHeader(token: string)
    requires Admitted(token)
    ensures AuthorizationHeader(token) == Some(SCHEME + token)
  {
    forall c | c in SCHEME + token ensures c == '\t' || (c as int >= 32 && c as int != 127) {
      assert c in SCHEME || c in token;
    }
  }

  /**
    An admitted token always makes a header, and reading the header back gives exactly that token when the
    token is ASCII and nothing at all otherwise: never a changed token.
   */
  lemma BearerRoundTrip(token: string)
    requires Admitted(token)
    ensures AuthorizationHeader(token).Some?
    ensures Bearer(AuthorizationHeader(token).value) == if Ascii(token) then Some(token) else None
  {
    AdmittedHeader(token);
    var header := SCHEME + token;
    assert header[|SCHEME|..] == token;
    assert token[0] in token && token[|token| - 1] in token;
    Text.TrimIdempotent(token);
    if Ascii(token) {
      forall c | c in header ensures c == '\t' || 32 <= c as int < 127 {
        assert c in SCHEME || c in token;
      }
    } else {
      var c :| c in token && c as int >= 128;
      assert c in header;
    }
  }

  /** Which headers carry a token: readable ones with the exact scheme and more than blanks behind it. */
  lemma BearerReads(pre: string, token: string, post: string)
    requires Text.Blank(pre) && Text.Blank(post) && (token != "" ==> Text.Trimmed(token))
    ensures Bearer(SCHEME + pre + token + post) ==
            if token != "" && Text.HeaderTextReadable(pre + token + post) then Some(token) else None
  {
    hide Text.Trim, Text.IsWhitespace;
    var header, rest := SCHEME + pre + token + post, pre + token + post;
    assert header == SCHEME + rest && header[|SCHEME|..] == rest;
    assert Text.HeaderTextReadable(header) <==> Text.HeaderTextReadable(rest) by {
      assert Text.HeaderTextReadable(SCHEME);
      if Text.HeaderTextReadable(header) {
        forall c | c in rest ensures c == '\t' || 32 <= c as int < 127 {
          assert c in header;
        }
      }
    }
    if token == "" {
      assert rest == pre + post;
      Text.TrimBlank(rest);
    } else {
      Text.TrimPadded(pre, token, post);
    }
  }

  lemma OtherSchemesAreIgnored(header: string)
    requires !("Bearer " <= header)
    ensures Bearer(header) == None
  {
  }

  // ---------------------------------------------------------------- the session

  /** `validate_active_session`. */
  function ValidateActiveSession(
    identity: Identity, found: Introspection, issuer: string, audience: string,
    required: seq<string>, now: nat): Result<Subject, AuthFailure>
  {
    if identity.sessionId.None? || identity.sessionId.value == "" then Err(Unauthorized)
    else if || !found.active
            || found.sub != Some(identity.sharedUserId)
            || found.iss != Some(issuer)
            || found.aud != Some(audience)
            || found.sid != identity.sessionId
            || found.exp.None? || found.exp.value <= now
            || (found.nbf.Some? && found.nbf.value > now)
            || (exists scope | scope in required :: scope !in found.scopes)
    then Err(Unauthorized)
    else Ok(Subject(identity.sharedUserId, identity.sessionId.value))
  }

  /** Guard and introspection speak of the same live session, for this service and these scopes. */
  predicate Agrees(
    identity: Identity, found: Introspection, issuer: string, audience: string, required: seq<string>, now: nat)
  {
    && identity.sessionId.Some? && identity.sessionId.value != ""
    && found.active
    && found.sub == Some(identity.sharedUserId)
    && found.sid == identity.sessionId
    && found.iss == Some(issuer)
    && found.aud == Some(audience)
    && found.exp.Some? && now < found.exp.value
    && (found.nbf.Some? ==> found.nbf.value <= now)
    && (set scope | scope in required) <= found.scopes
  }

  /** The first part of `authenticate_with_scopes`: which guard outcomes go on to introspection. */
  function CheckGuard(outcome: GuardOutcome): Result<Identity, AuthFailure> {
    match outcome
    case Authenticated(identity, sharedAuth) =>
      if sharedAuth && !identity.sandboxed then Ok(identity) else Err(Forbidden)
    case Anonymous => Err(Unauthorized)
    case Unauthenticated => Err(Unauthorized)
    case GuardDegraded => Err(Degraded)
  }

  /** The service's own settings and the two outside authorities, as they answer at one moment. */
  datatype Authorities = Authorities(
    issuer: string, audience: string, now: nat,
    guard: string -> GuardOutcome,                  // by header text
    introspect: string -> Option<Introspection>)    // by bearer; None is an authority error

  /** `authenticate_with_scopes` on a header. */
  function Authenticate(a: Authorities, header: string, required: seq<string>): Result<Subject, AuthFailure> {
    match Bearer(header)
    case None => Err(Unauthorized)
    case Some(bearer) =>
      match CheckGuard(a.guard(header))
      case Err(failure) => Err(failure)
      case Ok(identity) =>
        match a.introspect(bearer)
        case None => Err(Degraded)
        case Some(found) => ValidateActiveSession(identity, found, a.issuer, a.audience, required, a.now)
  }

  /** `authorize_token` up to the subject. */
  function AuthorizeToken(a: Authorities, token: string, required: seq<string>): Result<Subject, AuthFailure> {
    if !Admitted(token) then Err(Unauthorized)
    else
      match AuthorizationHeader(token)
      case None => Err(Unauthorized)
      case Some(header) => Authenticate(a, header, required)
  }

  lemma ValidatedIffAgrees(
    identity: Identity, found: Introspection, issuer: string, audience: string,
    required: seq<string>, now: nat, subject: Subject)
    ensures ValidateActiveSession(identity, found, issuer, audience, required, now) == Ok(subject) <==>
            && Agrees(identity, found, issuer, audience, required, now)
            && subject == Subject(identity.sharedUserId, identity.sessionId.value)
  {
    var scopes := set scope | scope in required;
    assert (exists scope | scope in required :: scope !in found.scopes) <==> !(scopes <= found.scopes) by {
      if scope :| scope in required && scope !in found.scopes {
        assert scope in scopes;
      }
    }
  }

  /** Between 1 and 16384 visible ASCII characters. */
  predicate PlainToken(token: string) {
    1 <= |token| <= 16384 && forall c | c in token :: '!' <= c <= '~'
  }

  lemma {:induction false} AsciiLength(s: string)
    requires Ascii(s)
    ensures Text.ByteLength(s) == |s|
    decreases |s|
  {
    if s != "" {
      var init, last := s[..|s| - 1], s[|s| - 1];
      assert last in s && forall c | c in init :: c in s;
      AsciiLength(init);
    }
  }

  /** The tokens that survive the checks and the header are exactly the plain ones. */
  lemma PlainIff(token: string)
    ensures PlainToken(token) <==> Admitted(token) && Ascii(token)
  {
    if Ascii(token) {
      AsciiLength(token);
      assert forall c | c in token :: (!Text.IsWhitespace(c) && !Text.IsControl(c)) <==> '!' <= c <= '~';
    } else {
      assert !PlainToken(token);
    }
  }

  /** What both authorities must have said about `token` for `subject` to be named. */
  predicate Vouched(a: Authorities, token: string, required: seq<string>, subject: Subject) {
    && PlainToken(token)
    && a.guard(SCHEME + token).Authenticated?
    && a.guard(SCHEME + token).sharedAuth && !a.guard(SCHEME + token).identity.sandboxed
    && a.introspect(token).Some?
    && Agrees(a.guard(SCHEME + token).identity, a.introspect(token).value, a.issuer, a.audience, required, a.now)
    && subject == Subject(a.guard(SCHEME + token).identity.sharedUserId,
                          a.guard(SCHEME + token).identity.sessionId.value)
  }

  /** A subject is named if and only if guard and introspection agree about exactly the presented token. */
  lemma SubjectIffVouched(a: Authorities, token: string, required: seq<string>, subject: Subject)
    ensures AuthorizeToken(a, token, required) == Ok(subject) <==> Vouched(a, token, required, subject)
  {
    PlainIff(token);
    if Admitted(token) {
      BearerRoundTrip(token);
      AdmittedHeader(token);
      var outcome := a.guard(SCHEME + token);
      if outcome.Authenticated? && a.introspect(token).Some? {
        ValidatedIffAgrees(outcome.identity, a.introspect(token).value, a.issuer, a.audience, required, a.now, subject);
      }
    }
  }

  /** The other outcomes: which authority's answer makes a presented token forbidden, or the check degraded. */
  lemma FailureIff(a: Authorities, token: string, required: seq<string>)
    ensures AuthorizeToken(a, token, required) == Err(Forbidden) <==>
            && PlainToken(token)
            && a.guard(SCHEME + token).Authenticated?
            && !(a.guard(SCHEME + token).sharedAuth && !a.guard(SCHEME + token).identity.sandboxed)
    ensures AuthorizeToken(a, token, required) == Err(Degraded) <==>
            && PlainToken(token)
            && (|| a.guard(SCHEME + token).GuardDegraded?
                || (&& a.guard(SCHEME + token).Authenticated? && a.guard(SCHEME + token).sharedAuth
                    && !a.guard(SCHEME + token).identity.sandboxed && a.introspect(token).None?))
  {
    PlainIff(token);
    if Admitted(token) {
      BearerRoundTrip(token);
      AdmittedHeader(token);
    }
  }
}
