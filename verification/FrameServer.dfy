/**
  The mTLS server as an interleaving system: connections take and return permits, each connection answers one
  frame at a time, and between any two awaits of a frame the outside world (sessions, memberships, cases) may
  change. `worlds` is the history of the outside world; an index into it is a moment.
 */
module FrameServer {
  import opened Prelude
  import opened Uuids
  import opened Frames
  import Auth

  const CASES_READ_SCOPE: string := "apme:cases:read"

  datatype Membership = Member | NotMember | Unknown  // Unknown: the query failed

  datatype World = World(
    authorities: Auth.Authorities,
    membership: (string, Uuid) -> Membership,   // `tenant_context`
    listing: Uuid -> Option<seq<string>>)       // `list_cases` of one tenant, each case serialized

  datatype Config = Config(maxConnections: nat, budget: nat)

  datatype Phase =
    | Handshaking
    | Waiting
    | Checking(request: FrameRequest)
    | Guarded(request: FrameRequest, identity: Auth.Identity, guardAt: nat)
    | Verified(request: FrameRequest, identity: Auth.Identity, subject: Auth.Subject, guardAt: nat, verifiedAt: nat)
    | Enrolled(request: FrameRequest, identity: Auth.Identity, subject: Auth.Subject,
               guardAt: nat, verifiedAt: nat, memberAt: nat)

  /** Who was found, and when each check of the frame was made. */
  datatype Proof = Proof(
    identity: Auth.Identity, subject: Auth.Subject, guardAt: nat, verifiedAt: nat, memberAt: nat, listedAt: nat)

  datatype FrameRead = FrameRead(request: Option<FrameRequest>, at: nat)

  /** A response: its body, the outcome behind it, the proof that a listing was allowed, and when it was made. */
  datatype Answer = Answer(body: string, outcome: Outcome, proof: Option<Proof>, at: nat)

  /** `unsent` is the response that the codec refused, which ended the connection. */
  datatype Connection = Connection(
    phase: Phase, frames: seq<FrameRead>, answers: seq<Answer>, unsent: Option<Answer>)

  datatype Server = Server(
    free: nat, accepted: nat, live: map<nat, Connection>, closed: map<nat, Connection>, worlds: seq<World>)

  datatype Action =
    | Accept(k: nat)
    | HandshakeDone(k: nat)
    | Read(k: nat, request: Option<FrameRequest>)
    | Guard(k: nat)
    | Verify(k: nat)
    | Enrol(k: nat)
    | List(k: nat)
    | Drop(k: nat)  // TLS failure, timeout, end of stream, I/O error or panic
    | Change(world: World)

  function Init(c: Config, world: World): Server {
    Server(c.maxConnections, 0, map[], map[], [world])
  }

  function Now(s: Server): World
    requires s.worlds != []
  {
    s.worlds[|s.worlds| - 1]
  }

  predicate Enabled(c: Config, s: Server, a: Action) {
    s.worlds != [] &&
    match a
    case Accept(k) => k !in s.live && k !in s.closed
    case HandshakeDone(k) => k in s.live && s.live[k].phase.Handshaking?
    case Read(k, _) => k in s.live && s.live[k].phase.Waiting? && |s.live[k].frames| < c.budget
    case Guard(k) => k in s.live && s.live[k].phase.Checking?
    case Verify(k) => k in s.live && s.live[k].phase.Guarded?
    case Enrol(k) => k in s.live && s.live[k].phase.Verified?
    case List(k) => k in s.live && s.live[k].phase.Enrolled?
    case Drop(k) => k in s.live
    case Change(_) => true
  }

  /** The connection ends and its permit is returned. */
  function Close(s: Server, k: nat, conn: Connection): Server
    requires k in s.live
  {
    s.(free := s.free + 1, live := s.live - {k}, closed := s.closed[k := conn])
  }

  /** Write a response; one that the codec refuses ends the connection, and so does the last of the budget. */
  function Respond(c: Config, s: Server, k: nat, conn: Connection, answer: Answer): Server
    requires k in s.live
  {
    if !Sendable(answer.body) then Close(s, k, conn.(unsent := Some(answer)))
    else
      var done := conn.(phase := Waiting, answers := conn.answers + [answer]);
      if |done.frames| >= c.budget then Close(s, k, done) else s.(live := s.live[k := done])
  }

  /** The response that `execute` makes now. */
  function Made(s: Server, request: Option<FrameRequest>, outcome: Outcome, proof: Option<Proof>): Answer
    requires s.worlds != []
  {
    Answer(Execute(request, outcome), outcome, proof, |s.worlds| - 1)
  }

  function Refuse(c: Config, s: Server, k: nat, conn: Connection, request: Option<FrameRequest>, code: Code): Server
    requires k in s.live && s.worlds != []
  {
    Respond(c, s, k, conn, Made(s, request, Denied(code), None))
  }

  function FailureCode(failure: Auth.AuthFailure): Code {
    match failure
    case Unauthorized => Code.Unauthorized
    case Forbidden => Code.Forbidden
    case Degraded => TemporarilyUnavailable
  }

  /** The bearer that survives the header, if any. */
  function BearerOf(token: string): Option<string> {
    if !Auth.Admitted(token) then None
    else
      match Auth.AuthorizationHeader(token)
      case None => None
      case Some(header) => Auth.Bearer(header)
  }

  function SetPhase(s: Server, k: nat, phase: Phase): Server
    requires k in s.live
  {
    s.(live := s.live[k := s.live[k].(phase := phase)])
  }

  function ApplyRead(c: Config, s: Server, k: nat, request: Option<FrameRequest>): Server
    requires k in s.live && s.worlds != []
  {
    var conn := s.live[k].(frames := s.live[k].frames + [FrameRead(request, |s.worlds| - 1)]);
    match request
    case None => Refuse(c, s, k, conn, None, InvalidRequest)
    case Some(r) =>
      if BearerOf(r.bearerToken).None? then Refuse(c, s, k, conn, request, Code.Unauthorized)
      else s.(live := s.live[k := conn.(phase := Checking(r))])
  }

  function ApplyGuard(c: Config, s: Server, k: nat, r: FrameRequest): Server
    requires k in s.live && s.worlds != []
  {
    match Auth.CheckGuard(Now(s).authorities.guard(Auth.SCHEME + r.bearerToken))
    case Err(failure) => Refuse(c, s, k, s.live[k], Some(r), FailureCode(failure))
    case Ok(identity) => SetPhase(s, k, Guarded(r, identity, |s.worlds| - 1))
  }

  function ApplyVerify(c: Config, s: Server, k: nat, r: FrameRequest, identity: Auth.Identity, guardAt: nat): Server
    requires k in s.live && s.worlds != []
  {
    var a := Now(s).authorities;
    match BearerOf(r.bearerToken)
    case None => Refuse(c, s, k, s.live[k], Some(r), Code.Unauthorized)
    case Some(bearer) =>
      match a.introspect(bearer)
      case None => Refuse(c, s, k, s.live[k], Some(r), TemporarilyUnavailable)
      case Some(found) =>
        match Auth.ValidateActiveSession(identity, found, a.issuer, a.audience, [CASES_READ_SCOPE], a.now)
        case Err(failure) => Refuse(c, s, k, s.live[k], Some(r), FailureCode(failure))
        case Ok(subject) => SetPhase(s, k, Verified(r, identity, subject, guardAt, |s.worlds| - 1))
  }

  function ApplyEnrol(c: Config, s: Server, k: nat, p: Phase): Server
    requires k in s.live && s.worlds != [] && p.Verified?
  {
    match Now(s).membership(p.subject.sharedUserId, p.request.tenantId)
    case NotMember => Refuse(c, s, k, s.live[k], Some(p.request), Code.Forbidden)
    case Unknown => Refuse(c, s, k, s.live[k], Some(p.request), TemporarilyUnavailable)
    case Member =>
      SetPhase(s, k, Enrolled(p.request, p.identity, p.subject, p.guardAt, p.verifiedAt, |s.worlds| - 1))
  }

  function ApplyList(c: Config, s: Server, k: nat, p: Phase): Server
    requires k in s.live && s.worlds != [] && p.Enrolled?
  {
    match Now(s).listing(p.request.tenantId)
    case None => Refuse(c, s, k, s.live[k], Some(p.request), TemporarilyUnavailable)
    case Some(rows) =>
      var proof := Proof(p.identity, p.subject, p.guardAt, p.verifiedAt, p.memberAt, |s.worlds| - 1);
      Respond(c, s, k, s.live[k], Made(s, Some(p.request), Listed(CaseList(rows)), Some(proof)))
  }

  function Apply(c: Config, s: Server, a: Action): Server
    requires Enabled(c, s, a)
  {
    match a
    case Accept(k) =>
      if s.free == 0 then s
      else
        s.(free := s.free - 1, accepted := s.accepted + 1,
           live := s.live[k := Connection(Handshaking, [], [], None)])
    case HandshakeDone(k) => SetPhase(s, k, Waiting)
    case Read(k, request) => ApplyRead(c, s, k, request)
    case Guard(k) => ApplyGuard(c, s, k, s.live[k].phase.request)
    case Verify(k) =>
      ApplyVerify(c, s, k, s.live[k].phase.request, s.live[k].phase.identity, s.live[k].phase.guardAt)
    case Enrol(k) => ApplyEnrol(c, s, k, s.live[k].phase)
    case List(k) => ApplyList(c, s, k, s.live[k].phase)
    case Drop(k) => Close(s, k, s.live[k])
    case Change(world) => s.(worlds := s.worlds + [world])
  }

  function Next(c: Config, s: Server, a: Action): Server {
    if Enabled(c, s, a) then Apply(c, s, a) else s
  }

  function After(c: Config, world: World, actions: seq<Action>): Server
    decreases |actions|
  {
    if actions == [] then Init(c, world)
    else Next(c, After(c, world, actions[..|actions| - 1]), actions[|actions| - 1])
  }

  // ---------------------------------------------------------------- the invariant

  ghost predicate PermitsOk(c: Config, s: Server) {
    && s.free + |s.live| == c.maxConnections
    && s.accepted == |s.live| + |s.closed|
    && s.live.Keys !! s.closed.Keys
  }

  predicate GuardedAt(worlds: seq<World>, r: FrameRequest, identity: Auth.Identity, at: nat) {
    && at < |worlds|
    && Auth.CheckGuard(worlds[at].authorities.guard(Auth.SCHEME + r.bearerToken)) == Ok(identity)
  }

  /** At that moment introspection of exactly this token agreed with the guard. */
  predicate VerifiedAt(worlds: seq<World>, r: FrameRequest, identity: Auth.Identity, subject: Auth.Subject, at: nat) {
    && at < |worlds|
    && var a := worlds[at].authorities;
       && a.introspect(r.bearerToken).Some?
       && Auth.Agrees(identity, a.introspect(r.bearerToken).value, a.issuer, a.audience, [CASES_READ_SCOPE], a.now)
       && subject == Auth.Subject(identity.sharedUserId, identity.sessionId.value)
  }

  predicate MemberAt(worlds: seq<World>, r: FrameRequest, subject: Auth.Subject, at: nat) {
    at < |worlds| && worlds[at].membership(subject.sharedUserId, r.tenantId).Member?
  }

  /** All checks passed, in order, none of them before the frame was read. */
  predicate ProofOk(worlds: seq<World>, r: FrameRequest, readAt: nat, p: Proof) {
    && readAt <= p.guardAt <= p.verifiedAt <= p.memberAt <= p.listedAt < |worlds|
    && GuardedAt(worlds, r, p.identity, p.guardAt)
    && VerifiedAt(worlds, r, p.identity, p.subject, p.verifiedAt)
    && MemberAt(worlds, r, p.subject, p.memberAt)
  }

  /** Some guard check since the frame was read, no later than `t`, gave this identity. */
  ghost predicate GuardedBy(worlds: seq<World>, r: FrameRequest, readAt: nat, identity: Auth.Identity, t: nat) {
    exists g: nat :: readAt <= g <= t && GuardedAt(worlds, r, identity, g)
  }

  /** Some introspection since the frame was read, no later than `t`, gave this subject. */
  ghost predicate VerifiedBy(worlds: seq<World>, r: FrameRequest, readAt: nat, subject: Auth.Subject, t: nat) {
    exists identity, v: nat :: readAt <= v <= t && VerifiedAt(worlds, r, identity, subject, v)
  }

  predicate SessionDisagrees(w: World, r: FrameRequest, identity: Auth.Identity) {
    var a := w.authorities;
    && a.introspect(r.bearerToken).Some?
    && !Auth.Agrees(identity, a.introspect(r.bearerToken).value, a.issuer, a.audience, [CASES_READ_SCOPE], a.now)
  }

  ghost predicate MembershipWas(worlds: seq<World>, r: FrameRequest, readAt: nat, t: nat, m: Membership)
    requires t < |worlds|
  {
    exists subject: Auth.Subject ::
      VerifiedBy(worlds, r, readAt, subject, t) && worlds[t].membership(subject.sharedUserId, r.tenantId) == m
  }

  /** The fact about moment `t` that a refusal code reports. */
  ghost predicate Reason(worlds: seq<World>, r: FrameRequest, readAt: nat, t: nat, code: Code)
    requires t < |worlds|
  {
    var guard := Auth.CheckGuard(worlds[t].authorities.guard(Auth.SCHEME + r.bearerToken));
    match code
    case InvalidRequest => false
    case Unauthorized =>
      || !Auth.PlainToken(r.bearerToken)
      || guard == Err(Auth.Unauthorized)
      || exists identity :: GuardedBy(worlds, r, readAt, identity, t) && SessionDisagrees(worlds[t], r, identity)
    case Forbidden => guard == Err(Auth.Forbidden) || MembershipWas(worlds, r, readAt, t, NotMember)
    case TemporarilyUnavailable =>
      || guard == Err(Auth.Degraded)
      || worlds[t].authorities.introspect(r.bearerToken).None?
      || MembershipWas(worlds, r, readAt, t, Unknown)
      || worlds[t].listing(r.tenantId).None?
    case ResponseTooLarge =>
      && worlds[t].listing(r.tenantId).Some?
      && |OkBody(r.requestId, CaseList(worlds[t].listing(r.tenantId).value))| > MAX_RESPONSE_BYTES
  }

  /** A refusal reports something that is so at the moment `at` when the frame is answered. */
  ghost predicate Justified(worlds: seq<World>, f: FrameRead, at: nat, code: Code) {
    && f.at <= at < |worlds|
    && if f.request.None? then code.InvalidRequest? else Reason(worlds, f.request.value, f.at, at, code)
  }

  /** The listing of the request's tenant, read now, after all checks of this frame have passed. */
  predicate ListedOk(worlds: seq<World>, f: FrameRead, a: Answer) {
    && f.request.Some? && a.proof.Some?
    && ProofOk(worlds, f.request.value, f.at, a.proof.value) && a.at == a.proof.value.listedAt
    && var rows := worlds[a.at].listing(f.request.value.tenantId);
       rows.Some? && a.outcome == Listed(CaseList(rows.value))
  }

  /** A response is `execute` of its own frame, on an outcome that the world gave since the frame was read. */
  ghost predicate AnswerMade(worlds: seq<World>, f: FrameRead, a: Answer) {
    && f.at <= a.at < |worlds|
    && a.body == Execute(f.request, a.outcome)
    && match a.outcome
       case Denied(code) => a.proof.None? && Justified(worlds, f, a.at, code)
       case Listed(_) => ListedOk(worlds, f, a)
  }

  ghost predicate AnswerOk(worlds: seq<World>, f: FrameRead, a: Answer) {
    Sendable(a.body) && AnswerMade(worlds, f, a)
  }

  /** The response that ended a connection was made like any other and is too long to send. */
  ghost predicate UnsentOk(worlds: seq<World>, conn: Connection) {
    conn.unsent.Some? ==>
      && |conn.frames| == |conn.answers| + 1
      && !Sendable(conn.unsent.value.body)
      && AnswerMade(worlds, conn.frames[|conn.answers|], conn.unsent.value)
  }

  predicate InFrame(p: Phase) {
    !p.Handshaking? && !p.Waiting?
  }

  predicate PhaseOk(worlds: seq<World>, p: Phase, readAt: nat) {
    match p
    case Handshaking => true
    case Waiting => true
    case Checking(r) => BearerOf(r.bearerToken) == Some(r.bearerToken)
    case Guarded(r, identity, guardAt) =>
      && BearerOf(r.bearerToken) == Some(r.bearerToken)
      && readAt <= guardAt && GuardedAt(worlds, r, identity, guardAt)
    case Verified(r, identity, subject, guardAt, verifiedAt) =>
      && readAt <= guardAt <= verifiedAt && GuardedAt(worlds, r, identity, guardAt)
      && VerifiedAt(worlds, r, identity, subject, verifiedAt)
    case Enrolled(r, identity, subject, guardAt, verifiedAt, memberAt) =>
      && readAt <= guardAt <= verifiedAt <= memberAt && GuardedAt(worlds, r, identity, guardAt)
      && VerifiedAt(worlds, r, identity, subject, verifiedAt) && MemberAt(worlds, r, subject, memberAt)
  }

  /** The frames of a connection, in order of reading, within the budget. */
  ghost predicate FramesOk(c: Config, worlds: seq<World>, frames: seq<FrameRead>) {
    && |frames| <= c.budget
    && (forall j | 0 <= j < |frames| :: frames[j].at < |worlds|)
    && (forall i, j | 0 <= i < j < |frames| :: frames[i].at <= frames[j].at)
  }

  ghost predicate AnswersOk(worlds: seq<World>, frames: seq<FrameRead>, answers: seq<Answer>) {
    && |answers| <= |frames| <= |answers| + 1
    && (forall j | 0 <= j < |answers| :: AnswerOk(worlds, frames[j], answers[j]))
    && (forall j | 0 <= j < |answers| && j + 1 < |frames| :: answers[j].at <= frames[j + 1].at)
  }

  ghost predicate ClosedOk(c: Config, worlds: seq<World>, conn: Connection) {
    FramesOk(c, worlds, conn.frames) && AnswersOk(worlds, conn.frames, conn.answers) && UnsentOk(worlds, conn)
  }

  ghost predicate LiveOk(c: Config, worlds: seq<World>, conn: Connection) {
    && ClosedOk(c, worlds, conn) && conn.unsent.None?
    && (InFrame(conn.phase) <==> |conn.frames| == |conn.answers| + 1)
    && (!InFrame(conn.phase) && conn.frames != [] ==> |conn.frames| < c.budget)
    && (InFrame(conn.phase) ==>
          && conn.frames[|conn.frames| - 1].request == Some(conn.phase.request)
          && PhaseOk(worlds, conn.phase, conn.frames[|conn.frames| - 1].at))
  }

  ghost predicate Inv(c: Config, s: Server) {
    && s.worlds != []
    && PermitsOk(c, s)
    && (forall k | k in s.live :: LiveOk(c, s.worlds, s.live[k]))
    && (forall k | k in s.closed :: ClosedOk(c, s.worlds, s.closed[k]))
  }

  // ---------------------------------------------------------------- steps

  lemma ClosePermits(c: Config, s: Server, k: nat, conn: Connection)
    requires PermitsOk(c, s) && k in s.live
    ensures PermitsOk(c, Close(s, k, conn))
  {
    var t := Close(s, k, conn);
    assert t.live.Keys == s.live.Keys - {k};
    assert t.closed.Keys == s.closed.Keys + {k};
    assert |t.live| == |t.live.Keys| == |s.live| - 1;
    assert |t.closed| == |t.closed.Keys| == |s.closed| + 1;
  }

  lemma SetPermits(c: Config, s: Server, k: nat, conn: Connection)
    requires PermitsOk(c, s) && k in s.live
    ensures PermitsOk(c, s.(live := s.live[k := conn]))
  {
    assert s.live[k := conn].Keys == s.live.Keys;
    assert |s.live[k := conn]| == |s.live[k := conn].Keys|;
  }

  lemma CloseInv(c: Config, s: Server, k: nat, conn: Connection)
    requires Inv(c, s) && k in s.live && ClosedOk(c, s.worlds, conn)
    ensures Inv(c, Close(s, k, conn))
  {
    hide PermitsOk, LiveOk, ClosedOk;
    ClosePermits(c, s, k, conn);
  }

  lemma SetInv(c: Config, s: Server, k: nat, conn: Connection)
    requires Inv(c, s) && k in s.live && LiveOk(c, s.worlds, conn)
    ensures Inv(c, s.(live := s.live[k := conn]))
  {
    hide PermitsOk, LiveOk, ClosedOk;
    SetPermits(c, s, k, conn);
  }

  lemma AnswersAppend(worlds: seq<World>, frames: seq<FrameRead>, answers: seq<Answer>, a: Answer)
    requires AnswersOk(worlds, frames, answers) && |frames| == |answers| + 1
    requires AnswerOk(worlds, frames[|frames| - 1], a)
    ensures AnswersOk(worlds, frames, answers + [a])
  {
    hide AnswerOk;
  }

  /** Answering the open frame, whether it is written, ends the budget or breaks the connection. */
  lemma RespondInv(c: Config, s: Server, k: nat, conn: Connection, a: Answer)
    requires Inv(c, s) && k in s.live
    requires ClosedOk(c, s.worlds, conn) && conn.unsent.None? && |conn.frames| == |conn.answers| + 1
    requires AnswerMade(s.worlds, conn.frames[|conn.frames| - 1], a)
    ensures Inv(c, Respond(c, s, k, conn, a))
  {
    hide PermitsOk, AnswerMade, FramesOk, AnswersOk, Inv, Sendable;
    if !Sendable(a.body) {
      CloseInv(c, s, k, conn.(unsent := Some(a)));
    } else {
      var done := conn.(phase := Waiting, answers := conn.answers + [a]);
      AnswersAppend(s.worlds, conn.frames, conn.answers, a);
      assert ClosedOk(c, s.worlds, done);
      if |done.frames| >= c.budget {
        CloseInv(c, s, k, done);
      } else {
        SetInv(c, s, k, done);
      }
    }
  }

  lemma RefuseInv(c: Config, s: Server, k: nat, conn: Connection, code: Code)
    requires Inv(c, s) && k in s.live && s.worlds != []
    requires ClosedOk(c, s.worlds, conn) && conn.unsent.None? && |conn.frames| == |conn.answers| + 1
    requires Justified(s.worlds, conn.frames[|conn.frames| - 1], |s.worlds| - 1, code)
    ensures Inv(c, Refuse(c, s, k, conn, conn.frames[|conn.frames| - 1].request, code))
  {
    hide PermitsOk, Inv, ClosedOk, Sendable, FailureBody, Execute, Reason, Respond;
    RespondInv(c, s, k, conn, Made(s, conn.frames[|conn.frames| - 1].request, Denied(code), None));
  }

  lemma LiveAt(c: Config, s: Server, k: nat)
    requires Inv(c, s) && k in s.live
    ensures LiveOk(c, s.worlds, s.live[k])
  {
    hide LiveOk, ClosedOk, PermitsOk;
  }

  lemma PhaseInv(c: Config, s: Server, k: nat, phase: Phase)
    requires Inv(c, s) && k in s.live && InFrame(s.live[k].phase) && InFrame(phase)
    requires s.live[k].frames != [] && phase.request == s.live[k].phase.request
    requires PhaseOk(s.worlds, phase, s.live[k].frames[|s.live[k].frames| - 1].at)
    ensures Inv(c, SetPhase(s, k, phase))
  {
    hide Inv, PhaseOk, FramesOk, AnswersOk;
    LiveAt(c, s, k);
    SetInv(c, s, k, s.live[k].(phase := phase));
  }

  lemma AcceptInv(c: Config, s: Server, k: nat)
    requires Inv(c, s) && Enabled(c, s, Accept(k))
    ensures Inv(c, Apply(c, s, Accept(k)))
  {
    hide PermitsOk, LiveOk, ClosedOk;
    if s.free > 0 {
      AcceptPermits(c, s, k);
    }
    HandshakingOk(c, s.worlds);
  }

  lemma AcceptPermits(c: Config, s: Server, k: nat)
    requires PermitsOk(c, s) && k !in s.live && k !in s.closed && s.free > 0
    ensures PermitsOk(c, s.(free := s.free - 1, accepted := s.accepted + 1,
                            live := s.live[k := Connection(Handshaking, [], [], None)]))
  {
    var live := s.live[k := Connection(Handshaking, [], [], None)];
    assert live.Keys == s.live.Keys + {k};
    assert |live| == |live.Keys| == |s.live| + 1;
  }

  lemma HandshakingOk(c: Config, worlds: seq<World>)
    ensures LiveOk(c, worlds, Connection(Handshaking, [], [], None))
  {
  }

  lemma AnswerMoment(worlds: seq<World>, f: FrameRead, a: Answer)
    requires AnswerMade(worlds, f, a)
    ensures f.at <= a.at < |worlds|
  {
  }

  lemma ReadFrames(c: Config, s: Server, k: nat, request: Option<FrameRequest>)
    requires Inv(c, s) && Enabled(c, s, Read(k, request))
    ensures var conn := s.live[k].(frames := s.live[k].frames + [FrameRead(request, |s.worlds| - 1)]);
            ClosedOk(c, s.worlds, conn) && conn.unsent.None? && |conn.frames| == |conn.answers| + 1
  {
    hide Inv, FramesOk, AnswersOk, PhaseOk, AnswerMade;
    LiveAt(c, s, k);
    LiveLockstep(c, s.worlds, s.live[k]);
    FramesAppend(c, s.worlds, s.live[k].frames, FrameRead(request, |s.worlds| - 1));
    AnswersBefore(s.worlds, s.live[k].frames, s.live[k].answers, FrameRead(request, |s.worlds| - 1));
  }

  lemma LiveLockstep(c: Config, worlds: seq<World>, conn: Connection)
    requires LiveOk(c, worlds, conn) && conn.phase.Waiting?
    ensures |conn.frames| == |conn.answers|
  {
    hide FramesOk, AnswerOk, PhaseOk, UnsentOk;
  }

  lemma FramesAppend(c: Config, worlds: seq<World>, frames: seq<FrameRead>, f: FrameRead)
    requires FramesOk(c, worlds, frames) && |frames| < c.budget && f.at == |worlds| - 1
    ensures FramesOk(c, worlds, frames + [f])
  {
  }

  lemma AnswersBefore(worlds: seq<World>, frames: seq<FrameRead>, answers: seq<Answer>, f: FrameRead)
    requires AnswersOk(worlds, frames, answers) && |frames| == |answers| && f.at == |worlds| - 1
    ensures AnswersOk(worlds, frames + [f], answers)
  {
    hide AnswerMade, Sendable;
    var more := frames + [f];
    forall j | 0 <= j < |answers| ensures AnswerOk(worlds, more[j], answers[j]) && answers[j].at < |worlds| {
      assert AnswerOk(worlds, frames[j], answers[j]) && more[j] == frames[j];
      AnswerMoment(worlds, frames[j], answers[j]);
    }
  }

  /** Exactly the plain tokens survive the header, unchanged. */
  lemma BearerOfToken(token: string)
    ensures BearerOf(token) == if Auth.PlainToken(token) then Some(token) else None
  {
    hide Auth.PlainToken, Auth.Ascii, Auth.Bearer, Auth.AuthorizationHeader;
    Auth.PlainIff(token);
    if Auth.Admitted(token) {
      Auth.BearerRoundTrip(token);
    }
  }

  lemma ReadInv(c: Config, s: Server, k: nat, request: Option<FrameRequest>)
    requires Inv(c, s) && Enabled(c, s, Read(k, request))
    ensures Inv(c, ApplyRead(c, s, k, request))
  {
    hide Inv, Respond, Refuse, FramesOk, AnswersOk, BearerOf, Auth.PlainToken;
    var conn := s.live[k].(frames := s.live[k].frames + [FrameRead(request, |s.worlds| - 1)]);
    ReadFrames(c, s, k, request);
    match request
    case None => RefuseInv(c, s, k, conn, InvalidRequest);
    case Some(r) =>
      BearerOfToken(r.bearerToken);
      if BearerOf(r.bearerToken).None? {
        RefuseInv(c, s, k, conn, Code.Unauthorized);
      } else {
        SetInv(c, s, k, conn.(phase := Checking(r)));
      }
  }

  lemma OpenFrame(c: Config, s: Server, k: nat)
    requires Inv(c, s) && k in s.live && InFrame(s.live[k].phase)
    ensures var conn := s.live[k];
            && ClosedOk(c, s.worlds, conn) && conn.unsent.None? && |conn.frames| == |conn.answers| + 1
            && conn.frames[|conn.frames| - 1].request == Some(conn.phase.request)
            && conn.frames[|conn.frames| - 1].at < |s.worlds|
            && PhaseOk(s.worlds, conn.phase, conn.frames[|conn.frames| - 1].at)
  {
    hide Inv, PhaseOk, AnswersOk;
    LiveAt(c, s, k);
  }

  lemma GuardInv(c: Config, s: Server, k: nat)
    requires Inv(c, s) && Enabled(c, s, Guard(k))
    ensures Inv(c, Apply(c, s, Guard(k)))
  {
    hide Inv, Respond, Refuse, ClosedOk, BearerOf, FailureBody;
    OpenFrame(c, s, k);
    var r := s.live[k].phase.request;
    match Auth.CheckGuard(Now(s).authorities.guard(Auth.SCHEME + r.bearerToken))
    case Err(failure) =>
      RefuseInv(c, s, k, s.live[k], FailureCode(failure));
    case Ok(identity) => PhaseInv(c, s, k, Guarded(r, identity, |s.worlds| - 1));
  }

  lemma VerifyInv(c: Config, s: Server, k: nat)
    requires Inv(c, s) && Enabled(c, s, Verify(k))
    ensures Inv(c, Apply(c, s, Verify(k)))
  {
    hide Inv, Respond, Refuse, ClosedOk, BearerOf, FailureBody, Auth.ValidateActiveSession, Auth.Agrees, GuardedAt;
    OpenFrame(c, s, k);
    var p := s.live[k].phase;
    var f := s.live[k].frames[|s.live[k].frames| - 1];
    var a := Now(s).authorities;
    match a.introspect(p.request.bearerToken)
    case None =>
      RefuseInv(c, s, k, s.live[k], TemporarilyUnavailable);
    case Some(found) =>
      match Auth.ValidateActiveSession(p.identity, found, a.issuer, a.audience, [CASES_READ_SCOPE], a.now)
      case Err(failure) =>
        SessionRefused(s.worlds, p, f.at);
        RefuseInv(c, s, k, s.live[k], Code.Unauthorized);
      case Ok(subject) =>
        Auth.ValidatedIffAgrees(p.identity, found, a.issuer, a.audience, [CASES_READ_SCOPE], a.now, subject);
        GuardedBefore(s.worlds, p);
        PhaseInv(c, s, k, Verified(p.request, p.identity, subject, p.guardAt, |s.worlds| - 1));
  }

  lemma GuardedBefore(worlds: seq<World>, p: Phase)
    requires p.Guarded? && GuardedAt(worlds, p.request, p.identity, p.guardAt)
    ensures p.guardAt < |worlds|
  {
  }

  /** A failed validation is always "unauthorized", because guard and introspection disagree. */
  lemma SessionRefused(worlds: seq<World>, p: Phase, readAt: nat)
    requires worlds != [] && p.Guarded? && readAt <= p.guardAt && GuardedAt(worlds, p.request, p.identity, p.guardAt)
    requires var a := worlds[|worlds| - 1].authorities;
             && a.introspect(p.request.bearerToken).Some?
             && Auth.ValidateActiveSession(p.identity, a.introspect(p.request.bearerToken).value, a.issuer,
                                           a.audience, [CASES_READ_SCOPE], a.now).Err?
    ensures Reason(worlds, p.request, readAt, |worlds| - 1, Code.Unauthorized)
    ensures var a := worlds[|worlds| - 1].authorities;
            Auth.ValidateActiveSession(p.identity, a.introspect(p.request.bearerToken).value, a.issuer,
                                       a.audience, [CASES_READ_SCOPE], a.now) == Err(Auth.Unauthorized)
  {
    var a := worlds[|worlds| - 1].authorities;
    var found := a.introspect(p.request.bearerToken).value;
    if p.identity.sessionId.Some? {
      Auth.ValidatedIffAgrees(p.identity, found, a.issuer, a.audience, [CASES_READ_SCOPE], a.now,
                              Auth.Subject(p.identity.sharedUserId, p.identity.sessionId.value));
    }
    assert GuardedBy(worlds, p.request, readAt, p.identity, |worlds| - 1);
    assert SessionDisagrees(worlds[|worlds| - 1], p.request, p.identity);
  }

  lemma EnrolInv(c: Config, s: Server, k: nat)
    requires Inv(c, s) && Enabled(c, s, Enrol(k))
    ensures Inv(c, Apply(c, s, Enrol(k)))
  {
    hide Inv, Respond, Refuse, ClosedOk, FailureBody, Auth.Agrees, GuardedAt;
    OpenFrame(c, s, k);
    var p := s.live[k].phase;
    var f := s.live[k].frames[|s.live[k].frames| - 1];
    match Now(s).membership(p.subject.sharedUserId, p.request.tenantId)
    case NotMember =>
      assert VerifiedBy(s.worlds, p.request, f.at, p.subject, |s.worlds| - 1);
      RefuseInv(c, s, k, s.live[k], Code.Forbidden);
    case Unknown =>
      assert VerifiedBy(s.worlds, p.request, f.at, p.subject, |s.worlds| - 1);
      RefuseInv(c, s, k, s.live[k], TemporarilyUnavailable);
    case Member =>
      PhaseInv(c, s, k, Enrolled(p.request, p.identity, p.subject, p.guardAt, p.verifiedAt, |s.worlds| - 1));
  }

  lemma ListInv(c: Config, s: Server, k: nat)
    requires Inv(c, s) && Enabled(c, s, List(k))
    ensures Inv(c, Apply(c, s, List(k)))
  {
    hide Inv, Respond, Refuse, ClosedOk, Execute, CaseList, Auth.Agrees, GuardedAt, VerifiedAt, MembershipWas;
    OpenFrame(c, s, k);
    var p := s.live[k].phase;
    var f := s.live[k].frames[|s.live[k].frames| - 1];
    match Now(s).listing(p.request.tenantId)
    case None =>
      RefuseInv(c, s, k, s.live[k], TemporarilyUnavailable);
    case Some(rows) =>
      var proof := Proof(p.identity, p.subject, p.guardAt, p.verifiedAt, p.memberAt, |s.worlds| - 1);
      var a := Made(s, Some(p.request), Listed(CaseList(rows)), Some(proof));
      assert ListedOk(s.worlds, f, a);
      RespondInv(c, s, k, s.live[k], a);
  }

  lemma MembershipKeeps(ws: seq<World>, w: World, r: FrameRequest, readAt: nat, t: nat, m: Membership)
    requires t < |ws| && MembershipWas(ws, r, readAt, t, m)
    ensures MembershipWas(ws + [w], r, readAt, t, m)
  {
    hide Auth.Agrees;
    var subject :| VerifiedBy(ws, r, readAt, subject, t) && ws[t].membership(subject.sharedUserId, r.tenantId) == m;
    var identity, v: nat :| readAt <= v <= t && VerifiedAt(ws, r, identity, subject, v);
    assert VerifiedAt(ws + [w], r, identity, subject, v);
    assert VerifiedBy(ws + [w], r, readAt, subject, t);
  }

  lemma ReasonKeeps(ws: seq<World>, w: World, r: FrameRequest, readAt: nat, t: nat, code: Code)
    requires t < |ws| && Reason(ws, r, readAt, t, code)
    ensures Reason(ws + [w], r, readAt, t, code)
  {
    hide Auth.Agrees, BearerOf, OkBody, MembershipWas;
    if MembershipWas(ws, r, readAt, t, NotMember) {
      MembershipKeeps(ws, w, r, readAt, t, NotMember);
    }
    if MembershipWas(ws, r, readAt, t, Unknown) {
      MembershipKeeps(ws, w, r, readAt, t, Unknown);
    }
    if identity :| GuardedBy(ws, r, readAt, identity, t) && SessionDisagrees(ws[t], r, identity) {
      var g: nat :| readAt <= g <= t && GuardedAt(ws, r, identity, g);
      assert GuardedAt(ws + [w], r, identity, g);
      assert GuardedBy(ws + [w], r, readAt, identity, t);
    }
  }

  lemma AnswerMadeKeeps(ws: seq<World>, w: World, f: FrameRead, a: Answer)
    requires AnswerMade(ws, f, a)
    ensures AnswerMade(ws + [w], f, a)
  {
    hide Auth.Agrees, Execute, CaseList, Reason;
    if a.outcome.Denied? && f.request.Some? {
      ReasonKeeps(ws, w, f.request.value, f.at, a.at, a.outcome.code);
    }
  }

  lemma ClosedKeeps(c: Config, ws: seq<World>, w: World, conn: Connection)
    requires ClosedOk(c, ws, conn)
    ensures ClosedOk(c, ws + [w], conn)
  {
    hide AnswerMade;
    forall j | 0 <= j < |conn.answers| ensures AnswerOk(ws + [w], conn.frames[j], conn.answers[j]) {
      assert AnswerOk(ws, conn.frames[j], conn.answers[j]);
      AnswerMadeKeeps(ws, w, conn.frames[j], conn.answers[j]);
    }
    if conn.unsent.Some? {
      AnswerMadeKeeps(ws, w, conn.frames[|conn.answers|], conn.unsent.value);
    }
  }

  lemma LiveKeeps(c: Config, ws: seq<World>, w: World, conn: Connection)
    requires LiveOk(c, ws, conn)
    ensures LiveOk(c, ws + [w], conn)
  {
    hide ClosedOk, Auth.Agrees, BearerOf;
    ClosedKeeps(c, ws, w, conn);
  }

  lemma ChangeInv(c: Config, s: Server, w: World)
    requires Inv(c, s)
    ensures Inv(c, s.(worlds := s.worlds + [w]))
  {
    hide LiveOk, ClosedOk;
    forall k | k in s.live ensures LiveOk(c, s.worlds + [w], s.live[k]) {
      LiveKeeps(c, s.worlds, w, s.live[k]);
    }
    forall k | k in s.closed ensures ClosedOk(c, s.worlds + [w], s.closed[k]) {
      ClosedKeeps(c, s.worlds, w, s.closed[k]);
    }
  }

  lemma HandshakeInv(c: Config, s: Server, k: nat)
    requires Inv(c, s) && Enabled(c, s, HandshakeDone(k))
    ensures Inv(c, SetPhase(s, k, Waiting))
  {
    hide Inv, FramesOk, AnswersOk;
    LiveAt(c, s, k);
    SetInv(c, s, k, s.live[k].(phase := Waiting));
  }

  lemma DropInv(c: Config, s: Server, k: nat)
    requires Inv(c, s) && k in s.live
    ensures Inv(c, Close(s, k, s.live[k]))
  {
    hide Inv, ClosedOk;
    LiveAt(c, s, k);
    CloseInv(c, s, k, s.live[k]);
  }

  /** Every step of server, connections and outside world keeps the invariant. */
  lemma StepInv(c: Config, s: Server, a: Action)
    requires Inv(c, s)
    ensures Inv(c, Next(c, s, a))
  {
    hide Inv, ApplyGuard, ApplyVerify, ApplyEnrol, ApplyList, ApplyRead;
    if Enabled(c, s, a) {
      match a
      case Accept(k) => AcceptInv(c, s, k);
      case HandshakeDone(k) => HandshakeInv(c, s, k);
      case Read(k, request) => ReadInv(c, s, k, request);
      case Guard(k) => GuardInv(c, s, k);
      case Verify(k) => VerifyInv(c, s, k);
      case Enrol(k) => EnrolInv(c, s, k);
      case List(k) => ListInv(c, s, k);
      case Drop(k) => DropInv(c, s, k);
      case Change(world) => ChangeInv(c, s, world);
    }
  }

  lemma {:induction false} Reachable(c: Config, world: World, actions: seq<Action>)
    ensures Inv(c, After(c, world, actions))
    decreases |actions|
  {
    if actions != [] {
      Reachable(c, world, actions[..|actions| - 1]);
      StepInv(c, After(c, world, actions[..|actions| - 1]), actions[|actions| - 1]);
    }
  }

  // ---------------------------------------------------------------- theorems

  /** Permits: free plus live is the configured maximum; each accepted connection holds or has returned one. */
  lemma PermitsConserved(c: Config, world: World, actions: seq<Action>)
    ensures var s := After(c, world, actions);
            && s.free + |s.live| == c.maxConnections
            && |s.live| <= c.maxConnections
            && s.accepted == |s.live| + |s.closed|
            && s.free == c.maxConnections - s.accepted + |s.closed|
            && s.live.Keys !! s.closed.Keys
  {
    hide LiveOk, ClosedOk;
    Reachable(c, world, actions);
  }

  /** A new connection is served if and only if fewer than the maximum are. */
  lemma ServedIffNotFull(c: Config, world: World, actions: seq<Action>, k: nat)
    requires var s := After(c, world, actions); k !in s.live && k !in s.closed
    ensures k in Next(c, After(c, world, actions), Accept(k)).live
            <==> |After(c, world, actions).live| < c.maxConnections
  {
    hide After, LiveOk, ClosedOk;
    Reachable(c, world, actions);
  }

  function ConnectionAt(s: Server, k: nat): Connection
    requires k in s.live || k in s.closed
  {
    if k in s.live then s.live[k] else s.closed[k]
  }

  lemma ConnectionOk(c: Config, s: Server, k: nat)
    requires Inv(c, s) && (k in s.live || k in s.closed)
    ensures ClosedOk(c, s.worlds, ConnectionAt(s, k))
  {
    hide ClosedOk, PermitsOk;
  }

  /** The code of a response that is not "ok", if any. */
  function RefusalCode(f: FrameRead, a: Answer): Option<Code> {
    match a.outcome
    case Denied(code) => Some(code)
    case Listed(cases) =>
      if |OkBody(IdOf(f.request), cases)| <= MAX_RESPONSE_BYTES then None else Some(ResponseTooLarge)
  }

  /** A response is the "ok" body of its own frame, or the refusal of it with a justified code. */
  lemma AnswerForms(worlds: seq<World>, f: FrameRead, a: Answer)
    requires AnswerMade(worlds, f, a)
    ensures match RefusalCode(f, a)
            case None =>
              && a.outcome.Listed? && ListedOk(worlds, f, a)
              && a.body == OkBody(IdOf(f.request), a.outcome.cases)
            case Some(code) => a.body == FailureBody(IdOf(f.request), code) && Justified(worlds, f, a.at, code)
  {
    hide OkBody, FailureBody, GuardedAt, VerifiedAt, MemberAt, CaseList;
  }

  lemma AnswerAt(c: Config, world: World, actions: seq<Action>, k: nat, j: nat)
    requires var s := After(c, world, actions); k in s.live || k in s.closed
    requires j < |ConnectionAt(After(c, world, actions), k).answers|
    ensures var s := After(c, world, actions);
            var conn := ConnectionAt(s, k);
            j < |conn.frames| && AnswerOk(s.worlds, conn.frames[j], conn.answers[j])
  {
    hide Inv, AnswerOk, After;
    Reachable(c, world, actions);
    ConnectionOk(c, After(c, world, actions), k);
  }

  /** Lockstep: at any point frames read minus responses written is 0 or 1, within budget, ids and moments in order. */
  lemma FramesInLockstep(c: Config, world: World, actions: seq<Action>, k: nat)
    requires var s := After(c, world, actions); k in s.live || k in s.closed
    ensures var conn := ConnectionAt(After(c, world, actions), k);
            && |conn.answers| <= |conn.frames| <= |conn.answers| + 1
            && |conn.frames| <= c.budget
            && (k in After(c, world, actions).live && |conn.frames| == |conn.answers| > 0 ==> |conn.frames| < c.budget)
            && (forall j | 0 <= j < |conn.answers| ::
                  |conn.answers[j].body| >= 52 && conn.answers[j].body[15..51] == Print(IdOf(conn.frames[j].request)))
            && (forall j | 0 <= j < |conn.answers| :: conn.frames[j].at <= conn.answers[j].at)
            && (forall j | 0 <= j < |conn.answers| && j + 1 < |conn.frames| ::
                  conn.answers[j].at <= conn.frames[j + 1].at)
  {
    hide Inv, ListedOk, Justified, Sendable, After, Execute, Print, PhaseOk, UnsentOk;
    var s := After(c, world, actions);
    Reachable(c, world, actions);
    ConnectionOk(c, s, k);
    if k in s.live {
      LiveAt(c, s, k);
    }
    var conn := ConnectionAt(s, k);
    forall j | 0 <= j < |conn.answers|
      ensures |conn.answers[j].body| >= 52 && conn.answers[j].body[15..51] == Print(IdOf(conn.frames[j].request))
      ensures conn.frames[j].at <= conn.answers[j].at {
      assert AnswerOk(s.worlds, conn.frames[j], conn.answers[j]);
      ExecuteCarriesId(conn.frames[j].request, conn.answers[j].outcome);
    }
  }

  /** Every response is `execute` of its own frame, on an outcome made between the frame and the response. */
  lemma AnswersAreExecuted(c: Config, world: World, actions: seq<Action>, k: nat, j: nat)
    requires var s := After(c, world, actions); k in s.live || k in s.closed
    requires j < |ConnectionAt(After(c, world, actions), k).answers|
    ensures var s := After(c, world, actions);
            var conn := ConnectionAt(s, k);
            && j < |conn.frames|
            && conn.answers[j].body == Execute(conn.frames[j].request, conn.answers[j].outcome)
            && AnswerMade(s.worlds, conn.frames[j], conn.answers[j])
            && Sendable(conn.answers[j].body)
  {
    hide Inv, After, Execute, ListedOk, Justified, Sendable;
    AnswerAt(c, world, actions, k, j);
  }

  /** A response that a client reads as a success. */
  predicate IsOk(body: string) {
    ReadResponse(body).Success?
  }

  lemma OkIffNoCode(worlds: seq<World>, f: FrameRead, a: Answer)
    requires AnswerMade(worlds, f, a)
    ensures IsOk(a.body) <==> RefusalCode(f, a).None?
    ensures match RefusalCode(f, a)
            case None => a.outcome.Listed? && ReadResponse(a.body) == Success(Print(IdOf(f.request)), a.outcome.cases)
            case Some(code) =>
              && ReadResponse(a.body).Refusal? && ReadResponse(a.body).id == Print(IdOf(f.request))
              && ReadCode(ReadResponse(a.body).error) == Some(code)
  {
    hide OkBody, FailureBody, AnswerMade, ListedOk, Justified, ReadResponse, ReadCode, Print;
    AnswerForms(worlds, f, a);
    match RefusalCode(f, a)
    case None => ResponsesRead(IdOf(f.request), a.outcome.cases, InvalidRequest);
    case Some(code) => ResponsesRead(IdOf(f.request), "", code);
  }

  /**
    Freshness: every "ok" response was preceded, within its own frame and in this order, by a passed guard
    check, a passed introspection of the frame's token and a passed membership check, none of them older than
    the reading of the frame; it answers that frame's request with its tenant's cases as they then were.
   */
  lemma OkResponsesAreFresh(c: Config, world: World, actions: seq<Action>, k: nat, j: nat)
    requires var s := After(c, world, actions); k in s.live || k in s.closed
    requires j < |ConnectionAt(After(c, world, actions), k).answers|
    requires IsOk(ConnectionAt(After(c, world, actions), k).answers[j].body)
    ensures var s := After(c, world, actions);
            var conn := ConnectionAt(s, k);
            && j < |conn.frames| && ListedOk(s.worlds, conn.frames[j], conn.answers[j])
            && conn.answers[j].outcome.Listed?
            && ReadResponse(conn.answers[j].body)
               == Success(Print(IdOf(conn.frames[j].request)), conn.answers[j].outcome.cases)
  {
    hide Inv, After, AnswerMade, ListedOk, Justified, OkBody, Sendable, IsOk, ReadResponse, Print;
    var s := After(c, world, actions);
    AnswerAt(c, world, actions, k, j);
    OkIffNoCode(s.worlds, ConnectionAt(s, k).frames[j], ConnectionAt(s, k).answers[j]);
    AnswerForms(s.worlds, ConnectionAt(s, k).frames[j], ConnectionAt(s, k).answers[j]);
  }

  /**
    Refusals: a response that is not "ok" is the refusal of its own frame's request, and its code reports
    something that was so, of that request, at the moment of the answer.
   */
  lemma RefusalsAreJustified(c: Config, world: World, actions: seq<Action>, k: nat, j: nat)
    requires var s := After(c, world, actions); k in s.live || k in s.closed
    requires j < |ConnectionAt(After(c, world, actions), k).answers|
    requires !IsOk(ConnectionAt(After(c, world, actions), k).answers[j].body)
    ensures var s := After(c, world, actions);
            var conn := ConnectionAt(s, k);
            && j < |conn.frames|
            && var reading := ReadResponse(conn.answers[j].body);
               && reading.Refusal? && reading.id == Print(IdOf(conn.frames[j].request))
               && ReadCode(reading.error).Some?
               && Justified(s.worlds, conn.frames[j], conn.answers[j].at, ReadCode(reading.error).value)
  {
    hide Inv, After, AnswerMade, ListedOk, Justified, FailureBody, Sendable, IsOk, ReadResponse, ReadCode, Print;
    var s := After(c, world, actions);
    AnswerAt(c, world, actions, k, j);
    OkIffNoCode(s.worlds, ConnectionAt(s, k).frames[j], ConnectionAt(s, k).answers[j]);
    AnswerForms(s.worlds, ConnectionAt(s, k).frames[j], ConnectionAt(s, k).answers[j]);
  }

  /**
    A connection that was ended by the codec had a valid request: all its checks had passed, and its tenant's
    list was too long to write and not long enough to be refused.
   */
  lemma RefusedWritesAreLongLists(c: Config, world: World, actions: seq<Action>, k: nat)
    requires var s := After(c, world, actions); k in s.live || k in s.closed
    requires ConnectionAt(After(c, world, actions), k).unsent.Some?
    ensures var s := After(c, world, actions);
            var conn := ConnectionAt(s, k);
            && k !in s.live && |conn.frames| == |conn.answers| + 1
            && ListedOk(s.worlds, conn.frames[|conn.answers|], conn.unsent.value)
            && conn.unsent.value.outcome.Listed?
            && 20365 < |conn.unsent.value.outcome.cases| <= 65421
  {
    hide After, AnswerOk, Execute, ListedOk, Justified, Sendable, FramesOk, AnswersOk, PermitsOk, PhaseOk;
    var s := After(c, world, actions);
    Reachable(c, world, actions);
    ConnectionOk(c, s, k);
    var conn := ConnectionAt(s, k);
    SendableIff(conn.frames[|conn.answers|].request, conn.unsent.value.outcome);
  }

  /** From moment `since` on, the authority no longer calls this token active. */
  ghost predicate RevokedSince(worlds: seq<World>, token: string, since: nat) {
    forall t: nat | since <= t < |worlds| ::
      var found := worlds[t].authorities.introspect(token);
      found.None? || !found.value.active
  }

  /** A frame read after its session was revoked is never answered "ok", however the checks interleave. */
  lemma RevokedSessionsAreRefused(c: Config, world: World, actions: seq<Action>, k: nat, j: nat, since: nat)
    requires var s := After(c, world, actions); k in s.live || k in s.closed
    requires j < |ConnectionAt(After(c, world, actions), k).answers|
    requires var s := After(c, world, actions);
             var conn := ConnectionAt(s, k);
             && j < |conn.frames| && conn.frames[j].request.Some? && since <= conn.frames[j].at
             && RevokedSince(s.worlds, conn.frames[j].request.value.bearerToken, since)
    ensures !IsOk(ConnectionAt(After(c, world, actions), k).answers[j].body)
  {
    hide OkBody, FailureBody, Inv, IsOk;
    if IsOk(ConnectionAt(After(c, world, actions), k).answers[j].body) {
      OkResponsesAreFresh(c, world, actions, k, j);
    }
  }

  // ---------------------------------------------------------------- frames in a quiet world

  function MemberOutcome(w: World, r: FrameRequest, subject: Auth.Subject): Outcome {
    match w.membership(subject.sharedUserId, r.tenantId)
    case NotMember => Denied(Code.Forbidden)
    case Unknown => Denied(TemporarilyUnavailable)
    case Member =>
      match w.listing(r.tenantId)
      case None => Denied(TemporarilyUnavailable)
      case Some(rows) => Listed(CaseList(rows))
  }

  /** What a request comes to when nothing changes while it is answered. */
  function QuietOutcome(w: World, r: FrameRequest): Outcome {
    match Auth.AuthorizeToken(w.authorities, r.bearerToken, ["apme:cases:read"])
    case Err(failure) => Denied(FailureCode(failure))
    case Ok(subject) => MemberOutcome(w, r, subject)
  }

  /** A request is answered with its tenant's cases exactly when its subject is vouched for and a member. */
  lemma ListedIffVouched(w: World, r: FrameRequest)
    ensures QuietOutcome(w, r).Listed? <==>
            && w.listing(r.tenantId).Some?
            && exists subject :: Auth.Vouched(w.authorities, r.bearerToken, ["apme:cases:read"], subject)
                                 && w.membership(subject.sharedUserId, r.tenantId).Member?
    ensures QuietOutcome(w, r).Listed? ==> QuietOutcome(w, r).cases == CaseList(w.listing(r.tenantId).value)
  {
    hide Auth.AuthorizeToken, Auth.Vouched, CaseList;
    var scopes := ["apme:cases:read"];
    forall subject ensures Auth.AuthorizeToken(w.authorities, r.bearerToken, scopes) == Ok(subject)
                           <==> Auth.Vouched(w.authorities, r.bearerToken, scopes, subject) {
      Auth.SubjectIffVouched(w.authorities, r.bearerToken, scopes, subject);
    }
  }

  /** The four checks of a frame, one after the other; a step that does not apply does nothing. */
  function RunChecks(c: Config, s: Server, k: nat): Server {
    Next(c, Next(c, Next(c, Next(c, s, Guard(k)), Verify(k)), Enrol(k)), List(k))
  }

  /** Connection `k` has got one more response, or was ended by the codec. */
  predicate Got(s: Server, k: nat, frames: seq<FrameRead>, answers: seq<Answer>, body: string) {
    && (k in s.live || k in s.closed)
    && var conn := ConnectionAt(s, k);
       && conn.frames == frames
       && (if Sendable(body) then
             |conn.answers| == |answers| + 1 && answers <= conn.answers && conn.answers[|answers|].body == body
           else conn.answers == answers && conn.unsent.Some? && conn.unsent.value.body == body)
  }

  /** No frame of connection `k` is being answered. */
  predicate Idle(s: Server, k: nat) {
    k in s.live ==> !InFrame(s.live[k].phase)
  }

  lemma RespondGot(c: Config, s: Server, k: nat, conn: Connection, a: Answer)
    requires k in s.live && k !in s.closed
    ensures Got(Respond(c, s, k, conn, a), k, conn.frames, conn.answers, a.body)
    ensures Idle(Respond(c, s, k, conn, a), k)
  {
    hide Sendable;
  }

  lemma IdleSteps(c: Config, s: Server, k: nat)
    requires Idle(s, k)
    ensures Next(c, s, Guard(k)) == s && Next(c, s, Verify(k)) == s && Next(c, s, Enrol(k)) == s
    ensures Next(c, s, List(k)) == s
  {
  }

  lemma ListGot(c: Config, s: Server, k: nat)
    requires s.worlds != [] && k in s.live && k !in s.closed && s.live[k].phase.Enrolled?
    ensures var p := s.live[k].phase;
            var outcome := match Now(s).listing(p.request.tenantId)
                           case None => Denied(TemporarilyUnavailable)
                           case Some(rows) => Listed(CaseList(rows));
            Got(Next(c, s, List(k)), k, s.live[k].frames, s.live[k].answers, Execute(Some(p.request), outcome))
  {
    hide Respond, Got, Execute, CaseList;
    var p, conn := s.live[k].phase, s.live[k];
    match Now(s).listing(p.request.tenantId)
    case None => RespondGot(c, s, k, conn, Made(s, Some(p.request), Denied(TemporarilyUnavailable), None));
    case Some(rows) =>
      var proof := Proof(p.identity, p.subject, p.guardAt, p.verifiedAt, p.memberAt, |s.worlds| - 1);
      RespondGot(c, s, k, conn, Made(s, Some(p.request), Listed(CaseList(rows)), Some(proof)));
  }

  lemma EnrolGot(c: Config, s: Server, k: nat)
    requires s.worlds != [] && k in s.live && k !in s.closed && s.live[k].phase.Verified?
    ensures var p := s.live[k].phase;
            Got(Next(c, Next(c, s, Enrol(k)), List(k)), k, s.live[k].frames, s.live[k].answers,
                Execute(Some(p.request), MemberOutcome(Now(s), p.request, p.subject)))
  {
    hide Respond, Got, Execute, CaseList;
    var p, conn := s.live[k].phase, s.live[k];
    match Now(s).membership(p.subject.sharedUserId, p.request.tenantId)
    case Member => ListGot(c, Next(c, s, Enrol(k)), k);
    case NotMember =>
      RespondGot(c, s, k, conn, Made(s, Some(p.request), Denied(Code.Forbidden), None));
      IdleSteps(c, Next(c, s, Enrol(k)), k);
    case Unknown =>
      RespondGot(c, s, k, conn, Made(s, Some(p.request), Denied(TemporarilyUnavailable), None));
      IdleSteps(c, Next(c, s, Enrol(k)), k);
  }

  function SessionOutcome(w: World, r: FrameRequest, identity: Auth.Identity): Outcome {
    var a := w.authorities;
    match a.introspect(r.bearerToken)
    case None => Denied(TemporarilyUnavailable)
    case Some(found) =>
      match Auth.ValidateActiveSession(identity, found, a.issuer, a.audience, [CASES_READ_SCOPE], a.now)
      case Err(failure) => Denied(FailureCode(failure))
      case Ok(subject) => MemberOutcome(w, r, subject)
  }

  lemma VerifyGot(c: Config, s: Server, k: nat)
    requires s.worlds != [] && k in s.live && k !in s.closed && s.live[k].phase.Guarded?
    requires Auth.PlainToken(s.live[k].phase.request.bearerToken)
    ensures var p := s.live[k].phase;
            Got(Next(c, Next(c, Next(c, s, Verify(k)), Enrol(k)), List(k)), k, s.live[k].frames, s.live[k].answers,
                Execute(Some(p.request), SessionOutcome(Now(s), p.request, p.identity)))
  {
    hide Respond, Got, Execute, Auth.ValidateActiveSession, BearerOf, MemberOutcome, Auth.PlainToken;
    var p, conn, a := s.live[k].phase, s.live[k], Now(s).authorities;
    BearerOfToken(p.request.bearerToken);
    var t := Next(c, s, Verify(k));
    match a.introspect(p.request.bearerToken)
    case None =>
      RespondGot(c, s, k, conn, Made(s, Some(p.request), Denied(TemporarilyUnavailable), None));
      IdleSteps(c, t, k);
    case Some(found) =>
      match Auth.ValidateActiveSession(p.identity, found, a.issuer, a.audience, [CASES_READ_SCOPE], a.now)
      case Err(failure) =>
        RespondGot(c, s, k, conn, Made(s, Some(p.request), Denied(FailureCode(failure)), None));
        IdleSteps(c, t, k);
      case Ok(subject) => EnrolGot(c, t, k);
  }

  lemma ChecksGot(c: Config, s: Server, k: nat)
    requires s.worlds != [] && k in s.live && k !in s.closed && s.live[k].phase.Checking?
    requires Auth.PlainToken(s.live[k].phase.request.bearerToken)
    ensures var r := s.live[k].phase.request;
            Got(RunChecks(c, s, k), k, s.live[k].frames, s.live[k].answers, Execute(Some(r), QuietOutcome(Now(s), r)))
  {
    hide Respond, Got, Execute, SessionOutcome, QuietOutcome, Auth.PlainToken;
    var r, conn := s.live[k].phase.request, s.live[k];
    QuietUnfolds(Now(s), r);
    var t := Next(c, s, Guard(k));
    match Auth.CheckGuard(Now(s).authorities.guard(Auth.SCHEME + r.bearerToken))
    case Err(failure) =>
      RespondGot(c, s, k, conn, Made(s, Some(r), Denied(FailureCode(failure)), None));
      IdleSteps(c, t, k);
    case Ok(identity) => VerifyGot(c, t, k);
  }

  lemma QuietUnfolds(w: World, r: FrameRequest)
    ensures QuietOutcome(w, r) ==
            if !Auth.PlainToken(r.bearerToken) then Denied(Code.Unauthorized)
            else
              match Auth.CheckGuard(w.authorities.guard(Auth.SCHEME + r.bearerToken))
              case Err(failure) => Denied(FailureCode(failure))
              case Ok(identity) => SessionOutcome(w, r, identity)
  {
    hide Auth.PlainToken, Auth.Admitted, Auth.Bearer, Auth.ValidateActiveSession, Auth.CheckGuard;
    Auth.PlainIff(r.bearerToken);
    if Auth.Admitted(r.bearerToken) {
      Auth.AdmittedHeader(r.bearerToken);
      Auth.BearerRoundTrip(r.bearerToken);
    }
  }

  /**
    The checks refine one decision: a frame that is read and checked while the outside world stands still is
    answered with `execute` of the outcome that authorisation, membership and listing have at that moment.
   */
  lemma QuietFramesAnswered(c: Config, world: World, actions: seq<Action>, k: nat, request: Option<FrameRequest>)
    requires Enabled(c, After(c, world, actions), Read(k, request))
    ensures var s := After(c, world, actions);
            var outcome := if request.None? then Denied(InvalidRequest) else QuietOutcome(Now(s), request.value);
            Got(RunChecks(c, Next(c, s, Read(k, request)), k), k,
                s.live[k].frames + [FrameRead(request, |s.worlds| - 1)], s.live[k].answers, Execute(request, outcome))
  {
    hide After, LiveOk, ClosedOk, Respond, Got, Execute, QuietOutcome, RunChecks, BearerOf, Auth.PlainToken;
    var s := After(c, world, actions);
    Reachable(c, world, actions);
    assert k !in s.closed;
    var conn := s.live[k].(frames := s.live[k].frames + [FrameRead(request, |s.worlds| - 1)]);
    var t := Next(c, s, Read(k, request));
    match request
    case None =>
      RespondGot(c, s, k, conn, Made(s, None, Denied(InvalidRequest), None));
      IdleChecks(c, t, k);
    case Some(r) =>
      BearerOfToken(r.bearerToken);
      if Auth.PlainToken(r.bearerToken) {
        ChecksGot(c, t, k);
      } else {
        QuietUnfolds(Now(s), r);
        RespondGot(c, s, k, conn, Made(s, request, Denied(Code.Unauthorized), None));
        IdleChecks(c, t, k);
      }
  }

  lemma IdleChecks(c: Config, s: Server, k: nat)
    requires Idle(s, k)
    ensures RunChecks(c, s, k) == s
  {
    hide Next;
    IdleSteps(c, s, k);
  }
}
