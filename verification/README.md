# Apostille Me API: verified model

A Dafny model of the protocols of the Apostille Me web API, with proofs about every schedule, every input and
every reachable state. `dafny verify dfyconfig.toml` checks the whole project.

## What is modelled

- **Case mutations and their fan-out** (`CaseStore`, `CaseProtocol`, `CaseInvariant`, `CaseTheorems`,
  `CaseOutcomes`, `CaseRetention`, `CaseDelivery`, `Fanout`).
  A mutation commits in one stored-procedure call, reads the case and the event back in two further queries and
  then decides whether to publish. The model is an interleaving system: any number of mutation handlers, each
  stopped between any two awaits, retention sweeps, legal holds, failures, cancellation, process restarts and
  websocket tasks. A run is any sequence of actions; an action that is not enabled does nothing, so every
  statement about `After(i, actions)` is about every run. The broadcast channel is a class with a 256-slot ring,
  and the socket loop a method over it.
- **The JetStream status worker** (`Routing`, `JetStream`, `JetStreamProofs`). An at-least-once queue, a worker
  that publishes, waits for storage and then acknowledges, deduplication by message id in a time window, losses in
  every direction, acknowledgement timeouts and crashes between any two awaits.
- **The mTLS frame server** (`Auth`, `Frames`, `FrameServer`). Permits over concurrent connections, the bounded
  request/response loop, and the chain of checks behind each frame, while sessions, memberships and cases change
  between any two of them.
- **Text transformations** (`Text`, `Uuids`, `Origins`, `Entrypoint`). The CORS origin list, the bearer token
  through a header and back, and the entrypoint's merge of decrypted variables in a shell.

### Assumed interfaces

- The stored procedures `apme_create_case`, `apme_transition_case`, `apme_rotate_case_object` and
  `apme_apply_retention` live in another repository. `CaseStore.Procedure` and `CaseStore.Retain` are what the
  service binds (`src/cases.rs:172-276`), the errors it recognises (`src/cases.rs:462-484`) and what the database
  canary exercises (`tests/postgres_cases.rs:149-261`, `tests/postgres_cases.rs:316-359`), as atomic operations.
  Their unknown parts are parameters, quantified over in every theorem: the scope of an idempotency key, the
  digest, the command validators and the status graph. Whether a retention sweep also records an event is left
  open, and the theorems hold either way. New case and event ids are fresh. The event types of a creation
  (`src/main.rs:726`) and of a rotation (`tests/postgres_cases.rs:247`) are the repository's; that of a transition is
  assumed to be "case.transitioned".
- SHA-256 over the serialized tuple is assumed collision-free only where a lemma says `CollisionFree`.
- The broadcast channel keeps the last 256 events and stores nothing while nobody is subscribed.
- A header value accepts tabs and every byte from 32 on except 127, and reads back as text only if it is ASCII.
- The length-delimited codec applies its one length limit to reading and writing.
- A broker accepts an acknowledgement that arrives after its delivery timed out, and the first one settles the
  request.

### Where the code does not do what is promised

- A committed mutation may never be published. `CaseOutcomes.PublishedIffReadBack` says exactly which runs publish
  it: its handler must read the case back while it is not tombstoned, read the event without a failing query, and
  reach its publication before any cancellation or restart. There are thus two ways to lose it, and the retry is a
  replay, which does not publish. Retention between the commit and the read ends the handler with "not found"
  (`CaseTheorems.PublicationCanBeLost`, a schedule for every valid create), and is the only way when nothing
  disturbs the handler (`CaseOutcomes.LostOnlyByRetention`). A cancelled request, a failed query or a restart loses
  it although the case lives on (`CaseOutcomes.CancelledIsLost`).
- `execute` limits a response to 64 KiB, but the codec that writes it refuses more than 20 KiB.
  `Frames.SendableIff` says exactly which case lists are therefore never delivered and end the connection, and
  `Frames.AcceptedButUnsendable` that a tenant whose list outgrows the smaller limit passes through them.
- `scripts/sops-entrypoint.sh:43-44` says that splitting at the first `=` keeps base64 intact. POSIX `read` drops a
  final separator when it is the only one in the value; `Entrypoint.ReadSplitsAtFirstEquals` is the exact
  condition and `Entrypoint.SinglePaddingIsLost` an instance.
- `scripts/sops-entrypoint.sh:44-45` says that variables of the container environment win. The loop's own `key`,
  `value` and `secrets` overwrite container variables of those names; `Entrypoint.ContainerValueWinsIff` is the
  exact condition and `Entrypoint.ContainerKeyIsLost` an instance.
- `authorize_token` admits non-ASCII tokens and builds a header from them, which then cannot be read back: they
  end as unauthorized (`Auth.BearerRoundTrip`).

## Model

| member | source | states |
|---|---|---|
| `CaseStore.HashInputInjective` | src/cases.rs:395-399 | the digested tuples of any two different operations differ, transition and rotation of one case included |
| `CaseStore.NamesRoundTrip` | src/cases.rs:418-460 | every status and retention class is read back from the text it is stored as |
| `CaseStore.ProcedureKeepsConsistent` | src/cases.rs:157-277 | every stored-procedure call, whatever its outcome, keeps the store consistent (dense event versions, decodable rows, keys that name real events) and loses or alters nothing recorded |
| `CaseStore.AppendKeepsVersionsDense` | src/cases.rs:198-231 | writing the next version with its event keeps each case's event versions exactly 1 to n, each once |
| `CaseStore.RetainKeepsConsistent` | src/cases.rs:279-291 | a retention step, with or without an event of its own, keeps the store consistent and loses nothing recorded |
| `CaseStore.HoldKeepsConsistent` | tests/postgres_cases.rs:329-334 | an operator setting or clearing a legal hold keeps the store consistent |
| `CaseInvariant.StepInv` | src/cases.rs:157-339 | every step of handlers, retention, operators, sockets and restarts keeps the invariant linking store, handlers, commits, publications and sockets |
| `CaseInvariant.Reachable` | src/main.rs:344-423 | the invariant holds after every sequence of actions |
| `CaseInvariant.LinkedEvent` | src/cases.rs:309-315 | a row returned to a handler, fresh or replayed, names a recorded event of its case, in the case's tenant and not past its version |
| `CaseInvariant.EventReadNeverMisses` | src/cases.rs:317-325 | once the case was read back, the tenant-scoped event read always finds its row, whatever happened in between |
| `CaseInvariant.EnvelopeOk` | src/main.rs:417-423 | a published envelope agrees with its receipt on tenant and case, and the receipt repeats the committed event field by field: tenant, case, version, type, time and hash |
| `CaseTheorems.RunsGrow` | src/cases.rs:157-339 | over any continuation of any run, committed events, keys, publications and what handlers learned are kept unchanged; versions and key versions only grow; tombstones stay |
| `CaseTheorems.ResultsAgree` | src/cases.rs:309-339 | every successful mutation result has one case and its event, both in the caller's tenant, the case at least as new as the event, and a receipt that repeats the recorded event field by field; if it is not a replay, the event has the request's time, the type of its operation, its case and the version after the expected one |
| `CaseTheorems.ReadsDecode` | src/cases.rs:125-138 | in every run a read succeeds exactly when the case is visible to the tenant, fails only as not found, and returns a case of that tenant |
| `CaseTheorems.CommitEffect` | src/cases.rs:353-393 | for every store, decoding the row after a commit gives the requested change to what decoding gave before, and no other case changes; the change itself is the assumed procedure's, so what is proved is that columns and decoding lose and mix up nothing |
| `CaseTheorems.CommitsReadBack` | src/cases.rs:172-195 | the same in every run, under the assumed procedures: a commit happens only at the expected version of a visible case, the next read shows exactly the requested change, every other case is untouched, and one event and one key are added |
| `CaseTheorems.OnlyCommitsWrite` | src/cases.rs:462-484 | a mutation that does not commit leaves the whole store as it was |
| `CaseTheorems.EffectsArePermitted` | src/cases.rs:401-416 | no request obtains a row unless its role, its idempotency key, its expected version and its command pass the service's checks |
| `CaseTheorems.PublishedAtMostOnce` | src/main.rs:344-423 | in every run no event is published twice, every published event was committed, and exactly one handler published it |
| `CaseTheorems.PublishedIffAnswered` | src/main.rs:356-361 | a committed event has been published if and only if the handler that committed it has answered |
| `CaseTheorems.StoppedNeverPublishes` | src/main.rs:365-389 | a committed event whose handler failed or was lost is never published later, not by a retry and not after a restart |
| `CaseOutcomes.PublishedUnlessTombstoned` | src/cases.rs:316-325 | a committed mutation that takes its three remaining steps, with anything interleaved that does not stop it, publishes its event if and only if its case is not tombstoned at the moment of the first |
| `CaseOutcomes.PublishedIffReadBack` | src/main.rs:344-423 | over every run, the event of a committed mutation is published if and only if the run contains its read-back of an untombstoned case, then its event read with no failing query in between, then its publication with no cancellation or restart before it |
| `CaseOutcomes.LostOnlyByRetention` | src/cases.rs:309-339 | in every run that neither cancels nor breaks it, a committed mutation is never abandoned and fails only as not found and only if its case is tombstoned |
| `CaseOutcomes.CancelledIsLost` | src/main.rs:352-361 | for every valid create, a cancellation, failed query or restart right after the commit loses the publication in every continuation, although the case is not tombstoned |
| `CaseOutcomes.FailuresAreExplained` | src/cases.rs:462-484 | every failed mutation has an error, and in the state where it failed the error was true: of the caller's role or command, of the case as the tenant reads it (missing, another version, closed to the change, newer key), of another operation committed under the key, or of a failed query; an undecodable row or a missing event is never met |
| `CaseOutcomes.UsedVersionsAreRefused` | tests/postgres_cases.rs:204-208 | in every run a mutation under a fresh key that expects a version some commit has used, or an older one, changes nothing and is refused, as not found if the case (or its document) cannot be read and as stale otherwise |
| `CaseTheorems.PublicationCanBeLost` | src/main.rs:352-361 | for every valid create there is a schedule in which the event is committed, the caller gets not found and nothing is published |
| `CaseTheorems.OneEffectPerKey` | src/cases.rs:157-277 | all calls under one key that got a row got the same case, version, event and hash, at most one of them committed, and under a collision-free digest they asked for the same operation |
| `CaseTheorems.ExactlyOneCommit` | tests/postgres_cases.rs:151-169 | every remembered key was committed by exactly one handler |
| `CaseTheorems.RetryReplays` | src/cases.rs:172-195 | a retry of a request that got a row gets that row again marked replayed, and the store does not change |
| `CaseTheorems.ReusedKeyConflicts` | tests/postgres_cases.rs:171-182 | a different operation under a used key fails with an idempotency conflict, and neither store nor publications change |
| `CaseTheorems.EventsNumberVersions` | src/cases.rs:198-277 | in every reachable store a case's events carry version v if and only if 1 <= v <= the row's version, one event each |
| `CaseTheorems.RacesHaveOneWinner` | tests/postgres_cases.rs:184-208 | of any number of mutations with the same expected version of a case at most one commits |
| `CaseTheorems.RotationsIncreaseKeyVersion` | src/cases.rs:233-277 | of two committed rotations of a case, one has the smaller case version if and only if it has the smaller key version, and they never tie |
| `CaseTheorems.SocketsReceiveTheirEvents` | src/main.rs:507-540 | each socket is sent an order-preserving, duplicate-free part of the publications, every receipt itself in the subscribed tenant and case, and if it missed nothing exactly the passed events of its tenant and, if it named one, its case |
| `CaseDelivery.OpenSocketsSeeEveryPublication` | src/main.rs:417-423 | in every run without a restart the channel holds for an open socket everything published since it connected, in order |
| `CaseDelivery.CaughtUpSocketsHaveEverything` | src/main.rs:488-540 | a socket that is open, has read everything and missed nothing was sent an event if and only if it was published since the socket connected, in its tenant and, if it named one, its case |
| `CaseRetention.HeldCasesAreKept` | tests/postgres_cases.rs:329-359 | in every continuation that does not lift it, a held case stays held and is never tombstoned |
| `CaseRetention.TombstonesAreDue` | src/cases.rs:279-291 | every tombstone was made by a sweep at a time when the case was due and not held, and carries that time |
| `CaseRetention.SweepTakesDueCase` | tests/postgres_cases.rs:335-349 | a sweep of a due case makes it unreadable in every tenant, drops its document reference, and changes no other case and no key |
| `Fanout.FilterAllows` | src/main.rs:535-540 | the filter keeps an event if and only if it was published, is of the subscribed tenant and, when the subscription names a case, of that case |
| `Fanout.FilterKeepsAll` | src/main.rs:535-540 | a subscription that wants every event of a log keeps the log as it is |
| `Fanout.FilterSubsequence` | src/main.rs:535-540 | the filter keeps the published order |
| `Fanout.PollKeepsSocketOk` | src/main.rs:515-522 | each receive, lag and failed write included, keeps received plus skipped equal to cursor advance, delivery an ordered part of the filtered window, and the shortfall equal to what was missed |
| `Fanout.DriveKeepsSocketOk` | src/main.rs:513-532 | the same over any number of turns of the loop with publications in between |
| `Fanout.ExactUnlessMissed` | src/main.rs:514-522 | what was sent is the whole filtered window if and only if nothing wanted was missed, always so without lag and write failure; the client then has exactly the passed events of its tenant and case, all of them in order if it wants them all |
| `Fanout.NothingSkippedIffKeepsUp` | src/main.rs:513-522 | over any run of the loop nothing is skipped if and only if the receiver is never more than 256 events behind when it reads |
| `Fanout.KeepingUpIsExact` | src/main.rs:513-532 | a socket that keeps up and whose writes succeed has been sent an event if and only if it passed since the subscription, in its tenant and, if it named one, its case |
| `Fanout.SmallBurstsKeepUp` | src/main.rs:92 | a socket during whose life at most 256 events are published keeps up, however late it reads |
| `Fanout.LagKeepsTheRest` | src/main.rs:520 | a receiver that has fallen behind is moved to the oldest of the last 256 events, and the next 256 receives send it exactly those of them that it wants |
| `Fanout.DeliveredFromLog` | src/main.rs:515-520 | what a socket sends was published, is allowed by its subscription and keeps the published order |
| `Fanout.Channel.constructor` | src/main.rs:92 | a new channel is a valid empty ring of 256 slots with no receiver |
| `Fanout.Channel.Send` | src/main.rs:417-423 | with a receiver the event is appended to the history, without one nothing changes, and the ring holds the last 256 events of the history |
| `Fanout.Channel.Subscribe` | src/main.rs:503-504 | a new receiver starts at the end of the history |
| `Fanout.Channel.Unsubscribe` | src/main.rs:507-533 | a socket task that ends gives its receiver up |
| `Fanout.Channel.Recv` | src/main.rs:515 | reading one slot of the ring refines receiving from the whole history, with the exact number skipped |
| `Fanout.SocketLoop` | src/main.rs:507-533 | the loop on the ring sends exactly what the loop on histories sends, stops exactly when that closes, returns its receiver, keeps the delivery guarantee, and without lag or write failure sends exactly the events of the subscribed tenant and case |
| `Uuids.PrintInjective` | src/transport.rs:493-498 | distinct ids have distinct hyphenated forms |
| `Uuids.PrintRoundTrip` | src/transport.rs:493-498 | the text has hyphens in the four places of section 4 of RFC 9562, and reading its five hexadecimal groups gives the id back |
| `Uuids.NilText` | src/transport.rs:187 | the nil id is thirty-two zeros in their groups (section 5.9 of RFC 9562) |
| `Uuids.PrintAlphabet` | src/transport.rs:493-498 | the hyphenated form has only hexadecimal digits and hyphens, so it is one subject token |
| `Routing.ResponseSubjectMatches` | src/transport.rs:493-498 | every response subject matches the single-token wildcard subject |
| `Routing.ValidStreamOwnsEveryResponse` | src/transport.rs:544-570 | a response stream that passes validation owns the subject of every possible response |
| `Routing.RoutingInjective` | src/transport.rs:493-498 | distinct operation ids have distinct subjects and distinct message ids |
| `Routing.ResponseFits` | src/transport.rs:481-492 | the status response is never larger than the limit, so the size check never fails |
| `Routing.PayloadText` | src/transport.rs:481-488 | the response body on the wire, with the operation id at its place |
| `JetStream.DecodedIffWellFormed` | src/transport.rs:512-521 | a payload is decoded to an operation id if and only if it has at most 4096 bytes and parses to a request with the schema of this protocol and that id |
| `JetStreamProofs.StepInv` | src/transport.rs:451-509 | every step of producers, broker, network and worker, crashes included, keeps the invariant |
| `JetStreamProofs.Reachable` | src/transport.rs:451-509 | the invariant holds after every sequence of actions |
| `JetStreamProofs.DuplicateIsStored` | src/transport.rs:493-503 | when the broker drops a response as a duplicate, that operation's response is already stored |
| `JetStreamProofs.AckedOnlyAfterResponse` | src/transport.rs:473-509 | a request is acknowledged only if it is well-formed and a message with the subject, message id and body that answer its operation id is already stored |
| `JetStreamProofs.TerminatedOnlyIfUndecodable` | src/transport.rs:474-480 | no well-formed request is ever terminated |
| `JetStreamProofs.ResponsesConverge` | src/transport.rs:481-503 | every stored response answers a well-formed submitted request, all responses of one operation are equal, and two of them are at least one duplicate window apart |
| `JetStreamProofs.RequestsConserved` | src/transport.rs:451-471 | every submitted request is in exactly one of pending, in flight, acked, terminated and exhausted, the five counts add up, and in flight stays within the limit |
| `JetStreamProofs.InternalStepsDecrease` | src/transport.rs:451-509 | every step of broker, network and worker strictly decreases a natural-number measure |
| `JetStreamProofs.InternalStepsBounded` | src/transport.rs:572-599 | a run with n requests has at most 8 times max_deliver times n such steps, less what is still to do |
| `JetStreamProofs.DeliveriesBounded` | src/transport.rs:590-593 | deliveries are at most max_deliver times the number of requests |
| `JetStreamProofs.QuiescentIsSettled` | src/transport.rs:451-509 | when nothing more can happen, every well-formed request is acked or out of deliveries and every malformed one terminated or out of deliveries |
| `JetStreamProofs.UndisturbedIsAcked` | src/transport.rs:493-508 | in every run a delivery of a well-formed request that is not disturbed ends with the request acked, also when its response was already stored |
| `JetStreamProofs.MalformedIsTerminated` | src/transport.rs:474-480 | in every run an undisturbed delivery of a malformed request ends with the request terminated |
| `Auth.BearerRoundTrip` | src/auth.rs:127-135 | for every admitted token, building the header succeeds and reading it back gives exactly that token if it is ASCII and nothing otherwise, never a changed token |
| `Auth.BearerReads` | src/auth.rs:127-135 | for any header with the scheme, the token read is the text behind it without surrounding whitespace, and there is none if that is empty or the header is not readable text |
| `Auth.PlainIff` | src/main.rs:452-458 | the tokens that pass the checks and can be read back are exactly those of 1 to 16384 visible ASCII characters |
| `Auth.ValidatedIffAgrees` | src/auth.rs:144-175 | a subject is returned if and only if guard identity and introspection agree on user, session, issuer, audience, lifetime and all scopes |
| `Auth.SubjectIffVouched` | src/main.rs:446-469 | a presented token yields a subject if and only if it is 1 to 16384 visible ASCII characters and both authorities vouched for exactly that token |
| `Auth.FailureIff` | src/auth.rs:84-116 | exactly which answers of the authorities make the outcome forbidden and which make it degraded; every other refusal is unauthorized |
| `Frames.BodySizes` | src/transport.rs:206-225 | the exact length of every success and failure body |
| `Frames.ResponsesRead` | src/transport.rs:206-225 | a client reads back from every success the request id and the cases, and from every failure the request id and the error code |
| `Frames.CodeRoundTrip` | src/main.rs:549-560 | every error code is read back from its text |
| `Frames.ExecuteCarriesId` | src/transport.rs:185-215 | every response carries the id of its request at a fixed place, or the nil id |
| `Frames.ExecuteTellsApart` | src/transport.rs:206-225 | equal responses answer requests with the same id |
| `Frames.ListCons` | src/transport.rs:201-202 | the case list is a JSON array of its rows in order |
| `Frames.ExecuteBounded` | src/transport.rs:174-177 | every response is non-empty and within 64 KiB, so the length check never fires |
| `Frames.SendableIff` | src/transport.rs:160-180 | exactly which responses the codec can write: all but case lists of more than 20365 and at most 65421 bytes |
| `Frames.PassesBetween` | src/transport.rs:160-180 | a list that grows case by case past the smaller limit is at some time between the two |
| `Frames.AcceptedButUnsendable` | src/transport.rs:200-214 | for every request and every case list that outgrows what can be written, with no case over 45055 bytes, the list of some number of the oldest cases is one that `execute` answers with "ok" and the codec refuses |
| `Frames.ServeConnection` | src/transport.rs:155-183 | response k answers turn k; the loop stops at the budget or at the first turn that is not written; frames read exceed responses written by one exactly when a frame was read and not answered; the connection ends well exactly at the budget or the end of stream |
| `FrameServer.StepInv` | src/transport.rs:125-215 | every step of server, connections and outside world keeps the invariant |
| `FrameServer.Reachable` | src/transport.rs:125-215 | the invariant holds after every sequence of actions |
| `FrameServer.PermitsConserved` | src/transport.rs:125-152 | free permits plus live connections is the configured maximum, and every accepted connection holds or has returned exactly one permit |
| `FrameServer.ServedIffNotFull` | src/transport.rs:132-136 | a new connection is served if and only if fewer than the maximum are live |
| `FrameServer.FramesInLockstep` | src/transport.rs:155-183 | on every connection frames read minus responses written is 0 or 1, reads stay within the budget, a connection that has used it up is not kept, and response k has request k's id in its text, or the nil id if it was undecodable, and is made after frame k and before frame k + 1 is read |
| `FrameServer.AnswersAreExecuted` | src/transport.rs:173-180 | every response written is `execute` of its own frame on an outcome that the outside world gave between reading and answering, and fits the codec |
| `FrameServer.RefusedWritesAreLongLists` | src/transport.rs:178-180 | a connection ended by the codec had a request that passed every check and a list between the two limits |
| `FrameServer.OkResponsesAreFresh` | src/transport.rs:185-215 | every response that a client reads as a success was preceded within its own frame, in order, by a passed guard check, a passed introspection of its token and a passed membership check, and gives the client the request's id and the list of its tenant as it was when answered |
| `FrameServer.RefusalsAreJustified` | src/transport.rs:185-225 | every other response is read by a client as the refusal of its own request, with a code that reports something that was so, of that request, at the moment of the answer |
| `FrameServer.QuietFramesAnswered` | src/transport.rs:185-215 | in every run a frame that is read and checked while the outside world stands still gets `execute` of the outcome that authorisation, membership and listing have at that moment |
| `FrameServer.ListedIffVouched` | src/transport.rs:189-205 | that outcome is the tenant's list if and only if both authorities vouch for the token, the subject is a member and the list can be read |
| `FrameServer.RevokedSessionsAreRefused` | src/transport.rs:189-199 | a frame read after its session was revoked is never answered "ok", on an old connection too |
| `Origins.FaultIffNotOrigin` | src/main.rs:260-289 | a candidate passes the checks if and only if it is a scheme and a non-empty authority without path, query or fragment (section 6.2 of RFC 6454) and a legal header value |
| `Origins.CandidatesShape` | src/main.rs:244-248 | candidates are non-empty, trimmed and free of commas |
| `Origins.CandidatesConcat` | src/main.rs:244-248 | a comma divides the candidates: those of the joined text are those of its parts, in order |
| `Origins.CandidateOfField` | src/main.rs:246-247 | a comma-free field with any whitespace around it is one candidate without that whitespace, and whitespace alone is none |
| `Origins.SpacedList` | src/main.rs:243-293 | two origins separated by a comma and a space are two candidates |
| `Origins.CheckedIff` | src/main.rs:258-292 | the list is accepted if and only if every candidate is an origin, and then it is the candidates in order |
| `Origins.CheckedError` | src/main.rs:259-290 | the error is that of the first candidate at fault |
| `Origins.ParseAllowedOrigins` | src/main.rs:243-293 | the loop succeeds if and only if there is a candidate and all are origins, returns the candidates in order, and otherwise the first error |
| `Origins.OriginsRoundTrip` | src/main.rs:243-293 | joining an accepted list with commas and parsing it again returns the same list |
| `Text.SplitJoin` | src/main.rs:245 | splitting a join of separator-free fields gives the fields back |
| `Text.SplitAppend` | src/main.rs:245 | a separator divides the fields of a text |
| `Text.TrimPadded` | src/main.rs:246 | trimming takes whitespace off both ends, all of it and nothing else |
| `Text.ByteLengthIsUtf8` | src/cases.rs:402 | the length that the limits compare is that of the UTF-8 encoding (section 3 of RFC 3629) |
| `Text.HeaderValueBytes` | src/main.rs:460-461 | a text is a legal header value if and only if every byte of its UTF-8 encoding is a tab or at least 32 and not 127 |
| `Entrypoint.ReadSplitsAtFirstEquals` | scripts/sops-entrypoint.sh:46 | `read` gives the text before and after the first `=`, except that a value whose only `=` is its last character loses it, and only then |
| `Entrypoint.SinglePaddingIsLost` | scripts/sops-entrypoint.sh:42-46 | a concrete base64 value that loses its padding |
| `Entrypoint.FirstOfferIsFirst` | scripts/sops-entrypoint.sh:46-53 | a name is offered if and only if it is valid and some line has it, and the offered value is that of the first such line |
| `Entrypoint.ValidNameIff` | scripts/sops-entrypoint.sh:47-50 | the names let through are those of a letter or underscore followed by letters, digits and underscores, except those that start with sops_ |
| `Entrypoint.Shell.MergeSecrets` | scripts/sops-entrypoint.sh:37-57 | for every text and every starting environment, the final value and export state of every name: kept if set, else the first valid offer, with `key`, `value` and `secrets` counted as set and left empty or unset |
| `Entrypoint.MergeIdempotent` | scripts/sops-entrypoint.sh:46-57 | merging again changes nothing |
| `Entrypoint.ContainerValueWinsIff` | scripts/sops-entrypoint.sh:44-53 | exactly when a container variable keeps its value |
| `Entrypoint.ContainerKeyIsLost` | scripts/sops-entrypoint.sh:46-57 | a container variable `key` reaches the application empty, whatever the secrets |
| `Entrypoint.SecretExportedIff` | scripts/sops-entrypoint.sh:51-53 | a secret reaches the application if and only if its name is such a name, is neither set nor one of the shell's own three, and its line is the first with that name |

## Left out

- The SQL bodies of the stored procedures, and with them the audit chains and their verifiers: nothing is claimed
  about tamper evidence or about who may write the tables directly.
- The status graph, `CreateCaseCommand::validate` and `EncryptedObjectReference::validate`: parameters.
- Database rows with a status or retention text the service did not write, and the text of database messages: rows
  hold the parsed values and the procedures answer with the mapped errors.
- Integer widths of versions and key versions: they are unbounded, and nothing in the source wraps them around.
- Several API processes on one database: handlers of one process interleave freely, but there is one channel.
- `list_cases` over HTTP, the access record that `get_case` writes and the role lookup of `tenant_context`: a request
  enters the model with its tenant and role already established, and reads are modelled one case at a time.
- Serialization of a case to JSON: the frame server takes each serialized case as bytes and models the array
  around them; only lengths and places matter there. The field order of the request commands in the digested tuple is assumed.
- Eviction from the response stream by its own limits, and redelivery delays.
- TLS and NATS connection set-up, key verification, the introspection call and environment parsing: they are
  parameters or absent.
- Liveness that depends on time, such as a TLS handshake that never ends: the code gives no bound.
- Locale-dependent pattern matching in the shell, and NUL bytes in the decrypted text.
- HTTP routing, logging, health and metrics.
