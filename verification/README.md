# Agent control system: verified models

This project models the parts of an agent control system that are hard to get right by reading: a
gateway that multiplexes many MCP clients over one tool executor and issues OAuth tokens for it, a
harness that runs metered model orchestrations and leaves evidence behind, and the schedulers and
caches of its operator console. Each part is a model of the code as it stands, with the properties
its design promises proved for every input, every run and every interleaving. Check it with
`dafny verify dfyconfig.toml`.

## The parts

**The MCP multiplexer** (`BridgeState`, `BridgeInvariant`, `BridgeSafety`, `BridgeCalls`,
`BridgeService`, `BridgeReplies`, `BridgeProcess`). Many HTTP sessions share one stdio executor. The
bridge rewrites JSON-RPC ids (sections 4 and 5 of JSON-RPC 2.0), serialises `initialize`, expires slow
ones, fails closed on routing faults, respawns the executor and reports governed calls. `BridgeState` gives the effect of every handler segment
between two awaits as a step of a transition system; `BridgeInvariant` and `BridgeSafety` prove one
inductive invariant over all interleavings and read the guarantees off it. `BridgeCalls` and
`BridgeReplies` say from the events of a run alone what goes over the wire, what is reported and what
the clients are told, and `BridgeService` that nothing a client asks is swallowed. `BridgeProcess` is the
object with the tables. Each of its handlers may be called whenever its event is enabled, updates the
tables in place, takes exactly that step and keeps the invariant; `Serve` runs any sequence of events
on a new object and ends in a reachable state, so what is proved of runs holds of the object.

**The OAuth token store** (`AtomicJson`, `TokenState`, `TokenSafety`, `TokenTheorems`,
`TokenRequests`, `TokenChains`, `TokenServer`). Authorization codes with PKCE (section 4.6 of RFC
7636), strict refresh rotation (section 6 of RFC 6749), resource binding (section 2 of RFC 8707), two
lanes, and a tokens file that is replaced through a temporary file. A run may fail or crash at every save; `AtomicJson` shows that a
crash inside a save, with short writes and unflushed data lost, leaves one of the two documents.
`TokenRequests` says for every caller exactly when a request is answered and with what. `TokenServer`
is the object, related to its transition system as the bridge is.

**Metered orchestration** (`Sorting`, `Texts`, `Routing`, `Cost`, `Provider`, `Sums`, `Orchestration`,
`OrchestrationEvidence`, `OrchestrationTheorems`, `OrchestrationWitnesses`, `FanOutTheorems`,
`BudgetTheorems`, `MeterTheorems`, `OrchestrationAnswers`, `FanOutAnswers`, `OrchestrationAudit`,
`OrchestrationProcess`). A run meter enforces spend, token and time caps over three patterns, one of
them with concurrent workers finishing in any order. A checker written separately re-derives everything
from the log. The producer is proved to satisfy the checker; what a run returns is proved to be what the
replies spelled out, and what the checker accepts to be what is true of the calls.

**The maker-verifier loop** (`MakerVerifier`, `MakerVerifierEvidence`, `MakerVerifierTheorems`,
`MakerVerifierAnswers`, `MakerVerifierAudit`, `MakerVerifierProcess`). The same shape, with escalation to
a stronger model when the normalised failure set repeats.

**Schedulers and caches** (`Dashboard`, `Timeline`, `ClientInfoCache`, `Limits`). Each agrees with a
simple specification over every run.

## How to read the model

- JavaScript runs to completion between awaits, so one event is one such segment. Replies of other
  programs, the order in which promises settle, clock readings and random ids are inputs of the steps.
- Random ids are fresh. Only tokens this server signed verify, and a PKCE proof is the challenge it
  hashes to. Identifiers and challenges of the multiplexer are numbers: only equality matters.
- Where the source throws before it has changed anything, the model returns `None` or a failure.
- USD amounts are reals, so the validators' tolerance of 1e-9 is kept but never needed.
- Multiplexer: the SDK admits one `initialize` per session and `upstream.send` succeeds or fails at
  the call. The executor cannot name an id it was not sent, but it may answer twice or invent ids.
  `failClosed` leaves the pending maps of the sessions it closes as they are, so the inverse-table
  property ranges over open sessions. A late answer for a closed session is an orphan and fails
  every session closed; the model does the same.
- Token store: the error text for an unknown code says "unknown or expired", but expiry of codes is
  enforced only by the periodic sweep, so redemption itself does not look at `exp`. No code sets
  `revoked`; the classification still honours it.
- `localeCompare` is an arbitrary key function the texts are compared by, so a locale may equate distinct
  texts; producer and checker run in the same locale.
- The text roles of calls (`worker:<id>`, `maker:<n>`, ...) are constructors, and the JSON text of a
  normalised failure set is the list it encodes: both encodings are injective.

## Model

| member | source | states |
|---|---|---|
| BridgeSafety.StepKeeps | apps/dc-mcp-gateway/bridge.js:439-768 | every handler segment, in any state that satisfies it, keeps the coupling invariant of routes, pending maps, expired ids, the initialize chain, suspended handlers and history |
| BridgeSafety.RunKeeps | apps/dc-mcp-gateway/bridge.js:439-822 | every finite interleaving of events keeps the invariant |
| BridgeSafety.TablesAreInverse | apps/dc-mcp-gateway/bridge.js:528-535 | after any run, `routes` and the pending maps of open sessions are mutually inverse, and a closed session owns no route |
| BridgeSafety.ExpiredIdsAreBounded | apps/dc-mcp-gateway/bridge.js:561-567 | the expired ids of a pair are distinct, at most 256, and disjoint from the routes |
| BridgeSafety.RepliesMatchRequests | apps/dc-mcp-gateway/bridge.js:681-756 | whatever a session is sent under an id it asked for under that id, an answer is the executor's response to that very request, and no request is replied to twice, so never by both a timeout and an answer, even when clients reuse ids |
| BridgeSafety.OneInitializeAtATime | apps/dc-mcp-gateway/bridge.js:523-593 | at any time at most one initialize is routed |
| BridgeSafety.NothingPrecedesAcceptance | apps/dc-mcp-gateway/bridge.js:603-619 | every message to an executor comes from a session of that executor generation; a message other than initialize follows the acceptance of that session's own initialize, in managed mode with the challenge issued for it echoed |
| BridgeSafety.OnlyFailedDeliveriesLose | apps/dc-mcp-gateway/bridge.js:741-747 | the only event that leaves a governed call unreported for good is the failed delivery of its response |
| BridgeSafety.RoutedSessionsAreOpen | apps/dc-mcp-gateway/bridge.js:687-692 | a routed session is open and belongs to the current executor, so the closed-session response branch is never taken |
| BridgeCalls.MessagesAreConserved | apps/dc-mcp-gateway/bridge.js:596-615 | over any run the messages taken in from open sessions are, each as often, those still waiting and those forwarding resumed with |
| BridgeCalls.WireIsTheCalls | apps/dc-mcp-gateway/bridge.js:523-656 | from start-up, over any run, the ids in use are those of the calls the clients made, each marked as its client marked it, and the wire carries exactly the initializes whose turn came and the notifications and fresh requests of sessions that may speak, in the order their forwarding resumed |
| BridgeCalls.RequestIsForwarded | apps/dc-mcp-gateway/bridge.js:616-656 | a request resumed on a session that may speak, with its id not in use, is routed back to its client as it marked it; if the send fails it leaves only a fault and, if governed, its report; on any other session it is dropped |
| BridgeCalls.GovernedCallsAreReported | apps/dc-mcp-gateway/bridge.js:630-655 | from start-up, over any run, a call the client marked as governed is reported at most once, and exactly once when it is neither routed nor suspended, unless its delivery failed; any other call is never reported |
| BridgeCalls.SessionIsClosedExactlyWhen | apps/dc-mcp-gateway/bridge.js:439-822 | an event closes an open session exactly when its client closes it, its initialize timed out, or the event is one of the listed faults of its executor, which close every session of that executor |
| BridgeCalls.ExecutorsAreReplaced | apps/dc-mcp-gateway/bridge.js:762-768 | over any run a new executor is started for each that closes while in use, and none once the bridge is told to stop |
| BridgeService.NoCallIsSwallowed | apps/dc-mcp-gateway/bridge.js:461-822 | after any run without an unhandled fault, whatever an open session called is queued, routed, suspended in a handler or replied to; an unresolved initialize is still in hand; an answered one has opened its session |
| BridgeReplies.RepliesAreTheAnswers | apps/dc-mcp-gateway/bridge.js:484-756 | from start-up, over any run, the clients are told exactly, in this order, the executor's answers to routed requests that echo the challenge they must, and an error for each challenge that cannot be had, failed bootstrap, timed-out initialize and mismatched identity |
| BridgeReplies.LateAnswerIsDropped | apps/dc-mcp-gateway/bridge.js:556-567 | the first answer to an initialize that timed out, with fewer than 256 timeouts of that executor since, changes nothing but the list of expired ids, whatever has happened in between |
| BridgeProcess.Bridge.FailClosed | apps/dc-mcp-gateway/bridge.js:439-452 | the two loops report every governed call of the pair, close exactly its listed sessions, and empty its route table only |
| BridgeProcess.Bridge.DropPending | apps/dc-mcp-gateway/bridge.js:816-820 | the loop over the pending ids drops exactly the routes they name and reports the governed ones once each |
| BridgeProcess.Bridge.OnSessionClosed | apps/dc-mcp-gateway/bridge.js:812-822 | whenever a client may close, all routes of the session are dropped and reported and the session is closed: the event's step, with the invariant kept |
| BridgeProcess.Bridge.Trim | apps/dc-mcp-gateway/bridge.js:562-567 | the trimming loop keeps the newest 256 expired ids |
| BridgeProcess.Bridge.ForwardInitialize | apps/dc-mcp-gateway/bridge.js:461-521 | admission of an initialize, with the duplicate-id fault and the bootstrap branches, takes the event's step and keeps the invariant, whenever its event is enabled |
| BridgeProcess.Bridge.StartTurn | apps/dc-mcp-gateway/bridge.js:523-537 | the first segment of a turn of the initialize chain takes the event's step and keeps the invariant, whenever its event is enabled |
| BridgeProcess.Bridge.SendTurn | apps/dc-mcp-gateway/bridge.js:538-552 | sending an initialize, or undoing its route, takes the event's step and keeps the invariant, whenever its event is enabled |
| BridgeProcess.Bridge.EndTurn | apps/dc-mcp-gateway/bridge.js:584-592 | the decided race frees the chain for the next turn; the event's step, taken whenever it is enabled, with the invariant kept |
| BridgeProcess.Bridge.TimeOutInitialize | apps/dc-mcp-gateway/bridge.js:556-576 | the timeout races the answer on the route table, takes the event's step and keeps the invariant, whenever its event is enabled |
| BridgeProcess.Bridge.RouteRequest | apps/dc-mcp-gateway/bridge.js:627-655 | a failed send leaves the tables as if the request had never been routed, except for its report |
| BridgeProcess.Bridge.ResumeForward | apps/dc-mcp-gateway/bridge.js:616-656 | the rest of `forward`, with a fresh id, takes the event's step and keeps the invariant, whenever its event is enabled |
| BridgeProcess.Bridge.OnMessage | apps/dc-mcp-gateway/bridge.js:681-742 | an executor response, expired, orphaned, mismatched or deliverable, takes the event's step and keeps the invariant; under it the closed-session branch is dead |
| BridgeProcess.Bridge.OnServerRequest | apps/dc-mcp-gateway/bridge.js:757-758 | a request of the executor's own fails its pair closed; the event's step, taken whenever it is enabled, with the invariant kept |
| BridgeProcess.Bridge.Delivered | apps/dc-mcp-gateway/bridge.js:748-754 | a delivered response opens the session or reports the governed call; the event's step, taken whenever it is enabled, with the invariant kept |
| BridgeProcess.Bridge.Undeliverable | apps/dc-mcp-gateway/bridge.js:743-746 | an undeliverable response fails the pair closed without a report for its own call; the event's step, taken whenever it is enabled, with the invariant kept |
| BridgeProcess.Bridge.Arrive | apps/dc-mcp-gateway/bridge.js:596-615 | a message other than initialize is queued behind the session's initialize, or fails the pair closed; the event's step, taken whenever it is enabled, with the invariant kept |
| BridgeProcess.Bridge.BootstrapArrives | apps/dc-mcp-gateway/bridge.js:504-520 | the answer to the bridge's own bootstrap request arms the initialize with the challenge or refuses it; the event's step, taken whenever it is enabled, with the invariant kept |
| BridgeProcess.Bridge.BootstrapSettles | apps/dc-mcp-gateway/bridge.js:713-742 | a completed bootstrap delivers the executor's answer, a failed one an error; the event's step, taken whenever it is enabled, with the invariant kept |
| BridgeProcess.Bridge.ErrorSettles | apps/dc-mcp-gateway/bridge.js:577-579 | after an error to an initialize the waiting requests are released as refused, and a timed-out session is closed; the event's step, taken whenever it is enabled, with the invariant kept |
| BridgeProcess.Bridge.OnUpstreamClosed | apps/dc-mcp-gateway/bridge.js:762-768 | a lost executor leaves none of its sessions open, a new generation starts with empty tables, and the invariant is kept |
| BridgeProcess.Bridge.OnSessionOpened | apps/dc-mcp-gateway/bridge.js:804-811 | a new session joins the current executor and keeps the invariant |
| BridgeProcess.Bridge.OnForwardFailed | apps/dc-mcp-gateway/bridge.js:829-832 | a forward that threw fails the current pair closed; the event's step, taken whenever it is enabled, with the invariant kept |
| BridgeProcess.Bridge.Shutdown | apps/dc-mcp-gateway/bridge.js:1290-1298 | shutting down fails the current pair closed; the event's step, taken whenever it is enabled, with the invariant kept |
| BridgeProcess.Bridge.Drive | apps/dc-mcp-gateway/bridge.js:439-832 | the handlers, called for any run of events, end in the state that run reaches |
| BridgeProcess.Serve | apps/dc-mcp-gateway/bridge.js:439-832 | so a new bridge after any run is in a reachable state, of which all guarantees above hold |
| AtomicJson.Disk.WriteAll | apps/dc-mcp-gateway/atomic-json.js:14-19 | any sequence of short writes writes the whole buffer or fails on a write without progress, and never touches the target |
| AtomicJson.Disk.SaveJson | apps/dc-mcp-gateway/atomic-json.js:7-28 | at every moment the target is the complete old or the complete flushed new file; success means the new one, failure the old one; no other file changes |
| AtomicJson.CrashLeavesOldOrNew | apps/dc-mcp-gateway/atomic-json.js:7-28 | loading after a crash at any such moment yields the old or the new document |
| TokenSafety.StepKeeps | apps/dc-mcp-gateway/server.js:423-549 | every event, with every outcome of its saves, keeps the store invariant, and what is on disk only grows or is spent |
| TokenSafety.RunKeeps | apps/dc-mcp-gateway/server.js:423-549 | so does every run, with any failed saves and crashes |
| TokenTheorems.OneActivePerFamily | apps/dc-mcp-gateway/server.js:452-463 | on disk and in memory a family never has two active refresh tokens |
| TokenTheorems.ReturnedTokensAreKept | apps/dc-mcp-gateway/server.js:543-549 | a refresh token returned to a client is in every later snapshot, whatever fails or crashes later |
| TokenServer.SaveStore | apps/dc-mcp-gateway/atomic-json.js:7-28 | saving the store, for any encoding that reads back, ends as `Saved` or `Threw`, and a crash at any moment of it, with any unflushed part lost, restarts the server as `CrashedBefore` or `CrashedAfter`: no other outcome exists |
| TokenTheorems.AnsweredRefreshIsFinal | apps/dc-mcp-gateway/server.js:538-549 | a refresh answered with tokens is never accepted again and its record never changes again, over any later run |
| TokenTheorems.CodesAndTokensWorkOnce | apps/dc-mcp-gateway/server.js:495-549 | among any interleaved requests at most one succeeds per authorization code and at most one per refresh token |
| TokenTheorems.RefusedRefreshChangesNothing | apps/dc-mcp-gateway/server.js:538-542 | a refresh for another lane or resource is refused, and a refused refresh leaves the whole store unchanged |
| TokenTheorems.AcceptedBearerHasConsent | apps/dc-mcp-gateway/auth-health.js:28-56 | with distinct lanes, an access token accepted on a lane goes back, by its id, to a consent for exactly that lane's resource and issuer, client and scope; the code of that consent is spent and never redeemed again; the refresh token issued beside it goes back to the same code; the other lane refuses it |
| TokenTheorems.IssuedTokensHaveConsent | apps/dc-mcp-gateway/server.js:144-149 | every refresh record, after any number of rotations, has the client, scope, resource and issuer of one consent whose code is spent, and two records go back to the same code exactly when they are of one family |
| TokenTheorems.ConsentsAreKept | apps/dc-mcp-gateway/server.js:435-441 | over any later run the consent stays what it was and a spent code stays spent |
| TokenRequests.ConsentIsGivenExactlyWhen | apps/dc-mcp-gateway/server.js:433-441 | a consent is given a code exactly when there is a lane that is the one of the endpoint, has the resource asked for, or by default is the client's own; it is recorded for that lane, and a refused one changes nothing |
| TokenRequests.ConsentsComeFromRequests | apps/dc-mcp-gateway/server.js:433-441 | over any run every recorded consent is what some request of the run asked for |
| TokenRequests.CodeLeavesExactlyWhen | apps/dc-mcp-gateway/server.js:449-497 | a code lives, unchanged, until exactly its presentation, a sweep after its five minutes, or a restart |
| TokenRequests.CodeIsTakenExactlyWhen | apps/dc-mcp-gateway/server.js:495-502 | a presented code is taken up exactly when it is alive and presented on its own lane, and is gone in any case |
| TokenRequests.RedemptionIsAnsweredExactlyWhen | apps/dc-mcp-gateway/server.js:502-513 | in any reachable state a redemption is answered with tokens exactly when the client resolves, no other client is named, its secret if any is presented, redirect and PKCE challenge are those of the consent, no other resource is named, and the save succeeds |
| TokenRequests.RedemptionIssues | apps/dc-mcp-gateway/server.js:452-463 | an answered redemption hands out an hour of access for client, scope and lane of the consent and leaves exactly one new record, of thirty days and a new family, in memory and on disk |
| TokenRequests.TokensFollowConsent | apps/dc-mcp-gateway/server.js:423-513 | from start-up, tokens are handed out for a code only if an earlier request of the run was a consent given this code, with the challenge and redirect now proved, and for its client, scope and lane |
| TokenRequests.RefreshIsAnsweredExactlyWhen | apps/dc-mcp-gateway/server.js:515-549 | in any reachable state a refresh is answered with tokens exactly when its token is known, unused and unexpired, its client resolves or is a metadata document, no other client, lane or resource is named, its secret if any is presented, and both saves succeed |
| TokenRequests.RefreshIssues | apps/dc-mcp-gateway/server.js:543-549 | an answered refresh hands out access and a record with the same grant and family, spends and links the old record, and changes no other, in memory and on disk |
| TokenRequests.UntouchedTokenStays | apps/dc-mcp-gateway/server.js:452-463 | over any run, with any failed saves and crashes, a saved record whose token nobody presents stays as it is |
| TokenRequests.ReturnedRefreshWorks | apps/dc-mcp-gateway/server.js:515-549 | so a refresh token that was handed out works for thirty days, after any run in which nobody presented it |
| TokenRequests.BearerVerdict | apps/dc-mcp-gateway/auth-health.js:28-56 | a token of this server is accepted on the lane of its consent until it expires, is expired there afterwards, and has the wrong issuer on the other lane |
| TokenChains.FamiliesAreChains | apps/dc-mcp-gateway/server.js:538-547 | while saves succeed, the store on disk is the store in memory, cut into successor chains of distinct tokens with constant grant whose last element is the only active one |
| TokenChains.UsedTokenVerdict | apps/dc-mcp-gateway/auth-health.js:84-112 | then the verdict on any token for any caller: unknown exactly if it is not in the store; for strangers `client_mismatch` or `invalid_client`, in that order; for the client `refresh_expired`, accepted exactly if it is its family's tip, `refresh_reused` exactly if it immediately precedes the tip and was used more than 10 s ago, else `refresh_superseded`; never `revoked` |
| TokenServer.Server.HandleConsent | apps/dc-mcp-gateway/server.js:433-446 | consent records the grant under the chosen lane's resource and issuer, or refuses: the event's step, with the store invariant kept |
| TokenServer.Server.DeleteExpired | apps/dc-mcp-gateway/server.js:450 | the sweep loop deletes exactly the expired codes |
| TokenServer.Server.TakeCode | apps/dc-mcp-gateway/server.js:495-502 | a code is spent before the first await, also when its lane is refused; the store invariant is kept |
| TokenServer.Server.Redeem | apps/dc-mcp-gateway/server.js:503-513 | the rest of a redemption with fresh ids, check by check, takes the event's step, which is answered exactly as TokenRequests states, and keeps the store invariant for every outcome of its save |
| TokenServer.Server.ChooseRecord | apps/dc-mcp-gateway/server.js:517-542 | the chain of refusals of a refresh selects exactly the record the specification selects |
| TokenServer.Server.HandleRefresh | apps/dc-mcp-gateway/server.js:543-549 | spend, issue, save, link, save again takes the event's step and keeps the store invariant for every outcome of both saves |
| TokenServer.Server.Drive | apps/dc-mcp-gateway/server.js:423-549 | the handlers, called for any run of requests, failed saves and crashes, end in the state that run reaches |
| TokenServer.Serve | apps/dc-mcp-gateway/server.js:423-549 | so a new server after any run is in a reachable state, of which all guarantees above hold |
| Routing.RouteIsAvailable | harness/routing.ts:110-163 | a route is one of the available models, and Mythos is never assumed available |
| Routing.AvailabilityOrderIrrelevant | harness/routing.ts:143-158 | order and repetition in the availability list never affect the route |
| Routing.EscalationFailsExactlyWhen | harness/routing.ts:160-163 | a task with a base route has no escalated route exactly when it escalates to the hard tier and only Fable is available |
| Routing.RouteIsPreferred | harness/routing.ts:94-158 | a route is exactly the available model that stands highest in the preferences of the tier for class, attempt and last failure |
| Routing.UsualRoutes | harness/routing.ts:84-139 | the routes with the models everybody has: per class, after two failed verifications, a disagreement, a refusal and agreeing runs |
| Cost.ExactlyOnePrice | harness/cost.ts:68-78 | every registered model has exactly one, positive price on every calendar day |
| Cost.EstimateIsPositive | harness/cost.ts:80-95 | the estimate exists exactly for registered models and calendar days, and is positive |
| Cost.EstimateIsAdditive | harness/cost.ts:80-95 | two calls cost what one call with the tokens of both would |
| Cost.ListedPrices | harness/cost.ts:24-44 | a million tokens in and a million out cost what is listed for each model, with Sonnet's rise on 1 September 2026 |
| OrchestrationEvidence.CheckCalls | evals/orchestration-evidence.ts:59-80 | the accumulating pass accepts exactly the call lists that are in order and add up to the log, in the sense OrchestrationAudit spells out |
| OrchestrationEvidence.CheckRoles | evals/orchestration-evidence.ts:110-132 | the role check accepts exactly the role lists of the pattern |
| OrchestrationEvidence.CheckMode | evals/orchestration-evidence.ts:83-89 | the mode check accepts exactly free fixture runs or paid live runs |
| OrchestrationEvidence.CheckEvidence | evals/orchestration-evidence.ts:28-108 | the checker accepts exactly the valid evidence |
| OrchestrationAudit.AcceptedExactlyWhen | evals/orchestration-evidence.ts:28-132 | accepted evidence is exactly evidence whose description is complete, whose log is within the caps, whose calls are in order and in the places of the pattern, whose totals are the sums over the calls and whose models are those the calls used, of its mode, and ending as it says |
| OrchestrationAudit.TotalsFollowFromCalls | evals/orchestration-evidence.ts:59-80 | two accepted logs of the same calls claim the same cost up to rounding, the same usage and the same models |
| OrchestrationAudit.AlteredCallIsCaught | evals/orchestration-evidence.ts:59-80 | an accepted log with one call replaced is accepted only if the new call has the cost up to rounding, the usage and the place of the old one |
| OrchestrationAudit.DroppedCallIsCaughtUnless | evals/orchestration-evidence.ts:59-132 | an accepted log without one of its calls is accepted exactly if that was one of several workers, without tokens, cost that shows or a model of its own |
| OrchestrationAudit.RepeatedOrUnderstatedIsRefused | evals/orchestration-evidence.ts:74-76 | a repeated role, or predictions that add up to more than the predicted total, is refused |
| OrchestrationAudit.RelabelledIsRefused | evals/orchestration-evidence.ts:83-107 | accepted evidence is refused under the other mode and under the other ending |
| OrchestrationTheorems.InvokeKeeps | harness/orchestration-patterns.ts:378-422 | a call records at most one receipt, keeps totals equal to the sums over receipts, and returns normally only within the spend and token caps |
| MeterTheorems.CallIsRecordedExactlyWhen | harness/orchestration-patterns.ts:378-422 | a call is recorded exactly if money, tokens and time were below their caps before it and its reply is acceptable; it returns exactly if it is recorded, no refusal, and leaves all three within their caps |
| MeterTheorems.LoopStopsAtTheCap | harness/orchestration-patterns.ts:301-392 | over any loop each recorded call was made with cost and tokens before it below the caps, on a budget of exactly what they had left |
| MeterTheorems.AdversarialStopsAtTheCap | harness/orchestration-patterns.ts:226-392 | the same over any adversarial run |
| MeterTheorems.LoopStartsExactlyWhen | harness/orchestration-patterns.ts:301-314 | a loop gets a meter exactly if task, caps, iterations and rubric are in order and both plans can be priced |
| MeterTheorems.AdversarialStartsExactlyWhen | harness/orchestration-patterns.ts:226-237 | an adversarial run gets a meter exactly if task and caps are in order and its three plans can be priced |
| OrchestrationTheorems.LoopIsAccepted | harness/orchestration-patterns.ts:301-350 | a loop run with a meter logs exactly one entry equal to its receipts, a failed one with the code of what was thrown; it returns exactly when the entry is completed; finished evidence is accepted; after the iteration cap it is accepted exactly if the logged time is within the cap |
| OrchestrationTheorems.AdversarialIsAccepted | harness/orchestration-patterns.ts:226-299 | an adversarial run logs exactly one truthful entry; returned evidence is accepted; a completed entry comes with a result exactly when the judge filled in both texts |
| OrchestrationWitnesses.CompletedWithoutResult | harness/orchestration-patterns.ts:285-298 | for any caps of at least a dollar there is a run that throws although its entry says completed |
| OrchestrationWitnesses.LateGiveUpIsRefused | harness/orchestration-patterns.ts:342-349 | for any caps of at least a dollar there is a run that uses up its iterations in time, reads the clock late while failing, logs more time than the cap, and whose evidence is refused |
| FanOutTheorems.FanOutIsAccepted | harness/orchestration-patterns.ts:169-224 | for any workers, replies and finishing order: exactly one entry equal to all receipts ever recorded; it returns exactly when the entry is completed; the evidence is accepted |
| OrchestrationAnswers.LoopReturnsWhatPassed | harness/orchestration-patterns.ts:301-350 | a loop returns only a candidate its reply spelled out and the next reply passed, after a verdict quoting the rubric turned down each earlier one; it gives up only if all were turned down, calls malformed only the first iteration that does not read, and has a reason in account, clock or replies for any other failure |
| OrchestrationAnswers.ReadsVerdict | harness/orchestration-patterns.ts:520-534 | a verdict reads exactly if its text is the object with pass and failures spelled out, with failures exactly when it does not pass |
| OrchestrationAnswers.AdversarialReturnsWhatWasSaid | harness/orchestration-patterns.ts:226-299 | each text of an adversarial result is the one its own reply spelled out, the judge never sides with a critic who conceded, and a failed run has its reason |
| OrchestrationAnswers.CodeTellsWhy | harness/orchestration-patterns.ts:431-439 | the logged failure code is true: spend predicted or spent up to the cap, tokens or time up to theirs, a refusal, a reply that did not come |
| FanOutAnswers.FanOutReturnsWhatWasSaid | harness/orchestration-patterns.ts:169-224 | in any finishing order a fan-out returns, under each task in task order, what that task's worker spelled out, and the synthesis the synthesizer spelled out; a failed one has its reason |
| FanOutAnswers.ReadsSynthesis | harness/orchestration-patterns.ts:486-518 | a synthesis reads exactly if its text spells out all its parts, with each of the three barrier criteria passed once |
| BudgetTheorems.WorkersLeaveShare | harness/orchestration-patterns.ts:178-209 | if no call costs more than its budget, no spend check stops a worker, and the synthesizer keeps at least its proportional share, in every finishing order |
| BudgetTheorems.FanOutIsThrifty | harness/orchestration-patterns.ts:378-421 | then the whole fan-out stays within the cap, no spend check fires after the start, and the synthesizer's budget is at least its share |
| BudgetTheorems.LoopIsThrifty | harness/orchestration-patterns.ts:301-350 | a loop of such calls stays within the cap and the check after a call never fires |
| BudgetTheorems.AdversarialIsThrifty | harness/orchestration-patterns.ts:226-299 | an adversarial run of such calls stays within the cap and the check after a call never fires |
| BudgetTheorems.SharesAddUp | harness/orchestration-patterns.ts:632-634 | the proportional budgets of all workers and the synthesizer make up the cap |
| OrchestrationProcess.RunMeter.BeginCall | harness/orchestration-patterns.ts:386-392 | the checks before a call and the budget it is given |
| OrchestrationProcess.RunMeter.FinishCall | harness/orchestration-patterns.ts:402-421 | recording a reply and the checks after it |
| OrchestrationProcess.RunMeter.CompleteRun | harness/orchestration-patterns.ts:424-429 | completion writes the one entry or fails on a cap |
| OrchestrationProcess.RunMeter.FailRun | harness/orchestration-patterns.ts:431-439 | failing writes an entry only if none was written |
| OrchestrationProcess.StartWorkers | harness/orchestration-patterns.ts:186-195 | all workers begin, in task order, before any resumes |
| OrchestrationProcess.AwaitWorkers | harness/orchestration-patterns.ts:186-201 | all begun workers settle, in the given order |
| OrchestrationProcess.FindRejected | harness/orchestration-patterns.ts:202-205 | the failure thrown is that of the first rejected worker in task order |
| OrchestrationProcess.FanOutSynthesizeRun | harness/orchestration-patterns.ts:169-224 | the pattern, run on the meter object, produces the modelled run |
| OrchestrationProcess.AdversarialRun | harness/orchestration-patterns.ts:226-299 | the pattern, run on the meter object, produces the modelled run |
| OrchestrationProcess.CheckFailures | harness/orchestration-patterns.ts:562-577 | accepts exactly the failure lists that quote distinct criteria of the rubric with their expected values |
| OrchestrationProcess.LoopUntilDoneRun | harness/orchestration-patterns.ts:301-350 | the pattern's loop, run on the meter object, produces the modelled run |
| MakerVerifierEvidence.CheckReceipt | evals/maker-verifier-evidence.ts:191-224 | accepts exactly the receipts whose parts add up, or that are free fixtures without parts |
| MakerVerifierEvidence.CheckIteration | evals/maker-verifier-evidence.ts:74-100 | accepts exactly the well-formed iterations at their place in time |
| MakerVerifierEvidence.CheckEvidence | evals/maker-verifier-evidence.ts:46-129 | the checker accepts exactly the valid evidence |
| MakerVerifierAudit.AcceptedExactlyWhen | evals/maker-verifier-evidence.ts:46-129 | accepted evidence is exactly evidence that describes its task, tells every iteration in order and in time with receipts that add up, one result on each criterion, the failures of that verdict and their stable normal form, has the totals of the receipts, stopped for the reason it gives, and labels a seeded fault exactly if there is one |
| MakerVerifierAudit.TotalsFollowFromReceipts | evals/maker-verifier-evidence.ts:101-129 | two accepted traces of the same iterations have the same totals up to rounding, the same reason for stopping and a fault label or none alike |
| MakerVerifierAudit.VerdictFollowsFromResults | evals/maker-verifier-evidence.ts:94-100 | two accepted traces with the same results in an iteration have the same verdict, failures and normalised set there |
| MakerVerifierAudit.AlteredResultIsCaught | evals/maker-verifier-evidence.ts:94-100 | an accepted trace with one result replaced is accepted only if criterion and pass stay, and the observation of a failure |
| MakerVerifierAudit.IncompleteVerdictIsRefused | evals/maker-verifier-evidence.ts:154-165 | a verdict that leaves out, repeats or makes up a criterion is refused |
| MakerVerifierAudit.ShortenedTraceIsCaughtUnless | evals/maker-verifier-evidence.ts:100-129 | an accepted trace without its last iteration is accepted exactly if the one before had passed, the last was free and without tokens, and the fault label still fits |
| MakerVerifierTheorems.CriteriaHold | harness/maker-verifier.ts:418-447 | parsed verifier results are always a permutation of the rubric, as the checker demands |
| MakerVerifierTheorems.DerivationsAgree | evals/maker-verifier-evidence.ts:182-187 | the checker's own derivation, by rubric table, filter and map, yields the failures the producer reports |
| MakerVerifierTheorems.NormalizationsAgree | evals/maker-verifier-evidence.ts:248-262 | so does its normalisation of a failure set, in the same locale |
| MakerVerifierTheorems.TraceAcceptedExactlyWhen | harness/maker-verifier.ts:162-329 | the trace of a returned run is accepted exactly when every call was honestly reported (receipts add up, clock not backwards, durations fit) and the fault label fits |
| MakerVerifierAnswers.ReturnsTheLastOutput | harness/maker-verifier.ts:186-329 | a run returning after n iterations returns the output the maker spelled out in the n-th, passes exactly if the verifier passed every criterion on it and on none before, stops early only then, and returns the failures of the last verdict; its trace tells each iteration as it was said |
| MakerVerifierAnswers.ThrowsForAReason | harness/maker-verifier.ts:162-277 | a run throws only if input or route is refused, or in some iteration a reply does not come, is a refusal or does not read, the verifier is not a new provider, or there is no model to escalate to |
| MakerVerifierTheorems.EscalatesAtMostOnce | harness/maker-verifier.ts:260-277 | the maker uses the base route up to and including the first iteration that repeats its predecessor's failure set and the escalated route after it; at most one escalation is recorded, exactly there |
| MakerVerifierTheorems.VerifiersAreIndependent | harness/maker-verifier.ts:197-204 | every iteration is verified by a provider never used before, in this or an earlier run, and never the maker |
| MakerVerifierTheorems.SameFailuresExactlyWhen | harness/maker-verifier.ts:463-477 | in any locale, with criterion ids the locale tells apart, two failure lists compare equal exactly when they are permutations up to white space |
| MakerVerifierTheorems.OrderIrrelevantExactlyWhen | harness/maker-verifier.ts:463-473 | the comparison ignores the order of a failure list exactly when failures with ids it cannot tell apart are the same once normalised |
| MakerVerifierTheorems.EqualIdsKeepTheirOrder | harness/maker-verifier.ts:463-473 | with ids that differ only in white space the comparison does depend on the order, in every locale |
| Texts.NormalizeAgrees | harness/maker-verifier.ts:475-477 | two texts normalise alike exactly when they have the same words |
| MakerVerifierProcess.ReadAllResults | harness/maker-verifier.ts:428-442 | the pass over the verifier's answer accepts exactly lists of known criteria without repetition |
| MakerVerifierProcess.FinishRun | harness/maker-verifier.ts:308-329 | the reductions yield the sums over all receipts and the result of the last iteration, as MakerVerifierAnswers states |
| MakerVerifierProcess.Harness.MakerVerifierRun | harness/maker-verifier.ts:162-292 | the loop, with the provider memory kept between runs, produces the modelled run |
| Dashboard.NoRequestIsLost | apps/control-ui/src/live-dashboard.ts:113-160 | over every run a request since the last attempt has a timer or a queued attempt, failures are retried, catch-up requests stay pending until applied, at most one fetch is in flight, and attempts start at least 1000 ms apart |
| Dashboard.RequestIsServedInTime | apps/control-ui/src/live-dashboard.ts:113-137 | however many requests, successes and failures follow a request, until the timer fires it is due by the delay asked for, or a second after the last attempt if that is later; once due it may fire, and firing starts an attempt or queues one |
| Dashboard.TimerIsNeverPutOff | apps/control-ui/src/live-dashboard.ts:113-124 | over any run without a firing an armed timer stays armed and never moves later |
| Dashboard.QueuedAttemptFollows | apps/control-ui/src/live-dashboard.ts:127-159 | a queued attempt has a timer within the debounce or the back-off once the attempt in flight is over, whatever follows |
| Dashboard.FailureIsRetried | apps/control-ui/src/live-dashboard.ts:144-154 | over any run after a failure, until the timer fires it is due within the back-off, at most 30 s, and the catch-up the attempt carried stays pending |
| Dashboard.TimerIsTheSoonestAsked | apps/control-ui/src/live-dashboard.ts:113-159 | between firings the timer stands exactly at the soonest time any request, back-off or queued attempt asked for, and is off if nothing did |
| Dashboard.FailuresAreInARow | apps/control-ui/src/live-dashboard.ts:138-148 | the back-off counts the failures since the last success |
| Dashboard.CatchUpRequestIsServed | apps/control-ui/src/live-dashboard.ts:113-147 | a catch-up request is pending or carried until an attempt started after it has succeeded |
| Dashboard.Client.Schedule | apps/control-ui/src/live-dashboard.ts:113-124 | scheduling keeps an earlier timer, takes the event's step and keeps the invariant |
| Dashboard.Client.OnTimer | apps/control-ui/src/live-dashboard.ts:120-137 | a due timer starts an attempt or queues one, takes the event's step and keeps the invariant |
| Dashboard.Client.OnApplied | apps/control-ui/src/live-dashboard.ts:138-159 | an applied response clears failures and serves the queue, takes the event's step and keeps the invariant |
| Dashboard.Client.OnFailed | apps/control-ui/src/live-dashboard.ts:144-159 | a failure arms the back-off timer, takes the event's step and keeps the invariant |
| Dashboard.Client.Drive | apps/control-ui/src/live-dashboard.ts:113-160 | the handlers, called for any run of events, end in the state that run reaches |
| Timeline.PausingIsInvisible | apps/control-ui/src/audit-timeline.ts:66-91 | with the list cap at most the buffer cap, any pausing pattern leaves the timeline of never pausing, and a positive dropped count means a full buffer |
| Timeline.PausingIsInvisibleExactlyWhen | apps/control-ui/src/audit-timeline.ts:66-91 | that holds over every run exactly when there is a buffer and the list cap is at most the buffer cap |
| Timeline.ShippedCapsHidePausing | apps/control-ui/src/audit-timeline.ts:8-12 | the shipped caps hide pausing |
| Timeline.Client.InsertLive | apps/control-ui/src/audit-timeline.ts:66-80 | the two trimming loops keep the newest events of the list or the buffer and count the dropped |
| Timeline.Client.SetTimelinePaused | apps/control-ui/src/audit-timeline.ts:82-91 | resuming replays the buffer in order |
| ClientInfoCache.GetAnswersAsSpecified | apps/dc-mcp-gateway/client-attribution.js:57-79 | `get` returns the last value set exactly when it is within the time to live and fewer than `max` distinct other keys were set since; never more than `max` entries |
| ClientInfoCache.LookupsDoNotMatter | apps/dc-mcp-gateway/client-attribution.js:70-78 | lookups, even those that delete, change no later answer |
| ClientInfoCache.Cache.SetInfo | apps/dc-mcp-gateway/client-attribution.js:64-69 | `set` moves the key to the recent end and evicts the oldest |
| ClientInfoCache.Cache.GetInfo | apps/dc-mcp-gateway/client-attribution.js:70-78 | `get` deletes only an expired entry |
| Limits.AtMostSixtyPerMinute | apps/dc-mcp-gateway/server.js:555-561 | over any run any closed 60 000 ms interval contains at most 60 admissions |
| Limits.RefusedExactlyWhen | apps/dc-mcp-gateway/server.js:558-561 | nothing else is refused: after any run a request passes exactly when fewer than 60 admissions lie in the last 60 000 ms |
| Limits.Limiter.Pass | apps/dc-mcp-gateway/server.js:558-561 | the shift loop drops exactly the registrations out of the window |
| Limits.PruningIsInvisible | apps/dc-mcp-gateway/auth-health.js:149-159 | over any run and any prune limit the pruned map takes the decisions of an unpruned one |
| Limits.SentReportsAreSpaced | apps/dc-mcp-gateway/client-attribution.js:102-110 | two sent reports of one key are at least the throttle interval apart |
| Limits.Throttle.Send | apps/dc-mcp-gateway/auth-health.js:150-159 | the prune loop removes exactly the entries older than the interval |

## Left out

- HTTP, SSE, stdio, process spawning, timers as operating-system objects and the MCP SDK: only the events they deliver are modelled.
- The multiplexer's broadcast of executor notifications, its HTTP layer with the abandoned-route sweep there, and sessions the SDK has not finished creating.
- What happens inside an ACS report after it is submitted: a report is the submission itself.
- HMAC, SHA-256, JWT encoding and base64url: kept abstract, with freshness and unforgeability assumed.
- Client registration beyond its rate limiter, client metadata documents, and the consent and denial pages: branch-by-branch validation with easy claims.
- Removal of stale temporary files and symbolic links before a save is one operation; the directory flush after the rename is taken as done, since renaming is assumed durable.
- Prompt texts and requests to models (JSON schemas, the maker's feedback prompt, the verifier's model), code fences around answers, per-call timeouts and the provider itself.
- The evidence headers (schema version, kind, time stamp of recording, platform fact, task file name and digest): constants the packager writes.
- Floating-point rounding: amounts are reals. Numbers that are not finite or not integers where one is needed count as negative.
- Time stamps are integers in milliseconds.
- Sorting.SortText: compares by code point, where JavaScript compares UTF-16 code units; the order itself affects no result.
- Timeline.PausingIsInvisible: "load older" between events is not modelled.
- ClientInfoCache.GetAnswersAsSpecified: assumes a clock that does not run backwards.
- Limits.AtMostSixtyPerMinute: assumes a clock that does not run backwards, as do Limits.RefusedExactlyWhen and Limits.PruningIsInvisible.
- Dashboard.NoRequestIsLost: assumes that a timer does not fire before its due time.
- Dashboard HTML, DOM patching, dialogs, keyboard handling and the widget.
- Work-item store, policy gate, leases and the audit chain are not part of this model.
