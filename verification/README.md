# A verified model of the Mattermost harness bridge

The bridge runs coding agents on a person's own machine from a chat thread. A
**broker** turns posts into jobs and stores them; a **harness** on the machine
runs them. They talk over a link that may drop, duplicate and reorder, so both
sides keep a durable outbox, and every change of a job row is a compare-and-set.
This project models that protocol, the smaller stateful parts around it and the
text loops that feed it, and proves what they keep over whole runs.

`dafny verify dfyconfig.toml` checks everything.

## How it is laid out

| files | part |
|---|---|
| `Protocol.dfy` | message vocabulary; small shared datatypes |
| `Store.dfy` | job, approval and outbox tables as guarded row updates; `SqliteStore` runs them |
| `Broker.dfy`, `BrokerObjects.dfy` | the broker's handlers as functions; the hub and the core as classes, loops included, proved to do exactly those functions |
| `BrokerLaws.dfy`, `HarnessLaws.dfy` | when each handler acts, what it then writes and answers, and what it leaves alone, said about tables, messages and wire themselves |
| `Sessions.dfy`, `Harness.dfy` | conversation keys and sessions; the harness's handlers, and the outbox, the client and the daemon as classes proved to do them |
| `System.dfy`, `SystemInv.dfy`, `SystemSteps.dfy`, `SystemTheorems.dfy` | the whole bridge as a state machine of 26 steps, its inductive invariant, one lemma per step, and the theorems |
| `HalfAck.dfy` | runs into the two exceptions to a waiting job's deliverability |
| `Handshake.dfy` | what a reconnect settles |
| `Interleaving.dfy` | broker handlers with nothing atomic but each call on the job and approval tables, stopped there for a while or cut for good: lifecycle, first result wins, routing |
| `Agreement.dfy` | in that model: when "awaiting approval" and "has an undecided approval" agree, and the race and the cuts after which they do not |
| `Connections.dfy` | the hub's connection table |
| `OAuth.dfy`, `OAuthLaws.dfy` | one grant per administrator, copied into many rows; what one call hands out, refuses and writes |
| `InitFlow.dfy`, `Onboarding.dfy` | pairing codes; remote provisioning with compensations |
| `Reconciler.dfy` | one event connection per bot |
| `Sticky.dfy` | a thread keeps its workspace, agent and session |
| `Words.dfy`, `History.dfy` | `ws:`/`agent:` tokens; the transcript for a fresh agent |

In `System` the wire is the set of every packet ever written, in each direction.
Delivering a packet does not remove it, so loss, duplication, reordering and
delivery over a later connection are all runs of the model. The invariant has
two halves: parts over a *ledger* of tables that only grow or move forward
(every envelope in an outbox or on the wire was minted once, for one job, and
says something the tables still support), and parts over exact states and
connections (a waiting job has its unacked dispatch row; awaiting approval
means an undecided approval). A growing ledger keeps the first half at once,
which is why each step's proof is short.

## Assumptions

- Store calls do not fail, except where a parameter says they do (row writes of
  credentials, saving a bot, committing a claim). Commands are transactions, as
  the store has one connection (internal/store/sqlite/store.go:43).
- Generated identifiers are fresh, and a harness has at most 1000 active jobs,
  the limit of the listing behind OnHello (internal/store/sqlite/store.go:321).
- `createJob`'s online test, insert and enqueue are one step, although no common
  lock makes them one (internal/broker/core/core.go:409-446); a second step is the
  same with a broker stop after the insert. Every other handler is one step in
  `System`, except OnResult, which reads and writes in two, and an ack, which
  marks its outbox row and moves its job in two; Sweep is one step per row. `Interleaving` drops the atomicity of handlers for the job and approval
  tables; there, the two listings of HandleBotPost are one read.
- OnApprovalResponse's lookup and its send on the channel are one step; the code
  releases the lock between them (internal/harness/harness.go:442-455).
- Payloads decode: both sides only read what the other one encoded.
- Encryption and keyed hashes are ideal: a sealed text opens only under its own
  team, a signature matches only its own inputs.
- Remote services answer as they like; their answers are parameters.

## Where code and comments differ

The model follows the code.

- internal/store/store.go:196-197 says ActiveJobsByHarness returns every
  non-terminal job; the query stops at 1000 rows.
- internal/store/store.go:223 says CreateBot refuses an owner's second bot; the
  table only refuses a second use of an id or a username.
- internal/broker/core/onboarding.go:235-236 says each remote operation is
  compensated if a later one fails. An account that is created by a call which
  itself returns an error is not (`Onboarding.ClaimAllOrNothing`,
  `Onboarding.OrphanAccount`).
- The job state "awaiting_approval" is meant to say that a decision is open. Two
  things break that. A request whose row goes in after a click has found nothing
  pending, and before the click's write, ends with a running job and an open
  decision: OnApprovalRequest and HandleCallback share no lock
  (internal/broker/core/core.go:629-640 and 760-780). And either handler can be cut
  between its store calls, by a broker stop or a cancelled context: after the row of
  a request (629 to 640) the job stays dispatched or running with an open decision,
  for which no button was posted; after a decision (760 to 778) it stays awaiting
  approval with none open. Nothing is then in flight, and the harness's resend of the
  request finds its row and stops there (633), which repairs nothing
  (`Agreement.ResendRepairsNothing`).
  `Agreement.AgreesAtRest` proves the agreement without either, for every job with
  no call in flight. `Agreement.OvertakingBreaks` shows that every such overtaking
  of an active job can end in disagreement, `Agreement.CutExactly` which cut does,
  and `Agreement.RaceIsReached`, `Agreement.CutRequestIsReached` and
  `Agreement.CutClickIsReached` reach the three disagreements from the start.
- A waiting job is meant to have a dispatch that will be sent until it is
  acknowledged. Two broker stops leave one without. The hub marks the row of an ack
  and the core then moves the job (internal/broker/hub/hub.go:192-199): a stop or a
  cancelled connection between the two leaves a dispatched job whose row is never
  sent again (`HalfAck.AckCutShort`). And a stop between the insert of a job and the
  enqueue of its dispatch (internal/broker/core/core.go:430-446) leaves a job that
  never had a row (`HalfAck.CreateCutShort`).
  `SystemTheorems.WaitingStaysDeliverable` is exact about both.
- A thread keeps its directory unless a configured workspace is called
  `_default` and points elsewhere (`Sticky.DirectorySticksExactly`).
- The newest copy of a grant can be lost to another administrator who installs
  the one team that held it (`OAuth.TakeoverLosesTheGrant`).

## Model

| member | source | states |
|---|---|---|
| SystemTheorems.ResultsNeverDropped | internal/broker/core/core.go:651-683 | In every reachable state each result a harness ever queued for its job is still in its outbox, or the job is terminal and not lost; a result whose write loses its race included |
| SystemTheorems.AllowIsSound | internal/harness/harness.go:462-518 | A tool call was let through only if the broker's row for that approval says allow, decided by the job's owner, who is the harness's configured owner, strictly before the deadline the harness had set, and by a click that carried the keyed tag of that approval, that row's nonce and allow |
| SystemTheorems.WaitingStaysDeliverable | internal/broker/hub/hub.go:192-199 | A queued or dispatched job has an unacked dispatch row in the outbox, under any purge and at most one, exactly unless its creation was cut before the enqueue, or it is dispatched and an ack of that row is between its two store calls or was cut there |
| System.OnlyCutCreations | internal/broker/core/core.go:430-446 | Over any run, a job for which no dispatch was enqueued is one whose creation was cut after the insert |
| SystemTheorems.QueuedIsNowhereElse | internal/broker/core/core.go:541-603 | Until a job leaves the queue no copy of its messages is on the wire or at a harness, no hello reports it, it has no approval, and its harness has no served connection |
| SystemTheorems.AwaitingIffUndecided | internal/broker/core/core.go:617-649 | With requests and clicks handled one at a time and to the end, an active job past the queue awaits approval exactly when one of its approvals is undecided |
| SystemTheorems.ReachableInv | internal/broker/hub/hub.go:94-167 | The invariant over both outboxes, the wire, the tables and the harnesses holds after any sequence of steps |
| SystemSteps.NextKeeps | internal/harness/client/client.go:205-259 | Each of the 26 steps keeps the invariant: create, connect, hello, flush, deliver, ack, request, click, result, sweep, restart on either side |
| SystemSteps.GreetKeeps | internal/broker/core/core.go:541-580 | Answering a hello and opening the connection keeps it: nothing of that harness stays queued once the connection is served |
| SystemSteps.MarkKeeps | internal/broker/hub/hub.go:192-197 | Marking the row of an ack keeps it, with the job's move owed from then on |
| SystemSteps.MoveKeeps | internal/broker/core/core.go:582-603 | The move of an acked job, whatever ran since the mark, takes it out of the waiting states and pays that debt |
| SystemTheorems.AckIsBothHalves | internal/broker/hub/hub.go:192-199 | Mark and move run at once are the hub's handling of an ack |
| SystemTheorems.BrokerStepIsTheHandler | internal/broker/core/core.go:353-452 | The broker's steps of the state machine are its handlers: create, click, cancel, sweep, disconnect, restart |
| SystemTheorems.BrokerAnswers | internal/broker/hub/hub.go:182-240 | What the broker answers to a request and to the read half of a result, and which packets it goes on with |
| SystemTheorems.WriteStep | internal/broker/core/core.go:676-682 | The write half of a result is one compare-and-set and one answer |
| SystemTheorems.ConnectionStep | internal/broker/hub/hub.go:94-167 | Registering notes the contact and greets; answering the hello settles the jobs and opens the connection |
| SystemTheorems.RunStepIsTheHandler | internal/harness/harness.go:374-503 | The steps of a job on a harness are the daemon's handlers, on that harness alone |
| HalfAck.AckCutShort | internal/broker/hub/hub.go:192-199 | A run from the start to a dispatched job with no unacked row and nothing under way |
| HalfAck.CreateCutShort | internal/broker/core/core.go:430-446 | A run from the start to a dispatched job that never had a row |
| Agreement.AgreesAtRest | internal/broker/core/core.go:617-649 | Over any run of interleaved handlers, cut ones included, in which no row of a request of the job goes in between a pending check that found none and the write after it, and no request or click of the job is cut between its store calls, the job, if active past the queue and with no call in flight, awaits approval exactly when one of its approvals is undecided |
| Agreement.CutExactly | internal/broker/core/core.go:617-649 | Cutting the only call in flight of an active job breaks that agreement exactly if it was a request's write that had yet to move the job, or a click's check or write with nothing left undecided |
| Agreement.CutRequestIsReached | internal/broker/core/core.go:629-641 | A run from the start, with no overtaking, into a dispatched job with an open approval and no call left |
| Agreement.CutClickIsReached | internal/broker/core/core.go:760-780 | A run from the start, with no overtaking, into a job that awaits approval with none open and no call left |
| Agreement.ResendRepairsNothing | internal/broker/core/core.go:629-640 | A request whose row exists already ends without touching the job |
| Agreement.OvertakingBreaks | internal/broker/core/core.go:759-781 | From every state where a request overtakes a click of an active job, the pending writes can end with the job running and that approval open |
| Agreement.RaceIsReached | internal/broker/core/core.go:759-781 | A run from the start, with nothing cut, into that disagreement with no call left |
| SystemSteps.WriteResultKeeps | internal/broker/core/core.go:663-683 | The write half of OnResult keeps it, whatever happened since the read, another copy's write included, and the ack it sends is safe to act on |
| SystemSteps.PressKeeps | internal/broker/core/core.go:730-791 | A click that is recorded resumes the job exactly when no other approval of it is open |
| SystemSteps.CreateKeeps | internal/broker/core/core.go:409-452 | A new job, its outbox row and its first write appear together, a failed first write included |
| SystemSteps.CutCreateKeeps | internal/broker/core/core.go:430-433 | A job inserted by a broker that stops before the enqueue keeps it: nothing speaks of that job |
| SystemSteps.SweepRowKeeps | internal/broker/core/core.go:866-888 | One turn of the sweep keeps it, for a timed-out and for a lost job |
| SystemSteps.ReliableKeeps | internal/harness/client/client.go:223-259 | Handling a dispatch, a cancel or an approval answer at the harness, and acking it, keeps it |
| SystemSteps.FinishKeeps | internal/harness/harness.go:374-402 | Queueing a result keeps it, with the job's approval channels closed first |
| Handshake.HelloSettles | internal/broker/core/core.go:541-580 | For any table and any hello: held jobs afterwards are the reported active ones, exactly those get resume and the others abort, unreported held ones fail, unreported queued ones are dispatched, all else is untouched |
| Handshake.HandshakeAgrees | internal/harness/harness.go:166-178 | After the welcome the harness cancels exactly the live jobs the broker does not hold for it, every job the broker holds was reported, and is still live if none has ended since the hello; nothing of it stays queued |
| Interleaving.StepForward | internal/store/sqlite/store.go:324-363 | With handlers stopped or cut between any two store calls, no step lowers a job's rank, and only a result takes a job out of lost |
| Interleaving.CasForward | internal/broker/core/core.go:541-683 | Every compare-and-set of the broker goes forward from each state it accepts, and pays for itself in a potential |
| Interleaving.LifecycleForward | internal/broker/core/core.go:851-908 | Over any run ranks never fall and a settled row never changes |
| Interleaving.FinishedIffTerminal | internal/store/sqlite/store.go:324-363 | finished_at is set exactly on terminal rows, in every reachable state |
| Interleaving.FewChanges | internal/broker/core/core.go:617-649 | A job changes state at most four times plus twice per approval made for it |
| Interleaving.FirstResultWins | internal/broker/core/core.go:651-683 | Under any number of racing results at most one is written per job, it came from the job's own harness, and the row is succeeded, cancelled or failed as its status says, with its text, and with its error or else the error it had |
| Interleaving.LostStillAccepts | internal/broker/core/core.go:663-676 | Once a result of a lost job was read, the job stays lost through any steps that write no other result of it and do not cut the call, and the write then records that result's status, text and error |
| Interleaving.PostsRouteOnce | internal/broker/core/core.go:185-413 | However posts and transitions mix, there is at most one job per bot and trigger post, and at most one active job per bot, owner and thread |
| Interleaving.AddRouted | internal/store/sqlite/migrations/0001_init.sql:83-84 | Inserting a row whose trigger and thread are free keeps both uniqueness properties |
| Interleaving.RequestAlone | internal/broker/core/core.go:617-649 | The interleaved pieces of OnApprovalRequest, run at once, are the handler |
| Interleaving.ClickAlone | internal/broker/core/core.go:759-781 | The interleaved pieces of HandleCallback, run at once, leave the handler's tables |
| Interleaving.ResultAlone | internal/broker/core/core.go:663-676 | The interleaved write of a result, run at once, is OnResult's, and may begin exactly when OnResult goes on to write |
| Interleaving.AckAlone | internal/broker/core/core.go:582-603 | The interleaved write of an ack or a nack, run at once, is OnAck's |
| Interleaving.CreateAlone | internal/broker/core/core.go:420-452 | The interleaved insert of a routed post is the creation's, and a failed first write run after it ends the job as the creation does |
| Interleaving.CancelAlone | internal/broker/core/core.go:353-360 | The interleaved cancel of a queued job, run at once, is the handler's |
| Interleaving.LoseAlone | internal/broker/core/core.go:880-886 | The interleaved loss of an abandoned job, run at once, is the sweep's |
| Interleaving.RoutingReads | internal/broker/core/core.go:192-392 | The two listings let a post through exactly if it made no job of the bot and its author has none active with the bot in that thread |
| Interleaving.HelloAlone | internal/broker/core/core.go:548-579 | The interleaved piece OnHello runs for a job does to that job what the handler does |
| Connections.LiveIsTheEntry | internal/broker/hub/hub.go:116-135 | In any interleaving of register, replace, exit and close, a serving uncancelled connection is its harness's entry, there is at most one, and a harness is online exactly if it has one |
| Connections.ExitTakesOnlyItsOwn | internal/broker/hub/hub.go:125-135 | A replaced or closed connection leaves without touching the table or calling OnDisconnect; any other takes down its own entry, once |
| Connections.RegisterReplaces | internal/broker/hub/hub.go:116-124 | A newer connection becomes the entry, the one it replaces is cancelled, and no other is touched |
| Connections.CloseDropsAll | internal/broker/hub/hub.go:272-280 | Shutdown leaves no entry and no live connection, ends none and calls no handler |
| Connections.ConnTable.Close | internal/broker/hub/hub.go:272-280 | The loop cancels and drops every entry and calls no handler |
| Store.SqliteStore.ListJobs | internal/store/sqlite/store.go:283-318 | Distinct matching rows, newest first: all of them when they fit under the limit, else exactly the limit, dropping none newer than a kept one |
| Store.SqliteStore.TransitionJob | internal/store/sqlite/store.go:324-363 | The row moves only from one of the given states; unknown and conflicting rows are told apart and left alone |
| Store.SqliteStore.DecideApproval | internal/store/sqlite/store.go:453-467 | Succeeds exactly for an undecided approval strictly before its expiry, then holds the decision, its author and its time, can never succeed again, and touches no other approval |
| Store.DecideFinal | internal/store/sqlite/store.go:453-467 | A decision is final and nothing else of the approval ever changes |
| Store.ExpireForward | internal/store/sqlite/store.go:376-382 | Expiry only moves queued jobs forward and finishes what it ends |
| Store.IdsCount | internal/store/sqlite/store.go:250-265 | A listing has as many jobs as rows |
| BrokerObjects.Hub.FlushOutbox | internal/broker/hub/hub.go:169-181 | Writes unacked rows only, all of them unless the connection breaks, and changes nothing stored |
| BrokerObjects.Core.OnHello | internal/broker/core/core.go:541-580 | The two loops over a listing leave the table and the answers that `HelloSettles` is about |
| BrokerObjects.Core.HandleCallback | internal/broker/core/core.go:730-791 | Each refusal in the code's order, else decision, outbox row, push and resume as one handler |
| BrokerObjects.Core.Sweep | internal/broker/core/core.go:851-889 | Expiry and purge, then one turn per listed row, in listing order |
| BrokerObjects.Core.OnResult | internal/broker/core/core.go:651-683 | Run without interruption: read, refuse or write, with the acks the harness acts on |
| BrokerLaws.ResultIsRecorded | internal/broker/core/core.go:662-681 | A result is written exactly to an active or a lost job: succeeded, cancelled or failed as its status says, its text, its error as code and message or else the old one, finished now; any other job stays and the answer is the store nack |
| BrokerLaws.ResultAnswers | internal/broker/core/core.go:651-661 | Which results are refused or acknowledged without a write: unknown job, another harness's job, a job finished and not lost |
| BrokerLaws.ClickIsRecorded | internal/broker/core/core.go:730-763 | The approvals change exactly for a well-formed click whose tag is the keyed one of that approval, decision and nonce, by the owner of an unfinished job, on an undecided row before its deadline; then they hold that decision, that user and that time |
| BrokerLaws.ClickAnswers | internal/broker/core/core.go:738-767 | Each refusal of a click has exactly its own reason, and the signature is checked before the job |
| BrokerLaws.ClickIsSent | internal/broker/core/core.go:768-781 | A recorded click is stored and pushed for the job's harness, and resumes the job exactly if it awaited this decision alone |
| BrokerLaws.AckMoves | internal/broker/core/core.go:582-600 | An ok ack takes a dispatched job to running; a nack of its own harness fails it with an error that holds the code; nothing else moves |
| BrokerLaws.NackStartsNothing | internal/broker/core/core.go:593-602 | No nack makes any job running |
| BrokerLaws.AckMarks | internal/store/sqlite/store.go:503-506 | The acked row alone is marked, once |
| BrokerLaws.RequestDoes | internal/broker/core/core.go:617-640 | A new request of the job's harness opens one undecided approval with its deadline and holds a dispatched or running job; a resend and a refused request change nothing |
| BrokerLaws.RequestAnswers | internal/broker/core/core.go:617-627 | Which requests are refused, and why |
| BrokerLaws.CreateDoes | internal/broker/core/core.go:420-452 | A post that made no job makes one: dispatched or queued with a deadline by whether the harness is connected, its dispatch stored and pushed; a failed first write fails it |
| BrokerLaws.CancelDoes | internal/broker/core/core.go:353-367 | A job still queued ends cancelled; for any other the harness is asked |
| BrokerLaws.SweepStarts | internal/store/sqlite/store.go:376-382 | Exactly the queued jobs past their deadline expire, and exactly the rows acked longer ago than the retention go |
| BrokerLaws.SweepDecides | internal/broker/core/core.go:866-888 | A job of a connected harness is cancelled exactly a minute past its timeout and not while it waits for its owner; one of a known harness is lost exactly when that was away past the grace period |
| BrokerLaws.FlushSends | internal/broker/hub/hub.go:169-181 | The rows a flush may write are exactly the unacked ones of its harness |
| BrokerLaws.ListingsMean | internal/store/sqlite/store.go:283-322 | What the listings of OnHello and Sweep contain |
| BrokerLaws.ProgressCounts | internal/store/sqlite/store.go:365-374 | Progress counts upwards only, while the job runs or waits |
| HarnessLaws.DispatchAnswers | internal/harness/harness.go:194-206 | A dispatch of anyone else or without its thread is refused whatever is live; an acceptable one is acked exactly if the job is live afterwards |
| HarnessLaws.DispatchRefuses | internal/harness/harness.go:207-222 | Unknown workspace, unknown agent and a full harness each have exactly their own code |
| HarnessLaws.DispatchPlaces | internal/harness/harness.go:207-264 | A started job is the only one that changes: workspace and agent by message, else thread, else configuration; a live one stays as it is |
| HarnessLaws.ResendIsAcked | internal/harness/harness.go:204-206 | An accepted dispatch delivered again while its job is live changes nothing and is acked |
| HarnessLaws.NamedElsewhereStartsFresh | internal/harness/harness.go:238-312 | A message that names another workspace or agent in a thread with a session runs there without that session |
| HarnessLaws.CancelMarks | internal/harness/harness.go:429-439 | A cancel is acked exactly for a live job and cancels that one alone |
| HarnessLaws.WelcomeMarks | internal/harness/harness.go:166-190 | Exactly the aborted live jobs are cancelled, and every live job reports once more |
| HarnessLaws.ResponseReaches | internal/harness/harness.go:442-460 | An answer reaches a live job that asked, and the first one stays |
| HarnessLaws.AskOpens | internal/harness/harness.go:465-503 | Asking opens one empty channel with the deadline that is sent, and stores the request |
| HarnessLaws.DecidedCloses | internal/harness/harness.go:474-481 | A decided call closes its channel, and the job works again once it asks for nothing more |
| HarnessLaws.FinishCloses | internal/harness/harness.go:374-402 | A finishing job closes exactly its own channels and stores its result |
| HarnessLaws.FrameIsAnswered | internal/harness/client/client.go:205-259 | An envelope of the broker is answered once, to its id and for its job; nothing else is, and only an ack takes envelopes out |
| Sessions.KeyInjective | internal/harness/sessions/sessions.go:81-84 | Two conversations share a key exactly if they are the same conversation |
| Sessions.PlainKey | internal/harness/sessions/sessions.go:81-84 | The key of ordinary ids is the JSON array of the two |
| Sessions.UnescapeEscape | internal/harness/sessions/sessions.go:81-84 | Reading an escaped character back gives the character and leaves the rest |
| Sessions.SessionMap.Delete | internal/harness/sessions/sessions.go:56-61 | Removes this conversation's entry and no other |
| Sessions.SessionMap.Put | internal/harness/sessions/sessions.go:49-54 | Only this conversation's entry changes |
| HarnessObjects.Outbox.Pending | internal/harness/client/outbox.go:55-64 | Every unacked envelope exactly once |
| Harness.ResentUntilAcked | internal/harness/client/client.go:215-223 | Whatever frames come in and however often the process dies, a full flush writes a stored envelope again exactly until an ack of it has come |
| HarnessObjects.Client.Flush | internal/harness/client/client.go:150-155 | Writes stored envelopes only, all of them unless the connection breaks, and forgets none |
| HarnessObjects.Client.Handle | internal/harness/client/client.go:205-259 | An ack, good or bad, frees its envelope; a broker's envelope is handled and acked once; anything else changes nothing |
| SystemTheorems.ClientIsTheStep | internal/harness/client/client.go:205-259 | That handling is the delivery step of the state machine |
| HarnessObjects.Daemon.OnWelcome | internal/harness/harness.go:166-190 | Cancels exactly the live jobs the welcome aborts and refreshes every status post |
| HarnessObjects.Daemon.OnDispatch | internal/harness/harness.go:194-234 | Refusals in the code's order, a live resend acked, else the job placed by message, thread and defaults |
| HarnessObjects.Daemon.Decided | internal/harness/harness.go:485-518 | Lets the tool run exactly on a received allow that did not come too late |
| HarnessObjects.Daemon.Finish | internal/harness/harness.go:374-402 | Every open channel of the job is closed, then the result is stored |
| Sticky.ThreadSticks | internal/harness/harness.go:238-264 | Once a conversation has a session, a message naming nothing runs in the same workspace with the same agent and resumes the last stored session; the directory is the same exactly unless the session ran in a configured `_default` of another directory |
| Sticky.DirectorySticksExactly | internal/harness/harness.go:238-252 | A harness that can run at all keeps every thread's directory in every run if and only if no workspace of another directory is called `_default` |
| Sticky.ResumesLater | internal/harness/harness.go:308-312 | The run may look its session up later and still resumes it, until its conversation stores another |
| Sticky.OthersUntouched | internal/harness/harness.go:366-370 | No step changes another conversation's entry |
| OAuth.ClientPresentsTheCurrentToken | internal/broker/oauth/service.go:321-367 | Over any run in which each rotation is saved at least once and a takeover leaves a newest copy, the credential Client picks holds the server's current refresh token for every team and row order, so it is never refused as stale |
| OAuthLaws.TokenIsTheNewest | internal/broker/oauth/service.go:321-367 | Over any run, a token handed out is the access token of the newest grant the administrator then has, and that grant lasts more than a minute or was issued just now |
| OAuthLaws.ClientAnswers | internal/broker/oauth/service.go:353-366 | Over any run: a lasting grant is handed out and nothing changes; otherwise the new token is, or each failure is told exactly under its own condition |
| OAuthLaws.ClientWrites | internal/broker/oauth/service.go:353-390 | Over any run: what a renewal leaves in the rows and at the server, and that nothing else changes them; no row's command does |
| OAuthLaws.ClientNeedsItsRow | internal/broker/oauth/service.go:321-331 | Refused exactly for a team that is not there or whose own row does not open |
| OAuthLaws.CallbackWrites | internal/broker/oauth/service.go:173-214 | Authorizing again rewrites every row of the administrator whose write succeeds, and installs the team exactly when all did |
| OAuth.ActorKeeps | internal/broker/oauth/service.go:345-390 | An operation keeps its administrator's grant usable exactly if the server kept the token, or one write of the new one went through, or there is no copy at all |
| OAuth.PersistedHolds | internal/broker/oauth/service.go:371-390 | One saved write makes a stale grant current again |
| OAuth.ChoiceIgnoresOrder | internal/broker/oauth/service.go:336-351 | Over any run, whatever failed, the chosen credential does not depend on the row order |
| OAuth.ChosenIsNewest | internal/broker/oauth/service.go:338-351 | The choice is a stored readable copy and none is newer |
| OAuth.TakeoverExactly | internal/broker/oauth/service.go:229-284 | When grants carry distinct tokens, a takeover leaves the other administrator's grant usable exactly if another newest copy remains |
| OAuth.TakeoverLosesTheGrant | internal/broker/oauth/service.go:229-284 | A run that is careful throughout, and after it one takeover that leaves a stale copy |
| OAuthObjects.Service.Newest | internal/broker/oauth/service.go:328-351 | The loop over the rows, skipping other installers, its own row and unreadable ones, computes that choice |
| OAuthObjects.Service.SaveCredentials | internal/broker/oauth/service.go:371-390 | Every row of the user is tried; the ones whose write succeeds hold the grant sealed for their own team, and success means all did |
| OAuthObjects.Service.Client | internal/broker/oauth/service.go:321-367 | Choice, refresh and saving in the code's order, with each error return |
| InitFlow.TokenHandedOutOnce | internal/store/sqlite/store.go:628-650 | In any interleaving with split fetches: at most one claim and one hand-out per code, the token handed out is the claim's, and it is stored exactly while claimed and unfetched |
| InitFlow.TokenNeedsTheSecret | internal/broker/core/onboarding.go:74-90 | In every interleaving, a token went only to a poll that showed the secret of that code before the code expired |
| InitFlow.PollHandsOut | internal/broker/core/onboarding.go:74-100 | An uninterrupted poll gets the token exactly if it shows the secret of a claimed code in time and none got it before |
| InitStore.CompleteDoes | internal/store/sqlite/oauth.go:74-115 | When a claim goes through, what it writes, and which claims find nothing |
| InitStore.UpdateBotDoes | internal/store/sqlite/oauth.go:47-60 | An update changes only a bot of the same owner and binds it at most once; owner and name stay |
| InitFlow.BindingFollowsOwner | internal/store/sqlite/oauth.go:74-115 | A bot is bound only to a machine of its owner, and a claimed code's bot stays bound to its machine while it exists |
| InitFlow.BotsKeep | internal/store/sqlite/oauth.go:12-72 | Creating, updating and deleting bots never re-binds one or crosses owners |
| Onboarding.ClaimSettles | internal/broker/core/onboarding.go:179-215 | A claim ends with everything present and consistent, or leaves the world as it was exactly if it stopped early or each reached call left nothing |
| Onboarding.ClaimAllOrNothing | internal/broker/core/onboarding.go:237-331 | With undo calls that succeed and replies that name what was created, a failed claim leaves something exactly if the account call both failed and created |
| Onboarding.BoundBotAllOrNothing | internal/broker/core/onboarding.go:216-233 | The same for a further bot, bound at once to its owner's machine |
| Onboarding.ClaimSucceeds | internal/broker/core/onboarding.go:179-215 | A claim succeeds exactly for an unclaimed code valid at both readings of the clock, when every check passes, every call answers well, and the machine's id and token are new |
| Onboarding.BoundBotSucceeds | internal/broker/core/onboarding.go:216-233 | A further bot succeeds exactly on a machine of its owner, when all else goes well |
| Onboarding.OrphanAccount | internal/broker/core/onboarding.go:268-276 | The remaining gap as a concrete attempt |
| OnboardingObjects.Onboarder.ProvisionBot | internal/broker/core/onboarding.go:237-309 | The steps with the deferred rollback on each error return do what `ProvisionSettles` is about |
| OnboardingObjects.Onboarder.ClaimInit | internal/broker/core/onboarding.go:179-215 | Checks, provisioning, the transaction and the rollback behind it, in the code's order |
| OnboardingObjects.Store.UpdateBot | internal/store/sqlite/oauth.go:47-60 | A bound row matches only its own machine; owner and name never change |
| OnboardingObjects.Store.CompleteInit | internal/store/sqlite/oauth.go:74-115 | Machine, binding and claim are written together or not at all |
| OnboardingObjects.Store.FetchInit | internal/store/sqlite/store.go:628-650 | Unknown, expired, unclaimed, fetched and claimed rows each answered as the interface says |
| Reconciler.PassSettles | internal/broker/bots/manager.go:45-84 | After a pass the active bots are those with a machine and a token, each with its current token and one uncancelled listener; every other listener ever started is cancelled; an unchanged bot keeps its listener |
| Reconciler.PassIsIdempotent | internal/broker/bots/manager.go:45-84 | A second pass over the same list changes nothing |
| Reconciler.RunConsistent | internal/broker/bots/manager.go:34-84 | Over any sequence of passes a bot is listened to at most once at a time |
| Reconciler.Manager.RunPass | internal/broker/bots/manager.go:51-79 | The two loops over the list and over the active map are that pass |
| Words.RestKeepsTheWords | internal/broker/core/core.go:1076-1102 | The remaining words are the words of the text in order minus exactly the first that carries the prefix |
| Words.WorkspaceAndAgentCommute | internal/broker/core/core.go:1076-1102 | Taking the two tokens in either order gives the same names and the same text, character for character |
| Words.FieldsJoin | internal/broker/core/core.go:1077-1085 | Splitting joined non-blank words gives the words back |
| Words.CarriesMeans | internal/broker/core/core.go:1079-1083 | A word carries a name exactly when, between any marks around it, it is the prefix and that name |
| Words.LowerMeans | internal/broker/core/core.go:1099 | Only the letters A to Z change, each to its small letter |
| Words.SplitWorkspace | internal/broker/core/core.go:1076-1088 | The loop takes the first carrying word, whatever punctuation surrounds it |
| Words.SplitAgent | internal/broker/core/core.go:1091-1102 | The same for the agent, with its name lower-cased |
| History.BodyIsTheLongestSuffix | internal/harness/harness.go:546-569 | What is kept is the longest non-empty run of newest posts within the budget, or the end of the newest post if even that is too long; never more than the budget |
| History.LinesInOrder | internal/harness/harness.go:546-555 | One line for every post that is not blank, in their order, with its time, author and trimmed text |
| History.RenderHistory | internal/harness/harness.go:546-569 | The loops render the non-blank posts and wrap that body |

## Left out

- Interleaving.LifecycleForward: ranks put running and awaiting approval on one level, because a job moves between them in both directions.
- SystemTheorems.ResultsNeverDropped: does not say the result is recorded, because OnHello fails an unreported job before the flushed result arrives (internal/broker/core/core.go:569-571).
- HarnessObjects.Outbox.Pending: the order of the resent envelopes, because ids are random within a millisecond and direct sends overtake a flush anyway.
- SystemTheorems.AwaitingIffUndecided: is about requests and clicks handled one at a time and to the end; `Agreement` has the interleaved and the cut ones.
- Agreement.AgreesAtRest: also takes from the protocol that a harness asks only for a job out of the queue (`SystemTheorems.QueuedIsNowhereElse`) and that a button is posted after its request's write (internal/broker/core/core.go:641-644).
- BrokerObjects.Core.OnResult: is not interrupted; the lost race and its answer are in `SystemSteps.WriteResultKeeps`.
- BrokerObjects.Hub.FlushOutbox: the order of the written rows, for the same reason as the harness's outbox.
- BrokerObjects.Core.OnHello: is stated for at most 1000 active jobs of the harness, the limit of its listing.
- BrokerObjects.Core.Sweep: takes its fresh message ids from the caller, as many as a listing can have rows.
- OAuthObjects.Service.Client: the row listing is a parameter that names each stored team, in any order.
- HarnessObjects.Client.Flush: the connection breaks between writes, after a number the caller gives.
- Words.SplitAgent: lower-casing is modelled for ASCII letters only.
- History.RenderHistory: the time of a post is given as text, and the budget is not negative.
- Sessions.KeyInjective: strings are well-formed Unicode; encoding/json writes a replacement character for a broken byte.
- OAuth.ClientPresentsTheCurrentToken: the clock is strictly increasing and one operation reads it once.
- OAuth.BystanderKeeps: without distinct tokens a takeover may also be harmless by coincidence, so there only one direction is stated.
- Exactly-once execution: a resent dispatch is recognised only while the job is live (internal/harness/harness.go:204-206).
- That a job cancelled or expired while queued never runs: its dispatch row stays pending (internal/broker/core/core.go:354-360).
- Harness ownership in OnAck and OnProgress, which touch the row before any owner comparison (internal/broker/core/core.go:586-613).
- The message text of acks: a nack is its code.
- The status-post debouncer and post wording, the audit log, attachments, progress rendering.
- The remote half of `install`: finding, creating and deleting the slash command; the browser's authorization state.
- Bot names: normalising a name, its pattern and the default name; an attempt carries the result.
- The mention and membership checks of HandleBotPost before its row lookups; HandlePost, HandlePair, pickHarness and threadHistory.
- Listeners that end by themselves, the shutdown of the reconciler, failed ListBots calls (a skipped pass).
- The store's DeleteHarness and ClaimInit, which nothing calls.
- Heartbeats, read timeouts, reconnect backoff, version checks and fairness; time is a parameter of each step.
- HTTP, WebSocket, SQL and JSON text, the permission socket, MCP and the agents' processes.
