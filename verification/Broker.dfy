/** The broker: the hub's delivery (outbox, connections) and the core's
    handlers. Every handler is a function from broker state to broker state;
    `BrokerObjects` runs the same handlers on objects, loops included. */
module Broker {
  import opened Basics
  import opened Protocol
  import opened Store

  /** A registered connection first answers hello, then flushes and reads. */
  datatype Phase = Greeting | Ready

  /** `down` is every packet ever written towards a harness. */
  datatype BrokerState = BrokerState(db: Db, conns: map<HarnessId, Phase>, down: set<Packet>)

  datatype Config = Config(queueTtl: nat, gracePeriod: nat, jobTimeout: nat, outboxRetention: nat)

  const MINUTE: nat := 60_000

  // --- delivery ---

  function Push(b: BrokerState, h: HarnessId, env: Envelope): BrokerState {
    if h in b.conns then b.(down := b.down + {Packet(h, Reliable(env))}) else b
  }

  /** Stores first, then pushes if the harness is online. */
  function SendReliable(b: BrokerState, h: HarnessId, env: Envelope): BrokerState {
    Push(b.(db := b.db.(outbox := Enqueued(b.db.outbox, h, env))), h, env)
  }

  function RowPackets(outbox: map<MsgId, OutboxRow>, h: HarnessId, rows: set<MsgId>): set<Packet> {
    set m | m in rows && m in outbox :: Packet(h, Reliable(outbox[m].env))
  }

  function WithJobs(b: BrokerState, jobs: map<JobId, Job>): BrokerState {
    b.(db := b.db.(jobs := jobs))
  }

  // --- job creation and cancellation ---

  datatype NewJob = NewJob(id: JobId, msg: MsgId, h: HarnessId, triggerPostId: string, dispatch: JobDispatch)

  /** The partial unique index on (bot_user_id, trigger_post_id). */
  predicate TriggerTaken(jobs: map<JobId, Job>, bot: UserId, trigger: string) {
    bot != "" && trigger != "" && exists j | j in jobs :: jobs[j].botUserId == bot && jobs[j].triggerPostId == trigger
  }

  function NewRow(n: NewJob, online: bool, now: int, ttl: nat): Job {
    Job(n.h, n.dispatch.requester, n.dispatch.botUserId, n.dispatch.rootPostId, n.triggerPostId,
        if online then Dispatched else Queued, 0, "", "", now,
        if online then None else Some(now + ttl), None)
  }

  function Failure(reason: string): JobPatch { JobPatch(None, Some(reason)) }

  function FailJob(jobs: map<JobId, Job>, id: JobId, reason: string, now: int): map<JobId, Job> {
    Transition(jobs, id, ACTIVE, Failed, Failure(reason), now)
  }

  /** Insert the row, enqueue the dispatch, push it. A write error after the
      enqueue fails the job and leaves the row behind. */
  function CreateJob(b: BrokerState, n: NewJob, now: int, ttl: nat, written: bool): BrokerState {
    if n.id in b.db.jobs || TriggerTaken(b.db.jobs, n.dispatch.botUserId, n.triggerPostId) then b
    else
      var online := n.h in b.conns;
      var inserted := WithJobs(b, b.db.jobs[n.id := NewRow(n, online, now, ttl)]);
      var sent := SendReliable(inserted, n.h, Envelope(n.msg, n.id, Dispatch(n.dispatch)));
      if online && !written then WithJobs(sent, FailJob(sent.db.jobs, n.id, "dispatch failed", now)) else sent
  }

  /** `row` is the job as the caller read it. */
  function CancelJob(b: BrokerState, row: JobRow, msg: MsgId, reason: string, now: int): BrokerState {
    if row.job.state.Queued?
    then WithJobs(b, Transition(b.db.jobs, row.id, {Queued}, Cancelled, NO_PATCH, now))
    else SendReliable(b, row.job.harnessId, Envelope(msg, row.id, Cancel(reason)))
  }

  // --- hello ---

  predicate ActiveOf(j: Job, h: HarnessId) { j.harnessId == h && j.state in ACTIVE }

  const RESTARTED := "the harness restarted and no longer has this job"

  function AfterReport(j: Job, h: HarnessId, now: int): Job {
    if j.harnessId == h && j.state in {Queued, Dispatched} then Moved(j, Running, NO_PATCH, now) else j
  }

  function AfterSilence(j: Job, h: HarnessId, now: int): Job {
    if j.harnessId != h then j
    else if j.state in {Running, Awaiting} then Moved(j, Failed, Failure(RESTARTED), now)
    else if j.state.Queued? then Moved(j, Dispatched, NO_PATCH, now)
    else j
  }

  function HelloJobs(jobs: map<JobId, Job>, h: HarnessId, reported: set<JobId>, now: int): map<JobId, Job> {
    map id | id in jobs :: if id in reported then AfterReport(jobs[id], h, now) else AfterSilence(jobs[id], h, now)
  }

  function HelloAnswer(jobs: map<JobId, Job>, h: HarnessId, id: JobId): WelcomeJob {
    WelcomeJob(id, if id in jobs && ActiveOf(jobs[id], h) then Resume else Abort)
  }

  function HelloAnswers(jobs: map<JobId, Job>, h: HarnessId, reported: seq<JobId>): seq<WelcomeJob> {
    seq(|reported|, i requires 0 <= i < |reported| => HelloAnswer(jobs, h, reported[i]))
  }

  function ActiveFilter(h: HarnessId): JobFilter { JobFilter("", "", "", h, "", ACTIVE, 1000) }

  // --- acks ---

  function AckJobs(jobs: map<JobId, Job>, h: HarnessId, id: JobId, a: Ack, now: int): map<JobId, Job> {
    if id == "" then jobs
    else if a.ok then Transition(jobs, id, {Dispatched}, Running, NO_PATCH, now)
    else if id in jobs && jobs[id].harnessId == h && jobs[id].state.Dispatched?
      then FailJob(jobs, id, "harness rejected the job: " + a.code, now)
    else jobs
  }

  /** The outbox row is marked first, whoever acks; then the job moves. */
  function HandleAck(b: BrokerState, h: HarnessId, ref: MsgId, id: JobId, a: Ack, now: int): BrokerState {
    b.(db := b.db.(outbox := AckRow(b.db.outbox, ref, now), jobs := AckJobs(b.db.jobs, h, id, a, now)))
  }

  // --- approvals ---

  function RefuseUnowned(jobs: map<JobId, Job>, h: HarnessId, id: JobId): Option<Ack> {
    if id !in jobs then Some(Ack(false, "unknown_job"))
    else if jobs[id].harnessId != h then Some(Ack(false, "forbidden"))
    else None
  }

  function RequestAck(db: Db, h: HarnessId, id: JobId): Ack {
    match RefuseUnowned(db.jobs, h, id)
    case Some(nack) => nack
    case None => if Terminal(db.jobs[id].state) then Ack(false, "unknown_job") else Ack(true, "")
  }

  /** A resend finds the approval row and changes nothing. */
  function OnApprovalRequest(db: Db, h: HarnessId, id: JobId, a: ApprovalId, expiresAt: int, nonce: string,
                             now: int): Db
  {
    if !RequestAck(db, h, id).ok || a in db.approvals then db
    else db.(approvals := db.approvals[a := Approval(id, nonce, expiresAt, None, "", 0)],
             jobs := Transition(db.jobs, id, {Dispatched, Running}, Awaiting, NO_PATCH, now))
  }

  /** A keyed hash, idealised: only equal inputs give equal tags. */
  datatype Tag = Hmac(approval: ApprovalId, decision: Decision, nonce: string) | OtherTag(text: string)

  datatype Click = Click(approval: ApprovalId, decision: Option<Decision>, tag: Tag, user: UserId)

  datatype ClickReply = Malformed | NoApproval | BadSignature | JobGone | NotOwner | JobOver | TooLate | Recorded

  function ClickVerdict(db: Db, c: Click, now: int): ClickReply {
    if c.approval == "" || c.decision.None? then Malformed
    else if c.approval !in db.approvals then NoApproval
    else
      var row := db.approvals[c.approval];
      if c.tag != Hmac(c.approval, c.decision.value, row.nonce) then BadSignature
      else if row.jobId !in db.jobs then JobGone
      else if c.user != db.jobs[row.jobId].ownerId then NotOwner
      else if Terminal(db.jobs[row.jobId].state) then JobOver
      else if !Decidable(db.approvals, c.approval, now) then TooLate
      else Recorded
  }

  /** A decision resumes the job when it was the last one open. */
  function ClickJobs(jobs: map<JobId, Job>, approvals: map<ApprovalId, Approval>, id: JobId, now: int): map<JobId, Job>
  {
    if HasPending(approvals, id) then jobs else Transition(jobs, id, {Awaiting}, Running, NO_PATCH, now)
  }

  function HandleCallback(b: BrokerState, c: Click, msg: MsgId, now: int): BrokerState {
    if ClickVerdict(b.db, c, now) != Recorded then b
    else
      var id := b.db.approvals[c.approval].jobId;
      var decided := b.(db := b.db.(approvals := Decide(b.db.approvals, c.approval, c.decision.value, c.user, now)));
      var sent := SendReliable(decided, b.db.jobs[id].harnessId,
                               Envelope(msg, id, ApprovalResponse(c.approval, c.decision.value)));
      WithJobs(sent, ClickJobs(sent.db.jobs, sent.db.approvals, id, now))
  }

  // --- results ---

  function StateOf(s: Status): JobState {
    match s
    case StatusSucceeded => Succeeded
    case StatusCancelled => Cancelled
    case StatusFailed => Failed
  }

  function ResultPatch(r: JobResult): JobPatch {
    JobPatch(Some(r.text), if r.error.Some? then Some(r.error.value.code + ": " + r.error.value.message) else None)
  }

  /** The row shows exactly this result; `before` is the error it had until then. */
  predicate Records(j: Job, r: JobResult, before: string) {
    && (j.state.Succeeded? <==> r.status.StatusSucceeded?)
    && (j.state.Cancelled? <==> r.status.StatusCancelled?)
    && (j.state.Failed? <==> r.status.StatusFailed?)
    && j.resultText == r.text
    && j.error == match r.error case Some(e) => e.code + ": " + e.message case None => before
  }

  const OPEN: set<JobState> := ACTIVE + {Lost}

  /** The read at the start of OnResult: an answer, or None to go on to the CAS. */
  function ResultRead(jobs: map<JobId, Job>, h: HarnessId, id: JobId): Option<Ack> {
    match RefuseUnowned(jobs, h, id)
    case Some(nack) => Some(nack)
    case None => if jobs[id].state in OPEN then None else Some(Ack(true, ""))
  }

  function ResultCas(jobs: map<JobId, Job>, id: JobId, r: JobResult, now: int): map<JobId, Job> {
    Transition(jobs, id, OPEN, StateOf(r.status), ResultPatch(r), now)
  }

  function ResultAck(jobs: map<JobId, Job>, id: JobId): Ack {
    if CanMove(jobs, id, OPEN) then Ack(true, "") else Ack(false, "store")
  }

  // --- sweeping ---

  const LOST_CONTACT := "lost: harness offline for more than the grace period"

  function SweepFilter(): JobFilter { JobFilter("", "", "", "", "", {Dispatched, Running, Awaiting}, 1000) }

  predicate TimedOut(row: JobRow, cfg: Config, now: int) {
    now - row.job.createdAt > cfg.jobTimeout + MINUTE && !row.job.state.Awaiting?
  }

  predicate Abandoned(db: Db, h: HarnessId, cfg: Config, now: int) {
    h in db.harnesses && now - db.harnesses[h].lastSeen > cfg.gracePeriod
  }

  /** One turn of Sweep's loop, for a row listed earlier. */
  function SweepOne(b: BrokerState, row: JobRow, msg: MsgId, cfg: Config, now: int): BrokerState {
    if row.job.harnessId in b.conns then
      if TimedOut(row, cfg, now) then CancelJob(b, row, msg, "timeout", now) else b
    else if Abandoned(b.db, row.job.harnessId, cfg, now) then
      WithJobs(b, Transition(b.db.jobs, row.id, ACTIVE, Lost, Failure(LOST_CONTACT), now))
    else b
  }

  function SweepRows(b: BrokerState, rows: seq<JobRow>, msgs: seq<MsgId>, cfg: Config, now: int): BrokerState
    requires |msgs| >= |rows|
  {
    if rows == [] then b
    else SweepOne(SweepRows(b, rows[..|rows| - 1], msgs, cfg, now), rows[|rows| - 1], msgs[|rows| - 1], cfg, now)
  }

  lemma SweepNext(b: BrokerState, rows: seq<JobRow>, i: nat, msgs: seq<MsgId>, cfg: Config, now: int)
    requires i < |rows| <= |msgs|
    ensures SweepRows(b, rows[..i + 1], msgs, cfg, now) ==
              SweepOne(SweepRows(b, rows[..i], msgs, cfg, now), rows[i], msgs[i], cfg, now)
  {
    assert rows[..i + 1][..i] == rows[..i];
  }

  function SweepTables(b: BrokerState, cfg: Config, now: int): BrokerState {
    b.(db := b.db.(outbox := Purged(b.db.outbox, now - cfg.outboxRetention), jobs := ExpireQueued(b.db.jobs, now)))
  }
}
