/** What each of the broker's handlers does, said about the tables and the wire
    themselves: when a handler acts, what it then wrote, what it answered, and
    what it left alone. */
module BrokerLaws {
  import opened Basics
  import opened Protocol
  import opened Store
  import opened Broker

  // --- frames ---

  /** Only the row of `id` may differ. */
  ghost predicate OnlyJob(jobs: map<JobId, Job>, jobs': map<JobId, Job>, id: JobId) {
    && (forall j | j in jobs :: j in jobs' && (j != id ==> jobs'[j] == jobs[j]))
    && (forall j | j in jobs' && j != id :: j in jobs)
  }

  /** The columns no state change touches. */
  predicate SameJob(before: Job, after: Job) {
    && after.harnessId == before.harnessId && after.ownerId == before.ownerId && after.botUserId == before.botUserId
    && after.rootPostId == before.rootPostId && after.triggerPostId == before.triggerPostId
    && after.lastSeq == before.lastSeq && after.createdAt == before.createdAt && after.expiresAt == before.expiresAt
  }

  /** A job that just ended, with this error, its text untouched. */
  predicate EndedWith(before: Job, after: Job, error: string, now: int) {
    SameJob(before, after) && after.error == error && after.resultText == before.resultText
    && after.finishedAt == Some(now)
  }

  /** A job that moved on: nothing but its state differs. */
  predicate MovedOn(before: Job, after: Job) { after == before.(state := after.state) }

  /** A new envelope of harness h: its row is stored unacked, and it is pushed
      exactly if h is connected; nothing else of outbox, wire or table differs. */
  ghost predicate Carried(b: BrokerState, b': BrokerState, h: HarnessId, env: Envelope) {
    && env.id in b'.db.outbox
    && (env.id !in b.db.outbox ==> b'.db.outbox[env.id] == OutboxRow(h, env, None))
    && (forall m | m in b.db.outbox :: m in b'.db.outbox && b'.db.outbox[m] == b.db.outbox[m])
    && (forall m | m in b'.db.outbox && m != env.id :: m in b.db.outbox)
    && (forall p :: p in b'.down <==> p in b.down || (h in b.conns && p == Packet(h, Reliable(env))))
    && b'.conns == b.conns && b'.db.harnesses == b.db.harnesses
  }

  lemma SendCarries(b: BrokerState, h: HarnessId, env: Envelope)
    ensures var b' := SendReliable(b, h, env);
            Carried(b, b', h, env) && b'.db.jobs == b.db.jobs && b'.db.approvals == b.db.approvals
  {
  }

  // --- creation and cancellation ---

  predicate IsNew(jobs: map<JobId, Job>, n: NewJob) {
    n.id !in jobs
    && (n.dispatch.botUserId != "" && n.triggerPostId != "" ==>
          forall j | j in jobs && jobs[j].botUserId == n.dispatch.botUserId ::
            jobs[j].triggerPostId != n.triggerPostId)
  }

  /** The row a creation inserts: dispatched for a connected harness, else
      queued with a deadline. */
  predicate InsertedAs(j: Job, n: NewJob, online: bool, now: int, ttl: nat) {
    && j.harnessId == n.h && j.ownerId == n.dispatch.requester && j.botUserId == n.dispatch.botUserId
    && j.rootPostId == n.dispatch.rootPostId && j.triggerPostId == n.triggerPostId
    && (j.state.Dispatched? <==> online) && (j.state.Queued? <==> !online)
    && j.expiresAt == (if online then None else Some(now + ttl))
    && j.createdAt == now && j.lastSeq == 0 && j.resultText == "" && j.error == "" && j.finishedAt == None
  }

  /** A post makes at most one job, with its dispatch stored and pushed; a write
      that fails on an open connection fails the job. */
  lemma CreateDoes(b: BrokerState, n: NewJob, now: int, ttl: nat, written: bool)
    ensures var b' := CreateJob(b, n, now, ttl, written);
            var online := n.h in b.conns;
            if !IsNew(b.db.jobs, n) then b' == b
            else
              && n.id in b'.db.jobs && OnlyJob(b.db.jobs, b'.db.jobs, n.id) && b'.db.approvals == b.db.approvals
              && Carried(b, b', n.h, Envelope(n.msg, n.id, Dispatch(n.dispatch)))
              && (!(online && !written) ==> InsertedAs(b'.db.jobs[n.id], n, online, now, ttl))
              && (online && !written ==>
                    && b'.db.jobs[n.id].state.Failed? && b'.db.jobs[n.id].error == "dispatch failed"
                    && b'.db.jobs[n.id].harnessId == n.h && b'.db.jobs[n.id].ownerId == n.dispatch.requester)
  {
    hide SendReliable, Carried;
    if IsNew(b.db.jobs, n) {
      var inserted := WithJobs(b, b.db.jobs[n.id := NewRow(n, n.h in b.conns, now, ttl)]);
      var env := Envelope(n.msg, n.id, Dispatch(n.dispatch));
      SendCarries(inserted, n.h, env);
      CarriedJobs(b, inserted, SendReliable(inserted, n.h, env), CreateJob(b, n, now, ttl, written), n.h, env);
    }
  }

  /** What is carried does not depend on the job table. */
  lemma CarriedJobs(b: BrokerState, c: BrokerState, c': BrokerState, b': BrokerState, h: HarnessId, env: Envelope)
    requires Carried(c, c', h, env) && c == WithJobs(b, c.db.jobs) && b' == WithJobs(c', b'.db.jobs)
    ensures Carried(b, b', h, env)
  {
  }

  /** A cancel ends a job that is still queued, as read and as stored, and asks
      the harness about any other. */
  lemma CancelDoes(b: BrokerState, row: JobRow, msg: MsgId, reason: string, now: int)
    ensures var b' := CancelJob(b, row, msg, reason, now);
            if !row.job.state.Queued? then
              && Carried(b, b', row.job.harnessId, Envelope(msg, row.id, Cancel(reason)))
              && b'.db.jobs == b.db.jobs && b'.db.approvals == b.db.approvals
            else if row.id in b.db.jobs && b.db.jobs[row.id].state.Queued? then
              && row.id in b'.db.jobs && OnlyJob(b.db.jobs, b'.db.jobs, row.id) && b'.db.jobs[row.id].state.Cancelled?
              && EndedWith(b.db.jobs[row.id], b'.db.jobs[row.id], b.db.jobs[row.id].error, now)
              && b' == WithJobs(b, b'.db.jobs)
            else b' == b
  {
    SendCarries(b, row.job.harnessId, Envelope(msg, row.id, Cancel(reason)));
    hide SendReliable, Carried;
  }

  // --- acks ---

  /** The acked row is marked once, whoever acks; purges and flushes go by it. */
  lemma AckMarks(b: BrokerState, h: HarnessId, ref: MsgId, id: JobId, a: Ack, now: int)
    ensures var b' := HandleAck(b, h, ref, id, a, now);
            && b'.db.outbox.Keys == b.db.outbox.Keys
            && (forall m | m in b.db.outbox && m != ref :: b'.db.outbox[m] == b.db.outbox[m])
            && (ref in b.db.outbox ==>
                  && b'.db.outbox[ref].harnessId == b.db.outbox[ref].harnessId
                  && b'.db.outbox[ref].env == b.db.outbox[ref].env
                  && b'.db.outbox[ref].ackedAt == Some(b.db.outbox[ref].ackedAt.GetOr(now)))
            && b'.db.approvals == b.db.approvals && b'.db.harnesses == b.db.harnesses
            && b'.conns == b.conns && b'.down == b.down
  {
  }

  /** An ok ack starts a dispatched job and moves nothing else; a nack of the
      job's own harness fails it while it is dispatched and moves nothing else. */
  lemma AckMoves(b: BrokerState, h: HarnessId, ref: MsgId, id: JobId, a: Ack, now: int)
    ensures var jobs, jobs' := b.db.jobs, HandleAck(b, h, ref, id, a, now).db.jobs;
            if id == "" || id !in jobs || !jobs[id].state.Dispatched? || (!a.ok && jobs[id].harnessId != h)
            then jobs' == jobs
            else
              && id in jobs' && OnlyJob(jobs, jobs', id)
              && (a.ok ==> jobs'[id].state.Running? && MovedOn(jobs[id], jobs'[id]))
              && (!a.ok ==> jobs'[id].state.Failed?
                            && EndedWith(jobs[id], jobs'[id], "harness rejected the job: " + a.code, now))
  {
  }

  /** Whatever a nack says and whoever sends it, it starts no job. */
  lemma NackStartsNothing(b: BrokerState, h: HarnessId, ref: MsgId, id: JobId, a: Ack, now: int, j: JobId)
    requires !a.ok && j in b.db.jobs && !b.db.jobs[j].state.Running?
    ensures var jobs' := HandleAck(b, h, ref, id, a, now).db.jobs;
            j in jobs' && !jobs'[j].state.Running?
  {
    AckMoves(b, h, ref, id, a, now);
    hide HandleAck;
  }

  /** The rows a flush may write are exactly the unacked ones of its harness. */
  lemma FlushSends(outbox: map<MsgId, OutboxRow>, h: HarnessId, p: Packet)
    ensures p in RowPackets(outbox, h, Unacked(outbox, h)) <==>
            exists m :: m in outbox && outbox[m].harnessId == h && outbox[m].ackedAt.None?
                        && p == Packet(h, Reliable(outbox[m].env))
  {
  }

  /** The listings of OnHello and Sweep: the harness's unfinished jobs, and all
      jobs a harness may be running. */
  lemma ListingsMean(jobs: map<JobId, Job>, h: HarnessId, j: JobId)
    ensures h != "" ==>
              (j in Matching(jobs, ActiveFilter(h)) <==>
                 j in jobs && jobs[j].harnessId == h && jobs[j].state in {Queued, Dispatched, Running, Awaiting})
    ensures j in Matching(jobs, SweepFilter()) <==> j in jobs && jobs[j].state in {Dispatched, Running, Awaiting}
    ensures Limit(ActiveFilter(h)) == Limit(SweepFilter()) == 1000
  {
  }

  /** Progress counts upwards only, and only while the job runs or waits. */
  lemma ProgressCounts(jobs: map<JobId, Job>, id: JobId, seqNo: int)
    ensures var jobs' := RecordSeq(jobs, id, seqNo);
            if id in jobs && jobs[id].state in {Running, Awaiting} && seqNo > jobs[id].lastSeq then
              id in jobs' && OnlyJob(jobs, jobs', id) && jobs'[id] == jobs[id].(lastSeq := seqNo)
            else jobs' == jobs
    ensures Progresses(jobs, id, seqNo) <==> RecordSeq(jobs, id, seqNo) != jobs
  {
    if Progresses(jobs, id, seqNo) {
      assert RecordSeq(jobs, id, seqNo)[id].lastSeq != jobs[id].lastSeq;
    }
  }

  // --- approvals ---

  /** Refused for an unknown job, another harness's job and a finished one. */
  lemma RequestAnswers(db: Db, h: HarnessId, id: JobId)
    ensures var ack := RequestAck(db, h, id);
            && (ack.ok <==> id in db.jobs && db.jobs[id].harnessId == h && db.jobs[id].state in ACTIVE)
            && (ack.ok ==> ack == Ack(true, ""))
            && (ack.code == "forbidden" <==> id in db.jobs && db.jobs[id].harnessId != h)
            && (ack.code == "unknown_job" <==>
                  id !in db.jobs || (db.jobs[id].harnessId == h && db.jobs[id].state !in ACTIVE))
  {
  }

  /** An accepted request that is new opens one undecided approval with the
      harness's deadline and holds the job; a resend changes nothing. */
  lemma RequestDoes(db: Db, h: HarnessId, id: JobId, a: ApprovalId, expiresAt: int, nonce: string, now: int)
    ensures var db' := OnApprovalRequest(db, h, id, a, expiresAt, nonce, now);
            if id in db.jobs && db.jobs[id].harnessId == h && db.jobs[id].state in ACTIVE && a !in db.approvals then
              && a in db'.approvals && db'.approvals.Keys == db.approvals.Keys + {a}
              && (forall x | x in db.approvals :: db'.approvals[x] == db.approvals[x])
              && db'.approvals[a].jobId == id && db'.approvals[a].nonce == nonce
              && db'.approvals[a].expiresAt == expiresAt && db'.approvals[a].decision == None
              && id in db'.jobs && OnlyJob(db.jobs, db'.jobs, id) && MovedOn(db.jobs[id], db'.jobs[id])
              && (if db.jobs[id].state.Queued? then db'.jobs[id].state.Queued? else db'.jobs[id].state.Awaiting?)
              && db'.outbox == db.outbox && db'.harnesses == db.harnesses
            else db' == db
  {
  }

  /** When a click is recorded, said of the tables and the click themselves. */
  predicate Recordable(db: Db, c: Click, now: int) {
    && c.approval != "" && c.decision.Some? && c.approval in db.approvals
    && var row := db.approvals[c.approval];
       && c.tag == Hmac(c.approval, c.decision.value, row.nonce)
       && row.jobId in db.jobs && c.user == db.jobs[row.jobId].ownerId
       && db.jobs[row.jobId].state in {Queued, Dispatched, Running, Awaiting}
       && row.decision.None? && now < row.expiresAt
  }

  /** The signature is a button's: of this approval, this decision, this row. */
  predicate SignedClick(db: Db, c: Click) {
    && c.approval != "" && c.decision.Some? && c.approval in db.approvals
    && c.tag == Hmac(c.approval, c.decision.value, db.approvals[c.approval].nonce)
  }

  /** Each refusal has its own reason; the signature is checked before anything
      is said about the job. */
  lemma ClickAnswers(db: Db, c: Click, now: int)
    ensures var reply := ClickVerdict(db, c, now);
            && (reply.Malformed? <==> c.approval == "" || c.decision.None?)
            && (reply.NoApproval? <==> c.approval != "" && c.decision.Some? && c.approval !in db.approvals)
            && (reply.BadSignature? <==>
                  c.approval != "" && c.decision.Some? && c.approval in db.approvals && !SignedClick(db, c))
            && (SignedClick(db, c) ==>
                  var row := db.approvals[c.approval];
                  && (reply.JobGone? <==> row.jobId !in db.jobs)
                  && (row.jobId in db.jobs ==>
                        && (reply.NotOwner? <==> c.user != db.jobs[row.jobId].ownerId)
                        && (reply.JobOver? <==>
                              c.user == db.jobs[row.jobId].ownerId && db.jobs[row.jobId].state !in ACTIVE)
                        && (reply.TooLate? <==>
                              c.user == db.jobs[row.jobId].ownerId && db.jobs[row.jobId].state in ACTIVE
                              && (row.decision.Some? || now >= row.expiresAt))))
  {
  }

  /** The approvals change exactly for a recordable click, and then hold its
      decision, its user and its time; any other click changes nothing. */
  lemma ClickIsRecorded(b: BrokerState, c: Click, msg: MsgId, now: int)
    ensures var b' := HandleCallback(b, c, msg, now);
            && (b'.db.approvals != b.db.approvals <==> Recordable(b.db, c, now))
            && (ClickVerdict(b.db, c, now) == Recorded <==> Recordable(b.db, c, now))
            && (!Recordable(b.db, c, now) ==> b' == b)
            && (Recordable(b.db, c, now) ==>
                  && b'.db.approvals.Keys == b.db.approvals.Keys
                  && (forall x | x in b.db.approvals && x != c.approval :: b'.db.approvals[x] == b.db.approvals[x])
                  && b'.db.approvals[c.approval] ==
                     b.db.approvals[c.approval].(decision := c.decision, decidedBy := c.user, decidedAt := now))
  {
    if ClickVerdict(b.db, c, now) == Recorded {
      var decided := b.(db := b.db.(approvals := HandleCallback(b, c, msg, now).db.approvals));
      assert decided.db.approvals[c.approval].decision.Some?;
    }
  }

  /** A recorded click is sent to the job's harness, and resumes a job that was
      waiting for this decision alone. */
  lemma ClickIsSent(b: BrokerState, c: Click, msg: MsgId, now: int)
    requires Recordable(b.db, c, now)
    ensures var b' := HandleCallback(b, c, msg, now);
            var id := b.db.approvals[c.approval].jobId;
            && Carried(b, b', b.db.jobs[id].harnessId,
                       Envelope(msg, id, ApprovalResponse(c.approval, c.decision.value)))
            && id in b'.db.jobs && OnlyJob(b.db.jobs, b'.db.jobs, id) && MovedOn(b.db.jobs[id], b'.db.jobs[id])
            && (b'.db.jobs[id].state ==
                if b.db.jobs[id].state.Awaiting? && OnlyOpen(b.db.approvals, id, c.approval) then Running
                else b.db.jobs[id].state)
  {
    var id := b.db.approvals[c.approval].jobId;
    var env := Envelope(msg, id, ApprovalResponse(c.approval, c.decision.value));
    var decided := b.(db := b.db.(approvals := Decide(b.db.approvals, c.approval, c.decision.value, c.user, now)));
    SendCarries(decided, b.db.jobs[id].harnessId, env);
    LastOpen(b.db.approvals, c.approval, decided.db.approvals, id);
    hide SendReliable, HasPending, OnlyOpen;
  }

  /** No approval of the job but `a` is undecided. */
  ghost predicate OnlyOpen(approvals: map<ApprovalId, Approval>, id: JobId, a: ApprovalId) {
    forall x | x in approvals && approvals[x].jobId == id && approvals[x].decision.None? :: x == a
  }

  lemma LastOpen(approvals: map<ApprovalId, Approval>, a: ApprovalId, approvals': map<ApprovalId, Approval>, id: JobId)
    requires a in approvals && approvals'.Keys == approvals.Keys && approvals'[a].decision.Some?
    requires forall x | x in approvals && x != a :: approvals'[x] == approvals[x]
    ensures HasPending(approvals', id) <==> !OnlyOpen(approvals, id, a)
  {
    if !OnlyOpen(approvals, id, a) {
      var x :| x in approvals && approvals[x].jobId == id && approvals[x].decision.None? && x != a;
      assert approvals'[x].decision.None?;
    }
  }

  // --- results ---

  /** The answer of a result that is not written, and when there is none. */
  lemma ResultAnswers(jobs: map<JobId, Job>, h: HarnessId, id: JobId)
    ensures var read := ResultRead(jobs, h, id);
            && (read.None? <==> id in jobs && jobs[id].harnessId == h
                                && jobs[id].state in {Queued, Dispatched, Running, Awaiting, Lost})
            && (read == Some(Ack(false, "unknown_job")) <==> id !in jobs)
            && (read == Some(Ack(false, "forbidden")) <==> id in jobs && jobs[id].harnessId != h)
            && (read.Some? && read.value.ok ==> read == Some(Ack(true, "")))
            && (read.Some? && read.value.ok <==>
                  id in jobs && jobs[id].harnessId == h
                  && jobs[id].state !in {Queued, Dispatched, Running, Awaiting, Lost})
  {
  }

  /** A result is written to an active or a lost job, exactly as it says, and
      acknowledged; to any other it writes nothing and is refused. */
  lemma ResultIsRecorded(jobs: map<JobId, Job>, id: JobId, r: JobResult, now: int)
    ensures var jobs' := ResultCas(jobs, id, r, now);
            if id in jobs && jobs[id].state in {Queued, Dispatched, Running, Awaiting, Lost} then
              && id in jobs' && OnlyJob(jobs, jobs', id) && SameJob(jobs[id], jobs'[id])
              && Records(jobs'[id], r, jobs[id].error) && jobs'[id].finishedAt == Some(now)
              && ResultAck(jobs, id) == Ack(true, "")
            else jobs' == jobs && ResultAck(jobs, id) == Ack(false, "store")
  {
  }

  // --- sweeping ---

  /** The start of a sweep: exactly the queued jobs past their deadline expire,
      and exactly the rows acked longer ago than the retention go. */
  lemma SweepStarts(b: BrokerState, cfg: Config, now: int)
    ensures var b' := SweepTables(b, cfg, now);
            && b'.db.jobs.Keys == b.db.jobs.Keys
            && (forall j | j in b.db.jobs ::
                  if b.db.jobs[j].state.Queued? && b.db.jobs[j].expiresAt.Some? && now >= b.db.jobs[j].expiresAt.value
                  then b'.db.jobs[j].state.Expired?
                       && EndedWith(b.db.jobs[j], b'.db.jobs[j], b.db.jobs[j].error, now)
                  else b'.db.jobs[j] == b.db.jobs[j])
            && (forall m | m in b'.db.outbox :: m in b.db.outbox && b'.db.outbox[m] == b.db.outbox[m])
            && (forall m | m in b.db.outbox ::
                  m !in b'.db.outbox <==>
                  b.db.outbox[m].ackedAt.Some? && now - b.db.outbox[m].ackedAt.value > cfg.outboxRetention)
            && b'.db.approvals == b.db.approvals && b'.conns == b.conns && b'.down == b.down
  {
  }

  /** One turn: a job of a connected harness is cancelled exactly when it ran a
      minute past its timeout and is not waiting for its owner; one of a known
      harness is lost exactly when that harness was away past the grace period. */
  lemma SweepDecides(b: BrokerState, row: JobRow, msg: MsgId, cfg: Config, now: int)
    requires row.job.state in {Dispatched, Running, Awaiting}
    ensures var b', h := SweepOne(b, row, msg, cfg, now), row.job.harnessId;
            if h in b.conns then
              b'.db.jobs == b.db.jobs
              && if now > row.job.createdAt + cfg.jobTimeout + 60_000 && row.job.state in {Dispatched, Running}
                 then Carried(b, b', h, Envelope(msg, row.id, Cancel("timeout")))
                 else b' == b
            else if h in b.db.harnesses && now > b.db.harnesses[h].lastSeen + cfg.gracePeriod
                    && row.id in b.db.jobs && b.db.jobs[row.id].state in ACTIVE then
              && row.id in b'.db.jobs && OnlyJob(b.db.jobs, b'.db.jobs, row.id) && b'.db.jobs[row.id].state.Lost?
              && EndedWith(b.db.jobs[row.id], b'.db.jobs[row.id],
                           "lost: harness offline for more than the grace period", now)
              && b' == WithJobs(b, b'.db.jobs)
            else b' == b
  {
    SendCarries(b, row.job.harnessId, Envelope(msg, row.id, Cancel("timeout")));
    hide SendReliable, Carried;
  }
}
