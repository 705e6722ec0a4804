/** The broker's tables and their guarded updates. Each SQL statement is one
    function on a table; the class runs them on its fields. */
module Store {
  import opened Basics
  import opened Protocol

  datatype JobState =
    | Queued | Dispatched | Running | Awaiting
    | Succeeded | Failed | Cancelled | Lost | Expired

  predicate Terminal(s: JobState) {
    s.Succeeded? || s.Failed? || s.Cancelled? || s.Lost? || s.Expired?
  }

  const ACTIVE: set<JobState> := {Queued, Dispatched, Running, Awaiting}

  /** How far a job has come; only a lost job can still leave a terminal state. */
  function Rank(s: JobState): nat {
    match s
    case Queued => 0
    case Dispatched => 1
    case Running | Awaiting => 2
    case Lost => 3
    case Succeeded | Failed | Cancelled | Expired => 4
  }

  datatype Job = Job(
    harnessId: HarnessId, ownerId: UserId, botUserId: UserId, rootPostId: string, triggerPostId: string,
    state: JobState, lastSeq: int, resultText: string, error: string,
    createdAt: int, expiresAt: Option<int>, finishedAt: Option<int>)

  datatype JobPatch = JobPatch(resultText: Option<string>, error: Option<string>)

  const NO_PATCH := JobPatch(None, None)

  datatype Approval = Approval(
    jobId: JobId, nonce: string, expiresAt: int,
    decision: Option<Decision>, decidedBy: UserId, decidedAt: int)

  datatype OutboxRow = OutboxRow(harnessId: HarnessId, env: Envelope, ackedAt: Option<int>)

  /** `lastSeen` is last_seen_at, or created_at of a harness never seen. */
  datatype HarnessRow = HarnessRow(ownerId: UserId, lastSeen: int)

  datatype Db = Db(
    harnesses: map<HarnessId, HarnessRow>, jobs: map<JobId, Job>,
    approvals: map<ApprovalId, Approval>, outbox: map<MsgId, OutboxRow>)

  // --- jobs ---

  /** The row after a state change: nil patch fields stay untouched. */
  function Moved(j: Job, to: JobState, p: JobPatch, now: int): Job {
    j.(state := to, resultText := p.resultText.GetOr(j.resultText), error := p.error.GetOr(j.error),
       finishedAt := if Terminal(to) then Some(now) else j.finishedAt)
  }

  predicate CanMove(jobs: map<JobId, Job>, id: JobId, from: set<JobState>) {
    id in jobs && jobs[id].state in from
  }

  /** UPDATE jobs SET state = to … WHERE id = id AND state IN from. */
  function Transition(jobs: map<JobId, Job>, id: JobId, from: set<JobState>, to: JobState, p: JobPatch, now: int)
    : map<JobId, Job>
  {
    if CanMove(jobs, id, from) then jobs[id := Moved(jobs[id], to, p, now)] else jobs
  }

  predicate Due(j: Job, now: int) {
    j.state.Queued? && j.expiresAt.Some? && j.expiresAt.value <= now
  }

  function ExpireQueued(jobs: map<JobId, Job>, now: int): map<JobId, Job> {
    map id | id in jobs :: if Due(jobs[id], now) then Moved(jobs[id], Expired, NO_PATCH, now) else jobs[id]
  }

  predicate Progresses(jobs: map<JobId, Job>, id: JobId, seqNo: int) {
    id in jobs && jobs[id].lastSeq < seqNo && jobs[id].state in {Running, Awaiting}
  }

  function RecordSeq(jobs: map<JobId, Job>, id: JobId, seqNo: int): map<JobId, Job> {
    if Progresses(jobs, id, seqNo) then jobs[id := jobs[id].(lastSeq := seqNo)] else jobs
  }

  /** "" and the empty set restrict nothing. */
  datatype JobFilter = JobFilter(
    botUserId: UserId, triggerPostId: string, ownerId: UserId, harnessId: HarnessId, rootPostId: string,
    states: set<JobState>, limit: int)

  predicate Matches(j: Job, f: JobFilter) {
    && (f.botUserId == "" || j.botUserId == f.botUserId)
    && (f.triggerPostId == "" || j.triggerPostId == f.triggerPostId)
    && (f.ownerId == "" || j.ownerId == f.ownerId)
    && (f.harnessId == "" || j.harnessId == f.harnessId)
    && (f.rootPostId == "" || j.rootPostId == f.rootPostId)
    && (f.states == {} || j.state in f.states)
  }

  function Matching(jobs: map<JobId, Job>, f: JobFilter): set<JobId> {
    set id | id in jobs && Matches(jobs[id], f)
  }

  function Limit(f: JobFilter): nat { if f.limit <= 0 then 100 else f.limit }

  // --- approvals ---

  predicate HasPending(approvals: map<ApprovalId, Approval>, j: JobId) {
    exists a | a in approvals :: approvals[a].jobId == j && approvals[a].decision.None?
  }

  predicate Decidable(approvals: map<ApprovalId, Approval>, a: ApprovalId, at: int) {
    a in approvals && approvals[a].decision.None? && approvals[a].expiresAt > at
  }

  function Decide(approvals: map<ApprovalId, Approval>, a: ApprovalId, d: Decision, who: UserId, at: int)
    : map<ApprovalId, Approval>
  {
    if Decidable(approvals, a, at)
    then approvals[a := approvals[a].(decision := Some(d), decidedBy := who, decidedAt := at)]
    else approvals
  }

  // --- outbox ---

  function Enqueued(outbox: map<MsgId, OutboxRow>, h: HarnessId, env: Envelope): map<MsgId, OutboxRow> {
    if env.id in outbox then outbox else outbox[env.id := OutboxRow(h, env, None)]
  }

  function AckRow(outbox: map<MsgId, OutboxRow>, m: MsgId, at: int): map<MsgId, OutboxRow> {
    if m in outbox && outbox[m].ackedAt.None? then outbox[m := outbox[m].(ackedAt := Some(at))] else outbox
  }

  function Purged(outbox: map<MsgId, OutboxRow>, before: int): map<MsgId, OutboxRow> {
    map m | m in outbox && !(outbox[m].ackedAt.Some? && outbox[m].ackedAt.value < before) :: outbox[m]
  }

  function Unacked(outbox: map<MsgId, OutboxRow>, h: HarnessId): set<MsgId> {
    set m | m in outbox && outbox[m].harnessId == h && outbox[m].ackedAt.None?
  }

  // --- what every guarded update keeps ---

  /** Rows are never deleted or re-owned, ranks never fall, and a finally
      finished row never changes again. */
  ghost predicate JobsLe(before: map<JobId, Job>, after: map<JobId, Job>) {
    forall j | j in before ::
      && j in after
      && after[j].harnessId == before[j].harnessId && after[j].ownerId == before[j].ownerId
      && after[j].botUserId == before[j].botUserId && after[j].rootPostId == before[j].rootPostId
      && after[j].triggerPostId == before[j].triggerPostId
      && Rank(before[j].state) <= Rank(after[j].state)
      && (Rank(before[j].state) == 4 ==> after[j] == before[j])
  }

  /** Requests are never deleted or re-bound, and a decision is final. */
  ghost predicate ApprovalsLe(before: map<ApprovalId, Approval>, after: map<ApprovalId, Approval>) {
    forall a | a in before ::
      && a in after
      && after[a].jobId == before[a].jobId && after[a].expiresAt == before[a].expiresAt
      && after[a].nonce == before[a].nonce
      && (before[a].decision.Some? ==> after[a] == before[a])
  }

  /** finished_at is set exactly on terminal rows. */
  ghost predicate FinishedAgree(jobs: map<JobId, Job>) {
    forall j | j in jobs :: jobs[j].finishedAt.Some? <==> Terminal(jobs[j].state)
  }

  predicate Forward(from: set<JobState>, to: JobState) {
    forall s | s in from :: Rank(s) <= Rank(to) && Rank(s) < 4 && (Terminal(s) ==> Terminal(to))
  }

  lemma TransitionForward(jobs: map<JobId, Job>, id: JobId, from: set<JobState>, to: JobState, p: JobPatch, now: int)
    requires Forward(from, to)
    ensures JobsLe(jobs, Transition(jobs, id, from, to, p, now))
    ensures FinishedAgree(jobs) ==> FinishedAgree(Transition(jobs, id, from, to, p, now))
  {
  }

  lemma ExpireForward(jobs: map<JobId, Job>, now: int)
    ensures JobsLe(jobs, ExpireQueued(jobs, now))
    ensures FinishedAgree(jobs) ==> FinishedAgree(ExpireQueued(jobs, now))
  {
  }

  lemma DecideFinal(approvals: map<ApprovalId, Approval>, a: ApprovalId, d: Decision, who: UserId, at: int)
    ensures ApprovalsLe(approvals, Decide(approvals, a, d, who, at))
  {
  }

  /** A row handed out by a query: its key and its value at that moment. */
  datatype JobRow = JobRow(id: JobId, job: Job)

  predicate RowsFrom(rows: seq<JobRow>, jobs: map<JobId, Job>) {
    && (forall i | 0 <= i < |rows| :: rows[i].id in jobs && jobs[rows[i].id] == rows[i].job)
    && (forall i, k | 0 <= i < k < |rows| :: rows[i].id != rows[k].id)
  }

  predicate NewestFirst(rows: seq<JobRow>) {
    forall i, k | 0 <= i < k < |rows| :: rows[i].job.createdAt >= rows[k].job.createdAt
  }

  /** None of the jobs is newer than a listed one. */
  ghost predicate NoneNewer(ids: set<JobId>, jobs: map<JobId, Job>, rows: seq<JobRow>)
    requires ids <= jobs.Keys
  {
    forall id, i | id in ids && 0 <= i < |rows| :: jobs[id].createdAt <= rows[i].job.createdAt
  }

  function Ids(rows: seq<JobRow>): set<JobId> { set r | r in rows :: r.id }

  class SqliteStore {
    var harnesses: map<HarnessId, HarnessRow>
    var jobs: map<JobId, Job>
    var approvals: map<ApprovalId, Approval>
    var outbox: map<MsgId, OutboxRow>

    constructor ()
      ensures View() == Db(map[], map[], map[], map[])
    {
      harnesses, jobs, approvals, outbox := map[], map[], map[], map[];
    }

    function View(): Db
      reads this
    {
      Db(harnesses, jobs, approvals, outbox)
    }

    /** One of the newest of the given jobs. */
    method Newest(ids: set<JobId>) returns (newest: JobId)
      requires ids != {} && ids <= jobs.Keys
      ensures newest in ids && forall id | id in ids :: jobs[id].createdAt <= jobs[newest].createdAt
    {
      newest :| newest in ids;
      var rest := ids - {newest};
      while rest != {}
        invariant rest <= ids && newest in ids
        invariant forall id | id in ids && id !in rest :: jobs[id].createdAt <= jobs[newest].createdAt
        decreases |rest|
      {
        var id :| id in rest;
        if jobs[id].createdAt > jobs[newest].createdAt { newest := id; }
        rest := rest - {id};
      }
    }

    /** The listing holds distinct matching rows, newest first: all of them when
        they fit under the limit, else exactly the limit, dropping none newer
        than a row it keeps. */
    method ListJobs(f: JobFilter) returns (rows: seq<JobRow>)
      ensures RowsFrom(rows, jobs) && Ids(rows) <= Matching(jobs, f) && |rows| <= Limit(f)
      ensures |Matching(jobs, f)| <= Limit(f) ==> Ids(rows) == Matching(jobs, f)
      ensures |Matching(jobs, f)| > Limit(f) ==> |rows| == if f.limit > 0 then f.limit else 100
      ensures NewestFirst(rows)
      ensures forall id, i | id in Matching(jobs, f) - Ids(rows) && 0 <= i < |rows| ::
                jobs[id].createdAt <= rows[i].job.createdAt
    {
      var rest := Matching(jobs, f);
      rows := [];
      ListStart(jobs, f);
      while rest != {} && |rows| < Limit(f)
        invariant Listing(rows, rest, jobs, f)
        decreases |rest|
      {
        ListFacts(rows, rest, jobs, f);
        var id := Newest(rest);
        ListStep(rows, rest, jobs, f, id);
        hide Listing;
        rows := rows + [JobRow(id, jobs[id])];
        rest := rest - {id};
      }
      ListFacts(rows, rest, jobs, f);
      IdsCount(rows);
    }

    method TransitionJob(id: JobId, from: set<JobState>, to: JobState, p: JobPatch, now: int)
      returns (r: Result<Job, StoreError>)
      modifies this`jobs
      ensures jobs == Transition(old(jobs), id, from, to, p, now)
      ensures r.Ok? <==> CanMove(old(jobs), id, from)
      ensures r.Ok? ==> id in jobs && r.value == jobs[id]
      ensures r == Err(NotFound) <==> id !in old(jobs)
    {
      if CanMove(jobs, id, from) {
        jobs := jobs[id := Moved(jobs[id], to, p, now)];
        r := Ok(jobs[id]);
      } else if id in jobs {
        r := Err(Conflict);
      } else {
        r := Err(NotFound);
      }
    }

    method ExpireQueuedJobs(now: int)
      modifies this`jobs
      ensures jobs == ExpireQueued(old(jobs), now)
    {
      jobs := ExpireQueued(jobs, now);
    }

    method RecordProgress(id: JobId, seqNo: int) returns (applied: bool)
      modifies this`jobs
      ensures jobs == RecordSeq(old(jobs), id, seqNo) && applied == Progresses(old(jobs), id, seqNo)
    {
      applied := Progresses(jobs, id, seqNo);
      jobs := RecordSeq(jobs, id, seqNo);
    }

    method CreateApproval(a: ApprovalId, row: Approval) returns (r: Result<(), StoreError>)
      modifies this`approvals
      ensures r.Ok? <==> a !in old(approvals)
      ensures approvals == if r.Ok? then old(approvals)[a := row] else old(approvals)
    {
      if a in approvals { return Err(Conflict); }
      approvals := approvals[a := row];
      r := Ok(());
    }

    /** Written once, strictly before the expiry, and nothing else changes. */
    method DecideApproval(a: ApprovalId, d: Decision, who: UserId, at: int) returns (r: Result<(), StoreError>)
      modifies this`approvals
      ensures approvals == Decide(old(approvals), a, d, who, at)
      ensures r.Ok? <==> a in old(approvals) && old(approvals)[a].decision.None? && at < old(approvals)[a].expiresAt
      ensures approvals.Keys == old(approvals).Keys
      ensures forall x | x in approvals && x != a :: approvals[x] == old(approvals)[x]
      ensures r.Ok? ==> approvals[a] == old(approvals)[a].(decision := Some(d), decidedBy := who, decidedAt := at)
      ensures r.Ok? ==> forall later :: !Decidable(approvals, a, later)
      ensures !r.Ok? ==> approvals == old(approvals) && (r == Err(NotFound) <==> a !in approvals)
    {
      if a !in approvals { return Err(NotFound); }
      var row := approvals[a];
      if row.decision.Some? || row.expiresAt <= at { return Err(Conflict); }
      approvals := approvals[a := row.(decision := Some(d), decidedBy := who, decidedAt := at)];
      r := Ok(());
    }

    method Enqueue(h: HarnessId, env: Envelope)
      modifies this`outbox
      ensures outbox == Enqueued(old(outbox), h, env)
    {
      outbox := Enqueued(outbox, h, env);
    }

    method AckOutbox(m: MsgId, at: int)
      modifies this`outbox
      ensures outbox == AckRow(old(outbox), m, at)
    {
      outbox := AckRow(outbox, m, at);
    }

    method PurgeOutbox(before: int)
      modifies this`outbox
      ensures outbox == Purged(old(outbox), before)
    {
      outbox := Purged(outbox, before);
    }
  }

  lemma RowsGrow(rows: seq<JobRow>, jobs: map<JobId, Job>, id: JobId)
    requires RowsFrom(rows, jobs) && id in jobs && id !in Ids(rows)
    ensures RowsFrom(rows + [JobRow(id, jobs[id])], jobs) && Ids(rows + [JobRow(id, jobs[id])]) == Ids(rows) + {id}
    ensures |Ids(rows)| == |rows|
  {
    IdsCount(rows);
    IdsAppend(rows, JobRow(id, jobs[id]));
    assert forall i | 0 <= i < |rows| :: rows[i].id in Ids(rows);
  }

  /** Distinct rows, so as many ids as rows. */
  lemma {:induction false} IdsCount(rows: seq<JobRow>)
    requires forall i, k | 0 <= i < k < |rows| :: rows[i].id != rows[k].id
    ensures |Ids(rows)| == |rows|
    decreases |rows|
  {
    if rows != [] {
      var init, r := rows[..|rows| - 1], rows[|rows| - 1];
      IdsCount(init);
      IdsAppend(init, r);
      assert rows == init + [r];
      assert r.id !in Ids(init);
    }
  }

  /** Rows listed so far, and the matching jobs that are left. */
  ghost predicate Listing(rows: seq<JobRow>, rest: set<JobId>, jobs: map<JobId, Job>, f: JobFilter) {
    && (forall id :: id in Matching(jobs, f) <==> id in rest || id in Ids(rows))
    && (forall id | id in rest :: id !in Ids(rows))
    && RowsFrom(rows, jobs) && |rows| <= Limit(f) && NewestFirst(rows) && rest <= jobs.Keys
    && NoneNewer(rest, jobs, rows)
  }

  lemma ListStart(jobs: map<JobId, Job>, f: JobFilter)
    ensures Listing([], Matching(jobs, f), jobs, f)
  {
  }

  lemma ListFacts(rows: seq<JobRow>, rest: set<JobId>, jobs: map<JobId, Job>, f: JobFilter)
    requires Listing(rows, rest, jobs, f)
    ensures rest <= jobs.Keys && Ids(rows) + rest == Matching(jobs, f)
  {
  }

  lemma ListStep(rows: seq<JobRow>, rest: set<JobId>, jobs: map<JobId, Job>, f: JobFilter, id: JobId)
    requires Listing(rows, rest, jobs, f) && id in rest && |rows| < Limit(f)
    requires forall x | x in rest && x in jobs :: id in jobs && jobs[x].createdAt <= jobs[id].createdAt
    ensures Listing(rows + [JobRow(id, jobs[id])], rest - {id}, jobs, f)
  {
    RowsGrow(rows, jobs, id);
    OrderGrows(rows, rest, jobs, JobRow(id, jobs[id]));
    hide Matching, Ids, RowsFrom, NewestFirst, NoneNewer;
  }

  lemma OrderGrows(rows: seq<JobRow>, rest: set<JobId>, jobs: map<JobId, Job>, r: JobRow)
    requires rest <= jobs.Keys && NewestFirst(rows) && NoneNewer(rest, jobs, rows)
    requires r.id in rest && jobs[r.id] == r.job && forall x | x in rest :: jobs[x].createdAt <= r.job.createdAt
    ensures NewestFirst(rows + [r]) && NoneNewer(rest - {r.id}, jobs, rows + [r])
  {
  }

  lemma IdsAppend(rows: seq<JobRow>, r: JobRow)
    ensures Ids(rows + [r]) == Ids(rows) + {r.id}
  {
    assert forall x :: x in rows + [r] <==> x in rows || x == r;
  }
}
