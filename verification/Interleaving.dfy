/** The broker's handlers with nothing but the store's compare-and-set between
    them: a handler may stop after any store call and let others run, and it may
    be cut there for good, by a broker stop or a cancelled connection. */
module Interleaving {
  import opened Basics
  import opened Protocol
  import opened Store
  import opened Broker

  /** A handler that has read and is about to write. */
  datatype Call =
    | ResumeReported(id: JobId)                       // OnHello, reported and queued or dispatched
    | FailSilent(id: JobId)                           // OnHello, unreported and running or awaiting
    | DispatchSilent(id: JobId)                       // OnHello, unreported and queued
    | AckedJob(id: JobId)                             // OnAck, ok
    | NackedJob(id: JobId, code: string)              // OnAck, not ok
    | DispatchFailed(id: JobId)                       // createJob, write error
    | InsertApproval(id: JobId, a: ApprovalId, nonce: string, expiresAt: int)
    | AwaitApproval(id: JobId, a: ApprovalId)         // the row of `a` was just created
    | DecideClick(a: ApprovalId, d: Decision, user: UserId)
    | CheckPending(id: JobId)                         // HandleCallback after its decision
    | ResumeJob(id: JobId)                            // … and having found none pending
    | CancelQueued(id: JobId)
    | LoseJob(id: JobId)                              // Sweep
    | ApplyResult(h: HarnessId, id: JobId, result: JobResult)

  datatype Cas = Cas(id: JobId, from: set<JobState>, to: JobState, patch: JobPatch)

  /** The compare-and-set a call is about to do, if it is one. */
  function CasOf(c: Call): Option<Cas> {
    match c
    case ResumeReported(id) => Some(Cas(id, {Queued, Dispatched}, Running, NO_PATCH))
    case FailSilent(id) => Some(Cas(id, ACTIVE, Failed, Failure(RESTARTED)))
    case DispatchSilent(id) => Some(Cas(id, {Queued}, Dispatched, NO_PATCH))
    case AckedJob(id) => Some(Cas(id, {Dispatched}, Running, NO_PATCH))
    case NackedJob(id, code) => Some(Cas(id, ACTIVE, Failed, Failure("harness rejected the job: " + code)))
    case DispatchFailed(id) => Some(Cas(id, ACTIVE, Failed, Failure("dispatch failed")))
    case AwaitApproval(id, _) => Some(Cas(id, {Dispatched, Running}, Awaiting, NO_PATCH))
    case ResumeJob(id) => Some(Cas(id, {Awaiting}, Running, NO_PATCH))
    case CancelQueued(id) => Some(Cas(id, {Queued}, Cancelled, NO_PATCH))
    case LoseJob(id) => Some(Cas(id, ACTIVE, Lost, Failure(LOST_CONTACT)))
    case ApplyResult(_, id, r) => Some(Cas(id, OPEN, StateOf(r.status), ResultPatch(r)))
    case _ => None
  }

  /** A post addressed to a bot by its owner, past the checks that need no job rows. */
  datatype Post = Post(id: string, rootId: string, user: UserId)

  datatype Bot = Bot(userId: UserId, owner: UserId, harnessId: HarnessId)

  function RootOf(p: Post): string { if p.rootId != "" then p.rootId else p.id }

  /** The post HandleBotPost is busy with; routingMu admits one at a time. */
  datatype Routing = Routing(bot: Bot, post: Post)

  /** A result that was written, and the error its row had until then. */
  datatype Applied = Applied(id: JobId, h: HarnessId, result: JobResult, before: string)

  /** `entered`, `changes`, `applied` and `cut` are history: the approvals whose
      AwaitApproval ran, the state changes per job, the results written, and the
      calls that were cut. */
  datatype Mid = Mid(
    jobs: map<JobId, Job>, approvals: map<ApprovalId, Approval>, calls: map<nat, Call>, routing: Option<Routing>,
    entered: set<ApprovalId>, changes: map<JobId, nat>, applied: seq<Applied>, cut: set<Call>)

  datatype Step =
    | Begin(k: nat, call: Call)
    | Run(k: nat, now: int)
    | Cut(k: nat)
    | Expire(now: int)
    | RecordProgress(id: JobId, seqNo: int)
    | Route(bot: Bot, post: Post)
    | Insert(id: JobId, online: bool, now: int, ttl: nat)
    | GiveUp

  /** What the read before the write established, at the moment of the read. */
  predicate MayBegin(m: Mid, c: Call) {
    match c
    case ResumeReported(id) => id in m.jobs && m.jobs[id].state in {Queued, Dispatched}
    case FailSilent(id) => id in m.jobs && m.jobs[id].state in {Running, Awaiting}
    case DispatchSilent(id) => id in m.jobs && m.jobs[id].state.Queued?
    case AckedJob(_) => true
    case NackedJob(id, _) => id in m.jobs && m.jobs[id].state.Dispatched?
    case DispatchFailed(id) => id in m.jobs
    case InsertApproval(id, _, _, _) => id in m.jobs && !Terminal(m.jobs[id].state)
    case DecideClick(a, _, user) =>
      && a in m.approvals && m.approvals[a].jobId in m.jobs && m.jobs[m.approvals[a].jobId].ownerId == user
      && !Terminal(m.jobs[m.approvals[a].jobId].state)
    case CancelQueued(id) => id in m.jobs && m.jobs[id].state.Queued?
    case LoseJob(id) => id in m.jobs && m.jobs[id].state in {Dispatched, Running, Awaiting}
    case ApplyResult(h, id, _) => ResultRead(m.jobs, h, id).None?
    case _ => false
  }

  function TriggerFilter(bot: Bot, p: Post): JobFilter { JobFilter(bot.userId, p.id, "", "", "", {}, 1) }

  function ThreadFilter(bot: Bot, p: Post): JobFilter { JobFilter(bot.userId, "", p.user, "", RootOf(p), ACTIVE, 1) }

  /** A new post: its sender owns the bot, it made no job yet, and nothing of
      the sender is active in the thread. */
  predicate MayRoute(m: Mid, bot: Bot, p: Post) {
    && bot.userId != "" && bot.owner != "" && p.id != "" && p.user == bot.owner
    && Matching(m.jobs, TriggerFilter(bot, p)) == {} && Matching(m.jobs, ThreadFilter(bot, p)) == {}
  }

  predicate Enabled(m: Mid, step: Step) {
    match step
    case Begin(k, c) => k !in m.calls && MayBegin(m, c)
    case Run(k, _) => k in m.calls
    case Cut(k) => k in m.calls
    case Expire(_) => true
    case RecordProgress(_, _) => true
    case Route(bot, p) => m.routing.None? && MayRoute(m, bot, p)
    case Insert(id, _, _, _) => m.routing.Some? && id !in m.jobs
    case GiveUp => true
  }

  function Count(changes: map<JobId, nat>, j: JobId): nat { if j in changes then changes[j] else 0 }

  /** One more change for every job whose state differs. */
  function Tally(changes: map<JobId, nat>, jobs: map<JobId, Job>, jobs': map<JobId, Job>): map<JobId, nat> {
    map j | j in jobs' :: Count(changes, j) + (if j in jobs && jobs[j].state != jobs'[j].state then 1 else 0)
  }

  function SetJobs(m: Mid, jobs': map<JobId, Job>): Mid {
    m.(jobs := jobs', changes := Tally(m.changes, m.jobs, jobs'))
  }

  function RouteRow(r: Routing, online: bool, now: int, ttl: nat): Job {
    var dispatch := JobDispatch(r.bot.userId, RootOf(r.post), r.post.user, "", "");
    NewRow(NewJob("", "", r.bot.harnessId, r.post.id, dispatch), online, now, ttl)
  }

  predicate Moves(c: Call) { CasOf(c).Some? }

  function Written(jobs: map<JobId, Job>, c: Call, now: int): map<JobId, Job>
    requires Moves(c)
  {
    var x := CasOf(c).value;
    Transition(jobs, x.id, x.from, x.to, x.patch, now)
  }

  function Spent(entered: set<ApprovalId>, c: Call): set<ApprovalId> {
    if c.AwaitApproval? then entered + {c.a} else entered
  }

  function Logged(applied: seq<Applied>, jobs: map<JobId, Job>, c: Call): seq<Applied> {
    if c.ApplyResult? && CanMove(jobs, c.id, OPEN)
    then applied + [Applied(c.id, c.h, c.result, jobs[c.id].error)]
    else applied
  }

  /** A call that ends with its compare-and-set. */
  function Write(m: Mid, k: nat, c: Call, now: int): Mid
    requires Moves(c)
  {
    SetJobs(m, Written(m.jobs, c, now)).(
      calls := m.calls - {k}, entered := Spent(m.entered, c), applied := Logged(m.applied, m.jobs, c))
  }

  /** A call with another store call behind it; `k` then holds that one. */
  function Advance(m: Mid, k: nat, c: Call, now: int): Mid {
    match c
    case InsertApproval(id, a, nonce, expiresAt) =>
      if a in m.approvals then m.(calls := m.calls - {k})
      else m.(approvals := m.approvals[a := Approval(id, nonce, expiresAt, None, "", 0)],
              calls := m.calls[k := AwaitApproval(id, a)])
    case DecideClick(a, d, user) =>
      if !Decidable(m.approvals, a, now) then m.(calls := m.calls - {k})
      else m.(approvals := Decide(m.approvals, a, d, user, now),
              calls := m.calls[k := CheckPending(m.approvals[a].jobId)])
    case CheckPending(id) =>
      m.(calls := if HasPending(m.approvals, id) then m.calls - {k} else m.calls[k := ResumeJob(id)])
    case _ => m.(calls := m.calls - {k})
  }

  function Execute(m: Mid, k: nat, c: Call, now: int): Mid {
    if Moves(c) then Write(m, k, c, now) else Advance(m, k, c, now)
  }

  function Next(m: Mid, step: Step): Mid
    requires Enabled(m, step)
  {
    match step
    case Begin(k, c) => m.(calls := m.calls[k := c])
    case Run(k, now) => Execute(m, k, m.calls[k], now)
    case Cut(k) => m.(calls := m.calls - {k}, cut := m.cut + {m.calls[k]})
    case Expire(now) => SetJobs(m, ExpireQueued(m.jobs, now))
    case RecordProgress(id, seqNo) => SetJobs(m, RecordSeq(m.jobs, id, seqNo))
    case Route(bot, p) => m.(routing := Some(Routing(bot, p)))
    case Insert(id, online, now, ttl) =>
      var r := m.routing.value;
      if TriggerTaken(m.jobs, r.bot.userId, r.post.id) then m.(routing := None)
      else SetJobs(m, m.jobs[id := RouteRow(r, online, now, ttl)]).(routing := None)
    case GiveUp => m.(routing := None)
  }

  ghost predicate Runs(m: Mid, steps: seq<Step>, t: Mid)
    decreases |steps|
  {
    if steps == [] then m == t
    else Enabled(m, steps[0]) && Runs(Next(m, steps[0]), steps[1..], t)
  }

  const START := Mid(map[], map[], map[], None, {}, map[], [], {})

  ghost predicate Reachable(m: Mid) { exists steps :: Runs(START, steps, m) }

  /** What a call that does not end yet leaves alone. */
  lemma AdvanceShape(m: Mid, k: nat, c: Call, now: int)
    requires !Moves(c)
    ensures var t := Advance(m, k, c, now);
            && t.jobs == m.jobs && t.routing == m.routing && t.entered == m.entered
            && t.changes == m.changes && t.applied == m.applied
            && ApprovalsLe(m.approvals, t.approvals)
            && (forall x | x in t.calls && x != k :: x in m.calls && t.calls[x] == m.calls[x])
            && (k in t.calls ==> !t.calls[k].ApplyResult?)
            && (k in t.calls && t.calls[k].AwaitApproval? ==>
                  t.calls[k].a in t.approvals && t.approvals[t.calls[k].a].jobId == t.calls[k].id
                    && t.calls[k].a !in m.approvals)
  {
    hide HasPending, CasOf;
    assert Moves(c) <==> CasOf(c).Some?;
    if c.DecideClick? {
      DecideFinal(m.approvals, c.a, c.d, c.user, now);
      hide Decide;
    }
  }

  // --- the lifecycle ---

  /** Every compare-and-set in the broker moves forward, wherever the row has
      got to since the read, and pays for itself in `Base`. */
  lemma CasForward(c: Call)
    requires Moves(c)
    ensures var x := CasOf(c).value;
            && Forward(x.from, x.to)
            && (Lost in x.from ==> c == ApplyResult(c.h, x.id, c.result))
            && (forall s | s in x.from :: Base(s) + 1 <= Base(x.to) + (if c.AwaitApproval? then 2 else 0))
            && (c.AwaitApproval? ==> x.id == c.id)
  {
  }

  lemma MoveForward(m: Mid, c: Call, now: int)
    requires Moves(c)
    ensures JobsLe(m.jobs, Written(m.jobs, c, now)) && Written(m.jobs, c, now).Keys == m.jobs.Keys
    ensures FinishedAgree(m.jobs) ==> FinishedAgree(Written(m.jobs, c, now))
    ensures forall j | j in m.jobs && Written(m.jobs, c, now)[j] != m.jobs[j] ::
              j == CasOf(c).value.id && m.jobs[j].state in CasOf(c).value.from
  {
    CasForward(c);
    var x := CasOf(c).value;
    hide CasOf;
    TransitionForward(m.jobs, x.id, x.from, x.to, x.patch, now);
  }

  function InsertRow(m: Mid, id: JobId, online: bool, now: int, ttl: nat): map<JobId, Job>
    requires m.routing.Some?
  {
    var r := m.routing.value;
    if TriggerTaken(m.jobs, r.bot.userId, r.post.id) then m.jobs else m.jobs[id := RouteRow(r, online, now, ttl)]
  }

  /** The job table after a step. */
  function JobsAfter(m: Mid, step: Step): map<JobId, Job>
    requires Enabled(m, step)
  {
    match step
    case Run(k, now) => if Moves(m.calls[k]) then Written(m.jobs, m.calls[k], now) else m.jobs
    case Expire(now) => ExpireQueued(m.jobs, now)
    case RecordProgress(id, seqNo) => RecordSeq(m.jobs, id, seqNo)
    case Insert(id, online, now, ttl) => InsertRow(m, id, online, now, ttl)
    case _ => m.jobs
  }

  lemma NextJobs(m: Mid, step: Step)
    requires Enabled(m, step)
    ensures Next(m, step).jobs == JobsAfter(m, step)
    ensures Next(m, step).changes == Tally(m.changes, m.jobs, JobsAfter(m, step))
            || (JobsAfter(m, step) == m.jobs && Next(m, step).changes == m.changes)
  {
    if step.Run? && !Moves(m.calls[step.k]) {
      AdvanceShape(m, step.k, m.calls[step.k], step.now);
      hide Advance;
    }
    hide Written, ExpireQueued, RecordSeq, RouteRow, TriggerTaken, MayRoute, CasOf, MayBegin;
  }

  lemma RunForward(m: Mid, k: nat, now: int)
    requires k in m.calls
    ensures var jobs' := JobsAfter(m, Run(k, now));
            && JobsLe(m.jobs, jobs') && jobs'.Keys == m.jobs.Keys && (FinishedAgree(m.jobs) ==> FinishedAgree(jobs'))
            && (forall j | j in m.jobs && m.jobs[j].state.Lost? && !jobs'[j].state.Lost? ::
                m.calls[k].ApplyResult? && m.calls[k].id == j)
  {
    var c := m.calls[k];
    if Moves(c) {
      MoveForward(m, c, now);
      CasForward(c);
      hide CasOf, Written;
    }
  }

  lemma SeqForward(jobs: map<JobId, Job>, id: JobId, seqNo: int)
    ensures var jobs' := RecordSeq(jobs, id, seqNo);
            && JobsLe(jobs, jobs') && jobs'.Keys == jobs.Keys && (FinishedAgree(jobs) ==> FinishedAgree(jobs'))
            && forall j | j in jobs :: jobs'[j].state == jobs[j].state
  {
  }

  lemma InsertForward(m: Mid, id: JobId, online: bool, now: int, ttl: nat)
    requires m.routing.Some? && id !in m.jobs
    ensures var jobs' := InsertRow(m, id, online, now, ttl);
            && JobsLe(m.jobs, jobs') && (FinishedAgree(m.jobs) ==> FinishedAgree(jobs'))
            && forall j | j in m.jobs :: jobs'[j] == m.jobs[j]
  {
    hide TriggerTaken;
  }

  lemma OtherForward(m: Mid, step: Step)
    requires Enabled(m, step) && !step.Run?
    ensures var jobs' := JobsAfter(m, step);
            && JobsLe(m.jobs, jobs') && (FinishedAgree(m.jobs) ==> FinishedAgree(jobs'))
            && (!step.Insert? ==> jobs'.Keys == m.jobs.Keys)
            && (forall j | j in m.jobs && m.jobs[j].state.Lost? :: jobs'[j].state.Lost?)
  {
    match step
    case Expire(now) =>
      ExpireForward(m.jobs, now);
      hide JobsLe, FinishedAgree;
    case RecordProgress(id, seqNo) =>
      SeqForward(m.jobs, id, seqNo);
      hide JobsLe, FinishedAgree, RecordSeq;
    case Insert(id, online, now, ttl) =>
      InsertForward(m, id, online, now, ttl);
      hide JobsLe, FinishedAgree, InsertRow;
    case _ => hide FinishedAgree, MayRoute, MayBegin;
  }

  /** One step never lowers a rank, and only a result takes a job out of Lost. */
  lemma StepForward(m: Mid, step: Step)
    requires Enabled(m, step)
    ensures JobsLe(m.jobs, Next(m, step).jobs)
    ensures FinishedAgree(m.jobs) ==> FinishedAgree(Next(m, step).jobs)
    ensures forall j | j in m.jobs && m.jobs[j].state.Lost? && !Next(m, step).jobs[j].state.Lost? ::
              step.Run? && m.calls[step.k].ApplyResult? && m.calls[step.k].id == j
    ensures !step.Insert? ==> Next(m, step).jobs.Keys == m.jobs.Keys
  {
    NextJobs(m, step);
    if step.Run? {
      RunForward(m, step.k, step.now);
    } else {
      OtherForward(m, step);
    }
    hide Next, JobsAfter, JobsLe, FinishedAgree, MayRoute, MayBegin;
  }

  lemma JobsLeTransitive(a: map<JobId, Job>, b: map<JobId, Job>, c: map<JobId, Job>)
    requires JobsLe(a, b) && JobsLe(b, c)
    ensures JobsLe(a, c)
  {
  }

  lemma FinishedIffTerminal(m: Mid)
    requires Reachable(m)
    ensures forall j | j in m.jobs :: m.jobs[j].finishedAt.Some? <==> Terminal(m.jobs[j].state)
  {
    var steps :| Runs(START, steps, m);
    LifecycleForward(START, steps, m);
  }

  /** Over any run: ranks never fall, settled rows never change, and
      finished_at is set exactly on terminal rows. */
  lemma {:induction false} LifecycleForward(m: Mid, steps: seq<Step>, t: Mid)
    requires Runs(m, steps, t)
    ensures JobsLe(m.jobs, t.jobs)
    ensures FinishedAgree(m.jobs) ==> FinishedAgree(t.jobs)
    decreases |steps|
  {
    if steps != [] {
      var m' := Next(m, steps[0]);
      StepForward(m, steps[0]);
      LifecycleForward(m', steps[1..], t);
      JobsLeTransitive(m.jobs, m'.jobs, t.jobs);
    }
  }

  // --- how often a job can change state ---

  function Base(s: JobState): nat {
    match s
    case Queued => 0
    case Dispatched => 1
    case Running => 2
    case Awaiting => 1
    case Lost => 3
    case _ => 4
  }

  function ApprovalsOf(approvals: map<ApprovalId, Approval>, j: JobId): set<ApprovalId> {
    set a | a in approvals && approvals[a].jobId == j
  }

  function EnteredFor(m: Mid, j: JobId): set<ApprovalId> {
    set a | a in m.entered && a in m.approvals && m.approvals[a].jobId == j
  }

  /** Each AwaitApproval call carries its own approval, not yet spent. */
  ghost predicate CallsSpendOnce(m: Mid) {
    && m.entered <= m.approvals.Keys
    && (forall k | k in m.calls && m.calls[k].AwaitApproval? ::
          m.calls[k].a in m.approvals && m.approvals[m.calls[k].a].jobId == m.calls[k].id && m.calls[k].a !in m.entered)
    && (forall k, k' | k in m.calls && k' in m.calls && k != k'
                       && m.calls[k].AwaitApproval? && m.calls[k'].AwaitApproval? ::
          m.calls[k].a != m.calls[k'].a)
  }

  ghost predicate CountsOk(m: Mid) {
    forall j | j in m.jobs :: Count(m.changes, j) <= Base(m.jobs[j].state) + 2 * |EnteredFor(m, j)|
  }

  ghost predicate Counted(m: Mid) {
    CallsSpendOnce(m) && CountsOk(m) && m.changes.Keys <= m.jobs.Keys
  }

  lemma SpendStep(m: Mid, step: Step)
    requires CallsSpendOnce(m) && Enabled(m, step)
    ensures CallsSpendOnce(Next(m, step))
  {
    if step.Run? {
      var c := m.calls[step.k];
      if Moves(c) {
        hide CasOf, Written, Tally, Logged;
      } else {
        AdvanceShape(m, step.k, c, step.now);
        hide Advance;
      }
    }
  }

  predicate Spends(m: Mid, step: Step, j: JobId)
    requires Enabled(m, step)
  {
    step.Run? && m.calls[step.k].AwaitApproval? && m.calls[step.k].id == j
  }

  lemma EnteredShape(m: Mid, step: Step)
    requires Enabled(m, step)
    ensures ApprovalsLe(m.approvals, Next(m, step).approvals)
    ensures Next(m, step).entered == if step.Run? then Spent(m.entered, m.calls[step.k]) else m.entered
  {
    if step.Run? && !Moves(m.calls[step.k]) {
      AdvanceShape(m, step.k, m.calls[step.k], step.now);
      hide Advance;
    }
  }

  /** The approvals spent for a job grow by one exactly when its own runs. */
  lemma EnteredStep(m: Mid, step: Step, j: JobId)
    requires CallsSpendOnce(m) && Enabled(m, step)
    ensures |EnteredFor(Next(m, step), j)| == |EnteredFor(m, j)| + (if Spends(m, step, j) then 1 else 0)
  {
    var t := Next(m, step);
    EnteredShape(m, step);
    hide Next;
    if Spends(m, step, j) {
      assert EnteredFor(t, j) == EnteredFor(m, j) + {m.calls[step.k].a};
    } else {
      assert EnteredFor(t, j) == EnteredFor(m, j);
    }
  }

  /** A state change is paid for by a higher base or by a newly spent approval. */
  lemma ChangePaid(m: Mid, step: Step, j: JobId)
    requires Enabled(m, step) && j in m.jobs
    ensures var jobs' := JobsAfter(m, step);
            j in jobs' && Base(m.jobs[j].state) + (if jobs'[j].state != m.jobs[j].state then 1 else 0)
                          <= Base(jobs'[j].state) + (if Spends(m, step, j) then 2 else 0)
  {
    if step.Run? && Moves(m.calls[step.k]) {
      CasForward(m.calls[step.k]);
      MoveForward(m, m.calls[step.k], step.now);
      hide CasOf;
    } else {
      hide Written, MayRoute, MayBegin;
    }
  }

  lemma CountJob(m: Mid, step: Step, j: JobId)
    requires Counted(m) && Enabled(m, step) && j in JobsAfter(m, step)
    ensures Count(Tally(m.changes, m.jobs, JobsAfter(m, step)), j) <=
            Base(JobsAfter(m, step)[j].state) + 2 * |EnteredFor(Next(m, step), j)|
    ensures Count(m.changes, j) <= Base(JobsAfter(m, step)[j].state) + 2 * |EnteredFor(Next(m, step), j)|
  {
    EnteredStep(m, step, j);
    if j in m.jobs { ChangePaid(m, step, j); }
    hide Next, JobsAfter, Base, CallsSpendOnce, EnteredFor;
  }

  lemma CountStep(m: Mid, step: Step)
    requires Counted(m) && Enabled(m, step)
    ensures Counted(Next(m, step))
  {
    SpendStep(m, step);
    NextJobs(m, step);
    StepForward(m, step);
    forall j | j in JobsAfter(m, step)
      ensures Count(Tally(m.changes, m.jobs, JobsAfter(m, step)), j) <=
              Base(JobsAfter(m, step)[j].state) + 2 * |EnteredFor(Next(m, step), j)|
      ensures Count(m.changes, j) <= Base(JobsAfter(m, step)[j].state) + 2 * |EnteredFor(Next(m, step), j)|
    {
      CountJob(m, step, j);
    }
    hide Next, Enabled, CallsSpendOnce, JobsAfter, JobsLe, Base, FinishedAgree, EnteredFor, Count;
  }

  lemma {:induction false} CountRun(m: Mid, steps: seq<Step>, t: Mid)
    requires Counted(m) && Runs(m, steps, t)
    ensures Counted(t)
    decreases |steps|
  {
    if steps != [] {
      CountStep(m, steps[0]);
      CountRun(Next(m, steps[0]), steps[1..], t);
    }
  }

  lemma SubsetSize<T>(a: set<T>, b: set<T>)
    requires a <= b
    ensures |a| <= |b|
  {
    assert b == a + (b - a);
  }

  /** A job changes state at most four times, plus twice per approval made for it. */
  lemma FewChanges(m: Mid, j: JobId)
    requires Reachable(m) && j in m.jobs
    ensures Count(m.changes, j) <= 4 + 2 * |ApprovalsOf(m.approvals, j)|
  {
    var steps :| Runs(START, steps, m);
    CountRun(START, steps, m);
    SubsetSize(EnteredFor(m, j), ApprovalsOf(m.approvals, j));
  }

  // --- first result wins ---

  predicate Carries(j: Job, x: Applied) {
    Records(j, x.result, x.before) && j.harnessId == x.h
  }

  ghost predicate ResultsOk(m: Mid) {
    CallsOwned(m.calls, m.jobs) && LogShown(m.applied, m.jobs) && LogDistinct(m.applied)
      && TextLogged(m.applied, m.jobs)
  }

  /** Settled rows, and so the rows of written results, stay as they are. */
  lemma AppliedFrozen(applied: seq<Applied>, jobs: map<JobId, Job>, jobs': map<JobId, Job>)
    requires LogShown(applied, jobs) && JobsLe(jobs, jobs')
    ensures LogShown(applied, jobs')
  {
    forall i | 0 <= i < |applied| ensures applied[i].id in jobs' && Carries(jobs'[applied[i].id], applied[i]) {
      assert Carries(jobs[applied[i].id], applied[i]);
    }
  }

  /** Only a result writes result_text, and it writes its own. */
  lemma WrittenText(jobs: map<JobId, Job>, c: Call, now: int)
    requires Moves(c)
    ensures var jobs' := Written(jobs, c, now);
            && jobs'.Keys == jobs.Keys
            && (forall j | j in jobs && !(c.ApplyResult? && c.id == j && CanMove(jobs, j, OPEN)) ::
                jobs'[j].resultText == jobs[j].resultText)
            && (c.ApplyResult? && CanMove(jobs, c.id, OPEN) && jobs[c.id].harnessId == c.h ==>
                  Carries(jobs'[c.id], Applied(c.id, c.h, c.result, jobs[c.id].error)))
  {
  }

  ghost predicate CallsOwned(calls: map<nat, Call>, jobs: map<JobId, Job>) {
    forall k | k in calls && calls[k].ApplyResult? :: calls[k].id in jobs && jobs[calls[k].id].harnessId == calls[k].h
  }

  ghost predicate LogShown(applied: seq<Applied>, jobs: map<JobId, Job>) {
    forall i | 0 <= i < |applied| :: applied[i].id in jobs && Carries(jobs[applied[i].id], applied[i])
  }

  ghost predicate LogDistinct(applied: seq<Applied>) {
    forall i, k | 0 <= i < k < |applied| :: applied[i].id != applied[k].id
  }

  ghost predicate TextLogged(applied: seq<Applied>, jobs: map<JobId, Job>) {
    forall j | j in jobs && jobs[j].resultText != "" :: exists i :: 0 <= i < |applied| && applied[i].id == j
  }

  lemma ResultsWrite(m: Mid, c: Call, now: int)
    requires LogShown(m.applied, m.jobs) && LogDistinct(m.applied) && TextLogged(m.applied, m.jobs) && Moves(c)
    requires c.ApplyResult? && c.id in m.jobs ==> m.jobs[c.id].harnessId == c.h
    ensures var jobs', applied' := Written(m.jobs, c, now), Logged(m.applied, m.jobs, c);
            LogShown(applied', jobs') && LogDistinct(applied') && TextLogged(applied', jobs')
  {
    MoveForward(m, c, now);
    AppliedFrozen(m.applied, m.jobs, Written(m.jobs, c, now));
    WrittenText(m.jobs, c, now);
    hide CasOf, Written, Carries;
    if c.ApplyResult? && CanMove(m.jobs, c.id, OPEN) {
      NoneApplied(m.applied, m.jobs, c.id);
      LogGrows(m.applied, m.jobs, Written(m.jobs, c, now), Applied(c.id, c.h, c.result, m.jobs[c.id].error));
    }
    hide LogShown, LogDistinct;
  }

  /** One more entry, for a job that had none and now shows it. */
  lemma LogGrows(applied: seq<Applied>, jobs: map<JobId, Job>, jobs': map<JobId, Job>, x: Applied)
    requires LogShown(applied, jobs') && LogDistinct(applied) && TextLogged(applied, jobs) && jobs'.Keys == jobs.Keys
    requires forall i | 0 <= i < |applied| :: applied[i].id != x.id
    requires x.id in jobs' && Carries(jobs'[x.id], x)
    requires forall j | j in jobs && j != x.id :: jobs'[j].resultText == jobs[j].resultText
    ensures LogShown(applied + [x], jobs') && LogDistinct(applied + [x]) && TextLogged(applied + [x], jobs')
  {
    hide Carries;
    var applied' := applied + [x];
    assert applied'[|applied|].id == x.id;
    forall j | j in jobs' && jobs'[j].resultText != "" ensures exists i :: 0 <= i < |applied'| && applied'[i].id == j {
      if j != x.id {
        var i :| 0 <= i < |applied| && applied[i].id == j;
        assert applied'[i] == applied[i];
      }
    }
  }

  /** A job that can still take a result has taken none. */
  lemma NoneApplied(applied: seq<Applied>, jobs: map<JobId, Job>, id: JobId)
    requires LogShown(applied, jobs) && CanMove(jobs, id, OPEN)
    ensures forall i | 0 <= i < |applied| :: applied[i].id != id
  {
    forall i | 0 <= i < |applied| ensures applied[i].id != id {
      assert Carries(jobs[applied[i].id], applied[i]);
    }
  }

  /** Steps that write no result leave the log and the texts alone. */
  lemma ResultsFrame(m: Mid, step: Step)
    requires Enabled(m, step) && (step.Run? ==> !Moves(m.calls[step.k]))
    ensures var t := Next(m, step);
            && t.applied == m.applied
            && (forall j | j in m.jobs :: j in t.jobs && t.jobs[j].resultText == m.jobs[j].resultText)
            && (forall j | j in t.jobs && j !in m.jobs :: t.jobs[j].resultText == "")
            && (forall k | k in t.calls && t.calls[k].ApplyResult? ::
                  (k in m.calls && t.calls[k] == m.calls[k]) || ResultRead(m.jobs, t.calls[k].h, t.calls[k].id).None?)
  {
    if step.Run? {
      AdvanceShape(m, step.k, m.calls[step.k], step.now);
      hide Advance;
    }
  }

  lemma ResultsStep(m: Mid, step: Step)
    requires ResultsOk(m) && Enabled(m, step)
    ensures ResultsOk(Next(m, step))
  {
    StepForward(m, step);
    if step.Run? && Moves(m.calls[step.k]) {
      ResultsWrite(m, m.calls[step.k], step.now);
      hide LogShown, LogDistinct, TextLogged, CasOf, Written, Logged, Tally, Spent;
    } else {
      ResultsFrame(m, step);
      AppliedFrozen(m.applied, m.jobs, Next(m, step).jobs);
      hide Next, LogShown, LogDistinct;
    }
  }

  lemma {:induction false} ResultsRun(m: Mid, steps: seq<Step>, t: Mid)
    requires ResultsOk(m) && Runs(m, steps, t)
    ensures ResultsOk(t)
    decreases |steps|
  {
    if steps != [] {
      ResultsStep(m, steps[0]);
      ResultsRun(Next(m, steps[0]), steps[1..], t);
    }
  }

  /** However many results race: at most one is written per job, it came from
      the job's own harness, and the row shows exactly that result. */
  lemma FirstResultWins(m: Mid)
    requires Reachable(m)
    ensures forall i, k | 0 <= i < k < |m.applied| :: m.applied[i].id != m.applied[k].id
    ensures forall i | 0 <= i < |m.applied| ::
              m.applied[i].id in m.jobs && Carries(m.jobs[m.applied[i].id], m.applied[i])
    ensures forall j | j in m.jobs && m.jobs[j].resultText != "" ::
              exists i :: 0 <= i < |m.applied| && m.applied[i].id == j
  {
    var steps :| Runs(START, steps, m);
    ResultsRun(START, steps, m);
  }

  /** Along the way no result of job `j` is written, and call k is not cut. */
  ghost predicate Spared(m: Mid, steps: seq<Step>, k: nat, j: JobId)
    decreases |steps|
  {
    steps != [] ==>
      && Enabled(m, steps[0]) && Spared(Next(m, steps[0]), steps[1..], k, j) && steps[0] != Cut(k)
      && (steps[0].Run? ==> !(m.calls[steps[0].k].ApplyResult? && m.calls[steps[0].k].id == j))
  }

  lemma CallStays(m: Mid, step: Step, k: nat)
    requires Enabled(m, step) && k in m.calls && !(step.Run? && step.k == k) && step != Cut(k)
    ensures k in Next(m, step).calls && Next(m, step).calls[k] == m.calls[k]
  {
    hide Written, Tally, Spent, Logged, Decide, HasPending, CasOf, MayBegin, MayRoute, ExpireQueued, RecordSeq;
  }

  lemma AppliedIsShown(m: Mid, k: nat, now: int)
    requires k in m.calls && m.calls[k].ApplyResult? && m.calls[k].id in m.jobs
    ensures var c, t := m.calls[k], Next(m, Run(k, now));
            && (m.jobs[c.id].state in OPEN <==>
                t.applied == m.applied + [Applied(c.id, c.h, c.result, m.jobs[c.id].error)])
            && (m.jobs[c.id].state in OPEN ==> Records(t.jobs[c.id], c.result, m.jobs[c.id].error))
  {
  }

  /** A lost job still takes a result: once one was read, it stays lost and
      writable through any steps that write no other result of it and do not
      cut the call, and the write then records exactly that result. */
  lemma {:induction false} LostStillAccepts(m: Mid, steps: seq<Step>, t: Mid, k: nat, now: int)
    requires k in m.calls && m.calls[k].ApplyResult? && m.calls[k].id in m.jobs && m.jobs[m.calls[k].id].state.Lost?
    requires Runs(m, steps, t) && Spared(m, steps, k, m.calls[k].id)
    ensures var c := m.calls[k];
            && k in t.calls && t.calls[k] == c && c.id in t.jobs && t.jobs[c.id].state.Lost?
            && var u := Next(t, Run(k, now));
               && u.applied == t.applied + [Applied(c.id, c.h, c.result, t.jobs[c.id].error)]
               && Records(u.jobs[c.id], c.result, t.jobs[c.id].error)
    decreases |steps|
  {
    if steps == [] {
      AppliedIsShown(m, k, now);
    } else {
      CallStays(m, steps[0], k);
      StepForward(m, steps[0]);
      hide Next, FinishedAgree;
      LostStillAccepts(Next(m, steps[0]), steps[1..], t, k, now);
    }
  }

  // --- routing ---

  ghost predicate OneJobPerPost(jobs: map<JobId, Job>) {
    forall i, j | i in jobs && j in jobs && i != j && jobs[i].botUserId != ""
      && jobs[i].botUserId == jobs[j].botUserId ::
      jobs[i].triggerPostId != jobs[j].triggerPostId
  }

  predicate SameThread(a: Job, b: Job) {
    a.botUserId == b.botUserId && a.ownerId == b.ownerId && a.rootPostId == b.rootPostId
  }

  ghost predicate OneActivePerThread(jobs: map<JobId, Job>) {
    forall i, j | i in jobs && j in jobs && i != j && SameThread(jobs[i], jobs[j]) ::
      !(jobs[i].state in ACTIVE && jobs[j].state in ACTIVE)
  }

  ghost predicate RoutingOk(m: Mid) {
    && OneJobPerPost(m.jobs) && OneActivePerThread(m.jobs)
    && (m.routing.Some? ==> MayRoute(m, m.routing.value.bot, m.routing.value.post))
  }

  /** Moving jobs forward makes nothing active again and renames nothing. */
  lemma ForwardKeepsRouting(jobs: map<JobId, Job>, jobs': map<JobId, Job>)
    requires JobsLe(jobs, jobs') && jobs'.Keys == jobs.Keys
    ensures OneJobPerPost(jobs) ==> OneJobPerPost(jobs')
    ensures OneActivePerThread(jobs) ==> OneActivePerThread(jobs')
    ensures forall f | Matching(jobs, f) == {} && (f.states == {} || f.states == ACTIVE) :: Matching(jobs', f) == {}
  {
    assert forall j | j in jobs' && jobs'[j].state in ACTIVE :: jobs[j].state in ACTIVE;
    forall f | Matching(jobs, f) == {} && (f.states == {} || f.states == ACTIVE) ensures Matching(jobs', f) == {} {
      forall j | j in jobs' ensures !Matches(jobs'[j], f) {
        assert j !in Matching(jobs, f);
      }
    }
  }

  /** What the two listings let through: the post made no job of the bot yet, and
      its author has none active with the bot in that thread. */
  lemma RoutingReads(m: Mid, bot: Bot, p: Post)
    ensures MayRoute(m, bot, p) <==>
              && bot.userId != "" && p.id != "" && p.user != "" && p.user == bot.owner
              && (forall j | j in m.jobs && m.jobs[j].botUserId == bot.userId :: m.jobs[j].triggerPostId != p.id)
              && (forall j | j in m.jobs && m.jobs[j].botUserId == bot.userId && m.jobs[j].ownerId == p.user
                             && m.jobs[j].rootPostId == (if p.rootId == "" then p.id else p.rootId) ::
                    m.jobs[j].state !in {Queued, Dispatched, Running, Awaiting})
  {
    if bot.userId != "" && p.id != "" && p.user != "" {
      assert forall j | j in m.jobs ::
          j in Matching(m.jobs, TriggerFilter(bot, p)) <==>
          m.jobs[j].botUserId == bot.userId && m.jobs[j].triggerPostId == p.id;
      assert forall j | j in m.jobs ::
          j in Matching(m.jobs, ThreadFilter(bot, p)) <==>
          m.jobs[j].botUserId == bot.userId && m.jobs[j].ownerId == p.user && m.jobs[j].rootPostId == RootOf(p)
          && m.jobs[j].state in ACTIVE;
      hide Matching;
    }
  }

  lemma InsertKeepsRouting(m: Mid, id: JobId, online: bool, now: int, ttl: nat)
    requires RoutingOk(m) && m.routing.Some? && id !in m.jobs
    ensures RoutingOk(Next(m, Insert(id, online, now, ttl)))
  {
    var r := m.routing.value;
    var row := RouteRow(r, online, now, ttl);
    forall j | j in m.jobs
      ensures m.jobs[j].botUserId == r.bot.userId ==> m.jobs[j].triggerPostId != r.post.id
    {
      assert j !in Matching(m.jobs, TriggerFilter(r.bot, r.post));
    }
    forall j | j in m.jobs
      ensures SameThread(m.jobs[j], row) ==> m.jobs[j].state !in ACTIVE
    {
      assert j !in Matching(m.jobs, ThreadFilter(r.bot, r.post));
    }
    AddRouted(m.jobs, id, row);
    hide MayRoute, Matching, OneJobPerPost, OneActivePerThread;
  }

  lemma AddRouted(jobs: map<JobId, Job>, id: JobId, row: Job)
    requires OneJobPerPost(jobs) && OneActivePerThread(jobs) && id !in jobs
    requires forall j | j in jobs :: jobs[j].botUserId == row.botUserId ==> jobs[j].triggerPostId != row.triggerPostId
    requires forall j | j in jobs :: SameThread(jobs[j], row) ==> jobs[j].state !in ACTIVE
    ensures OneJobPerPost(jobs[id := row]) && OneActivePerThread(jobs[id := row])
  {
  }

  lemma RoutingFrame(m: Mid, step: Step)
    requires Enabled(m, step) && !step.Insert?
    ensures var t := Next(m, step);
            t.routing.Some? ==>
              t.routing == m.routing
              || (step.Route? && t.jobs == m.jobs && MayRoute(m, t.routing.value.bot, t.routing.value.post))
  {
    if step.Run? && !Moves(m.calls[step.k]) {
      AdvanceShape(m, step.k, m.calls[step.k], step.now);
      hide Advance;
    }
  }

  lemma RoutingStep(m: Mid, step: Step)
    requires RoutingOk(m) && Enabled(m, step)
    ensures RoutingOk(Next(m, step))
  {
    if step.Insert? {
      InsertKeepsRouting(m, step.id, step.online, step.now, step.ttl);
    } else {
      StepForward(m, step);
      RoutingFrame(m, step);
      hide Next;
      ForwardKeepsRouting(m.jobs, Next(m, step).jobs);
    }
  }

  lemma {:induction false} RoutingRun(m: Mid, steps: seq<Step>, t: Mid)
    requires RoutingOk(m) && Runs(m, steps, t)
    ensures RoutingOk(t)
    decreases |steps|
  {
    if steps != [] {
      RoutingStep(m, steps[0]);
      RoutingRun(Next(m, steps[0]), steps[1..], t);
    }
  }

  /** However often posts are delivered, between whatever transitions: a post
      makes at most one job per bot, and an owner has at most one active job
      per bot and thread. */
  lemma PostsRouteOnce(m: Mid)
    requires Reachable(m)
    ensures OneJobPerPost(m.jobs) && OneActivePerThread(m.jobs)
  {
    var steps :| Runs(START, steps, m);
    RoutingRun(START, steps, m);
  }

  // --- run without interruption, the calls are the handlers ---

  function RunOn(m: Mid, k: nat, now: int): Mid { if k in m.calls then Execute(m, k, m.calls[k], now) else m }

  /** A handler's call, run to its end at once. */
  function Alone(m: Mid, c: Call, now: int): Mid {
    var k := 0;
    RunOn(RunOn(RunOn(m.(calls := map[k := c]), k, now), k, now), k, now)
  }

  lemma RequestAlone(m: Mid, db: Db, h: HarnessId, id: JobId, a: ApprovalId, expiresAt: int, nonce: string, now: int)
    requires db.jobs == m.jobs && db.approvals == m.approvals && RequestAck(db, h, id).ok
    ensures var t := Alone(m, InsertApproval(id, a, nonce, expiresAt), now);
            var db' := OnApprovalRequest(db, h, id, a, expiresAt, nonce, now);
            t.jobs == db'.jobs && t.approvals == db'.approvals
    ensures MayBegin(m, InsertApproval(id, a, nonce, expiresAt))
  {
    hide Transition, Tally, Terminal;
  }

  lemma ClickCalls(m: Mid, a: ApprovalId, d: Decision, user: UserId, now: int)
    requires Decidable(m.approvals, a, now)
    ensures var t, approvals' := Alone(m, DecideClick(a, d, user), now), Decide(m.approvals, a, d, user, now);
            t.approvals == approvals' && t.jobs == ClickJobs(m.jobs, approvals', m.approvals[a].jobId, now)
  {
    hide Transition, Tally, HasPending;
  }

  lemma ClickTables(b: BrokerState, c: Click, msg: MsgId, now: int)
    requires ClickVerdict(b.db, c, now) == Recorded
    ensures var db' := HandleCallback(b, c, msg, now).db;
            var approvals' := Decide(b.db.approvals, c.approval, c.decision.value, c.user, now);
            && db'.approvals == approvals'
            && db'.jobs == ClickJobs(b.db.jobs, approvals', b.db.approvals[c.approval].jobId, now)
  {
    hide Transition, HasPending;
  }

  lemma ClickAlone(m: Mid, b: BrokerState, c: Click, msg: MsgId, now: int)
    requires b.db.jobs == m.jobs && b.db.approvals == m.approvals && ClickVerdict(b.db, c, now) == Recorded
    ensures var t := Alone(m, DecideClick(c.approval, c.decision.value, c.user), now);
            var db' := HandleCallback(b, c, msg, now).db;
            t.jobs == db'.jobs && t.approvals == db'.approvals
    ensures MayBegin(m, DecideClick(c.approval, c.decision.value, c.user))
  {
    ClickCalls(m, c.approval, c.decision.value, c.user, now);
    ClickTables(b, c, msg, now);
    hide Alone, HandleCallback, Decide, ClickJobs;
  }

  /** OnResult goes on to its write exactly when the call may begin. */
  lemma ResultAlone(m: Mid, h: HarnessId, id: JobId, r: JobResult, now: int)
    ensures Alone(m, ApplyResult(h, id, r), now).jobs == ResultCas(m.jobs, id, r, now)
    ensures MayBegin(m, ApplyResult(h, id, r)) <==> ResultRead(m.jobs, h, id).None?
  {
  }

  /** What OnAck does about a job, if anything. */
  function AckCall(jobs: map<JobId, Job>, h: HarnessId, id: JobId, a: Ack): Option<Call> {
    if id == "" then None
    else if a.ok then Some(AckedJob(id))
    else if id in jobs && jobs[id].harnessId == h && jobs[id].state.Dispatched? then Some(NackedJob(id, a.code))
    else None
  }

  lemma AckAlone(m: Mid, b: BrokerState, h: HarnessId, ref: MsgId, id: JobId, a: Ack, now: int)
    requires b.db.jobs == m.jobs
    ensures HandleAck(b, h, ref, id, a, now).db.jobs ==
            match AckCall(m.jobs, h, id, a)
            case Some(c) => Alone(m, c, now).jobs
            case None => m.jobs
    ensures AckCall(m.jobs, h, id, a).Some? ==> MayBegin(m, AckCall(m.jobs, h, id, a).value)
  {
    hide Tally;
  }

  /** The insert of a routed post is the creation's, and a first write that
      fails then ends the job as the creation does. */
  lemma CreateAlone(m: Mid, b: BrokerState, id: JobId, msg: MsgId, now: int, ttl: nat)
    requires b.db.jobs == m.jobs && m.routing.Some? && id !in m.jobs
    requires !TriggerTaken(m.jobs, m.routing.value.bot.userId, m.routing.value.post.id)
    ensures var r := m.routing.value;
            var dispatch := JobDispatch(r.bot.userId, RootOf(r.post), r.post.user, "", "");
            var n, online := NewJob(id, msg, r.bot.harnessId, r.post.id, dispatch), r.bot.harnessId in b.conns;
            var t := Next(m, Insert(id, online, now, ttl));
            && t.jobs == CreateJob(b, n, now, ttl, true).db.jobs && t.routing.None?
            && MayBegin(t, DispatchFailed(id))
            && (online ==> Alone(t, DispatchFailed(id), now).jobs == CreateJob(b, n, now, ttl, false).db.jobs)
  {
    hide Tally, SendReliable, TriggerTaken;
    InsertedRow(m, b, id, msg, now, ttl);
  }

  lemma InsertedRow(m: Mid, b: BrokerState, id: JobId, msg: MsgId, now: int, ttl: nat)
    requires b.db.jobs == m.jobs && m.routing.Some? && id !in m.jobs
    requires !TriggerTaken(m.jobs, m.routing.value.bot.userId, m.routing.value.post.id)
    ensures var r := m.routing.value;
            var dispatch := JobDispatch(r.bot.userId, RootOf(r.post), r.post.user, "", "");
            var n, online := NewJob(id, msg, r.bot.harnessId, r.post.id, dispatch), r.bot.harnessId in b.conns;
            var jobs' := m.jobs[id := RouteRow(r, online, now, ttl)];
            && CreateJob(b, n, now, ttl, true).db.jobs == jobs'
            && CreateJob(b, n, now, ttl, false).db.jobs ==
               if online then FailJob(jobs', id, "dispatch failed", now) else jobs'
  {
  }

  /** A cancel of a queued job, and the sweep's verdict on an abandoned one. */
  lemma CancelAlone(m: Mid, b: BrokerState, row: JobRow, msg: MsgId, reason: string, now: int)
    requires b.db.jobs == m.jobs && row.id in m.jobs && row.job == m.jobs[row.id] && row.job.state.Queued?
    ensures CancelJob(b, row, msg, reason, now).db.jobs == Alone(m, CancelQueued(row.id), now).jobs
    ensures MayBegin(m, CancelQueued(row.id))
  {
    hide Tally;
  }

  lemma LoseAlone(m: Mid, b: BrokerState, row: JobRow, msg: MsgId, cfg: Config, now: int)
    requires b.db.jobs == m.jobs && row.id in m.jobs && row.job == m.jobs[row.id]
    requires row.job.state in {Dispatched, Running, Awaiting} && row.job.harnessId !in b.conns
    requires Abandoned(b.db, row.job.harnessId, cfg, now)
    ensures SweepOne(b, row, msg, cfg, now).db.jobs == Alone(m, LoseJob(row.id), now).jobs
    ensures MayBegin(m, LoseJob(row.id))
  {
    hide Tally;
  }

  /** What OnHello does about one job, if anything. */
  function HelloCall(jobs: map<JobId, Job>, h: HarnessId, reported: set<JobId>, id: JobId): Option<Call>
    requires id in jobs
  {
    var j := jobs[id];
    if j.harnessId != h then None
    else if id in reported then if j.state in {Queued, Dispatched} then Some(ResumeReported(id)) else None
    else if j.state in {Running, Awaiting} then Some(FailSilent(id))
    else if j.state.Queued? then Some(DispatchSilent(id))
    else None
  }

  lemma HelloAlone(m: Mid, h: HarnessId, reported: set<JobId>, id: JobId, now: int)
    requires id in m.jobs
    ensures HelloJobs(m.jobs, h, reported, now)[id] ==
            match HelloCall(m.jobs, h, reported, id)
            case Some(c) => Alone(m, c, now).jobs[id]
            case None => m.jobs[id]
    ensures HelloCall(m.jobs, h, reported, id).Some? ==> MayBegin(m, HelloCall(m.jobs, h, reported, id).value)
  {
  }
}
