/** When "awaiting approval" and "has an undecided approval" agree although
    requests and clicks interleave between any two store calls, and may be cut
    between them. Everything is said of one job, whatever happens to others. */
module Agreement {
  import opened Basics
  import opened Protocol
  import opened Store
  import opened Broker
  import opened Interleaving

  type Jobs = map<JobId, Job>
  type Approvals = map<ApprovalId, Approval>
  type Calls = map<nat, Call>

  /** The job a call in flight is about. */
  function About(approvals: Approvals, c: Call): Option<JobId> {
    match c
    case DecideClick(a, _, _) => if a in approvals then Some(approvals[a].jobId) else None
    case ResumeReported(id) => Some(id)
    case FailSilent(id) => Some(id)
    case DispatchSilent(id) => Some(id)
    case AckedJob(id) => Some(id)
    case NackedJob(id, _) => Some(id)
    case DispatchFailed(id) => Some(id)
    case InsertApproval(id, _, _, _) => Some(id)
    case AwaitApproval(id, _) => Some(id)
    case CheckPending(id) => Some(id)
    case ResumeJob(id) => Some(id)
    case CancelQueued(id) => Some(id)
    case LoseJob(id) => Some(id)
    case ApplyResult(_, id, _) => Some(id)
  }

  ghost predicate Busy(m: Mid, j: JobId) { exists k :: k in m.calls && About(m.approvals, m.calls[k]) == Some(j) }

  /** The second half of a request, and of a click. */
  predicate Enters(c: Call, j: JobId) { c.AwaitApproval? && c.id == j }

  predicate Leaves(c: Call, j: JobId) { c == CheckPending(j) || c == ResumeJob(j) }

  /** A request or a click of the job was cut between its two halves. */
  ghost predicate CutShort(cut: set<Call>, j: JobId) { exists c :: c in cut && (Enters(c, j) || Leaves(c, j)) }

  predicate Active(jobs: Jobs, j: JobId) { j in jobs && jobs[j].state in {Dispatched, Running, Awaiting} }

  predicate Agrees(jobs: Jobs, approvals: Approvals, j: JobId)
    requires j in jobs
  {
    jobs[j].state.Awaiting? <==> HasPending(approvals, j)
  }

  /** Another call of the job found no undecided approval and has yet to write. */
  predicate Resuming(calls: Calls, j: JobId) { exists k :: k in calls && calls[k] == ResumeJob(j) }

  predicate Entering(calls: Calls, a: ApprovalId) {
    exists k :: k in calls && calls[k].AwaitApproval? && calls[k].a == a
  }

  /** Two things the protocol gives: a harness asks only for a job out of the
      queue, and the button is posted after the request's own write. */
  predicate Polite(m: Mid, step: Step, j: JobId) {
    && (step.Begin? && step.call.InsertApproval? && step.call.id == j ==> j in m.jobs && !m.jobs[j].state.Queued?)
    && (step.Run? && step.k in m.calls && m.calls[step.k].DecideClick? && About(m.approvals, m.calls[step.k]) == Some(j)
        ==> !Entering(m.calls, m.calls[step.k].a))
  }

  /** The race: a request's row goes in between a pending check that found none
      and the write that follows it. */
  predicate Overtakes(m: Mid, step: Step, j: JobId) {
    step.Run? && step.k in m.calls && m.calls[step.k].InsertApproval? && m.calls[step.k].id == j
    && m.calls[step.k].a !in m.approvals && Resuming(m.calls, j)
  }

  /** Any run in which job j is treated politely and never overtaken. */
  ghost predicate RaceFree(m: Mid, steps: seq<Step>, t: Mid, j: JobId)
    decreases |steps|
  {
    if steps == [] then m == t
    else
      && Enabled(m, steps[0]) && Polite(m, steps[0], j) && !Overtakes(m, steps[0], j)
      && RaceFree(Next(m, steps[0]), steps[1..], t, j)
  }

  // --- the invariant ---

  ghost predicate RowsBegun(jobs: Jobs, approvals: Approvals, calls: Calls, j: JobId) {
    && (forall a | a in approvals && approvals[a].jobId == j :: j in jobs && Rank(jobs[j].state) > 0)
    && (forall k | k in calls && calls[k].InsertApproval? && calls[k].id == j :: j in jobs && Rank(jobs[j].state) > 0)
  }

  ghost predicate CallsFit(approvals: Approvals, calls: Calls, j: JobId) {
    && (forall k | k in calls && Enters(calls[k], j) ::
          calls[k].a in approvals && approvals[calls[k].a].jobId == j && approvals[calls[k].a].decision.None?)
    && (Resuming(calls, j) ==> !HasPending(approvals, j))
  }

  predicate WillEnter(calls: Calls, j: JobId) { exists k :: k in calls && Enters(calls[k], j) }

  predicate WillLeave(calls: Calls, j: JobId) { exists k :: k in calls && Leaves(calls[k], j) }

  /** A disagreement has a call in flight that will end it. */
  ghost predicate Owed(jobs: Jobs, approvals: Approvals, calls: Calls, j: JobId) {
    && (j in jobs && jobs[j].state in {Dispatched, Running} && HasPending(approvals, j) ==> WillEnter(calls, j))
    && (j in jobs && jobs[j].state.Awaiting? && !HasPending(approvals, j) ==> WillLeave(calls, j))
  }

  ghost predicate Fits(jobs: Jobs, approvals: Approvals, calls: Calls, j: JobId) {
    RowsBegun(jobs, approvals, calls, j) && CallsFit(approvals, calls, j)
  }

  ghost predicate Inv(m: Mid, j: JobId) {
    Fits(m.jobs, m.approvals, m.calls, j) && (CutShort(m.cut, j) || Owed(m.jobs, m.approvals, m.calls, j))
  }

  // --- the tables after one change ---

  /** Whoever else is in flight stays so when call k ends. */
  lemma StillOwed(calls: Calls, k: nat, j: JobId)
    ensures WillEnter(calls, j) && (k in calls ==> !Enters(calls[k], j)) ==> WillEnter(calls - {k}, j)
    ensures WillLeave(calls, j) && (k in calls ==> !Leaves(calls[k], j)) ==> WillLeave(calls - {k}, j)
  {
    hide Enters, Leaves;
    if x :| x in calls && Enters(calls[x], j) && x != k { assert Enters((calls - {k})[x], j); }
    if x :| x in calls && Leaves(calls[x], j) && x != k { assert Leaves((calls - {k})[x], j); }
  }

  /** The new call at k owes at least what the old one did. */
  lemma OwesReplaced(calls: Calls, k: nat, c: Call, j: JobId)
    requires k in calls ==> (Enters(calls[k], j) ==> Enters(c, j)) && (Leaves(calls[k], j) ==> Leaves(c, j))
    ensures WillEnter(calls, j) ==> WillEnter(calls[k := c], j)
    ensures WillLeave(calls, j) ==> WillLeave(calls[k := c], j)
    ensures Enters(c, j) ==> WillEnter(calls[k := c], j)
    ensures Leaves(c, j) ==> WillLeave(calls[k := c], j)
  {
    hide Enters, Leaves;
    assert calls[k := c][k] == c;
    if x :| x in calls && Enters(calls[x], j) { assert Enters(calls[k := c][x], j); }
    if x :| x in calls && Leaves(calls[x], j) { assert Leaves(calls[k := c][x], j); }
  }

  lemma QueuedAsksNothing(jobs: Jobs, approvals: Approvals, calls: Calls, j: JobId)
    requires RowsBegun(jobs, approvals, calls, j) && (j !in jobs || jobs[j].state.Queued?)
    ensures !HasPending(approvals, j)
  {
  }

  lemma FitsForward(jobs: Jobs, jobs': Jobs, approvals: Approvals, calls: Calls, k: nat, j: JobId)
    requires Fits(jobs, approvals, calls, j) && JobsLe(jobs, jobs')
    ensures Fits(jobs', approvals, calls, j) && Fits(jobs', approvals, calls - {k}, j)
  {
    hide HasPending, Enters;
  }

  lemma FitsReplaced(jobs: Jobs, approvals: Approvals, calls: Calls, k: nat, c: Call, j: JobId)
    requires Fits(jobs, approvals, calls, j) && !Enters(c, j)
    requires c.InsertApproval? && c.id == j ==> j in jobs && Rank(jobs[j].state) > 0
    requires c == ResumeJob(j) ==> !HasPending(approvals, j)
    ensures Fits(jobs, approvals, calls[k := c], j)
  {
    hide HasPending;
    assert forall x | x in calls[k := c] && x != k :: x in calls && calls[k := c][x] == calls[x];
  }

  /** A write that enters no approval wait, and reaches Dispatched or Running
      only from before them. */
  predicate Plain(x: Cas) { x.to != Awaiting && (x.to in {Dispatched, Running} ==> x.from <= {Queued, Dispatched}) }

  lemma PlainCas(c: Call, j: JobId)
    requires Moves(c) && !c.AwaitApproval? && !c.ResumeJob?
    ensures Plain(CasOf(c).value) && !Enters(c, j) && !Leaves(c, j)
  {
  }

  lemma PlainKeepsOwed(jobs: Jobs, approvals: Approvals, calls: Calls, k: nat, x: Cas, now: int, j: JobId)
    requires RowsBegun(jobs, approvals, calls, j) && Owed(jobs, approvals, calls, j) && Plain(x)
    requires k in calls ==> !Enters(calls[k], j) && !Leaves(calls[k], j)
    ensures Owed(Transition(jobs, x.id, x.from, x.to, x.patch, now), approvals, calls - {k}, j)
  {
    StillOwed(calls, k, j);
    if j in jobs && jobs[j].state.Queued? { QueuedAsksNothing(jobs, approvals, calls, j); }
    hide HasPending, WillEnter, WillLeave, RowsBegun, Enters, Leaves;
  }

  // --- one step ---

  lemma BeginKeeps(m: Mid, k: nat, c: Call, j: JobId)
    requires Inv(m, j) && Enabled(m, Begin(k, c)) && Polite(m, Begin(k, c), j)
    ensures Inv(Next(m, Begin(k, c)), j)
  {
    assert !c.AwaitApproval? && !c.ResumeJob?;
    FitsReplaced(m.jobs, m.approvals, m.calls, k, c, j);
    OwesReplaced(m.calls, k, c, j);
    hide Fits, HasPending, WillEnter, WillLeave, CutShort;
  }

  /** A call that is cut still counts against the agreement of its job. */
  lemma CutKeeps(m: Mid, k: nat, j: JobId)
    requires Inv(m, j) && k in m.calls
    ensures Inv(Next(m, Cut(k)), j)
  {
    var c, t := m.calls[k], Next(m, Cut(k));
    FitsForward(m.jobs, m.jobs, m.approvals, m.calls, k, j);
    StillOwed(m.calls, k, j);
    assert c in t.cut && m.cut <= t.cut;
    if Enters(c, j) || Leaves(c, j) || CutShort(m.cut, j) { assert CutShort(t.cut, j); }
    hide Fits, HasPending, WillEnter, WillLeave, CutShort;
  }

  lemma WriteShape(m: Mid, k: nat, now: int)
    requires k in m.calls && Moves(m.calls[k])
    ensures var t := Next(m, Run(k, now));
            && t.jobs == Written(m.jobs, m.calls[k], now) && t.approvals == m.approvals
            && t.calls == m.calls - {k} && t.cut == m.cut
  {
    hide Written, Tally, Spent, Logged;
  }

  /** The parts that a compare-and-set cannot break. */
  lemma WriteFits(m: Mid, k: nat, now: int, j: JobId)
    requires Inv(m, j) && k in m.calls && Moves(m.calls[k])
    ensures Fits(Written(m.jobs, m.calls[k], now), m.approvals, m.calls - {k}, j)
  {
    hide Fits, Owed, HasPending, Written, CasOf, JobsLe, CutShort;
    MoveForward(m, m.calls[k], now);
    FitsForward(m.jobs, Written(m.jobs, m.calls[k], now), m.approvals, m.calls, k, j);
  }

  /** A compare-and-set other than a request's or a click's own. */
  lemma PlainKeeps(m: Mid, k: nat, now: int, j: JobId)
    requires Inv(m, j) && k in m.calls && Moves(m.calls[k]) && !m.calls[k].AwaitApproval? && !m.calls[k].ResumeJob?
    ensures Inv(Next(m, Run(k, now)), j)
  {
    hide RowsBegun, CallsFit, Owed, HasPending, Transition, CasOf, Next, Plain, CutShort, Enters, Leaves;
    var c := m.calls[k];
    PlainCas(c, j);
    WriteFits(m, k, now, j);
    WriteShape(m, k, now);
    if Owed(m.jobs, m.approvals, m.calls, j) {
      PlainKeepsOwed(m.jobs, m.approvals, m.calls, k, CasOf(c).value, now, j);
    }
  }

  /** The request's own write: its approval is still undecided. */
  lemma EnterKeeps(m: Mid, k: nat, now: int, j: JobId)
    requires Inv(m, j) && k in m.calls && m.calls[k].AwaitApproval?
    ensures Inv(Next(m, Run(k, now)), j)
  {
    hide RowsBegun, CallsFit, Owed, HasPending, Transition, Next, CutShort;
    WriteFits(m, k, now, j);
    WriteShape(m, k, now);
    if Owed(m.jobs, m.approvals, m.calls, j) { EnterOwed(m.jobs, m.approvals, m.calls, k, now, j); }
  }

  lemma EnterOwed(jobs: Jobs, approvals: Approvals, calls: Calls, k: nat, now: int, j: JobId)
    requires Fits(jobs, approvals, calls, j) && Owed(jobs, approvals, calls, j)
    requires k in calls && calls[k].AwaitApproval?
    ensures var jobs' := Transition(jobs, calls[k].id, {Dispatched, Running}, Awaiting, NO_PATCH, now);
            Owed(jobs', approvals, calls - {k}, j)
  {
    if calls[k].id == j {
      assert Enters(calls[k], j);
      assert HasPending(approvals, j);
      assert j in jobs && !jobs[j].state.Queued?;
    }
    StillOwed(calls, k, j);
    hide HasPending, WillEnter, WillLeave, Fits;
  }

  /** A click's own write: nothing of the job is undecided. */
  lemma LeaveKeeps(m: Mid, k: nat, now: int, j: JobId)
    requires Inv(m, j) && k in m.calls && m.calls[k].ResumeJob?
    ensures Inv(Next(m, Run(k, now)), j)
  {
    hide RowsBegun, CallsFit, Owed, HasPending, Transition, Next, CutShort;
    WriteFits(m, k, now, j);
    WriteShape(m, k, now);
    if Owed(m.jobs, m.approvals, m.calls, j) { LeaveOwed(m.jobs, m.approvals, m.calls, k, now, j); }
  }

  lemma LeaveOwed(jobs: Jobs, approvals: Approvals, calls: Calls, k: nat, now: int, j: JobId)
    requires Fits(jobs, approvals, calls, j) && Owed(jobs, approvals, calls, j)
    requires k in calls && calls[k].ResumeJob?
    ensures Owed(Transition(jobs, calls[k].id, {Awaiting}, Running, NO_PATCH, now), approvals, calls - {k}, j)
  {
    if calls[k].id == j {
      assert Resuming(calls, j) by { assert calls[k] == ResumeJob(j); }
      assert !HasPending(approvals, j);
    }
    StillOwed(calls, k, j);
    hide HasPending, WillEnter, WillLeave, Fits;
  }

  lemma InsertKeeps(m: Mid, k: nat, now: int, j: JobId)
    requires Inv(m, j) && k in m.calls && m.calls[k].InsertApproval? && !Overtakes(m, Run(k, now), j)
    ensures Inv(Next(m, Run(k, now)), j)
  {
    var c := m.calls[k];
    if c.a in m.approvals {
      DropKeeps(m, k, j);
    } else {
      assert c.id == j ==> !Resuming(m.calls, j);
      InsertTables(m.jobs, m.approvals, m.calls, k, Approval(c.id, c.nonce, c.expiresAt, None, "", 0), j);
      hide Fits, Owed, Resuming, CutShort;
    }
  }

  lemma InsertTables(jobs: Jobs, approvals: Approvals, calls: Calls, k: nat, row: Approval, j: JobId)
    requires Fits(jobs, approvals, calls, j) && k in calls && calls[k].InsertApproval? && calls[k].a !in approvals
    requires row.jobId == calls[k].id && row.decision.None? && (calls[k].id == j ==> !Resuming(calls, j))
    ensures var c := calls[k];
            var approvals', calls' := approvals[c.a := row], calls[k := AwaitApproval(c.id, c.a)];
            && Fits(jobs, approvals', calls', j)
            && (Owed(jobs, approvals, calls, j) ==> Owed(jobs, approvals', calls', j))
  {
    var c := calls[k];
    RowPends(approvals, c.id, c.a, row, j);
    InsertFits(jobs, approvals, calls, k, row, j);
    OwesReplaced(calls, k, AwaitApproval(c.id, c.a), j);
    hide Fits, HasPending, WillEnter, WillLeave;
  }

  lemma InsertFits(jobs: Jobs, approvals: Approvals, calls: Calls, k: nat, row: Approval, j: JobId)
    requires Fits(jobs, approvals, calls, j) && k in calls && calls[k].InsertApproval? && calls[k].a !in approvals
    requires row.jobId == calls[k].id && row.decision.None? && (calls[k].id == j ==> !Resuming(calls, j))
    ensures var c := calls[k];
            Fits(jobs, approvals[c.a := row], calls[k := AwaitApproval(c.id, c.a)], j)
  {
    var c := calls[k];
    RowPends(approvals, c.id, c.a, row, j);
    hide HasPending;
    var calls' := calls[k := AwaitApproval(c.id, c.a)];
    assert forall x | x in calls' && x != k :: x in calls && calls'[x] == calls[x];
  }

  /** An undecided row makes its own job pending and no other. */
  lemma RowPends(approvals: Approvals, id: JobId, a: ApprovalId, row: Approval, j: JobId)
    requires a !in approvals && row.jobId == id && row.decision.None?
    ensures HasPending(approvals[a := row], j) <==> j == id || HasPending(approvals, j)
  {
    var approvals' := approvals[a := row];
    assert approvals'[a] == row;
    if x :| x in approvals && approvals[x].jobId == j && approvals[x].decision.None? {
      assert approvals'[x] == approvals[x];
    }
  }

  /** A call that ends without a write. */
  lemma DropKeeps(m: Mid, k: nat, j: JobId)
    requires Inv(m, j) && k in m.calls && !m.calls[k].AwaitApproval? && !m.calls[k].ResumeJob?
    requires m.calls[k] == CheckPending(j) ==> HasPending(m.approvals, j)
    ensures Inv(m.(calls := m.calls - {k}), j)
  {
    FitsForward(m.jobs, m.jobs, m.approvals, m.calls, k, j);
    StillOwed(m.calls, k, j);
    hide Fits, WillEnter, WillLeave, HasPending, CutShort;
  }

  lemma DecideKeeps(m: Mid, k: nat, now: int, j: JobId)
    requires Inv(m, j) && k in m.calls && m.calls[k].DecideClick? && Polite(m, Run(k, now), j)
    ensures Inv(Next(m, Run(k, now)), j)
  {
    var c := m.calls[k];
    assert c.a in m.approvals && m.approvals[c.a].jobId == j ==> !Entering(m.calls, c.a);
    DecideShape(m, k, now);
    hide Fits, Owed, Entering, Decide, Next, Polite, CutShort;
    if !Decidable(m.approvals, c.a, now) {
      DropKeeps(m, k, j);
    } else {
      DecideTables(m.jobs, m.approvals, m.calls, k, now, j);
    }
  }

  lemma DecideShape(m: Mid, k: nat, now: int)
    requires k in m.calls && m.calls[k].DecideClick?
    ensures var c := m.calls[k];
            Next(m, Run(k, now)) ==
            if !Decidable(m.approvals, c.a, now) then m.(calls := m.calls - {k})
            else m.(approvals := Decide(m.approvals, c.a, c.d, c.user, now),
                    calls := m.calls[k := CheckPending(m.approvals[c.a].jobId)])
  {
    hide Decide;
  }

  lemma DecideTables(jobs: Jobs, approvals: Approvals, calls: Calls, k: nat, now: int, j: JobId)
    requires Fits(jobs, approvals, calls, j)
    requires k in calls && calls[k].DecideClick? && Decidable(approvals, calls[k].a, now)
    requires approvals[calls[k].a].jobId == j ==> !Entering(calls, calls[k].a)
    ensures var c := calls[k];
            var approvals', calls' := Decide(approvals, c.a, c.d, c.user, now),
                                      calls[k := CheckPending(approvals[c.a].jobId)];
            && Fits(jobs, approvals', calls', j)
            && (Owed(jobs, approvals, calls, j) ==> Owed(jobs, approvals', calls', j))
  {
    var c := calls[k];
    FewerPending(approvals, c.a, c.d, c.user, now, j);
    DecideFits(jobs, approvals, calls, k, now, j);
    OwesReplaced(calls, k, CheckPending(approvals[c.a].jobId), j);
    hide Fits, HasPending, WillEnter, WillLeave, Decide, Decidable;
  }

  lemma DecideFits(jobs: Jobs, approvals: Approvals, calls: Calls, k: nat, now: int, j: JobId)
    requires Fits(jobs, approvals, calls, j)
    requires k in calls && calls[k].DecideClick? && Decidable(approvals, calls[k].a, now)
    requires approvals[calls[k].a].jobId == j ==> !Entering(calls, calls[k].a)
    ensures var c := calls[k];
            Fits(jobs, Decide(approvals, c.a, c.d, c.user, now), calls[k := CheckPending(approvals[c.a].jobId)], j)
  {
    var c := calls[k];
    FewerPending(approvals, c.a, c.d, c.user, now, j);
    hide HasPending;
    var calls' := calls[k := CheckPending(approvals[c.a].jobId)];
    assert forall x | x in calls' && x != k :: x in calls && calls'[x] == calls[x];
  }

  lemma FewerPending(approvals: Approvals, a: ApprovalId, d: Decision, who: UserId, now: int, j: JobId)
    requires Decidable(approvals, a, now)
    ensures HasPending(Decide(approvals, a, d, who, now), j) ==> HasPending(approvals, j)
    ensures j != approvals[a].jobId && HasPending(approvals, j) ==> HasPending(Decide(approvals, a, d, who, now), j)
  {
    var approvals' := Decide(approvals, a, d, who, now);
    if j != approvals[a].jobId && HasPending(approvals, j) {
      var x :| x in approvals && approvals[x].jobId == j && approvals[x].decision.None?;
      assert approvals'[x] == approvals[x];
    }
  }

  lemma CheckKeeps(m: Mid, k: nat, now: int, j: JobId)
    requires Inv(m, j) && k in m.calls && m.calls[k].CheckPending?
    ensures Inv(Next(m, Run(k, now)), j)
  {
    CheckShape(m, k, now);
    hide Fits, HasPending, Next, CutShort, WillEnter, WillLeave;
    if HasPending(m.approvals, m.calls[k].id) {
      DropKeeps(m, k, j);
    } else {
      var c := ResumeJob(m.calls[k].id);
      FitsReplaced(m.jobs, m.approvals, m.calls, k, c, j);
      OwesReplaced(m.calls, k, c, j);
    }
  }

  lemma CheckShape(m: Mid, k: nat, now: int)
    requires k in m.calls && m.calls[k].CheckPending?
    ensures var id := m.calls[k].id;
            Next(m, Run(k, now)) ==
            m.(calls := if HasPending(m.approvals, id) then m.calls - {k} else m.calls[k := ResumeJob(id)])
  {
    hide HasPending;
  }

  /** Expiry and progress leave the states past the queue alone. */
  lemma TickKeeps(m: Mid, step: Step, j: JobId)
    requires Inv(m, j) && (step.Expire? || step.RecordProgress?)
    ensures Inv(Next(m, step), j)
  {
    StepForward(m, step);
    TickShape(m, step, j);
    hide Next, Fits, HasPending, WillEnter, WillLeave, JobsLe, FinishedAgree, CutShort;
    FitsForward(m.jobs, Next(m, step).jobs, m.approvals, m.calls, 0, j);
  }

  lemma TickShape(m: Mid, step: Step, j: JobId)
    requires step.Expire? || step.RecordProgress?
    ensures var t := Next(m, step);
            && t.approvals == m.approvals && t.calls == m.calls && t.cut == m.cut
            && (Active(t.jobs, j) ==> Active(m.jobs, j) && m.jobs[j].state == t.jobs[j].state)
  {
    hide Tally;
  }

  lemma NewJobKeeps(m: Mid, id: JobId, online: bool, now: int, ttl: nat, j: JobId)
    requires Inv(m, j) && Enabled(m, Insert(id, online, now, ttl))
    ensures Inv(Next(m, Insert(id, online, now, ttl)), j)
  {
    var t := Next(m, Insert(id, online, now, ttl));
    StepForward(m, Insert(id, online, now, ttl));
    FitsForward(m.jobs, t.jobs, m.approvals, m.calls, 0, j);
    if j !in m.jobs { QueuedAsksNothing(m.jobs, m.approvals, m.calls, j); }
    hide Fits, HasPending, WillEnter, WillLeave, JobsLe, FinishedAgree, CutShort, TriggerTaken, Tally;
  }

  lemma StepKeeps(m: Mid, step: Step, j: JobId)
    requires Inv(m, j) && Enabled(m, step) && Polite(m, step, j) && !Overtakes(m, step, j)
    ensures Inv(Next(m, step), j)
  {
    match step
    case Begin(k, c) => BeginKeeps(m, k, c, j);
    case Run(k, now) =>
      match m.calls[k] {
        case AwaitApproval(_, _) => EnterKeeps(m, k, now, j);
        case ResumeJob(_) => LeaveKeeps(m, k, now, j);
        case InsertApproval(_, _, _, _) => InsertKeeps(m, k, now, j);
        case DecideClick(_, _, _) => DecideKeeps(m, k, now, j);
        case CheckPending(_) => CheckKeeps(m, k, now, j);
        case _ => PlainKeeps(m, k, now, j);
      }
    case Cut(k) => CutKeeps(m, k, j);
    case Expire(_) => TickKeeps(m, step, j);
    case RecordProgress(_, _) => TickKeeps(m, step, j);
    case Insert(id, online, now, ttl) => NewJobKeeps(m, id, online, now, ttl, j);
    case _ =>
  }

  lemma {:induction false} RunKeeps(m: Mid, steps: seq<Step>, t: Mid, j: JobId)
    requires Inv(m, j) && RaceFree(m, steps, t, j)
    ensures Inv(t, j)
    decreases |steps|
  {
    if steps != [] {
      StepKeeps(m, steps[0], j);
      hide Inv;
      RunKeeps(Next(m, steps[0]), steps[1..], t, j);
    }
  }

  // --- agreement ---

  /** Whatever else interleaves or is cut: if no request's row goes in between a
      pending check that found none and the write after it, and no request or
      click of the job was cut between its halves, then an active job past the
      queue with no call in flight awaits approval exactly when one of its
      approvals is undecided. */
  lemma AgreesAtRest(steps: seq<Step>, m: Mid, j: JobId)
    requires RaceFree(START, steps, m, j) && !CutShort(m.cut, j)
    requires Active(m.jobs, j) && !Busy(m, j)
    ensures Agrees(m.jobs, m.approvals, j)
  {
    RunKeeps(START, steps, m, j);
    hide Fits, HasPending, RaceFree, CutShort;
  }

  /** The cut call was the one that mattered: a request's write that had yet to
      move the job, or a click's when nothing was undecided any more. */
  predicate Matters(m: Mid, c: Call, j: JobId)
    requires j in m.jobs
  {
    if Enters(c, j) then m.jobs[j].state in {Dispatched, Running}
    else Leaves(c, j) && m.jobs[j].state.Awaiting? && !HasPending(m.approvals, j)
  }

  /** Exactly when a cut breaks the agreement: cutting the only call in flight
      of an active job leaves it in agreement unless that call mattered. */
  lemma CutExactly(steps: seq<Step>, m: Mid, k: nat, j: JobId)
    requires RaceFree(START, steps, m, j) && !CutShort(m.cut, j) && Active(m.jobs, j)
    requires k in m.calls && About(m.approvals, m.calls[k]) == Some(j)
    requires forall x | x in m.calls && x != k :: About(m.approvals, m.calls[x]) != Some(j)
    ensures var t := Next(m, Cut(k));
            !Busy(t, j) && Active(t.jobs, j) && (Agrees(t.jobs, t.approvals, j) <==> !Matters(m, m.calls[k], j))
  {
    RunKeeps(START, steps, m, j);
    if Enters(m.calls[k], j) { assert HasPending(m.approvals, j); }
    OnlyOne(m, k, j);
    hide Fits, HasPending, RaceFree, CutShort, WillEnter, WillLeave;
  }

  lemma OnlyOne(m: Mid, k: nat, j: JobId)
    requires forall x | x in m.calls && x != k :: About(m.approvals, m.calls[x]) != Some(j)
    ensures WillEnter(m.calls, j) ==> k in m.calls && Enters(m.calls[k], j)
    ensures WillLeave(m.calls, j) ==> k in m.calls && Leaves(m.calls[k], j)
  {
    forall x | x in m.calls && (Enters(m.calls[x], j) || Leaves(m.calls[x], j)) ensures x == k {
      assert About(m.approvals, m.calls[x]) == Some(j);
    }
  }

  /** The harness's resend of a request that was cut after its row repairs
      nothing: the row is found and the handler returns. */
  lemma ResendRepairsNothing(m: Mid, k: nat, now: int)
    requires k in m.calls && m.calls[k].InsertApproval? && m.calls[k].a in m.approvals
    ensures Next(m, Run(k, now)) == m.(calls := m.calls - {k})
  {
  }

  // --- the race ---

  /** Every overtaking of an active job can end in disagreement: the request
      finds the job awaiting or makes it so, and the older click's write then
      takes it back to running. */
  lemma OvertakingBreaks(m: Mid, k: nat, l: nat, j: JobId, now: int)
    requires k in m.calls && m.calls[k] == ResumeJob(j) && Overtakes(m, Run(l, now), j) && Active(m.jobs, j)
    ensures var m1 := Next(m, Run(l, now));
            && l in m1.calls
            && var m2 := Next(m1, Run(l, now));
               && k in m2.calls
               && var t := Next(m2, Run(k, now));
               && Active(t.jobs, j) && t.jobs[j].state.Running? && HasPending(t.approvals, j)
               && t.calls == m.calls - {k, l}
  {
    hide Tally;
    var m1 := Next(m, Run(l, now));
    assert HasPending(m1.approvals, j) by {
      assert m1.approvals[m.calls[l].a].decision.None?;
    }
    hide HasPending;
  }

  // --- runs that reach the disagreements ---

  lemma {:induction false} RaceFreeExtends(m: Mid, steps: seq<Step>, t: Mid, step: Step, j: JobId)
    requires RaceFree(m, steps, t, j) && Enabled(t, step) && Polite(t, step, j) && !Overtakes(t, step, j)
    ensures RaceFree(m, steps + [step], Next(t, step), j)
    decreases |steps|
  {
    if steps == [] {
      assert RaceFree(Next(t, step), [], Next(t, step), j) && ([step])[1..] == [];
    } else {
      RaceFreeExtends(Next(m, steps[0]), steps[1..], t, step, j);
      assert (steps + [step])[1..] == steps[1..] + [step];
    }
  }

  /** Reached without an overtaking. */
  ghost predicate Calm(m: Mid) { exists steps :: RaceFree(START, steps, m, "job") }

  lemma CalmNext(m: Mid, step: Step)
    requires Calm(m) && Enabled(m, step) && Polite(m, step, "job") && !Overtakes(m, step, "job")
    ensures Calm(Next(m, step))
  {
    var steps :| RaceFree(START, steps, m, "job");
    RaceFreeExtends(START, steps, m, step, "job");
  }

  const BOT := Bot("bot", "ann", "hrn")
  const REQUEST := InsertApproval("job", "a", "n", 99)
  const SECOND := InsertApproval("job", "b", "n", 99)
  const CLICK := DecideClick("a", Allow, "ann")

  /** One dispatched job, nothing in flight. */
  lemma OneJob() returns (m: Mid)
    ensures Calm(m) && m.calls == map[] && m.approvals == map[] && m.cut == {} && "job" in m.jobs
    ensures m.jobs["job"].state.Dispatched? && m.jobs["job"].ownerId == "ann"
  {
    assert RaceFree(START, [], START, "job");
    assert Calm(START);
    hide Calm;
    var p := Post("post", "", "ann");
    CalmNext(START, Route(BOT, p));
    var m1 := START.(routing := Some(Routing(BOT, p)));
    CalmNext(m1, Insert("job", true, 1, 60));
    m := Next(m1, Insert("job", true, 1, 60));
  }

  /** … and a request that has put its row in. */
  lemma HalfRequest() returns (m: Mid)
    ensures Calm(m) && m.calls == map[0 := AwaitApproval("job", "a")] && m.cut == {} && "job" in m.jobs
    ensures m.approvals == map["a" := Approval("job", "n", 99, None, "", 0)]
    ensures m.jobs["job"].state.Dispatched? && m.jobs["job"].ownerId == "ann"
  {
    var m0 := OneJob();
    hide Calm, Tally;
    CalmNext(m0, Begin(0, REQUEST));
    var m1 := m0.(calls := map[0 := REQUEST]);
    assert !Resuming(m1.calls, "job");
    CalmNext(m1, Run(0, 2));
    m := Next(m1, Run(0, 2));
  }

  /** The broker stops there: the job is dispatched with an undecided approval,
      and no call is left, although nothing was overtaken. */
  lemma CutRequestIsReached() returns (m: Mid)
    ensures Calm(m) && m.calls == map[] && m.cut == {AwaitApproval("job", "a")}
    ensures Active(m.jobs, "job") && m.jobs["job"].state.Dispatched? && HasPending(m.approvals, "job")
  {
    var m0 := HalfRequest();
    assert HasPending(m0.approvals, "job") by { assert m0.approvals["a"].decision.None?; }
    hide Calm, HasPending;
    CalmNext(m0, Cut(0));
    m := Next(m0, Cut(0));
    assert m.cut == {AwaitApproval("job", "a")};
  }

  /** The request done, and a click that has written its decision. */
  lemma HalfClick() returns (m: Mid)
    ensures Calm(m) && m.calls == map[1 := CheckPending("job")] && m.cut == {} && m.approvals.Keys == {"a"}
    ensures "job" in m.jobs && m.jobs["job"].state.Awaiting? && !HasPending(m.approvals, "job")
  {
    var m0 := HalfRequest();
    hide Calm, Tally;
    CalmNext(m0, Run(0, 2));
    var m1 := Next(m0, Run(0, 2));
    CalmNext(m1, Begin(1, CLICK));
    var m2 := Next(m1, Begin(1, CLICK));
    assert m2.calls == map[1 := CLICK];
    m := Clicked(m2);
  }

  lemma Clicked(m0: Mid) returns (m: Mid)
    requires Calm(m0) && m0.calls == map[1 := CLICK] && "job" in m0.jobs && m0.cut == {}
    requires m0.approvals == map["a" := Approval("job", "n", 99, None, "", 0)]
    ensures Calm(m) && m.calls == map[1 := CheckPending("job")] && m.cut == {} && m.jobs == m0.jobs
    ensures m.approvals.Keys == {"a"} && !HasPending(m.approvals, "job")
  {
    hide Calm;
    assert !Entering(m0.calls, "a");
    CalmNext(m0, Run(1, 3));
    m := Next(m0, Run(1, 3));
  }

  /** The broker stops there: the job awaits an approval, and none is open. */
  lemma CutClickIsReached() returns (m: Mid)
    ensures Calm(m) && m.calls == map[] && m.cut == {CheckPending("job")}
    ensures Active(m.jobs, "job") && m.jobs["job"].state.Awaiting? && !HasPending(m.approvals, "job")
  {
    var m0 := HalfClick();
    hide Calm, HasPending;
    CalmNext(m0, Cut(1));
    m := Next(m0, Cut(1));
    assert m.cut == {CheckPending("job")};
  }

  /** The click about to resume the job, and a second request about to put its
      row in. */
  lemma ClickAndRequest() returns (m: Mid)
    ensures Calm(m) && m.calls == map[1 := ResumeJob("job"), 2 := SECOND] && m.cut == {}
    ensures "job" in m.jobs && m.jobs["job"].state.Awaiting? && m.approvals.Keys == {"a"}
  {
    var m0 := HalfClick();
    hide Calm, HasPending;
    CalmNext(m0, Run(1, 3));
    var m1 := Next(m0, Run(1, 3));
    assert m1.calls == map[1 := ResumeJob("job")];
    CalmNext(m1, Begin(2, SECOND));
    m := Next(m1, Begin(2, SECOND));
  }

  /** The race, from the start: running, with an undecided approval, no call
      left, and nothing cut. */
  lemma RaceIsReached() returns (m: Mid)
    ensures Reachable(m) && m.calls == map[] && m.cut == {}
    ensures Active(m.jobs, "job") && m.jobs["job"].state.Running? && HasPending(m.approvals, "job")
  {
    var m0 := ClickAndRequest();
    ClickIsOvertaken(m0);
    CalmIsReachable(m0);
    hide Next, HasPending, Overtakes, Reachable, Calm;
    m := Overtaken(m0, 1, 2, "job", 4);
    assert m0.calls - {1, 2} == map[];
  }

  /** The breaking steps are steps of the machine. */
  lemma Overtaken(m: Mid, k: nat, l: nat, j: JobId, now: int) returns (t: Mid)
    requires Reachable(m) && k in m.calls && m.calls[k] == ResumeJob(j) && Overtakes(m, Run(l, now), j)
    requires Active(m.jobs, j) && l in m.calls
    ensures Reachable(t) && t.calls == m.calls - {k, l} && t.cut == m.cut
    ensures Active(t.jobs, j) && t.jobs[j].state.Running? && HasPending(t.approvals, j)
  {
    hide HasPending, Overtakes, Reachable;
    OvertakingBreaks(m, k, l, j, now);
    RunCutsNothing(m, l, now);
    hide Next;
    Reached(m, Run(l, now));
    var m1 := Next(m, Run(l, now));
    RunCutsNothing(m1, l, now);
    Reached(m1, Run(l, now));
    var m2 := Next(m1, Run(l, now));
    RunCutsNothing(m2, k, now);
    Reached(m2, Run(k, now));
    t := Next(m2, Run(k, now));
  }

  lemma RunCutsNothing(m: Mid, k: nat, now: int)
    requires k in m.calls
    ensures Next(m, Run(k, now)).cut == m.cut
  {
    hide Written, Tally, Spent, Logged, Decide, HasPending;
  }

  lemma ClickIsOvertaken(m: Mid)
    requires m.calls == map[1 := ResumeJob("job"), 2 := SECOND] && m.approvals.Keys == {"a"}
    ensures Overtakes(m, Run(2, 4), "job")
  {
    assert m.calls[1] == ResumeJob("job");
    assert Resuming(m.calls, "job");
  }

  lemma CalmIsReachable(m: Mid)
    requires Calm(m)
    ensures Reachable(m)
  {
    var steps :| RaceFree(START, steps, m, "job");
    RaceFreeRuns(START, steps, m, "job");
  }

  lemma {:induction false} RaceFreeRuns(m: Mid, steps: seq<Step>, t: Mid, j: JobId)
    requires RaceFree(m, steps, t, j)
    ensures Runs(m, steps, t)
    decreases |steps|
  {
    if steps != [] { RaceFreeRuns(Next(m, steps[0]), steps[1..], t, j); }
  }

  lemma {:induction false} RunExtends(m: Mid, steps: seq<Step>, t: Mid, step: Step)
    requires Runs(m, steps, t) && Enabled(t, step)
    ensures Runs(m, steps + [step], Next(t, step))
    decreases |steps|
  {
    if steps == [] {
      assert Runs(Next(t, step), [], Next(t, step)) && ([step])[1..] == [];
    } else {
      RunExtends(Next(m, steps[0]), steps[1..], t, step);
      assert (steps + [step])[1..] == steps[1..] + [step];
    }
  }

  lemma Reached(m: Mid, step: Step)
    requires Reachable(m) && Enabled(m, step)
    ensures Reachable(Next(m, step))
  {
    var steps :| Runs(START, steps, m);
    RunExtends(START, steps, m, step);
  }
}
