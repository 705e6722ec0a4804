/** Every step keeps the invariant: the broker's steps first, then the
    harness's. */
module SystemSteps {
  import opened Basics
  import opened Protocol
  import opened Store
  import opened Broker
  import opened System
  import opened SystemInv
  import H = Harness

  lemma PairKeeps(s: System, h: HarnessId, cfg: H.Config, now: int)
    requires Inv(s) && h !in s.procs
    ensures Inv(DoPair(s, h, cfg, now))
  {
    var p := H.HarnessState(cfg, map[], map[], map[], map[]);
    assert HarnessesAgree(s.b.db.harnesses[h := HarnessRow(cfg.owner, now)], s.procs[h := p]);
    hide MintedOk, RowsOk, DownOk, UpOk, ProcsOk, ApprovalsOk, ResultsKept, AllowedOk, Deliverable, QueueOffline,
      AwaitingAgree, HarnessesAgree, JobsPaired, DispatchMinted, PressedOk;
    assert ProcOk(h, p, Led(s));
    ProcsPut(s, h, p, Led(s));
    OwnersPut(s, h, p, Led(s));
    KeptPut(s, h, p, Led(s));
  }

  /** The row, its dispatch and its outbox row appear together. */
  lemma AddJob(s: System, n: NewJob, row: Job)
    requires Inv(s) && n.id != "" && n.id !in s.Jobs() && n.msg !in s.minted && n.h in s.procs
    requires row.harnessId == n.h && row.ownerId == n.dispatch.requester
    requires row.state.Dispatched? || (row.state.Queued? && n.h !in s.b.conns)
    ensures Inv(WithJob(s, n, row))
  {
    AddJobState(s, n, row);
    AddJobLedger(s, n, row);
    hide LedgerInv, StateInv, WithJob;
  }

  lemma AddJobState(s: System, n: NewJob, row: Job)
    requires Inv(s) && n.id != "" && n.id !in s.Jobs() && n.msg !in s.minted && n.h in s.procs
    requires row.harnessId == n.h && (row.state.Dispatched? || (row.state.Queued? && n.h !in s.b.conns))
    ensures StateInv(WithJob(s, n, row))
  {
    AddJobTables(s, n, row);
    PairedAdd(s.Jobs(), s.procs, n.id, row);
    hide LedgerInv, MintedOk, RowsOk, DownOk, UpOk, ProcsOk, ApprovalsOk, ResultsKept, AllowedOk, Deliverable,
      QueueOffline, AwaitingAgree, HarnessesAgree, JobsPaired, DispatchMinted, PressedOk;
  }

  lemma PairedAdd(jobs: map<JobId, Job>, procs: map<HarnessId, H.HarnessState>, id: JobId, row: Job)
    requires row.harnessId in procs
    ensures JobsPaired(jobs, procs) ==> JobsPaired(jobs[id := row], procs)
  {
  }

  lemma AddJobTables(s: System, n: NewJob, row: Job)
    requires Inv(s) && n.id !in s.Jobs() && n.msg !in s.minted && row.harnessId == n.h && n.h in s.procs
    requires row.state.Dispatched? || (row.state.Queued? && n.h !in s.b.conns)
    ensures var s' := WithJob(s, n, row);
            && Deliverable(s'.Jobs(), s'.Outbox(), s'.dispatchOf, HalfAcked(s))
            && DispatchMinted(s'.Jobs(), s'.dispatchOf, s'.minted) && QueueOffline(s'.Jobs(), s.b.conns)
            && AwaitingAgree(s'.Jobs(), s.Approvals())
  {
    hide Inv;
    TableFacts(s);
    PlaceFacts(s);
    assert !HasPending(s.Approvals(), n.id);
    DispatchFact(s);
    HalfIsMinted(s);
    DeliverableAdd(s.Jobs(), s.Outbox(), s.dispatchOf, HalfAcked(s), n, row);
    DispatchAdd(s.Jobs(), s.dispatchOf, s.minted, n, row);
    hide Deliverable, AckRefs, DispatchMinted;
  }

  lemma DispatchAdd(jobs: map<JobId, Job>, dispatchOf: map<JobId, MsgId>, minted: map<MsgId, Sent>, n: NewJob, row: Job)
    requires DispatchMinted(jobs, dispatchOf, minted) && n.id !in jobs && n.msg !in minted
    ensures DispatchMinted(jobs[n.id := row], dispatchOf[n.id := n.msg],
                           minted[n.msg := Sent(n.h, Envelope(n.msg, n.id, Dispatch(n.dispatch)))])
    ensures forall j | j in dispatchOf :: dispatchOf[j] != n.msg
  {
  }

  lemma DeliverableAdd(jobs: map<JobId, Job>, outbox: map<MsgId, OutboxRow>, dispatchOf: map<JobId, MsgId>,
                       half: set<MsgId>, n: NewJob, row: Job)
    requires Deliverable(jobs, outbox, dispatchOf, half) && n.msg !in outbox && row.harnessId == n.h && n.id !in jobs
    requires n.msg !in half && forall j | j in jobs && j in dispatchOf :: dispatchOf[j] != n.msg
    ensures Deliverable(jobs[n.id := row], Enqueued(outbox, n.h, Envelope(n.msg, n.id, Dispatch(n.dispatch))),
                        dispatchOf[n.id := n.msg], half)
  {
    var outbox' := Enqueued(outbox, n.h, Envelope(n.msg, n.id, Dispatch(n.dispatch)));
    assert Waits(outbox', n.msg, n.id, n.h);
    assert forall j | j in jobs && j in dispatchOf && Rank(jobs[j].state) <= 1 ::
        Waits(outbox', dispatchOf[j], j, jobs[j].harnessId) <==> Waits(outbox, dispatchOf[j], j, jobs[j].harnessId);
  }

  function WithJob(s: System, n: NewJob, row: Job): System {
    var env := Envelope(n.msg, n.id, Dispatch(n.dispatch));
    s.(b := s.b.(db := s.b.db.(jobs := s.Jobs()[n.id := row], outbox := Enqueued(s.Outbox(), n.h, env))),
       minted := s.minted[n.msg := Sent(n.h, env)], dispatchOf := s.dispatchOf[n.id := n.msg])
  }

  lemma AddJobLedger(s: System, n: NewJob, row: Job)
    requires Inv(s) && n.id !in s.Jobs() && n.msg !in s.minted
    requires row.harnessId == n.h && row.ownerId == n.dispatch.requester
    ensures LedgerInv(WithJob(s, n, row), Led(WithJob(s, n, row)))
  {
    var env := Envelope(n.msg, n.id, Dispatch(n.dispatch));
    var l' := Led(WithJob(s, n, row));
    hide MintedOk, RowsOk, DownOk, UpOk, ProcsOk, ApprovalsOk, ResultsKept, AllowedOk, Deliverable, QueueOffline,
      AwaitingAgree, HarnessesAgree, JobsPaired, DispatchMinted, PressedOk;
    Carry(s, Led(s), l');
    MintedAdd(s.minted, n.msg, Sent(n.h, env), l');
    KeptMint(s.minted, n.msg, Sent(n.h, env), s.procs, l');
    RowsAdd(s.Outbox(), n.h, env, l');
  }

  lemma CreateShape(s: System, n: NewJob, now: int, ttl: nat, written: bool)
    requires !TriggerTaken(s.Jobs(), n.dispatch.botUserId, n.triggerPostId) && n.id !in s.Jobs() && n.msg !in s.minted
    ensures var env := Envelope(n.msg, n.id, Dispatch(n.dispatch));
            var s1 := WithJob(s, n, NewRow(n, n.h in s.b.conns, now, ttl));
            var s2 := DownWith(s1, {Packet(n.h, Reliable(env))});
            DoCreate(s, n, now, ttl, written) ==
            if n.h !in s.b.conns then s1
            else if written then s2
            else s2.(b := WithJobs(s2.b, FailJob(s2.Jobs(), n.id, "dispatch failed", now)))
  {
  }

  lemma CreateFacts(s: System, n: NewJob, now: int, ttl: nat, written: bool)
    requires Inv(s) && Enabled(s, Create(n, now, ttl, written))
    ensures n.id != "" && n.id !in s.Jobs() && n.msg !in s.minted && n.h in s.procs
  {
    PlaceFacts(s);
    hide Inv;
  }

  lemma CreateKeeps(s: System, n: NewJob, now: int, ttl: nat, written: bool)
    requires Inv(s) && Enabled(s, Create(n, now, ttl, written))
    ensures Inv(DoCreate(s, n, now, ttl, written))
  {
    if TriggerTaken(s.Jobs(), n.dispatch.botUserId, n.triggerPostId) { return; }
    CreateFacts(s, n, now, ttl, written);
    CreateShape(s, n, now, ttl, written);
    hide Inv, DoCreate, TriggerTaken, Enabled, FailJob;
    AddJob(s, n, NewRow(n, n.h in s.b.conns, now, ttl));
    if n.h in s.b.conns {
      NewJobFirstWrite(s, n, NewRow(n, true, now, ttl), now);
    }
    hide WithJob, NewRow, DownWith;
  }

  lemma NewJobFirstWrite(s: System, n: NewJob, row: Job, now: int)
    requires Inv(WithJob(s, n, row)) && row.state.Dispatched?
    ensures var s1 := DownWith(WithJob(s, n, row),
                               {Packet(n.h, Reliable(Envelope(n.msg, n.id, Dispatch(n.dispatch))))});
            Inv(s1) && Inv(s1.(b := WithJobs(s1.b, FailJob(s1.Jobs(), n.id, "dispatch failed", now))))
  {
    hide Inv, FailJob;
    FirstWriteKeeps(WithJob(s, n, row), n.h, Envelope(n.msg, n.id, Dispatch(n.dispatch)), now);
  }

  lemma FirstWriteKeeps(s: System, h: HarnessId, env: Envelope, now: int)
    requires Inv(s) && MintedAs(Led(s), env.id, Sent(h, env)) && env.body.ByBroker() && Begun(Led(s), env.jobId)
    ensures var s' := DownWith(s, {Packet(h, Reliable(env))});
            Inv(s') && Inv(s'.(b := WithJobs(s'.b, FailJob(s'.Jobs(), env.jobId, "dispatch failed", now))))
  {
    hide Inv;
    var ps := {Packet(h, Reliable(env))};
    DownStep(s, ps);
    FailKeeps(DownWith(s, ps), env.jobId, "dispatch failed", now);
  }

  lemma FailKeeps(s: System, id: JobId, reason: string, now: int)
    requires Inv(s)
    ensures Inv(s.(b := WithJobs(s.b, FailJob(s.Jobs(), id, reason, now))))
  {
    hide Inv;
    EndStep(s, id, ACTIVE, Failed, Failure(reason), now);
  }

  /** A row without its dispatch: nothing speaks of the new job yet. */
  lemma BareJob(s: System, id: JobId, row: Job)
    requires Inv(s) && id != "" && id !in s.Jobs() && row.harnessId in s.procs
    requires row.state.Dispatched? || (row.state.Queued? && row.harnessId !in s.b.conns)
    ensures Inv(s.(b := WithJobs(s.b, s.Jobs()[id := row])))
  {
    hide MintedOk, RowsOk, DownOk, UpOk, ProcsOk, ApprovalsOk, ResultsKept, AllowedOk;
    hide Deliverable, QueueOffline, AwaitingAgree, HarnessesAgree, JobsPaired, DispatchMinted, PressedOk, Le;
    BareTables(s, id, row);
    PairedAdd(s.Jobs(), s.procs, id, row);
    BareGrows(s, id, row);
    Carry(s, Led(s), Led(s).(jobs := s.Jobs()[id := row]));
  }

  lemma BareGrows(s: System, id: JobId, row: Job)
    requires id !in s.Jobs()
    ensures Le(Led(s), Led(s).(jobs := s.Jobs()[id := row]))
  {
  }

  lemma BareTables(s: System, id: JobId, row: Job)
    requires Inv(s) && id !in s.Jobs()
    requires row.state.Dispatched? || (row.state.Queued? && row.harnessId !in s.b.conns)
    ensures var jobs' := s.Jobs()[id := row];
            && Deliverable(jobs', s.Outbox(), s.dispatchOf, HalfAcked(s))
            && DispatchMinted(jobs', s.dispatchOf, s.minted)
            && QueueOffline(jobs', s.b.conns) && AwaitingAgree(jobs', s.Approvals())
  {
    hide Inv, Waits, AckRefs;
    TableFacts(s);
    DispatchFact(s);
    assert !HasPending(s.Approvals(), id);
  }

  lemma CutCreateKeeps(s: System, n: NewJob, now: int, ttl: nat)
    requires Inv(s) && Enabled(s, CutCreate(n, now, ttl))
    ensures Inv(DoCutCreate(s, n, now, ttl))
  {
    hide Inv, TriggerTaken;
    PlaceFacts(s);
    if !TriggerTaken(s.Jobs(), n.dispatch.botUserId, n.triggerPostId) {
      BareJob(s, n.id, NewRow(n, n.h in s.b.conns, now, ttl));
    }
  }

  lemma ConnectKeeps(s: System, h: HarnessId, now: int)
    requires Inv(s) && h in s.b.db.harnesses
    ensures Inv(DoConnect(s, h, now))
  {
  }

  lemma HangUpKeeps(s: System, conns': map<HarnessId, Phase>, reading': set<Packet>)
    requires Inv(s) && reading' <= s.reading
    requires forall h | h in conns' :: h in s.b.conns && conns'[h] == s.b.conns[h]
    ensures Inv(s.(b := s.b.(conns := conns'), reading := reading'))
  {
  }

  lemma HelloForward(jobs: map<JobId, Job>, h: HarnessId, reported: set<JobId>, now: int)
    ensures JobsLe(jobs, HelloJobs(jobs, h, reported, now))
  {
  }

  /** A reported job is out of the queue, and a queued one has no approvals. */
  lemma HelloAwaiting(s: System, h: HarnessId, reported: seq<JobId>, now: int)
    requires Inv(s) && UpPacketOk(Packet(h, Hello(reported)), Led(s))
    ensures AwaitingAgree(HelloJobs(s.Jobs(), h, Elems(reported), now), s.Approvals())
    ensures forall j | j in s.Jobs() && s.Jobs()[j].harnessId == h ::
              !HelloJobs(s.Jobs(), h, Elems(reported), now)[j].state.Queued?
  {
    hide Inv;
    AwaitingFact(s);
    forall j | j in s.Jobs() && s.Jobs()[j].state.Queued? ensures !HasPending(s.Approvals(), j) {
      QueuedAsksNothing(s, j);
    }
    assert forall j | j in s.Jobs() && s.Jobs()[j].harnessId == h && j in Elems(reported) ::
             Rank(s.Jobs()[j].state) > 0;
    HelloAwaitingTables(s.Jobs(), s.Approvals(), h, Elems(reported), now);
  }

  lemma QueuedAsksNothing(s: System, j: JobId)
    requires Inv(s) && j in s.Jobs() && s.Jobs()[j].state.Queued?
    ensures !HasPending(s.Approvals(), j)
  {
    hide MintedOk, RowsOk, DownOk, UpOk, ProcsOk, ResultsKept, AllowedOk, Deliverable, QueueOffline, AwaitingAgree,
      HarnessesAgree, JobsPaired, DispatchMinted, PressedOk;
  }

  lemma HelloAwaitingTables(jobs: map<JobId, Job>, approvals: map<ApprovalId, Approval>, h: HarnessId,
                            reported: set<JobId>, now: int)
    requires AwaitingAgree(jobs, approvals)
    requires forall j | j in jobs && jobs[j].state.Queued? :: !HasPending(approvals, j)
    requires forall j | j in jobs && jobs[j].harnessId == h && j in reported :: Rank(jobs[j].state) > 0
    ensures AwaitingAgree(HelloJobs(jobs, h, reported, now), approvals)
    ensures forall j | j in jobs && jobs[j].harnessId == h :: !HelloJobs(jobs, h, reported, now)[j].state.Queued?
  {
    hide HasPending;
  }

  lemma GreetKeeps(s: System, h: HarnessId, reported: seq<JobId>, now: int)
    requires Inv(s) && Enabled(s, Greet(h, reported, now))
    ensures Inv(DoGreet(s, h, reported, now))
  {
    UpFact(s, Packet(h, Hello(reported)));
    hide Inv;
    TableFacts(s);
    var jobs' := HelloJobs(s.Jobs(), h, Elems(reported), now);
    HelloForward(s.Jobs(), h, Elems(reported), now);
    HelloAwaiting(s, h, reported, now);
    JobsStep(s, jobs');
    var s1 := s.(b := WithJobs(s.b, jobs'));
    ConnsStep(s1, s.b.conns[h := Ready]);
    DownStep(s1.(b := s1.b.(conns := s.b.conns[h := Ready])),
             {Packet(h, Welcome(HelloAnswers(s.Jobs(), h, reported)))});
  }

  /** A served harness has nothing queued, so its rows may go out. */
  lemma RowFact(s: System, m: MsgId)
    requires Inv(s) && m in s.Outbox() && s.Outbox()[m].harnessId in s.b.conns
    requires s.b.conns[s.Outbox()[m].harnessId].Ready?
    ensures DownPacketOk(Packet(s.Outbox()[m].harnessId, Reliable(s.Outbox()[m].env)), Led(s))
  {
    hide DownOk, UpOk, ProcsOk, ApprovalsOk, ResultsKept, AllowedOk, Deliverable, AwaitingAgree, HarnessesAgree,
      JobsPaired, DispatchMinted, PressedOk;
    assert SentOk(Led(s), m, s.minted[m]);
  }

  lemma FlushKeeps(s: System, h: HarnessId, rows: set<MsgId>)
    requires Inv(s) && Enabled(s, Flush(h, rows))
    ensures Inv(DownWith(s, RowPackets(s.Outbox(), h, rows)))
  {
    hide Inv;
    assert h in s.b.conns && s.b.conns[h].Ready? && rows <= Unacked(s.Outbox(), h);
    forall m | m in rows ensures DownPacketOk(Packet(h, Reliable(s.Outbox()[m].env)), Led(s)) {
      RowFact(s, m);
    }
    hide Enabled, DownPacketOk;
    DownStep(s, RowPackets(s.Outbox(), h, rows));
  }

  lemma AckForward(jobs: map<JobId, Job>, approvals: map<ApprovalId, Approval>, h: HarnessId, id: JobId, a: Ack,
                   now: int)
    requires id != "" && id in jobs && jobs[id].harnessId == h && Rank(jobs[id].state) > 0
    requires AwaitingAgree(jobs, approvals)
    ensures var jobs' := AckJobs(jobs, h, id, a, now);
            JobsLe(jobs, jobs') && jobs'.Keys == jobs.Keys && AwaitingAgree(jobs', approvals)
              && Rank(jobs'[id].state) > 1
  {
  }

  lemma HalfIsMinted(s: System)
    requires Inv(s)
    ensures forall m | m in HalfAcked(s) :: m in s.minted
  {
    hide MintedOk, RowsOk, DownOk, ProcsOk, ApprovalsOk, ResultsKept, AllowedOk, Deliverable, QueueOffline,
      AwaitingAgree, HarnessesAgree, JobsPaired, DispatchMinted, PressedOk;
  }

  /** First half: the row is marked, and the move is owed. */
  lemma MarkKeeps(s: System, p: Packet, now: int)
    requires Inv(s) && p in s.up && p.frame.Acked?
    ensures Inv(s.(b := s.b.(db := s.b.db.(outbox := AckRow(s.Outbox(), p.frame.ref, now))), acking := s.acking + {p}))
  {
    hide MintedOk, RowsOk, DownOk, UpOk, ProcsOk, ApprovalsOk, ResultsKept, AllowedOk;
    hide Deliverable, QueueOffline, AwaitingAgree, HarnessesAgree, JobsPaired, DispatchMinted, PressedOk;
    UpFact(s, p);
    DispatchFact(s);
    TableFacts(s);
    var ref := p.frame.ref;
    RefsWith(s.acking, s.cut, p);
    hide AckRefs, AckRow;
    assert s.acking + {p} + s.cut <= s.up;
    DeliverableMark(s.Jobs(), s.Outbox(), s.dispatchOf, HalfAcked(s), s.minted, ref, now);
    RowsMark(s.Outbox(), Led(s), ref, now);
  }

  lemma RowsMark(outbox: map<MsgId, OutboxRow>, l: Ledger, ref: MsgId, now: int)
    requires RowsOk(outbox, l)
    ensures RowsOk(AckRow(outbox, ref, now), l)
  {
  }

  lemma DeliverableMark(jobs: map<JobId, Job>, outbox: map<MsgId, OutboxRow>, dispatchOf: map<JobId, MsgId>,
                        half: set<MsgId>, minted: map<MsgId, Sent>, ref: MsgId, now: int)
    requires Deliverable(jobs, outbox, dispatchOf, half) && DispatchMinted(jobs, dispatchOf, minted)
    requires ref in minted && minted[ref].env.jobId in jobs && Rank(jobs[minted[ref].env.jobId].state) > 0
    ensures Deliverable(jobs, AckRow(outbox, ref, now), dispatchOf, half + {ref})
  {
  }

  /** Second half: the acked job leaves Dispatched, so its row is owed no more. */
  lemma MoveKeeps(s: System, p: Packet, now: int)
    requires Inv(s) && Enabled(s, MoveAcked(p, now))
    ensures Inv(DoMoveAcked(s, p, now))
  {
    hide Inv;
    PlaceFacts(s);
    UpFact(s, p);
    AwaitingFact(s);
    var id := p.frame.ackJob;
    AckForward(s.Jobs(), s.Approvals(), p.harness, id, p.frame.ack, now);
    var jobs' := AckJobs(s.Jobs(), p.harness, id, p.frame.ack, now);
    JobsStep(s, jobs');
    Repaid(s.(b := WithJobs(s.b, jobs')), p);
  }

  lemma Repaid(s: System, p: Packet)
    requires Inv(s) && p in s.acking && p.frame.Acked?
    requires p.frame.ref in s.minted && s.minted[p.frame.ref].env.jobId in s.Jobs()
    requires Rank(s.Jobs()[s.minted[p.frame.ref].env.jobId].state) > 1
    ensures Inv(s.(acking := s.acking - {p}))
  {
    hide MintedOk, RowsOk, DownOk, UpOk, ProcsOk, ApprovalsOk, ResultsKept, AllowedOk;
    hide Deliverable, QueueOffline, AwaitingAgree, HarnessesAgree, JobsPaired, DispatchMinted, PressedOk;
    var half' := AckRefs(s.acking - {p} + s.cut);
    RefsWithout(s.acking, s.cut, p);
    hide AckRefs;
    DispatchFact(s);
    TableFacts(s);
    DeliverableRepaid(s.Jobs(), s.Outbox(), s.dispatchOf, HalfAcked(s), half', s.minted, p.frame.ref);
  }

  lemma RefsWithout(acking: set<Packet>, cut: set<Packet>, p: Packet)
    requires p.frame.Acked?
    ensures forall m | m != p.frame.ref :: m in AckRefs(acking - {p} + cut) <==> m in AckRefs(acking + cut)
  {
  }

  lemma RefsWith(acking: set<Packet>, cut: set<Packet>, p: Packet)
    requires p.frame.Acked?
    ensures AckRefs(acking + {p} + cut) == AckRefs(acking + cut) + {p.frame.ref}
  {
  }

  lemma DeliverableRepaid(jobs: map<JobId, Job>, outbox: map<MsgId, OutboxRow>, dispatchOf: map<JobId, MsgId>,
                          half: set<MsgId>, half': set<MsgId>, minted: map<MsgId, Sent>, ref: MsgId)
    requires Deliverable(jobs, outbox, dispatchOf, half) && DispatchMinted(jobs, dispatchOf, minted)
    requires ref in minted && minted[ref].env.jobId in jobs && Rank(jobs[minted[ref].env.jobId].state) > 1
    requires forall m | m != ref :: m in half' <==> m in half
    ensures Deliverable(jobs, outbox, dispatchOf, half')
  {
    hide Waits;
  }

  lemma CutKeeps(s: System, ps: set<Packet>)
    requires Inv(s) && ps <= s.acking
    ensures Inv(Cutting(s, ps))
  {
    assert s.acking - ps + (s.cut + ps) == s.acking + s.cut;
    hide MintedOk, RowsOk, DownOk, UpOk, ProcsOk, ApprovalsOk, ResultsKept, AllowedOk, Deliverable, QueueOffline,
      AwaitingAgree, HarnessesAgree, JobsPaired, DispatchMinted, PressedOk;
  }

  lemma RequestKeeps(s: System, h: HarnessId, env: Envelope, nonce: string, now: int)
    requires Inv(s) && Packet(h, Reliable(env)) in s.up && env.body.ApprovalRequest?
    ensures Inv(DoToBroker(s, Packet(h, Reliable(env)), nonce, now))
  {
    hide Inv;
    UpFact(s, Packet(h, Reliable(env)));
    var a, id := env.body.asked, env.jobId;
    var db' := OnApprovalRequest(s.b.db, h, id, a, env.body.expiresAt, nonce, now);
    if db' != s.b.db {
      NewRequest(s, id, a, db'.approvals[a], now);
    }
    DownStep(s.(b := s.b.(db := db')), {Reply(h, env, RequestAck(s.b.db, h, id))});
  }

  lemma NewRequest(s: System, id: JobId, a: ApprovalId, row: Approval, now: int)
    requires Inv(s) && a !in s.Approvals() && id in s.Jobs() && !Terminal(s.Jobs()[id].state)
    requires row.jobId == id && row.decision.None?
    requires AskedBy(Led(s), a, Asked(s.Jobs()[id].harnessId, id, row.expiresAt))
    requires Begun(Led(s), id)
    ensures var jobs' := Transition(s.Jobs(), id, {Dispatched, Running}, Awaiting, NO_PATCH, now);
            Inv(s.(b := s.b.(db := s.b.db.(jobs := jobs', approvals := s.Approvals()[a := row]))))
  {
    hide Inv;
    RequestTables(s, id, a, row, now);
    hide ApprovalsOk, AwaitingAgree, JobsLe, ApprovalsLe, AskedBy, Begun, PressedOk;
    TablesStep(s, Transition(s.Jobs(), id, {Dispatched, Running}, Awaiting, NO_PATCH, now), s.Approvals()[a := row]);
  }

  lemma RequestTables(s: System, id: JobId, a: ApprovalId, row: Approval, now: int)
    requires Inv(s) && a !in s.Approvals() && id in s.Jobs() && !Terminal(s.Jobs()[id].state)
    requires row.jobId == id && row.decision.None?
    requires AskedBy(Led(s), a, Asked(s.Jobs()[id].harnessId, id, row.expiresAt))
    requires Begun(Led(s), id)
    ensures var jobs' := Transition(s.Jobs(), id, {Dispatched, Running}, Awaiting, NO_PATCH, now);
            var approvals' := s.Approvals()[a := row];
            && JobsLe(s.Jobs(), jobs') && jobs'.Keys == s.Jobs().Keys && ApprovalsLe(s.Approvals(), approvals')
            && AwaitingAgree(jobs', approvals') && ApprovalsOk(approvals', Ledger(jobs', approvals', s.minted, s.asked))
            && PressedOk(approvals', s.pressed)
  {
    hide Inv, ApprovalOk, ApprovalsOk, AwaitingAgree, JobsLe;
    AwaitingFact(s);
    var jobs' := Transition(s.Jobs(), id, {Dispatched, Running}, Awaiting, NO_PATCH, now);
    assert jobs'.Keys == s.Jobs().Keys;
    assert s.Jobs()[id].state in {Dispatched, Running, Awaiting};
    TransitionForward(s.Jobs(), id, {Dispatched, Running}, Awaiting, NO_PATCH, now);
    hide Transition;
    RequestAwaiting(s.Jobs(), s.Approvals(), id, a, row, now);
    forall x | x in s.Approvals() ensures ApprovalOk(Led(s), x, s.Approvals()[x]) { ApprovalFact(s, x); }
    AddedOk(Led(s), a, row, jobs');
    hide Signed;
  }

  lemma AddedOk(l: Ledger, a: ApprovalId, row: Approval, jobs': map<JobId, Job>)
    requires forall x | x in l.approvals :: ApprovalOk(l, x, l.approvals[x])
    requires a !in l.approvals && row.decision.None? && JobsLe(l.jobs, jobs') && Begun(l, row.jobId)
    requires a in l.asked && l.asked[a].jobId == row.jobId && l.asked[a].expiresAt == row.expiresAt
    ensures ApprovalsOk(l.approvals[a := row], Ledger(jobs', l.approvals[a := row], l.minted, l.asked))
  {
  }

  lemma RequestAwaiting(jobs: map<JobId, Job>, approvals: map<ApprovalId, Approval>, id: JobId, a: ApprovalId,
                        row: Approval, now: int)
    requires AwaitingAgree(jobs, approvals) && a !in approvals && id in jobs && row.jobId == id && row.decision.None?
    requires jobs[id].state in {Dispatched, Running, Awaiting}
    ensures AwaitingAgree(Transition(jobs, id, {Dispatched, Running}, Awaiting, NO_PATCH, now), approvals[a := row])
  {
    var approvals' := approvals[a := row];
    assert approvals'[a] == row;
    forall j | j in jobs && j != id ensures HasPending(approvals', j) <==> HasPending(approvals, j) {
      assert forall x | x in approvals :: approvals'[x] == approvals[x];
    }
  }

  lemma Reading(s: System, reading': set<Packet>)
    requires Inv(s) && reading' <= s.up
    ensures Inv(s.(reading := reading'))
  {
    hide MintedOk, RowsOk, DownOk, UpOk, ProcsOk, ApprovalsOk, ResultsKept, AllowedOk, Deliverable, QueueOffline,
      AwaitingAgree, HarnessesAgree, JobsPaired, DispatchMinted, PressedOk;
  }

  lemma ResultReadKeeps(s: System, h: HarnessId, env: Envelope, nonce: string, now: int)
    requires Inv(s) && Packet(h, Reliable(env)) in s.up && env.body.Finished?
    ensures Inv(DoToBroker(s, Packet(h, Reliable(env)), nonce, now))
  {
    hide Inv;
    UpFact(s, Packet(h, Reliable(env)));
    PlaceFacts(s);
    if ResultRead(s.Jobs(), h, env.jobId).Some? {
      DownStep(s, {Reply(h, env, ResultRead(s.Jobs(), h, env.jobId).value)});
    } else {
      Reading(s, s.reading + {Packet(h, Reliable(env))});
    }
  }

  lemma ToBrokerKeeps(s: System, p: Packet, nonce: string, now: int)
    requires Inv(s) && p in s.up
    ensures Inv(DoToBroker(s, p, nonce, now))
  {
    hide Inv;
    TableFacts(s);
    match p.frame
    case Acked(_, _, _) => MarkKeeps(s, p, now);
    case Progress(id, seqNo) => JobsStep(s, RecordSeq(s.Jobs(), id, seqNo));
    case Reliable(env) =>
      if env.body.ApprovalRequest? {
        RequestKeeps(s, p.harness, env, nonce, now);
      } else if env.body.Finished? {
        ResultReadKeeps(s, p.harness, env, nonce, now);
      }
    case _ =>
  }

  lemma SettleKeeps(s: System, id: JobId, r: JobResult, now: int)
    requires Inv(s) && id in s.Jobs()
    ensures var s' := s.(b := WithJobs(s.b, ResultCas(s.Jobs(), id, r, now)));
            Inv(s') && Settled(Led(s'), id)
  {
    hide Inv;
    EndStep(s, id, OPEN, StateOf(r.status), ResultPatch(r), now);
  }

  /** Whether the CAS moved the row or lost a race, the job is settled by the
      time the answer is written. */
  lemma WriteResultKeeps(s: System, p: Packet, now: int)
    requires Inv(s) && Enabled(s, WriteResult(p, now))
    ensures Inv(DoWriteResult(s, p, now))
  {
    hide Inv;
    PlaceFacts(s);
    UpFact(s, p);
    SettleKeeps(s, p.frame.env.jobId, p.frame.env.body.result, now);
    var env := p.frame.env;
    var s1 := s.(b := WithJobs(s.b, ResultCas(s.Jobs(), env.jobId, env.body.result, now)));
    DownStep(s1, {Reply(p.harness, env, ResultAck(s.Jobs(), env.jobId))});
  }

  function PressedApprovals(s: System, c: Click, now: int): map<ApprovalId, Approval>
    requires ClickVerdict(s.b.db, c, now) == Recorded
  {
    Decide(s.Approvals(), c.approval, c.decision.value, c.user, now)
  }

  function PressedJobs(s: System, c: Click, now: int): map<JobId, Job>
    requires ClickVerdict(s.b.db, c, now) == Recorded
  {
    var id := s.Approvals()[c.approval].jobId;
    ClickJobs(s.Jobs(), PressedApprovals(s, c, now), id, now)
  }

  lemma PressLedger(s: System, c: Click, now: int)
    requires Inv(s) && ClickVerdict(s.b.db, c, now) == Recorded
    ensures JobsLe(s.Jobs(), PressedJobs(s, c, now)) && ApprovalsLe(s.Approvals(), PressedApprovals(s, c, now))
    ensures ApprovalsOk(PressedApprovals(s, c, now),
                        Ledger(PressedJobs(s, c, now), PressedApprovals(s, c, now), s.minted, s.asked))
  {
    hide Inv;
    TransitionForward(s.Jobs(), s.Approvals()[c.approval].jobId, {Awaiting}, Running, NO_PATCH, now);
    DecideFinal(s.Approvals(), c.approval, c.decision.value, c.user, now);
    var approvals' := PressedApprovals(s, c, now);
    forall a | a in s.Approvals() ensures ApprovalOk(Led(s), a, s.Approvals()[a]) { ApprovalFact(s, a); }
    DecidedOk(Led(s), c.approval, c.decision.value, c.user, now, PressedJobs(s, c, now));
    hide ApprovalOk, Transition, Decide, ClickVerdict, PressedJobs, PressedApprovals;
  }

  lemma DecidedOk(l: Ledger, a: ApprovalId, d: Decision, who: UserId, now: int, jobs': map<JobId, Job>)
    requires forall x | x in l.approvals :: ApprovalOk(l, x, l.approvals[x])
    requires JobsLe(l.jobs, jobs') && (Decidable(l.approvals, a, now) ==> OwnerIs(l, l.approvals[a].jobId, who))
    ensures var approvals' := Decide(l.approvals, a, d, who, now);
            ApprovalsOk(approvals', Ledger(jobs', approvals', l.minted, l.asked))
  {
  }

  lemma PressAgree(s: System, c: Click, now: int)
    requires Inv(s) && ClickVerdict(s.b.db, c, now) == Recorded
    ensures AwaitingAgree(PressedJobs(s, c, now), PressedApprovals(s, c, now))
    ensures Begun(Led(s), s.Approvals()[c.approval].jobId)
  {
    hide Inv;
    TableFacts(s);
    var a, id := c.approval, s.Approvals()[c.approval].jobId;
    assert ApprovalOk(Led(s), a, s.Approvals()[a]);
    assert HasPending(s.Approvals(), id);
    PressAwaiting(s.Jobs(), s.Approvals(), a, PressedApprovals(s, c, now), PressedJobs(s, c, now), id);
  }

  /** The click in the history, its row still undecided. */
  function Clicked(s: System, c: Click): System { s.(pressed := s.pressed[c.approval := c]) }

  lemma ClickedKeeps(s: System, c: Click, now: int)
    requires Inv(s) && ClickVerdict(s.b.db, c, now) == Recorded
    ensures Inv(Clicked(s, c)) && PressedOk(PressedApprovals(s, c, now), Clicked(s, c).pressed)
  {
    AwaitingFact(s);
    ClickSigns(s.Approvals(), s.pressed, c, now, PressedApprovals(s, c, now)) by {
      hide Inv, PressedOk, AwaitingAgree;
    }
    hide LedgerInv, MintedOk, RowsOk, DownOk, UpOk, ProcsOk, ApprovalsOk, ResultsKept, AllowedOk, ClickVerdict;
    hide Deliverable, QueueOffline, AwaitingAgree, HarnessesAgree, JobsPaired, DispatchMinted, PressedOk,
      PressedApprovals;
  }

  lemma ClickSigns(approvals: map<ApprovalId, Approval>, pressed: map<ApprovalId, Click>, c: Click, now: int,
                   approvals': map<ApprovalId, Approval>)
    requires PressedOk(approvals, pressed) && c.decision.Some? && Decidable(approvals, c.approval, now)
    requires c.tag == Hmac(c.approval, c.decision.value, approvals[c.approval].nonce)
    requires approvals' == Decide(approvals, c.approval, c.decision.value, c.user, now)
    ensures PressedOk(approvals, pressed[c.approval := c]) && PressedOk(approvals', pressed[c.approval := c])
  {
  }

  lemma PressTables(s: System, c: Click, now: int)
    requires Inv(s) && ClickVerdict(s.b.db, c, now) == Recorded
    ensures var db' := s.b.db.(jobs := PressedJobs(s, c, now), approvals := PressedApprovals(s, c, now));
            Inv(Clicked(s, c).(b := s.b.(db := db')))
  {
    hide Inv, ApprovalsOk, ApprovalOk, AwaitingAgree, PressedOk, JobsLe, ApprovalsLe;
    PressLedger(s, c, now);
    PressAgree(s, c, now);
    ClickedKeeps(s, c, now);
    var jobs' := PressedJobs(s, c, now);
    assert jobs'.Keys == s.Jobs().Keys;
    hide PressedJobs, PressedApprovals, ClickVerdict;
    TablesStep(Clicked(s, c), jobs', PressedApprovals(s, c, now));
  }

  lemma PressAwaiting(jobs: map<JobId, Job>, approvals: map<ApprovalId, Approval>, a: ApprovalId,
                      approvals': map<ApprovalId, Approval>, jobs': map<JobId, Job>, id: JobId)
    requires AwaitingAgree(jobs, approvals) && a in approvals && approvals[a].jobId == id && id in jobs
    requires approvals'.Keys == approvals.Keys && approvals'[a].jobId == id && approvals'[a].decision.Some?
    requires forall x | x in approvals && x != a :: approvals'[x] == approvals[x]
    requires forall j | j in jobs && j != id :: j in jobs' && jobs'[j] == jobs[j]
    requires jobs'.Keys == jobs.Keys
    requires HasPending(approvals', id) ==> jobs' == jobs && HasPending(approvals, id)
    requires !HasPending(approvals', id) ==> !jobs'[id].state.Awaiting?
    ensures AwaitingAgree(jobs', approvals')
  {
    forall j | j in jobs && j != id ensures HasPending(approvals, j) <==> HasPending(approvals', j) {
      assert forall x | x in approvals && approvals[x].jobId == j :: approvals'[x] == approvals[x];
      assert forall x | x in approvals' && approvals'[x].jobId == j :: approvals'[x] == approvals[x];
    }
  }

  lemma PressSent(s: System, c: Click, msg: MsgId, now: int)
    requires Inv(s) && ClickVerdict(s.b.db, c, now) == Recorded
    ensures var id := s.Approvals()[c.approval].jobId;
            var l := Ledger(PressedJobs(s, c, now), PressedApprovals(s, c, now), s.minted, s.asked);
            && SentOk(l, msg, Sent(s.Jobs()[id].harnessId,
                                   Envelope(msg, id, ApprovalResponse(c.approval, c.decision.value))))
            && Begun(l, id)
  {
    hide Inv;
    PressAgree(s, c, now);
  }

  lemma PressShape(s: System, c: Click, msg: MsgId, now: int)
    requires ClickVerdict(s.b.db, c, now) == Recorded
    ensures var id := s.Approvals()[c.approval].jobId;
            var env := Envelope(msg, id, ApprovalResponse(c.approval, c.decision.value));
            var h := s.Jobs()[id].harnessId;
            var db' := s.b.db.(jobs := PressedJobs(s, c, now), approvals := PressedApprovals(s, c, now));
            var s1 := Clicked(s, c).(b := s.b.(db := db'));
            DoPress(s, c, msg, now) == s1.(b := SendReliable(s1.b, h, env), minted := s1.minted[msg := Sent(h, env)])
  {
  }

  lemma PressKeeps(s: System, c: Click, msg: MsgId, now: int)
    requires Inv(s) && msg !in s.minted
    ensures Inv(DoPress(s, c, msg, now))
  {
    if ClickVerdict(s.b.db, c, now) != Recorded { return; }
    hide Inv;
    var id := s.Approvals()[c.approval].jobId;
    var env := Envelope(msg, id, ApprovalResponse(c.approval, c.decision.value));
    var db' := s.b.db.(jobs := PressedJobs(s, c, now), approvals := PressedApprovals(s, c, now));
    var s1 := Clicked(s, c).(b := s.b.(db := db'));
    PressTables(s, c, now);
    PressSent(s, c, msg, now);
    PressShape(s, c, msg, now);
    hide PressedJobs, PressedApprovals, ClickVerdict, DoPress, SendReliable, SentOk, Begun;
    SendStep(s1, s.Jobs()[id].harnessId, env);
  }

  lemma CancelKeeps(s: System, id: JobId, msg: MsgId, reason: string, now: int)
    requires Inv(s) && id in s.Jobs() && msg !in s.minted
    ensures Inv(Cancelling(s, id, msg, reason, now))
  {
    hide Inv;
    TableFacts(s);
    if s.Jobs()[id].state.Queued? {
      JobsStep(s, Transition(s.Jobs(), id, {Queued}, Cancelled, NO_PATCH, now));
    } else {
      SendStep(s, s.Jobs()[id].harnessId, Envelope(msg, id, Cancel(reason)));
    }
  }

  /** Purging drops acknowledged rows only. */
  lemma PurgeKeeps(s: System, before: int)
    requires Inv(s)
    ensures Inv(s.(b := s.b.(db := s.b.db.(outbox := Purged(s.Outbox(), before)))))
  {
    hide Inv;
    TableFacts(s);
    DeliverablePurge(s.Jobs(), s.Outbox(), s.dispatchOf, HalfAcked(s), before);
    hide Deliverable;
    OutboxStep(s, Purged(s.Outbox(), before));
  }

  lemma DeliverablePurge(jobs: map<JobId, Job>, outbox: map<MsgId, OutboxRow>, dispatchOf: map<JobId, MsgId>,
                         half: set<MsgId>, before: int)
    requires Deliverable(jobs, outbox, dispatchOf, half)
    ensures Deliverable(jobs, Purged(outbox, before), dispatchOf, half)
  {
  }

  lemma SweepStartKeeps(s: System, cfg: Config, now: int)
    requires Inv(s)
    ensures Inv(s.(b := SweepTables(s.b, cfg, now)))
  {
    hide Inv;
    TableFacts(s);
    ExpireForward(s.Jobs(), now);
    var jobs' := ExpireQueued(s.Jobs(), now);
    JobsStep(s, jobs');
    PurgeKeeps(s.(b := WithJobs(s.b, jobs')), now - cfg.outboxRetention);
  }

  lemma SweepRowKeeps(s: System, id: JobId, msg: MsgId, cfg: Config, now: int)
    requires Inv(s) && Enabled(s, SweepRow(id, msg, cfg, now))
    ensures Inv(DoSweepRow(s, id, msg, cfg, now))
  {
    hide Inv;
    var row := JobRow(id, s.Jobs()[id]);
    if row.job.harnessId in s.b.conns {
      if TimedOut(row, cfg, now) { CancelKeeps(s, id, msg, "timeout", now); }
    } else {
      EndStep(s, id, ACTIVE, Lost, Failure(LOST_CONTACT), now);
    }
  }

  // --- harness steps ---

  lemma ToHarnessKeeps(s: System, p: Packet)
    requires Inv(s) && Enabled(s, ToHarness(p))
    ensures Inv(DoToHarness(s, p))
  {
    hide Inv;
    DownFact(s, p);
    ProcFact(s, p.harness);
    var h, hs := p.harness, s.procs[p.harness];
    match p.frame
    case Acked(ref, _, _) => AckedKeeps(s, h, ref);
    case Welcome(answers) => LocalStep(s, h, hs.(jobs := H.AfterWelcome(hs.jobs, answers)));
    case Reliable(env) => ReliableKeeps(s, h, env);
    case _ =>
  }

  lemma AckedKeeps(s: System, h: HarnessId, ref: MsgId)
    requires Inv(s) && h in s.procs && ref in s.minted
    requires s.minted[ref].env.body.Finished? ==> Settled(Led(s), s.minted[ref].env.jobId)
    ensures Inv(WithProc(s, h, H.OnAcked(s.procs[h], ref)))
  {
    assert ProcOk(h, s.procs[h], Led(s));
    ProcStep(s, h, H.OnAcked(s.procs[h], ref));
  }

  lemma ReliableKeeps(s: System, h: HarnessId, env: Envelope)
    requires Inv(s) && h in s.procs && Packet(h, Reliable(env)) in s.b.down
    ensures Inv(DoToHarness(s, Packet(h, Reliable(env))))
  {
    hide Inv;
    DownFact(s, Packet(h, Reliable(env)));
    var hs := s.procs[h];
    HandledOk(s, h, env);
    LocalStep(s, h, H.HandleReliable(hs, env));
    UpStep(WithProc(s, h, H.HandleReliable(hs, env)), {Reply(h, env, H.ReliableAck(hs, env))});
  }

  lemma HandledOk(s: System, h: HarnessId, env: Envelope)
    requires Inv(s) && h in s.procs
    requires SentOk(Led(s), env.id, Sent(h, env)) && env.body.ByBroker() && Begun(Led(s), env.jobId)
    ensures var hs' := H.HandleReliable(s.procs[h], env);
            && LiveOk(hs'.jobs, h, hs'.cfg.owner, Led(s)) && ChannelsOk(hs'.channels, h, hs'.cfg.owner, Led(s))
            && hs'.outbox == s.procs[h].outbox && hs'.cfg == s.procs[h].cfg
  {
    hide Inv;
    ProcFact(s, h);
    var hs := s.procs[h];
    if env.body.ApprovalResponse? {
      ApprovalFact(s, env.body.answered);
    }
  }

  lemma HelloKeeps(s: System, h: HarnessId, reported: seq<JobId>)
    requires Inv(s) && Enabled(s, SayHello(h, reported))
    ensures Inv(UpWith(s, {Packet(h, Hello(reported))}))
  {
    assert ProcOk(h, s.procs[h], Led(s));
    assert forall j | j in reported :: j in Elems(reported);
    UpStep(s, {Packet(h, Hello(reported))});
  }

  lemma ResendKeeps(s: System, h: HarnessId, ids: set<MsgId>)
    requires Inv(s) && h in s.procs
    ensures Inv(UpWith(s, H.BoxPackets(s.procs[h].outbox, h, ids)))
  {
    assert ProcOk(h, s.procs[h], Led(s));
    forall m | m in s.procs[h].outbox ensures UpPacketOk(Packet(h, Reliable(s.procs[h].outbox[m])), Led(s)) {
      assert SentOk(Led(s), m, s.minted[m]);
    }
    UpStep(s, H.BoxPackets(s.procs[h].outbox, h, ids));
  }

  lemma AskSent(s: System, h: HarnessId, id: JobId, a: ApprovalId, expiresAt: int, env: Envelope)
    requires Inv(s) && h in s.procs && id in s.procs[h].jobs && AskedBy(Led(s), a, Asked(h, id, expiresAt))
    requires env.jobId == id && env.body == ApprovalRequest(a, expiresAt)
    ensures SentOk(Led(s), env.id, Sent(h, env))
  {
    hide Inv;
    ProcFact(s, h);
  }

  lemma AskProc(s: System, h: HarnessId, id: JobId, a: ApprovalId, expiresAt: int, env: Envelope)
    requires Inv(s) && h in s.procs && id in s.procs[h].jobs && AskedBy(Led(s), a, Asked(h, id, expiresAt))
    requires MintedAs(Led(s), env.id, Sent(h, env)) && env.body.ApprovalRequest?
    ensures ProcOk(h, H.AskOwner(s.procs[h], id, a, expiresAt, env), Led(s))
  {
    hide Inv;
    ProcFact(s, h);
  }

  lemma AskKeeps(s: System, h: HarnessId, id: JobId, a: ApprovalId, expiresAt: int, msg: MsgId)
    requires Inv(s) && Enabled(s, Ask(h, id, a, expiresAt, msg))
    ensures Inv(DoAsk(s, h, id, a, expiresAt, msg))
  {
    hide Inv, ProcOk, SentOk;
    var env := Envelope(msg, id, ApprovalRequest(a, expiresAt));
    AskedStep(s, a, Asked(h, id, expiresAt));
    var s1 := s.(asked := s.asked[a := Asked(h, id, expiresAt)]);
    AskSent(s1, h, id, a, expiresAt, env);
    MintStep(s1, msg, Sent(h, env));
    var s2 := s1.(minted := s1.minted[msg := Sent(h, env)]);
    AskProc(s2, h, id, a, expiresAt, env);
    var p := H.AskOwner(s.procs[h], id, a, expiresAt, env);
    ProcStep(s2, h, p);
    UpStep(WithProc(s2, h, p), {Packet(h, Reliable(env))});
  }

  lemma AllowStep(s: System, x: Allowed)
    requires Inv(s)
    requires Owned(Led(s), x.jobId, x.h) && OwnerOf(s.procs, x.h, s.Jobs()[x.jobId].ownerId)
    requires Granted(Led(s), x.jobId, x.approval, Allow) && s.Approvals()[x.approval].expiresAt == x.expiresAt
    ensures Inv(s.(allowed := s.allowed + {x}))
  {
  }

  lemma AnswerKeeps(s: System, h: HarnessId, a: ApprovalId, allow: bool)
    requires Inv(s) && Enabled(s, Answer(h, a, allow))
    ensures Inv(DoAnswer(s, h, a, allow))
  {
    hide Inv;
    ProcFact(s, h);
    var hs := s.procs[h];
    assert ChannelOk(a, hs.channels[a], h, hs.cfg.owner, Led(s));
    LocalStep(s, h, H.StopAsking(hs, a));
    if allow {
      ApprovalFact(s, a);
      var x := Allowed(h, hs.channels[a].jobId, a, hs.channels[a].expiresAt);
      AllowStep(WithProc(s, h, H.StopAsking(hs, a)), x);
    }
  }

  /** The result enters the history and the outbox in one step. */
  lemma FinishKeeps(s: System, h: HarnessId, id: JobId, result: JobResult, msg: MsgId)
    requires Inv(s) && Enabled(s, Finish(h, id, result, msg))
    ensures Inv(DoFinish(s, h, id, result, msg))
  {
    hide Inv;
    var env := Envelope(msg, id, Finished(result));
    ProcFact(s, h);
    QueueResult(s, h, env);
    var p1 := s.procs[h].(outbox := s.procs[h].outbox[msg := env]);
    var s1 := s.(minted := s.minted[msg := Sent(h, env)], procs := s.procs[h := p1]);
    ProcFact(s1, h);
    var p2 := H.FinishJob(s.procs[h], id, env);
    LocalStep(s1, h, p2);
    assert s1.procs[h := p2] == s.procs[h := p2];
    UpStep(WithProc(s1, h, p2), {Packet(h, Reliable(env))});
  }

  lemma KeptBox(s: System, h: HarnessId, p: H.HarnessState, l: Ledger)
    requires ResultsKept(s.minted, s.procs, l) && h in s.procs && s.procs[h].outbox.Keys <= p.outbox.Keys
    ensures ResultsKept(s.minted, s.procs[h := p], l)
  {
    assert forall x, m :: InBox(s.procs, x, m) ==> InBox(s.procs[h := p], x, m);
  }

  lemma QueueResultProc(s: System, h: HarnessId, env: Envelope)
    requires Inv(s) && h in s.procs && env.id !in s.minted && Owned(Led(s), env.jobId, h) && env.body.Finished?
    ensures var l' := Led(s).(minted := s.minted[env.id := Sent(h, env)]);
            SentOk(l', env.id, Sent(h, env)) && ProcOk(h, s.procs[h].(outbox := s.procs[h].outbox[env.id := env]), l')
  {
    hide Inv;
    ProcFact(s, h);
  }

  lemma QueueResultLedger(s: System, h: HarnessId, env: Envelope)
    requires Inv(s) && h in s.procs && env.id !in s.minted && Owned(Led(s), env.jobId, h) && env.body.Finished?
    ensures var p := s.procs[h].(outbox := s.procs[h].outbox[env.id := env]);
            var minted' := s.minted[env.id := Sent(h, env)];
            LedgerInv(s.(minted := minted', procs := s.procs[h := p]), Led(s).(minted := minted'))
  {
    var p := s.procs[h].(outbox := s.procs[h].outbox[env.id := env]);
    var l' := Led(s).(minted := s.minted[env.id := Sent(h, env)]);
    QueueResultProc(s, h, env);
    MintGrows(s, env.id, Sent(h, env));
    assert LedgerInv(s, Led(s));
    hide Inv, Le, ProcOk, SentOk, MintedOk, RowsOk, DownOk, UpOk, ProcsOk, ApprovalsOk, ResultsKept, AllowedOk;
    Carry(s, Led(s), l');
    BoxLedger(s, h, p, l');
    MintedAdd(s.minted, env.id, Sent(h, env), l');
    KeptMint(s.minted, env.id, Sent(h, env), s.procs[h := p], l');
  }

  lemma MintGrows(s: System, m: MsgId, x: Sent)
    requires m !in s.minted
    ensures Le(Led(s), Led(s).(minted := s.minted[m := x]))
  {
  }

  lemma BoxLedger(s: System, h: HarnessId, p: H.HarnessState, l: Ledger)
    requires LedgerInv(s, l) && h in s.procs && ProcOk(h, p, l)
    requires p.cfg == s.procs[h].cfg && s.procs[h].outbox.Keys <= p.outbox.Keys
    ensures LedgerInv(s.(procs := s.procs[h := p]), l)
  {
    hide ProcOk, MintedOk, RowsOk, DownOk, UpOk, ProcsOk, ApprovalsOk, ResultsKept, AllowedOk;
    ProcsPut(s, h, p, l);
    OwnersPut(s, h, p, l);
    KeptBox(s, h, p, l);
  }

  lemma QueueResult(s: System, h: HarnessId, env: Envelope)
    requires Inv(s) && h in s.procs && env.id !in s.minted && Owned(Led(s), env.jobId, h) && env.body.Finished?
    ensures Inv(s.(minted := s.minted[env.id := Sent(h, env)],
                   procs := s.procs[h := s.procs[h].(outbox := s.procs[h].outbox[env.id := env])]))
  {
    hide LedgerInv;
    QueueResultLedger(s, h, env);
    OwnersPut(s, h, s.procs[h].(outbox := s.procs[h].outbox[env.id := env]), Led(s));
    DispatchMint(s.Jobs(), s.dispatchOf, s.minted, env.id, Sent(h, env));
    hide Deliverable, QueueOffline, AwaitingAgree, HarnessesAgree, JobsPaired, DispatchMinted, PressedOk;
  }

  lemma DropKeeps(s: System, h: HarnessId, p: H.HarnessState)
    requires Inv(s) && h in s.procs && p.cfg == s.procs[h].cfg && p.outbox == s.procs[h].outbox
    requires forall j | j in p.jobs :: j in s.procs[h].jobs
    requires forall a | a in p.channels :: a in s.procs[h].channels && p.channels[a] == s.procs[h].channels[a]
    ensures Inv(WithProc(s, h, p))
  {
    assert ProcOk(h, s.procs[h], Led(s));
    LocalStep(s, h, p);
  }

  lemma BrokerKeeps(s: System, step: Step)
    requires Inv(s) && Enabled(s, step) && !ByHarness(step)
    ensures Inv(Next(s, step))
  {
    hide Inv, DoPair, DoCreate, DoCutCreate, DoConnect, DoGreet, DoToBroker, DoWriteResult, DoMoveAcked, DoPress,
      DoSweepRow, Cancelling, DownWith, SweepTables;
    match step
    case Pair(h, cfg, now) => PairKeeps(s, h, cfg, now);
    case Create(n, now, ttl, written) => CreateKeeps(s, n, now, ttl, written);
    case CutCreate(n, now, ttl) => CutCreateKeeps(s, n, now, ttl);
    case Connect(h, now) => ConnectKeeps(s, h, now);
    case Greet(h, reported, now) => GreetKeeps(s, h, reported, now);
    case Flush(h, rows) => FlushKeeps(s, h, rows);
    case Disconnect(h) => HangUpKeeps(s, s.b.conns - {h}, s.reading);
    case ToBroker(p, nonce, now) => ToBrokerKeeps(s, p, nonce, now);
    case WriteResult(p, now) => WriteResultKeeps(s, p, now);
    case MoveAcked(p, now) => MoveKeeps(s, p, now);
    case CutAck(p) => CutKeeps(s, {p});
    case Press(c, msg, now) => PressKeeps(s, c, msg, now);
    case UserCancel(id, msg, now) => CancelKeeps(s, id, msg, "user", now);
    case SweepStart(cfg, now) => SweepStartKeeps(s, cfg, now);
    case SweepRow(id, msg, cfg, now) => SweepRowKeeps(s, id, msg, cfg, now);
    case BrokerRestart =>
      CutKeeps(s, s.acking);
      HangUpKeeps(Cutting(s, s.acking), map[], {});
  }

  lemma ForgetKeeps(s: System, step: Step)
    requires Inv(s) && Enabled(s, step) && (step.Remove? || step.StoreSession? || step.Crash?)
    ensures Inv(Next(s, step))
  {
    hide Inv;
    match step
    case Remove(h, id) => DropKeeps(s, h, H.RemoveJob(s.procs[h], id));
    case StoreSession(h, id, sessionId) => DropKeeps(s, h, H.StoreSession(s.procs[h], id, sessionId));
    case Crash(h) => DropKeeps(s, h, H.Restart(s.procs[h]));
  }

  lemma ProgressKeeps(s: System, h: HarnessId, id: JobId, seqNo: int)
    requires Inv(s)
    ensures Inv(UpWith(s, {Packet(h, Progress(id, seqNo))}))
  {
    hide Inv;
    UpStep(s, {Packet(h, Progress(id, seqNo))});
  }

  /** The steps on the link: receiving, hello, resends, progress. */
  lemma LinkKeeps(s: System, step: Step)
    requires Inv(s) && Enabled(s, step) && (step.ToHarness? || step.SayHello? || step.Resend? || step.SendProgress?)
    ensures Inv(Next(s, step))
  {
    hide Inv, DoToHarness, UpWith, H.BoxPackets;
    match step
    case ToHarness(p) => ToHarnessKeeps(s, p);
    case SayHello(h, reported) => HelloKeeps(s, h, reported);
    case Resend(h, ids) => ResendKeeps(s, h, ids);
    case SendProgress(h, id, seqNo) => ProgressKeeps(s, h, id, seqNo);
  }

  /** The steps of a job: its tool calls and its end. */
  lemma JobKeeps(s: System, step: Step)
    requires Inv(s) && Enabled(s, step) && (step.Ask? || step.Answer? || step.Finish?)
    ensures Inv(Next(s, step))
  {
    hide Inv, DoAsk, DoAnswer, DoFinish;
    match step
    case Ask(h, id, a, expiresAt, msg) => AskKeeps(s, h, id, a, expiresAt, msg);
    case Answer(h, a, allow) => AnswerKeeps(s, h, a, allow);
    case Finish(h, id, result, msg) => FinishKeeps(s, h, id, result, msg);
  }

  lemma HarnessKeeps(s: System, step: Step)
    requires Inv(s) && Enabled(s, step) && ByHarness(step)
    ensures Inv(Next(s, step))
  {
    hide Inv, Enabled, Next;
    if step.ToHarness? || step.SayHello? || step.Resend? || step.SendProgress? {
      LinkKeeps(s, step);
    } else if step.Ask? || step.Answer? || step.Finish? {
      JobKeeps(s, step);
    } else {
      ForgetKeeps(s, step);
    }
  }

  lemma NextKeeps(s: System, step: Step)
    requires Inv(s) && Enabled(s, step)
    ensures Inv(Next(s, step))
  {
    hide Inv;
    if ByHarness(step) { HarnessKeeps(s, step); } else { BrokerKeeps(s, step); }
  }
}
