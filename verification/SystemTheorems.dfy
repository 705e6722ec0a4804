/** What every reachable state of the bridge satisfies, whatever is lost,
    duplicated, reordered, reconnected or restarted. */
module SystemTheorems {
  import opened Basics
  import opened Protocol
  import opened Store
  import opened Broker
  import opened System
  import opened SystemInv
  import opened SystemSteps
  import H = Harness

  lemma {:induction false} RunKeeps(s: System, steps: seq<Step>, t: System)
    requires Inv(s) && Runs(s, steps, t)
    ensures Inv(t)
    decreases |steps|
  {
    hide Inv;
    if steps != [] {
      NextKeeps(s, steps[0]);
      RunKeeps(Next(s, steps[0]), steps[1..], t);
    }
  }

  lemma ReachableInv(s: System)
    requires Reachable(s)
    ensures Inv(s)
  {
    InitInv();
    hide Inv;
    var steps :| Runs(INIT, steps, s);
    RunKeeps(INIT, steps, s);
  }

  /** No result is dropped undecided: a result a harness ever queued is still
      in its outbox, or its job is terminal and not lost. */
  lemma ResultsNeverDropped(s: System, m: MsgId)
    requires Reachable(s)
    requires m in s.minted && s.minted[m].env.body.Finished?
    ensures var h, id := s.minted[m].h, s.minted[m].env.jobId;
            && h in s.procs && id in s.Jobs() && s.Jobs()[id].harnessId == h
            && ((m in s.procs[h].outbox && s.procs[h].outbox[m] == s.minted[m].env)
                || (Terminal(s.Jobs()[id].state) && !s.Jobs()[id].state.Lost?))
  {
    ReachableInv(s);
    ResultPlaced(s, m);
  }

  lemma ResultPlaced(s: System, m: MsgId)
    requires Inv(s) && m in s.minted && s.minted[m].env.body.Finished?
    ensures var h, id := s.minted[m].h, s.minted[m].env.jobId;
            && h in s.procs && id in s.Jobs() && s.Jobs()[id].harnessId == h
            && ((m in s.procs[h].outbox && s.procs[h].outbox[m] == s.minted[m].env)
                || (Terminal(s.Jobs()[id].state) && !s.Jobs()[id].state.Lost?))
  {
    ResultFact(s, m);
    ProcFact(s, s.minted[m].h);
    hide Inv, LiveOk, ChannelsOk;
  }

  /** A tool call was let through only because the broker's row for that very
      approval says allow, written by the owner of the job, who is the owner
      the harness is configured with, strictly before the deadline the harness
      had set; and the click that decided it was the owner's, said allow, and
      carried the keyed tag of that approval, that row's nonce and allow. */
  lemma AllowIsSound(s: System, x: Allowed)
    requires Reachable(s) && x in s.allowed
    ensures x.approval in s.Approvals() && x.jobId in s.Jobs() && x.h in s.procs
    ensures var row, job := s.Approvals()[x.approval], s.Jobs()[x.jobId];
            && row.jobId == x.jobId && job.harnessId == x.h
            && row.decision == Some(Allow)
            && row.decidedBy == job.ownerId == s.procs[x.h].cfg.owner
            && row.decidedAt < row.expiresAt == x.expiresAt
    ensures x.approval in s.pressed
    ensures var row, c := s.Approvals()[x.approval], s.pressed[x.approval];
            && c.approval == x.approval && c.decision == Some(Allow) && c.user == row.decidedBy
            && c.tag == Hmac(x.approval, Allow, row.nonce)
  {
    ReachableInv(s);
    assert ApprovalOk(Led(s), x.approval, s.Approvals()[x.approval]);
    assert Signed(x.approval, s.Approvals()[x.approval], s.pressed[x.approval]);
  }

  /** Some row will start job j when its harness is there. */
  ghost predicate Startable(outbox: map<MsgId, OutboxRow>, j: JobId, h: HarnessId) {
    exists m :: Waits(outbox, m, j, h)
  }

  /** The dispatch of j was enqueued, and no ack of it is, or was cut, between
      its two store calls. */
  ghost predicate Owed(s: System, j: JobId) {
    j in s.dispatchOf && s.dispatchOf[j] in s.minted && s.dispatchOf[j] !in HalfAcked(s)
  }

  /** A waiting job stays deliverable, exactly: an unacked dispatch row of it is
      in the outbox, and stays there under any purge, unless its creation was cut
      before the enqueue (`System.OnlyCutCreations`), or the job is dispatched and an
      ack of that row is between its two store calls, or was cut there by a broker
      stop or a cancelled connection. There is at most one such row. */
  lemma WaitingStaysDeliverable(s: System, j: JobId, before: int)
    requires Reachable(s) && j in s.Jobs() && s.Jobs()[j].state in {Queued, Dispatched}
    ensures Startable(s.Outbox(), j, s.Jobs()[j].harnessId) <==> Owed(s, j)
    ensures Startable(Purged(s.Outbox(), before), j, s.Jobs()[j].harnessId) <==> Owed(s, j)
    ensures s.Jobs()[j].state.Queued? ==> (Owed(s, j) <==> j in s.dispatchOf)
    ensures forall m | Waits(s.Outbox(), m, j, s.Jobs()[j].harnessId) :: j in s.dispatchOf && m == s.dispatchOf[j]
  {
    ReachableInv(s);
    TableFacts(s);
    DispatchFact(s);
    DeliverablePurge(s.Jobs(), s.Outbox(), s.dispatchOf, HalfAcked(s), before);
    hide Inv, Reachable, AckRefs;
    OneRow(s, s.Outbox(), j);
    OneRow(s, Purged(s.Outbox(), before), j);
  }

  lemma OneRow(s: System, outbox: map<MsgId, OutboxRow>, j: JobId)
    requires Inv(s) && j in s.Jobs() && RowsOk(outbox, Led(s))
    ensures var h := s.Jobs()[j].harnessId;
            && (forall m | Waits(outbox, m, j, h) :: j in s.dispatchOf && m == s.dispatchOf[j])
            && (Startable(outbox, j, h) <==> j in s.dispatchOf && Waits(outbox, s.dispatchOf[j], j, h))
  {
    DispatchFact(s);
    hide Inv;
    forall m | Waits(outbox, m, j, s.Jobs()[j].harnessId) ensures j in s.dispatchOf && m == s.dispatchOf[j] {
      assert MintedAs(Led(s), m, Sent(outbox[m].harnessId, outbox[m].env));
      assert DispatchIs(s.Jobs(), s.dispatchOf, j, m);
    }
  }

  /** … and until it leaves the queue, nothing of it is on the wire or at any
      harness, and its harness has no served connection. */
  lemma QueuedIsNowhereElse(s: System, j: JobId)
    requires Reachable(s) && j in s.Jobs() && s.Jobs()[j].state.Queued?
    ensures forall p | p in s.b.down && p.frame.Reliable? :: p.frame.env.jobId != j
    ensures forall h | h in s.procs :: j !in s.procs[h].jobs
    ensures forall p | p in s.up && p.frame.Hello? :: j !in p.frame.reported
    ensures forall a | a in s.Approvals() :: s.Approvals()[a].jobId != j
    ensures s.Jobs()[j].harnessId in s.b.conns ==> s.b.conns[s.Jobs()[j].harnessId].Greeting?
  {
    ReachableInv(s);
    forall p | p in s.b.down && p.frame.Reliable? ensures p.frame.env.jobId != j { DownFact(s, p); }
    forall h | h in s.procs ensures j !in s.procs[h].jobs { ProcFact(s, h); }
    forall p | p in s.up && p.frame.Hello? ensures j !in p.frame.reported { UpFact(s, p); }
    forall a | a in s.Approvals() ensures s.Approvals()[a].jobId != j { ApprovalFact(s, a); }
  }

  /** For an active job past the queue: awaiting approval if and only if some
      approval of it is undecided. */
  lemma AwaitingIffUndecided(s: System, j: JobId)
    requires Reachable(s) && j in s.Jobs() && s.Jobs()[j].state in ACTIVE - {Queued}
    ensures s.Jobs()[j].state.Awaiting? <==>
            exists a :: a in s.Approvals() && s.Approvals()[a].jobId == j && s.Approvals()[a].decision.None?
  {
    ReachableInv(s);
  }

  /** The client's handling of a frame is the step of the machine above. */
  lemma ClientIsTheStep(s: System, p: Packet)
    requires p.harness in s.procs && !p.frame.Welcome?
    ensures var hs := s.procs[p.harness];
            DoToHarness(s, p) == UpWith(WithProc(s, p.harness, H.AfterFrame(hs, p.frame)),
                                        H.Replies(hs, p.harness, p.frame))
  {
    assert s.procs[p.harness := s.procs[p.harness]] == s.procs;
    assert s.up + {} == s.up;
  }

  /** The broker's steps are its handlers, on the broker's state. */
  lemma BrokerStepIsTheHandler(s: System, step: Step)
    requires Enabled(s, step)
    ensures var b, b' := s.b, Next(s, step).b;
            match step
            case Create(n, now, ttl, written) => b' == CreateJob(b, n, now, ttl, written)
            case Press(c, msg, now) => b' == HandleCallback(b, c, msg, now)
            case UserCancel(id, msg, now) => b' == CancelJob(b, JobRow(id, b.db.jobs[id]), msg, "user", now)
            case SweepStart(cfg, now) => b' == SweepTables(b, cfg, now)
            case SweepRow(id, msg, cfg, now) => b' == SweepOne(b, JobRow(id, b.db.jobs[id]), msg, cfg, now)
            case Disconnect(h) => b' == b.(conns := b'.conns) && h !in b'.conns && b'.conns.Keys + {h} >= b.conns.Keys
            case BrokerRestart => b' == b.(conns := b'.conns) && |b'.conns| == 0
            case _ => true
  {
    hide SendReliable, OnApprovalRequest, HelloJobs, AckJobs, ResultCas, H.HandleReliable;
  }

  /** A connection greets first and is then served: registering it notes the
      contact, and the hello's answer settles the jobs and opens it. */
  lemma ConnectionStep(s: System, h: HarnessId, reported: seq<JobId>, now: int)
    ensures Enabled(s, Connect(h, now)) ==>
              var b, b' := s.b, Next(s, Connect(h, now)).b;
              && h in b.db.harnesses && b'.conns == b.conns[h := Greeting] && b'.down == b.down
              && b'.db == b.db.(harnesses := b.db.harnesses[h := HarnessRow(b.db.harnesses[h].ownerId, now)])
    ensures Enabled(s, Greet(h, reported, now)) ==>
              var b, b' := s.b, Next(s, Greet(h, reported, now)).b;
              && b'.conns == b.conns[h := Ready]
              && b'.down == b.down + {Packet(h, Welcome(HelloAnswers(b.db.jobs, h, reported)))}
              && b'.db == b.db.(jobs := HelloJobs(b.db.jobs, h, Elems(reported), now))
  {
    hide HelloJobs, HelloAnswers, Matching;
  }

  /** The second half of a result: its write and its answer, and the packet is
      still there for another copy's write. */
  lemma WriteStep(s: System, p: Packet, now: int)
    requires Enabled(s, WriteResult(p, now))
    ensures var env, s' := p.frame.env, Next(s, WriteResult(p, now));
            && s'.b.db == s.b.db.(jobs := ResultCas(s.Jobs(), env.jobId, env.body.result, now))
            && s'.b.down == s.b.down + {Packet(p.harness, Acked(env.id, env.jobId, ResultAck(s.Jobs(), env.jobId)))}
            && s'.reading == s.reading
  {
    hide ResultCas, ResultAck;
  }

  /** The answers the broker writes to the frames it handles. */
  lemma BrokerAnswers(s: System, p: Packet, nonce: string, now: int)
    requires p in s.up && p.frame.Reliable?
    ensures var env, s' := p.frame.env, Next(s, ToBroker(p, nonce, now));
            var answer := (a: Ack) => Packet(p.harness, Acked(env.id, env.jobId, a));
            match env.body
            case ApprovalRequest(a, expiresAt) =>
              && s'.b.db == OnApprovalRequest(s.b.db, p.harness, env.jobId, a, expiresAt, nonce, now)
              && s'.b.down == s.b.down + {answer(RequestAck(s.b.db, p.harness, env.jobId))}
            case Finished(r) =>
              && s'.b.db == s.b.db
              && (match ResultRead(s.Jobs(), p.harness, env.jobId)
                  case Some(ack) => s'.b.down == s.b.down + {answer(ack)} && s'.reading == s.reading
                  case None => s'.b.down == s.b.down && s'.reading == s.reading + {p})
            case _ => s' == s
  {
    hide OnApprovalRequest, RequestAck, ResultRead;
  }

  /** The harness's steps are its handlers, on that harness alone. */
  lemma RunStepIsTheHandler(s: System, step: Step)
    requires Enabled(s, step) && (step.Finish? || step.Ask? || step.Answer?)
    ensures var p, p' := s.procs[step.h], Next(s, step).procs;
            match step
            case Finish(h, id, r, msg) => p' == s.procs[h := H.FinishJob(p, id, Envelope(msg, id, Finished(r)))]
            case Ask(h, id, a, at, msg) =>
              p' == s.procs[h := H.AskOwner(p, id, a, at, Envelope(msg, id, ApprovalRequest(a, at)))]
            case Answer(h, a, _) => p' == s.procs[h := H.StopAsking(p, a)]
  {
    hide H.FinishJob, H.AskOwner, H.StopAsking;
  }

  lemma EndStepIsTheHandler(s: System, step: Step)
    requires Enabled(s, step) && (step.Remove? || step.StoreSession? || step.Crash?)
    ensures var p, p' := s.procs[step.h], Next(s, step).procs;
            match step
            case Remove(h, id) => p' == s.procs[h := H.RemoveJob(p, id)]
            case StoreSession(h, id, sessionId) => p' == s.procs[h := H.StoreSession(p, id, sessionId)]
            case Crash(h) => p' == s.procs[h := H.Restart(p)]
  {
    hide H.RemoveJob, H.StoreSession, H.Restart;
  }

  /** An ack whose two store calls follow each other is the hub's handling. */
  lemma AckIsBothHalves(s: System, p: Packet, nonce: string, now: int)
    requires p in s.up && p.frame.Acked?
    ensures var marked := DoToBroker(s, p, nonce, now);
            && p in marked.acking && DoMoveAcked(marked, p, now).acking == marked.acking - {p}
            && DoMoveAcked(marked, p, now).b == HandleAck(s.b, p.harness, p.frame.ref, p.frame.ackJob, p.frame.ack, now)
  {
  }
}
