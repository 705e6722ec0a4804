/** The broker's objects: the hub's outbox delivery and the core's handlers,
    run step by step on the tables and proved to do what `Broker` says. */
module BrokerObjects {
  import opened Basics
  import opened Protocol
  import opened Store
  import opened Broker

  /** The job table after OnHello's first loop has seen the ids in `seen`. */
  function AfterReports(jobs: map<JobId, Job>, h: HarnessId, seen: set<JobId>, now: int): map<JobId, Job> {
    map id | id in jobs :: if id in seen then AfterReport(jobs[id], h, now) else jobs[id]
  }

  /** … and after its second loop has walked the rows in `walked`. */
  function AfterRows(jobs: map<JobId, Job>, h: HarnessId, reported: set<JobId>, walked: set<JobId>, now: int)
    : map<JobId, Job>
  {
    map id | id in jobs ::
      if id in reported then AfterReport(jobs[id], h, now)
      else if id in walked then AfterSilence(jobs[id], h, now)
      else jobs[id]
  }

  ghost predicate ListsActive(rows: seq<JobRow>, jobs: map<JobId, Job>, h: HarnessId) {
    && RowsFrom(rows, jobs)
    && (forall id :: id in Ids(rows) <==> id in jobs && ActiveOf(jobs[id], h))
  }

  class Hub {
    const st: SqliteStore
    var conns: map<HarnessId, Phase>
    var down: set<Packet>

    constructor (st: SqliteStore)
      ensures this.st == st && conns == map[] && down == {}
    {
      this.st := st;
      conns, down := map[], {};
    }

    function View(): BrokerState
      reads this, st
    {
      BrokerState(st.View(), conns, down)
    }

    method Push(h: HarnessId, env: Envelope)
      modifies this`down
      ensures View() == Broker.Push(old(View()), h, env)
    {
      if h in conns {
        down := down + {Packet(h, Reliable(env))};
      }
    }

    method SendReliable(h: HarnessId, env: Envelope)
      modifies this`down, st`outbox
      ensures View() == Broker.SendReliable(old(View()), h, env)
    {
      st.Enqueue(h, env);
      Push(h, env);
    }

    /** Writes the unacked rows one by one; a broken connection stops after
        `writes` of them. */
    method FlushOutbox(h: HarnessId, writes: nat) returns (sent: set<MsgId>, done: bool)
      modifies this`down
      ensures View() == old(View()).(down := old(down) + RowPackets(st.outbox, h, sent))
      ensures sent <= Unacked(st.outbox, h) && |sent| <= writes
      ensures done <==> sent == Unacked(st.outbox, h)
    {
      var pending := Unacked(st.outbox, h);
      sent := {};
      while pending != {} && |sent| < writes
        invariant pending !! sent && pending + sent == Unacked(st.outbox, h)
        invariant |sent| <= writes
        invariant st.View() == old(st.View()) && conns == old(conns)
        invariant down == old(down) + RowPackets(st.outbox, h, sent)
        decreases |pending|
      {
        var m :| m in pending;
        down := down + {Packet(h, Reliable(st.outbox[m].env))};
        assert RowPackets(st.outbox, h, sent + {m}) ==
                 RowPackets(st.outbox, h, sent) + {Packet(h, Reliable(st.outbox[m].env))};
        pending, sent := pending - {m}, sent + {m};
      }
      done := pending == {};
    }
  }

  class Core {
    const cfg: Config
    const st: SqliteStore
    const hub: Hub

    constructor (cfg: Config, hub: Hub)
      ensures this.cfg == cfg && this.hub == hub && st == hub.st
    {
      this.cfg, this.hub, st := cfg, hub, hub.st;
    }

    ghost predicate Wired() { hub.st == st }

    method Fail(id: JobId, reason: string, now: int)
      modifies st`jobs
      ensures st.jobs == FailJob(old(st.jobs), id, reason, now)
    {
      var _ := st.TransitionJob(id, ACTIVE, Failed, Failure(reason), now);
    }

    method CreateJob(n: NewJob, now: int, written: bool)
      requires Wired()
      modifies hub`down, st`jobs, st`outbox
      ensures hub.View() == Broker.CreateJob(old(hub.View()), n, now, cfg.queueTtl, written)
    {
      var online := n.h in hub.conns;
      if n.id in st.jobs || TriggerTaken(st.jobs, n.dispatch.botUserId, n.triggerPostId) { return; }
      st.jobs := st.jobs[n.id := NewRow(n, online, now, cfg.queueTtl)];
      hub.SendReliable(n.h, Envelope(n.msg, n.id, Dispatch(n.dispatch)));
      if online && !written {
        Fail(n.id, "dispatch failed", now);
      }
    }

    method CancelJob(row: JobRow, msg: MsgId, reason: string, now: int)
      requires Wired()
      modifies hub`down, st`jobs, st`outbox
      ensures hub.View() == Broker.CancelJob(old(hub.View()), row, msg, reason, now)
    {
      if row.job.state.Queued? {
        var _ := st.TransitionJob(row.id, {Queued}, Cancelled, NO_PATCH, now);
      } else {
        hub.SendReliable(row.job.harnessId, Envelope(msg, row.id, Cancel(reason)));
      }
    }

    /** The handshake: both loops work on the active rows as first listed,
        and the limit of that listing is the only reason for the precondition. */
    method OnHello(h: HarnessId, reported: seq<JobId>, now: int) returns (out: seq<WelcomeJob>)
      requires h != "" && |Matching(st.jobs, ActiveFilter(h))| <= 1000
      modifies st`jobs
      ensures st.jobs == HelloJobs(old(st.jobs), h, Elems(reported), now)
      ensures out == HelloAnswers(old(st.jobs), h, reported)
    {
      var active := st.ListJobs(ActiveFilter(h));
      ghost var before := st.jobs;
      assert forall id :: id in Matching(before, ActiveFilter(h)) <==> id in before && ActiveOf(before[id], h);
      out := AnswerReported(h, reported, active, now);
      SettleSilent(before, h, reported, active, now);
    }

    method AnswerReported(h: HarnessId, reported: seq<JobId>, active: seq<JobRow>, now: int)
      returns (out: seq<WelcomeJob>)
      requires ListsActive(active, st.jobs, h)
      modifies st`jobs
      ensures st.jobs == AfterReports(old(st.jobs), h, Elems(reported), now)
      ensures out == HelloAnswers(old(st.jobs), h, reported)
    {
      ghost var before := st.jobs;
      out := [];
      for i := 0 to |reported|
        invariant out == HelloAnswers(before, h, reported[..i])
        invariant st.jobs == AfterReports(before, h, Elems(reported[..i]), now)
      {
        var id := reported[i];
        assert reported[..i + 1] == reported[..i] + [id];
        if k :| 0 <= k < |active| && active[k].id == id {
          out := out + [WelcomeJob(id, Resume)];
          if active[k].job.state in {Queued, Dispatched} {
            var _ := st.TransitionJob(id, {Queued, Dispatched}, Running, NO_PATCH, now);
          }
        } else {
          assert id !in Ids(active);
          out := out + [WelcomeJob(id, Abort)];
        }
      }
      assert reported[..|reported|] == reported;
    }

    method SettleSilent(ghost before: map<JobId, Job>, h: HarnessId, reported: seq<JobId>, active: seq<JobRow>,
                        now: int)
      requires ListsActive(active, before, h)
      requires st.jobs == AfterReports(before, h, Elems(reported), now)
      modifies st`jobs
      ensures st.jobs == HelloJobs(before, h, Elems(reported), now)
    {
      ghost var all := Elems(reported);
      for k := 0 to |active|
        invariant st.jobs == AfterRows(before, h, all, Ids(active[..k]), now)
      {
        var row := active[k];
        assert active[..k + 1] == active[..k] + [row];
        IdsAppend(active[..k], row);
        assert row.id !in Ids(active[..k]);
        if row.id !in reported {
          if row.job.state in {Running, Awaiting} {
            Fail(row.id, RESTARTED, now);
          } else if row.job.state.Queued? {
            var _ := st.TransitionJob(row.id, {Queued}, Dispatched, NO_PATCH, now);
          }
        }
      }
      assert active[..|active|] == active;
    }

    method OnAck(h: HarnessId, ref: MsgId, id: JobId, a: Ack, now: int)
      requires Wired()
      modifies st`jobs, st`outbox
      ensures hub.View() == HandleAck(old(hub.View()), h, ref, id, a, now)
    {
      st.AckOutbox(ref, now);
      if id == "" { return; }
      if a.ok {
        var _ := st.TransitionJob(id, {Dispatched}, Running, NO_PATCH, now);
        return;
      }
      if id in st.jobs && st.jobs[id].harnessId == h && st.jobs[id].state.Dispatched? {
        Fail(id, "harness rejected the job: " + a.code, now);
      }
    }

    method OnApprovalRequest(h: HarnessId, id: JobId, a: ApprovalId, expiresAt: int, nonce: string, now: int)
      returns (ack: Ack)
      modifies st`jobs, st`approvals
      ensures st.View() == Broker.OnApprovalRequest(old(st.View()), h, id, a, expiresAt, nonce, now)
      ensures ack == RequestAck(old(st.View()), h, id)
    {
      ack := RequestAck(st.View(), h, id);
      if !ack.ok { return; }
      var created := st.CreateApproval(a, Approval(id, nonce, expiresAt, None, "", 0));
      if created.Err? { return; }
      var _ := st.TransitionJob(id, {Dispatched, Running}, Awaiting, NO_PATCH, now);
    }

    /** No other handler runs between the read and the CAS here; `System` and
        `Interleaving` drop that. */
    method OnResult(h: HarnessId, id: JobId, r: JobResult, now: int) returns (ack: Ack)
      modifies st`jobs
      ensures st.jobs ==
              if ResultRead(old(st.jobs), h, id).None? then ResultCas(old(st.jobs), id, r, now) else old(st.jobs)
      ensures ack == ResultRead(old(st.jobs), h, id).GetOr(Ack(true, ""))
    {
      var read := ResultRead(st.jobs, h, id);
      if read.Some? { return read.value; }
      var moved := st.TransitionJob(id, OPEN, StateOf(r.status), ResultPatch(r), now);
      ack := if moved.Ok? then Ack(true, "") else Ack(false, "store");
    }

    method HandleCallback(c: Click, msg: MsgId, now: int) returns (reply: ClickReply)
      requires Wired()
      modifies hub`down, st`jobs, st`approvals, st`outbox
      ensures hub.View() == Broker.HandleCallback(old(hub.View()), c, msg, now)
      ensures reply == ClickVerdict(old(st.View()), c, now)
    {
      if c.approval == "" || c.decision.None? { return Malformed; }
      if c.approval !in st.approvals { return NoApproval; }
      var row := st.approvals[c.approval];
      if c.tag != Hmac(c.approval, c.decision.value, row.nonce) { return BadSignature; }
      var id := row.jobId;
      if id !in st.jobs { return JobGone; }
      var job := st.jobs[id];
      if c.user != job.ownerId { return NotOwner; }
      if Terminal(job.state) { return JobOver; }
      var decided := st.DecideApproval(c.approval, c.decision.value, c.user, now);
      if decided.Err? { return TooLate; }
      hub.SendReliable(job.harnessId, Envelope(msg, id, ApprovalResponse(c.approval, c.decision.value)));
      if !HasPending(st.approvals, id) {
        var _ := st.TransitionJob(id, {Awaiting}, Running, NO_PATCH, now);
      }
      reply := Recorded;
    }

    /** One listed job: cancelled when it ran too long, lost when its harness
        has been away too long. */
    method SweepTurn(row: JobRow, msg: MsgId, now: int)
      requires Wired()
      modifies hub`down, st`jobs, st`outbox
      ensures hub.View() == SweepOne(old(hub.View()), row, msg, cfg, now)
    {
      if row.job.harnessId in hub.conns {
        if TimedOut(row, cfg, now) {
          CancelJob(row, msg, "timeout", now);
        }
      } else if Abandoned(st.View(), row.job.harnessId, cfg, now) {
        var _ := st.TransitionJob(row.id, ACTIVE, Lost, Failure(LOST_CONTACT), now);
      }
    }

    /** `msgs` are the fresh ids its cancels would use. */
    method Sweep(now: int, msgs: seq<MsgId>) returns (rows: seq<JobRow>)
      requires Wired() && |msgs| >= 1000
      modifies hub`down, st`jobs, st`outbox
      ensures |rows| <= 1000
      ensures RowsFrom(rows, SweepTables(old(hub.View()), cfg, now).db.jobs)
      ensures Ids(rows) <= Matching(SweepTables(old(hub.View()), cfg, now).db.jobs, SweepFilter())
      ensures hub.View() == SweepRows(SweepTables(old(hub.View()), cfg, now), rows, msgs, cfg, now)
    {
      st.PurgeOutbox(now - cfg.outboxRetention);
      st.ExpireQueuedJobs(now);
      rows := st.ListJobs(SweepFilter());
      SweepListed(rows, msgs, now);
    }

    method SweepListed(rows: seq<JobRow>, msgs: seq<MsgId>, now: int)
      requires Wired() && |msgs| >= |rows|
      modifies hub`down, st`jobs, st`outbox
      ensures hub.View() == SweepRows(old(hub.View()), rows, msgs, cfg, now)
    {
      ghost var start := hub.View();
      var i := 0;
      while i < |rows|
        invariant 0 <= i <= |rows|
        invariant hub.View() == SweepRows(start, rows[..i], msgs, cfg, now)
      {
        SweepNext(start, rows, i, msgs, cfg, now);
        hide SweepRows, SweepOne, SweepTables;
        SweepTurn(rows[i], msgs[i], now);
        i := i + 1;
      }
      assert rows[..i] == rows;
    }
  }
}
