/** The whole bridge: one broker, any number of harnesses, and the wire between
    them. The wire is the set of packets ever written in each direction; a
    packet may be delivered never, once or many times, in any order, and even
    over a later connection. */
module System {
  import opened Basics
  import opened Protocol
  import opened Store
  import opened Broker
  import H = Harness

  /** History: who first sent an envelope, and who asked for an approval. */
  datatype Sent = Sent(h: HarnessId, env: Envelope)

  datatype Asked = Asked(h: HarnessId, jobId: JobId, expiresAt: int)

  /** History: a tool call that `decide` let through. */
  datatype Allowed = Allowed(h: HarnessId, jobId: JobId, approval: ApprovalId, expiresAt: int)

  /** `reading` are the results some OnResult call has read and may still write:
      a copy on another connection is another call, so a write leaves its packet
      there. `acking` are the acks whose outbox row is marked and whose OnAck is
      to come. The rest is history and steers nothing but the choice of fresh
      ids: `cut` are the acks whose OnAck a broker stop or a cancelled connection
      prevented, `dispatchOf` names the dispatch enqueued for a job, so a job
      whose creation was cut before the enqueue has none, and `pressed` is the
      last click recorded for an approval. */
  datatype System = System(
    b: BrokerState, procs: map<HarnessId, H.HarnessState>, up: set<Packet>,
    reading: set<Packet>, acking: set<Packet>, cut: set<Packet>,
    minted: map<MsgId, Sent>, asked: map<ApprovalId, Asked>, dispatchOf: map<JobId, MsgId>,
    pressed: map<ApprovalId, Click>, allowed: set<Allowed>)
  {
    function Jobs(): map<JobId, Job> { b.db.jobs }
    function Approvals(): map<ApprovalId, Approval> { b.db.approvals }
    function Outbox(): map<MsgId, OutboxRow> { b.db.outbox }
  }

  datatype Step =
    // broker
    | Pair(h: HarnessId, cfg: H.Config, now: int)
    | Create(n: NewJob, now: int, ttl: nat, written: bool)
    | CutCreate(n: NewJob, now: int, ttl: nat)
    | Connect(h: HarnessId, now: int)
    | Greet(h: HarnessId, reported: seq<JobId>, now: int)
    | Flush(h: HarnessId, rows: set<MsgId>)
    | Disconnect(h: HarnessId)
    | ToBroker(p: Packet, nonce: string, now: int)
    | WriteResult(p: Packet, now: int)
    | MoveAcked(p: Packet, now: int)
    | CutAck(p: Packet)
    | Press(c: Click, msg: MsgId, now: int)
    | UserCancel(id: JobId, msg: MsgId, now: int)
    | SweepStart(cfgB: Config, now: int)
    | SweepRow(id: JobId, msg: MsgId, cfgB: Config, now: int)
    | BrokerRestart
    // harness
    | ToHarness(p: Packet)
    | SayHello(h: HarnessId, reported: seq<JobId>)
    | Resend(h: HarnessId, ids: set<MsgId>)
    | Ask(h: HarnessId, id: JobId, a: ApprovalId, expiresAt: int, msg: MsgId)
    | Answer(h: HarnessId, a: ApprovalId, allow: bool)
    | Finish(h: HarnessId, id: JobId, result: JobResult, msg: MsgId)
    | Remove(h: HarnessId, id: JobId)
    | StoreSession(h: HarnessId, id: JobId, sessionId: string)
    | SendProgress(h: HarnessId, id: JobId, seqNo: int)
    | Crash(h: HarnessId)

  /** The listing limit of OnHello is never hit. */
  predicate Few(jobs: map<JobId, Job>, h: HarnessId) { |Matching(jobs, ActiveFilter(h))| <= 1000 }

  predicate MayCreate(s: System, n: NewJob) {
    && n.id != "" && n.id !in s.Jobs()
    && n.h in s.b.db.harnesses && s.b.db.harnesses[n.h].ownerId == n.dispatch.requester
  }

  predicate Enabled(s: System, step: Step) {
    match step
    case Pair(h, _, _) => h !in s.procs && h != ""
    case Create(n, _, _, _) => MayCreate(s, n) && n.msg !in s.minted
    case CutCreate(n, _, _) => MayCreate(s, n)
    case Connect(h, _) => h in s.b.db.harnesses
    case Greet(h, reported, _) =>
      h in s.b.conns && s.b.conns[h].Greeting? && Packet(h, Hello(reported)) in s.up && Few(s.Jobs(), h)
    case Flush(h, rows) => h in s.b.conns && s.b.conns[h].Ready? && rows <= Unacked(s.Outbox(), h)
    case Disconnect(_) => true
    case ToBroker(p, _, _) => p in s.up
    case WriteResult(p, _) => p in s.reading && p.frame.Reliable? && p.frame.env.body.Finished?
    case MoveAcked(p, _) => p in s.acking && p.frame.Acked?
    case CutAck(p) => p in s.acking
    case Press(_, msg, _) => msg !in s.minted
    case UserCancel(id, msg, _) => id in s.Jobs() && msg !in s.minted
    case SweepStart(_, _) => true
    case SweepRow(id, msg, _, _) =>
      id in s.Jobs() && s.Jobs()[id].state in {Dispatched, Running, Awaiting} && msg !in s.minted
    case BrokerRestart => true
    case ToHarness(p) => p in s.b.down && p.harness in s.procs
    case SayHello(h, reported) => h in s.procs && Elems(reported) == s.procs[h].jobs.Keys
    case Resend(h, ids) => h in s.procs && ids <= s.procs[h].outbox.Keys
    case Ask(h, id, a, _, msg) => h in s.procs && id in s.procs[h].jobs && a !in s.asked && msg !in s.minted
    case Answer(h, a, allow) => h in s.procs && a in s.procs[h].channels && (allow ==> H.MayAllow(s.procs[h], a))
    case Finish(h, id, _, msg) => h in s.procs && id in s.procs[h].jobs && msg !in s.minted
    case Remove(h, _) => h in s.procs
    case StoreSession(h, id, _) => h in s.procs && id in s.procs[h].jobs
    case SendProgress(h, id, _) => h in s.procs && id in s.procs[h].jobs
    case Crash(h) => h in s.procs
  }

  function Next(s: System, step: Step): System
    requires Enabled(s, step)
  {
    match step
    case Pair(h, cfg, now) => DoPair(s, h, cfg, now)
    case Create(n, now, ttl, written) => DoCreate(s, n, now, ttl, written)
    case CutCreate(n, now, ttl) => DoCutCreate(s, n, now, ttl)
    case Connect(h, now) => DoConnect(s, h, now)
    case Greet(h, reported, now) => DoGreet(s, h, reported, now)
    case Flush(h, rows) => DownWith(s, RowPackets(s.Outbox(), h, rows))
    case Disconnect(h) => s.(b := s.b.(conns := s.b.conns - {h}))
    case ToBroker(p, nonce, now) => DoToBroker(s, p, nonce, now)
    case WriteResult(p, now) => DoWriteResult(s, p, now)
    case MoveAcked(p, now) => DoMoveAcked(s, p, now)
    case CutAck(p) => Cutting(s, {p})
    case Press(c, msg, now) => DoPress(s, c, msg, now)
    case UserCancel(id, msg, now) => Cancelling(s, id, msg, "user", now)
    case SweepStart(cfg, now) => s.(b := SweepTables(s.b, cfg, now))
    case SweepRow(id, msg, cfg, now) => DoSweepRow(s, id, msg, cfg, now)
    case BrokerRestart => Cutting(s, s.acking).(b := s.b.(conns := map[]), reading := {})
    case ToHarness(p) => DoToHarness(s, p)
    case SayHello(h, reported) => UpWith(s, {Packet(h, Hello(reported))})
    case Resend(h, ids) => UpWith(s, H.BoxPackets(s.procs[h].outbox, h, ids))
    case Ask(h, id, a, expiresAt, msg) => DoAsk(s, h, id, a, expiresAt, msg)
    case Answer(h, a, allow) => DoAnswer(s, h, a, allow)
    case Finish(h, id, result, msg) => DoFinish(s, h, id, result, msg)
    case Remove(h, id) => WithProc(s, h, H.RemoveJob(s.procs[h], id))
    case StoreSession(h, id, sessionId) => WithProc(s, h, H.StoreSession(s.procs[h], id, sessionId))
    case SendProgress(h, id, seqNo) => UpWith(s, {Packet(h, Progress(id, seqNo))})
    case Crash(h) => WithProc(s, h, H.Restart(s.procs[h]))
  }

  // --- the steps ---

  function WithProc(s: System, h: HarnessId, p: H.HarnessState): System { s.(procs := s.procs[h := p]) }

  function UpWith(s: System, ps: set<Packet>): System { s.(up := s.up + ps) }

  function DownWith(s: System, ps: set<Packet>): System { s.(b := s.b.(down := s.b.down + ps)) }

  function DoPair(s: System, h: HarnessId, cfg: H.Config, now: int): System {
    s.(procs := s.procs[h := H.HarnessState(cfg, map[], map[], map[], map[])],
       b := s.b.(db := s.b.db.(harnesses := s.b.db.harnesses[h := HarnessRow(cfg.owner, now)])))
  }

  function DoCreate(s: System, n: NewJob, now: int, ttl: nat, written: bool): System {
    if TriggerTaken(s.Jobs(), n.dispatch.botUserId, n.triggerPostId) then s
    else s.(b := CreateJob(s.b, n, now, ttl, written),
            minted := s.minted[n.msg := Sent(n.h, Envelope(n.msg, n.id, Dispatch(n.dispatch)))],
            dispatchOf := s.dispatchOf[n.id := n.msg])
  }

  /** The broker stops after the insert: no outbox row, no push. */
  function DoCutCreate(s: System, n: NewJob, now: int, ttl: nat): System {
    if TriggerTaken(s.Jobs(), n.dispatch.botUserId, n.triggerPostId) then s
    else s.(b := WithJobs(s.b, s.Jobs()[n.id := NewRow(n, n.h in s.b.conns, now, ttl)]))
  }

  /** Registration; it replaces an older connection of the same harness. */
  function DoConnect(s: System, h: HarnessId, now: int): System
    requires h in s.b.db.harnesses
  {
    s.(b := s.b.(conns := s.b.conns[h := Greeting],
                 db := s.b.db.(harnesses := s.b.db.harnesses[h := s.b.db.harnesses[h].(lastSeen := now)])))
  }

  function DoGreet(s: System, h: HarnessId, reported: seq<JobId>, now: int): System {
    s.(b := WithJobs(s.b, HelloJobs(s.Jobs(), h, Elems(reported), now)).(
              conns := s.b.conns[h := Ready],
              down := s.b.down + {Packet(h, Welcome(HelloAnswers(s.Jobs(), h, reported)))}))
  }

  function Reply(h: HarnessId, env: Envelope, ack: Ack): Packet { Packet(h, Acked(env.id, env.jobId, ack)) }

  function DoToBroker(s: System, p: Packet, nonce: string, now: int): System {
    match p.frame
    case Acked(ref, _, _) =>
      s.(b := s.b.(db := s.b.db.(outbox := AckRow(s.Outbox(), ref, now))), acking := s.acking + {p})
    case Progress(id, seqNo) => s.(b := WithJobs(s.b, RecordSeq(s.Jobs(), id, seqNo)))
    case Reliable(env) => (
      match env.body
      case ApprovalRequest(a, expiresAt) =>
        DownWith(s.(b := s.b.(db := OnApprovalRequest(s.b.db, p.harness, env.jobId, a, expiresAt, nonce, now))),
                 {Reply(p.harness, env, RequestAck(s.b.db, p.harness, env.jobId))})
      case Finished(_) => (
        match ResultRead(s.Jobs(), p.harness, env.jobId)
        case Some(ack) => DownWith(s, {Reply(p.harness, env, ack)})
        case None => s.(reading := s.reading + {p}))
      case _ => s)
    case _ => s
  }

  function DoWriteResult(s: System, p: Packet, now: int): System
    requires p.frame.Reliable? && p.frame.env.body.Finished?
  {
    var env := p.frame.env;
    DownWith(s.(b := WithJobs(s.b, ResultCas(s.Jobs(), env.jobId, env.body.result, now))),
             {Reply(p.harness, env, ResultAck(s.Jobs(), env.jobId))})
  }

  /** The second store call of an ack: OnAck. */
  function DoMoveAcked(s: System, p: Packet, now: int): System
    requires p.frame.Acked?
  {
    s.(b := WithJobs(s.b, AckJobs(s.Jobs(), p.harness, p.frame.ackJob, p.frame.ack, now)), acking := s.acking - {p})
  }

  function Cutting(s: System, ps: set<Packet>): System { s.(acking := s.acking - ps, cut := s.cut + ps) }

  /** Messages whose row an ack has marked while its OnAck has not run. */
  function HalfAcked(s: System): set<MsgId> { AckRefs(s.acking + s.cut) }

  function AckRefs(ps: set<Packet>): set<MsgId> { set p | p in ps && p.frame.Acked? :: p.frame.ref }

  function DoPress(s: System, c: Click, msg: MsgId, now: int): System {
    if ClickVerdict(s.b.db, c, now) != Recorded then s
    else
      var id := s.Approvals()[c.approval].jobId;
      var env := Envelope(msg, id, ApprovalResponse(c.approval, c.decision.value));
      s.(b := HandleCallback(s.b, c, msg, now), pressed := s.pressed[c.approval := c],
         minted := s.minted[msg := Sent(s.Jobs()[id].harnessId, env)])
  }

  function Cancelling(s: System, id: JobId, msg: MsgId, reason: string, now: int): System
    requires id in s.Jobs()
  {
    var job := s.Jobs()[id];
    s.(b := CancelJob(s.b, JobRow(id, job), msg, reason, now),
       minted := if job.state.Queued? then s.minted
                 else s.minted[msg := Sent(job.harnessId, Envelope(msg, id, Cancel(reason)))])
  }

  function DoSweepRow(s: System, id: JobId, msg: MsgId, cfg: Config, now: int): System
    requires id in s.Jobs()
  {
    var row := JobRow(id, s.Jobs()[id]);
    if row.job.harnessId in s.b.conns && TimedOut(row, cfg, now) then Cancelling(s, id, msg, "timeout", now)
    else s.(b := SweepOne(s.b, row, msg, cfg, now))
  }

  function DoToHarness(s: System, p: Packet): System
    requires p.harness in s.procs
  {
    var hs := s.procs[p.harness];
    match p.frame
    case Acked(ref, _, _) => WithProc(s, p.harness, H.OnAcked(hs, ref))
    case Welcome(answers) => WithProc(s, p.harness, hs.(jobs := H.AfterWelcome(hs.jobs, answers)))
    case Reliable(env) =>
      if !env.body.ByBroker() then s
      else UpWith(WithProc(s, p.harness, H.HandleReliable(hs, env)), {Reply(p.harness, env, H.ReliableAck(hs, env))})
    case _ => s
  }

  /** The request goes out; nothing below depends on whether it is written now. */
  function DoAsk(s: System, h: HarnessId, id: JobId, a: ApprovalId, expiresAt: int, msg: MsgId): System
    requires h in s.procs && id in s.procs[h].jobs
  {
    var env := Envelope(msg, id, ApprovalRequest(a, expiresAt));
    UpWith(WithProc(s, h, H.AskOwner(s.procs[h], id, a, expiresAt, env)).(
             minted := s.minted[msg := Sent(h, env)], asked := s.asked[a := Asked(h, id, expiresAt)]),
           {Packet(h, Reliable(env))})
  }

  function DoAnswer(s: System, h: HarnessId, a: ApprovalId, allow: bool): System
    requires h in s.procs && a in s.procs[h].channels
  {
    var c := s.procs[h].channels[a];
    WithProc(s, h, H.StopAsking(s.procs[h], a)).(
      allowed := if allow then s.allowed + {Allowed(h, c.jobId, a, c.expiresAt)} else s.allowed)
  }

  function DoFinish(s: System, h: HarnessId, id: JobId, result: JobResult, msg: MsgId): System
    requires h in s.procs && id in s.procs[h].jobs
  {
    var env := Envelope(msg, id, Finished(result));
    UpWith(WithProc(s, h, H.FinishJob(s.procs[h], id, env)).(minted := s.minted[msg := Sent(h, env)]),
           {Packet(h, Reliable(env))})
  }

  // --- runs ---

  const INIT := System(BrokerState(Db(map[], map[], map[], map[]), map[], {}), map[],
                       {}, {}, {}, {}, map[], map[], map[], map[], {})

  ghost predicate Runs(s: System, steps: seq<Step>, t: System)
    decreases |steps|
  {
    if steps == [] then s == t
    else Enabled(s, steps[0]) && Runs(Next(s, steps[0]), steps[1..], t)
  }

  ghost predicate Reachable(s: System) { exists steps :: Runs(INIT, steps, s) }

  // --- which jobs have a dispatch ---

  predicate ByHarness(step: Step) {
    step.ToHarness? || step.SayHello? || step.Resend? || step.Ask? || step.Answer? || step.Finish? || step.Remove?
    || step.StoreSession? || step.SendProgress? || step.Crash?
  }

  lemma HarnessLeavesTables(s: System, step: Step)
    requires Enabled(s, step) && ByHarness(step)
    ensures Next(s, step).b == s.b && Next(s, step).dispatchOf == s.dispatchOf
  {
    if step.ToHarness? {
      HandlingLeavesTables(s, step.p);
    }
    hide DoToHarness;
  }

  lemma HandlingLeavesTables(s: System, p: Packet)
    requires p.harness in s.procs
    ensures DoToHarness(s, p).b == s.b && DoToHarness(s, p).dispatchOf == s.dispatchOf
  {
  }

  lemma DispatchedOnceByBroker(s: System, step: Step, j: JobId)
    requires Enabled(s, step) && !ByHarness(step) && !(step.CutCreate? && step.n.id == j)
    requires j in s.Jobs() ==> j in s.dispatchOf
    ensures j in Next(s, step).Jobs() ==> j in Next(s, step).dispatchOf
  {
    if step.Create? || step.CutCreate? {
    } else {
      MovesMakeNoJobs(s, step, j);
      hide Next;
    }
  }

  lemma MovesMakeNoJobs(s: System, step: Step, j: JobId)
    requires Enabled(s, step) && !ByHarness(step) && !step.Create? && !step.CutCreate?
    ensures Next(s, step).dispatchOf == s.dispatchOf && (j in Next(s, step).Jobs() ==> j in s.Jobs())
  {
    hide AckRow, Purged, Unacked, RowPackets, HelloAnswers, ClickVerdict, Enqueued, MayCreate, H.MayAllow;
    if step.ToBroker? {
      FramesMakeNoJobs(s, step.p, step.nonce, step.now, j);
    } else if step.Press? {
      ClicksMakeNoJobs(s, step.c, step.msg, step.now, j);
    } else if step.SweepRow? {
      TurnsMakeNoJobs(s, step.id, step.msg, step.cfgB, step.now, j);
    }
    hide DoToBroker, DoPress, DoSweepRow;
  }

  lemma ClicksMakeNoJobs(s: System, c: Click, msg: MsgId, now: int, j: JobId)
    ensures var s' := DoPress(s, c, msg, now);
            s'.dispatchOf == s.dispatchOf && (j in s'.Jobs() ==> j in s.Jobs())
  {
  }

  lemma TurnsMakeNoJobs(s: System, id: JobId, msg: MsgId, cfg: Config, now: int, j: JobId)
    requires id in s.Jobs()
    ensures var s' := DoSweepRow(s, id, msg, cfg, now);
            s'.dispatchOf == s.dispatchOf && (j in s'.Jobs() ==> j in s.Jobs())
  {
  }

  lemma FramesMakeNoJobs(s: System, p: Packet, nonce: string, now: int, j: JobId)
    ensures var s' := DoToBroker(s, p, nonce, now);
            s'.dispatchOf == s.dispatchOf && (j in s'.Jobs() ==> j in s.Jobs())
  {
    hide AckRow, RequestAck, ResultRead;
    if p.frame.Reliable? {
      var env := p.frame.env;
      if env.body.ApprovalRequest? {
        assert DoToBroker(s, p, nonce, now).b.db ==
               OnApprovalRequest(s.b.db, p.harness, env.jobId, env.body.asked, env.body.expiresAt, nonce, now);
        hide DoToBroker;
      }
    }
  }

  /** Jobs and their dispatches appear together, but for a cut creation. */
  lemma DispatchedOnce(s: System, step: Step, j: JobId)
    requires Enabled(s, step) && !(step.CutCreate? && step.n.id == j)
    requires j in s.Jobs() ==> j in s.dispatchOf
    ensures j in Next(s, step).Jobs() ==> j in Next(s, step).dispatchOf
  {
    if ByHarness(step) {
      HarnessLeavesTables(s, step);
      hide Next;
    } else {
      DispatchedOnceByBroker(s, step, j);
      hide Next;
    }
  }

  /** A job without a dispatch is one whose creation was cut. */
  lemma {:induction false} OnlyCutCreations(s: System, steps: seq<Step>, t: System, j: JobId)
    requires Runs(s, steps, t) && (j in s.Jobs() ==> j in s.dispatchOf)
    requires j in t.Jobs() && j !in t.dispatchOf
    ensures exists k :: 0 <= k < |steps| && steps[k].CutCreate? && steps[k].n.id == j
    decreases |steps|
  {
    if steps == [] {
      assert false;
    } else if steps[0].CutCreate? && steps[0].n.id == j {
    } else {
      DispatchedOnce(s, steps[0], j);
      hide Next, Enabled;
      OnlyCutCreations(Next(s, steps[0]), steps[1..], t, j);
      var k :| 0 <= k < |steps[1..]| && steps[1..][k].CutCreate? && steps[1..][k].n.id == j;
      assert steps[k + 1] == steps[1..][k];
    }
  }
}
