/** The harness daemon: live jobs, approval channels, the durable outbox and
    the sticky sessions, one function per handler. */
module Harness {
  import opened Basics
  import opened Protocol
  import opened Sessions

  const DEFAULT_WORKSPACE := "_default"

  datatype Config = Config(
    owner: UserId, workspaces: map<string, string>, defaultDir: string,
    agents: set<string>, defaultAgent: string, maxJobs: int)

  datatype RunPhase = Starting | Working | Asking

  /** `finished` is set once the result is queued; the entry itself goes later. */
  datatype LiveJob = LiveJob(
    botUserId: UserId, rootPostId: string, workspace: string, dir: string, agent: string,
    phase: RunPhase, seqNo: int, approvals: set<ApprovalId>, cancelled: bool, finished: bool)

  /** A permission call waiting for its answer: a channel of capacity one. */
  datatype Channel = Channel(jobId: JobId, expiresAt: int, answer: Option<Decision>, closed: bool)

  datatype HarnessState = HarnessState(
    cfg: Config, jobs: map<JobId, LiveJob>, channels: map<ApprovalId, Channel>,
    outbox: map<MsgId, Envelope>, sessions: map<string, Entry>)

  // --- dispatch ---

  function ResolveWorkspace(cfg: Config, d: JobDispatch, session: Option<Entry>): Option<(string, string)> {
    if d.workspace != "" then
      if d.workspace in cfg.workspaces then Some((d.workspace, cfg.workspaces[d.workspace])) else None
    else if session.Some? && session.value.workspace != DEFAULT_WORKSPACE && session.value.workspace in cfg.workspaces
      then Some((session.value.workspace, cfg.workspaces[session.value.workspace]))
    else Some((DEFAULT_WORKSPACE, cfg.defaultDir))
  }

  function ResolveAgent(cfg: Config, d: JobDispatch, session: Option<Entry>): string {
    if d.agent != "" then d.agent
    else if session.Some? && session.value.agent != "" then session.value.agent
    else cfg.defaultAgent
  }

  datatype Verdict = Refused(code: string) | AlreadyLive | Started(job: LiveJob)

  function Judge(s: HarnessState, id: JobId, d: JobDispatch): Verdict {
    var session := Lookup(s.sessions, d.botUserId, d.rootPostId);
    var ws := ResolveWorkspace(s.cfg, d, session);
    var agent := ResolveAgent(s.cfg, d, session);
    if d.requester != s.cfg.owner then Refused("forbidden")
    else if d.botUserId == "" || d.rootPostId == "" then Refused("bad_payload")
    else if id in s.jobs then AlreadyLive
    else if ws.None? then Refused("workspace_unknown")
    else if agent !in s.cfg.agents then Refused("agent_unknown")
    else if |s.jobs| >= s.cfg.maxJobs then Refused("busy")
    else Started(LiveJob(d.botUserId, d.rootPostId, ws.value.0, ws.value.1, agent, Starting, 0, {}, false, false))
  }

  function OnDispatch(s: HarnessState, id: JobId, d: JobDispatch): HarnessState {
    match Judge(s, id, d)
    case Started(job) => s.(jobs := s.jobs[id := job])
    case _ => s
  }

  function DispatchAck(s: HarnessState, id: JobId, d: JobDispatch): Ack {
    match Judge(s, id, d)
    case Refused(code) => Ack(false, code)
    case _ => Ack(true, "")
  }

  /** The session a starting run resumes: the thread's, on the same agent in
      the same workspace, else none. */
  function ResumeId(s: HarnessState, job: LiveJob): string {
    match Lookup(s.sessions, job.botUserId, job.rootPostId)
    case Some(e) => if e.workspace == job.workspace && e.agent == job.agent then e.sessionId else ""
    case None => ""
  }

  /** The session a finished run leaves behind. */
  function StoreSession(s: HarnessState, id: JobId, sessionId: string): HarnessState
    requires id in s.jobs
  {
    var j := s.jobs[id];
    if sessionId == "" then s
    else s.(sessions := s.sessions[Key(j.botUserId, j.rootPostId) := Entry(sessionId, j.workspace, j.agent)])
  }

  // --- cancel, welcome ---

  function OnCancel(s: HarnessState, id: JobId): HarnessState {
    if id in s.jobs then s.(jobs := s.jobs[id := s.jobs[id].(cancelled := true)]) else s
  }

  function CancelAck(s: HarnessState, id: JobId): Ack {
    if id in s.jobs then Ack(true, "") else Ack(false, "unknown_job")
  }

  /** Cancels what the broker aborted, then refreshes every status post. */
  function AfterWelcome(jobs: map<JobId, LiveJob>, answers: seq<WelcomeJob>): map<JobId, LiveJob> {
    map id | id in jobs ::
      jobs[id].(cancelled := jobs[id].cancelled || WelcomeJob(id, Abort) in answers, seqNo := jobs[id].seqNo + 1)
  }

  // --- approvals ---

  function OnApprovalResponse(s: HarnessState, id: JobId, a: ApprovalId, d: Decision): HarnessState {
    if id in s.jobs && a in s.jobs[id].approvals && a in s.channels && s.channels[a].answer.None?
    then s.(channels := s.channels[a := s.channels[a].(answer := Some(d))])
    else s
  }

  function ResponseAck(s: HarnessState, id: JobId, a: ApprovalId): Ack {
    if id in s.jobs && a in s.jobs[id].approvals then Ack(true, "") else Ack(false, "unknown_job")
  }

  /** `decide` up to its wait: the channel is open and the request is queued. */
  function AskOwner(s: HarnessState, id: JobId, a: ApprovalId, expiresAt: int, env: Envelope): HarnessState
    requires id in s.jobs
  {
    var j := s.jobs[id];
    s.(jobs := s.jobs[id := j.(approvals := j.approvals + {a}, phase := Asking)],
       channels := s.channels[a := Channel(id, expiresAt, None, false)],
       outbox := s.outbox[env.id := env])
  }

  /** `decide` lets the tool run only on a received "allow"; a closed empty
      channel, the deadline and a cancelled caller all deny. */
  predicate MayAllow(s: HarnessState, a: ApprovalId) {
    a in s.channels && s.channels[a].answer == Some(Allow)
  }

  function Unasked(j: LiveJob, a: ApprovalId): LiveJob {
    var left := j.approvals - {a};
    j.(approvals := left, phase := if left == {} && j.phase.Asking? then Working else j.phase)
  }

  /** `decide` returns: the channel is dropped. */
  function StopAsking(s: HarnessState, a: ApprovalId): HarnessState
    requires a in s.channels
  {
    var id := s.channels[a].jobId;
    s.(channels := s.channels - {a},
       jobs := if id in s.jobs && a in s.jobs[id].approvals then s.jobs[id := Unasked(s.jobs[id], a)] else s.jobs)
  }

  function CloseAll(channels: map<ApprovalId, Channel>, asked: set<ApprovalId>): map<ApprovalId, Channel> {
    map a | a in channels :: if a in asked then channels[a].(closed := true) else channels[a]
  }

  /** `finish`: close every channel of the job, then queue the result. */
  function FinishJob(s: HarnessState, id: JobId, env: Envelope): HarnessState
    requires id in s.jobs
  {
    var j := s.jobs[id];
    s.(channels := CloseAll(s.channels, j.approvals),
       jobs := s.jobs[id := j.(approvals := {}, finished := true)],
       outbox := s.outbox[env.id := env])
  }

  function RemoveJob(s: HarnessState, id: JobId): HarnessState { s.(jobs := s.jobs - {id}) }

  /** A new process keeps only what is on disk. */
  function Restart(s: HarnessState): HarnessState { s.(jobs := map[], channels := map[]) }

  function OnAcked(s: HarnessState, ref: MsgId): HarnessState { s.(outbox := s.outbox - {ref}) }

  // --- the client's handling of one frame ---

  function HandleReliable(s: HarnessState, env: Envelope): HarnessState {
    match env.body
    case Dispatch(d) => OnDispatch(s, env.jobId, d)
    case Cancel(_) => OnCancel(s, env.jobId)
    case ApprovalResponse(a, d) => OnApprovalResponse(s, env.jobId, a, d)
    case _ => s
  }

  /** Types the harness does not know are answered with an error, not an ack. */
  function ReliableAck(s: HarnessState, env: Envelope): Ack
    requires env.body.ByBroker()
  {
    match env.body
    case Dispatch(d) => DispatchAck(s, env.jobId, d)
    case Cancel(_) => CancelAck(s, env.jobId)
    case ApprovalResponse(a, _) => ResponseAck(s, env.jobId, a)
  }

  /** The frames a client puts on the wire for a set of stored envelopes. */
  function BoxPackets(box: map<MsgId, Envelope>, h: HarnessId, ids: set<MsgId>): set<Packet> {
    set m | m in ids && m in box :: Packet(h, Reliable(box[m]))
  }

  /** What the daemon is after one received frame; acks free their envelope,
      whatever they say. */
  function AfterFrame(s: HarnessState, f: Frame): HarnessState {
    match f
    case Acked(ref, _, _) => OnAcked(s, ref)
    case Reliable(env) => if env.body.ByBroker() then HandleReliable(s, env) else s
    case _ => s
  }

  /** The ack of a handled envelope; other frames are not acked. */
  function Replies(s: HarnessState, h: HarnessId, f: Frame): set<Packet> {
    match f
    case Reliable(env) => if env.body.ByBroker() then {Packet(h, Acked(env.id, env.jobId, ReliableAck(s, env)))} else {}
    case _ => {}
  }

  /** What may happen to a harness on its link: a frame comes in, or the
      process dies and starts again. */
  datatype LinkEvent = Got(frame: Frame) | Died

  function AfterAll(s: HarnessState, es: seq<LinkEvent>): HarnessState
    decreases |es|
  {
    if es == [] then s
    else AfterAll(match es[0] case Got(f) => AfterFrame(s, f) case Died => Restart(s), es[1..])
  }

  predicate AckedBy(es: seq<LinkEvent>, m: MsgId) {
    exists i :: 0 <= i < |es| && es[i].Got? && es[i].frame.Acked? && es[i].frame.ref == m
  }

  /** Whatever comes in and however often the process dies, a full flush writes
      a stored envelope again exactly until an ack of it has come. */
  lemma {:induction false} ResentUntilAcked(s: HarnessState, h: HarnessId, env: Envelope, es: seq<LinkEvent>)
    requires s.outbox.Keys >= {env.id} && s.outbox[env.id] == env && forall m | m in s.outbox :: s.outbox[m].id == m
    ensures var box := AfterAll(s, es).outbox;
            Packet(h, Reliable(env)) in BoxPackets(box, h, box.Keys) <==> !AckedBy(es, env.id)
    decreases |es|
  {
    if es == [] {
      assert Packet(h, Reliable(s.outbox[env.id])) in BoxPackets(s.outbox, h, s.outbox.Keys);
    } else {
      var s' := match es[0] case Got(f) => AfterFrame(s, f) case Died => Restart(s);
      if env.id in s'.outbox {
        ResentUntilAcked(s', h, env, es[1..]);
        assert forall i | 1 <= i < |es| :: es[i] == es[1..][i - 1];
      } else {
        assert AckedBy(es, env.id) by { assert es[0].Got?; }
        OnlyShrinks(s', es[1..]);
      }
    }
  }

  lemma {:induction false} OnlyShrinks(s: HarnessState, es: seq<LinkEvent>)
    ensures forall m | m in AfterAll(s, es).outbox :: m in s.outbox && AfterAll(s, es).outbox[m] == s.outbox[m]
    decreases |es|
  {
    if es != [] {
      OnlyShrinks(match es[0] case Got(f) => AfterFrame(s, f) case Died => Restart(s), es[1..]);
    }
  }
}

/** The daemon's objects, run step by step and proved to do what `Harness` says. */
module HarnessObjects {
  import opened Basics
  import opened Protocol
  import opened Sessions
  import opened Harness

  class Outbox {
    var m: map<MsgId, Envelope>

    constructor ()
      ensures m == map[]
    {
      m := map[];
    }

    method Add(env: Envelope)
      modifies this
      ensures m == old(m)[env.id := env]
    {
      m := m[env.id := env];
    }

    method Ack(id: MsgId)
      modifies this
      ensures m == old(m) - {id}
    {
      if id !in m { return; }
      m := m - {id};
    }

    /** Every unacked envelope once, in no particular order. */
    method Pending() returns (out: seq<Envelope>)
      ensures |out| == |m|
      ensures forall e :: e in out <==> exists id :: id in m && m[id] == e
    {
      var rest := m.Keys;
      out := [];
      while rest != {}
        invariant rest <= m.Keys && |out| + |rest| == |m|
        invariant forall e :: e in out <==> exists id :: id in m && id !in rest && m[id] == e
        decreases |rest|
      {
        var id :| id in rest;
        out := out + [m[id]];
        rest := rest - {id};
      }
    }
  }

  class Daemon {
    const cfg: Config
    const outbox: Outbox
    const sessions: SessionMap
    var jobs: map<JobId, LiveJob>
    var channels: map<ApprovalId, Channel>

    constructor (cfg: Config, outbox: Outbox, sessions: SessionMap)
      ensures View() == HarnessState(cfg, map[], map[], outbox.m, sessions.m)
    {
      this.cfg, this.outbox, this.sessions := cfg, outbox, sessions;
      jobs, channels := map[], map[];
    }

    function View(): HarnessState
      reads this, outbox, sessions
    {
      HarnessState(cfg, jobs, channels, outbox.m, sessions.m)
    }

    method OnWelcome(answers: seq<WelcomeJob>)
      modifies this`jobs
      ensures jobs == AfterWelcome(old(jobs), answers)
    {
      for i := 0 to |answers|
        invariant jobs == Aborted(old(jobs), answers[..i])
      {
        var wj := answers[i];
        assert answers[..i + 1] == answers[..i] + [wj];
        if wj.action.Abort? && wj.jobId in jobs {
          jobs := jobs[wj.jobId := jobs[wj.jobId].(cancelled := true)];
        }
      }
      assert answers[..|answers|] == answers;
      RefreshAll();
    }

    /** One more progress snapshot per live job. */
    method RefreshAll()
      modifies this`jobs
      ensures jobs == Refreshed(old(jobs), old(jobs).Keys)
    {
      var rest := jobs.Keys;
      while rest != {}
        invariant rest <= old(jobs).Keys
        invariant jobs == Refreshed(old(jobs), old(jobs).Keys - rest)
        decreases |rest|
      {
        var id :| id in rest;
        jobs := jobs[id := jobs[id].(seqNo := jobs[id].seqNo + 1)];
        rest := rest - {id};
      }
    }

    method OnDispatch(id: JobId, d: JobDispatch) returns (ack: Ack)
      modifies this`jobs
      ensures View() == Harness.OnDispatch(old(View()), id, d)
      ensures ack == DispatchAck(old(View()), id, d)
    {
      if d.requester != cfg.owner { return Ack(false, "forbidden"); }
      if d.botUserId == "" || d.rootPostId == "" { return Ack(false, "bad_payload"); }
      if id in jobs { return Ack(true, ""); }
      var session := sessions.Get(d.botUserId, d.rootPostId);
      var ws := ResolveWorkspace(cfg, d, session);
      if ws.None? { return Ack(false, "workspace_unknown"); }
      var agent := ResolveAgent(cfg, d, session);
      if agent !in cfg.agents { return Ack(false, "agent_unknown"); }
      if |jobs| >= cfg.maxJobs { return Ack(false, "busy"); }
      var placed := LiveJob(d.botUserId, d.rootPostId, ws.value.0, ws.value.1, agent, Starting, 0, {}, false, false);
      jobs := jobs[id := placed];
      ack := Ack(true, "");
    }

    method OnCancel(id: JobId) returns (ack: Ack)
      modifies this`jobs
      ensures View() == Harness.OnCancel(old(View()), id)
      ensures ack == CancelAck(old(View()), id)
    {
      if id !in jobs { return Ack(false, "unknown_job"); }
      jobs := jobs[id := jobs[id].(cancelled := true)];
      ack := Ack(true, "");
    }

    method OnApprovalResponse(id: JobId, a: ApprovalId, d: Decision) returns (ack: Ack)
      modifies this`channels
      ensures View() == Harness.OnApprovalResponse(old(View()), id, a, d)
      ensures ack == ResponseAck(old(View()), id, a)
    {
      if id !in jobs || a !in jobs[id].approvals { return Ack(false, "unknown_job"); }
      if a in channels && channels[a].answer.None? {
        channels := channels[a := channels[a].(answer := Some(d))];
      }
      ack := Ack(true, "");
    }

    /** A call for an unknown job is denied at once and leaves no trace. */
    method AskOwner(id: JobId, a: ApprovalId, expiresAt: int, msg: MsgId) returns (waiting: bool)
      modifies this`jobs, this`channels, outbox
      ensures waiting == (id in old(jobs))
      ensures View() == if waiting
                        then Harness.AskOwner(old(View()), id, a, expiresAt,
                                              Envelope(msg, id, ApprovalRequest(a, expiresAt)))
                        else old(View())
    {
      if id !in jobs { return false; }
      channels := channels[a := Channel(id, expiresAt, None, false)];
      jobs := jobs[id := jobs[id].(approvals := jobs[id].approvals + {a}, phase := Asking)];
      outbox.Add(Envelope(msg, id, ApprovalRequest(a, expiresAt)));
      waiting := true;
    }

    /** `tooLate` stands for the deadline or a cancelled caller winning the select. */
    method Decided(a: ApprovalId, tooLate: bool) returns (allow: bool)
      requires a in channels
      modifies this`jobs, this`channels
      ensures View() == StopAsking(old(View()), a)
      ensures allow <==> !tooLate && old(channels)[a].answer == Some(Allow)
    {
      var c := channels[a];
      allow := !tooLate && c.answer == Some(Allow);
      channels := channels - {a};
      if c.jobId in jobs && a in jobs[c.jobId].approvals {
        jobs := jobs[c.jobId := Unasked(jobs[c.jobId], a)];
      }
    }

    method Finish(id: JobId, msg: MsgId, result: JobResult)
      requires id in jobs
      modifies this`jobs, this`channels, outbox
      ensures View() == FinishJob(old(View()), id, Envelope(msg, id, Finished(result)))
    {
      var rest := jobs[id].approvals;
      while rest != {}
        invariant jobs == old(jobs) && rest <= jobs[id].approvals
        invariant outbox.m == old(outbox.m) && sessions.m == old(sessions.m)
        invariant channels == CloseAll(old(channels), jobs[id].approvals - rest)
        decreases |rest|
      {
        var a :| a in rest;
        if a in channels {
          channels := channels[a := channels[a].(closed := true)];
        }
        rest := rest - {a};
      }
      jobs := jobs[id := jobs[id].(approvals := {}, finished := true)];
      outbox.Add(Envelope(msg, id, Finished(result)));
    }
  }

  /** The harness's end of the link. `up` is everything it ever wrote. */
  class Client {
    const h: HarnessId
    const daemon: Daemon
    const outbox: Outbox
    var connected: bool
    var up: set<Packet>

    constructor (h: HarnessId, daemon: Daemon)
      ensures this.h == h && this.daemon == daemon && outbox == daemon.outbox && !connected && up == {}
    {
      this.h, this.daemon, outbox := h, daemon, daemon.outbox;
      connected, up := false, {};
    }

    /** Stores first; a disconnected client leaves the rest to the next flush. */
    method SendReliable(env: Envelope)
      modifies this`up, outbox
      ensures outbox.m == old(outbox.m)[env.id := env]
      ensures up == if connected then old(up) + {Packet(h, Reliable(env))} else old(up)
    {
      outbox.Add(env);
      if connected {
        up := up + {Packet(h, Reliable(env))};
      }
    }

    /** Resends what was never acked; a broken connection stops after `writes`. */
    method Flush(writes: nat) returns (ghost sent: set<MsgId>, done: bool)
      requires forall m | m in outbox.m :: outbox.m[m].id == m
      modifies this`up
      ensures sent <= outbox.m.Keys && up == old(up) + BoxPackets(outbox.m, h, sent)
      ensures done ==> sent == outbox.m.Keys
      ensures !done ==> |outbox.m| > writes
    {
      var pending := outbox.Pending();
      sent := {};
      for i := 0 to |pending|
        invariant sent == Envelopes(pending[..i]) && sent <= outbox.m.Keys
        invariant up == old(up) + BoxPackets(outbox.m, h, sent)
      {
        if i >= writes { return sent, false; }
        assert pending[i] in pending && pending[i].id in outbox.m && outbox.m[pending[i].id] == pending[i];
        up := up + {Packet(h, Reliable(pending[i]))};
        assert BoxPackets(outbox.m, h, sent + {pending[i].id}) ==
                 BoxPackets(outbox.m, h, sent) + {Packet(h, Reliable(pending[i]))};
        assert pending[..i + 1] == pending[..i] + [pending[i]];
        sent := sent + {pending[i].id};
      }
      forall m | m in outbox.m ensures m in Envelopes(pending) {
        assert outbox.m[m] in pending;
      }
      assert pending[..|pending|] == pending;
      done := true;
    }

    /** One received frame: the outbox, the daemon and the reply. */
    method Handle(f: Frame)
      requires outbox == daemon.outbox
      modifies this`up, daemon`jobs, daemon`channels, outbox
      ensures daemon.View() == AfterFrame(old(daemon.View()), f)
      ensures up == old(up) + Replies(old(daemon.View()), h, f)
    {
      match f
      case Acked(ref, _, _) => outbox.Ack(ref);
      case Reliable(env) =>
        var ack;
        match env.body {
          case Dispatch(d) => ack := daemon.OnDispatch(env.jobId, d);
          case Cancel(_) => ack := daemon.OnCancel(env.jobId);
          case ApprovalResponse(a, d) => ack := daemon.OnApprovalResponse(env.jobId, a, d);
          case _ => return;
        }
        up := up + {Packet(h, Acked(env.id, env.jobId, ack))};
      case _ =>
    }
  }

  function Envelopes(es: seq<Envelope>): set<MsgId> { set e | e in es :: e.id }

  function Aborted(jobs: map<JobId, LiveJob>, answers: seq<WelcomeJob>): map<JobId, LiveJob> {
    map id | id in jobs :: jobs[id].(cancelled := jobs[id].cancelled || WelcomeJob(id, Abort) in answers)
  }

  function Refreshed(jobs: map<JobId, LiveJob>, done: set<JobId>): map<JobId, LiveJob> {
    map id | id in jobs :: if id in done then jobs[id].(seqNo := jobs[id].seqNo + 1) else jobs[id]
  }
}
