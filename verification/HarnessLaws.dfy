/** What each of the harness's handlers does, said about the daemon's state, the
    message and the configuration themselves. */
module HarnessLaws {
  import opened Basics
  import opened Protocol
  import opened Sessions
  import opened Harness

  // --- dispatch ---

  /** From the owner, and saying which bot's thread it belongs to. */
  predicate Acceptable(s: HarnessState, d: JobDispatch) {
    d.requester == s.cfg.owner && d.botUserId != "" && d.rootPostId != ""
  }

  /** What the thread's session says, "" if it has none or says nothing. */
  function PriorWorkspace(s: HarnessState, d: JobDispatch): string {
    match Lookup(s.sessions, d.botUserId, d.rootPostId) case Some(e) => e.workspace case None => ""
  }

  function PriorAgent(s: HarnessState, d: JobDispatch): string {
    match Lookup(s.sessions, d.botUserId, d.rootPostId) case Some(e) => e.agent case None => ""
  }

  /** A job asked for by `d` belongs here: the message's word first, then the
      thread's, then the configuration's. */
  predicate RightAgent(s: HarnessState, d: JobDispatch, agent: string) {
    && (d.agent != "" ==> agent == d.agent)
    && (d.agent == "" && PriorAgent(s, d) != "" ==> agent == PriorAgent(s, d))
    && (d.agent == "" && PriorAgent(s, d) == "" ==> agent == s.cfg.defaultAgent)
  }

  /** The thread's workspace counts while it is configured; `_default` always
      stands for the default directory. */
  predicate KeepsWorkspace(s: HarnessState, d: JobDispatch) {
    Lookup(s.sessions, d.botUserId, d.rootPostId).Some?
    && PriorWorkspace(s, d) != "_default" && PriorWorkspace(s, d) in s.cfg.workspaces
  }

  predicate RightPlace(s: HarnessState, d: JobDispatch, workspace: string, dir: string) {
    && (d.workspace != "" ==>
          workspace == d.workspace && d.workspace in s.cfg.workspaces && dir == s.cfg.workspaces[d.workspace])
    && (d.workspace == "" && KeepsWorkspace(s, d) ==>
          workspace == PriorWorkspace(s, d) && dir == s.cfg.workspaces[PriorWorkspace(s, d)])
    && (d.workspace == "" && !KeepsWorkspace(s, d) ==> workspace == "_default" && dir == s.cfg.defaultDir)
  }

  /** Fresh from its dispatch. */
  predicate Untouched(j: LiveJob) {
    j.phase == Starting && j.seqNo == 0 && j.approvals == {} && !j.cancelled && !j.finished
  }

  /** A dispatch from anyone else, or without its thread, is refused whatever is
      live. An acceptable one is acked exactly if the job is live afterwards, so
      a resend of a live job's dispatch is acked. */
  lemma DispatchAnswers(s: HarnessState, id: JobId, d: JobDispatch)
    ensures var ack, s' := DispatchAck(s, id, d), OnDispatch(s, id, d);
            && (d.requester != s.cfg.owner ==> ack == Ack(false, "forbidden") && s' == s)
            && (d.requester == s.cfg.owner && !Acceptable(s, d) ==> ack == Ack(false, "bad_payload") && s' == s)
            && (Acceptable(s, d) ==> (ack.ok <==> id in s'.jobs))
            && (ack.ok ==> ack == Ack(true, "") && Acceptable(s, d))
            && (!ack.ok ==> s' == s)
  {
    hide Key;
  }

  /** Each refusal of an acceptable dispatch has its own reason. */
  lemma DispatchRefuses(s: HarnessState, id: JobId, d: JobDispatch, agent: string)
    requires Acceptable(s, d) && RightAgent(s, d, agent)
    ensures var code := DispatchAck(s, id, d).code;
            var named := d.workspace == "" || d.workspace in s.cfg.workspaces;
            && (code == "workspace_unknown" <==> id !in s.jobs && !named)
            && (code == "agent_unknown" <==> id !in s.jobs && named && agent !in s.cfg.agents)
            && (code == "busy" <==>
                  id !in s.jobs && named && agent in s.cfg.agents && |s.jobs| >= s.cfg.maxJobs)
            && (DispatchAck(s, id, d).ok <==>
                  id in s.jobs || (named && agent in s.cfg.agents && |s.jobs| < s.cfg.maxJobs))
  {
    hide Key;
  }

  /** A job that starts is the only one that changes, in the right place and
      with the right agent; a live one stays as it is. */
  lemma DispatchPlaces(s: HarnessState, id: JobId, d: JobDispatch)
    requires DispatchAck(s, id, d).ok
    ensures var s' := OnDispatch(s, id, d);
            && id in s'.jobs && s' == s.(jobs := s'.jobs)
            && (id in s.jobs ==> s' == s)
            && (id !in s.jobs ==>
                  && s'.jobs.Keys == s.jobs.Keys + {id} && (forall j | j in s.jobs :: s'.jobs[j] == s.jobs[j])
                  && s'.jobs[id].botUserId == d.botUserId && s'.jobs[id].rootPostId == d.rootPostId
                  && RightPlace(s, d, s'.jobs[id].workspace, s'.jobs[id].dir)
                  && RightAgent(s, d, s'.jobs[id].agent) && Untouched(s'.jobs[id]))
  {
    if id !in s.jobs {
      RightlyJudged(s, id, d);
      hide Judge, RightPlace, RightAgent;
      assert s.jobs[id := OnDispatch(s, id, d).jobs[id]].Keys == s.jobs.Keys + {id};
    }
  }

  lemma RightlyJudged(s: HarnessState, id: JobId, d: JobDispatch)
    requires Judge(s, id, d).Started?
    ensures var j := Judge(s, id, d).job;
            && j.botUserId == d.botUserId && j.rootPostId == d.rootPostId
            && RightPlace(s, d, j.workspace, j.dir) && RightAgent(s, d, j.agent) && Untouched(j)
  {
    hide Lookup;
  }

  /** Delivered again while its job is live, an accepted dispatch changes nothing
      and is acked again, in whatever state the daemon is by then. */
  lemma ResendIsAcked(s: HarnessState, id: JobId, d: JobDispatch, t: HarnessState)
    requires DispatchAck(s, id, d).ok && t.cfg == s.cfg && id in t.jobs
    ensures DispatchAck(t, id, d) == Ack(true, "") && OnDispatch(t, id, d) == t
    ensures var s' := OnDispatch(s, id, d); DispatchAck(s', id, d) == Ack(true, "") && OnDispatch(s', id, d) == s'
  {
    hide Key;
  }

  // --- sessions ---

  /** What a run resumes is a session of its own thread that ran in the same
      workspace with the same agent, and such a session is resumed. */
  lemma ResumesOnlyItsOwn(s: HarnessState, job: LiveJob)
    ensures var e := Lookup(s.sessions, job.botUserId, job.rootPostId);
            && (ResumeId(s, job) != "" ==>
                  e == Some(Entry(ResumeId(s, job), job.workspace, job.agent)))
            && (forall x :: e == Some(Entry(x, job.workspace, job.agent)) ==> ResumeId(s, job) == x)
  {
  }

  /** A message that names another workspace or agent in a thread with a session
      runs there, and starts without that session. */
  lemma NamedElsewhereStartsFresh(s: HarnessState, id: JobId, d: JobDispatch)
    requires DispatchAck(s, id, d).ok && id !in s.jobs
    requires (d.workspace != "" && d.workspace != PriorWorkspace(s, d))
             || (d.agent != "" && d.agent != PriorAgent(s, d))
    ensures var s' := OnDispatch(s, id, d);
            && id in s'.jobs && ResumeId(s', s'.jobs[id]) == ""
            && (d.workspace != "" ==> s'.jobs[id].workspace == d.workspace)
            && (d.agent != "" ==> s'.jobs[id].agent == d.agent)
  {
    DispatchPlaces(s, id, d);
    hide Key, OnDispatch, DispatchAck;
  }

  // --- cancel, welcome ---

  /** A cancel is acked exactly for a live job, and then only marks it. */
  lemma CancelMarks(s: HarnessState, id: JobId)
    ensures var s' := OnCancel(s, id);
            && CancelAck(s, id) == (if id in s.jobs then Ack(true, "") else Ack(false, "unknown_job"))
            && s' == s.(jobs := s'.jobs) && s'.jobs.Keys == s.jobs.Keys
            && (forall j | j in s.jobs :: s'.jobs[j] == s.jobs[j].(cancelled := s.jobs[j].cancelled || j == id))
  {
  }

  /** A welcome cancels exactly the live jobs it aborts, and every live job
      reports once more. */
  lemma WelcomeMarks(jobs: map<JobId, LiveJob>, answers: seq<WelcomeJob>)
    ensures var jobs' := AfterWelcome(jobs, answers);
            && jobs'.Keys == jobs.Keys
            && (forall j | j in jobs ::
                  && (jobs'[j].cancelled <==>
                      jobs[j].cancelled
                      || exists i :: 0 <= i < |answers| && answers[i].jobId == j && answers[i].action.Abort?)
                  && jobs'[j] == jobs[j].(cancelled := jobs'[j].cancelled, seqNo := jobs[j].seqNo + 1))
  {
    forall j | j in jobs
      ensures WelcomeJob(j, Abort) in answers <==>
              exists i :: 0 <= i < |answers| && answers[i].jobId == j && answers[i].action.Abort?
    {
      if i :| 0 <= i < |answers| && answers[i].jobId == j && answers[i].action.Abort? {
        assert answers[i] == WelcomeJob(j, Abort);
      }
    }
  }

  // --- approvals ---

  /** An answer reaches a live job that asked, and the first one stays. */
  lemma ResponseReaches(s: HarnessState, id: JobId, a: ApprovalId, d: Decision)
    ensures var s' := OnApprovalResponse(s, id, a, d);
            var asked := id in s.jobs && a in s.jobs[id].approvals;
            && ResponseAck(s, id, a) == (if asked then Ack(true, "") else Ack(false, "unknown_job"))
            && s' == s.(channels := s'.channels) && s'.channels.Keys == s.channels.Keys
            && (forall x | x in s.channels && (x != a || !asked) :: s'.channels[x] == s.channels[x])
            && (asked && a in s.channels ==>
                  s'.channels[a] == s.channels[a].(answer := Some(s.channels[a].answer.GetOr(d))))
  {
  }

  /** Asking opens one empty channel with the deadline that is also sent, stores
      the request, and shows the job as waiting. */
  lemma AskOpens(s: HarnessState, id: JobId, a: ApprovalId, expiresAt: int, env: Envelope)
    requires id in s.jobs
    ensures var s' := AskOwner(s, id, a, expiresAt, env);
            && s' == s.(jobs := s'.jobs, channels := s'.channels, outbox := s'.outbox)
            && a in s'.channels && s'.channels[a].jobId == id && s'.channels[a].expiresAt == expiresAt
            && s'.channels[a].answer == None && !s'.channels[a].closed
            && s'.channels.Keys == s.channels.Keys + {a}
            && (forall x | x in s.channels && x != a :: s'.channels[x] == s.channels[x])
            && s'.jobs.Keys == s.jobs.Keys && (forall j | j in s.jobs && j != id :: s'.jobs[j] == s.jobs[j])
            && s'.jobs[id] == s.jobs[id].(approvals := s.jobs[id].approvals + {a}, phase := Asking)
            && env.id in s'.outbox && s'.outbox[env.id] == env
            && (forall m | m in s.outbox && m != env.id :: m in s'.outbox && s'.outbox[m] == s.outbox[m])
            && (forall m | m in s'.outbox && m != env.id :: m in s.outbox)
  {
  }

  /** Nothing but a received allow lets a tool run. */
  lemma OnlyAllowAllows(s: HarnessState, a: ApprovalId)
    ensures MayAllow(s, a) <==> a in s.channels && s.channels[a].answer.Some? && !s.channels[a].answer.value.Deny?
  {
  }

  /** A decided call closes its channel; its job works again once it asks for
      nothing more. */
  lemma DecidedCloses(s: HarnessState, a: ApprovalId)
    requires a in s.channels
    ensures var s', id := StopAsking(s, a), s.channels[a].jobId;
            && s' == s.(jobs := s'.jobs, channels := s'.channels)
            && a !in s'.channels
            && (forall x | x in s.channels && x != a :: x in s'.channels && s'.channels[x] == s.channels[x])
            && (forall x | x in s'.channels :: x in s.channels)
            && s'.jobs.Keys == s.jobs.Keys && (forall j | j in s.jobs && j != id :: s'.jobs[j] == s.jobs[j])
            && (id in s.jobs && a in s.jobs[id].approvals ==>
                  && a !in s'.jobs[id].approvals
                  && (forall x | x in s.jobs[id].approvals && x != a :: x in s'.jobs[id].approvals)
                  && (forall x | x in s'.jobs[id].approvals :: x in s.jobs[id].approvals)
                  && (if (forall x | x in s.jobs[id].approvals :: x == a) && s.jobs[id].phase.Asking?
                      then s'.jobs[id].phase.Working? else s'.jobs[id].phase == s.jobs[id].phase)
                  && s'.jobs[id] ==
                     s.jobs[id].(approvals := s'.jobs[id].approvals, phase := s'.jobs[id].phase))
            && (id in s.jobs && a !in s.jobs[id].approvals ==> s'.jobs[id] == s.jobs[id])
  {
    var id := s.channels[a].jobId;
    if id in s.jobs && a in s.jobs[id].approvals {
      if y :| y in s.jobs[id].approvals - {a} {
        assert y in s.jobs[id].approvals && y != a;
      }
    }
  }

  // --- the end ---

  /** A finishing job closes exactly its own open channels, asks for nothing
      more, and stores its result. */
  lemma FinishCloses(s: HarnessState, id: JobId, env: Envelope)
    requires id in s.jobs
    ensures var s' := FinishJob(s, id, env);
            && s' == s.(jobs := s'.jobs, channels := s'.channels, outbox := s'.outbox)
            && s'.channels.Keys == s.channels.Keys
            && (forall x | x in s.channels ::
                  s'.channels[x] == s.channels[x].(closed := s.channels[x].closed || x in s.jobs[id].approvals))
            && s'.jobs.Keys == s.jobs.Keys && (forall j | j in s.jobs && j != id :: s'.jobs[j] == s.jobs[j])
            && s'.jobs[id] == s.jobs[id].(approvals := {}, finished := true)
            && env.id in s'.outbox && s'.outbox[env.id] == env
            && (forall m | m in s.outbox && m != env.id :: m in s'.outbox && s'.outbox[m] == s.outbox[m])
            && (forall m | m in s'.outbox && m != env.id :: m in s.outbox)
  {
  }

  /** A new process knows no job and waits for no answer; outbox and sessions
      are as they were, so what was not acked is sent again and a dispatch that
      comes again starts again. */
  lemma RestartForgets(s: HarnessState, id: JobId, d: JobDispatch)
    ensures var s' := Restart(s);
            && |s'.jobs| == 0 && |s'.channels| == 0
            && s'.cfg == s.cfg && s'.outbox == s.outbox && s'.sessions == s.sessions
            && (DispatchAck(s', id, d).ok ==>
                  OnDispatch(s', id, d).jobs.Keys == {id} && Untouched(OnDispatch(s', id, d).jobs[id]))
  {
    if DispatchAck(Restart(s), id, d).ok {
      DispatchPlaces(Restart(s), id, d);
    }
    hide Key, DispatchAck, OnDispatch;
  }

  /** The job of a run that ends is gone, and no other. */
  lemma RemoveEnds(s: HarnessState, id: JobId)
    ensures var s' := RemoveJob(s, id);
            && s' == s.(jobs := s'.jobs) && id !in s'.jobs
            && (forall j | j in s.jobs && j != id :: j in s'.jobs && s'.jobs[j] == s.jobs[j])
            && (forall j | j in s'.jobs :: j in s.jobs)
  {
  }

  // --- the link ---

  /** An envelope of the broker is answered once, to its id and for its job; no
      other frame is answered, and only an ack takes envelopes out. */
  lemma FrameIsAnswered(s: HarnessState, h: HarnessId, f: Frame)
    ensures var s', out := AfterFrame(s, f), Replies(s, h, f);
            && (f.Reliable? && f.env.body.ByBroker() ==>
                  exists ack :: out == {Packet(h, Acked(f.env.id, f.env.jobId, ack))})
            && (!(f.Reliable? && f.env.body.ByBroker()) ==> out == {} && s'.jobs == s.jobs && s'.channels == s.channels)
            && s'.cfg == s.cfg && s'.sessions == s.sessions
            && (forall m | m in s.outbox :: m in s'.outbox <==> !(f.Acked? && f.ref == m))
            && (forall m | m in s'.outbox :: m in s.outbox && s'.outbox[m] == s.outbox[m])
  {
    hide Key;
    if f.Reliable? && f.env.body.ByBroker() {
      assert Replies(s, h, f) == {Packet(h, Acked(f.env.id, f.env.jobId, ReliableAck(s, f.env)))};
    }
  }
}
