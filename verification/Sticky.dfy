/** A thread keeps its workspace, its agent and its session on one harness,
    over any run of that harness with a fixed configuration. */
module Sticky {
  import opened Basics
  import opened Protocol
  import opened Sessions
  import opened Harness

  datatype Talk = Talk(bot: UserId, root: string)

  /** The last session stored in a conversation, and where its run worked. */
  datatype Stored = Stored(sessionId: string, workspace: string, dir: string, agent: string)

  /** `last` is history. */
  datatype Trace = Trace(s: HarnessState, last: map<Talk, Stored>)

  datatype Event =
    | Dispatched(id: JobId, d: JobDispatch)
    | Ended(id: JobId, sessionId: string)
    | Resulted(id: JobId, env: Envelope)
    | Removed(id: JobId)
    | Stopped(id: JobId)
    | Restarted

  function TalkOf(j: LiveJob): Talk { Talk(j.botUserId, j.rootPostId) }

  predicate Enabled(t: Trace, e: Event) { e.Ended? || e.Resulted? ==> e.id in t.s.jobs }

  function After(t: Trace, e: Event): Trace
    requires Enabled(t, e)
  {
    match e
    case Dispatched(id, d) => t.(s := OnDispatch(t.s, id, d))
    case Ended(id, sessionId) =>
      var j := t.s.jobs[id];
      Trace(StoreSession(t.s, id, sessionId),
            if sessionId == "" then t.last else t.last[TalkOf(j) := Stored(sessionId, j.workspace, j.dir, j.agent)])
    case Resulted(id, env) => t.(s := FinishJob(t.s, id, env))
    case Removed(id) => t.(s := RemoveJob(t.s, id))
    case Stopped(id) => t.(s := OnCancel(t.s, id))
    case Restarted => t.(s := Restart(t.s))
  }

  /** Each event is the daemon's handler; only a stored session is remembered. */
  lemma EventIsTheHandler(t: Trace, e: Event)
    requires Enabled(t, e)
    ensures match e
            case Dispatched(id, d) => After(t, e) == Trace(OnDispatch(t.s, id, d), t.last)
            case Ended(id, sessionId) =>
              After(t, e).s == StoreSession(t.s, id, sessionId) && (sessionId == "" ==> After(t, e).last == t.last)
            case Resulted(id, env) => After(t, e) == Trace(FinishJob(t.s, id, env), t.last)
            case Removed(id) => After(t, e) == Trace(RemoveJob(t.s, id), t.last)
            case Stopped(id) => After(t, e) == Trace(OnCancel(t.s, id), t.last)
            case Restarted => After(t, e) == Trace(Restart(t.s), t.last)
  {
  }

  ghost predicate Runs(t: Trace, es: seq<Event>, u: Trace)
    decreases |es|
  {
    if es == [] then t == u else Enabled(t, es[0]) && Runs(After(t, es[0]), es[1..], u)
  }

  function Fresh(cfg: Config): Trace { Trace(HarnessState(cfg, map[], map[], map[], map[]), map[]) }

  // --- the invariant ---

  /** `dir` is where a message naming `ws`, or none, would run. */
  predicate Placed(cfg: Config, ws: string, dir: string) {
    (ws in cfg.workspaces && dir == cfg.workspaces[ws]) || (ws == DEFAULT_WORKSPACE && dir == cfg.defaultDir)
  }

  predicate Known(cfg: Config, who: Talk, ws: string, dir: string, agent: string) {
    who.bot != "" && who.root != "" && Placed(cfg, ws, dir) && agent in cfg.agents
  }

  function EntryOf(x: Stored): Entry { Entry(x.sessionId, x.workspace, x.agent) }

  ghost predicate Matches(sessions: map<string, Entry>, last: map<Talk, Stored>) {
    forall b, r :: Lookup(sessions, b, r) == if Talk(b, r) in last then Some(EntryOf(last[Talk(b, r)])) else None
  }

  ghost predicate JobsKnown(cfg: Config, jobs: map<JobId, LiveJob>) {
    forall id | id in jobs :: Known(cfg, TalkOf(jobs[id]), jobs[id].workspace, jobs[id].dir, jobs[id].agent)
  }

  ghost predicate Inv(t: Trace, cfg: Config) {
    && t.s.cfg == cfg && Matches(t.s.sessions, t.last) && JobsKnown(cfg, t.s.jobs)
    && (forall k | k in t.last :: Known(cfg, k, t.last[k].workspace, t.last[k].dir, t.last[k].agent))
  }

  lemma PutKeepsMatching(sessions: map<string, Entry>, last: map<Talk, Stored>, who: Talk, x: Stored)
    requires Matches(sessions, last)
    ensures Matches(sessions[Key(who.bot, who.root) := EntryOf(x)], last[who := x])
  {
    var sessions' := sessions[Key(who.bot, who.root) := EntryOf(x)];
    forall b, r
      ensures Lookup(sessions', b, r) == if Talk(b, r) == who then Some(EntryOf(x)) else Lookup(sessions, b, r)
    {
      KeyInjective(b, r, who.bot, who.root);
    }
  }

  lemma StoreKeeps(t: Trace, id: JobId, sessionId: string, cfg: Config)
    requires Inv(t, cfg) && id in t.s.jobs
    ensures Inv(After(t, Ended(id, sessionId)), cfg)
  {
    if sessionId != "" {
      var j := t.s.jobs[id];
      PutKeepsMatching(t.s.sessions, t.last, TalkOf(j), Stored(sessionId, j.workspace, j.dir, j.agent));
    }
    hide Key, Known, Matches;
  }

  /** A started job is placed where its message, its thread or the defaults say. */
  lemma StartKeeps(s: HarnessState, id: JobId, d: JobDispatch)
    requires JobsKnown(s.cfg, s.jobs)
    ensures JobsKnown(s.cfg, OnDispatch(s, id, d).jobs)
  {
    hide Key, Lookup;
  }

  predicate SamePlace(i: LiveJob, j: LiveJob) {
    TalkOf(i) == TalkOf(j) && i.workspace == j.workspace && i.dir == j.dir && i.agent == j.agent
  }

  /** The other steps end jobs or change neither their place nor their agent. */
  lemma LeaveKeeps(t: Trace, e: Event, cfg: Config)
    requires Inv(t, cfg) && Enabled(t, e) && !e.Ended? && !e.Dispatched?
    ensures Inv(After(t, e), cfg)
  {
    hide Matches, Known;
    var u := After(t, e);
    assert forall id | id in u.s.jobs :: id in t.s.jobs && SamePlace(u.s.jobs[id], t.s.jobs[id]);
  }

  lemma EventKeeps(t: Trace, e: Event, cfg: Config)
    requires Inv(t, cfg) && Enabled(t, e)
    ensures Inv(After(t, e), cfg)
  {
    match e
    case Ended(id, sessionId) => StoreKeeps(t, id, sessionId, cfg);
    case Dispatched(id, d) =>
      StartKeeps(t.s, id, d);
      hide Judge, JobsKnown, Matches, Known;
    case _ => LeaveKeeps(t, e, cfg);
  }

  lemma {:induction false} RunKeeps(t: Trace, es: seq<Event>, u: Trace, cfg: Config)
    requires Inv(t, cfg) && Runs(t, es, u)
    ensures Inv(u, cfg)
    decreases |es|
  {
    if es != [] {
      EventKeeps(t, es[0], cfg);
      RunKeeps(After(t, es[0]), es[1..], u, cfg);
    }
  }

  // --- the theorems ---

  /** A message from the owner in a conversation, naming no place and no agent. */
  predicate Plain(t: Trace, id: JobId, d: JobDispatch) {
    && d.requester == t.s.cfg.owner && d.workspace == "" && d.agent == ""
    && id !in t.s.jobs && |t.s.jobs| < t.s.cfg.maxJobs
  }

  /** Once a conversation has a session, a plain message starts in the same
      workspace with the same agent and resumes the last stored session. The
      directory is the same exactly unless a configured workspace is itself
      called `_default` and the session ran there. */
  lemma ThreadSticks(cfg: Config, es: seq<Event>, t: Trace, id: JobId, d: JobDispatch)
    requires Runs(Fresh(cfg), es, t) && "" !in cfg.agents
    requires Talk(d.botUserId, d.rootPostId) in t.last && Plain(t, id, d)
    ensures var x := t.last[Talk(d.botUserId, d.rootPostId)];
            var u := After(t, Dispatched(id, d));
            && id in u.s.jobs && TalkOf(u.s.jobs[id]) == Talk(d.botUserId, d.rootPostId)
            && u.s.jobs[id].workspace == x.workspace && u.s.jobs[id].agent == x.agent
            && ResumeId(u.s, u.s.jobs[id]) == x.sessionId
            && (u.s.jobs[id].dir == x.dir <==> !(x.workspace == DEFAULT_WORKSPACE && x.dir != cfg.defaultDir))
  {
    RunKeeps(Fresh(cfg), es, t, cfg) by {
      assert Matches(map[], map[]);
    }
    hide Key, Fresh;
    assert Lookup(t.s.sessions, d.botUserId, d.rootPostId).Some?;
  }

  predicate NoAlias(cfg: Config) {
    DEFAULT_WORKSPACE in cfg.workspaces ==> cfg.workspaces[DEFAULT_WORKSPACE] == cfg.defaultDir
  }

  /** A harness that can run at all keeps every thread's directory, in every
      run, if and only if no workspace of another directory is called `_default`. */
  lemma DirectorySticksExactly(cfg: Config)
    requires "" !in cfg.agents && cfg.defaultAgent in cfg.agents && cfg.maxJobs > 0
    ensures NoAlias(cfg) <==>
              forall es, t, id, d: JobDispatch | Runs(Fresh(cfg), es, t) && Talk(d.botUserId, d.rootPostId) in t.last
                && Plain(t, id, d) ::
                var u := After(t, Dispatched(id, d));
                id in u.s.jobs && u.s.jobs[id].dir == t.last[Talk(d.botUserId, d.rootPostId)].dir
  {
    if NoAlias(cfg) {
      forall es, t, id, d: JobDispatch | Runs(Fresh(cfg), es, t) && Talk(d.botUserId, d.rootPostId) in t.last
        && Plain(t, id, d)
        ensures var u := After(t, Dispatched(id, d));
                id in u.s.jobs && u.s.jobs[id].dir == t.last[Talk(d.botUserId, d.rootPostId)].dir
      {
        ThreadSticks(cfg, es, t, id, d);
        RunKeeps(Fresh(cfg), es, t, cfg) by {
          assert Matches(map[], map[]);
        }
      }
    } else {
      var t, id, d := AliasRun(cfg);
    }
  }

  /** Run in the workspace named `_default`, store the session, ask again. */
  lemma AliasRun(cfg: Config) returns (t: Trace, id: JobId, d: JobDispatch)
    requires "" !in cfg.agents && cfg.defaultAgent in cfg.agents && cfg.maxJobs > 0 && !NoAlias(cfg)
    ensures exists es :: Runs(Fresh(cfg), es, t)
    ensures Talk(d.botUserId, d.rootPostId) in t.last && Plain(t, id, d)
    ensures var u := After(t, Dispatched(id, d));
            id in u.s.jobs && u.s.jobs[id].dir != t.last[Talk(d.botUserId, d.rootPostId)].dir
  {
    id, d := "two", JobDispatch("bot", "root", cfg.owner, "", "");
    var e1 := Dispatched("one", JobDispatch("bot", "root", cfg.owner, DEFAULT_WORKSPACE, ""));
    var e2, e3 := Ended("one", "s"), Removed("one");
    var t1 := AliasStarts(cfg);
    t := AliasEnds(cfg, t1);
    AliasRuns(cfg, t1, t, e1, e2, e3);
    hide Fresh, Key, Runs, After, OnDispatch;
    ThreadSticks(cfg, [e1, e2, e3], t, id, d);
  }

  lemma AliasRuns(cfg: Config, t1: Trace, t: Trace, e1: Event, e2: Event, e3: Event)
    requires Enabled(Fresh(cfg), e1) && t1 == After(Fresh(cfg), e1) && Enabled(t1, e2)
    requires Enabled(After(t1, e2), e3) && t == After(After(t1, e2), e3)
    ensures Runs(Fresh(cfg), [e1, e2, e3], t)
  {
    hide After, Enabled, Fresh;
    assert [e1, e2, e3][1..] == [e2, e3] && [e2, e3][1..] == [e3] && [e3][1..] == [];
    assert Runs(After(t1, e2), [e3], t);
    assert Runs(t1, [e2, e3], t);
  }

  lemma AliasEnds(cfg: Config, t1: Trace) returns (t: Trace)
    requires t1.s.cfg == cfg && t1.s.jobs.Keys == {"one"} && TalkOf(t1.s.jobs["one"]) == Talk("bot", "root")
    requires t1.s.jobs["one"].workspace == DEFAULT_WORKSPACE
    ensures Enabled(t1, Ended("one", "s")) && Enabled(After(t1, Ended("one", "s")), Removed("one"))
    ensures t == After(After(t1, Ended("one", "s")), Removed("one")) && t.s.cfg == cfg && t.s.jobs == map[]
    ensures Talk("bot", "root") in t.last && t.last[Talk("bot", "root")].workspace == DEFAULT_WORKSPACE
    ensures t.last[Talk("bot", "root")].dir == t1.s.jobs["one"].dir
  {
    hide Key;
    t := After(After(t1, Ended("one", "s")), Removed("one"));
    assert t.s.jobs == map[];
  }

  lemma AliasStarts(cfg: Config) returns (t: Trace)
    requires cfg.defaultAgent in cfg.agents && cfg.maxJobs > 0 && !NoAlias(cfg)
    ensures t == After(Fresh(cfg), Dispatched("one", JobDispatch("bot", "root", cfg.owner, DEFAULT_WORKSPACE, "")))
    ensures t.s.cfg == cfg && t.s.jobs.Keys == {"one"} && TalkOf(t.s.jobs["one"]) == Talk("bot", "root")
    ensures t.s.jobs["one"].workspace == DEFAULT_WORKSPACE && t.s.jobs["one"].dir == cfg.workspaces[DEFAULT_WORKSPACE]
    ensures t.s.jobs["one"].agent == cfg.defaultAgent
  {
    hide Key;
    t := After(Fresh(cfg), Dispatched("one", JobDispatch("bot", "root", cfg.owner, DEFAULT_WORKSPACE, "")));
    assert Lookup(map[], "bot", "root") == None;
  }

  /** Storing a session in one conversation, and every other step, leaves the
      entry of every other conversation as it was. */
  lemma OthersUntouched(t: Trace, e: Event, who: Talk)
    requires Enabled(t, e) && (e.Ended? ==> TalkOf(t.s.jobs[e.id]) != who)
    ensures Lookup(After(t, e).s.sessions, who.bot, who.root) == Lookup(t.s.sessions, who.bot, who.root)
  {
    if e.Ended? {
      KeyInjective(who.bot, who.root, t.s.jobs[e.id].botUserId, t.s.jobs[e.id].rootPostId);
    }
  }

  /** No run of this conversation stores a session along the way. */
  ghost predicate Quiet(t: Trace, es: seq<Event>, who: Talk)
    decreases |es|
  {
    es == [] || (Enabled(t, es[0]) && (es[0].Ended? ==> TalkOf(t.s.jobs[es[0].id]) != who)
                 && Quiet(After(t, es[0]), es[1..], who))
  }

  lemma {:induction false} QuietKeeps(t: Trace, es: seq<Event>, u: Trace, who: Talk)
    requires Runs(t, es, u) && Quiet(t, es, who)
    ensures Lookup(u.s.sessions, who.bot, who.root) == Lookup(t.s.sessions, who.bot, who.root)
    decreases |es|
  {
    if es != [] {
      OthersUntouched(t, es[0], who);
      QuietKeeps(After(t, es[0]), es[1..], u, who);
    }
  }

  /** The started run may look its session up later: until its conversation
      stores another one, it still resumes the last. */
  lemma ResumesLater(cfg: Config, es: seq<Event>, t: Trace, id: JobId, d: JobDispatch, more: seq<Event>, u: Trace)
    requires Runs(Fresh(cfg), es, t) && "" !in cfg.agents
    requires Talk(d.botUserId, d.rootPostId) in t.last && Plain(t, id, d)
    requires Runs(After(t, Dispatched(id, d)), more, u)
    requires Quiet(After(t, Dispatched(id, d)), more, Talk(d.botUserId, d.rootPostId))
    ensures var started := After(t, Dispatched(id, d)).s.jobs;
            id in started && ResumeId(u.s, started[id]) == t.last[Talk(d.botUserId, d.rootPostId)].sessionId
  {
    ThreadSticks(cfg, es, t, id, d);
    QuietKeeps(After(t, Dispatched(id, d)), more, u, Talk(d.botUserId, d.rootPostId));
    hide Key, Lookup, Fresh, Runs, Quiet, Plain;
  }
}
