/** What a reconnect settles between the two job tables. */
module Handshake {
  import opened Basics
  import opened Protocol
  import opened Store
  import opened Broker
  import opened System
  import opened SystemInv
  import opened SystemTheorems
  import H = Harness

  predicate Held(j: Job, h: HarnessId) { j.harnessId == h && j.state in {Running, Awaiting} }

  /** The broker's side, for any job table and any hello, duplicates included. */
  lemma HelloSettles(jobs: map<JobId, Job>, h: HarnessId, reported: seq<JobId>, now: int)
    ensures var jobs', out := HelloJobs(jobs, h, Elems(reported), now), HelloAnswers(jobs, h, reported);
            && jobs'.Keys == jobs.Keys
            // held afterwards: exactly the reported jobs that were active
            && (forall j | j in jobs :: Held(jobs'[j], h) <==> j in reported && ActiveOf(jobs[j], h))
            // one answer per report, in order: resume if it was active, else abort
            && |out| == |reported|
            && (forall i | 0 <= i < |out| :: out[i].jobId == reported[i] &&
                  (out[i].action.Resume? <==> reported[i] in jobs && ActiveOf(jobs[reported[i]], h)))
            // unreported: held ones fail, queued ones are dispatched
            && (forall j | j in jobs && j !in reported && Held(jobs[j], h) ::
                jobs'[j].state.Failed? && jobs'[j].error == "the harness restarted and no longer has this job")
            && (forall j | j in jobs && j !in reported && jobs[j].harnessId == h ::
                jobs[j].state.Queued? ==> jobs'[j].state.Dispatched?)
            // reported: one that waited is running
            && (forall j | j in jobs && j in reported && jobs[j].harnessId == h
                && jobs[j].state in {Queued, Dispatched} ::
                jobs'[j] == jobs[j].(state := Running))
            // everything else is untouched
            && (forall j | j in jobs && !ActiveOf(jobs[j], h) :: jobs'[j] == jobs[j])
            && (forall j | j in jobs && (if j in reported then Held(jobs[j], h) else jobs[j].state.Dispatched?) ::
                jobs'[j] == jobs[j])
  {
    assert forall j :: j in Elems(reported) <==> j in reported;
  }

  /** The jobs a welcome tells the harness to cancel. */
  lemma AbortedExactly(jobs: map<JobId, Job>, h: HarnessId, reported: seq<JobId>, j: JobId)
    requires j in reported
    ensures WelcomeJob(j, Abort) in HelloAnswers(jobs, h, reported) <==> j !in jobs || !ActiveOf(jobs[j], h)
  {
    var out := HelloAnswers(jobs, h, reported);
    var i :| 0 <= i < |reported| && reported[i] == j;
    assert out[i] == HelloAnswer(jobs, h, j);
  }

  /** The state after the broker answers a hello and the harness reads the
      welcome of it. */
  function Reconnected(s: System, h: HarnessId, reported: seq<JobId>, now: int): System
    requires Enabled(s, Greet(h, reported, now)) && h in s.procs
  {
    var greeted := DoGreet(s, h, reported, now);
    DoToHarness(greeted, Packet(h, Welcome(HelloAnswers(s.Jobs(), h, reported))))
  }

  lemma ReconnectedShape(s: System, h: HarnessId, reported: seq<JobId>, now: int)
    requires Enabled(s, Greet(h, reported, now)) && h in s.procs
    ensures var t := Reconnected(s, h, reported, now);
            && t.Jobs() == HelloJobs(s.Jobs(), h, Elems(reported), now)
            && t.procs.Keys == s.procs.Keys
            && t.procs[h].jobs == H.AfterWelcome(s.procs[h].jobs, HelloAnswers(s.Jobs(), h, reported))
  {
    hide HelloJobs, H.AfterWelcome, HelloAnswers;
  }

  lemma LiveIsKnown(s: System, h: HarnessId)
    requires Reachable(s) && h in s.procs
    ensures s.procs[h].jobs.Keys <= s.Jobs().Keys
  {
    ReachableInv(s);
    ProcFact(s, h);
  }

  /** If the harness started nothing since its hello, both sides agree: of the
      jobs it still has, the reconnect cancels exactly those the broker does not
      hold for it; and if it also ended none, it has every job the broker holds. */
  lemma HandshakeAgrees(s: System, h: HarnessId, reported: seq<JobId>, now: int)
    requires Reachable(s) && Enabled(s, Greet(h, reported, now))
    requires h in s.procs && s.procs[h].jobs.Keys <= Elems(reported)
    ensures var t := Reconnected(s, h, reported, now);
            && t.procs.Keys == s.procs.Keys && t.procs[h].jobs.Keys == s.procs[h].jobs.Keys
            && (forall j | j in s.procs[h].jobs ::
                  j in t.Jobs() && (t.procs[h].jobs[j].cancelled <==>
                                    s.procs[h].jobs[j].cancelled || !Held(t.Jobs()[j], h)))
            && (forall j | j in t.Jobs() && Held(t.Jobs()[j], h) :: j in reported)
            && (s.procs[h].jobs.Keys == Elems(reported) ==>
                  forall j | j in t.Jobs() && Held(t.Jobs()[j], h) :: j in t.procs[h].jobs)
            && (forall j | j in t.Jobs() && t.Jobs()[j].harnessId == h :: !t.Jobs()[j].state.Queued?)
  {
    ReconnectedShape(s, h, reported, now);
    LiveIsKnown(s, h);
    HelloSettles(s.Jobs(), h, reported, now);
    forall j | j in s.procs[h].jobs
      ensures j in s.Jobs()
      ensures WelcomeJob(j, Abort) in HelloAnswers(s.Jobs(), h, reported) <==> !ActiveOf(s.Jobs()[j], h)
    {
      assert j in Elems(reported);
      AbortedExactly(s.Jobs(), h, reported, j);
    }
    hide Reconnected, Reachable, HelloAnswers, HelloJobs;
  }
}
