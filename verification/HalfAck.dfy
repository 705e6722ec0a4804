/** Runs in which the two exceptions of `WaitingStaysDeliverable` happen: the
    broker stops between the two store calls of an ack, or between those of a
    creation. */
module HalfAck {
  import opened Basics
  import opened Protocol
  import opened Store
  import opened Broker
  import opened System
  import opened SystemInv
  import H = Harness
  import Sessions

  lemma {:induction false} RunExtends(s: System, steps: seq<Step>, t: System, step: Step)
    requires Runs(s, steps, t) && Enabled(t, step)
    ensures Runs(s, steps + [step], Next(t, step))
    decreases |steps|
  {
    if steps == [] {
      assert Runs(Next(t, step), [], Next(t, step)) && ([step])[1..] == [];
    } else {
      RunExtends(Next(s, steps[0]), steps[1..], t, step);
      assert (steps + [step])[1..] == steps[1..] + [step];
    }
  }

  lemma Reached(s: System, step: Step)
    requires Reachable(s) && Enabled(s, step)
    ensures Reachable(Next(s, step))
  {
    var steps :| Runs(INIT, steps, s);
    RunExtends(INIT, steps, s, step);
  }

  const CFG := H.Config("ann", map[], "/work", {"claude"}, "claude", 1)
  const DISPATCH := JobDispatch("bot", "root", "ann", "", "")
  const NEW := NewJob("job", "msg", "hrn", "post", DISPATCH)
  const SENT := Packet("hrn", Reliable(Envelope("msg", "job", Dispatch(DISPATCH))))
  const ACKED := Packet("hrn", Acked("msg", "job", Ack(true, "")))

  ghost predicate Idle(s: System) {
    && s.Jobs() == map[] && s.Outbox() == map[] && s.minted == map[] && s.dispatchOf == map[] && s.procs.Keys == {"hrn"}
    && s.procs["hrn"] == H.HarnessState(CFG, map[], map[], map[], map[])
    && s.b.db.harnesses.Keys == {"hrn"} && s.b.db.harnesses["hrn"].ownerId == "ann"
  }

  lemma Paired() returns (s: System)
    ensures Reachable(s) && Idle(s) && s.b.conns == map[]
  {
    assert Runs(INIT, [], INIT);
    assert Reachable(INIT);
    hide Reachable;
    Reached(INIT, Pair("hrn", CFG, 0));
    s := DoPair(INIT, "hrn", CFG, 0);
  }

  lemma Connected() returns (s: System)
    ensures Reachable(s) && Idle(s) && s.b.conns == map["hrn" := Greeting]
  {
    var s1 := Paired();
    hide Reachable;
    Reached(s1, Connect("hrn", 1));
    s := DoConnect(s1, "hrn", 1);
  }

  lemma Helloed() returns (s: System)
    ensures Reachable(s) && Idle(s) && s.b.conns == map["hrn" := Greeting] && Packet("hrn", Hello([])) in s.up
  {
    var s1 := Connected();
    hide Reachable;
    assert Elems<JobId>([]) == s1.procs["hrn"].jobs.Keys;
    Reached(s1, SayHello("hrn", []));
    s := UpWith(s1, {Packet("hrn", Hello([]))});
  }

  lemma Online() returns (s: System)
    ensures Reachable(s) && Idle(s) && s.b.conns == map["hrn" := Ready]
  {
    var s1 := Helloed();
    hide Reachable;
    assert Matching(s1.Jobs(), ActiveFilter("hrn")) == {};
    Reached(s1, Greet("hrn", [], 2));
    s := DoGreet(s1, "hrn", [], 2);
    assert s.b.conns == map["hrn" := Ready];
  }

  ghost predicate Sent1(s: System) {
    && s.Jobs().Keys == {"job"} && s.Jobs()["job"].state.Dispatched? && s.Jobs()["job"].harnessId == "hrn"
    && s.dispatchOf == map["job" := "msg"] && s.Outbox().Keys == {"msg"}
  }

  lemma Dispatched1() returns (s: System)
    ensures Reachable(s) && Sent1(s) && SENT in s.b.down && "hrn" in s.procs
    ensures s.procs["hrn"] == H.HarnessState(CFG, map[], map[], map[], map[])
  {
    var s1 := Online();
    hide Reachable;
    Reached(s1, Create(NEW, 3, 60, true));
    s := DoCreate(s1, NEW, 3, 60, true);
  }

  lemma DispatchIsTaken()
    ensures var idle := H.HarnessState(CFG, map[], map[], map[], map[]);
            H.ReliableAck(idle, Envelope("msg", "job", Dispatch(DISPATCH))) == Ack(true, "")
  {
    hide Sessions.Key;
    assert Sessions.Lookup(map[], "bot", "root") == None;
  }

  /** A job for it, handled there, and the ack on the wire. */
  lemma AckOnTheWire() returns (s: System)
    ensures Reachable(s) && Sent1(s) && ACKED in s.up
  {
    var s1 := Dispatched1();
    DispatchIsTaken();
    hide Reachable, H.ReliableAck, H.HandleReliable;
    Reached(s1, ToHarness(SENT));
    s := DoToHarness(s1, SENT);
  }

  /** A reachable state with a dispatched job whose row is acknowledged, and
      nothing under way that would move it. */
  lemma AckCutShort() returns (s: System)
    ensures Reachable(s) && "job" in s.Jobs() && s.Jobs()["job"].state.Dispatched? && s.acking == {}
    ensures "job" in s.dispatchOf && s.dispatchOf["job"] in HalfAcked(s)
    ensures forall m :: !Waits(s.Outbox(), m, "job", "hrn")
  {
    var s1 := AckOnTheWire();
    hide Reachable;
    Reached(s1, ToBroker(ACKED, "", 4));
    var s2 := Next(s1, ToBroker(ACKED, "", 4));
    assert ACKED in s2.acking;
    Reached(s2, BrokerRestart);
    s := Next(s2, BrokerRestart);
    assert ACKED in s.acking + s.cut;
  }

  /** … and one whose row waits for a dispatch that was never enqueued. */
  lemma CreateCutShort() returns (s: System)
    ensures Reachable(s) && "job" in s.Jobs() && s.Jobs()["job"].state.Dispatched? && "job" !in s.dispatchOf
    ensures forall m :: !Waits(s.Outbox(), m, "job", "hrn")
  {
    var s1 := Online();
    hide Reachable;
    Reached(s1, CutCreate(NEW, 3, 60));
    s := DoCutCreate(s1, NEW, 3, 60);
  }
}
