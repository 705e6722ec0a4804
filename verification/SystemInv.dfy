/** The inductive invariant of the whole bridge. Each part names only the
    components it talks about; facts about the broker's tables and the history
    are stated over a `Ledger`, which only ever grows. */
module SystemInv {
  import opened Basics
  import opened Protocol
  import opened Store
  import opened Broker
  import opened System
  import H = Harness

  datatype Ledger = Ledger(
    jobs: map<JobId, Job>, approvals: map<ApprovalId, Approval>,
    minted: map<MsgId, Sent>, asked: map<ApprovalId, Asked>)

  function Led(s: System): Ledger { Ledger(s.Jobs(), s.Approvals(), s.minted, s.asked) }

  ghost predicate Extends<K, V>(m: map<K, V>, m': map<K, V>) { forall k | k in m :: k in m' && m'[k] == m[k] }

  ghost predicate Le(l: Ledger, l': Ledger) {
    && JobsLe(l.jobs, l'.jobs) && ApprovalsLe(l.approvals, l'.approvals)
    && Extends(l.minted, l'.minted) && Extends(l.asked, l'.asked)
  }

  ghost predicate Owned(l: Ledger, j: JobId, h: HarnessId) { j in l.jobs && l.jobs[j].harnessId == h }

  /** Out of the queue: its dispatch may have left the broker. */
  ghost predicate Begun(l: Ledger, j: JobId) { j in l.jobs && Rank(l.jobs[j].state) > 0 }

  /** Terminal and not lost. */
  ghost predicate Settled(l: Ledger, j: JobId) { j in l.jobs && Rank(l.jobs[j].state) == 4 }

  ghost predicate OwnerIs(l: Ledger, j: JobId, u: UserId) { j in l.jobs && l.jobs[j].ownerId == u }

  ghost predicate Granted(l: Ledger, j: JobId, a: ApprovalId, d: Decision) {
    a in l.approvals && l.approvals[a].jobId == j && l.approvals[a].decision == Some(d)
  }

  ghost predicate AskedBy(l: Ledger, a: ApprovalId, x: Asked) { a in l.asked && l.asked[a] == x }

  ghost predicate MintedAs(l: Ledger, m: MsgId, x: Sent) { m in l.minted && l.minted[m] == x }

  ghost predicate SentOk(l: Ledger, m: MsgId, x: Sent) {
    && x.env.id == m && Owned(l, x.env.jobId, x.h)
    && match x.env.body
       case Dispatch(d) => OwnerIs(l, x.env.jobId, d.requester)
       case ApprovalResponse(a, d) => Granted(l, x.env.jobId, a, d)
       case ApprovalRequest(a, e) => AskedBy(l, a, Asked(x.h, x.env.jobId, e)) && Begun(l, x.env.jobId)
       case _ => true
  }

  ghost predicate MintedOk(minted: map<MsgId, Sent>, l: Ledger) { forall m | m in minted :: SentOk(l, m, minted[m]) }

  ghost predicate RowsOk(outbox: map<MsgId, OutboxRow>, l: Ledger) {
    forall m | m in outbox :: MintedAs(l, m, Sent(outbox[m].harnessId, outbox[m].env)) && outbox[m].env.body.ByBroker()
  }

  ghost predicate DownPacketOk(p: Packet, l: Ledger) {
    match p.frame
    case Reliable(env) => MintedAs(l, env.id, Sent(p.harness, env)) && env.body.ByBroker() && Begun(l, env.jobId)
    case Acked(ref, _, _) =>
      ref in l.minted && (l.minted[ref].env.body.Finished? ==> Settled(l, l.minted[ref].env.jobId))
    case _ => true
  }

  ghost predicate DownOk(down: set<Packet>, l: Ledger) { forall p | p in down :: DownPacketOk(p, l) }

  ghost predicate UpPacketOk(p: Packet, l: Ledger) {
    match p.frame
    case Reliable(env) => MintedAs(l, env.id, Sent(p.harness, env)) && !env.body.ByBroker()
    case Acked(ref, id, _) =>
      && ref in l.minted && l.minted[ref].h == p.harness && l.minted[ref].env.jobId == id
      && l.minted[ref].env.body.ByBroker() && Begun(l, id)
    case Hello(reported) => forall j | j in reported :: Owned(l, j, p.harness) && Begun(l, j)
    case _ => true
  }

  ghost predicate UpOk(up: set<Packet>, l: Ledger) { forall p | p in up :: UpPacketOk(p, l) }

  ghost predicate LiveOk(jobs: map<JobId, H.LiveJob>, h: HarnessId, owner: UserId, l: Ledger) {
    forall j | j in jobs :: Owned(l, j, h) && Begun(l, j) && OwnerIs(l, j, owner)
  }

  ghost predicate ChannelOk(a: ApprovalId, c: H.Channel, h: HarnessId, owner: UserId, l: Ledger) {
    && AskedBy(l, a, Asked(h, c.jobId, c.expiresAt))
    && Owned(l, c.jobId, h) && OwnerIs(l, c.jobId, owner)
    && (c.answer.Some? ==> Granted(l, c.jobId, a, c.answer.value))
  }

  ghost predicate ChannelsOk(channels: map<ApprovalId, H.Channel>, h: HarnessId, owner: UserId, l: Ledger) {
    forall a | a in channels :: ChannelOk(a, channels[a], h, owner, l)
  }

  ghost predicate BoxOk(box: map<MsgId, Envelope>, h: HarnessId, l: Ledger) {
    forall m | m in box :: MintedAs(l, m, Sent(h, box[m])) && !box[m].body.ByBroker()
  }

  ghost predicate ProcOk(h: HarnessId, p: H.HarnessState, l: Ledger) {
    LiveOk(p.jobs, h, p.cfg.owner, l) && ChannelsOk(p.channels, h, p.cfg.owner, l) && BoxOk(p.outbox, h, l)
  }

  ghost predicate ProcsOk(procs: map<HarnessId, H.HarnessState>, l: Ledger) {
    forall h | h in procs :: ProcOk(h, procs[h], l)
  }

  /** An approval row repeats what its harness asked, and a decided one was
      decided by the job's owner strictly before its expiry. */
  ghost predicate ApprovalOk(l: Ledger, a: ApprovalId, row: Approval) {
    && a in l.asked && l.asked[a].jobId == row.jobId && l.asked[a].expiresAt == row.expiresAt && Begun(l, row.jobId)
    && (row.decision.Some? ==> OwnerIs(l, row.jobId, row.decidedBy) && row.decidedAt < row.expiresAt)
  }

  ghost predicate ApprovalsOk(approvals: map<ApprovalId, Approval>, l: Ledger) {
    forall a | a in approvals :: ApprovalOk(l, a, approvals[a])
  }

  ghost predicate InBox(procs: map<HarnessId, H.HarnessState>, h: HarnessId, m: MsgId) {
    h in procs && m in procs[h].outbox
  }

  ghost predicate ResultsKept(minted: map<MsgId, Sent>, procs: map<HarnessId, H.HarnessState>, l: Ledger) {
    forall m | m in minted && minted[m].env.body.Finished? ::
      InBox(procs, minted[m].h, m) || Settled(l, minted[m].env.jobId)
  }

  /** The one row that will start job j when its harness is there. */
  ghost predicate Waits(outbox: map<MsgId, OutboxRow>, m: MsgId, j: JobId, h: HarnessId) {
    && m in outbox && outbox[m].ackedAt.None? && outbox[m].harnessId == h
    && outbox[m].env.jobId == j && outbox[m].env.body.Dispatch?
  }

  /** A waiting job's row waits too, once enqueued, except between the two store
      calls of its ack, and for a queued job always. */
  ghost predicate Deliverable(
    jobs: map<JobId, Job>, outbox: map<MsgId, OutboxRow>, dispatchOf: map<JobId, MsgId>, half: set<MsgId>)
  {
    forall j | j in jobs && Rank(jobs[j].state) <= 1 && j in dispatchOf ::
      && (Waits(outbox, dispatchOf[j], j, jobs[j].harnessId) <==> dispatchOf[j] !in half)
      && (jobs[j].state.Queued? ==> dispatchOf[j] !in half)
  }

  /** A job has at most one dispatch. */
  ghost predicate DispatchMinted(jobs: map<JobId, Job>, dispatchOf: map<JobId, MsgId>, minted: map<MsgId, Sent>) {
    && (forall j | j in dispatchOf :: j in jobs && dispatchOf[j] in minted && minted[dispatchOf[j]].env.jobId == j)
    && (forall m | m in minted && minted[m].env.body.Dispatch? :: DispatchIs(jobs, dispatchOf, minted[m].env.jobId, m))
  }

  ghost predicate DispatchIs(jobs: map<JobId, Job>, dispatchOf: map<JobId, MsgId>, j: JobId, m: MsgId) {
    j in jobs && j in dispatchOf && dispatchOf[j] == m
  }

  ghost predicate QueueOffline(jobs: map<JobId, Job>, conns: map<HarnessId, Phase>) {
    forall j | j in jobs && jobs[j].state.Queued? ::
      !(jobs[j].harnessId in conns && conns[jobs[j].harnessId].Ready?)
  }

  ghost predicate AwaitingAgree(jobs: map<JobId, Job>, approvals: map<ApprovalId, Approval>) {
    forall j | j in jobs && jobs[j].state in {Dispatched, Running, Awaiting} ::
      jobs[j].state.Awaiting? <==> HasPending(approvals, j)
  }

  /** A decided row was decided by a click of its decider that said so and
      carried the keyed tag of that approval, that decision and that nonce. */
  ghost predicate PressedOk(approvals: map<ApprovalId, Approval>, pressed: map<ApprovalId, Click>) {
    forall a | a in approvals && approvals[a].decision.Some? :: a in pressed && Signed(a, approvals[a], pressed[a])
  }

  predicate Signed(a: ApprovalId, row: Approval, c: Click)
    requires row.decision.Some?
  {
    && c.approval == a && c.decision == row.decision && c.user == row.decidedBy
    && c.tag == Hmac(a, row.decision.value, row.nonce)
  }

  ghost predicate HarnessesAgree(harnesses: map<HarnessId, HarnessRow>, procs: map<HarnessId, H.HarnessState>) {
    && harnesses.Keys == procs.Keys
    && (forall h | h in procs :: harnesses[h].ownerId == procs[h].cfg.owner)
  }

  ghost predicate JobsPaired(jobs: map<JobId, Job>, procs: map<HarnessId, H.HarnessState>) {
    forall j | j in jobs :: jobs[j].harnessId in procs
  }

  ghost predicate OwnerOf(procs: map<HarnessId, H.HarnessState>, h: HarnessId, u: UserId) {
    h in procs && procs[h].cfg.owner == u
  }

  ghost predicate AllowedOk(allowed: set<Allowed>, l: Ledger, procs: map<HarnessId, H.HarnessState>) {
    forall x | x in allowed ::
      && Owned(l, x.jobId, x.h) && OwnerOf(procs, x.h, l.jobs[x.jobId].ownerId)
      && Granted(l, x.jobId, x.approval, Allow) && l.approvals[x.approval].expiresAt == x.expiresAt
  }

  /** The parts over the ledger … */
  ghost predicate LedgerInv(s: System, l: Ledger) {
    && MintedOk(s.minted, l) && RowsOk(s.Outbox(), l) && DownOk(s.b.down, l) && UpOk(s.up, l)
    && ProcsOk(s.procs, l) && ApprovalsOk(s.Approvals(), l) && ResultsKept(s.minted, s.procs, l)
    && AllowedOk(s.allowed, l, s.procs)
  }

  /** … and those that look at exact states and connections. */
  ghost predicate StateInv(s: System) {
    && s.reading <= s.up && s.acking + s.cut <= s.up && "" !in s.Jobs()
    && Deliverable(s.Jobs(), s.Outbox(), s.dispatchOf, HalfAcked(s))
    && DispatchMinted(s.Jobs(), s.dispatchOf, s.minted)
    && QueueOffline(s.Jobs(), s.b.conns)
    && AwaitingAgree(s.Jobs(), s.Approvals()) && PressedOk(s.Approvals(), s.pressed)
    && HarnessesAgree(s.b.db.harnesses, s.procs) && JobsPaired(s.Jobs(), s.procs)
  }

  ghost predicate Inv(s: System) { LedgerInv(s, Led(s)) && StateInv(s) }

  // --- the ledger parts survive every growth of the ledger ---

  lemma CarryWire(down: set<Packet>, up: set<Packet>, l: Ledger, l': Ledger)
    requires Le(l, l')
    ensures DownOk(down, l) ==> DownOk(down, l')
    ensures UpOk(up, l) ==> UpOk(up, l')
  {
  }

  lemma CarryTables(s: System, l: Ledger, l': Ledger)
    requires Le(l, l')
    ensures MintedOk(s.minted, l) ==> MintedOk(s.minted, l')
    ensures RowsOk(s.Outbox(), l) ==> RowsOk(s.Outbox(), l')
    ensures ApprovalsOk(s.Approvals(), l) ==> ApprovalsOk(s.Approvals(), l')
  {
  }

  lemma CarryProcs(s: System, l: Ledger, l': Ledger)
    requires Le(l, l')
    ensures ProcsOk(s.procs, l) ==> ProcsOk(s.procs, l')
    ensures ResultsKept(s.minted, s.procs, l) ==> ResultsKept(s.minted, s.procs, l')
    ensures AllowedOk(s.allowed, l, s.procs) ==> AllowedOk(s.allowed, l', s.procs)
  {
  }

  lemma Carry(s: System, l: Ledger, l': Ledger)
    requires Le(l, l') && LedgerInv(s, l)
    ensures LedgerInv(s, l')
  {
    hide MintedOk, RowsOk, DownOk, UpOk, ProcsOk, ApprovalsOk, ResultsKept, AllowedOk, Deliverable, QueueOffline,
      AwaitingAgree, HarnessesAgree, JobsPaired, DispatchMinted, PressedOk;
    CarryWire(s.b.down, s.up, l, l');
    CarryTables(s, l, l');
    CarryProcs(s, l, l');
  }

  lemma InitInv()
    ensures Inv(INIT)
  {
  }

  // --- the parts, one fact at a time (the step proofs below hide `Inv` and
  //     use these, so that no proof sees the whole invariant twice) ---

  lemma UpFact(s: System, p: Packet)
    requires Inv(s) && p in s.up
    ensures UpPacketOk(p, Led(s))
    ensures p.frame.Reliable? ==> SentOk(Led(s), p.frame.env.id, Sent(p.harness, p.frame.env))
    ensures p.frame.Acked? ==> SentOk(Led(s), p.frame.ref, s.minted[p.frame.ref]) && p.frame.ackJob != ""
  {
  }

  lemma DownFact(s: System, p: Packet)
    requires Inv(s) && p in s.b.down
    ensures DownPacketOk(p, Led(s))
    ensures p.frame.Reliable? ==> SentOk(Led(s), p.frame.env.id, Sent(p.harness, p.frame.env))
  {
  }

  lemma ProcFact(s: System, h: HarnessId)
    requires Inv(s) && h in s.procs
    ensures ProcOk(h, s.procs[h], Led(s))
  {
  }

  lemma ApprovalFact(s: System, a: ApprovalId)
    requires Inv(s) && a in s.Approvals()
    ensures ApprovalOk(Led(s), a, s.Approvals()[a])
  {
  }

  lemma TableFacts(s: System)
    requires Inv(s)
    ensures AwaitingAgree(s.Jobs(), s.Approvals()) && Deliverable(s.Jobs(), s.Outbox(), s.dispatchOf, HalfAcked(s))
    ensures QueueOffline(s.Jobs(), s.b.conns) && RowsOk(s.Outbox(), Led(s))
    ensures forall a | a in s.Approvals() :: ApprovalOk(Led(s), a, s.Approvals()[a])
  {
  }

  lemma AwaitingFact(s: System)
    requires Inv(s)
    ensures AwaitingAgree(s.Jobs(), s.Approvals()) && PressedOk(s.Approvals(), s.pressed)
  {
  }

  lemma DispatchFact(s: System)
    requires Inv(s)
    ensures DispatchMinted(s.Jobs(), s.dispatchOf, s.minted)
  {
  }

  lemma ResultFact(s: System, m: MsgId)
    requires Inv(s) && m in s.minted && s.minted[m].env.body.Finished?
    ensures SentOk(Led(s), m, s.minted[m]) && s.minted[m].h in s.procs
    ensures InBox(s.procs, s.minted[m].h, m) || Settled(Led(s), s.minted[m].env.jobId)
  {
    assert SentOk(Led(s), m, s.minted[m]);
  }

  lemma PlaceFacts(s: System)
    requires Inv(s)
    ensures s.reading <= s.up && s.acking + s.cut <= s.up && "" !in s.Jobs() && s.b.db.harnesses.Keys == s.procs.Keys
    ensures forall m | m in s.Outbox() :: m in s.minted
  {
  }

  // --- one part after one change ---

  lemma DeliverableForward(jobs: map<JobId, Job>, jobs': map<JobId, Job>, outbox: map<MsgId, OutboxRow>,
                           dispatchOf: map<JobId, MsgId>, half: set<MsgId>)
    requires Deliverable(jobs, outbox, dispatchOf, half) && JobsLe(jobs, jobs') && jobs'.Keys == jobs.Keys
    ensures Deliverable(jobs', outbox, dispatchOf, half)
  {
    hide Waits;
  }

  lemma DispatchForward(jobs: map<JobId, Job>, jobs': map<JobId, Job>, dispatchOf: map<JobId, MsgId>,
                        minted: map<MsgId, Sent>)
    requires DispatchMinted(jobs, dispatchOf, minted) && jobs'.Keys == jobs.Keys
    ensures DispatchMinted(jobs', dispatchOf, minted)
  {
  }

  lemma DispatchMint(jobs: map<JobId, Job>, dispatchOf: map<JobId, MsgId>, minted: map<MsgId, Sent>, m: MsgId, x: Sent)
    requires DispatchMinted(jobs, dispatchOf, minted) && m !in minted && !x.env.body.Dispatch?
    ensures DispatchMinted(jobs, dispatchOf, minted[m := x])
  {
  }

  lemma QueueForward(jobs: map<JobId, Job>, jobs': map<JobId, Job>, conns: map<HarnessId, Phase>)
    requires QueueOffline(jobs, conns) && JobsLe(jobs, jobs') && jobs'.Keys == jobs.Keys
    ensures QueueOffline(jobs', conns)
  {
    assert forall j | j in jobs' && jobs'[j].state.Queued? :: Rank(jobs[j].state) == 0;
  }

  lemma PairedForward(jobs: map<JobId, Job>, jobs': map<JobId, Job>, procs: map<HarnessId, H.HarnessState>)
    requires JobsPaired(jobs, procs) && JobsLe(jobs, jobs') && jobs'.Keys == jobs.Keys
    ensures JobsPaired(jobs', procs)
  {
  }

  lemma WireUnion(a: set<Packet>, b: set<Packet>, l: Ledger)
    ensures DownOk(a, l) && DownOk(b, l) ==> DownOk(a + b, l)
    ensures UpOk(a, l) && UpOk(b, l) ==> UpOk(a + b, l)
  {
  }

  lemma MintedAdd(minted: map<MsgId, Sent>, m: MsgId, x: Sent, l: Ledger)
    requires MintedOk(minted, l) && SentOk(l, m, x)
    ensures MintedOk(minted[m := x], l)
  {
  }

  lemma RowsAdd(outbox: map<MsgId, OutboxRow>, h: HarnessId, env: Envelope, l: Ledger)
    requires RowsOk(outbox, l) && MintedAs(l, env.id, Sent(h, env)) && env.body.ByBroker()
    ensures RowsOk(Enqueued(outbox, h, env), l)
  {
  }

  lemma DeliverableStore(jobs: map<JobId, Job>, outbox: map<MsgId, OutboxRow>, dispatchOf: map<JobId, MsgId>,
                         half: set<MsgId>, h: HarnessId, env: Envelope)
    requires Deliverable(jobs, outbox, dispatchOf, half)
    requires forall j | j in jobs && j in dispatchOf :: dispatchOf[j] != env.id
    ensures Deliverable(jobs, Enqueued(outbox, h, env), dispatchOf, half)
  {
  }

  lemma KeptMint(minted: map<MsgId, Sent>, m: MsgId, x: Sent, procs: map<HarnessId, H.HarnessState>, l: Ledger)
    requires ResultsKept(minted, procs, l) && (x.env.body.Finished? ==> InBox(procs, x.h, m))
    ensures ResultsKept(minted[m := x], procs, l)
  {
  }

  lemma ProcsPut(s: System, h: HarnessId, p: H.HarnessState, l: Ledger)
    requires ProcsOk(s.procs, l) && ProcOk(h, p, l)
    ensures ProcsOk(s.procs[h := p], l)
  {
  }

  lemma OwnersPut(s: System, h: HarnessId, p: H.HarnessState, l: Ledger)
    requires h in s.procs ==> p.cfg.owner == s.procs[h].cfg.owner
    ensures AllowedOk(s.allowed, l, s.procs) ==> AllowedOk(s.allowed, l, s.procs[h := p])
    ensures JobsPaired(s.Jobs(), s.procs) ==> JobsPaired(s.Jobs(), s.procs[h := p])
    ensures h in s.procs && HarnessesAgree(s.b.db.harnesses, s.procs) ==>
              HarnessesAgree(s.b.db.harnesses, s.procs[h := p])
  {
  }

  lemma KeptPut(s: System, h: HarnessId, p: H.HarnessState, l: Ledger)
    requires ResultsKept(s.minted, s.procs, l) && (h in s.procs ==> BoxOk(s.procs[h].outbox, h, l))
    requires l.minted == s.minted
    requires h in s.procs ==>
               forall m | m in s.procs[h].outbox && m !in p.outbox && s.procs[h].outbox[m].body.Finished? ::
               Settled(l, s.procs[h].outbox[m].jobId)
    ensures ResultsKept(s.minted, s.procs[h := p], l)
  {
    forall m | m in s.minted && s.minted[m].env.body.Finished?
      ensures InBox(s.procs[h := p], s.minted[m].h, m) || Settled(l, s.minted[m].env.jobId)
    {
      assert InBox(s.procs, s.minted[m].h, m) || Settled(l, s.minted[m].env.jobId);
      if s.minted[m].h == h && h in s.procs && m in s.procs[h].outbox && m !in p.outbox {
        assert MintedAs(l, m, Sent(h, s.procs[h].outbox[m]));
      }
    }
  }

  // --- one-component changes of the system, from which the steps are composed ---

  /** The job and approval tables move forward together. */
  lemma TablesStep(s: System, jobs': map<JobId, Job>, approvals': map<ApprovalId, Approval>)
    requires Inv(s) && JobsLe(s.Jobs(), jobs') && jobs'.Keys == s.Jobs().Keys
    requires ApprovalsLe(s.Approvals(), approvals')
    requires ApprovalsOk(approvals', Ledger(jobs', approvals', s.minted, s.asked))
    requires AwaitingAgree(jobs', approvals') && PressedOk(approvals', s.pressed)
    ensures Inv(s.(b := s.b.(db := s.b.db.(jobs := jobs', approvals := approvals'))))
  {
    hide MintedOk, RowsOk, DownOk, UpOk, ProcsOk, ApprovalsOk, ResultsKept, AllowedOk, Deliverable, QueueOffline,
      AwaitingAgree, HarnessesAgree, JobsPaired, DispatchMinted, PressedOk;
    Carry(s, Led(s), Ledger(jobs', approvals', s.minted, s.asked));
    DeliverableForward(s.Jobs(), jobs', s.Outbox(), s.dispatchOf, HalfAcked(s));
    DispatchForward(s.Jobs(), jobs', s.dispatchOf, s.minted);
    QueueForward(s.Jobs(), jobs', s.b.conns);
    PairedForward(s.Jobs(), jobs', s.procs);
  }

  /** Only the job table moves, and nothing enters or leaves Awaiting. */
  lemma JobsStep(s: System, jobs': map<JobId, Job>)
    requires Inv(s) && JobsLe(s.Jobs(), jobs') && jobs'.Keys == s.Jobs().Keys
    requires AwaitingAgree(jobs', s.Approvals())
    ensures Inv(s.(b := WithJobs(s.b, jobs')))
  {
    hide MintedOk, RowsOk, DownOk, UpOk, ProcsOk, ApprovalsOk, ResultsKept, AllowedOk, Deliverable, QueueOffline,
      AwaitingAgree, HarnessesAgree, JobsPaired, DispatchMinted, PressedOk;
    Carry(s, Led(s), Ledger(jobs', s.Approvals(), s.minted, s.asked));
    TablesStep(s, jobs', s.Approvals());
  }

  /** A job that ends leaves Awaiting, whatever its approvals say. */
  lemma EndKeepsAwaiting(jobs: map<JobId, Job>, approvals: map<ApprovalId, Approval>, id: JobId, from: set<JobState>,
                         to: JobState, p: JobPatch, now: int)
    requires AwaitingAgree(jobs, approvals) && to !in {Dispatched, Running, Awaiting}
    ensures AwaitingAgree(Transition(jobs, id, from, to, p, now), approvals)
  {
  }

  lemma EndStep(s: System, id: JobId, from: set<JobState>, to: JobState, p: JobPatch, now: int)
    requires Inv(s) && Forward(from, to) && to !in {Dispatched, Running, Awaiting}
    ensures Inv(s.(b := WithJobs(s.b, Transition(s.Jobs(), id, from, to, p, now))))
  {
    AwaitingFact(s);
    hide Inv, AwaitingAgree, PressedOk;
    TransitionForward(s.Jobs(), id, from, to, p, now);
    EndKeepsAwaiting(s.Jobs(), s.Approvals(), id, from, to, p, now);
    JobsStep(s, Transition(s.Jobs(), id, from, to, p, now));
  }

  lemma OutboxStep(s: System, outbox': map<MsgId, OutboxRow>)
    requires Inv(s) && RowsOk(outbox', Led(s)) && Deliverable(s.Jobs(), outbox', s.dispatchOf, HalfAcked(s))
    ensures Inv(s.(b := s.b.(db := s.b.db.(outbox := outbox'))))
  {
    hide MintedOk, RowsOk, DownOk, UpOk, ProcsOk, ApprovalsOk, ResultsKept, AllowedOk, Deliverable, QueueOffline,
      AwaitingAgree, HarnessesAgree, JobsPaired, DispatchMinted, PressedOk;
  }

  lemma ConnsStep(s: System, conns': map<HarnessId, Phase>)
    requires Inv(s) && QueueOffline(s.Jobs(), conns')
    ensures Inv(s.(b := s.b.(conns := conns')))
  {
    hide MintedOk, RowsOk, DownOk, UpOk, ProcsOk, ApprovalsOk, ResultsKept, AllowedOk, Deliverable, QueueOffline,
      AwaitingAgree, HarnessesAgree, JobsPaired, DispatchMinted, PressedOk;
  }

  lemma DownStep(s: System, ps: set<Packet>)
    requires Inv(s) && DownOk(ps, Led(s))
    ensures Inv(DownWith(s, ps))
  {
    hide MintedOk, RowsOk, DownOk, UpOk, ProcsOk, ApprovalsOk, ResultsKept, AllowedOk, Deliverable, QueueOffline,
      AwaitingAgree, HarnessesAgree, JobsPaired, DispatchMinted, PressedOk;
    WireUnion(s.b.down, ps, Led(s));
  }

  lemma UpStep(s: System, ps: set<Packet>)
    requires Inv(s) && UpOk(ps, Led(s))
    ensures Inv(UpWith(s, ps))
  {
    hide MintedOk, RowsOk, DownOk, UpOk, ProcsOk, ApprovalsOk, ResultsKept, AllowedOk, Deliverable, QueueOffline,
      AwaitingAgree, HarnessesAgree, JobsPaired, DispatchMinted, PressedOk;
    WireUnion(s.up, ps, Led(s));
  }

  /** A fresh envelope in the history changes nothing else. */
  lemma MintStep(s: System, m: MsgId, x: Sent)
    requires Inv(s) && m !in s.minted && SentOk(Led(s), m, x) && !x.env.body.Finished? && !x.env.body.Dispatch?
    ensures Inv(s.(minted := s.minted[m := x]))
  {
    hide MintedOk, RowsOk, DownOk, UpOk, ProcsOk, ApprovalsOk, ResultsKept, AllowedOk, Deliverable, QueueOffline,
      AwaitingAgree, HarnessesAgree, JobsPaired, DispatchMinted, PressedOk;
    var l' := Led(s).(minted := s.minted[m := x]);
    Carry(s, Led(s), l');
    assert SentOk(l', m, x);
    MintedAdd(s.minted, m, x, l');
    KeptMint(s.minted, m, x, s.procs, l');
    DispatchMint(s.Jobs(), s.dispatchOf, s.minted, m, x);
  }

  lemma AskedStep(s: System, a: ApprovalId, x: Asked)
    requires Inv(s) && a !in s.asked
    ensures Inv(s.(asked := s.asked[a := x]))
  {
    hide MintedOk, RowsOk, DownOk, UpOk, ProcsOk, ApprovalsOk, ResultsKept, AllowedOk, Deliverable, QueueOffline,
      AwaitingAgree, HarnessesAgree, JobsPaired, DispatchMinted, PressedOk;
    Carry(s, Led(s), Led(s).(asked := s.asked[a := x]));
  }

  lemma StoreStep(s: System, h: HarnessId, env: Envelope)
    requires Inv(s) && MintedAs(Led(s), env.id, Sent(h, env)) && env.body.ByBroker()
    requires forall j | j in s.Jobs() && j in s.dispatchOf :: s.dispatchOf[j] != env.id
    ensures Inv(s.(b := s.b.(db := s.b.db.(outbox := Enqueued(s.Outbox(), h, env)))))
  {
    hide MintedOk, RowsOk, DownOk, UpOk, ProcsOk, ApprovalsOk, ResultsKept, AllowedOk, Deliverable, QueueOffline,
      AwaitingAgree, HarnessesAgree, JobsPaired, DispatchMinted, PressedOk;
    RowsAdd(s.Outbox(), h, env, Led(s));
    DeliverableStore(s.Jobs(), s.Outbox(), s.dispatchOf, HalfAcked(s), h, env);
    OutboxStep(s, Enqueued(s.Outbox(), h, env));
  }

  /** A broker message for a job out of the queue: minted, stored, pushed. */
  lemma SendStep(s: System, h: HarnessId, env: Envelope)
    requires Inv(s) && env.id !in s.minted && SentOk(Led(s), env.id, Sent(h, env))
    requires env.body.ByBroker() && !env.body.Dispatch? && Begun(Led(s), env.jobId)
    ensures Inv(s.(b := SendReliable(s.b, h, env), minted := s.minted[env.id := Sent(h, env)]))
  {
    hide Inv, SendReliable, Enqueued, DownWith, Stored, SentOk, Begun;
    SendShape(s, h, env);
    StoredKeeps(s, h, env);
    if h in s.b.conns { PushStep(s, h, env); }
  }

  lemma StoredKeeps(s: System, h: HarnessId, env: Envelope)
    requires Inv(s) && env.id !in s.minted && SentOk(Led(s), env.id, Sent(h, env))
    requires env.body.ByBroker() && !env.body.Dispatch?
    ensures Inv(Stored(s, h, env))
  {
    DispatchFact(s);
    hide Inv, Enqueued;
    MintStep(s, env.id, Sent(h, env));
    StoreStep(s.(minted := s.minted[env.id := Sent(h, env)]), h, env);
  }

  lemma PushStep(s: System, h: HarnessId, env: Envelope)
    requires Inv(Stored(s, h, env)) && env.body.ByBroker() && Begun(Led(s), env.jobId)
    ensures Inv(DownWith(Stored(s, h, env), {Packet(h, Reliable(env))}))
  {
    hide Inv, Enqueued;
    DownStep(Stored(s, h, env), {Packet(h, Reliable(env))});
  }

  /** Minted and stored, not yet pushed. */
  function Stored(s: System, h: HarnessId, env: Envelope): System {
    s.(minted := s.minted[env.id := Sent(h, env)], b := s.b.(db := s.b.db.(outbox := Enqueued(s.Outbox(), h, env))))
  }

  lemma SendShape(s: System, h: HarnessId, env: Envelope)
    ensures s.(b := SendReliable(s.b, h, env), minted := s.minted[env.id := Sent(h, env)]) ==
            if h in s.b.conns then DownWith(Stored(s, h, env), {Packet(h, Reliable(env))}) else Stored(s, h, env)
  {
  }

  /** A harness changes within its bounds; a result leaves its outbox only for
      a settled job. */
  lemma ProcStep(s: System, h: HarnessId, p: H.HarnessState)
    requires Inv(s) && h in s.procs && p.cfg == s.procs[h].cfg && ProcOk(h, p, Led(s))
    requires forall m | m in s.procs[h].outbox && m !in p.outbox && s.procs[h].outbox[m].body.Finished? ::
               Settled(Led(s), s.procs[h].outbox[m].jobId)
    ensures Inv(WithProc(s, h, p))
  {
    ProcFact(s, h);
    hide MintedOk, RowsOk, DownOk, UpOk, ProcsOk, ApprovalsOk, ResultsKept, AllowedOk, Deliverable, QueueOffline,
      AwaitingAgree, HarnessesAgree, JobsPaired, DispatchMinted, PressedOk;
    ProcsPut(s, h, p, Led(s));
    OwnersPut(s, h, p, Led(s));
    KeptPut(s, h, p, Led(s));
  }

  /** The same for a change that leaves the outbox alone. */
  lemma LocalStep(s: System, h: HarnessId, p: H.HarnessState)
    requires Inv(s) && h in s.procs && p.cfg == s.procs[h].cfg && p.outbox == s.procs[h].outbox
    requires LiveOk(p.jobs, h, p.cfg.owner, Led(s)) && ChannelsOk(p.channels, h, p.cfg.owner, Led(s))
    ensures Inv(WithProc(s, h, p))
  {
    hide Inv, LiveOk, ChannelsOk, BoxOk;
    ProcFact(s, h);
    ProcStep(s, h, p);
  }
}
