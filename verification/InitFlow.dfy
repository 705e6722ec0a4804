/** The onboarding tables: paired machines, bots and pairing requests. */
module InitStore {
  import opened Basics
  import opened Protocol

  datatype Machine = Machine(ownerId: UserId, name: string, tokenHash: string)

  /** `harnessId` is "" while the bot is bound to no machine. */
  datatype Bot = Bot(
    ownerId: UserId, username: string, token: string, harnessId: HarnessId, teamId: string, channelId: string,
    incomingHook: string, outgoingHook: string, outgoingToken: string)

  datatype InitRequest = InitRequest(
    pollTokenHash: string, botName: string, harnessName: string, expiresAt: int, claimedAt: Option<int>,
    harnessId: HarnessId, harnessToken: string, fetchedAt: Option<int>, botUserId: UserId)
  {
    predicate Claimed() { claimedAt.Some? }
  }

  datatype Tables = Tables(machines: map<HarnessId, Machine>, bots: map<UserId, Bot>, inits: map<string, InitRequest>)

  function CheckBotHarness(t: Tables, b: Bot): Option<StoreError> {
    if b.harnessId == "" then None
    else if b.harnessId !in t.machines then Some(NotFound)
    else if t.machines[b.harnessId].ownerId != b.ownerId then Some(Conflict)
    else None
  }

  predicate NameTaken(t: Tables, username: string) { exists b :: b in t.bots && t.bots[b].username == username }

  function CreateBot(t: Tables, id: UserId, b: Bot): Result<Tables, StoreError> {
    match CheckBotHarness(t, b)
    case Some(e) => Err(e)
    case None => if id in t.bots || NameTaken(t, b.username) then Err(Conflict) else Ok(t.(bots := t.bots[id := b]))
  }

  /** A bot's binding is set once: a bound row only matches its own machine. */
  function UpdateBot(t: Tables, id: UserId, b: Bot): Result<Tables, StoreError> {
    match CheckBotHarness(t, b)
    case Some(e) => Err(e)
    case None =>
      if id in t.bots && t.bots[id].ownerId == b.ownerId && t.bots[id].harnessId in {"", b.harnessId}
      then Ok(t.(bots := t.bots[id := b.(username := t.bots[id].username)]))
      else Err(Conflict)
  }

  function DeleteBot(t: Tables, id: UserId): Result<Tables, StoreError> {
    if id in t.bots then Ok(t.(bots := t.bots - {id})) else Err(NotFound)
  }

  predicate MachineTaken(t: Tables, id: HarnessId, m: Machine) {
    id in t.machines || exists h :: h in t.machines && t.machines[h].tokenHash == m.tokenHash
  }

  function Claim(r: InitRequest, now: int, id: HarnessId, bot: UserId, token: string): InitRequest {
    r.(claimedAt := Some(now), harnessId := id, harnessToken := token, botUserId := bot)
  }

  /** One transaction: insert the machine, bind the bot, claim the code. */
  function CompleteInit(t: Tables, code: string, now: int, id: HarnessId, m: Machine, bot: UserId, token: string)
    : Result<Tables, StoreError>
  {
    if code !in t.inits || t.inits[code].expiresAt <= now then Err(NotFound)
    else if t.inits[code].Claimed() then Err(Conflict)
    else if bot !in t.bots then Err(NotFound)
    else if t.bots[bot].ownerId != m.ownerId || t.bots[bot].harnessId != "" then Err(Conflict)
    else if MachineTaken(t, id, m) then Err(Conflict)
    else Ok(Tables(t.machines[id := m], t.bots[bot := t.bots[bot].(harnessId := id)],
                   t.inits[code := Claim(t.inits[code], now, id, bot, token)]))
  }

  // --- what each statement does ---

  /** A bot may name no machine or one of its owner's. */
  predicate MayBind(t: Tables, b: Bot) {
    b.harnessId == "" || (b.harnessId in t.machines && t.machines[b.harnessId].ownerId == b.ownerId)
  }

  lemma CreateBotDoes(t: Tables, id: UserId, b: Bot)
    ensures CreateBot(t, id, b).Ok? <==>
              MayBind(t, b) && id !in t.bots && forall x | x in t.bots :: t.bots[x].username != b.username
    ensures CreateBot(t, id, b) == Err(NotFound) <==> b.harnessId != "" && b.harnessId !in t.machines
    ensures CreateBot(t, id, b).Ok? ==> CreateBot(t, id, b).value == Tables(t.machines, t.bots[id := b], t.inits)
  {
  }

  /** An update changes only a bot of the same owner, and binds it at most once;
      id, owner and name stay. */
  lemma UpdateBotDoes(t: Tables, id: UserId, b: Bot)
    ensures UpdateBot(t, id, b).Ok? <==>
              && MayBind(t, b) && id in t.bots && t.bots[id].ownerId == b.ownerId
              && (t.bots[id].harnessId == "" || t.bots[id].harnessId == b.harnessId)
    ensures UpdateBot(t, id, b) == Err(NotFound) <==> b.harnessId != "" && b.harnessId !in t.machines
    ensures UpdateBot(t, id, b).Ok? ==>
              var t' := UpdateBot(t, id, b).value;
              && t'.machines == t.machines && t'.inits == t.inits && id in t'.bots
              && t'.bots == t.bots[id := t'.bots[id]]
              && t'.bots[id].username == t.bots[id].username && t'.bots[id].ownerId == t.bots[id].ownerId
              && t'.bots[id].harnessId == b.harnessId && t'.bots[id] == b.(username := t.bots[id].username)
  {
  }

  /** The claim goes through exactly for a valid unclaimed code, an unbound bot
      of the machine's owner, and a machine whose id and token are new. */
  lemma CompleteDoes(t: Tables, code: string, now: int, id: HarnessId, m: Machine, bot: UserId, token: string)
    ensures var r := CompleteInit(t, code, now, id, m, bot, token);
            && (r.Ok? <==>
                  && code in t.inits && now < t.inits[code].expiresAt && t.inits[code].claimedAt.None?
                  && bot in t.bots && t.bots[bot].ownerId == m.ownerId && t.bots[bot].harnessId == ""
                  && id !in t.machines && (forall h | h in t.machines :: t.machines[h].tokenHash != m.tokenHash))
            && (r == Err(NotFound) <==>
                  code !in t.inits || now >= t.inits[code].expiresAt
                  || (t.inits[code].claimedAt.None? && bot !in t.bots))
            && (r.Ok? ==>
                  && r.value.machines == t.machines[id := m]
                  && r.value.bots == t.bots[bot := t.bots[bot].(harnessId := id)]
                  && code in r.value.inits && r.value.inits == t.inits[code := r.value.inits[code]]
                  && r.value.inits[code] ==
                     t.inits[code].(claimedAt := Some(now), harnessId := id, harnessToken := token, botUserId := bot))
  {
  }

  function CreateInit(t: Tables, code: string, r: InitRequest): Result<Tables, StoreError> {
    if code in t.inits then Err(Conflict) else Ok(t.(inits := t.inits[code := r]))
  }

  function Marked(r: InitRequest, now: int): InitRequest { r.(fetchedAt := Some(now), harnessToken := "") }

  /** FetchInit's second half: mark an unfetched row and blank its token. */
  function MarkFetched(t: Tables, code: string, now: int): Result<Tables, StoreError> {
    if code in t.inits && t.inits[code].fetchedAt.None?
    then Ok(t.(inits := t.inits[code := Marked(t.inits[code], now)]))
    else Err(Conflict)
  }
}

/** Pairing codes under any interleaving of claims, polls and bot changes. The
    store has one connection, so each statement and each transaction is a step;
    a fetch is a read and, later, an update. */
module InitFlow {
  import opened Basics
  import opened Protocol
  import opened InitStore

  datatype Claimed = Claimed(code: string, machine: HarnessId, bot: UserId, token: string)

  /** `secret` is what the poll presented, and `at` when it read the row. */
  datatype Handed = Handed(code: string, machine: HarnessId, token: string, secret: string, at: int)

  datatype Poll = Poll(code: string, seen: InitRequest, secret: string, at: int)

  /** `polls` are the fetches between their read and their update. `claims`,
      `handed` and `dropped` are history: claims that succeeded, tokens handed
      out, bots deleted. */
  datatype Flow = Flow(t: Tables, polls: map<nat, Poll>, claims: seq<Claimed>, handed: seq<Handed>,
                       dropped: set<UserId>)

  datatype Event =
    | Start(code: string, pollTokenHash: string, botName: string, harnessName: string, expiresAt: int)
    | Complete(claim: Claimed, m: Machine, now: int)
    | PollRead(p: nat, code: string, pollTokenHash: string, now: int)
    | PollMark(p: nat, now: int)
    | AddBot(id: UserId, b: Bot)
    | ChangeBot(id: UserId, b: Bot)
    | DropBot(id: UserId)

  predicate Enabled(s: Flow, e: Event) {
    match e
    case Complete(c, _, _) => c.token != "" && c.machine != ""
    case PollRead(p, _, _, _) => p !in s.polls
    case PollMark(p, _) => p in s.polls
    case AddBot(id, _) => id !in s.dropped
    case _ => true
  }

  function NewRequest(e: Event): InitRequest
    requires e.Start?
  {
    InitRequest(e.pollTokenHash, e.botName, e.harnessName, e.expiresAt, None, "", "", None, "")
  }

  function With(s: Flow, r: Result<Tables, StoreError>): Flow { if r.Ok? then s.(t := r.value) else s }

  /** The reads of PollInit: the poll secret, then the unexpired row. */
  predicate Readable(t: Tables, code: string, pollTokenHash: string, now: int) {
    code in t.inits && t.inits[code].pollTokenHash != "" && t.inits[code].pollTokenHash == pollTokenHash
    && t.inits[code].expiresAt > now
  }

  function HandOut(x: Poll): Handed { Handed(x.code, x.seen.harnessId, x.seen.harnessToken, x.secret, x.at) }

  function After(s: Flow, e: Event): Flow
    requires Enabled(s, e)
  {
    match e
    case Start(code, _, _, _, _) => With(s, CreateInit(s.t, code, NewRequest(e)))
    case Complete(c, m, now) =>
      var r := CompleteInit(s.t, c.code, now, c.machine, m, c.bot, c.token);
      if r.Ok? then s.(t := r.value, claims := s.claims + [c]) else s
    case PollRead(p, code, secret, now) =>
      if Readable(s.t, code, secret, now) && s.t.inits[code].Claimed()
      then s.(polls := s.polls[p := Poll(code, s.t.inits[code], secret, now)])
      else s
    case PollMark(p, now) =>
      var x := s.polls[p];
      var r := MarkFetched(s.t, x.code, now);
      var s0 := s.(polls := s.polls - {p});
      if r.Ok? then s0.(t := r.value, handed := s.handed + [HandOut(x)]) else s0
    case AddBot(id, b) => With(s, CreateBot(s.t, id, b))
    case ChangeBot(id, b) => With(s, UpdateBot(s.t, id, b))
    case DropBot(id) => With(s, DeleteBot(s.t, id)).(dropped := s.dropped + {id})
  }

  ghost predicate Runs(s: Flow, es: seq<Event>, u: Flow)
    decreases |es|
  {
    if es == [] then s == u else Enabled(s, es[0]) && Runs(After(s, es[0]), es[1..], u)
  }

  const NO_FLOW := Flow(Tables(map[], map[], map[]), map[], [], [], {})

  // --- the invariant ---

  /** A row, now or as some poll read it. */
  ghost predicate RowOk(code: string, r: InitRequest, claims: seq<Claimed>) {
    if r.Claimed() then
      exists c :: c in claims && c.code == code && r.harnessId == c.machine && r.botUserId == c.bot
                  && r.harnessToken == (if r.fetchedAt.None? then c.token else "")
    else r.harnessToken == "" && r.fetchedAt.None?
  }

  type Inits = map<string, InitRequest>

  ghost predicate ClaimsOk(inits: Inits, claims: seq<Claimed>) {
    && (forall c | c in claims :: c.token != "" && c.machine != "" && c.code in inits && inits[c.code].Claimed())
    && (forall i, k | 0 <= i < k < |claims| :: claims[i].code != claims[k].code)
  }

  ghost predicate RowsOk(inits: Inits, claims: seq<Claimed>) {
    forall code | code in inits :: RowOk(code, inits[code], claims)
  }

  /** A token handed out is the one of the code's claim. */
  ghost predicate FromClaim(x: Handed, claims: seq<Claimed>) {
    exists c :: c in claims && c.code == x.code && c.machine == x.machine && c.token == x.token
  }

  ghost predicate HandedOk(inits: Inits, claims: seq<Claimed>, handed: seq<Handed>) {
    && (forall x | x in handed :: x.code in inits && inits[x.code].fetchedAt.Some? && FromClaim(x, claims))
    && (forall i, k | 0 <= i < k < |handed| :: handed[i].code != handed[k].code)
    && (forall code | code in inits && inits[code].fetchedAt.Some? :: exists x :: x in handed && x.code == code)
  }

  ghost predicate PollOk(x: Poll, inits: Inits, claims: seq<Claimed>) {
    && x.code in inits && x.seen.Claimed() && RowOk(x.code, x.seen, claims)
    && (x.seen.fetchedAt.Some? ==> inits[x.code].fetchedAt.Some?)
  }

  ghost predicate PollsOk(polls: map<nat, Poll>, inits: Inits, claims: seq<Claimed>) {
    forall p | p in polls :: PollOk(polls[p], inits, claims)
  }

  ghost predicate BotsOk(machines: map<HarnessId, Machine>, bots: map<UserId, Bot>, dropped: set<UserId>) {
    && (forall b | b in bots && bots[b].harnessId != "" ::
          bots[b].harnessId in machines && machines[bots[b].harnessId].ownerId == bots[b].ownerId)
    && (forall b | b in bots :: b !in dropped)
  }

  ghost predicate BindingsOk(machines: map<HarnessId, Machine>, bots: map<UserId, Bot>, claims: seq<Claimed>,
                             dropped: set<UserId>)
  {
    forall c | c in claims ::
      c.machine in machines && c.machine != ""
        && (c.bot in dropped || (c.bot in bots && bots[c.bot].harnessId == c.machine))
  }

  ghost predicate Inv(s: Flow) {
    && ClaimsOk(s.t.inits, s.claims) && RowsOk(s.t.inits, s.claims)
    && HandedOk(s.t.inits, s.claims, s.handed) && PollsOk(s.polls, s.t.inits, s.claims)
    && BotsOk(s.t.machines, s.t.bots, s.dropped) && BindingsOk(s.t.machines, s.t.bots, s.claims, s.dropped)
  }

  lemma RowLater(code: string, r: InitRequest, claims: seq<Claimed>, c: Claimed)
    requires RowOk(code, r, claims)
    ensures RowOk(code, r, claims + [c])
  {
    if r.Claimed() {
      var d :| d in claims && d.code == code && r.harnessId == d.machine && r.botUserId == d.bot
               && r.harnessToken == (if r.fetchedAt.None? then d.token else "");
      assert d in claims + [c];
    }
  }

  lemma ClaimKeepsRows(inits: Inits, claims: seq<Claimed>, c: Claimed, now: int)
    requires ClaimsOk(inits, claims) && RowsOk(inits, claims) && c.token != "" && c.machine != ""
    requires c.code in inits && !inits[c.code].Claimed()
    ensures var inits' := inits[c.code := Claim(inits[c.code], now, c.machine, c.bot, c.token)];
            ClaimsOk(inits', claims + [c]) && RowsOk(inits', claims + [c])
  {
    var inits' := inits[c.code := Claim(inits[c.code], now, c.machine, c.bot, c.token)];
    assert c in claims + [c];
    forall code | code in inits' ensures RowOk(code, inits'[code], claims + [c]) {
      assert RowOk(code, inits[code], claims);
      if code != c.code { RowLater(code, inits[code], claims, c); }
    }
  }

  lemma ClaimKeepsReads(inits: Inits, claims: seq<Claimed>, handed: seq<Handed>, polls: map<nat, Poll>, c: Claimed,
                        now: int)
    requires HandedOk(inits, claims, handed) && PollsOk(polls, inits, claims) && RowsOk(inits, claims)
    requires c.code in inits && !inits[c.code].Claimed()
    ensures var inits' := inits[c.code := Claim(inits[c.code], now, c.machine, c.bot, c.token)];
            HandedOk(inits', claims + [c], handed) && PollsOk(polls, inits', claims + [c])
  {
    assert RowOk(c.code, inits[c.code], claims);
    hide RowOk;
    forall x | x in handed ensures FromClaim(x, claims + [c]) {
      var d :| d in claims && d.code == x.code && d.machine == x.machine && d.token == x.token;
      assert d in claims + [c];
    }
    forall p | p in polls ensures RowOk(polls[p].code, polls[p].seen, claims + [c]) {
      RowLater(polls[p].code, polls[p].seen, claims, c);
    }
  }

  lemma CompleteKeeps(s: Flow, c: Claimed, m: Machine, now: int)
    requires Inv(s) && Enabled(s, Complete(c, m, now))
    ensures Inv(After(s, Complete(c, m, now)))
  {
    var r := CompleteInit(s.t, c.code, now, c.machine, m, c.bot, c.token);
    if r.Ok? {
      ClaimKeepsRows(s.t.inits, s.claims, c, now);
      ClaimKeepsReads(s.t.inits, s.claims, s.handed, s.polls, c, now);
      ClaimKeepsBots(s, c, m, now);
      hide ClaimsOk, RowsOk, HandedOk, PollsOk, BotsOk, BindingsOk;
    }
  }

  lemma ClaimKeepsBots(s: Flow, c: Claimed, m: Machine, now: int)
    requires BotsOk(s.t.machines, s.t.bots, s.dropped) && BindingsOk(s.t.machines, s.t.bots, s.claims, s.dropped)
    requires c.machine != ""
    requires CompleteInit(s.t, c.code, now, c.machine, m, c.bot, c.token).Ok?
    ensures var t := CompleteInit(s.t, c.code, now, c.machine, m, c.bot, c.token).value;
            BotsOk(t.machines, t.bots, s.dropped) && BindingsOk(t.machines, t.bots, s.claims + [c], s.dropped)
  {
  }

  lemma MarkKeepsRows(inits: Inits, claims: seq<Claimed>, polls: map<nat, Poll>, code: string, now: int)
    requires ClaimsOk(inits, claims) && RowsOk(inits, claims) && PollsOk(polls, inits, claims)
    requires code in inits && inits[code].Claimed()
    ensures var inits' := inits[code := Marked(inits[code], now)];
            ClaimsOk(inits', claims) && RowsOk(inits', claims) && PollsOk(polls, inits', claims)
  {
    assert RowOk(code, inits[code], claims);
  }

  lemma MarkKeepsHanded(inits: Inits, claims: seq<Claimed>, handed: seq<Handed>, x: Poll, now: int)
    requires HandedOk(inits, claims, handed) && PollOk(x, inits, claims) && inits[x.code].fetchedAt.None?
    ensures HandedOk(inits[x.code := Marked(inits[x.code], now)], claims, handed + [HandOut(x)])
  {
    var y := HandOut(x);
    var handed' := handed + [y];
    assert FromClaim(y, claims);
    hide FromClaim, RowOk;
    assert y in handed' && forall z | z in handed :: z in handed';
  }

  lemma MarkKeeps(s: Flow, p: nat, now: int)
    requires Inv(s) && Enabled(s, PollMark(p, now))
    ensures Inv(After(s, PollMark(p, now)))
  {
    var x := s.polls[p];
    assert PollOk(x, s.t.inits, s.claims);
    ReadWasClaimed(s, p);
    if s.t.inits[x.code].fetchedAt.None? {
      MarkKeepsRows(s.t.inits, s.claims, s.polls, x.code, now);
      MarkKeepsHanded(s.t.inits, s.claims, s.handed, x, now);
    }
    hide ClaimsOk, RowsOk, HandedOk, PollOk, BotsOk, BindingsOk;
  }

  lemma ReadWasClaimed(s: Flow, p: nat)
    requires Inv(s) && p in s.polls
    ensures s.polls[p].code in s.t.inits && s.t.inits[s.polls[p].code].Claimed()
  {
    var x := s.polls[p];
    assert PollOk(x, s.t.inits, s.claims);
    var c :| c in s.claims && c.code == x.code;
  }

  lemma StartKeeps(inits: Inits, claims: seq<Claimed>, handed: seq<Handed>, polls: map<nat, Poll>, code: string,
                   r: InitRequest)
    requires ClaimsOk(inits, claims) && RowsOk(inits, claims) && HandedOk(inits, claims, handed)
    requires PollsOk(polls, inits, claims)
    requires code !in inits && !r.Claimed() && r.harnessToken == "" && r.fetchedAt.None?
    ensures var inits' := inits[code := r];
            ClaimsOk(inits', claims) && RowsOk(inits', claims) && HandedOk(inits', claims, handed)
              && PollsOk(polls, inits', claims)
  {
    assert RowOk(code, r, claims);
    hide RowOk, FromClaim;
  }

  lemma BotsKeep(s: Flow, e: Event)
    requires Inv(s) && Enabled(s, e) && (e.AddBot? || e.ChangeBot? || e.DropBot?)
    ensures Inv(After(s, e))
  {
    hide ClaimsOk, RowsOk, HandedOk, PollsOk;
  }

  lemma EventKeeps(s: Flow, e: Event)
    requires Inv(s) && Enabled(s, e)
    ensures Inv(After(s, e))
  {
    match e
    case Complete(c, m, now) => CompleteKeeps(s, c, m, now);
    case PollMark(p, now) => MarkKeeps(s, p, now);
    case PollRead(_, code, _, _) =>
      assert code in s.t.inits ==> RowOk(code, s.t.inits[code], s.claims);
      hide ClaimsOk, HandedOk, BotsOk, BindingsOk, RowOk;
    case Start(code, _, _, _, _) =>
      if code !in s.t.inits { StartKeeps(s.t.inits, s.claims, s.handed, s.polls, code, NewRequest(e)); }
      hide ClaimsOk, RowsOk, HandedOk, PollsOk, BotsOk, BindingsOk;
    case _ => BotsKeep(s, e);
  }

  lemma {:induction false} RunKeeps(s: Flow, es: seq<Event>, u: Flow)
    requires Inv(s) && Runs(s, es, u)
    ensures Inv(u)
    decreases |es|
  {
    if es != [] {
      EventKeeps(s, es[0]);
      RunKeeps(After(s, es[0]), es[1..], u);
    }
  }

  /** A new code starts unclaimed, with the secret and the names it was given;
      a code that is taken stays as it is. */
  lemma StartDoes(s: Flow, code: string, secret: string, bot: string, harness: string, expiresAt: int)
    ensures var u := After(s, Start(code, secret, bot, harness, expiresAt));
            if code in s.t.inits then u == s
            else
              && code in u.t.inits && u == s.(t := s.t.(inits := s.t.inits[code := u.t.inits[code]]))
              && var r := u.t.inits[code];
                 && r.pollTokenHash == secret && r.botName == bot && r.harnessName == harness
                 && r.expiresAt == expiresAt && r.claimedAt == None && r.fetchedAt == None
                 && r.harnessId == "" && r.harnessToken == "" && r.botUserId == ""
  {
  }

  // --- who may fetch ---

  /** The code's own secret, shown before the code expired. */
  predicate Shown(inits: Inits, code: string, secret: string, at: int) {
    code in inits && secret != "" && secret == inits[code].pollTokenHash && at < inits[code].expiresAt
  }

  ghost predicate AllShown(s: Flow) {
    && (forall p | p in s.polls :: Shown(s.t.inits, s.polls[p].code, s.polls[p].secret, s.polls[p].at))
    && (forall x | x in s.handed :: Shown(s.t.inits, x.code, x.secret, x.at))
  }

  /** No event removes a code or changes its secret or its expiry. */
  lemma SecretStays(s: Flow, e: Event, code: string)
    requires Enabled(s, e) && code in s.t.inits
    ensures var inits' := After(s, e).t.inits;
            && code in inits' && inits'[code].pollTokenHash == s.t.inits[code].pollTokenHash
            && inits'[code].expiresAt == s.t.inits[code].expiresAt
  {
  }

  lemma ShownKeeps(s: Flow, e: Event)
    requires AllShown(s) && Enabled(s, e)
    ensures AllShown(After(s, e))
  {
    var u := After(s, e);
    forall code | code in s.t.inits
      ensures code in u.t.inits && u.t.inits[code].pollTokenHash == s.t.inits[code].pollTokenHash
      ensures u.t.inits[code].expiresAt == s.t.inits[code].expiresAt
    {
      SecretStays(s, e, code);
    }
    hide CreateInit, CompleteInit, MarkFetched, CreateBot, UpdateBot, DeleteBot;
  }

  lemma {:induction false} ShownAlways(s: Flow, es: seq<Event>, u: Flow)
    requires AllShown(s) && Runs(s, es, u)
    ensures AllShown(u)
    decreases |es|
  {
    if es != [] {
      ShownKeeps(s, es[0]);
      ShownAlways(After(s, es[0]), es[1..], u);
    }
  }

  /** In every interleaving, a token went only to a poll that showed the secret
      of that very code before the code expired. */
  lemma TokenNeedsTheSecret(es: seq<Event>, s: Flow)
    requires Runs(NO_FLOW, es, s)
    ensures forall x | x in s.handed ::
              && x.code in s.t.inits && x.secret != "" && x.secret == s.t.inits[x.code].pollTokenHash
              && x.at < s.t.inits[x.code].expiresAt
  {
    ShownAlways(NO_FLOW, es, s);
  }

  /** A poll that is not interrupted gets the token exactly if it shows the
      secret of a claimed code in time and no poll got it before. */
  lemma PollHandsOut(s: Flow, p: nat, code: string, secret: string, now: int, later: int)
    requires p !in s.polls
    ensures var read := After(s, PollRead(p, code, secret, now));
            var u := if Enabled(read, PollMark(p, later)) then After(read, PollMark(p, later)) else read;
            if Shown(s.t.inits, code, secret, now) && s.t.inits[code].Claimed() && s.t.inits[code].fetchedAt.None?
            then
              var row := s.t.inits[code];
              && u.handed == s.handed + [Handed(code, row.harnessId, row.harnessToken, secret, now)]
              && u.t.inits[code].harnessToken == "" && u.t.inits[code].fetchedAt.Some?
            else u.handed == s.handed && u.t == s.t
    ensures var read := After(s, PollRead(p, code, secret, now));
            Enabled(read, PollMark(p, later)) ==> After(read, PollMark(p, later)).polls == s.polls
  {
  }

  // --- the theorems ---

  /** In every interleaving: one claim per code, one token per code, it is the
      claim's token, and it is stored exactly while claimed and unfetched. */
  lemma TokenHandedOutOnce(es: seq<Event>, s: Flow)
    requires Runs(NO_FLOW, es, s)
    ensures forall i, k | 0 <= i < k < |s.claims| :: s.claims[i].code != s.claims[k].code
    ensures forall i, k | 0 <= i < k < |s.handed| :: s.handed[i].code != s.handed[k].code
    ensures forall x | x in s.handed :: x.token != "" && FromClaim(x, s.claims)
    ensures forall code | code in s.t.inits ::
              (s.t.inits[code].harnessToken != "" <==> s.t.inits[code].Claimed() && s.t.inits[code].fetchedAt.None?)
    ensures forall code | code in s.t.inits ::
              (s.t.inits[code].fetchedAt.Some? <==> exists x :: x in s.handed && x.code == code)
  {
    RunKeeps(NO_FLOW, es, s);
    forall code | code in s.t.inits
      ensures s.t.inits[code].harnessToken != "" <==> s.t.inits[code].Claimed() && s.t.inits[code].fetchedAt.None?
    {
      assert RowOk(code, s.t.inits[code], s.claims);
    }
  }

  /** Every bot bound to a machine has that machine's owner, and a claimed
      code's bot stays bound to its machine for as long as it exists. */
  lemma BindingFollowsOwner(es: seq<Event>, s: Flow)
    requires Runs(NO_FLOW, es, s)
    ensures forall b | b in s.t.bots && s.t.bots[b].harnessId != "" ::
              s.t.bots[b].harnessId in s.t.machines
                && s.t.machines[s.t.bots[b].harnessId].ownerId == s.t.bots[b].ownerId
    ensures forall code | code in s.t.inits && s.t.inits[code].Claimed() ::
              var r := s.t.inits[code];
              r.harnessId in s.t.machines
                && (r.botUserId in s.t.bots ==> s.t.bots[r.botUserId].harnessId == r.harnessId)
  {
    RunKeeps(NO_FLOW, es, s);
    forall code | code in s.t.inits && s.t.inits[code].Claimed()
      ensures exists c :: c in s.claims && s.t.inits[code].harnessId == c.machine && s.t.inits[code].botUserId == c.bot
    {
      assert RowOk(code, s.t.inits[code], s.claims);
    }
  }
}
