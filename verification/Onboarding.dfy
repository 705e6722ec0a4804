/** `/harness init` and `/harness bot create`: remote steps with compensations,
    then one store transaction. What the outside world answers is a parameter. */
module Onboarding {
  import opened Basics
  import opened Protocol
  import opened InitStore

  /** Mattermost's side: enabled bot accounts and live webhooks. */
  datatype Remote = Remote(enabled: set<string>, incoming: set<string>, outgoing: set<string>)

  datatype World = World(t: Tables, remote: Remote)

  /** One remote create call: what now exists there, the id in the reply (""
      for none), and whether the call returned an error. */
  datatype Made = Made(created: Option<string>, reported: string, failed: bool)

  datatype Undo = Undo(outgoing: bool, incoming: bool, disable: bool, row: bool)

  /** Everything an attempt hears: channel and owner lookups, the normalised
      name and whether it is well formed, then each call in order. */
  datatype Attempt = Attempt(
    channelOk: bool, ownerKnown: bool, username: string, nameOk: bool,
    account: Made, token: string, tokenFailed: bool, inTeam: bool, inChannel: bool,
    incoming: Made, incomingOwner: UserId, outgoing: Made, outgoingToken: string,
    saveOk: bool, commitOk: bool, undo: Undo)

  datatype Args = Args(userId: UserId, teamId: string, channelId: string)

  function Ids(m: Made): set<string> { if m.created.Some? then {m.created.value} else {} }

  predicate Accepted(m: Made) { !m.failed && m.reported != "" }

  // --- the steps ---

  function WithAccount(w: World, m: Made): World { w.(remote := w.remote.(enabled := w.remote.enabled + Ids(m))) }

  function WithIncoming(w: World, m: Made): World { w.(remote := w.remote.(incoming := w.remote.incoming + Ids(m))) }

  function WithOutgoing(w: World, m: Made): World { w.(remote := w.remote.(outgoing := w.remote.outgoing + Ids(m))) }

  function Without(ids: set<string>, id: string, done: bool): set<string> {
    if id != "" && done then ids - {id} else ids
  }

  /** Deletes the hooks it knows of, disables the account, drops the row. */
  function Rollback(w: World, id: UserId, b: Bot, undo: Undo): World {
    World(if id != "" && undo.row then w.t.(bots := w.t.bots - {id}) else w.t,
          Remote(Without(w.remote.enabled, id, undo.disable),
                 Without(w.remote.incoming, b.incomingHook, undo.incoming),
                 Without(w.remote.outgoing, b.outgoingHook, undo.outgoing)))
  }

  /** The checks before anything is created. */
  predicate Allowed(t: Tables, args: Args, a: Attempt) {
    args.userId != "" && a.channelOk && a.ownerKnown && a.nameOk && !NameTaken(t, a.username)
  }

  predicate Joined(a: Attempt) { !a.tokenFailed && a.token != "" && a.inTeam && a.inChannel }

  predicate HookOwned(a: Attempt) { Accepted(a.incoming) && a.incomingOwner == a.account.reported }

  predicate HookCalls(a: Attempt) { Accepted(a.outgoing) && a.outgoingToken != "" }

  /** The bot record, filled in as far as the attempt got. */
  function Draft(args: Args, harness: HarnessId, a: Attempt): Bot {
    Bot(args.userId, a.username, a.token, harness, args.teamId, args.channelId, "", "", "")
  }

  function WithHook(b: Bot, a: Attempt): Bot { b.(incomingHook := a.incoming.reported) }

  function WithTrigger(b: Bot, a: Attempt): Bot {
    b.(outgoingHook := a.outgoing.reported, outgoingToken := a.outgoingToken)
  }

  function Save(t: Tables, id: UserId, b: Bot, ok: bool): Result<Tables, StoreError> {
    if ok then CreateBot(t, id, b) else Err(Conflict)
  }

  datatype Provisioned = Provisioned(id: UserId, bot: Bot)

  function Provision(w: World, args: Args, harness: HarnessId, a: Attempt): (World, Option<Provisioned>) {
    if !Allowed(w.t, args, a) then (w, None)
    else
      var w1 := WithAccount(w, a.account);
      if !Accepted(a.account) then (w1, None)
      else
        var id, b0 := a.account.reported, Draft(args, harness, a);
        if !Joined(a) then (Rollback(w1, id, b0, a.undo), None)
        else
          var w2, b1 := WithIncoming(w1, a.incoming), WithHook(b0, a);
          if !HookOwned(a) then (Rollback(w2, id, b1, a.undo), None)
          else
            var w3, b2 := WithOutgoing(w2, a.outgoing), WithTrigger(b1, a);
            if !HookCalls(a) then (Rollback(w3, id, b2, a.undo), None)
            else
              match Save(w3.t, id, b2, a.saveOk)
              case Ok(t) => (w3.(t := t), Some(Provisioned(id, b2)))
              case Err(_) => (Rollback(w3, id, b2, a.undo), None)
  }

  /** A claim: the code, the clock at its two readings, the new machine. */
  datatype Pairing = Pairing(code: string, now: int, later: int, machine: HarnessId, name: string, tokenHash: string,
                             token: string, installed: bool)

  predicate Claimable(t: Tables, p: Pairing) {
    p.code in t.inits && t.inits[p.code].expiresAt > p.now && !t.inits[p.code].Claimed() && p.installed
  }

  function NewMachine(args: Args, p: Pairing): Machine { Machine(args.userId, p.name, p.tokenHash) }

  function Commit(t: Tables, args: Args, p: Pairing, id: UserId, ok: bool): Result<Tables, StoreError> {
    if ok then CompleteInit(t, p.code, p.later, p.machine, NewMachine(args, p), id, p.token) else Err(Conflict)
  }

  function ClaimInit(w: World, args: Args, p: Pairing, a: Attempt): (World, bool) {
    if !Claimable(w.t, p) then (w, false)
    else
      var (w1, made) := Provision(w, args, "", a);
      match made
      case None => (w1, false)
      case Some(x) =>
        match Commit(w1.t, args, p, x.id, a.commitOk)
        case Ok(t) => (w1.(t := t), true)
        case Err(_) => (Rollback(w1, x.id, x.bot, a.undo), false)
  }

  predicate Bindable(t: Tables, args: Args, harness: HarnessId, installed: bool) {
    harness != "" && harness in t.machines && t.machines[harness].ownerId == args.userId && installed
  }

  /** `/harness bot create`: a further bot for a machine the user owns. */
  function CreateBoundBot(w: World, args: Args, harness: HarnessId, installed: bool, a: Attempt): (World, bool) {
    if !Bindable(w.t, args, harness, installed) then (w, false)
    else
      var (w1, made) := Provision(w, args, harness, a);
      (w1, made.Some?)
  }

  // --- what may be left behind ---

  /** A reply names only what the call created, and ids are new. */
  ghost predicate Sound(m: Made, live: set<string>) {
    && (m.reported != "" ==> m.created == Some(m.reported))
    && (m.created.Some? ==> m.created.value != "" && m.created.value !in live)
  }

  ghost predicate NewIds(w: World, a: Attempt) {
    && Sound(a.account, w.remote.enabled + w.t.bots.Keys)
    && Sound(a.incoming, w.remote.incoming) && Sound(a.outgoing, w.remote.outgoing)
  }

  /** A create call leaves nothing: it made nothing, or the id it gave was
      recorded and the compensation worked. */
  predicate Undone(m: Made, recorded: bool, undone: bool) {
    m.created.None? || (recorded && m.reported != "" && undone)
  }

  /** Every reached call of a failed provisioning leaves nothing. */
  predicate Cleaned(a: Attempt) {
    && Undone(a.account, Accepted(a.account), a.undo.disable)
    && (Accepted(a.account) && Joined(a) ==>
          && Undone(a.incoming, true, a.undo.incoming)
          && (HookOwned(a) ==> Undone(a.outgoing, true, a.undo.outgoing)))
  }

  /** The bot belongs to who asked, where it was asked for, with the answers heard. */
  predicate BotIs(b: Bot, args: Args, harness: HarnessId, a: Attempt) {
    && b.ownerId == args.userId && b.username == a.username && b.token == a.token && b.harnessId == harness
    && b.teamId == args.teamId && b.channelId == args.channelId
    && b.incomingHook == a.incoming.reported
    && b.outgoingHook == a.outgoing.reported && b.outgoingToken == a.outgoingToken
  }

  /** The user, the channel and the owner are known, and the name is well formed
      and new: the attempt goes on to create something. */
  ghost predicate ChecksPass(t: Tables, args: Args, a: Attempt) {
    && args.userId != "" && a.channelOk && a.ownerKnown && a.nameOk
    && (forall b | b in t.bots :: t.bots[b].username != a.username)
  }

  /** The code is there, valid at the first reading of the clock and unclaimed,
      and the team has an installation. */
  predicate CodeOpen(t: Tables, p: Pairing) {
    && p.code in t.inits && p.now < t.inits[p.code].expiresAt && t.inits[p.code].claimedAt.None? && p.installed
  }

  /** What a successful provisioning built. */
  ghost predicate Built(w: World, w': World, args: Args, harness: HarnessId, a: Attempt, x: Provisioned) {
    && x.id == a.account.reported && BotIs(x.bot, args, harness, a)
    && Ids(a.account) == {x.id} && Ids(a.incoming) == {x.bot.incomingHook} && Ids(a.outgoing) == {x.bot.outgoingHook}
    && w'.t == w.t.(bots := w.t.bots[x.id := x.bot]) && x.id !in w.t.bots
    && w'.remote == Remote(w.remote.enabled + {x.id}, w.remote.incoming + {x.bot.incomingHook},
                           w.remote.outgoing + {x.bot.outgoingHook})
  }

  lemma UndoneExactly(ids: set<string>, m: Made, recorded: bool, undone: bool)
    requires Sound(m, ids)
    ensures Without(ids + Ids(m), if recorded then m.reported else "", undone) == ids <==> Undone(m, recorded, undone)
  {
    var left := Without(ids + Ids(m), if recorded then m.reported else "", undone);
    if m.created.Some? {
      assert m.created.value in left <==> !Undone(m, recorded, undone);
      assert forall x | x in ids :: x in left;
    }
  }

  /** Provisioning ends with everything built, or undone exactly when every
      reached call was. */
  lemma ProvisionSettles(w: World, args: Args, harness: HarnessId, a: Attempt)
    requires NewIds(w, a)
    ensures var (w', made) := Provision(w, args, harness, a);
            if made.Some? then Built(w, w', args, harness, a, made.value)
            else (w' == w <==> !ChecksPass(w.t, args, a) || Cleaned(a))
  {
    UndoneExactly(w.remote.enabled, a.account, Accepted(a.account), a.undo.disable);
    UndoneExactly(w.remote.incoming, a.incoming, true, a.undo.incoming);
    UndoneExactly(w.remote.outgoing, a.outgoing, true, a.undo.outgoing);
    if Accepted(a.account) {
      assert w.t.bots - {a.account.reported} == w.t.bots;
    }
  }

  /** The machine belongs to who asked and answers to the token handed out. */
  predicate MachineIs(m: Machine, args: Args, p: Pairing) {
    m.ownerId == args.userId && m.name == p.name && m.tokenHash == p.tokenHash
  }

  /** The claimed row names bot and machine and keeps the token until fetched. */
  predicate ClaimedAs(before: InitRequest, after: InitRequest, p: Pairing, id: UserId) {
    && after.claimedAt == Some(p.later) && after.harnessId == p.machine && after.harnessToken == p.token
    && after.botUserId == id && after.fetchedAt == before.fetchedAt
    && after.pollTokenHash == before.pollTokenHash && after.expiresAt == before.expiresAt
    && after.botName == before.botName && after.harnessName == before.harnessName
  }

  /** Hooks, account, bot row, machine, binding and claimed code, all present
      and naming each other; nothing else changed. */
  ghost predicate Paired(w: World, w': World, args: Args, p: Pairing, a: Attempt) {
    var id := a.account.reported;
    && w'.remote == Remote(w.remote.enabled + {id}, w.remote.incoming + {a.incoming.reported},
                           w.remote.outgoing + {a.outgoing.reported})
    && id !in w.t.bots && id in w'.t.bots && w'.t.bots == w.t.bots[id := w'.t.bots[id]]
    && BotIs(w'.t.bots[id], args, p.machine, a)
    && p.machine !in w.t.machines && p.machine in w'.t.machines
    && w'.t.machines == w.t.machines[p.machine := w'.t.machines[p.machine]]
    && MachineIs(w'.t.machines[p.machine], args, p)
    && p.code in w.t.inits && p.code in w'.t.inits && w'.t.inits == w.t.inits[p.code := w'.t.inits[p.code]]
    && ClaimedAs(w.t.inits[p.code], w'.t.inits[p.code], p, id)
    && w.t.inits[p.code].claimedAt == None && w.t.inits[p.code].expiresAt > p.later
  }

  /** Every check passed and every call answered well; a machine asked for must
      be the user's own. */
  ghost predicate AllWell(t: Tables, args: Args, harness: HarnessId, a: Attempt) {
    && ChecksPass(t, args, a)
    && !a.account.failed && a.account.reported != ""
    && !a.tokenFailed && a.token != "" && a.inTeam && a.inChannel
    && !a.incoming.failed && a.incoming.reported != "" && a.incomingOwner == a.account.reported
    && !a.outgoing.failed && a.outgoing.reported != "" && a.outgoingToken != ""
    && a.saveOk && a.account.reported !in t.bots
    && (harness == "" || (harness in t.machines && t.machines[harness].ownerId == args.userId))
  }

  /** A claim succeeds exactly for a code that is there, unclaimed and valid
      both times the clock is read, when all else goes well and the machine's
      id and token are new. */
  lemma ClaimSucceeds(w: World, args: Args, p: Pairing, a: Attempt)
    ensures ClaimInit(w, args, p, a).1 <==>
              && CodeOpen(w.t, p) && p.later < w.t.inits[p.code].expiresAt
              && AllWell(w.t, args, "", a) && a.commitOk
              && p.machine !in w.t.machines
              && (forall h | h in w.t.machines :: w.t.machines[h].tokenHash != p.tokenHash)
  {
    ProvisionSucceeds(w, args, "", a);
    if CodeOpen(w.t, p) && AllWell(w.t, args, "", a) {
      CommitSucceeds(w, args, p, a);
    }
    hide Provision, AllWell, CompleteInit, Rollback;
  }

  lemma ProvisionSucceeds(w: World, args: Args, harness: HarnessId, a: Attempt)
    ensures Provision(w, args, harness, a).1.Some? <==> AllWell(w.t, args, harness, a)
  {
  }

  lemma CommitSucceeds(w: World, args: Args, p: Pairing, a: Attempt)
    requires AllWell(w.t, args, "", a) && p.code in w.t.inits
    ensures var (w1, made) := Provision(w, args, "", a);
            && made.Some?
            && (Commit(w1.t, args, p, made.value.id, a.commitOk).Ok? <==>
                  a.commitOk && p.later < w.t.inits[p.code].expiresAt && w.t.inits[p.code].claimedAt.None?
                  && p.machine !in w.t.machines
                  && (forall h | h in w.t.machines :: w.t.machines[h].tokenHash != p.tokenHash))
  {
  }

  predicate OwnMachine(t: Tables, args: Args, harness: HarnessId) {
    harness != "" && harness in t.machines && t.machines[harness].ownerId == args.userId
  }

  /** A further bot succeeds exactly on a machine of its owner. */
  lemma BoundBotSucceeds(w: World, args: Args, harness: HarnessId, installed: bool, a: Attempt)
    ensures CreateBoundBot(w, args, harness, installed, a).1 <==>
              OwnMachine(w.t, args, harness) && installed && AllWell(w.t, args, harness, a)
  {
    ProvisionSucceeds(w, args, harness, a);
    hide Provision, AllWell;
  }

  lemma RollbackAfterSave(w: World, w1: World, args: Args, a: Attempt, x: Provisioned)
    requires NewIds(w, a) && Built(w, w1, args, "", a, x)
    ensures Rollback(w1, x.id, x.bot, a.undo) == w <==>
              a.undo.disable && a.undo.incoming && a.undo.outgoing && a.undo.row
  {
    assert x.id in Ids(a.account) && x.bot.incomingHook in Ids(a.incoming) && x.bot.outgoingHook in Ids(a.outgoing);
    assert w.t.bots[x.id := x.bot] - {x.id} == w.t.bots;
    assert w.remote.enabled + {x.id} - {x.id} == w.remote.enabled;
    assert w.remote.incoming + {x.bot.incomingHook} - {x.bot.incomingHook} == w.remote.incoming;
    assert w.remote.outgoing + {x.bot.outgoingHook} - {x.bot.outgoingHook} == w.remote.outgoing;
    assert x.id in w.remote.enabled + {x.id} && x.id in w1.t.bots;
    assert x.bot.incomingHook in w.remote.incoming + {x.bot.incomingHook};
    assert x.bot.outgoingHook in w.remote.outgoing + {x.bot.outgoingHook};
  }

  /** All or nothing, exactly: a claim that fails leaves the world as it was if
      and only if it stopped before creating anything or every reached call
      left nothing, the saved row included. */
  lemma ClaimSettles(w: World, args: Args, p: Pairing, a: Attempt)
    requires NewIds(w, a)
    ensures var (w', ok) := ClaimInit(w, args, p, a);
            if ok then Paired(w, w', args, p, a)
            else w' == w <==>
                 !CodeOpen(w.t, p) || !ChecksPass(w.t, args, a)
                 || (Cleaned(a) && (AllWell(w.t, args, "", a) ==> a.undo.row))
  {
    if Claimable(w.t, p) {
      ProvisionSettles(w, args, "", a);
      var (w1, made) := Provision(w, args, "", a);
      ProvisionSucceeds(w, args, "", a);
      if made.Some? {
        RollbackAfterSave(w, w1, args, a, made.value);
      }
    }
  }

  /** Undo calls succeed, and a call that made something says which id. */
  predicate Helpful(a: Attempt) {
    && a.undo == Undo(true, true, true, true)
    && (forall m | m in {a.account, a.incoming, a.outgoing} :: m.created.Some? ==> m.reported != "")
  }

  /** With such answers one gap remains: an account that is made by a call which
      also returns an error is never disabled. */
  lemma ClaimAllOrNothing(w: World, args: Args, p: Pairing, a: Attempt)
    requires NewIds(w, a) && Helpful(a)
    ensures var (w', ok) := ClaimInit(w, args, p, a);
            if ok then Paired(w, w', args, p, a)
            else w' == w <==> !(CodeOpen(w.t, p) && ChecksPass(w.t, args, a) && a.account.failed
                                && a.account.created.Some?)
  {
    ClaimSettles(w, args, p, a);
  }

  /** The same for a further bot, which is bound to the owner's machine at once. */
  lemma BoundBotAllOrNothing(w: World, args: Args, harness: HarnessId, installed: bool, a: Attempt)
    requires NewIds(w, a) && Helpful(a)
    ensures var (w', ok) := CreateBoundBot(w, args, harness, installed, a);
            if ok then
              && a.account.reported in w'.t.bots
              && Built(w, w', args, harness, a, Provisioned(a.account.reported, w'.t.bots[a.account.reported]))
              && harness in w'.t.machines && w'.t.machines[harness].ownerId == args.userId
            else w' == w <==> !(OwnMachine(w.t, args, harness) && installed && ChecksPass(w.t, args, a)
                                && a.account.failed && a.account.created.Some?)
  {
    ProvisionSettles(w, args, harness, a);
  }

  /** The gap, concretely: the account call times out after it took effect. */
  lemma OrphanAccount()
    ensures var t := Tables(map[], map[], map["code" := InitRequest("p", "", "laptop", 10, None, "", "", None, "")]);
            var w := World(t, Remote({}, {}, {}));
            var a := Attempt(true, true, "harness-ann", true, Made(Some("bot"), "bot", true), "", false, false, false,
                             Made(None, "", true), "", Made(None, "", true), "", true, true,
                             Undo(true, true, true, true));
            var (w', ok) := ClaimInit(w, Args("ann", "team", "town"),
                                      Pairing("code", 1, 2, "hrn", "laptop", "hash", "hrt", true), a);
            NewIds(w, a) && Helpful(a) && !ok && w'.remote.enabled == {"bot"} && w'.t == t
  {
  }
}

/** The same attempts run on objects, compensations included. */
module OnboardingObjects {
  import opened Basics
  import opened Protocol
  import opened InitStore
  import opened Onboarding

  class Store {
    var t: Tables

    constructor ()
      ensures t == Tables(map[], map[], map[])
    {
      t := Tables(map[], map[], map[]);
    }

    method CreateBot(id: UserId, b: Bot) returns (ok: bool)
      modifies this
      ensures var r := InitStore.CreateBot(old(t), id, b); ok == r.Ok? && t == if ok then r.value else old(t)
    {
      if b.harnessId != "" && (b.harnessId !in t.machines || t.machines[b.harnessId].ownerId != b.ownerId) {
        return false;
      }
      if id in t.bots || NameTaken(t, b.username) { return false; }
      t := t.(bots := t.bots[id := b]);
      ok := true;
    }

    method UpdateBot(id: UserId, b: Bot) returns (ok: bool)
      modifies this
      ensures var r := InitStore.UpdateBot(old(t), id, b); ok == r.Ok? && t == if ok then r.value else old(t)
    {
      if b.harnessId != "" && (b.harnessId !in t.machines || t.machines[b.harnessId].ownerId != b.ownerId) {
        return false;
      }
      if id !in t.bots || t.bots[id].ownerId != b.ownerId { return false; }
      if t.bots[id].harnessId != "" && t.bots[id].harnessId != b.harnessId { return false; }
      t := t.(bots := t.bots[id := b.(username := t.bots[id].username)]);
      ok := true;
    }

    method DeleteBot(id: UserId)
      modifies this
      ensures t == old(t).(bots := old(t).bots - {id})
    {
      t := t.(bots := t.bots - {id});
    }

    /** A transaction: the three writes happen together or not at all. */
    method CompleteInit(code: string, now: int, id: HarnessId, m: Machine, bot: UserId, token: string)
      returns (ok: bool)
      modifies this
      ensures var r := InitStore.CompleteInit(old(t), code, now, id, m, bot, token);
              ok == r.Ok? && t == if ok then r.value else old(t)
    {
      if code !in t.inits { return false; }
      var r := t.inits[code];
      if r.expiresAt <= now || r.Claimed() { return false; }
      if bot !in t.bots || t.bots[bot].ownerId != m.ownerId || t.bots[bot].harnessId != "" { return false; }
      if MachineTaken(t, id, m) { return false; }
      t := t.(machines := t.machines[id := m]);
      t := t.(bots := t.bots[bot := t.bots[bot].(harnessId := id)]);
      var claimed := r.(claimedAt := Some(now), harnessId := id, harnessToken := token, botUserId := bot);
      t := t.(inits := t.inits[code := claimed]);
      ok := true;
    }

    /** FetchInit: a claimed row hands its token out once. */
    method FetchInit(code: string, now: int) returns (r: Result<InitRequest, StoreError>)
      modifies this
      ensures code !in old(t).inits || old(t).inits[code].expiresAt <= now ==> r == Err(NotFound) && t == old(t)
      ensures code in old(t).inits && old(t).inits[code].expiresAt > now ==>
                var row := old(t).inits[code];
                if !row.Claimed() then r == Ok(row) && t == old(t)
                else if row.fetchedAt.Some? then r == Err(Conflict) && t == old(t)
                else r == Ok(row.(fetchedAt := Some(now))) && MarkFetched(old(t), code, now) == Ok(t)
    {
      if code !in t.inits { return Err(NotFound); }
      var row := t.inits[code];
      if row.expiresAt <= now { return Err(NotFound); }
      if !row.Claimed() { return Ok(row); }
      if row.fetchedAt.Some? { return Err(Conflict); }
      t := t.(inits := t.inits[code := row.(fetchedAt := Some(now), harnessToken := "")]);
      return Ok(row.(fetchedAt := Some(now)));
    }
  }

  class Mattermost {
    var enabled: set<string>
    var incoming: set<string>
    var outgoing: set<string>

    constructor ()
      ensures enabled == incoming == outgoing == {}
    {
      enabled, incoming, outgoing := {}, {}, {};
    }

    method CreateBot(m: Made)
      modifies this`enabled
      ensures enabled == old(enabled) + Ids(m)
    {
      if m.created.Some? { enabled := enabled + {m.created.value}; }
    }

    method CreateIncomingWebhook(m: Made)
      modifies this`incoming
      ensures incoming == old(incoming) + Ids(m)
    {
      if m.created.Some? { incoming := incoming + {m.created.value}; }
    }

    method CreateOutgoingWebhook(m: Made)
      modifies this`outgoing
      ensures outgoing == old(outgoing) + Ids(m)
    {
      if m.created.Some? { outgoing := outgoing + {m.created.value}; }
    }

    method DeleteOutgoingWebhook(id: string, ok: bool)
      modifies this`outgoing
      ensures outgoing == if ok then old(outgoing) - {id} else old(outgoing)
    {
      if ok { outgoing := outgoing - {id}; }
    }

    method DeleteIncomingWebhook(id: string, ok: bool)
      modifies this`incoming
      ensures incoming == if ok then old(incoming) - {id} else old(incoming)
    {
      if ok { incoming := incoming - {id}; }
    }

    method DisableBot(id: string, ok: bool)
      modifies this`enabled
      ensures enabled == if ok then old(enabled) - {id} else old(enabled)
    {
      if ok { enabled := enabled - {id}; }
    }
  }

  class Onboarder {
    const st: Store
    const p: Mattermost

    constructor (st: Store, p: Mattermost)
      ensures this.st == st && this.p == p
    {
      this.st, this.p := st, p;
    }

    function View(): World
      reads st, p
    {
      World(st.t, Remote(p.enabled, p.incoming, p.outgoing))
    }

    method RollbackBot(id: UserId, b: Bot, undo: Undo)
      modifies st, p
      ensures View() == Rollback(old(View()), id, b, undo)
    {
      if b.outgoingHook != "" { p.DeleteOutgoingWebhook(b.outgoingHook, undo.outgoing); }
      if b.incomingHook != "" { p.DeleteIncomingWebhook(b.incomingHook, undo.incoming); }
      if id != "" {
        p.DisableBot(id, undo.disable);
        if undo.row { st.DeleteBot(id); }
      }
    }

    /** The deferred rollback runs on every error return after the account. */
    method ProvisionBot(args: Args, harness: HarnessId, a: Attempt) returns (made: Option<Provisioned>)
      modifies st, p
      ensures (View(), made) == Provision(old(View()), args, harness, a)
    {
      if args.userId == "" || !a.channelOk || !a.ownerKnown || !a.nameOk { return None; }
      if NameTaken(st.t, a.username) { return None; }
      p.CreateBot(a.account);
      if a.account.failed || a.account.reported == "" { return None; }
      var id := a.account.reported;
      var bot := Bot(args.userId, a.username, "", harness, args.teamId, args.channelId, "", "", "");
      bot := bot.(token := a.token);
      if a.tokenFailed || a.token == "" || !a.inTeam || !a.inChannel {
        RollbackBot(id, bot, a.undo);
        return None;
      }
      p.CreateIncomingWebhook(a.incoming);
      bot := bot.(incomingHook := a.incoming.reported);
      if a.incoming.failed || a.incoming.reported == "" || a.incomingOwner != id {
        RollbackBot(id, bot, a.undo);
        return None;
      }
      p.CreateOutgoingWebhook(a.outgoing);
      bot := bot.(outgoingHook := a.outgoing.reported, outgoingToken := a.outgoingToken);
      if a.outgoing.failed || a.outgoing.reported == "" || a.outgoingToken == "" {
        RollbackBot(id, bot, a.undo);
        return None;
      }
      var saved := false;
      if a.saveOk { saved := st.CreateBot(id, bot); }
      if !saved {
        RollbackBot(id, bot, a.undo);
        return None;
      }
      made := Some(Provisioned(id, bot));
    }

    method ClaimInit(args: Args, c: Pairing, a: Attempt) returns (ok: bool)
      modifies st, p
      ensures (View(), ok) == Onboarding.ClaimInit(old(View()), args, c, a)
    {
      if c.code !in st.t.inits { return false; }
      var req := st.t.inits[c.code];
      if req.expiresAt <= c.now || req.Claimed() || !c.installed { return false; }
      var made := ProvisionBot(args, "", a);
      if made.None? { return false; }
      ok := false;
      if a.commitOk {
        var m := Machine(args.userId, c.name, c.tokenHash);
        ok := st.CompleteInit(c.code, c.later, c.machine, m, made.value.id, c.token);
      }
      if !ok { RollbackBot(made.value.id, made.value.bot, a.undo); }
    }

    method CreateBoundBot(args: Args, harness: HarnessId, installed: bool, a: Attempt) returns (ok: bool)
      modifies st, p
      ensures (View(), ok) == Onboarding.CreateBoundBot(old(View()), args, harness, installed, a)
    {
      if harness == "" || harness !in st.t.machines || st.t.machines[harness].ownerId != args.userId { return false; }
      if !installed { return false; }
      var made := ProvisionBot(args, harness, a);
      ok := made.Some?;
    }
  }
}
