/** One OAuth grant per administrator, copied into the row of every team that
    administrator installed. The authorization server may replace the refresh
    token on every exchange (section 6 of RFC 6749), and any row write may fail. */
module OAuth {
  import opened Basics
  import opened Protocol

  type TeamId = string

  const MINUTE := 60_000

  datatype Credentials = Credentials(accessToken: string, refreshToken: string, expiresAt: int, updatedAt: int)

  /** AES-GCM as an ideal box: it opens only under the team id it was sealed
      for. `Unreadable` is any other text in the column. */
  datatype Sealed = Sealed(aad: TeamId, plain: Credentials) | Unreadable(text: string)

  datatype Installation = Installation(userId: UserId, credentials: Sealed, commandId: string, commandToken: string)

  function Encrypt(team: TeamId, c: Credentials): Sealed { Sealed(team, c) }

  function Decrypt(team: TeamId, s: Sealed): Option<Credentials> {
    if s.Sealed? && s.aad == team && s.plain.accessToken != "" then Some(s.plain) else None
  }

  type Rows = map<TeamId, Installation>

  /** `refresh` is the token the server accepts now, per administrator; `clock`
      is the time of the last operation. */
  datatype Grants = Grants(rows: Rows, refresh: map<UserId, string>, clock: int)

  // --- the token endpoint ---

  /** What the server did with an exchange. `Lost`: it issued a new grant and
      the reply never arrived. An empty `refresh` means none was sent. */
  datatype Reply =
    | Refused
    | Lost(refresh: string)
    | Issued(accessToken: string, refresh: string, ttl: int, bearer: bool)

  /** The credentials the client reads from a reply, if it accepts it. */
  function Exchanged(r: Reply, now: int): Option<Credentials> {
    if r.Issued? && r.accessToken != "" && r.ttl > 0 && r.bearer
    then Some(Credentials(r.accessToken, r.refresh, now + r.ttl, now))
    else None
  }

  function Current(g: Grants, u: UserId): string { if u in g.refresh then g.refresh[u] else "" }

  /** A refresh may keep the old token; a code exchange always sets it. */
  function AfterRefresh(g: Grants, u: UserId, r: Reply): map<UserId, string> {
    if r.Refused? || r.refresh == "" then g.refresh else g.refresh[u := r.refresh]
  }

  function AfterCode(g: Grants, u: UserId, r: Reply): map<UserId, string> {
    if r.Refused? then g.refresh else g.refresh[u := r.refresh]
  }

  // --- the choice of the newest durable copy ---

  predicate Newer(a: Credentials, b: Credentials) {
    a.updatedAt > b.updatedAt || (a.updatedAt == b.updatedAt && a.expiresAt > b.expiresAt)
  }

  predicate Readable(rows: Rows, u: UserId, t: TeamId) {
    t in rows && rows[t].userId == u && Decrypt(t, rows[t].credentials).Some?
  }

  function CopyIn(rows: Rows, u: UserId, t: TeamId): Credentials
    requires Readable(rows, u, t)
  {
    Decrypt(t, rows[t].credentials).value
  }

  function Better(rows: Rows, u: UserId, t: TeamId, best: Credentials): Credentials {
    if Readable(rows, u, t) && Newer(CopyIn(rows, u, t), best) then CopyIn(rows, u, t) else best
  }

  /** The team's own copy, then every other listed row in turn. */
  function Chosen(rows: Rows, u: UserId, team: TeamId, listing: seq<TeamId>): Credentials
    requires Readable(rows, u, team)
  {
    if listing == [] then CopyIn(rows, u, team)
    else Better(rows, u, listing[|listing| - 1], Chosen(rows, u, team, listing[..|listing| - 1]))
  }

  // --- saving and the two operations ---

  /** `saves` are the teams whose write succeeds. */
  function Saved(rows: Rows, u: UserId, c: Credentials, saves: set<TeamId>): Rows {
    map t | t in rows ::
      if rows[t].userId == u && t in saves then rows[t].(credentials := Encrypt(t, c)) else rows[t]
  }

  predicate AllSaved(rows: Rows, u: UserId, saves: set<TeamId>) {
    forall t | t in rows && rows[t].userId == u :: t in saves
  }

  datatype Outcome = Failed(reason: string) | Token(accessToken: string)

  datatype Install = Install(team: TeamId, commandId: string, commandToken: string)

  datatype Event =
    | Client(team: TeamId, listing: seq<TeamId>, reply: Reply, saves: set<TeamId>, now: int)
    // `verified`: the code's user is a known administrator; `install`: the team's own write, if it happens
    | Callback(user: UserId, reply: Reply, verified: bool, saves: set<TeamId>, install: Option<Install>, now: int)

  predicate Fits(g: Grants, e: Event) {
    e.now > g.clock && (e.Client? ==> Elems(e.listing) == g.rows.Keys)
  }

  predicate Due(c: Credentials, now: int) { !(now + MINUTE < c.expiresAt) }

  /** The server turns down every token but the current one. */
  function Answered(g: Grants, u: UserId, presented: string, r: Reply): Reply {
    if presented == Current(g, u) then r else Refused
  }

  function Refreshed(c: Credentials, r: Reply, now: int): Option<Credentials> {
    match Exchanged(r, now)
    case Some(n) => Some(if n.refreshToken == "" then n.(refreshToken := c.refreshToken) else n)
    case None => None
  }

  function RunClient(g: Grants, team: TeamId, listing: seq<TeamId>, reply: Reply, saves: set<TeamId>, now: int)
    : (Grants, Outcome)
  {
    var g0 := g.(clock := now);
    if team !in g.rows then (g0, Failed("not found"))
    else
      var u := g.rows[team].userId;
      if !Readable(g.rows, u, team) then (g0, Failed("cannot decrypt grant"))
      else
        var c := Chosen(g.rows, u, team, listing);
        if !Due(c, now) then (g0, Token(c.accessToken))
        else if c.refreshToken == "" then (g0, Failed("grant expired"))
        else
          var r := Answered(g, u, c.refreshToken, reply);
          var rotated := g0.(refresh := AfterRefresh(g, u, r));
          match Refreshed(c, r, now)
          case None => (rotated, Failed("token request rejected"))
          case Some(n) =>
            (rotated.(rows := Saved(g.rows, u, n, saves)),
             if AllSaved(g.rows, u, saves) then Token(n.accessToken) else Failed("persist shared grant failed"))
  }

  function RunCallback(g: Grants, u: UserId, reply: Reply, verified: bool, saves: set<TeamId>,
                       install: Option<Install>, now: int): Grants
  {
    var rotated := g.(clock := now, refresh := AfterCode(g, u, reply));
    match Exchanged(reply, now)
    case None => rotated
    case Some(c) =>
      if !verified then rotated
      else
        var saved := Saved(g.rows, u, c, saves);
        if install.None? || !AllSaved(g.rows, u, saves) then rotated.(rows := saved)
        else
          var i := install.value;
          rotated.(rows := saved[i.team := Installation(u, Encrypt(i.team, c), i.commandId, i.commandToken)])
  }

  function After(g: Grants, e: Event): Grants {
    match e
    case Client(team, listing, reply, saves, now) => RunClient(g, team, listing, reply, saves, now).0
    case Callback(u, reply, verified, saves, install, now) => RunCallback(g, u, reply, verified, saves, install, now)
  }

  ghost predicate Runs(g: Grants, es: seq<Event>, g': Grants)
    decreases |es|
  {
    if es == [] then g == g' else Fits(g, es[0]) && Runs(After(g, es[0]), es[1..], g')
  }

  const NO_GRANTS := Grants(map[], map[], 0)

  // --- what every run keeps, whatever fails ---

  /** Copies written at the same moment are the same grant, and none is from
      the future. */
  ghost predicate Dated(g: Grants) {
    && (forall u, t | Readable(g.rows, u, t) :: CopyIn(g.rows, u, t).updatedAt <= g.clock)
    && (forall u, t1, t2 | Readable(g.rows, u, t1) && Readable(g.rows, u, t2) ::
          CopyIn(g.rows, u, t1).updatedAt == CopyIn(g.rows, u, t2).updatedAt ==>
              CopyIn(g.rows, u, t1) == CopyIn(g.rows, u, t2))
  }

  /** Every row of `g'` is a row of `g`, or a copy of `c` for `u`. */
  ghost predicate OneWrite(rows: Rows, rows': Rows, u: UserId, c: Credentials) {
    forall t | t in rows' ::
        (t in rows && rows'[t] == rows[t]) || (rows'[t].userId == u && rows'[t].credentials == Encrypt(t, c))
  }

  lemma WriteKeepsDated(g: Grants, g': Grants, u: UserId, c: Credentials)
    requires Dated(g) && g'.clock > g.clock && c.updatedAt == g'.clock && OneWrite(g.rows, g'.rows, u, c)
    ensures Dated(g')
  {
    forall v, t | Readable(g'.rows, v, t)
      ensures (Readable(g.rows, v, t) && CopyIn(g'.rows, v, t) == CopyIn(g.rows, v, t)) || CopyIn(g'.rows, v, t) == c
    {
    }
  }

  lemma EventKeepsDated(g: Grants, e: Event)
    requires Dated(g) && Fits(g, e)
    ensures Dated(After(g, e))
  {
    var g' := After(g, e);
    if g'.rows != g.rows {
      match e
      case Client(team, listing, reply, saves, now) =>
        var u := g.rows[team].userId;
        var c := Chosen(g.rows, u, team, listing);
        WriteKeepsDated(g, g', u, Refreshed(c, Answered(g, u, c.refreshToken, reply), now).value);
      case Callback(u, reply, _, _, _, now) =>
        WriteKeepsDated(g, g', u, Exchanged(reply, now).value);
    }
  }

  lemma {:induction false} RunKeepsDated(g: Grants, es: seq<Event>, g': Grants)
    requires Dated(g) && Runs(g, es, g')
    ensures Dated(g')
    decreases |es|
  {
    if es != [] {
      EventKeepsDated(g, es[0]);
      RunKeepsDated(After(g, es[0]), es[1..], g');
    }
  }

  // --- the choice ---

  /** The choice is a stored copy, and none of the copies looked at is newer. */
  lemma {:induction false} ChosenIsNewest(rows: Rows, u: UserId, team: TeamId, listing: seq<TeamId>)
    requires Readable(rows, u, team)
    ensures var c := Chosen(rows, u, team, listing);
            && (exists t :: Readable(rows, u, t) && c == CopyIn(rows, u, t))
            && !Newer(CopyIn(rows, u, team), c)
            && (forall t | t in listing && Readable(rows, u, t) :: !Newer(CopyIn(rows, u, t), c))
    decreases |listing|
  {
    if listing != [] {
      ChosenIsNewest(rows, u, team, listing[..|listing| - 1]);
      assert listing == listing[..|listing| - 1] + [listing[|listing| - 1]];
    }
  }

  /** Whatever failed before, the row order does not matter. */
  lemma ChoiceIgnoresOrder(es: seq<Event>, g: Grants, u: UserId, team: TeamId, one: seq<TeamId>, other: seq<TeamId>)
    requires Runs(NO_GRANTS, es, g) && Readable(g.rows, u, team)
    requires Elems(one) == Elems(other) == g.rows.Keys
    ensures Chosen(g.rows, u, team, one) == Chosen(g.rows, u, team, other)
  {
    RunKeepsDated(NO_GRANTS, es, g);
    ChosenIsNewest(g.rows, u, team, one);
    ChosenIsNewest(g.rows, u, team, other);
    assert forall t | t in g.rows :: t in Elems(one) && t in Elems(other);
  }

  // --- the grant itself ---

  ghost predicate Newest(rows: Rows, u: UserId, t: TeamId) {
    Readable(rows, u, t) && forall o | Readable(rows, u, o) :: !Newer(CopyIn(rows, u, o), CopyIn(rows, u, t))
  }

  /** The newest durable copies of `u`'s grant hold the token the server accepts. */
  ghost predicate Holds(g: Grants, u: UserId) {
    forall t | Newest(g.rows, u, t) :: CopyIn(g.rows, u, t).refreshToken == Current(g, u)
  }

  ghost predicate HasCopy(rows: Rows, u: UserId) { exists t :: Readable(rows, u, t) }

  lemma NewestExists(rows: Rows, u: UserId, t0: TeamId, listing: seq<TeamId>)
    requires Readable(rows, u, t0) && Elems(listing) == rows.Keys
    ensures exists t :: Newest(rows, u, t) && CopyIn(rows, u, t) == Chosen(rows, u, t0, listing)
  {
    ChosenIsNewest(rows, u, t0, listing);
    var t :| Readable(rows, u, t) && Chosen(rows, u, t0, listing) == CopyIn(rows, u, t);
    assert forall o | o in rows :: o in Elems(listing);
    assert Newest(rows, u, t);
  }

  function Actor(g: Grants, e: Event): UserId {
    match e
    case Client(team, _, _, _, _) => if team in g.rows then g.rows[team].userId else ""
    case Callback(u, _, _, _, _, _) => u
  }

  predicate SavesOne(rows: Rows, u: UserId, saves: set<TeamId>) {
    exists t :: t in rows && rows[t].userId == u && t in saves
  }

  /** The new grant an operation sets out to write, if it gets that far. */
  function NewGrant(g: Grants, e: Event): Option<Credentials> {
    match e
    case Client(team, listing, reply, _, now) => (
      if team !in g.rows || !Readable(g.rows, g.rows[team].userId, team) then None
      else
        var u := g.rows[team].userId;
        var c := Chosen(g.rows, u, team, listing);
        if Due(c, now) && c.refreshToken != "" then Refreshed(c, Answered(g, u, c.refreshToken, reply), now) else None)
    case Callback(_, reply, verified, _, _, now) => if verified then Exchanged(reply, now) else None
  }

  /** The team row an installation writes. */
  function Taken(g: Grants, e: Event): Option<TeamId> {
    if e.Callback? && NewGrant(g, e).Some? && e.install.Some? && AllSaved(g.rows, e.user, e.saves)
    then Some(e.install.value.team) else None
  }

  /** At least one write of a new grant went through. */
  predicate Persisted(g: Grants, e: Event) {
    NewGrant(g, e).Some? && (SavesOne(g.rows, Actor(g, e), e.saves) || Taken(g, e).Some?)
  }

  /** What one operation does to the rows and to the tokens. */
  ghost predicate Effect(g: Grants, g': Grants, u: UserId, grant: Option<Credentials>, saves: set<TeamId>,
                         taken: Option<TeamId>)
  {
    && (forall v | v != u :: Current(g', v) == Current(g, v))
    && (grant.None? ==> g'.rows == g.rows && taken.None?)
    && (grant.Some? ==>
          && grant.value.updatedAt == g'.clock && grant.value.accessToken != ""
          && grant.value.refreshToken == Current(g', u)
          && (forall t | t in g'.rows :: t in g.rows || taken == Some(t))
          && (forall t | t in g.rows ::
              t in g'.rows && (taken != Some(t) && (g.rows[t].userId != u || t !in saves) ==> g'.rows[t] == g.rows[t]))
          && (forall t | (t in g.rows && g.rows[t].userId == u && t in saves) || taken == Some(t) ::
                t in g'.rows && g'.rows[t].userId == u && g'.rows[t].credentials == Encrypt(t, grant.value)))
  }

  lemma ClientEffect(g: Grants, e: Event)
    requires e.Client?
    ensures Effect(g, After(g, e), Actor(g, e), NewGrant(g, e), e.saves, None) && After(g, e).clock == e.now
  {
    hide Chosen, Due, AllSaved, Readable;
  }

  lemma CallbackEffect(g: Grants, e: Event)
    requires e.Callback?
    ensures Effect(g, After(g, e), Actor(g, e), NewGrant(g, e), e.saves, Taken(g, e)) && After(g, e).clock == e.now
  {
  }

  lemma EventEffect(g: Grants, e: Event)
    ensures Effect(g, After(g, e), Actor(g, e), NewGrant(g, e), e.saves, Taken(g, e)) && After(g, e).clock == e.now
  {
    if e.Client? { ClientEffect(g, e); } else { CallbackEffect(g, e); }
    hide After, Effect, NewGrant, Actor;
  }

  /** A saved rotation leaves the actor's newest copies current, even if they
      were stale before. */
  lemma PersistedHolds(g: Grants, e: Event)
    requires Dated(g) && Fits(g, e) && Persisted(g, e)
    ensures Holds(After(g, e), Actor(g, e))
  {
    EventEffect(g, e);
    WrittenIsNewest(g, After(g, e), Actor(g, e), NewGrant(g, e).value, e.saves, Taken(g, e));
  }

  lemma WrittenIsNewest(g: Grants, g': Grants, u: UserId, c: Credentials, saves: set<TeamId>, taken: Option<TeamId>)
    requires Dated(g) && g'.clock > g.clock && Effect(g, g', u, Some(c), saves, taken)
    requires SavesOne(g.rows, u, saves) || taken.Some?
    ensures Holds(g', u)
  {
    var written := if taken.Some? then taken.value
                   else (var t :| t in g.rows && g.rows[t].userId == u && t in saves; t);
    assert Readable(g'.rows, u, written) && CopyIn(g'.rows, u, written) == c;
    forall t | Readable(g'.rows, u, t)
      ensures CopyIn(g'.rows, u, t) == c || CopyIn(g'.rows, u, t).updatedAt < c.updatedAt
    {
      if g'.rows[t].credentials != Encrypt(t, c) {
        assert Readable(g.rows, u, t) && CopyIn(g'.rows, u, t) == CopyIn(g.rows, u, t);
      }
    }
  }

  /** Exactly when an operation keeps its administrator's grant usable: unless
      the server replaced the token and not one copy of the new one was saved. */
  lemma ActorKeeps(g: Grants, e: Event)
    requires Dated(g) && Fits(g, e) && Holds(g, Actor(g, e))
    ensures var u, g' := Actor(g, e), After(g, e);
            Holds(g', u) <==> Current(g', u) == Current(g, u) || Persisted(g, e) || !HasCopy(g.rows, u)
  {
    EventEffect(g, e);
    if Persisted(g, e) {
      PersistedHolds(g, e);
    } else {
      NothingWritten(g, After(g, e), Actor(g, e), NewGrant(g, e), e.saves);
    }
  }

  lemma NothingWritten(g: Grants, g': Grants, u: UserId, grant: Option<Credentials>, saves: set<TeamId>)
    requires Effect(g, g', u, grant, saves, None) && (grant.None? || !SavesOne(g.rows, u, saves)) && Holds(g, u)
    ensures Holds(g', u) <==> Current(g', u) == Current(g, u) || !HasCopy(g.rows, u)
  {
    assert g'.rows == g.rows;
    if t :| Readable(g.rows, u, t) {
      var listing := SomeListing(g.rows.Keys);
      NewestExists(g.rows, u, t, listing);
    }
  }

  lemma SomeListing(keys: set<TeamId>) returns (listing: seq<TeamId>)
    ensures Elems(listing) == keys
    decreases |keys|
  {
    if keys == {} {
      listing := [];
    } else {
      var t :| t in keys;
      var rest := SomeListing(keys - {t});
      listing := [t] + rest;
      assert forall x :: x in Elems(listing) <==> x == t || x in Elems(rest);
    }
  }

  /** Another newest copy of `v` remains without the row of `t`. */
  ghost predicate Spare(rows: Rows, v: UserId, t: TeamId) {
    (exists o :: o != t && Newest(rows, v, o)) || (forall o | Readable(rows, v, o) :: o == t)
  }

  /** An administrator who takes over another's team leaves the other's grant
      usable if another newest copy remains; everything else never touches it. */
  lemma BystanderKeeps(g: Grants, e: Event, v: UserId)
    requires Dated(g) && Fits(g, e) && Holds(g, v) && v != Actor(g, e)
    requires Taken(g, e).Some? && Readable(g.rows, v, Taken(g, e).value) ==> Spare(g.rows, v, Taken(g, e).value)
    ensures Holds(After(g, e), v)
  {
    EventEffect(g, e);
    RowsOfOthers(g, After(g, e), Actor(g, e), NewGrant(g, e), e.saves, Taken(g, e), v);
  }

  lemma RowsWithout(g: Grants, g': Grants, u: UserId, grant: Option<Credentials>, saves: set<TeamId>,
                    taken: Option<TeamId>, v: UserId)
    requires Effect(g, g', u, grant, saves, taken) && v != u
    ensures forall t :: Readable(g'.rows, v, t) <==> Readable(g.rows, v, t) && taken != Some(t)
    ensures forall t | Readable(g'.rows, v, t) :: CopyIn(g'.rows, v, t) == CopyIn(g.rows, v, t)
    ensures Current(g', v) == Current(g, v)
  {
  }

  lemma RowsOfOthers(g: Grants, g': Grants, u: UserId, grant: Option<Credentials>, saves: set<TeamId>,
                     taken: Option<TeamId>, v: UserId)
    requires Effect(g, g', u, grant, saves, taken) && v != u && Holds(g, v)
    requires taken.Some? && Readable(g.rows, v, taken.value) ==> Spare(g.rows, v, taken.value)
    ensures Holds(g', v)
  {
    RowsWithout(g, g', u, grant, saves, taken, v);
    OneLess(g.rows, g'.rows, v, taken, Current(g, v));
  }

  lemma OneLess(rows: Rows, rows': Rows, v: UserId, taken: Option<TeamId>, token: string)
    requires forall t :: Readable(rows', v, t) <==> Readable(rows, v, t) && taken != Some(t)
    requires forall t | Readable(rows', v, t) :: CopyIn(rows', v, t) == CopyIn(rows, v, t)
    requires taken.Some? && Readable(rows, v, taken.value) ==> Spare(rows, v, taken.value)
    requires forall t | Newest(rows, v, t) :: CopyIn(rows, v, t).refreshToken == token
    ensures forall t | Newest(rows', v, t) :: CopyIn(rows', v, t).refreshToken == token
  {
    hide Readable, CopyIn;
    forall t | Newest(rows', v, t)
      ensures Newest(rows, v, t)
    {
      if taken.Some? && Readable(rows, v, taken.value) {
        var o :| o != taken.value && Newest(rows, v, o);
        assert !Newer(CopyIn(rows, v, o), CopyIn(rows, v, t));
      }
    }
  }

  /** Copies with the same token are copies of the same grant. */
  ghost predicate OwnTokens(rows: Rows, v: UserId) {
    forall a, b | Readable(rows, v, a) && Readable(rows, v, b) ::
      CopyIn(rows, v, a).refreshToken == CopyIn(rows, v, b).refreshToken ==>
          CopyIn(rows, v, a).updatedAt == CopyIn(rows, v, b).updatedAt
  }

  /** When every grant of `v` carries its own token, that condition is exact. */
  lemma TakeoverExactly(g: Grants, e: Event, v: UserId)
    requires Dated(g) && Fits(g, e) && Holds(g, v) && v != Actor(g, e)
    ensures OwnTokens(g.rows, v) && Taken(g, e).Some? && Readable(g.rows, v, Taken(g, e).value) ==>
              (Holds(After(g, e), v) <==> Spare(g.rows, v, Taken(g, e).value))
  {
    if !OwnTokens(g.rows, v) || Taken(g, e).None? || !Readable(g.rows, v, Taken(g, e).value) { return; }
    var g', taken := After(g, e), Taken(g, e).value;
    if Spare(g.rows, v, taken) {
      BystanderKeeps(g, e, v);
    } else {
      EventEffect(g, e);
      RowsWithout(g, g', Actor(g, e), NewGrant(g, e), e.saves, Taken(g, e), v);
      hide After, Taken, Actor, NewGrant, Effect;
      var o :| Readable(g.rows, v, o) && o != taken;
      assert Readable(g'.rows, v, o);
      var all := SomeListing(g.rows.Keys);
      NewestExists(g.rows, v, o, all);
      assert Newest(g.rows, v, taken);
      var rest := SomeListing(g'.rows.Keys);
      NewestExists(g'.rows, v, o, rest);
      var n :| Newest(g'.rows, v, n);
      assert !Newest(g.rows, v, n);
      assert Newer(CopyIn(g.rows, v, taken), CopyIn(g.rows, v, n));
    }
  }

  /** A rotation is saved at least once, and a takeover leaves a newest copy. */
  ghost predicate Careful(g: Grants, e: Event) {
    && (Current(After(g, e), Actor(g, e)) == Current(g, Actor(g, e)) || Persisted(g, e)
        || !HasCopy(g.rows, Actor(g, e)))
    && (forall v | v != Actor(g, e) && Taken(g, e).Some? && Readable(g.rows, v, Taken(g, e).value) ::
        Spare(g.rows, v, Taken(g, e).value))
  }

  ghost predicate CarefulRun(g: Grants, es: seq<Event>, g': Grants)
    decreases |es|
  {
    if es == [] then g == g'
    else Fits(g, es[0]) && Careful(g, es[0]) && CarefulRun(After(g, es[0]), es[1..], g')
  }

  lemma {:induction false} CarefulRunHolds(g: Grants, es: seq<Event>, g': Grants)
    requires Dated(g) && (forall u :: Holds(g, u)) && CarefulRun(g, es, g')
    ensures Dated(g') && forall u :: Holds(g', u)
    decreases |es|
  {
    if es != [] {
      var e := es[0];
      EventKeepsDated(g, e);
      forall u ensures Holds(After(g, e), u) {
        if u == Actor(g, e) { ActorKeeps(g, e); } else { BystanderKeeps(g, e, u); }
      }
      CarefulRunHolds(After(g, e), es[1..], g');
    }
  }

  /** Shared grant rotation: however many row writes failed, the credential
      `Client` picks holds the server's current refresh token, for every team
      and every row order, and so the server never refuses it as stale. */
  lemma ClientPresentsTheCurrentToken(es: seq<Event>, g: Grants, u: UserId, team: TeamId, listing: seq<TeamId>,
                                      r: Reply)
    requires CarefulRun(NO_GRANTS, es, g) && Readable(g.rows, u, team) && Elems(listing) == g.rows.Keys
    ensures Chosen(g.rows, u, team, listing).refreshToken == Current(g, u)
    ensures Answered(g, u, Chosen(g.rows, u, team, listing).refreshToken, r) == r
  {
    CarefulRunHolds(NO_GRANTS, es, g);
    assert Holds(g, u);
    NewestExists(g.rows, u, team, listing);
    var t :| Newest(g.rows, u, t) && CopyIn(g.rows, u, t) == Chosen(g.rows, u, team, listing);
  }

  // --- where the condition is needed ---

  function Row(u: UserId, team: TeamId, c: Credentials): Installation {
    Installation(u, Encrypt(team, c), "cmd", "key")
  }

  function Grant(refresh: string, at: int): Credentials { Credentials("access", refresh, at + 1, at) }

  function Authorize(u: UserId, refresh: string, saves: set<TeamId>, install: Option<TeamId>, at: int): Event {
    Callback(u, Issued("access", refresh, 1, true), true, saves,
             if install.Some? then Some(Install(install.value, "cmd", "key")) else None, at)
  }

  const FIRST := Grants(map["one" := Row("ann", "one", Grant("r1", 1))], map["ann" := "r1"], 1)
  const BOTH := Grants(map["one" := Row("ann", "one", Grant("r2", 2)), "two" := Row("ann", "two", Grant("r2", 2))],
                       map["ann" := "r2"], 2)

  /** Ann's two teams after her third authorization, whose write reached only
      the first row; then Bob installs that first team. */
  const SPLIT := Grants(map["one" := Row("ann", "one", Grant("r3", 3)), "two" := Row("ann", "two", Grant("r2", 2))],
                        map["ann" := "r3"], 3)
  const TAKEN_OVER := Grants(map["one" := Row("bob", "one", Grant("s1", 4)),
                                 "two" := Row("ann", "two", Grant("r2", 2))],
                             map["ann" := "r3", "bob" := "s1"], 4)

  const INSTALL_ONE := Authorize("ann", "r1", {}, Some("one"), 1)
  const INSTALL_TWO := Authorize("ann", "r2", {"one"}, Some("two"), 2)
  const HALF_SAVED := Authorize("ann", "r3", {"one"}, None, 3)
  const TAKEOVER := Authorize("bob", "s1", {}, Some("one"), 4)

  lemma FirstStep()
    ensures Fits(NO_GRANTS, INSTALL_ONE) && Careful(NO_GRANTS, INSTALL_ONE) && After(NO_GRANTS, INSTALL_ONE) == FIRST
  {
  }

  lemma SecondStep()
    ensures Fits(FIRST, INSTALL_TWO) && Careful(FIRST, INSTALL_TWO) && After(FIRST, INSTALL_TWO) == BOTH
  {
    assert FIRST.rows["one"].userId == "ann";
  }

  lemma ThirdStep()
    ensures Fits(BOTH, HALF_SAVED) && Careful(BOTH, HALF_SAVED) && After(BOTH, HALF_SAVED) == SPLIT
  {
    assert BOTH.rows["one"].userId == "ann" && BOTH.rows["two"].userId == "ann";
  }

  lemma SplitIsReached()
    ensures CarefulRun(NO_GRANTS, [INSTALL_ONE, INSTALL_TWO, HALF_SAVED], SPLIT)
  {
    FirstStep();
    SecondStep();
    ThirdStep();
    hide After, Careful, Fits;
    assert [INSTALL_ONE, INSTALL_TWO, HALF_SAVED][1..] == [INSTALL_TWO, HALF_SAVED];
    assert [INSTALL_TWO, HALF_SAVED][1..] == [HALF_SAVED] && [HALF_SAVED][1..] == [];
    assert CarefulRun(BOTH, [HALF_SAVED], SPLIT);
    assert CarefulRun(FIRST, [INSTALL_TWO, HALF_SAVED], SPLIT);
  }

  lemma TakeoverStep()
    ensures Fits(SPLIT, TAKEOVER) && After(SPLIT, TAKEOVER) == TAKEN_OVER
  {
  }

  /** A run that is careful throughout, and after it one takeover that leaves
      Ann's grant stale: the condition on takeovers cannot be dropped. */
  lemma TakeoverLosesTheGrant()
    ensures exists es :: CarefulRun(NO_GRANTS, es, SPLIT)
    ensures Fits(SPLIT, TAKEOVER) && After(SPLIT, TAKEOVER) == TAKEN_OVER
    ensures Holds(SPLIT, "ann") && !Holds(TAKEN_OVER, "ann")
  {
    SplitIsReached();
    TakeoverStep();
    assert Dated(NO_GRANTS) && forall u :: Holds(NO_GRANTS, u);
    CarefulRunHolds(NO_GRANTS, [INSTALL_ONE, INSTALL_TWO, HALF_SAVED], SPLIT);
    assert Holds(SPLIT, "ann");
    hide After, CarefulRun, Fits, Holds;
    AnnIsStale();
  }

  lemma AnnIsStale()
    ensures !Holds(TAKEN_OVER, "ann")
  {
    assert Newest(TAKEN_OVER.rows, "ann", "two");
  }
}

/** The service's objects: `Client`, the code callback and their two loops. */
module OAuthObjects {
  import opened Basics
  import opened Protocol
  import opened OAuth

  /** The token endpoint, with the replies it will give supplied by the caller. */
  class TokenServer {
    var current: map<UserId, string>

    constructor ()
      ensures current == map[]
    {
      current := map[];
    }

    method Refresh(u: UserId, presented: string, reply: Reply) returns (r: Reply)
      modifies this
      ensures r == Answered(Grants(map[], old(current), 0), u, presented, reply)
      ensures current == AfterRefresh(Grants(map[], old(current), 0), u, r)
    {
      r := if presented == (if u in current then current[u] else "") then reply else Refused;
      if !r.Refused? && r.refresh != "" {
        current := current[u := r.refresh];
      }
    }

    method Authorize(u: UserId, reply: Reply)
      modifies this
      ensures current == AfterCode(Grants(map[], old(current), 0), u, reply)
    {
      if !reply.Refused? {
        current := current[u := reply.refresh];
      }
    }
  }

  /** No write failed among the rows tried so far. */
  predicate SavedAmong(rows: Rows, u: UserId, saves: set<TeamId>, tried: set<TeamId>) {
    forall t | t in rows && rows[t].userId == u && t in tried :: t in saves
  }

  lemma SaveOne(start: Rows, u: UserId, c: Credentials, saves: set<TeamId>, tried: set<TeamId>, t: TeamId)
    requires t in start
    ensures var before, after := Saved(start, u, c, saves * tried), Saved(start, u, c, saves * (tried + {t}));
            && before[t].userId == start[t].userId
            && after ==
               if start[t].userId == u && t in saves then before[t := before[t].(credentials := Encrypt(t, c))]
               else before
    ensures SavedAmong(start, u, saves, tried + {t}) <==>
              SavedAmong(start, u, saves, tried) && (start[t].userId == u ==> t in saves)
  {
  }

  lemma SaveAll(start: Rows, u: UserId, c: Credentials, saves: set<TeamId>)
    ensures Saved(start, u, c, saves * start.Keys) == Saved(start, u, c, saves)
    ensures SavedAmong(start, u, saves, start.Keys) == AllSaved(start, u, saves)
  {
  }

  class Service {
    const server: TokenServer
    var rows: Rows
    var clock: int

    constructor (server: TokenServer)
      ensures this.server == server && View() == Grants(map[], server.current, 0)
    {
      this.server := server;
      rows, clock := map[], 0;
    }

    function View(): Grants
      reads this, server
    {
      Grants(rows, server.current, clock)
    }

    /** The newest durable copy: start from the team's own row, skip it and
        other installers' rows, and take every strictly newer readable copy. */
    method Newest(team: TeamId, listing: seq<TeamId>) returns (cred: Credentials)
      requires team in rows && Readable(rows, rows[team].userId, team)
      ensures cred == Chosen(rows, rows[team].userId, team, listing)
    {
      var u := rows[team].userId;
      cred := Decrypt(team, rows[team].credentials).value;
      for i := 0 to |listing|
        invariant cred == Chosen(rows, u, team, listing[..i])
      {
        assert listing[..i + 1][..i] == listing[..i];
        ChosenIsNewest(rows, u, team, listing[..i]);
        var t := listing[i];
        if t !in rows || rows[t].userId != u || t == team { continue; }
        var candidate := Decrypt(t, rows[t].credentials);
        if candidate.None? { continue; }
        if candidate.value.updatedAt > cred.updatedAt ||
           (candidate.value.updatedAt == cred.updatedAt && candidate.value.expiresAt > cred.expiresAt) {
          cred := candidate.value;
        }
      }
      assert listing[..|listing|] == listing;
    }

    /** Writes every row of the user; a failed write is remembered, not fatal. */
    method SaveCredentials(u: UserId, cred: Credentials, listing: seq<TeamId>, saves: set<TeamId>) returns (ok: bool)
      requires Elems(listing) == rows.Keys
      modifies this`rows
      ensures rows == Saved(old(rows), u, cred, saves) && ok == AllSaved(old(rows), u, saves)
    {
      ghost var start := rows;
      ok := true;
      for i := 0 to |listing|
        invariant rows == Saved(start, u, cred, saves * Elems(listing[..i]))
        invariant ok == SavedAmong(start, u, saves, Elems(listing[..i]))
      {
        var t := listing[i];
        assert t in Elems(listing);
        assert Elems(listing[..i + 1]) == Elems(listing[..i]) + {t};
        SaveOne(start, u, cred, saves, Elems(listing[..i]), t);
        if rows[t].userId != u { continue; }
        if t in saves {
          rows := rows[t := rows[t].(credentials := Encrypt(t, cred))];
        } else {
          ok := false;
        }
      }
      assert listing[..|listing|] == listing;
      SaveAll(start, u, cred, saves);
    }

    method Client(team: TeamId, listing: seq<TeamId>, reply: Reply, saves: set<TeamId>, now: int) returns (out: Outcome)
      requires Elems(listing) == rows.Keys
      modifies this, server
      ensures (View(), out) == RunClient(old(View()), team, listing, reply, saves, now)
    {
      clock := now;
      if team !in rows { return Failed("not found"); }
      var u := rows[team].userId;
      if Decrypt(team, rows[team].credentials).None? { return Failed("cannot decrypt grant"); }
      var cred := Newest(team, listing);
      if !(now + MINUTE < cred.expiresAt) {
        if cred.refreshToken == "" { return Failed("grant expired"); }
        var r := server.Refresh(u, cred.refreshToken, reply);
        var n := Exchanged(r, now);
        if n.None? { return Failed("token request rejected"); }
        var refreshed := n.value;
        if refreshed.refreshToken == "" {
          refreshed := refreshed.(refreshToken := cred.refreshToken);
        }
        var ok := SaveCredentials(u, refreshed, listing, saves);
        if !ok { return Failed("persist shared grant failed"); }
        cred := refreshed;
      }
      out := Token(cred.accessToken);
    }

    method Callback(u: UserId, reply: Reply, verified: bool, listing: seq<TeamId>, saves: set<TeamId>,
                    install: Option<Install>, now: int)
      requires Elems(listing) == rows.Keys
      modifies this, server
      ensures View() == RunCallback(old(View()), u, reply, verified, saves, install, now)
    {
      clock := now;
      server.Authorize(u, reply);
      var n := Exchanged(reply, now);
      if n.None? || !verified { return; }
      var ok := SaveCredentials(u, n.value, listing, saves);
      if !ok || install.None? { return; }
      var i := install.value;
      rows := rows[i.team := Installation(u, Encrypt(i.team, n.value), i.commandId, i.commandToken)];
    }
  }
}
