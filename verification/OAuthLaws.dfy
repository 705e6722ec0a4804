/** What one call of the service hands out, refuses and writes, said about the
    stored rows, the server's token and the reply themselves. */
module OAuthLaws {
  import opened Basics
  import opened Protocol
  import opened OAuth

  /** A row of `u` holds this grant, sealed for its own team. */
  predicate Stores(rows: Rows, u: UserId, t: TeamId, c: Credentials) {
    && t in rows && rows[t].userId == u && rows[t].credentials == Sealed(t, c) && c.accessToken != ""
  }

  /** The newest grant stored for `u`: by its time of writing, then by its expiry. */
  ghost predicate NewestGrant(rows: Rows, u: UserId, c: Credentials) {
    && (exists t :: Stores(rows, u, t, c))
    && (forall t, o | Stores(rows, u, t, o) ::
          o.updatedAt < c.updatedAt || (o.updatedAt == c.updatedAt && o.expiresAt <= c.expiresAt))
  }

  /** It outlives a request that starts now by more than a minute. */
  predicate Lasting(c: Credentials, now: int) { now + 60_000 < c.expiresAt }

  /** A reply the service takes: an access token of type bearer with a lifetime. */
  predicate Accepted(r: Reply) { r.Issued? && r.accessToken != "" && r.ttl > 0 && r.bearer }

  /** The server takes the presented token and its reply is a good one. */
  predicate Renews(g: Grants, u: UserId, c: Credentials, r: Reply) {
    c.refreshToken == (if u in g.refresh then g.refresh[u] else "") && Accepted(r)
  }

  /** The grant a good reply makes of `c`; a reply without a refresh token keeps the old one. */
  function RenewedGrant(c: Credentials, r: Reply, now: int): Credentials
    requires Accepted(r)
  {
    Credentials(r.accessToken, if r.refresh == "" then c.refreshToken else r.refresh, now + r.ttl, now)
  }

  /** Some row of `u` cannot be written. */
  ghost predicate SomeWriteFails(rows: Rows, u: UserId, saves: set<TeamId>) {
    exists t :: t in rows && rows[t].userId == u && t !in saves
  }

  /** The rows of `u` whose write succeeds hold `c`; no other row differs, and
      none changes its command. */
  ghost predicate Rewritten(rows: Rows, rows': Rows, u: UserId, c: Credentials, saves: set<TeamId>) {
    && rows'.Keys == rows.Keys
    && (forall t | t in rows ::
          && rows'[t].userId == rows[t].userId
          && rows'[t].commandId == rows[t].commandId && rows'[t].commandToken == rows[t].commandToken
          && rows'[t].credentials == (if rows[t].userId == u && t in saves then Sealed(t, c) else rows[t].credentials))
  }

  lemma StoresIsReadable(rows: Rows, u: UserId)
    ensures forall t, c :: Stores(rows, u, t, c) <==> Readable(rows, u, t) && CopyIn(rows, u, t) == c
  {
  }

  /** The credential `Client` works with is the newest grant, in every run. */
  lemma ChosenIsNewestGrant(g: Grants, u: UserId, team: TeamId, listing: seq<TeamId>, c: Credentials)
    requires Dated(g) && Readable(g.rows, u, team) && Elems(listing) == g.rows.Keys && NewestGrant(g.rows, u, c)
    ensures Chosen(g.rows, u, team, listing) == c
  {
    StoresIsReadable(g.rows, u);
    NewestExists(g.rows, u, team, listing);
    var n :| Newest(g.rows, u, n) && CopyIn(g.rows, u, n) == Chosen(g.rows, u, team, listing);
    var t :| Stores(g.rows, u, t, c);
    assert Stores(g.rows, u, n, CopyIn(g.rows, u, n));
    assert !Newer(CopyIn(g.rows, u, t), CopyIn(g.rows, u, n));
    hide Chosen, Readable, Newest, Stores;
  }

  lemma SavedRewrites(rows: Rows, u: UserId, c: Credentials, saves: set<TeamId>)
    ensures Rewritten(rows, Saved(rows, u, c, saves), u, c, saves)
    ensures AllSaved(rows, u, saves) <==> !SomeWriteFails(rows, u, saves)
  {
  }

  /** A team that is not there, or whose own row no longer opens, is refused
      and nothing changes. */
  lemma ClientNeedsItsRow(g: Grants, team: TeamId, listing: seq<TeamId>, reply: Reply, saves: set<TeamId>, now: int)
    ensures var (g', out) := RunClient(g, team, listing, reply, saves, now);
            && (out == Failed("not found") <==> team !in g.rows)
            && (out == Failed("cannot decrypt grant") <==>
                  team in g.rows && forall c :: !Stores(g.rows, g.rows[team].userId, team, c))
            && (out == Failed("not found") || out == Failed("cannot decrypt grant") ==> g' == g.(clock := now))
  {
    if team in g.rows {
      StoresIsReadable(g.rows, g.rows[team].userId);
      if Readable(g.rows, g.rows[team].userId, team) {
        assert Stores(g.rows, g.rows[team].userId, team, CopyIn(g.rows, g.rows[team].userId, team));
      }
    }
  }

  /** Over any run: which answer `Client` gives, and when. A lasting grant is
      handed out and nothing changes; any other is renewed first, and each
      failure of that is its own answer. */
  lemma ClientAnswers(es: seq<Event>, g: Grants, team: TeamId, listing: seq<TeamId>, reply: Reply, saves: set<TeamId>,
                      now: int, c: Credentials)
    requires Runs(NO_GRANTS, es, g) && Elems(listing) == g.rows.Keys
    requires team in g.rows && Readable(g.rows, g.rows[team].userId, team)
    requires NewestGrant(g.rows, g.rows[team].userId, c)
    ensures var u, (g', out) := g.rows[team].userId, RunClient(g, team, listing, reply, saves, now);
            if Lasting(c, now) then out == Token(c.accessToken) && g' == g.(clock := now)
            else
              && (out == Failed("grant expired") <==> c.refreshToken == "")
              && (out == Failed("token request rejected") <==> c.refreshToken != "" && !Renews(g, u, c, reply))
              && (out == Failed("persist shared grant failed") <==>
                    c.refreshToken != "" && Renews(g, u, c, reply) && SomeWriteFails(g.rows, u, saves))
              && (out.Token? <==>
                    c.refreshToken != "" && Renews(g, u, c, reply) && !SomeWriteFails(g.rows, u, saves))
              && (out.Token? ==> out.accessToken == reply.accessToken)
  {
    var u := g.rows[team].userId;
    RunKeepsDated(NO_GRANTS, es, g);
    ChosenIsNewestGrant(g, u, team, listing, c);
    if !Lasting(c, now) && Renews(g, u, c, reply) {
      SavedRewrites(g.rows, u, RenewedGrant(c, reply, now), saves);
    }
    hide Runs, Chosen, NewestGrant, Saved, AllSaved, Dated;
  }

  /** The call once its credential is known. */
  lemma ClientShape(g: Grants, team: TeamId, listing: seq<TeamId>, reply: Reply, saves: set<TeamId>, now: int,
                    c: Credentials)
    requires team in g.rows && Readable(g.rows, g.rows[team].userId, team)
    requires Chosen(g.rows, g.rows[team].userId, team, listing) == c
    ensures var u, g' := g.rows[team].userId, RunClient(g, team, listing, reply, saves, now).0;
            if Lasting(c, now) || c.refreshToken == "" then g'.rows == g.rows && g'.refresh == g.refresh
            else
              && g'.refresh == AfterRefresh(g, u, Answered(g, u, c.refreshToken, reply))
              && g'.rows == if Renews(g, u, c, reply) then Saved(g.rows, u, RenewedGrant(c, reply, now), saves)
                 else g.rows
  {
    hide Chosen, Saved, AllSaved, Readable;
  }

  /** … and what the call leaves in the rows and at the server. */
  lemma ClientWrites(es: seq<Event>, g: Grants, team: TeamId, listing: seq<TeamId>, reply: Reply, saves: set<TeamId>,
                     now: int, c: Credentials)
    requires Runs(NO_GRANTS, es, g) && Elems(listing) == g.rows.Keys
    requires team in g.rows && Readable(g.rows, g.rows[team].userId, team)
    requires NewestGrant(g.rows, g.rows[team].userId, c)
    ensures var u, (g', out) := g.rows[team].userId, RunClient(g, team, listing, reply, saves, now);
            && (if !Lasting(c, now) && c.refreshToken != "" && Renews(g, u, c, reply)
                then Rewritten(g.rows, g'.rows, u, RenewedGrant(c, reply, now), saves)
                else g'.rows == g.rows)
            && (if !Lasting(c, now) && c.refreshToken != "" && c.refreshToken == Current(g, u) && !reply.Refused?
                   && reply.refresh != ""
                then g'.refresh == g.refresh[u := reply.refresh]
                else g'.refresh == g.refresh)
  {
    var u := g.rows[team].userId;
    RunKeepsDated(NO_GRANTS, es, g);
    ChosenIsNewestGrant(g, u, team, listing, c);
    ClientShape(g, team, listing, reply, saves, now, c);
    if !Lasting(c, now) && Renews(g, u, c, reply) {
      SavedRewrites(g.rows, u, RenewedGrant(c, reply, now), saves);
    }
    hide RunClient, Runs, Chosen, NewestGrant, Saved, AllSaved, Dated, Rewritten, Readable;
  }

  lemma SomeNewestGrant(g: Grants, u: UserId, team: TeamId, listing: seq<TeamId>) returns (c: Credentials)
    requires Readable(g.rows, u, team) && Elems(listing) == g.rows.Keys
    ensures NewestGrant(g.rows, u, c)
  {
    StoresIsReadable(g.rows, u);
    NewestExists(g.rows, u, team, listing);
    var n :| Newest(g.rows, u, n) && CopyIn(g.rows, u, n) == Chosen(g.rows, u, team, listing);
    c := CopyIn(g.rows, u, n);
    assert Stores(g.rows, u, n, c);
    hide Chosen, Readable, Stores;
  }

  /** Over any run: a token handed out is the access token of the newest grant
      the administrator then has, and that grant lasts or was issued just now. */
  lemma TokenIsTheNewest(es: seq<Event>, g: Grants, team: TeamId, listing: seq<TeamId>, reply: Reply,
                         saves: set<TeamId>,
                         now: int)
    requires Runs(NO_GRANTS, es, g) && Fits(g, Client(team, listing, reply, saves, now))
    requires RunClient(g, team, listing, reply, saves, now).1.Token?
    ensures var (g', out) := RunClient(g, team, listing, reply, saves, now);
            && team in g'.rows
            && exists c :: NewestGrant(g'.rows, g'.rows[team].userId, c) && c.accessToken == out.accessToken
                           && (Lasting(c, now) || c.updatedAt == now)
  {
    ClientNeedsItsRow(g, team, listing, reply, saves, now);
    var u := g.rows[team].userId;
    StoresIsReadable(g.rows, u);
    var c := SomeNewestGrant(g, u, team, listing);
    ClientAnswers(es, g, team, listing, reply, saves, now, c);
    ClientWrites(es, g, team, listing, reply, saves, now, c);
    RunKeepsDated(NO_GRANTS, es, g);
    var g' := RunClient(g, team, listing, reply, saves, now).0;
    if !Lasting(c, now) {
      RenewedIsNewest(g, g', u, team, RenewedGrant(c, reply, now), saves);
    }
    hide RunClient, NewestGrant, Runs, Rewritten, Stores, Readable, Dated;
  }

  lemma RenewedIsNewest(g: Grants, g': Grants, u: UserId, team: TeamId, n: Credentials, saves: set<TeamId>)
    requires Dated(g) && n.updatedAt > g.clock && n.accessToken != ""
    requires team in g.rows && g.rows[team].userId == u
    requires Rewritten(g.rows, g'.rows, u, n, saves) && !SomeWriteFails(g.rows, u, saves)
    ensures team in g'.rows && g'.rows[team].userId == u && NewestGrant(g'.rows, u, n)
  {
    assert Stores(g'.rows, u, team, n);
    forall t, o | Stores(g'.rows, u, t, o) ensures o == n {
      assert t in saves;
    }
  }

  /** Authorizing again: every row of the administrator whose write succeeds
      gets the new grant, whether or not the team's own row follows; that row is
      written exactly when all of them went through, with its own command. */
  lemma CallbackWrites(g: Grants, u: UserId, reply: Reply, verified: bool, saves: set<TeamId>, install: Option<Install>,
                       now: int)
    ensures var g' := RunCallback(g, u, reply, verified, saves, install, now);
            if !(Accepted(reply) && verified) then g'.rows == g.rows
            else
              var n := Credentials(reply.accessToken, reply.refresh, now + reply.ttl, now);
              if install.None? || SomeWriteFails(g.rows, u, saves) then Rewritten(g.rows, g'.rows, u, n, saves)
              else
                var t := install.value.team;
                && t in g'.rows
                && g'.rows[t] == Installation(u, Sealed(t, n), install.value.commandId, install.value.commandToken)
                && g'.rows.Keys == g.rows.Keys + {t}
                && Rewritten(g.rows - {t}, g'.rows - {t}, u, n, saves)
    ensures var g' := RunCallback(g, u, reply, verified, saves, install, now);
            g'.refresh == if reply.Refused? then g.refresh else g.refresh[u := reply.refresh]
  {
    if Accepted(reply) {
      var n := Credentials(reply.accessToken, reply.refresh, now + reply.ttl, now);
      SavedRewrites(g.rows, u, n, saves);
    }
  }
}
