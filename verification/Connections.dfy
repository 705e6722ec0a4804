/** The hub's connection table: one live connection per harness, a newer one
    wins, and a stale one's cleanup never touches the newer entry. */
module Connections {
  import opened Protocol

  /** Connection i of the hub's life. `serving` from registration to the end
      of `serve`; `cancelled` once its context is. */
  datatype Conn = Conn(h: HarnessId, serving: bool, cancelled: bool)

  /** `exits` lists the harnesses OnDisconnect was called for. */
  datatype Table = Table(conns: map<HarnessId, nat>, all: seq<Conn>, exits: seq<HarnessId>)

  const NO_CONNS := Table(map[], [], [])

  function CancelConn(all: seq<Conn>, i: nat): seq<Conn> {
    if i < |all| then all[i := all[i].(cancelled := true)] else all
  }

  /** A newer connection wins. */
  function Registered(t: Table, h: HarnessId): Table {
    var all := if h in t.conns then CancelConn(t.all, t.conns[h]) else t.all;
    Table(t.conns[h := |all|], all + [Conn(h, true, false)], t.exits)
  }

  predicate OwnsEntry(t: Table, i: nat) { i < |t.all| && t.all[i].h in t.conns && t.conns[t.all[i].h] == i }

  /** `serve` returns, for whatever reason. */
  function Exited(t: Table, i: nat): Table
    requires i < |t.all|
  {
    var h := t.all[i].h;
    var all := t.all[i := Conn(h, false, true)];
    if OwnsEntry(t, i) then Table(t.conns - {h}, all, t.exits + [h]) else Table(t.conns, all, t.exits)
  }

  function CancelEntries(t: Table, hs: set<HarnessId>): seq<Conn> {
    seq(|t.all|, i requires 0 <= i < |t.all| =>
      if t.all[i].h in hs && OwnsEntry(t, i) then t.all[i].(cancelled := true) else t.all[i])
  }

  /** Shutdown: every entry is cancelled and dropped; OnDisconnect is not called. */
  function Closed(t: Table): Table { Table(map[], CancelEntries(t, t.conns.Keys), t.exits) }

  predicate Live(c: Conn) { c.serving && !c.cancelled }

  /** The entries are exactly the live connections, one per harness. */
  ghost predicate Consistent(t: Table) {
    && (forall h | h in t.conns :: t.conns[h] < |t.all| && t.all[t.conns[h]].h == h && Live(t.all[t.conns[h]]))
    && (forall i: nat | i < |t.all| && Live(t.all[i]) :: OwnsEntry(t, i))
  }

  datatype Event = Register(h: HarnessId) | Exit(i: nat) | Close

  predicate Possible(t: Table, e: Event) { e.Exit? ==> e.i < |t.all| && t.all[e.i].serving }

  function After(t: Table, e: Event): Table
    requires Possible(t, e)
  {
    match e
    case Register(h) => Registered(t, h)
    case Exit(i) => Exited(t, i)
    case Close => Closed(t)
  }

  ghost predicate Runs(t: Table, es: seq<Event>, u: Table)
    decreases |es|
  {
    if es == [] then t == u
    else Possible(t, es[0]) && Runs(After(t, es[0]), es[1..], u)
  }

  lemma RegisterKeeps(t: Table, h: HarnessId)
    requires Consistent(t)
    ensures Consistent(Registered(t, h))
  {
    assert forall i: nat | i < |t.all| && Live(Registered(t, h).all[i]) :: Live(t.all[i]);
  }

  lemma ExitKeeps(t: Table, x: nat)
    requires Consistent(t) && x < |t.all|
    ensures Consistent(Exited(t, x))
  {
    assert forall i: nat | i < |t.all| && Live(Exited(t, x).all[i]) :: i != x && OwnsEntry(t, i);
  }

  lemma ShutdownKeeps(t: Table)
    requires Consistent(t)
    ensures Consistent(Closed(t))
  {
    assert forall i: nat | i < |t.all| && Live(Closed(t).all[i]) :: OwnsEntry(t, i);
  }

  lemma EventKeeps(t: Table, e: Event)
    requires Consistent(t) && Possible(t, e)
    ensures Consistent(After(t, e))
  {
    match e
    case Register(h) => RegisterKeeps(t, h);
    case Exit(x) => ExitKeeps(t, x);
    case Close => ShutdownKeeps(t);
  }

  lemma {:induction false} RunKeeps(t: Table, es: seq<Event>, u: Table)
    requires Consistent(t) && Runs(t, es, u)
    ensures Consistent(u)
    decreases |es|
  {
    if es != [] {
      EventKeeps(t, es[0]);
      RunKeeps(After(t, es[0]), es[1..], u);
    }
  }

  /** In every interleaving: a serving, uncancelled connection is the entry of
      its harness, so there is at most one per harness, and a harness is online
      exactly when it has one. */
  lemma LiveIsTheEntry(es: seq<Event>, t: Table)
    requires Runs(NO_CONNS, es, t)
    ensures forall i: nat | i < |t.all| && Live(t.all[i]) :: t.all[i].h in t.conns && t.conns[t.all[i].h] == i
    ensures forall i: nat, k: nat | i < k < |t.all| && Live(t.all[i]) && Live(t.all[k]) :: t.all[i].h != t.all[k].h
    ensures forall h :: h in t.conns <==> exists i: nat :: i < |t.all| && Live(t.all[i]) && t.all[i].h == h
  {
    RunKeeps(NO_CONNS, es, t);
    forall i: nat, k: nat | i < k < |t.all| && Live(t.all[i]) && Live(t.all[k]) ensures t.all[i].h != t.all[k].h {
      assert OwnsEntry(t, i) && OwnsEntry(t, k);
    }
    forall h | h in t.conns ensures exists i: nat :: i < |t.all| && Live(t.all[i]) && t.all[i].h == h {
      assert Live(t.all[t.conns[h]]);
    }
  }

  /** A cancelled connection (replaced or closed) leaves without touching the
      table or calling OnDisconnect; an uncancelled one takes down its own
      entry and no other, and OnDisconnect is called once, for its harness. */
  lemma ExitTakesOnlyItsOwn(es: seq<Event>, t: Table, i: nat)
    requires Runs(NO_CONNS, es, t) && i < |t.all| && t.all[i].serving
    ensures var u := Exited(t, i);
            if t.all[i].cancelled then u.conns == t.conns && u.exits == t.exits
            else t.all[i].h in t.conns && u.conns == t.conns - {t.all[i].h} && u.exits == t.exits + [t.all[i].h]
    ensures var u := Exited(t, i);
            && |u.all| == |t.all| && u.all[i].h == t.all[i].h && !u.all[i].serving && u.all[i].cancelled
            && (forall k: nat | k < |t.all| && k != i :: u.all[k] == t.all[k])
  {
    RunKeeps(NO_CONNS, es, t);
    assert Live(t.all[i]) ==> OwnsEntry(t, i);
  }

  /** A newer connection becomes the entry, the one it replaces is cancelled,
      and no other connection is touched. */
  lemma RegisterReplaces(es: seq<Event>, t: Table, h: HarnessId)
    requires Runs(NO_CONNS, es, t)
    ensures var u := Registered(t, h);
            && |u.all| == |t.all| + 1 && u.all[|t.all|] == Conn(h, true, false)
            && u.conns == t.conns[h := |t.all|] && u.exits == t.exits
            && (forall i: nat | i < |t.all| ::
                  u.all[i] == t.all[i].(cancelled := t.all[i].cancelled || (t.all[i].h == h && t.all[i].serving)))
  {
    RunKeeps(NO_CONNS, es, t);
    forall i: nat | i < |t.all|
      ensures Registered(t, h).all[i] ==
              t.all[i].(cancelled := t.all[i].cancelled || (t.all[i].h == h && t.all[i].serving))
    {
      assert Live(t.all[i]) ==> OwnsEntry(t, i);
    }
  }

  /** Shutdown leaves no entry and no live connection, ends none, and tells no
      handler. */
  lemma CloseDropsAll(es: seq<Event>, t: Table)
    requires Runs(NO_CONNS, es, t)
    ensures var u := Closed(t);
            && u.conns == map[] && u.exits == t.exits && |u.all| == |t.all|
            && (forall i: nat | i < |t.all| ::
                u.all[i] == t.all[i].(cancelled := t.all[i].cancelled || t.all[i].serving))
  {
    RunKeeps(NO_CONNS, es, t);
    forall i: nat | i < |t.all|
      ensures Closed(t).all[i] == t.all[i].(cancelled := t.all[i].cancelled || t.all[i].serving)
    {
      assert Live(t.all[i]) ==> OwnsEntry(t, i);
    }
  }

  function Partly(t: Table, done: set<HarnessId>): Table { Table(t.conns - done, CancelEntries(t, done), t.exits) }

  /** The entries cancelled so far, and the ones to come. */
  ghost predicate Closing(t: Table, done: set<HarnessId>, rest: set<HarnessId>) {
    Consistent(t) && forall h :: (h in t.conns <==> h in done || h in rest) && !(h in done && h in rest)
  }

  lemma CloseStart(t: Table)
    requires Consistent(t)
    ensures Closing(t, {}, t.conns.Keys) && Partly(t, {}) == t
  {
  }

  lemma CloseStep(t: Table, done: set<HarnessId>, rest: set<HarnessId>, h: HarnessId)
    requires Closing(t, done, rest) && h in rest
    ensures Closing(t, done + {h}, rest - {h})
    ensures var s := Partly(t, done);
            h in s.conns && Partly(t, done + {h}) == Table(s.conns - {h}, CancelConn(s.all, s.conns[h]), t.exits)
  {
    assert OwnsEntry(t, t.conns[h]);
  }

  lemma CloseEnd(t: Table, done: set<HarnessId>)
    requires Closing(t, done, {})
    ensures Partly(t, done) == Closed(t)
  {
    assert done == t.conns.Keys;
  }

  class ConnTable {
    var conns: map<HarnessId, nat>
    var all: seq<Conn>
    ghost var exits: seq<HarnessId>

    constructor ()
      ensures View() == NO_CONNS
    {
      conns, all, exits := map[], [], [];
    }

    ghost function View(): Table
      reads this
    {
      Table(conns, all, exits)
    }

    method Register(h: HarnessId) returns (i: nat)
      modifies this
      ensures View() == Registered(old(View()), h) && i == |old(all)| && OwnsEntry(View(), i)
    {
      if h in conns {
        all := CancelConn(all, conns[h]);
      }
      i := |all|;
      all := all + [Conn(h, true, false)];
      conns := conns[h := i];
    }

    method Exit(i: nat) returns (disconnected: bool)
      requires i < |all|
      modifies this
      ensures View() == Exited(old(View()), i) && disconnected == OwnsEntry(old(View()), i)
    {
      var h := all[i].h;
      disconnected := h in conns && conns[h] == i;
      if disconnected {
        conns := conns - {h};
        exits := exits + [h];
      }
      all := all[i := Conn(h, false, true)];
    }

    method Close()
      requires Consistent(View())
      modifies this
      ensures View() == Closed(old(View()))
    {
      ghost var start, done := View(), {};
      CloseStart(start);
      hide Closing, Partly, Closed, Consistent;
      var rest := conns.Keys;
      while rest != {}
        invariant Closing(start, done, rest)
        invariant View() == Partly(start, done)
        decreases |rest|
      {
        var h :| h in rest;
        CloseStep(start, done, rest, h);
        all := CancelConn(all, conns[h]);
        conns := conns - {h};
        rest, done := rest - {h}, done + {h};
      }
      CloseEnd(start, done);
    }
  }
}
