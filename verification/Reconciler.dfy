/** One event connection per bot: a pass over the stored bots starts, replaces
    and stops listeners until the active map is what the store asks for. */
module Reconciler {
  import opened Basics
  import opened Protocol

  datatype BotRow = BotRow(userId: UserId, harnessId: HarnessId, token: string)

  /** A listener goroutine ever started, and whether its context is cancelled. */
  datatype Listener = Listener(bot: UserId, token: string, cancelled: bool)

  datatype Connection = Connection(token: string, listener: nat)

  datatype State = State(active: map<UserId, Connection>, all: seq<Listener>)

  const IDLE := State(map[], [])

  predicate Wanted(b: BotRow) { b.harnessId != "" && b.token != "" }

  function Desired(list: seq<BotRow>): set<UserId> { set b | b in list && Wanted(b) :: b.userId }

  function CancelAt(all: seq<Listener>, i: nat): seq<Listener> {
    if i < |all| then all[i := all[i].(cancelled := true)] else all
  }

  function Started(s: State, b: BotRow): State {
    var all := if b.userId in s.active then CancelAt(s.all, s.active[b.userId].listener) else s.all;
    State(s.active[b.userId := Connection(b.token, |all|)], all + [Listener(b.userId, b.token, false)])
  }

  function Ensured(s: State, b: BotRow): State {
    if !Wanted(b) || (b.userId in s.active && s.active[b.userId].token == b.token) then s else Started(s, b)
  }

  function EnsuredAll(s: State, list: seq<BotRow>): State {
    if list == [] then s else Ensured(EnsuredAll(s, list[..|list| - 1]), list[|list| - 1])
  }

  /** Stops and forgets the connections of `gone`. */
  function Reaped(s: State, gone: set<UserId>): State {
    State(map b | b in s.active && b !in gone :: s.active[b],
          seq(|s.all|, i requires 0 <= i < |s.all| =>
            if s.all[i].bot in s.active && s.all[i].bot in gone && s.active[s.all[i].bot].listener == i
            then s.all[i].(cancelled := true) else s.all[i]))
  }

  function Pass(s: State, list: seq<BotRow>): State {
    var e := EnsuredAll(s, list);
    Reaped(e, e.active.Keys - Desired(list))
  }

  /** Each active connection has its own uncancelled listener, and there are no
      other uncancelled listeners. */
  ghost predicate Consistent(s: State) {
    && (forall b | b in s.active ::
          s.active[b].listener < |s.all| && s.all[s.active[b].listener] == Listener(b, s.active[b].token, false))
    && (forall i: nat | i < |s.all| && !s.all[i].cancelled ::
        s.all[i].bot in s.active && s.active[s.all[i].bot].listener == i)
  }

  /** The store's primary key. */
  ghost predicate Distinct(list: seq<BotRow>) { forall i, k | 0 <= i < k < |list| :: list[i].userId != list[k].userId }

  ghost predicate Tracks(s: State, list: seq<BotRow>) {
    forall b | b in list && Wanted(b) :: b.userId in s.active && s.active[b.userId].token == b.token
  }

  lemma EnsuredKeeps(s: State, b: BotRow)
    requires Consistent(s)
    ensures Consistent(Ensured(s, b))
  {
  }

  lemma EnsuredActive(s: State, b: BotRow)
    ensures var u := Ensured(s, b);
            && u.active.Keys == s.active.Keys + (if Wanted(b) then {b.userId} else {})
            && (Wanted(b) ==> u.active[b.userId].token == b.token)
            && (forall id | id in s.active && (id != b.userId || (Wanted(b) ==> s.active[id].token == b.token)) ::
                u.active[id] == s.active[id])
  {
    hide CancelAt;
  }

  lemma DesiredGrows(init: seq<BotRow>, b: BotRow)
    ensures Desired(init + [b]) == Desired(init) + (if Wanted(b) then {b.userId} else {})
  {
    forall x | x in init && Wanted(x) ensures x.userId in Desired(init + [b]) {
      assert x in init + [b];
    }
    if Wanted(b) {
      assert b in init + [b];
    }
  }

  /** The connections the list has no quarrel with. */
  ghost predicate Unchanged(s: State, u: State, list: seq<BotRow>) {
    forall id | id in s.active
                && (forall b | b in list && Wanted(b) && b.userId == id :: b.token == s.active[id].token) ::
      id in u.active && u.active[id] == s.active[id]
  }

  lemma SettleStep(s: State, v: State, u: State, init: seq<BotRow>, b: BotRow)
    requires Tracks(v, init) && Unchanged(s, v, init) && forall x | x in init :: x.userId != b.userId
    requires Wanted(b) ==> b.userId in u.active && u.active[b.userId].token == b.token
    requires forall id | id in v.active && (id != b.userId || (Wanted(b) ==> v.active[id].token == b.token)) ::
               id in u.active && u.active[id] == v.active[id]
    ensures Tracks(u, init + [b]) && Unchanged(s, u, init + [b])
  {
    assert b in init + [b] && forall x | x in init :: x in init + [b];
  }

  lemma {:induction false} EnsuredAllSettles(s: State, list: seq<BotRow>)
    requires Consistent(s) && Distinct(list)
    ensures var u := EnsuredAll(s, list);
            Consistent(u) && Tracks(u, list) && u.active.Keys == s.active.Keys + Desired(list) && Unchanged(s, u, list)
    decreases |list|
  {
    if list != [] {
      var init, b := list[..|list| - 1], list[|list| - 1];
      EnsuredAllSettles(s, init);
      var v := EnsuredAll(s, init);
      EnsuredKeeps(v, b);
      EnsuredActive(v, b);
      DesiredGrows(init, b);
      assert list == init + [b];
      assert forall x | x in init :: x.userId != b.userId;
      hide Ensured, Consistent, Desired, Distinct, Tracks, Unchanged;
      SettleStep(s, v, EnsuredAll(s, list), init, b);
    }
  }

  lemma ReapedKeeps(s: State, gone: set<UserId>)
    requires Consistent(s) && gone <= s.active.Keys
    ensures Consistent(Reaped(s, gone)) && Reaped(s, gone).active == s.active - gone
    ensures gone == {} ==> Reaped(s, gone) == s
  {
  }

  /** The connections stopped so far, and the ones still to look at. */
  ghost predicate Reaping(e: State, gone: set<UserId>, rest: set<UserId>, desired: set<UserId>) {
    Consistent(e) && rest <= e.active.Keys && forall id ::
        id in gone <==> id in e.active && id !in rest && id !in desired
  }

  lemma ReapStart(e: State, desired: set<UserId>)
    requires Consistent(e)
    ensures Reaping(e, {}, e.active.Keys, desired) && Reaped(e, {}) == e
  {
    ReapedKeeps(e, {});
  }

  lemma ReapSkip(e: State, gone: set<UserId>, rest: set<UserId>, desired: set<UserId>, id: UserId)
    requires Reaping(e, gone, rest, desired) && id in rest && id in desired
    ensures Reaping(e, gone, rest - {id}, desired)
  {
  }

  lemma ReapStep(e: State, gone: set<UserId>, rest: set<UserId>, desired: set<UserId>, id: UserId)
    requires Reaping(e, gone, rest, desired) && id in rest && id !in desired
    ensures Reaping(e, gone + {id}, rest - {id}, desired)
    ensures var s := Reaped(e, gone);
            id in s.active && Reaped(e, gone + {id}) == State(s.active - {id}, CancelAt(s.all, s.active[id].listener))
  {
    assert Reaped(e, gone + {id}).all == CancelAt(Reaped(e, gone).all, e.active[id].listener);
  }

  lemma ReapEnd(e: State, gone: set<UserId>, desired: set<UserId>)
    requires Reaping(e, gone, {}, desired)
    ensures gone == e.active.Keys - desired
  {
  }

  /** After one pass: the active bots are those with a machine and a token, each
      with its current token and exactly one uncancelled listener; every other
      listener ever started is cancelled; a bot whose token did not change
      kept its listener. */
  lemma PassSettles(s: State, list: seq<BotRow>)
    requires Consistent(s) && Distinct(list)
    ensures var u := Pass(s, list);
            && (forall id :: id in u.active <==>
                  exists b :: b in list && b.userId == id && b.harnessId != "" && b.token != "")
            && (forall b | b in list && b.harnessId != "" && b.token != "" ::
                  b.userId in u.active && u.active[b.userId].token == b.token)
            && (forall i: nat | i < |u.all| ::
                  !u.all[i].cancelled <==>
                      u.all[i].bot in u.active && u.active[u.all[i].bot] == Connection(u.all[i].token, i))
            && (forall id | id in u.active :: u.active[id].listener < |u.all| && u.all[u.active[id].listener].bot == id)
            && (forall b | b in list && Wanted(b) && b.userId in s.active && s.active[b.userId].token == b.token ::
                  u.active[b.userId] == s.active[b.userId])
            && Consistent(u)
  {
    EnsuredAllSettles(s, list);
    SameTokenStays(s, EnsuredAll(s, list), list);
    hide EnsuredAll, Unchanged, Distinct;
    ReapSettles(EnsuredAll(s, list), list);
    hide Reaped, Desired, Consistent;
    LiveListeners(Pass(s, list));
    DesiredMeans(list);
  }

  lemma DesiredMeans(list: seq<BotRow>)
    ensures forall id :: id in Desired(list) <==>
              exists b :: b in list && b.userId == id && b.harnessId != "" && b.token != ""
  {
  }

  lemma ReapSettles(e: State, list: seq<BotRow>)
    requires Consistent(e) && Tracks(e, list) && Desired(list) <= e.active.Keys
    ensures var u := Reaped(e, e.active.Keys - Desired(list));
            && Consistent(u) && Tracks(u, list) && u.active.Keys == Desired(list)
            && forall b | b in list && Wanted(b) :: b.userId in u.active && u.active[b.userId] == e.active[b.userId]
  {
    ReapedKeeps(e, e.active.Keys - Desired(list));
    WantedIsDesired(list);
    hide Reaped, Desired, Consistent;
  }

  lemma LiveListeners(u: State)
    requires Consistent(u)
    ensures forall i: nat | i < |u.all| ::
              !u.all[i].cancelled <==>
                  u.all[i].bot in u.active && u.active[u.all[i].bot] == Connection(u.all[i].token, i)
    ensures forall id | id in u.active :: u.active[id].listener < |u.all| && u.all[u.active[id].listener].bot == id
  {
  }

  lemma WantedIsDesired(list: seq<BotRow>)
    ensures forall b | b in list && Wanted(b) :: b.userId in Desired(list)
  {
  }

  lemma SameTokenStays(s: State, u: State, list: seq<BotRow>)
    requires Distinct(list) && Unchanged(s, u, list)
    ensures forall b | b in list && Wanted(b) && b.userId in s.active && s.active[b.userId].token == b.token ::
              b.userId in u.active && u.active[b.userId] == s.active[b.userId]
  {
    forall b | b in list && Wanted(b) && b.userId in s.active && s.active[b.userId].token == b.token
      ensures b.userId in u.active && u.active[b.userId] == s.active[b.userId]
    {
      forall x | x in list && x.userId == b.userId ensures x == b {
        var i :| 0 <= i < |list| && list[i] == x;
        var k :| 0 <= k < |list| && list[k] == b;
      }
    }
  }

  lemma {:induction false} NothingToEnsure(s: State, list: seq<BotRow>)
    requires Tracks(s, list)
    ensures EnsuredAll(s, list) == s
    decreases |list|
  {
    if list != [] {
      assert list == list[..|list| - 1] + [list[|list| - 1]];
      NothingToEnsure(s, list[..|list| - 1]);
    }
  }

  /** A second pass over the same list changes nothing. */
  lemma PassIsIdempotent(s: State, list: seq<BotRow>)
    requires Consistent(s) && Distinct(list)
    ensures Pass(Pass(s, list), list) == Pass(s, list)
  {
    PassSettles(s, list);
    var u := Pass(s, list);
    NothingToEnsure(u, list);
    ReapedKeeps(u, {});
    assert u.active.Keys - Desired(list) == {};
  }

  // --- whole runs ---

  function After(s: State, lists: seq<seq<BotRow>>): State {
    if lists == [] then s else Pass(After(s, lists[..|lists| - 1]), lists[|lists| - 1])
  }

  /** Over any sequence of passes, a bot is listened to at most once at a time. */
  lemma {:induction false} RunConsistent(lists: seq<seq<BotRow>>)
    requires forall l | l in lists :: Distinct(l)
    ensures Consistent(After(IDLE, lists))
    decreases |lists|
  {
    if lists != [] {
      RunConsistent(lists[..|lists| - 1]);
      PassSettles(After(IDLE, lists[..|lists| - 1]), lists[|lists| - 1]);
    }
  }

  class Manager {
    var active: map<UserId, Connection>
    var all: seq<Listener>

    constructor ()
      ensures View() == IDLE
    {
      active, all := map[], [];
    }

    function View(): State
      reads this
    {
      State(active, all)
    }

    /** The first loop: start or replace, and note who is wanted. */
    method EnsureEach(list: seq<BotRow>) returns (desired: set<UserId>)
      modifies this
      ensures View() == EnsuredAll(old(View()), list) && desired == Desired(list)
    {
      desired := {};
      for i := 0 to |list|
        invariant View() == EnsuredAll(old(View()), list[..i]) && desired == Desired(list[..i])
      {
        var b := list[i];
        assert list[..i + 1] == list[..i] + [b] && list[..i + 1][..i] == list[..i];
        DesiredGrows(list[..i], b);
        if b.harnessId == "" || b.token == "" { continue; }
        desired := desired + {b.userId};
        if b.userId in active {
          if active[b.userId].token == b.token { continue; }
          all := CancelAt(all, active[b.userId].listener);
        }
        active := active[b.userId := Connection(b.token, |all|)];
        all := all + [Listener(b.userId, b.token, false)];
      }
      assert list[..|list|] == list;
    }

    /** The second loop: stop every active connection nobody wants. */
    method ReapRest(desired: set<UserId>)
      requires Consistent(View())
      modifies this
      ensures View() == Reaped(old(View()), old(active).Keys - desired)
    {
      ghost var e, gone := View(), {};
      ReapStart(e, desired);
      hide Reaping, Reaped, Consistent;
      var rest := active.Keys;
      while rest != {}
        invariant Reaping(e, gone, rest, desired) && View() == Reaped(e, gone)
        decreases |rest|
      {
        var id :| id in rest;
        if id in desired {
          ReapSkip(e, gone, rest, desired, id);
        } else {
          ReapStep(e, gone, rest, desired, id);
          all := CancelAt(all, active[id].listener);
          active := active - {id};
          gone := gone + {id};
        }
        rest := rest - {id};
      }
      ReapEnd(e, gone, desired);
    }

    method RunPass(list: seq<BotRow>)
      requires Consistent(View()) && Distinct(list)
      modifies this
      ensures View() == Pass(old(View()), list) && Consistent(View())
    {
      ghost var start := View();
      PassSettles(start, list);
      EnsuredAllSettles(start, list);
      var desired := EnsureEach(list);
      ReapRest(desired);
      hide EnsuredAll, Reaped;
    }
  }
}
