/** What every reachable state of the pool satisfies, and why. */
module PoolInvariants {
  import opened MapFolds
  import opened PoolModel

  // ----- the invariant, clause by clause -----

  /** The server of each held connection. */
  ghost function Lent(s: State): map<Transport, string> {
    map t | t in s.held :: ServerOf(s, t)
  }

  ghost function Idle(s: State): multiset<Transport> {
    Contents(StackMap(s))
  }

  /** Every transport ever dialled is idle, held or closed, once. */
  ghost predicate Conserved(s: State) {
    Idle(s) + multiset(s.held.Keys) + s.shut == multiset(s.info.Keys)
  }

  /** A connection waits on the stack of the server it was dialled for. */
  ghost predicate OwnStack(s: State) {
    forall k, i :: k in StackMap(s) && 0 <= i < |StackMap(s)[k]| ==> ServerOf(s, StackMap(s)[k][i]) == k
  }

  ghost predicate SortedStack(s: State, q: seq<Transport>) {
    && (forall i :: 0 <= i < |q| ==> q[i] in s.info && s.info[q[i]].lastUsed <= s.now)
    && (forall i, j :: 0 <= i < j < |q| ==> s.info[q[i]].lastUsed <= s.info[q[j]].lastUsed)
  }

  /** Each stack is ordered by the time its connections were last used. */
  ghost predicate Sorted(s: State) {
    forall k :: k in StackMap(s) ==> SortedStack(s, StackMap(s)[k])
  }

  /** `activeCount` counts held connections and dials in flight. */
  ghost predicate Counted(s: State) {
    forall k :: Active(s, k) == Count(Lent(s), k) + Count(s.dialing, k)
  }

  ghost predicate Bounded(s: State) {
    && s.cfg.maxIdle > 0 && s.cfg.maxOpen > 0
    && (forall k :: Active(s, k) + |Stack(s, k)| <= s.cfg.maxOpen)
    && (forall k :: |Stack(s, k)| <= s.cfg.maxIdle)
  }

  /** Nobody sleeps through an opportunity, nor past a deadline without a wake-up on its way. */
  ghost predicate WaiterOk(s: State, w: Waiter) {
    && w.deadline == w.since + s.cfg.waitTimeout && w.since <= s.now
    && (w.asleep ==>
          && !s.closed
          && Active(s, w.server) == s.cfg.maxOpen
          && Stack(s, w.server) == []
          && (w.timer.Armed? ==> s.now < w.timer.at <= w.deadline)
          && (w.timer.Due? || w.ctxDone ==> s.broadcasts > 0))
  }

  ghost predicate Waiters(s: State) {
    forall g :: g in s.waiting ==> WaiterOk(s, s.waiting[g])
  }

  ghost predicate Accounts(s: State) {
    && s.stats.activeConns == Sum(s.active)
    && (!s.closed ==> s.stats.idleConns == |Idle(s)|)
    && s.stats.totalConns == s.stats.misses
    && s.stats.hits + s.stats.misses == s.stats.activeConns + s.puts + s.failedDials
  }

  /** A call of `Get` waits or dials, not both. */
  ghost predicate Apart(s: State) {
    forall g :: g in s.waiting ==> g !in s.dialing
  }

  ghost predicate Inv(s: State) {
    && NilIffClosed(s) && Apart(s)
    && Conserved(s) && OwnStack(s) && Sorted(s)
    && Counted(s) && Bounded(s)
    && Waiters(s)
    && Accounts(s)
  }

  // ----- consequences of conservation -----

  lemma OnStack(s: State, k: string, i: nat)
    requires k in StackMap(s) && i < |StackMap(s)[k]|
    ensures StackMap(s)[k][i] in Idle(s)
  {
    ContentsRemove(StackMap(s), k);
    assert StackMap(s)[k][i] in multiset(StackMap(s)[k]);
  }

  /** The three places exclude each other, and no transport is closed twice. */
  lemma OnePlace(s: State, t: Transport)
    requires Conserved(s)
    ensures Idle(s)[t] + multiset(s.held.Keys)[t] + s.shut[t] == (if t in s.info then 1 else 0)
  {
    assert (Idle(s) + multiset(s.held.Keys) + s.shut)[t] == multiset(s.info.Keys)[t];
  }

  /** A connection on top of a stack is nowhere else. */
  lemma IdleAlone(s: State, k: string, i: nat)
    requires Conserved(s) && k in StackMap(s) && i < |StackMap(s)[k]|
    ensures StackMap(s)[k][i] in s.info && StackMap(s)[k][i] !in s.held
  {
    OnStack(s, k, i);
    OnePlace(s, StackMap(s)[k][i]);
  }

  /** A held connection is on no stack. */
  lemma HeldNotIdle(s: State, t: Transport)
    requires Conserved(s) && t in s.held
    ensures t in s.info
    ensures forall k, i :: k in StackMap(s) && 0 <= i < |StackMap(s)[k]| ==> StackMap(s)[k][i] != t
  {
    OnePlace(s, t);
    forall k, i | k in StackMap(s) && 0 <= i < |StackMap(s)[k]| ensures StackMap(s)[k][i] != t {
      OnStack(s, k, i);
    }
  }

  // ----- frames -----

  lemma CountedSame(s: State, r: State)
    requires Counted(s)
    requires r.held == s.held && r.dialing == s.dialing && (forall k :: Active(r, k) == Active(s, k))
    requires forall t :: t in s.held ==> ServerOf(r, t) == ServerOf(s, t)
    ensures Counted(r)
  {
    assert Lent(r) == Lent(s);
  }

  lemma WaitersSame(s: State, r: State)
    requires Waiters(s) && r.cfg == s.cfg && r.now == s.now && r.closed == s.closed && r.broadcasts >= s.broadcasts
    requires forall g :: g in r.waiting ==> g in s.waiting && r.waiting[g] == s.waiting[g]
    requires forall k :: Stack(s, k) == [] ==> Stack(r, k) == [] && Active(r, k) == Active(s, k)
    ensures Waiters(r)
  {
  }

  lemma BoundedSame(s: State, r: State)
    requires Bounded(s) && r.cfg == s.cfg
    requires forall k :: Active(r, k) <= Active(s, k) && |Stack(r, k)| <= |Stack(s, k)|
    ensures Bounded(r)
  {
  }

  lemma WaitersAwake(s: State, r: State)
    requires Waiters(s) && r.cfg == s.cfg && r.now == s.now && r.waiting == WakeAll(s.waiting)
    ensures Waiters(r)
  {
  }

  /** Stacks that only lost entries at the top stay ordered and on their own server. */
  lemma PrefixesKeep(s: State, r: State)
    requires OwnStack(s) && Sorted(s) && r.info == s.info && r.now == s.now
    requires forall k :: k in StackMap(r) ==> StackMap(r)[k] <= Stack(s, k)
    ensures OwnStack(r) && Sorted(r)
  {
    forall k | k in StackMap(r) ensures SortedStack(r, StackMap(r)[k])
      ensures forall i :: 0 <= i < |StackMap(r)[k]| ==> ServerOf(r, StackMap(r)[k][i]) == k
    {
      var q, q' := Stack(s, k), StackMap(r)[k];
      assert SortedStack(s, q);
      assert forall i :: 0 <= i < |q'| ==> q'[i] == q[i];
    }
  }

  /** Writing the last use of a connection that is on no stack. */
  lemma TouchKeeps(s: State, r: State, t: Transport)
    requires OwnStack(s) && Sorted(s) && r.info == Touch(s.info, t, s.now) && r.now == s.now
    requires StackMap(r) == StackMap(s)
    requires forall k, i :: k in StackMap(s) && 0 <= i < |StackMap(s)[k]| ==> StackMap(s)[k][i] != t
    ensures OwnStack(r) && Sorted(r)
  {
    forall k | k in StackMap(r) ensures SortedStack(r, StackMap(r)[k])
      ensures forall i :: 0 <= i < |StackMap(r)[k]| ==> ServerOf(r, StackMap(r)[k][i]) == k
    {
      var q := StackMap(r)[k];
      assert SortedStack(s, q);
      forall i | 0 <= i < |q| ensures r.info[q[i]] == s.info[q[i]] {
        assert StackMap(s)[k][i] != t;
      }
    }
  }

  /** One more held connection, one more in the count of its server. */
  lemma HeldCountUp(s: State, r: State, t: Transport, server: string)
    requires Counted(s) && t !in s.held && r.dialing == s.dialing
    requires Lent(r) == Lent(s)[t := server]
    requires r.active == s.active[server := Active(s, server) + 1]
    ensures Counted(r)
  {
    forall k ensures Active(r, k) == Count(Lent(r), k) + Count(r.dialing, k) {
      CountInsert(Lent(s), t, server, k);
    }
  }

  lemma HeldCountDown(s: State, r: State, t: Transport, server: string)
    requires Counted(s) && t in s.held && r.dialing == s.dialing
    requires Lent(r) == Lent(s) - {t} && ServerOf(s, t) == server
    requires r.active == s.active[server := Active(s, server) - 1]
    ensures Counted(r)
  {
    forall k ensures Active(r, k) == Count(Lent(r), k) + Count(r.dialing, k) {
      CountRemove(Lent(s), t, k);
    }
  }

  lemma DialCountUp(s: State, r: State, g: Ticket, server: string)
    requires Counted(s) && g !in s.dialing && r.dialing == s.dialing[g := server] && Lent(r) == Lent(s)
    requires r.active == s.active[server := Active(s, server) + 1]
    ensures Counted(r)
  {
    forall k ensures Active(r, k) == Count(Lent(r), k) + Count(r.dialing, k) {
      CountInsert(s.dialing, g, server, k);
    }
  }

  lemma DialCountDown(s: State, r: State, g: Ticket, server: string)
    requires Counted(s) && g in s.dialing && r.dialing == s.dialing - {g} && Lent(r) == Lent(s)
    requires s.dialing[g] == server && r.active == s.active[server := Active(s, server) - 1]
    ensures Counted(r)
  {
    forall k ensures Active(r, k) == Count(Lent(r), k) + Count(r.dialing, k) {
      CountRemove(s.dialing, g, k);
    }
  }

  // ----- the pieces keep the invariant -----

  lemma DropTotals(s: State, server: string, n: nat)
    requires NilIffClosed(s) && Conserved(s) && Accounts(s) && !s.closed && n < |Stack(s, server)|
    ensures var r := Drop(s, server, Stack(s, server)[..n], Stack(s, server)[n..]); Conserved(r) && Accounts(r)
  {
    var q := Stack(s, server);
    var r := Drop(s, server, q[..n], q[n..]);
    assert q == q[..n] + q[n..];
    ContentsShrink(s.conns.m, server, q[..n], q[n..]);
    MultisetMove(Idle(r), multiset(s.held.Keys), s.shut, multiset(q[n..]), multiset(s.info.Keys));
  }

  /** Dropping entries off the top of a stack. */
  lemma DropKeeps(s: State, server: string, n: nat)
    requires Inv(s) && !s.closed && n < |Stack(s, server)|
    ensures Inv(Drop(s, server, Stack(s, server)[..n], Stack(s, server)[n..]))
  {
    hide Conserved, Accounts, Sorted, OwnStack, Counted, Waiters;
    var r := Drop(s, server, Stack(s, server)[..n], Stack(s, server)[n..]);
    DropTotals(s, server, n);
    PrefixesKeep(s, r);
    CountedSame(s, r);
    WaitersSame(s, r);
  }

  lemma HandOutTotals(s: State, g: Ticket, server: string, q: seq<Transport>, t: Transport)
    requires NilIffClosed(s) && Conserved(s) && Accounts(s) && !s.closed && Stack(s, server) == q + [t]
    ensures t in s.info && t !in s.held
    ensures var r := HandOut(s, g, server, q, t); Conserved(r) && Accounts(r)
  {
    var r := HandOut(s, g, server, q, t);
    IdleAlone(s, server, |q|);
    ContentsShrink(s.conns.m, server, q, [t]);
    MultisetMove(Idle(r), multiset(s.held.Keys), s.shut, multiset{t}, multiset(s.info.Keys));
    assert r.held.Keys == s.held.Keys + {t};
    assert multiset(r.held.Keys) == multiset(s.held.Keys) + multiset{t};
    assert r.info.Keys == s.info.Keys;
    SumUpdate(s.active, server, Active(s, server) + 1);
  }

  lemma HandOutOrder(s: State, g: Ticket, server: string, q: seq<Transport>, t: Transport)
    requires NilIffClosed(s) && Conserved(s) && OwnStack(s) && Sorted(s) && Accounts(s)
    requires !s.closed && Stack(s, server) == q + [t]
    ensures var r := HandOut(s, g, server, q, t); OwnStack(r) && Sorted(r)
  {
    var r := HandOut(s, g, server, q, t);
    var p := s.(conns := r.conns);
    PrefixesKeep(s, p);
    HandOutTotals(s, g, server, q, t);
    HeldNotIdle(r, t);
    TouchKeeps(p, r, t);
  }

  /** Popping the top connection for a caller. */
  lemma HandOutCounts(s: State, g: Ticket, server: string, q: seq<Transport>, t: Transport)
    requires NilIffClosed(s) && Counted(s) && OwnStack(s) && t !in s.held
    requires !s.closed && Stack(s, server) == q + [t]
    ensures Counted(HandOut(s, g, server, q, t))
  {
    var r := HandOut(s, g, server, q, t);
    assert ServerOf(s, t) == server by { assert StackMap(s)[server][|q|] == t; }
    assert Lent(r) == Lent(s)[t := server];
    HeldCountUp(s, r, t, server);
  }

  /** Popping the top connection for a caller. */
  lemma HandOutKeeps(s: State, g: Ticket, server: string, q: seq<Transport>, t: Transport)
    requires Inv(s) && !s.closed && Stack(s, server) == q + [t]
    ensures Inv(HandOut(s, g, server, q, t))
  {
    hide Conserved, Accounts, Sorted, OwnStack, Counted, Waiters;
    var r := HandOut(s, g, server, q, t);
    HandOutTotals(s, g, server, q, t);
    HandOutOrder(s, g, server, q, t);
    HandOutCounts(s, g, server, q, t);
    WaitersSame(s, r);
  }

  lemma ReserveTotals(s: State, g: Ticket, server: string)
    requires Accounts(s)
    ensures Accounts(Reserve(s, g, server))
  {
    SumUpdate(s.active, server, Active(s, server) + 1);
  }

  lemma ReserveCounts(s: State, g: Ticket, server: string)
    requires Counted(s) && g !in s.dialing
    ensures Counted(Reserve(s, g, server))
  {
    var r := Reserve(s, g, server);
    assert Lent(r) == Lent(s);
    DialCountUp(s, r, g, server);
  }

  lemma ReserveWaiters(s: State, g: Ticket, server: string)
    requires Waiters(s) && Active(s, server) < s.cfg.maxOpen
    ensures Waiters(Reserve(s, g, server))
  {
  }

  /** Claiming a slot, which needs room for one more. */
  lemma ReserveKeeps(s: State, g: Ticket, server: string)
    requires Inv(s) && !s.closed && g !in s.dialing
    requires Active(s, server) + |Stack(s, server)| < s.cfg.maxOpen
    ensures Inv(Reserve(s, g, server))
  {
    hide Accounts, Sorted, OwnStack, Counted, Waiters;
    var r := Reserve(s, g, server);
    ReserveTotals(s, g, server);
    PrefixesKeep(s, r);
    ReserveCounts(s, g, server);
    ReserveWaiters(s, g, server);
  }

  /** The waiters and their broadcasts are nobody else's business. */
  lemma OnlyWaiters(s: State, r: State)
    requires Inv(s) && r == s.(waiting := r.waiting, broadcasts := r.broadcasts)
    ensures NilIffClosed(r) && Conserved(r) && OwnStack(r) && Sorted(r) && Counted(r) && Bounded(r) && Accounts(r)
  {
    hide Waiters;
    PrefixesKeep(s, r);
    CountedSame(s, r);
  }

  lemma LeaveKeeps(s: State, g: Ticket)
    requires Inv(s)
    ensures Inv(s.(waiting := s.waiting - {g}))
  {
    hide Conserved, OwnStack, Sorted, Counted, Bounded, Accounts;
    var r := s.(waiting := s.waiting - {g});
    OnlyWaiters(s, r);
    WaitersSame(s, r);
  }

  lemma SleepKeeps(s: State, g: Ticket, w: Waiter)
    requires Inv(s) && WaiterOk(s, w) && g !in s.dialing
    ensures Inv(s.(waiting := s.waiting[g := w]))
  {
    hide Conserved, OwnStack, Sorted, Counted, Bounded, Accounts;
    OnlyWaiters(s, s.(waiting := s.waiting[g := w]));
  }

  lemma CancelKeeps(s: State, g: Ticket)
    requires Inv(s) && g in s.waiting
    ensures Inv(Cancel(s, g))
  {
    hide Conserved, OwnStack, Sorted, Counted, Bounded, Accounts;
    OnlyWaiters(s, Cancel(s, g));
    assert WaiterOk(s, s.waiting[g]);
  }

  lemma WaitLoopKeeps(s: State, g: Ticket, server: string, since: int, deadline: int, ctxDone: bool)
    requires Inv(s) && !s.closed && g !in s.dialing
    requires since <= s.now && deadline == since + s.cfg.waitTimeout
    requires Active(s, server) < s.cfg.maxOpen ==> Active(s, server) + |Stack(s, server)| < s.cfg.maxOpen
    ensures Inv(WaitLoop(s, g, server, since, deadline, ctxDone).0)
  {
    if Active(s, server) < s.cfg.maxOpen {
      ReserveKeeps(s, g, server);
    } else if ctxDone || deadline - s.now <= 0 {
      LeaveKeeps(s, g);
    } else {
      SleepKeeps(s, g, Waiter(server, since, deadline, true, Armed(s.now + (deadline - s.now)), false));
    }
  }

  // ----- critical sections keep the invariant -----

  lemma TryGetKeeps(s: State, g: Ticket, server: string, ctxDone: bool)
    requires Inv(s) && Enabled(s, GetEvent(g, server, ctxDone))
    ensures Inv(TryGet(s, g, server, ctxDone).0)
  {
    hide Conserved, Accounts, Sorted, OwnStack, Counted, Waiters;
    if !s.closed {
      var q := Stack(s, server);
      var k := Usable(q, s.info);
      if k > 0 {
        var s1 := s;
        if k < |q| {
          DropKeeps(s, server, k);
          s1 := Drop(s, server, q[..k], q[k..]);
        }
        assert Stack(s1, server) == q[..k-1] + [q[k-1]];
        HandOutKeeps(s1, g, server, q[..k-1], q[k-1]);
        if k == |q| {
          DropNothing(s, server);
        }
      } else {
        var s1 := s;
        if q != [] {
          DropKeeps(s, server, 0);
          s1 := Drop(s, server, [], q);
          assert q[..0] == [] && q[0..] == q;
        }
        assert Stack(s1, server) == [];
        if Active(s1, server) < s1.cfg.maxOpen {
          ReserveKeeps(s1, g, server);
        } else if s1.cfg.waitTimeout > 0 {
          WaitLoopKeeps(s1, g, server, s1.now, s1.now + s1.cfg.waitTimeout, ctxDone);
        }
      }
    }
  }

  lemma DropNothing(s: State, server: string)
    requires s.conns.Stacks? && server in s.conns.m
    ensures var q := Stack(s, server); Drop(s, server, q[..|q|], q[|q|..]) == s
  {
    var q := Stack(s, server);
    assert q[..|q|] == q && q[|q|..] == [];
    assert s.conns.m[server := q] == s.conns.m;
  }

  lemma RecheckKeeps(s: State, g: Ticket)
    requires Inv(s) && Enabled(s, RecheckEvent(g))
    ensures Inv(Recheck(s, g).0)
  {
    assert g !in s.dialing;
    hide Conserved, Accounts, Sorted, OwnStack, Counted;
    var w := s.waiting[g];
    var q := Stack(s, w.server);
    if s.closed {
      LeaveKeeps(s, g);
    } else if q == [] {
      WaitLoopKeeps(s, g, w.server, w.since, w.deadline, w.ctxDone);
    } else {
      var rest, t := q[..|q|-1], q[|q|-1];
      assert q == rest + [t];
      if Healthy(s.info, t) {
        HandOutKeeps(s, g, w.server, rest, t);
      } else {
        DropKeeps(s, w.server, |q|-1);
        WaitLoopKeeps(Drop(s, w.server, rest, q[|q|-1..]), g, w.server, w.since, w.deadline, w.ctxDone);
      }
    }
  }

  lemma DialOkKeeps(s: State, g: Ticket, t: Transport)
    requires Inv(s) && Enabled(s, DialOkEvent(g, t))
    ensures Inv(DialOk(s, g, t))
  {
    var r := DialOk(s, g, t);
    OnePlace(s, t);
    assert Conserved(r) by {
      assert r.held.Keys == s.held.Keys + {t} && r.info.Keys == s.info.Keys + {t};
      assert multiset(r.held.Keys) == multiset(s.held.Keys) + multiset{t};
      assert multiset(r.info.Keys) == multiset(s.info.Keys) + multiset{t};
    }
    DialOkRest(s, g, t);
  }

  lemma DialOkRest(s: State, g: Ticket, t: Transport)
    requires Inv(s) && Enabled(s, DialOkEvent(g, t)) && t !in s.held
    ensures var r := DialOk(s, g, t); OwnStack(r) && Sorted(r) && Counted(r) && Bounded(r) && Waiters(r) && Accounts(r)
  {
    hide Conserved, Accounts, Bounded, Waiters;
    var r := DialOk(s, g, t);
    forall k | k in StackMap(r) ensures SortedStack(r, StackMap(r)[k])
      ensures forall i :: 0 <= i < |StackMap(r)[k]| ==> ServerOf(r, StackMap(r)[k][i]) == k
    {
      assert SortedStack(s, StackMap(s)[k]);
    }
    DialOkCounts(s, g, t);
    DialOkFrames(s, g, t);
  }

  lemma DialOkFrames(s: State, g: Ticket, t: Transport)
    requires Bounded(s) && Waiters(s) && Accounts(s) && g in s.dialing
    ensures var r := DialOk(s, g, t); Bounded(r) && Waiters(r) && Accounts(r)
  {
    BoundedSame(s, DialOk(s, g, t));
  }

  lemma HeldKnown(s: State, t: Transport)
    requires Conserved(s) && t in s.held
    ensures t in s.info
  {
    OnePlace(s, t);
  }

  /** A dial that succeeds turns one dial in flight into one held connection. */
  lemma DialOkCounts(s: State, g: Ticket, t: Transport)
    requires Conserved(s) && Counted(s) && g in s.dialing && t !in s.held && t !in s.info
    ensures Counted(DialOk(s, g, t))
  {
    var r := DialOk(s, g, t);
    forall u | u in s.held ensures u in s.info { HeldKnown(s, u); }
    assert Lent(r) == Lent(s)[t := s.dialing[g]];
    forall k ensures Active(r, k) == Count(Lent(r), k) + Count(r.dialing, k) {
      assert Active(s, k) == Count(Lent(s), k) + Count(s.dialing, k);
      CountInsert(Lent(s), t, s.dialing[g], k);
      CountRemove(s.dialing, g, k);
    }
  }

  lemma DialFailKeeps(s: State, g: Ticket)
    requires Inv(s) && Enabled(s, DialFailEvent(g))
    ensures Inv(DialFail(s, g))
  {
    hide Conserved, Sorted, OwnStack, Counted, Waiters;
    var r := DialFail(s, g);
    SumUpdate(s.active, s.dialing[g], Active(s, s.dialing[g]) - 1);
    PrefixesKeep(s, r);
    assert Conserved(r) by { ConservedSame(s, r); }
    assert Lent(r) == Lent(s);
    DialCountDown(s, r, g, s.dialing[g]);
    WaitersAwake(s, r);
  }

  lemma ConservedSame(s: State, r: State)
    requires Conserved(s) && StackMap(r) == StackMap(s) && r.held.Keys == s.held.Keys && r.shut == s.shut
    requires r.info.Keys == s.info.Keys
    ensures Conserved(r)
  {
  }

  // ----- Put -----

  lemma PutCounts(s: State, t: Transport)
    requires NilIffClosed(s) && Counted(s) && t in s.held
    ensures Counted(Put(s, t))
  {
    var r := Put(s, t);
    assert Lent(r) == Lent(s) - {t};
    HeldCountDown(s, r, t, ServerOf(s, t));
  }

  lemma RetireTotals(s: State, t: Transport)
    requires NilIffClosed(s) && Conserved(s) && Accounts(s) && t in s.held
    ensures var r := Retire(s, t); Conserved(r) && Accounts(r)
  {
    var r := Retire(s, t);
    SumUpdate(s.active, ServerOf(s, t), Active(s, ServerOf(s, t)) - 1);
    assert r.held.Keys == s.held.Keys - {t};
    assert multiset(s.held.Keys) == multiset(r.held.Keys) + multiset{t};
  }

  lemma PushTotals(s: State, t: Transport)
    requires NilIffClosed(s) && Conserved(s) && Accounts(s) && t in s.held && !s.closed
    ensures var r := Push(s, t); Conserved(r) && Accounts(r)
  {
    var r := Push(s, t);
    HeldKnown(s, t);
    SumUpdate(s.active, ServerOf(s, t), Active(s, ServerOf(s, t)) - 1);
    assert r.held.Keys == s.held.Keys - {t} && r.info.Keys == s.info.Keys;
    assert multiset(s.held.Keys) == multiset(r.held.Keys) + multiset{t};
    ContentsGrow(s.conns.m, ServerOf(s, t), [t]);
    assert multiset([t]) == multiset{t};
  }

  /** A connection used just now goes on top. */
  lemma PushOrder(p: State, r: State, server: string, t: Transport)
    requires OwnStack(p) && Sorted(p) && r.info == p.info && r.now == p.now
    requires StackMap(r) == StackMap(p)[server := Stack(p, server) + [t]]
    requires ServerOf(p, t) == server && t in p.info && p.info[t].lastUsed == p.now
    ensures OwnStack(r) && Sorted(r)
  {
    forall k | k in StackMap(r) ensures SortedStack(r, StackMap(r)[k])
      ensures forall i :: 0 <= i < |StackMap(r)[k]| ==> ServerOf(r, StackMap(r)[k][i]) == k
    {
      var q := Stack(p, k);
      assert SortedStack(p, q);
      assert StackMap(r)[k] == if k == server then q + [t] else q;
    }
  }

  lemma PutOrder(s: State, t: Transport)
    requires NilIffClosed(s) && Conserved(s) && OwnStack(s) && Sorted(s) && t in s.held
    ensures var r := Put(s, t); OwnStack(r) && Sorted(r)
  {
    hide Sorted, OwnStack, Healthy;
    var r := Put(s, t);
    HeldNotIdle(s, t);
    if r.conns == s.conns && r.info == s.info {
      PrefixesKeep(s, r);
    } else {
      var p := s.(info := r.info);
      TouchKeeps(s, p, t);
      PushOrder(p, r, ServerOf(s, t), t);
    }
  }

  lemma PutBounded(s: State, t: Transport)
    requires NilIffClosed(s) && Bounded(s) && t in s.held
    ensures Bounded(Put(s, t))
  {
    var r := Put(s, t);
    var server := ServerOf(s, t);
    forall k ensures Active(r, k) + |Stack(r, k)| <= r.cfg.maxOpen && |Stack(r, k)| <= r.cfg.maxIdle {
      assert Active(r, k) == Active(s, k) - (if k == server then 1 else 0);
      assert |Stack(r, k)| <= |Stack(s, k)| + (if k == server then 1 else 0);
    }
  }

  lemma PutKeeps(s: State, t: Transport)
    requires Inv(s) && Enabled(s, PutEvent(t))
    ensures Inv(Put(s, t))
  {
    hide Conserved, Accounts, Sorted, OwnStack, Counted, Waiters, Bounded;
    if Put(s, t) == Retire(s, t) { RetireTotals(s, t); } else { PushTotals(s, t); }
    PutBounded(s, t);
    PutOrder(s, t);
    PutCounts(s, t);
    WaitersAwake(s, Put(s, t));
  }

  // ----- ClearServer, Close and the reaper -----

  lemma ClearTotals(s: State, server: string)
    requires NilIffClosed(s) && Conserved(s) && Accounts(s)
    ensures var r := ClearServer(s, server); Conserved(r) && Accounts(r)
  {
    if !s.conns.Nil? && server in s.conns.m {
      ContentsRemove(s.conns.m, server);
      MultisetCard(multiset(s.conns.m[server]), Contents(s.conns.m - {server}));
    } else if !s.conns.Nil? {
      assert s.conns.m - {server} == s.conns.m;
    }
  }

  lemma ClearKeeps(s: State, server: string)
    requires Inv(s)
    ensures Inv(ClearServer(s, server))
  {
    hide Conserved, Accounts, Sorted, OwnStack, Counted, Waiters;
    var r := ClearServer(s, server);
    ClearTotals(s, server);
    PrefixesKeep(s, r);
    CountedSame(s, r);
    WaitersSame(s, r);
  }

  lemma CloseKeeps(s: State)
    requires Inv(s)
    ensures Inv(Close(s))
  {
    if !s.closed {
      var r := Close(s);
      assert Idle(r) == multiset{};
      CountedSame(s, r);
      WaitersAwake(s, r);
    }
  }

  lemma {:induction false} FreshStale(q: seq<Transport>, info: map<Transport, Info>, now: int, timeout: int)
    ensures multiset(q) == multiset(Fresh(q, info, now, timeout)) + multiset(Stale(q, info, now, timeout))
  {
    if q != [] {
      FreshStale(q[..|q|-1], info, now, timeout);
      assert q == q[..|q|-1] + [q[|q|-1]];
    }
  }

  /** On an ordered stack the expired connections are exactly the bottom ones. */
  lemma {:induction false} ReapedPrefix(s: State, q: seq<Transport>, timeout: int)
    requires SortedStack(s, q)
    ensures q == Stale(q, s.info, s.now, timeout) + Fresh(q, s.info, s.now, timeout)
    ensures forall t :: t in Stale(q, s.info, s.now, timeout) ==> Expired(s.info, t, s.now, timeout)
    ensures forall t :: t in Fresh(q, s.info, s.now, timeout) ==> !Expired(s.info, t, s.now, timeout)
  {
    if q != [] {
      var rest, t := q[..|q|-1], q[|q|-1];
      ReapedPrefix(s, rest, timeout);
      assert q == rest + [t];
      if Expired(s.info, t, s.now, timeout) {
        assert Fresh(rest, s.info, s.now, timeout) == [];
      }
    }
  }

  lemma ReapTotals(s: State)
    requires NilIffClosed(s) && Conserved(s) && Accounts(s)
    ensures var r := Reap(s); Conserved(r) && Accounts(r)
  {
    if !s.closed {
      var kept := FreshMap(s.conns.m, s.info, s.now, s.cfg.idleTimeout);
      var stale := StaleMap(s.conns.m, s.info, s.now, s.cfg.idleTimeout);
      forall k | k in s.conns.m ensures multiset(s.conns.m[k]) == multiset(kept[k]) + multiset(stale[k]) {
        FreshStale(s.conns.m[k], s.info, s.now, s.cfg.idleTimeout);
      }
      ContentsSplit(s.conns.m, kept, stale);
      MultisetCard(Contents(kept), Contents(stale));
      MultisetMove(Contents(kept), multiset(s.held.Keys), s.shut, Contents(stale), multiset(s.info.Keys));
    }
  }

  lemma ReapOrderAt(s: State, q: seq<Transport>, k: string, r: State)
    requires SortedStack(s, q) && (forall i :: 0 <= i < |q| ==> ServerOf(s, q[i]) == k)
    requires r.info == s.info && r.now == s.now
    ensures var q' := Fresh(q, s.info, s.now, s.cfg.idleTimeout);
            && SortedStack(r, q') && |q'| <= |q| && (forall i :: 0 <= i < |q'| ==> ServerOf(r, q'[i]) == k)
  {
    var q' := Fresh(q, s.info, s.now, s.cfg.idleTimeout);
    ReapedPrefix(s, q, s.cfg.idleTimeout);
    var n := |q| - |q'|;
    assert n >= 0 && forall i :: 0 <= i < |q'| ==> q'[i] == q[n + i];
  }

  lemma ReapOrder(s: State)
    requires NilIffClosed(s) && OwnStack(s) && Sorted(s)
    ensures var r := Reap(s); OwnStack(r) && Sorted(r) && forall k :: |Stack(r, k)| <= |Stack(s, k)|
  {
    var r := Reap(s);
    if !s.closed {
      forall k | k in StackMap(s) ensures SortedStack(r, StackMap(r)[k]) && |StackMap(r)[k]| <= |StackMap(s)[k]|
        ensures forall i :: 0 <= i < |StackMap(r)[k]| ==> ServerOf(r, StackMap(r)[k][i]) == k
      {
        ReapOrderAt(s, StackMap(s)[k], k, r);
      }
    }
  }

  lemma ReapKeeps(s: State)
    requires Inv(s)
    ensures Inv(Reap(s))
  {
    hide Conserved, Accounts, Sorted, OwnStack, Counted, Waiters;
    var r := Reap(s);
    ReapTotals(s);
    ReapOrder(s);
    CountedSame(s, r);
    WaitersSame(s, r);
  }

  // ----- the environment -----

  lemma TickKeeps(s: State, now: int)
    requires Inv(s) && s.now <= now
    ensures Inv(Tick(s, now))
  {
    var r := Tick(s, now);
    CountedSame(s, r);
    forall k | k in StackMap(r) ensures SortedStack(r, StackMap(r)[k]) {
      assert SortedStack(s, StackMap(s)[k]);
    }
    forall g | g in r.waiting ensures WaiterOk(r, r.waiting[g]) {
      TickWaiter(s, now, g);
    }
  }

  lemma TickWaiter(s: State, now: int, g: Ticket)
    requires s.now <= now && g in s.waiting && WaiterOk(s, s.waiting[g])
    ensures WaiterOk(Tick(s, now), Tick(s, now).waiting[g])
  {
    if g in Firing(s, now) {
      assert |Firing(s, now)| > 0;
    }
  }

  lemma SetHealthKeeps(s: State, t: Transport, healthy: bool)
    requires Inv(s) && t in s.info
    ensures Inv(s.(info := s.info[t := s.info[t].(healthy := healthy)]))
  {
    var r := s.(info := s.info[t := s.info[t].(healthy := healthy)]);
    ConservedSame(s, r);
    CountedSame(s, r);
    BoundedSame(s, r);
    WaitersSame(s, r);
    forall k | k in StackMap(r) ensures SortedStack(r, StackMap(r)[k]) {
      assert SortedStack(s, StackMap(s)[k]);
    }
  }

  lemma BroadcastKeeps(s: State)
    requires Inv(s) && s.broadcasts > 0
    ensures Inv(Broadcast(s))
  {
    hide Conserved, OwnStack, Sorted, Counted, Bounded, Accounts;
    OnlyWaiters(s, Broadcast(s));
    WaitersAwake(s, Broadcast(s));
  }
}
