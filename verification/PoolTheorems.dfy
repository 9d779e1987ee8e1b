/** The guarantees of the pool, for every run and every state in it. */
module PoolTheorems {
  import opened MapFolds
  import opened PoolModel
  import opened PoolInvariants

  lemma InitInv(cfg: Config, now: int)
    ensures Inv(Init(cfg, now))
  {
    var s := Init(cfg, now);
    assert Lent(s) == map[];
    assert Idle(s) == multiset{};
    forall k: string ensures Count(Lent(s), k) == 0 && Count(s.dialing, k) == 0 {
      CountEmpty<Transport, string>(k);
      CountEmpty<Ticket, string>(k);
    }
  }

  lemma StepInv(s: State, e: Event)
    requires Inv(s) && Enabled(s, e)
    ensures Inv(Apply(s, e))
  {
    hide Inv, TryGet, Recheck;
    assert NilIffClosed(s) && Apart(s) by { InvHead(s); }
    match e
    case GetEvent(g, server, ctxDone) => TryGetKeeps(s, g, server, ctxDone);
    case RecheckEvent(g) => RecheckKeeps(s, g);
    case DialOkEvent(g, t) => DialOkKeeps(s, g, t);
    case DialFailEvent(g) => DialFailKeeps(s, g);
    case PutEvent(t) => PutKeeps(s, t);
    case ClearEvent(server) => ClearKeeps(s, server);
    case ReapEvent => ReapKeeps(s);
    case CloseEvent => CloseKeeps(s);
    case BroadcastEvent => BroadcastKeeps(s);
    case TickEvent(now) => TickKeeps(s, now);
    case CancelEvent(g) => CancelKeeps(s, g);
    case SetHealthEvent(t, healthy) => SetHealthKeeps(s, t, healthy);
  }

  lemma InvHead(s: State)
    requires Inv(s)
    ensures NilIffClosed(s) && Apart(s)
  {
  }

  lemma TryGetShut(s: State, g: Ticket, server: string, ctxDone: bool)
    requires NilIffClosed(s)
    ensures s.shut <= TryGet(s, g, server, ctxDone).0.shut
  {
  }

  lemma RecheckShut(s: State, g: Ticket)
    requires NilIffClosed(s) && g in s.waiting
    ensures s.shut <= Recheck(s, g).0.shut
  {
  }

  /** No event opens the pool again, changes its limits or takes back the closing of a transport. */
  lemma StepShape(s: State, e: Event)
    requires NilIffClosed(s) && Enabled(s, e)
    ensures var r := Apply(s, e); NilIffClosed(r) && (s.closed ==> r.closed) && r.cfg == s.cfg && s.shut <= r.shut
  {
    hide TryGet, Recheck, Fresh, Stale, FreshMap, StaleMap;
    match e
    case GetEvent(g, server, ctxDone) => TryGetShut(s, g, server, ctxDone);
    case RecheckEvent(g) => RecheckShut(s, g);
    case _ =>
  }

  // ----- whole runs -----

  lemma {:induction false} RunInv(states: seq<State>, events: seq<Event>, cfg: Config, start: int, i: nat)
    requires IsRun(states, events, cfg, start) && i < |states|
    ensures Inv(states[i]) && states[i].cfg == Defaults(cfg)
  {
    if i == 0 {
      InitInv(cfg, start);
    } else {
      RunInv(states, events, cfg, start, i - 1);
      assert Step(states[i-1], events[i-1], states[i]);
      StepInv(states[i-1], events[i-1]);
      StepShape(states[i-1], events[i-1]);
    }
  }

  lemma {:induction false} RunShape(states: seq<State>, events: seq<Event>, cfg: Config, start: int, i: nat, j: nat)
    requires IsRun(states, events, cfg, start) && i <= j < |states|
    ensures states[i].closed ==> states[j].closed
    ensures states[i].shut <= states[j].shut
    ensures states[i].closed ==> states[j].stats.idleConns == states[i].stats.idleConns
  {
    hide Apply, Inv;
    if i < j {
      RunShape(states, events, cfg, start, i, j - 1);
      RunInv(states, events, cfg, start, j - 1);
      assert Step(states[j-1], events[j-1], states[j]);
      assert NilIffClosed(states[j-1]) by { InvHead(states[j-1]); }
      StepShape(states[j-1], events[j-1]);
      if states[j-1].closed {
        ClosedIdleFrozen(states[j-1], events[j-1]);
      }
    }
  }

  lemma ClosedIdleFrozen(s: State, e: Event)
    requires NilIffClosed(s) && Enabled(s, e) && s.closed
    ensures Apply(s, e).stats.idleConns == s.stats.idleConns
  {
    hide Usable, WaitLoop;
  }

  /** Per server, held, dialling and idle connections together stay within `MaxOpen`, and idle
      ones within `MaxIdle`, although neither reuse path of `Get` looks at `MaxOpen`. */
  lemma Capacity(states: seq<State>, events: seq<Event>, cfg: Config, start: int, i: nat, server: string)
    requires IsRun(states, events, cfg, start) && i < |states|
    ensures 0 <= Active(states[i], server)
    ensures Active(states[i], server) + |Stack(states[i], server)| <= Defaults(cfg).maxOpen
    ensures |Stack(states[i], server)| <= Defaults(cfg).maxIdle
  {
    RunInv(states, events, cfg, start, i);
  }

  /** A call asleep for a server has a reason to be: the pool is open, every slot of the server is
      taken and none of its connections is idle. */
  lemma NoLostWakeup(states: seq<State>, events: seq<Event>, cfg: Config, start: int, i: nat, g: Ticket)
    requires IsRun(states, events, cfg, start) && i < |states|
    requires g in states[i].waiting && states[i].waiting[g].asleep
    ensures var s := states[i]; var server := s.waiting[g].server;
            !s.closed && Active(s, server) == Defaults(cfg).maxOpen && Stack(s, server) == []
  {
    RunInv(states, events, cfg, start, i);
    assert WaiterOk(states[i], states[i].waiting[g]);
  }

  /** A call asleep has a timer set for no later than its deadline.  Once its timer has fired, its
      deadline has come or its context is over, a broadcast is on its way. */
  lemma BoundedWaiting(states: seq<State>, events: seq<Event>, cfg: Config, start: int, i: nat, g: Ticket)
    requires IsRun(states, events, cfg, start) && i < |states|
    requires g in states[i].waiting && states[i].waiting[g].asleep
    ensures var s := states[i]; var w := s.waiting[g];
            && w.since <= s.now && w.deadline == w.since + cfg.waitTimeout
            && (w.timer.Due? || s.now < w.timer.at <= w.deadline)
            && (w.timer.Due? || s.now >= w.deadline || w.ctxDone ==> Enabled(s, BroadcastEvent))
  {
    RunInv(states, events, cfg, start, i);
    assert WaiterOk(states[i], states[i].waiting[g]);
  }

  // ----- what the critical sections of `Get` decide -----

  /** What an outcome means for the callers: the count of its server, the connection, the dial and
      the waiter of call `g`, and nothing of any other. */
  ghost predicate Moves(s: State, r: State, o: Outcome, g: Ticket, server: string, since: int, deadline: int) {
    && (forall k :: Active(r, k) == Active(s, k) + if k == server && (o.Got? || o.Reserved?) then 1 else 0)
    && r.held == (if o.Got? then s.held[o.t := g] else s.held)
    && r.dialing == (if o.Reserved? then s.dialing[g := server] else s.dialing)
    && r.waiting == (if o.Slept? then s.waiting[g := Waiter(server, since, deadline, true, Armed(deadline), false)]
                     else s.waiting - {g})
  }

  lemma ReserveMoves(s: State, g: Ticket, server: string, since: int, deadline: int)
    ensures Moves(s, Reserve(s, g, server), Reserved, g, server, since, deadline)
  {
  }

  lemma LeaveMoves(s: State, o: Outcome, g: Ticket, server: string, since: int, deadline: int)
    requires !o.Got? && !o.Reserved? && !o.Slept?
    ensures Moves(s, s.(waiting := s.waiting - {g}), o, g, server, since, deadline)
  {
  }

  lemma SleepMoves(s: State, g: Ticket, server: string, since: int, deadline: int)
    ensures var w := Waiter(server, since, deadline, true, Armed(deadline), false);
            Moves(s, s.(waiting := s.waiting[g := w]), Slept, g, server, since, deadline)
  {
  }

  lemma WaitLoopMoves(s: State, g: Ticket, server: string, since: int, deadline: int, ctxDone: bool)
    ensures var (r, o) := WaitLoop(s, g, server, since, deadline, ctxDone); Moves(s, r, o, g, server, since, deadline)
  {
    hide Reserve, Moves;
    ReserveMoves(s, g, server, since, deadline);
    LeaveMoves(s, ContextError, g, server, since, deadline);
    LeaveMoves(s, ExhaustedError(s.cfg.waitTimeout), g, server, since, deadline);
    SleepMoves(s, g, server, since, deadline);
    assert s.now + (deadline - s.now) == deadline;
  }

  lemma HandOutMoves(s: State, g: Ticket, server: string, q: seq<Transport>, t: Transport, since: int, deadline: int)
    requires s.conns.Stacks?
    ensures Moves(s, HandOut(s, g, server, q, t), Got(t), g, server, since, deadline)
  {
  }

  /** Dropping idle connections first makes no difference to callers. */
  lemma DropMoves(s: State, server: string, q: seq<Transport>, dropped: seq<Transport>, r: State, o: Outcome, g: Ticket,
                  since: int, deadline: int)
    requires s.conns.Stacks? && Moves(Drop(s, server, q, dropped), r, o, g, server, since, deadline)
    ensures Moves(s, r, o, g, server, since, deadline)
  {
  }

  lemma UsableHealthy(q: seq<Transport>, info: map<Transport, Info>)
    ensures Usable(q, info) > 0 <==> exists t :: t in q && Healthy(info, t)
  {
    UsableSpec(q, info);
    var k := Usable(q, info);
    if k > 0 {
      assert q[k-1] in q;
    }
  }

  /** What the first critical section of `Get` decides, and exactly when. */
  lemma FirstTryDecides(s: State, g: Ticket, server: string, ctxDone: bool)
    requires NilIffClosed(s)
    ensures var o := TryGet(s, g, server, ctxDone).1;
            var idle := exists t :: t in Stack(s, server) && Healthy(s.info, t);
            var full := Active(s, server) >= s.cfg.maxOpen;
            && (o.ClosedError? <==> s.closed)
            && (o.Got? <==> !s.closed && idle)
            && (o.Reserved? <==> !s.closed && !idle && !full)
            && (o.ExhaustedError? <==> !s.closed && !idle && full && s.cfg.waitTimeout <= 0)
            && (o.ContextError? <==> !s.closed && !idle && full && s.cfg.waitTimeout > 0 && ctxDone)
            && (o.Slept? <==> !s.closed && !idle && full && s.cfg.waitTimeout > 0 && !ctxDone)
            && (o.ExhaustedError? ==> o.waited == 0)
  {
    hide HandOut, Reserve, Usable, Healthy;
    UsableHealthy(Stack(s, server), s.info);
  }

  /** What it does to callers: exactly what its outcome says, with a wait that ends after the wait timeout. */
  lemma FirstTryMoves(s: State, g: Ticket, server: string, ctxDone: bool)
    requires NilIffClosed(s) && Enabled(s, GetEvent(g, server, ctxDone))
    ensures var (r, o) := TryGet(s, g, server, ctxDone); Moves(s, r, o, g, server, s.now, s.now + s.cfg.waitTimeout)
  {
    hide Usable, Drop, HandOut, WaitLoop, Reserve, Moves;
    if s.closed {
      assert s.waiting - {g} == s.waiting;
      LeaveMoves(s, ClosedError, g, server, s.now, s.now + s.cfg.waitTimeout);
    } else {
      var q := Stack(s, server);
      var k := Usable(q, s.info);
      var (left, dropped) := if k > 0 then (q[..k], q[k..]) else ([], q);
      var s1 := if q == [] then s else Drop(s, server, left, dropped);
      SameCallers(s, server, left, dropped);
      if k > 0 {
        HandOutMoves(s1, g, server, q[..k-1], q[k-1], s.now, s.now + s.cfg.waitTimeout);
      } else {
        assert s1.waiting - {g} == s1.waiting;
        LeaveMoves(s1, ExhaustedError(0), g, server, s.now, s.now + s.cfg.waitTimeout);
        WaitLoopMoves(s1, g, server, s1.now, s1.now + s1.cfg.waitTimeout, ctxDone);
        ReserveMoves(s1, g, server, s.now, s.now + s.cfg.waitTimeout);
      }
      if q != [] {
        var (r, o) := TryGet(s, g, server, ctxDone);
        DropMoves(s, server, left, dropped, r, o, g, s.now, s.now + s.cfg.waitTimeout);
      }
    }
  }

  lemma SameCallers(s: State, server: string, q: seq<Transport>, dropped: seq<Transport>)
    requires s.conns.Stacks?
    ensures var r := Drop(s, server, q, dropped);
            && r.conns.Stacks? && r.waiting == s.waiting && r.now == s.now && r.cfg == s.cfg && r.active == s.active
  {
  }

  /** What a call decides after it was woken, and exactly when.  It looks at the top idle connection only. */
  lemma RecheckDecides(s: State, g: Ticket)
    requires NilIffClosed(s) && g in s.waiting
    ensures var o := Recheck(s, g).1; var w := s.waiting[g]; var q := Stack(s, w.server);
            var top := q != [] && Healthy(s.info, q[|q|-1]);
            var full := Active(s, w.server) >= s.cfg.maxOpen;
            && (o.ClosedError? <==> s.closed)
            && (o.Got? <==> !s.closed && top)
            && (o.Reserved? <==> !s.closed && !top && !full)
            && (o.ContextError? <==> !s.closed && !top && full && w.ctxDone)
            && (o.ExhaustedError? <==> !s.closed && !top && full && !w.ctxDone && s.now >= w.deadline)
            && (o.Slept? <==> !s.closed && !top && full && !w.ctxDone && s.now < w.deadline)
            && (o.ExhaustedError? ==> o.waited == s.cfg.waitTimeout)
  {
    hide HandOut, Reserve, Healthy;
  }

  /** What it does to callers: exactly what its outcome says, without a new deadline. */
  lemma RecheckMoves(s: State, g: Ticket)
    requires NilIffClosed(s) && g in s.waiting
    ensures var (r, o) := Recheck(s, g); var w := s.waiting[g];
            o.ClosedError? || Moves(s, r, o, g, w.server, w.since, w.deadline)
    ensures g in Recheck(s, g).0.waiting <==> Recheck(s, g).1.Slept?
  {
    hide Drop, HandOut, WaitLoop, Reserve, Healthy;
    if !s.closed {
      var w := s.waiting[g];
      var q := Stack(s, w.server);
      if q == [] {
        WaitLoopMoves(s, g, w.server, w.since, w.deadline, w.ctxDone);
      } else if Healthy(s.info, q[|q|-1]) {
        HandOutMoves(s, g, w.server, q[..|q|-1], q[|q|-1], w.since, w.deadline);
      } else {
        var s1 := Drop(s, w.server, q[..|q|-1], q[|q|-1..]);
        WaitLoopMoves(s1, g, w.server, w.since, w.deadline, w.ctxDone);
        var (r, o) := Recheck(s, g);
        DropMoves(s, w.server, q[..|q|-1], q[|q|-1..], r, o, g, w.since, w.deadline);
      }
    }
  }

  /** The stack after a wake-up: its top is popped, and closed unless it is the one handed out. */
  lemma RecheckPops(s: State, g: Ticket)
    requires NilIffClosed(s) && g in s.waiting && !s.closed
    ensures var (r, o) := Recheck(s, g); var server := s.waiting[g].server; var q := Stack(s, server);
            if q == [] then r.conns == s.conns && r.shut == s.shut
            else && Stack(r, server) == q[..|q|-1]
                 && (if o.Got? then o.t == q[|q|-1] && r.shut == s.shut else r.shut == s.shut + multiset{q[|q|-1]})
  {
    hide Healthy, WaitLoop;
    var q := Stack(s, s.waiting[g].server);
    if q != [] {
      assert q[|q|-1..] == [q[|q|-1]];
    }
  }

  /** A sleeper whose context is over, or whose deadline has come, is woken by the broadcast on its
      way and leaves the wait loop. */
  lemma LeavesWhenDone(states: seq<State>, events: seq<Event>, cfg: Config, start: int, i: nat, g: Ticket)
    requires IsRun(states, events, cfg, start) && i < |states|
    requires g in states[i].waiting && states[i].waiting[g].asleep
    requires states[i].waiting[g].ctxDone || states[i].now >= states[i].waiting[g].deadline
    ensures NilIffClosed(states[i]) && Enabled(states[i], BroadcastEvent)
    ensures var woken := Broadcast(states[i]);
            && Enabled(woken, RecheckEvent(g))
            && !Recheck(woken, g).1.Slept? && g !in Recheck(woken, g).0.waiting
  {
    RunInv(states, events, cfg, start, i);
    assert WaiterOk(states[i], states[i].waiting[g]);
    RecheckDecides(Broadcast(states[i]), g);
    RecheckMoves(Broadcast(states[i]), g);
  }

  /** The waited form of the saturation error comes exactly when the deadline has passed, the
      context is alive, the pool open, and, the top idle connection aside, the server still full. */
  lemma WaitedErrorExactly(states: seq<State>, events: seq<Event>, cfg: Config, start: int, i: nat, g: Ticket)
    requires IsRun(states, events, cfg, start) && i < |states|
    requires Enabled(states[i], RecheckEvent(g))
    ensures NilIffClosed(states[i])
    ensures var s := states[i]; var w := s.waiting[g];
            Recheck(s, g).1.ExhaustedError? <==>
            && !s.closed && !w.ctxDone
            && s.now >= w.since + cfg.waitTimeout
            && Active(s, w.server) == Defaults(cfg).maxOpen
    ensures var s := states[i];
            Recheck(s, g).1.ExhaustedError? ==> Recheck(s, g).1.waited == cfg.waitTimeout
  {
    RunInv(states, events, cfg, start, i);
    var s := states[i];
    var w := s.waiting[g];
    assert WaiterOk(s, w);
    assert Active(s, w.server) + |Stack(s, w.server)| <= s.cfg.maxOpen;
  }

  /** Every transport a dial produced is in exactly one place: once on the stack of its own server,
      with exactly one caller, or closed exactly once. */
  lemma OwnershipPartition(states: seq<State>, events: seq<Event>, cfg: Config, start: int, i: nat, t: Transport)
    requires IsRun(states, events, cfg, start) && i < |states| && t in states[i].info
    ensures var s := states[i]; var home := Stack(s, ServerOf(s, t));
            multiset(home)[t] + (if t in s.held then 1 else 0) + s.shut[t] == 1
    ensures forall k :: k != ServerOf(states[i], t) ==> t !in Stack(states[i], k)
  {
    RunInv(states, events, cfg, start, i);
    var s := states[i];
    OnePlace(s, t);
    StackOwner(s, t);
  }

  /** Where `t` can be idle, and how often. */
  lemma StackOwner(s: State, t: Transport)
    requires Conserved(s) && OwnStack(s)
    ensures multiset(Stack(s, ServerOf(s, t)))[t] == Idle(s)[t]
    ensures forall k :: k != ServerOf(s, t) ==> t !in Stack(s, k)
  {
    var m := StackMap(s);
    forall k | k != ServerOf(s, t) ensures t !in Stack(s, k) {
    }
    var home := ServerOf(s, t);
    if home in m {
      ContentsRemove(m, home);
      if t in Contents(m - {home}) {
        var k := ContentsWhere(m - {home}, t);
      }
    } else if t in Contents(m) {
      var k := ContentsWhere(m, t);
    }
  }

  /** A transport that was closed stays closed, is not closed again, and nobody gets it again. */
  lemma ClosedForGood(states: seq<State>, events: seq<Event>, cfg: Config, start: int, i: nat, j: nat, t: Transport)
    requires IsRun(states, events, cfg, start) && i <= j < |states|
    requires t in states[i].shut
    ensures states[j].shut[t] == 1 && t !in states[j].held
    ensures forall k :: t !in Stack(states[j], k)
  {
    RunInv(states, events, cfg, start, j);
    RunShape(states, events, cfg, start, i, j);
    var s := states[j];
    assert t in s.shut;
    OnePlace(s, t);
    StackOwner(s, t);
  }

  /** After `Close` nothing is idle ever again; when the dials in flight are over and every held
      connection is back, everything is closed and every count is zero. */
  lemma DrainAfterClose(states: seq<State>, events: seq<Event>, cfg: Config, start: int, i: nat, j: nat)
    requires IsRun(states, events, cfg, start) && i <= j < |states| && states[i].closed
    ensures states[j].closed && states[j].conns.Nil?
    ensures forall g :: g in states[j].waiting ==> !states[j].waiting[g].asleep
    ensures states[j].held == map[] && states[j].dialing == map[] ==>
              && states[j].shut == multiset(states[j].info.Keys)
              && (forall server :: Active(states[j], server) == 0)
              && states[j].stats.activeConns == 0
  {
    RunInv(states, events, cfg, start, j);
    RunShape(states, events, cfg, start, i, j);
    var s := states[j];
    forall g | g in s.waiting ensures !s.waiting[g].asleep {
      assert WaiterOk(s, s.waiting[g]);
    }
    if s.held == map[] && s.dialing == map[] {
      assert Lent(s) == map[];
      forall server ensures Active(s, server) == 0 {
        CountEmpty<Transport, string>(server);
        CountEmpty<Ticket, string>(server);
        assert Active(s, server) == Count(Lent(s), server) + Count(s.dialing, server);
      }
      forall k | k in s.active ensures s.active[k] == 0 {
        assert Active(s, k) == 0;
      }
      SumZero(s.active);
    }
  }

  /** The statistics, against what happened. */
  lemma Accounting(states: seq<State>, events: seq<Event>, cfg: Config, start: int, i: nat)
    requires IsRun(states, events, cfg, start) && i < |states|
    ensures var s := states[i];
            && (forall k :: Active(s, k) == Count(Lent(s), k) + Count(s.dialing, k))
            && s.stats.activeConns == Sum(s.active)
            && (!s.closed ==> s.stats.idleConns == |Contents(StackMap(s))|)
            && s.stats.totalConns == s.stats.misses
            && s.stats.hits + s.stats.misses == s.stats.activeConns + s.puts + s.failedDials
    ensures forall j :: i <= j < |states| && states[i].closed ==>
              states[j].stats.idleConns == states[i].stats.idleConns
  {
    RunInv(states, events, cfg, start, i);
    forall j | i <= j < |states| && states[i].closed
      ensures states[j].stats.idleConns == states[i].stats.idleConns
    {
      RunShape(states, events, cfg, start, i, j);
    }
  }

  /** A reap pass takes exactly the expired connections, which are the bottom of each stack. */
  lemma ReapIsPrefix(states: seq<State>, events: seq<Event>, cfg: Config, start: int, i: nat, server: string)
    requires IsRun(states, events, cfg, start) && i < |states| && !states[i].closed
    ensures NilIffClosed(states[i]) && SortedStack(states[i], Stack(states[i], server))
    ensures var s := states[i]; var q, q' := Stack(s, server), Stack(Reap(s), server);
            && |q'| <= |q| && q' == q[|q| - |q'|..]
            && (forall t :: t in q ==> (t in q' <==> s.now - s.info[t].lastUsed <= Defaults(cfg).idleTimeout))
  {
    RunInv(states, events, cfg, start, i);
    var s := states[i];
    var q, q' := Stack(s, server), Stack(Reap(s), server);
    if server in StackMap(s) {
      assert SortedStack(s, q);
      ReapedPrefix(s, q, s.cfg.idleTimeout);
      var stale := Stale(q, s.info, s.now, s.cfg.idleTimeout);
      assert q == stale + q';
    }
  }

  /** On an ordered stack, what `Usable` stops at is the newest healthy connection. */
  lemma UsableNewest(s: State, q: seq<Transport>)
    requires SortedStack(s, q)
    ensures Usable(q, s.info) > 0 <==> exists t :: t in q && Healthy(s.info, t)
    ensures var k := Usable(q, s.info);
            k > 0 ==> forall t :: t in q && Healthy(s.info, t) ==> s.info[t].lastUsed <= s.info[q[k-1]].lastUsed
  {
    UsableSpec(q, s.info);
    UsableHealthy(q, s.info);
  }

  lemma TryGetPops(s: State, g: Ticket, server: string, ctxDone: bool)
    requires NilIffClosed(s) && !s.closed
    ensures var q := Stack(s, server); var k := Usable(q, s.info); var (r, o) := TryGet(s, g, server, ctxDone);
            && (o.Got? <==> k > 0)
            && (k > 0 ==> o.t == q[k-1] && Stack(r, server) == q[..k-1] && r.held == s.held[o.t := g]
                          && r.shut == s.shut + multiset(q[k..]))
  {
    var q := Stack(s, server);
    var k := Usable(q, s.info);
    if k > 0 {
      assert q[..k][..k-1] == q[..k-1];
    }
  }

  /** `Get` hands out an idle connection iff a healthy one exists; it is the one used last of the
      healthy ones, what lay above it is closed and what lay below it is left alone. */
  lemma ReuseNewest(states: seq<State>, events: seq<Event>, cfg: Config, start: int, i: nat,
                    g: Ticket, server: string, ctxDone: bool)
    requires IsRun(states, events, cfg, start) && i < |states| && !states[i].closed
    ensures NilIffClosed(states[i]) && SortedStack(states[i], Stack(states[i], server))
    ensures var s := states[i]; var q := Stack(s, server);
            TryGet(s, g, server, ctxDone).1.Got? <==> exists t :: t in q && Healthy(s.info, t)
    ensures var s := states[i]; var q := Stack(s, server); var (r, o) := TryGet(s, g, server, ctxDone);
            o.Got? ==>
            && Healthy(s.info, o.t) && r.held == s.held[o.t := g]
            && (forall t :: t in q && Healthy(s.info, t) ==> s.info[t].lastUsed <= s.info[o.t].lastUsed)
            && (exists n :: 0 <= n < |q| && q[n] == o.t && Stack(r, server) == q[..n]
                            && r.shut == s.shut + multiset(q[n+1..]))
  {
    RunInv(states, events, cfg, start, i);
    var s := states[i];
    var q := Stack(s, server);
    assert NilIffClosed(s) && SortedStack(s, q);
    hide Inv, TryGet, SortedStack;
    UsableNewest(s, q);
    TryGetPops(s, g, server, ctxDone);
    var k := Usable(q, s.info);
    if k > 0 {
      UsableSpec(q, s.info);
      var n := k - 1;
      assert q[n] in q;
    }
  }
}
