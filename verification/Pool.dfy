/** pkg/pool/pool.go in its own form: a `Pool` object that its critical sections update in place.
    Each method is one of them.  The ghost field `s` is the state of the transition system: `Linked`
    ties what the pool stores to the real fields, and the rest of it records what the pool did to
    the world, namely the transports it closed and the calls it woke.  Every method moves `s` by the
    event of the same name. */
module ConnectionPool {
  import opened MapFolds
  import opened PoolModel
  import opened PoolInvariants
  import PoolTheorems

  class Conn {
    const serverName: string
    const transport: Transport
    var lastUsed: int
    var healthy: bool

    constructor (serverName: string, transport: Transport, now: int)
      ensures this.serverName == serverName && this.transport == transport
      ensures lastUsed == now && healthy
    {
      this.serverName, this.transport := serverName, transport;
      lastUsed, healthy := now, true;
    }
  }

  datatype ConnMap = NilMap | ConnMap(m: map<string, seq<Conn>>)

  /** `q` is the stack of connections that `ids` names. */
  ghost predicate SameStack(known: map<Transport, Conn>, q: seq<Conn>, ids: seq<Transport>): (same: bool)
    ensures same ==> |q| == |ids|
  {
    |q| == |ids| && forall i :: 0 <= i < |q| ==> ids[i] in known && known[ids[i]] == q[i] && q[i].transport == ids[i]
  }

  ghost predicate SameStacks(known: map<Transport, Conn>, conns: ConnMap, stacks: Stacks) {
    && (conns.NilMap? <==> stacks.Nil?)
    && (conns.ConnMap? ==>
          && conns.m.Keys == stacks.m.Keys
          && forall k :: k in conns.m ==> SameStack(known, conns.m[k], stacks.m[k]))
  }

  lemma SameStackAt(known: map<Transport, Conn>, conns: ConnMap, stacks: Stacks, k: string)
    requires SameStacks(known, conns, stacks) && conns.ConnMap? && k in conns.m
    ensures stacks.Stacks? && k in stacks.m && SameStack(known, conns.m[k], stacks.m[k])
  {
  }

  lemma NoStack(known: map<Transport, Conn>)
    ensures SameStack(known, [], [])
  {
  }

  lemma SameStackElement(known: map<Transport, Conn>, q: seq<Conn>, ids: seq<Transport>, i: nat)
    requires SameStack(known, q, ids) && i < |q|
    ensures ids[i] in known && known[ids[i]] == q[i] && q[i].transport == ids[i]
  {
  }

  lemma SameStackPop(known: map<Transport, Conn>, q: seq<Conn>, ids: seq<Transport>, n: nat)
    requires n < |q| == n + 1 <= |ids| && SameStack(known, q, ids[..n+1])
    ensures SameStack(known, q[..n], ids[..n]) && q[n].transport == ids[n]
  {
    assert ids[..n+1][..n] == ids[..n] && ids[..n+1][n] == ids[n];
  }

  lemma SameStackMore(known: map<Transport, Conn>, q: seq<Conn>, ids: seq<Transport>, c: Conn)
    requires SameStack(known, q, ids) && c.transport in known && known[c.transport] == c
    ensures SameStack(known, q + [c], ids + [c.transport])
  {
  }

  /** A new connection is on no stack. */
  lemma SameStacksMore(known: map<Transport, Conn>, conns: ConnMap, stacks: Stacks, c: Conn)
    requires SameStacks(known, conns, stacks) && c.transport !in known
    ensures SameStacks(known[c.transport := c], conns, stacks)
  {
    var more := known[c.transport := c];
    if conns.ConnMap? {
      forall k | k in conns.m ensures SameStack(more, conns.m[k], stacks.m[k]) {
        assert SameStack(known, conns.m[k], stacks.m[k]);
      }
    }
  }

  ghost predicate SameInfo(known: map<Transport, Conn>, info: map<Transport, Info>)
    reads known.Values
  {
    && known.Keys == info.Keys
    && forall t :: t in known ==>
         && known[t].transport == t
         && Info(known[t].serverName, known[t].lastUsed, known[t].healthy) == info[t]
  }

  lemma UsableDrop(ids: seq<Transport>, n: nat, info: map<Transport, Info>)
    requires n < |ids|
    ensures Healthy(info, ids[n]) ==> Usable(ids[..n+1], info) == n + 1
    ensures !Healthy(info, ids[n]) ==> Usable(ids[..n+1], info) == Usable(ids[..n], info)
    ensures multiset(ids[n..]) == multiset(ids[n+1..]) + multiset{ids[n]}
  {
    assert ids[..n+1][..n] == ids[..n];
    assert ids[n..] == [ids[n]] + ids[n+1..];
  }

  /** The first part of `PoolModel.TryGet`, in the order in which the code writes: counters and
      closings first. */
  ghost function AfterTakeIdle(s: State, g: Ticket, server: string): State
    requires s.conns.Stacks?
  {
    var q := Stack(s, server);
    var k := Usable(q, s.info);
    if q == [] then s else
    var s1 := s.(shut := s.shut + multiset(q[k..]), stats := s.stats.(idleConns := s.stats.idleConns - (|q| - k)));
    if k == 0 then s1.(conns := Stacks(s.conns.m[server := []]))
    else PoolModel.HandOut(s1, g, server, q[..k-1], q[k-1])
  }

  lemma TryGetOrder(s: State, g: Ticket, server: string, ctxDone: bool)
    requires NilIffClosed(s)
    ensures s.closed ==> PoolModel.TryGet(s, g, server, ctxDone) == (s, ClosedError)
    ensures var q := Stack(s, server); var k := Usable(q, s.info);
            !s.closed ==>
              PoolModel.TryGet(s, g, server, ctxDone) ==
                (if k > 0 then (AfterTakeIdle(s, g, server), Got(q[k-1]))
                 else PoolModel.GetSlot(AfterTakeIdle(s, g, server), g, server, ctxDone))
  {
    var q := Stack(s, server);
    var k := Usable(q, s.info);
    if !s.closed && k > 0 {
      assert s.conns.m[server := q[..k]][server := q[..k-1]] == s.conns.m[server := q[..k-1]];
    } else if !s.closed {
      assert q[0..] == q;
    }
  }

  /** The stacks while a reap pass is on its way: those in `todo` are still as they were. */
  ghost function Reaped(s: State, todo: set<string>): (r: State)
    requires s.conns.Stacks?
    ensures r.conns.Stacks? && r.info == s.info && r.now == s.now && r.cfg == s.cfg
  {
    var m := s.conns.m;
    var gone := Contents(StaleMap(m, s.info, s.now, s.cfg.idleTimeout) - todo);
    s.(conns := Stacks(m + (FreshMap(m, s.info, s.now, s.cfg.idleTimeout) - todo)),
       stats := s.stats.(idleConns := s.stats.idleConns - |gone|),
       shut := s.shut + gone)
  }

  lemma ReapedAll(s: State)
    requires s.conns.Stacks? && !s.closed
    ensures Reaped(s, {}) == Reap(s) && Reaped(s, s.conns.m.Keys) == s
  {
    var m := s.conns.m;
    var stale := StaleMap(m, s.info, s.now, s.cfg.idleTimeout);
    var kept := FreshMap(m, s.info, s.now, s.cfg.idleTimeout);
    assert stale - {} == stale && stale - m.Keys == map[];
    assert m + (kept - {}) == kept && m + (kept - m.Keys) == m;
  }

  lemma ReapedStale(s: State, todo: set<string>, k: string)
    requires s.conns.Stacks? && k in todo && todo <= s.conns.m.Keys
    ensures var stale := StaleMap(s.conns.m, s.info, s.now, s.cfg.idleTimeout);
            Contents(stale - (todo - {k}))
              == Contents(stale - todo) + multiset(Stale(s.conns.m[k], s.info, s.now, s.cfg.idleTimeout))
  {
    hide Stale;
    var stale := StaleMap(s.conns.m, s.info, s.now, s.cfg.idleTimeout);
    assert stale - (todo - {k}) == (stale - todo)[k := stale[k]];
    ContentsGrow(stale - todo, k, stale[k]);
    assert [] + stale[k] == stale[k];
  }

  lemma ReapedFresh(s: State, todo: set<string>, k: string)
    requires s.conns.Stacks? && k in todo && todo <= s.conns.m.Keys
    ensures var m := s.conns.m; var kept := FreshMap(m, s.info, s.now, s.cfg.idleTimeout);
            && k in m + (kept - todo) && (m + (kept - todo))[k] == m[k]
            && m + (kept - (todo - {k})) == (m + (kept - todo))[k := Fresh(m[k], s.info, s.now, s.cfg.idleTimeout)]
  {
    hide Fresh;
    var kept := FreshMap(s.conns.m, s.info, s.now, s.cfg.idleTimeout);
    assert kept - (todo - {k}) == (kept - todo)[k := kept[k]];
  }

  lemma ReapedOne(s: State, todo: set<string>, k: string)
    requires s.conns.Stacks? && k in todo && todo <= s.conns.m.Keys
    ensures var stale := Stale(s.conns.m[k], s.info, s.now, s.cfg.idleTimeout);
            var a, b := Reaped(s, todo), Reaped(s, todo - {k});
            && k in a.conns.m && a.conns.m[k] == s.conns.m[k]
            && b == a.(conns := Stacks(a.conns.m[k := Fresh(s.conns.m[k], s.info, s.now, s.cfg.idleTimeout)]),
                       stats := a.stats.(idleConns := a.stats.idleConns - |stale|),
                       shut := a.shut + multiset(stale))
  {
    hide Fresh, Stale, FreshMap, StaleMap, Contents;
    ReapedStale(s, todo, k);
    ReapedFresh(s, todo, k);
  }

  lemma ReapNothing(info: map<Transport, Info>, now: int, timeout: int)
    ensures Fresh([], info, now, timeout) == [] && Stale([], info, now, timeout) == []
  {
  }

  /** One more connection looked at by the reaper. */
  lemma ReapStep(ids: seq<Transport>, i: nat, info: map<Transport, Info>, now: int, timeout: int)
    requires i < |ids|
    ensures var fresh_, stale := Fresh(ids[..i], info, now, timeout), Stale(ids[..i], info, now, timeout);
            var nextFresh, nextStale := Fresh(ids[..i+1], info, now, timeout), Stale(ids[..i+1], info, now, timeout);
            if Expired(info, ids[i], now, timeout)
            then
              && nextFresh == fresh_ && |nextStale| == |stale| + 1
              && multiset(nextStale) == multiset(stale) + multiset{ids[i]}
            else nextFresh == fresh_ + [ids[i]] && nextStale == stale
  {
    assert ids[..i+1][..i] == ids[..i];
  }

  class Pool {
    const cfg: Config
    var conns: ConnMap
    var activeCount: map<string, int>
    var stats: Stats
    var closed: bool
    var clock: int
    ghost var known: map<Transport, Conn>
    ghost var s: State

    /** What the pool stores, its counters aside. */
    ghost predicate Mirrored()
      reads `s, `activeCount, `closed, `clock, `conns, `known, known.Values
    {
      && s.cfg == cfg && s.active == activeCount && s.closed == closed && s.now == clock
      && SameStacks(known, conns, s.conns) && SameInfo(known, s.info)
    }

    ghost predicate Linked()
      reads this, known.Values
    {
      Mirrored() && s.stats == stats
    }

    ghost predicate Valid()
      reads this, known.Values
    {
      Linked() && Inv(s)
    }

    /** `New`. */
    constructor (config: Config, now: int)
      ensures Valid() && s == Init(config, now) && known == map[]
    {
      cfg := Defaults(config);
      conns, activeCount, stats, closed, clock := ConnMap(map[]), map[], Stats(0, 0, 0, 0, 0), false, now;
      known := map[];
      s := Init(config, now);
      new;
      PoolTheorems.InitInv(config, now);
    }

    /** `cond.Broadcast`. */
    ghost method Broadcast()
      modifies this`s
      ensures s == old(s).(waiting := WakeAll(old(s).waiting))
      ensures old(Mirrored()) ==> Mirrored()
    {
      s := s.(waiting := WakeAll(s.waiting));
    }

    /** `Transport.Close`. */
    ghost method CloseTransport(t: Transport)
      modifies this`s
      ensures s == old(s).(shut := old(s).shut + multiset{t})
      ensures old(Mirrored()) ==> Mirrored()
    {
      s := s.(shut := s.shut + multiset{t});
    }

    /** Arm a timer that fires after `remaining`, and `cond.Wait`. */
    ghost method Wait(g: Ticket, server: string, since: int, deadline: int, remaining: int)
      modifies this`s
      ensures var w := Waiter(server, since, deadline, true, Armed(clock + remaining), false);
              s == old(s).(waiting := old(s).waiting[g := w])
      ensures old(Mirrored()) ==> Mirrored()
    {
      s := s.(waiting := s.waiting[g := Waiter(server, since, deadline, true, Armed(clock + remaining), false)]);
    }

    /** Return an error from the wait loop. */
    ghost method Leave(g: Ticket)
      modifies this`s
      ensures s == old(s).(waiting := old(s).waiting - {g})
      ensures old(Mirrored()) ==> Mirrored()
    {
      s := s.(waiting := s.waiting - {g});
    }

    /** Reading a missing entry, or a nil map, gives an empty slice. */
    method StackOf(server: string) returns (q: seq<Conn>)
      requires Linked()
      ensures SameStack(known, q, Stack(s, server)) && (conns.NilMap? <==> s.conns.Nil?)
      ensures forall i :: 0 <= i < |q| ==> q[i].healthy == Healthy(s.info, Stack(s, server)[i])
      ensures s.closed == closed && s.stats == stats && s.cfg == cfg && s.now == clock
      ensures conns.ConnMap? ==> q == (if server in conns.m then conns.m[server] else [])
    {
      q := if conns.ConnMap? && server in conns.m then conns.m[server] else [];
    }

    /** A change of the world, or of the counters, that the stored fields do not show. */
    ghost method World(next: State)
      requires Mirrored()
      requires next == s.(stats := next.stats, held := next.held, dialing := next.dialing, waiting := next.waiting,
                          shut := next.shut, broadcasts := next.broadcasts,
                          puts := next.puts, failedDials := next.failedDials)
      modifies this`s
      ensures Mirrored() && s == next
    {
      s := next;
    }

    /** `p.conns[server] = q`, which panics on a nil map. */
    method SetStack(server: string, q: seq<Conn>, ghost ids: seq<Transport>)
      requires Mirrored() && conns.ConnMap? && s.conns.Stacks? && SameStack(known, q, ids)
      modifies this`conns, this`s
      ensures Mirrored() && conns == ConnMap(old(conns).m[server := q])
      ensures s == old(s).(conns := Stacks(old(s).conns.m[server := ids]))
    {
      conns := ConnMap(conns.m[server := q]);
      s := s.(conns := Stacks(s.conns.m[server := ids]));
    }

    /** `p.activeCount[server] += d`. */
    method AddActive(server: string, d: int)
      requires Mirrored()
      modifies this`activeCount, this`s
      ensures Mirrored() && s == old(s).(active := old(s).active[server := Active(old(s), server) + d])
    {
      activeCount := activeCount[server := (if server in activeCount then activeCount[server] else 0) + d];
      s := s.(active := activeCount);
    }

    /** `conn.LastUsed = time.Now()`. */
    method Touch(c: Conn)
      requires Mirrored() && c.transport in known && known[c.transport] == c
      modifies c, this`s
      ensures Mirrored() && s == old(s).(info := PoolModel.Touch(old(s).info, c.transport, clock))
    {
      c.lastUsed := clock;
      s := s.(info := PoolModel.Touch(s.info, c.transport, clock));
    }

    /** Give the popped connection `c` to call `g`; `q` is what is left of its stack. */
    method HandOut(ghost g: Ticket, server: string, q: seq<Conn>, c: Conn, ghost ids: seq<Transport>)
      requires Mirrored() && conns.ConnMap? && s.conns.Stacks? && SameStack(known, q, ids)
      requires c.transport in known && known[c.transport] == c && clock == s.now
      modifies this, c
      ensures Linked() && known == old(known)
      ensures s == PoolModel.HandOut(old(s).(stats := old(stats)), g, server, ids, c.transport)
    {
      hide Mirrored, SameStack, PoolModel.Touch;
      SetStack(server, q, ids);
      AddActive(server, 1);
      Touch(c);
      stats := stats.(idleConns := stats.idleConns - 1, hits := stats.hits + 1, activeConns := stats.activeConns + 1);
      World(s.(stats := stats, held := s.held[c.transport := g], waiting := s.waiting - {g}));
    }

    /** Claim a slot and leave the mutex to dial. */
    method Reserve(ghost g: Ticket, server: string)
      requires Linked()
      modifies this
      ensures Linked() && known == old(known) && s == PoolModel.Reserve(old(s), g, server)
    {
      hide Mirrored;
      AddActive(server, 1);
      stats := stats.(misses := stats.misses + 1, totalConns := stats.totalConns + 1,
                      activeConns := stats.activeConns + 1);
      World(s.(stats := stats, dialing := s.dialing[g := server], waiting := s.waiting - {g}));
    }

    /** The wait loop from its test up to the next release of the mutex. */
    method WaitLoop(ghost g: Ticket, server: string, ghost since: int, deadline: int, ctxDone: bool)
      returns (o: Outcome)
      requires Linked()
      modifies this
      ensures Linked() && known == old(known)
      ensures (s, o) == PoolModel.WaitLoop(old(s), g, server, since, deadline, ctxDone)
    {
      var active := if server in activeCount then activeCount[server] else 0;
      if active >= cfg.maxOpen {
        if ctxDone {
          Leave(g);
          return ContextError;
        }
        var remaining := deadline - clock;
        if remaining <= 0 {
          Leave(g);
          return ExhaustedError(cfg.waitTimeout);
        }
        Wait(g, server, since, deadline, remaining);
        return Slept;
      }
      Reserve(g, server);
      return Reserved;
    }

    /** The loop that pops unhealthy connections off a stack and closes them; what is left is empty
        or has a healthy connection on top. */
    method DropUnhealthy(q0: seq<Conn>, ghost ids: seq<Transport>) returns (q: seq<Conn>)
      requires Mirrored() && SameStack(known, q0, ids)
      requires forall i :: 0 <= i < |ids| ==> q0[i].healthy == Healthy(s.info, ids[i])
      modifies this`stats, this`s
      ensures Mirrored() && |q| == Usable(ids, s.info) && SameStack(known, q, ids[..|q|])
      ensures s == old(s).(shut := old(s).shut + multiset(ids[|q|..]))
      ensures stats == old(stats).(idleConns := old(stats).idleConns - (|ids| - |q|))
    {
      hide Usable, Mirrored, Healthy, SameStack;
      q := q0;
      assert ids[..|q|] == ids && ids[|q|..] == [];
      while |q| > 0
        invariant Mirrored() && |q| <= |ids| && SameStack(known, q, ids[..|q|])
        invariant forall i :: 0 <= i < |q| ==> q[i].healthy == Healthy(s.info, ids[i])
        invariant Usable(ids[..|q|], s.info) == Usable(ids, s.info)
        invariant s == old(s).(shut := old(s).shut + multiset(ids[|q|..]))
        invariant stats == old(stats).(idleConns := old(stats).idleConns - (|ids| - |q|))
      {
        var c := q[|q|-1];
        UsableDrop(ids, |q|-1, s.info);
        SameStackPop(known, q, ids, |q|-1);
        if c.healthy {
          break;
        }
        q := q[..|q|-1];
        stats := stats.(idleConns := stats.idleConns - 1);
        CloseTransport(c.transport);
      }
    }

    /** The idle check of `Get`. */
    method TakeIdle(ghost g: Ticket, server: string) returns (conn: Conn?)
      requires Linked() && !closed && NilIffClosed(s)
      modifies this, known.Values
      ensures Linked() && known == old(known)
      ensures s == AfterTakeIdle(old(s), g, server)
      ensures var q := Stack(old(s), server); var k := Usable(q, old(s).info);
              if k > 0 then q[k-1] in known && conn == known[q[k-1]] && conn.transport == q[k-1] else conn == null
    {
      hide Usable, PoolModel.HandOut, SameInfo;
      var q := StackOf(server);
      hide Mirrored, Healthy, NilIffClosed, SameStacks;
      ghost var ids := Stack(s, server);
      if |q| > 0 {
        q := DropUnhealthy(q, ids);
        ghost var dropped := s.(stats := stats);
        assert AfterTakeIdle(old(s), g, server) ==
               if |q| == 0 then dropped.(conns := Stacks(s.conns.m[server := []]))
               else PoolModel.HandOut(dropped, g, server, ids[..|q|-1], ids[|q|-1]);
        hide AfterTakeIdle;
        if |q| > 0 {
          conn := q[|q|-1];
          HandOut(g, server, q[..|q|-1], conn, ids[..|q|-1]);
          return;
        }
        SetStack(server, q, []);
        World(s.(stats := stats));
      }
      conn := null;
    }

    /** `Get` up to the point where it first leaves the mutex. */
    method TryGet(ghost g: Ticket, server: string, ctxDone: bool) returns (o: Outcome, conn: Conn?)
      requires Valid() && g !in s.waiting && g !in s.dialing
      modifies this, known.Values
      ensures Valid() && known == old(known)
      ensures (s, o) == PoolModel.TryGet(old(s), g, server, ctxDone)
      ensures if o.Got? then o.t in known && conn == known[o.t] else conn == null
    {
      hide Inv, Usable, PoolModel.TryGet, AfterTakeIdle, PoolModel.GetSlot;
      PoolTheorems.InvHead(s);
      TryGetKeeps(s, g, server, ctxDone);
      TryGetOrder(s, g, server, ctxDone);
      if closed {
        return ClosedError, null;
      }
      conn := TakeIdle(g, server);
      if conn != null {
        return Got(conn.transport), conn;
      }
      o := GetSlot(g, server, ctxDone);
    }

    /** The rest of `Get`'s first critical section, once no idle connection is left. */
    method GetSlot(ghost g: Ticket, server: string, ctxDone: bool) returns (o: Outcome)
      requires Linked()
      modifies this
      ensures Linked() && known == old(known)
      ensures (s, o) == PoolModel.GetSlot(old(s), g, server, ctxDone)
    {
      var active := if server in activeCount then activeCount[server] else 0;
      if active >= cfg.maxOpen {
        if cfg.waitTimeout <= 0 {
          return ExhaustedError(0);
        }
        var deadline := clock + cfg.waitTimeout;
        o := WaitLoop(g, server, clock, deadline, ctxDone);
        return;
      }
      Reserve(g, server);
      return Reserved;
    }

    /** What a woken call does with the top of a stack: take it, or close it. */
    method TakeTop(ghost g: Ticket, server: string, q: seq<Conn>) returns (conn: Conn?)
      requires Linked() && conns.ConnMap? && s.conns.Stacks? && s.now == clock
      requires |q| > 0 && SameStack(known, q, Stack(s, server))
      requires q[|q|-1].healthy == Healthy(s.info, Stack(s, server)[|q|-1])
      modifies this, known.Values
      ensures Linked() && known == old(known)
      ensures var ids := Stack(old(s), server); var top := ids[|q|-1];
              if Healthy(old(s).info, top)
              then s == PoolModel.HandOut(old(s), g, server, ids[..|q|-1], top)
                   && top in known && conn == known[top] && conn.transport == top
              else s == Drop(old(s), server, ids[..|q|-1], ids[|q|-1..]) && conn == null
    {
      hide Mirrored, PoolModel.HandOut, Healthy;
      ghost var ids := Stack(s, server);
      conn := q[|q|-1];
      if conn.healthy {
        HandOut(g, server, q[..|q|-1], conn, ids[..|q|-1]);
        return;
      }
      SetStack(server, q[..|q|-1], ids[..|q|-1]);
      stats := stats.(idleConns := stats.idleConns - 1);
      CloseTransport(conn.transport);
      World(s.(stats := stats));
      assert ids[|q|-1..] == [conn.transport];
      conn := null;
    }

    /** `Get` from the return of `cond.Wait` to the next time it leaves the mutex; `server`,
        `deadline` and `ctxDone` are what the waiting call remembers. */
    method Recheck(ghost g: Ticket, server: string, deadline: int, ctxDone: bool) returns (o: Outcome, conn: Conn?)
      requires Valid() && g in s.waiting && !s.waiting[g].asleep
      requires server == s.waiting[g].server && deadline == s.waiting[g].deadline && ctxDone == s.waiting[g].ctxDone
      modifies this, known.Values
      ensures Valid() && known == old(known)
      ensures (s, o) == PoolModel.Recheck(old(s), g)
      ensures if o.Got? then o.t in known && conn == known[o.t] else conn == null
    {
      hide Inv, PoolModel.HandOut, PoolModel.WaitLoop, Drop;
      ghost var since := s.waiting[g].since;
      PoolTheorems.InvHead(s);
      RecheckKeeps(s, g);
      var q := StackOf(server);
      hide Mirrored, Healthy;
      if closed {
        Leave(g);
        return ClosedError, null;
      }
      conn := null;
      if |q| > 0 {
        conn := TakeTop(g, server, q);
        if conn != null {
          return Got(conn.transport), conn;
        }
      }
      o := WaitLoop(g, server, since, deadline, ctxDone);
    }

    /** `dialFunc` returned a transport: wrap it for the caller. */
    method DialOk(ghost g: Ticket, server: string, t: Transport) returns (conn: Conn)
      requires Valid() && g in s.dialing && s.dialing[g] == server && t !in s.info
      modifies this
      ensures Valid() && s == PoolModel.DialOk(old(s), g, t)
      ensures fresh(conn) && known == old(known)[t := conn]
    {
      hide Inv, SameStacks;
      DialOkKeeps(s, g, t);
      assert t !in known;
      conn := new Conn(server, t, clock);
      SameStacksMore(known, conns, s.conns, conn);
      known := known[t := conn];
      s := PoolModel.DialOk(s, g, t);
      forall u | u in known
        ensures u in s.info && known[u].transport == u
        ensures Info(known[u].serverName, known[u].lastUsed, known[u].healthy) == s.info[u]
      {
        assert u == t || u in old(known);
      }
    }

    /** `dialFunc` failed: give the slot back. */
    method DialFail(ghost g: Ticket, server: string)
      requires Valid() && g in s.dialing && s.dialing[g] == server
      modifies this
      ensures Valid() && known == old(known) && s == PoolModel.DialFail(old(s), g)
    {
      hide Inv, Mirrored;
      DialFailKeeps(s, g);
      AddActive(server, -1);
      stats := stats.(activeConns := stats.activeConns - 1);
      Broadcast();
      World(s.(stats := stats, dialing := s.dialing - {g}, failedDials := s.failedDials + 1));
    }

    method Retire(conn: Conn, server: string)
      requires Linked() && server == ServerOf(s, conn.transport)
      modifies this
      ensures Linked() && known == old(known) && s == PoolModel.Retire(old(s), conn.transport)
    {
      hide Mirrored;
      AddActive(server, -1);
      stats := stats.(activeConns := stats.activeConns - 1);
      CloseTransport(conn.transport);
      Broadcast();
      World(s.(stats := stats, held := s.held - {conn.transport}, puts := s.puts + 1));
    }

    method Push(conn: Conn, server: string, q: seq<Conn>)
      requires Linked() && server == ServerOf(s, conn.transport) && conns.ConnMap? && s.conns.Stacks? && s.now == clock
      requires conn.transport in known && known[conn.transport] == conn && SameStack(known, q, Stack(s, server))
      modifies this, conn
      ensures Linked() && known == old(known) && s == PoolModel.Push(old(s), conn.transport)
    {
      hide Mirrored, SameStack, PoolModel.Touch;
      ghost var t := conn.transport;
      PutOnTop(conn, server, q);
      AddActive(server, -1);
      stats := stats.(activeConns := stats.activeConns - 1, idleConns := stats.idleConns + 1);
      Broadcast();
      World(s.(stats := stats, held := s.held - {t}, puts := s.puts + 1));
    }

    method PutOnTop(conn: Conn, server: string, q: seq<Conn>)
      requires Mirrored() && conns.ConnMap? && s.conns.Stacks? && s.now == clock
      requires conn.transport in known && known[conn.transport] == conn && SameStack(known, q, Stack(s, server))
      modifies this`conns, this`s, conn
      ensures Mirrored() && conns.ConnMap?
      ensures s == old(s).(info := PoolModel.Touch(old(s).info, conn.transport, old(s).now),
                           conns := Stacks(old(s).conns.m[server := Stack(old(s), server) + [conn.transport]]))
    {
      hide Mirrored, PoolModel.Touch, SameStack;
      SameStackMore(known, q, Stack(s, server), conn);
      Touch(conn);
      SetStack(server, q + [conn], Stack(s, server) + [conn.transport]);
    }

    /** `Put`, by a caller who holds `conn`. */
    method Put(conn: Conn)
      requires Valid() && conn.transport in s.held && conn.transport in known && known[conn.transport] == conn
      modifies this, conn
      ensures Valid() && known == old(known) && s == PoolModel.Put(old(s), conn.transport)
    {
      hide Inv, PoolModel.Retire, PoolModel.Push;
      PoolTheorems.InvHead(s);
      PutKeeps(s, conn.transport);
      assert conn.serverName == ServerOf(s, conn.transport) && conn.healthy == Healthy(s.info, conn.transport);
      var q := StackOf(conn.serverName);
      hide Mirrored;
      if closed || !conn.healthy {
        Retire(conn, conn.serverName);
      } else if |q| >= cfg.maxIdle {
        Retire(conn, conn.serverName);
      } else {
        Push(conn, conn.serverName, q);
      }
    }

    /** Close every connection of `q`. */
    method CloseAll(q: seq<Conn>, ghost ids: seq<Transport>)
      requires Mirrored() && SameStack(known, q, ids)
      modifies this`s
      ensures Mirrored() && s == old(s).(shut := old(s).shut + multiset(ids))
    {
      hide Mirrored;
      for i := 0 to |q|
        invariant Mirrored() && s == old(s).(shut := old(s).shut + multiset(ids[..i]))
      {
        CloseTransport(q[i].transport);
        assert ids[..i+1] == ids[..i] + [ids[i]];
      }
      assert ids[..|q|] == ids;
    }

    /** `delete(p.conns, server)`, which does nothing to a nil map. */
    method DeleteStack(server: string)
      requires Mirrored()
      modifies this`conns, this`s
      ensures Mirrored()
      ensures s == old(s).(conns := if old(s).conns.Nil? then Nil else Stacks(old(s).conns.m - {server}))
    {
      if conns.ConnMap? {
        conns := ConnMap(conns.m - {server});
        s := s.(conns := Stacks(s.conns.m - {server}));
      }
    }

    method ClearServer(server: string)
      requires Valid()
      modifies this
      ensures Valid() && known == old(known) && s == PoolModel.ClearServer(old(s), server)
    {
      hide Inv, SameInfo, SameStack;
      ClearKeeps(s, server);
      var q := StackOf(server);
      hide Mirrored;
      CloseAll(q, Stack(s, server));
      stats := stats.(idleConns := stats.idleConns - |q|);
      DeleteStack(server);
      World(s.(stats := stats));
      assert old(s).conns.Nil? ==> s == old(s);
    }

    /** Close every idle connection; the order of the map does not matter. */
    method CloseStacks()
      requires Mirrored() && conns.ConnMap? && s.conns.Stacks?
      modifies this`s
      ensures Mirrored() && s == old(s).(shut := old(s).shut + Contents(old(s).conns.m))
    {
      ghost var ids := s.conns.m;
      var todo := conns.m.Keys;
      assert SameStacks(known, conns, Stacks(ids)) && todo == ids.Keys;
      hide Mirrored, SameStacks;
      assert ids - todo == map[];
      while todo != {}
        invariant Mirrored() && todo <= conns.m.Keys
        invariant s == old(s).(shut := old(s).shut + Contents(ids - todo))
      {
        var k :| k in todo;
        SameStackAt(known, conns, Stacks(ids), k);
        CloseAll(conns.m[k], ids[k]);
        ContentsWithout(ids, todo, k, old(s).shut);
        todo := todo - {k};
      }
      assert ids - {} == ids;
    }

    method Close()
      requires Valid()
      modifies this
      ensures Valid() && known == old(known) && s == PoolModel.Close(old(s))
    {
      hide Inv;
      PoolTheorems.InvHead(s);
      CloseKeeps(s);
      if closed {
        return;
      }
      closed, s := true, s.(closed := true);
      CloseStacks();
      conns, s := NilMap, s.(conns := Nil);
      Broadcast();
    }

    /** The reaper's inner loop: close what has expired, keep the rest in order. */
    method ReapStack(q: seq<Conn>, ghost ids: seq<Transport>) returns (keep: seq<Conn>)
      requires Mirrored() && SameStack(known, q, ids) && s.now == clock
      requires forall i :: 0 <= i < |q| ==>
                 Expired(s.info, ids[i], s.now, cfg.idleTimeout) == (clock - q[i].lastUsed > cfg.idleTimeout)
      modifies this`stats, this`s
      ensures Mirrored() && SameStack(known, keep, Fresh(ids, s.info, s.now, cfg.idleTimeout))
      ensures var stale := Stale(ids, s.info, s.now, cfg.idleTimeout);
              && s == old(s).(shut := old(s).shut + multiset(stale))
              && stats == old(stats).(idleConns := old(stats).idleConns - |stale|)
    {
      hide Mirrored, Expired, Fresh, Stale, SameStack;
      keep := [];
      NoStack(known);
      assert ids[..0] == [];
      ReapNothing(s.info, s.now, cfg.idleTimeout);
      for i := 0 to |q|
        invariant Mirrored() && SameStack(known, keep, Fresh(ids[..i], s.info, s.now, cfg.idleTimeout))
        invariant var stale := Stale(ids[..i], s.info, s.now, cfg.idleTimeout);
                  && s == old(s).(shut := old(s).shut + multiset(stale))
                  && stats == old(stats).(idleConns := old(stats).idleConns - |stale|)
      {
        ReapStep(ids, i, s.info, s.now, cfg.idleTimeout);
        SameStackElement(known, q, ids, i);
        if clock - q[i].lastUsed > cfg.idleTimeout {
          CloseTransport(q[i].transport);
          stats := stats.(idleConns := stats.idleConns - 1);
        } else {
          SameStackMore(known, keep, Fresh(ids[..i], s.info, s.now, cfg.idleTimeout), q[i]);
          keep := keep + [q[i]];
        }
      }
      assert ids[..|q|] == ids;
    }

    /** One tick of the reaper; the order of the map does not matter. */
    method Reap()
      requires Valid()
      modifies this
      ensures Valid() && known == old(known) && s == PoolModel.Reap(old(s))
    {
      hide Inv, Reaped;
      PoolTheorems.InvHead(s);
      ReapKeeps(s);
      if closed {
        return;
      }
      ReapedAll(s);
      var todo := conns.m.Keys;
      while todo != {}
        invariant Linked() && !closed && conns.ConnMap? && todo <= conns.m.Keys && known == old(known)
        invariant s == Reaped(old(s), todo) && todo <= old(s).conns.m.Keys
      {
        var k :| k in todo;
        ReapedOne(old(s), todo, k);
        ReapServer(k);
        todo := todo - {k};
      }
    }

    method EntryOf(k: string) returns (q: seq<Conn>)
      requires Linked() && conns.ConnMap? && k in conns.m
      ensures s.conns.Stacks? && k in s.conns.m && s.now == clock
      ensures q == conns.m[k] && SameStack(known, q, s.conns.m[k])
      ensures s.cfg == cfg
      ensures forall i :: 0 <= i < |q| ==>
                Expired(s.info, s.conns.m[k][i], s.now, cfg.idleTimeout) == (clock - q[i].lastUsed > cfg.idleTimeout)
    {
      q := conns.m[k];
      assert forall i :: 0 <= i < |q| ==> s.info[s.conns.m[k][i]].lastUsed == q[i].lastUsed;
    }

    method ReapServer(k: string)
      requires Linked() && conns.ConnMap? && s.conns.Stacks? && k in conns.m
      modifies this
      ensures Linked() && known == old(known) && closed == old(closed)
      ensures conns.ConnMap? && conns.m.Keys == old(conns.m.Keys)
      ensures k in old(s).conns.m
      ensures var ids := old(s).conns.m[k]; var stale := Stale(ids, old(s).info, old(s).now, cfg.idleTimeout);
              s == old(s).(conns := Stacks(old(s).conns.m[k := Fresh(ids, old(s).info, old(s).now, cfg.idleTimeout)]),
                           stats := old(s).stats.(idleConns := old(s).stats.idleConns - |stale|),
                           shut := old(s).shut + multiset(stale))
    {
      hide Mirrored, Fresh, Stale, Expired;
      var q := EntryOf(k);
      ghost var ids := s.conns.m[k];
      var keep := ReapStack(q, ids);
      SetStack(k, keep, Fresh(ids, s.info, s.now, cfg.idleTimeout));
      World(s.(stats := stats));
    }

    /** `Pool.broadcast`, run by a goroutine that a timer or a context started. */
    method BroadcastAll()
      requires Valid() && s.broadcasts > 0
      modifies this`s
      ensures Valid() && s == PoolModel.Broadcast(old(s))
    {
      hide Inv, Mirrored;
      BroadcastKeeps(s);
      Broadcast();
      World(s.(broadcasts := s.broadcasts - 1));
    }

    /** The clock moves on. */
    method Tick(now: int)
      requires Valid() && clock <= now
      modifies this`clock, this`s
      ensures Valid() && s == PoolModel.Tick(old(s), now)
    {
      hide Inv;
      TickKeeps(s, now);
      clock := now;
      s := PoolModel.Tick(s, now);
    }

    /** A caller writes `conn.Healthy`, which it may do at any time. */
    method SetHealthy(conn: Conn, healthy: bool)
      requires Valid() && conn.transport in known && known[conn.transport] == conn
      modifies conn, this`s
      ensures Valid()
      ensures var t := conn.transport;
              t in old(s).info && s == old(s).(info := old(s).info[t := old(s).info[t].(healthy := healthy)])
    {
      hide Inv, SameStacks;
      ghost var t := conn.transport;
      SetHealthKeeps(s, t, healthy);
      conn.healthy := healthy;
      s := s.(info := s.info[t := s.info[t].(healthy := healthy)]);
      forall u | u in known
        ensures known[u].transport == u && Info(known[u].serverName, known[u].lastUsed, known[u].healthy) == s.info[u]
      {
        assert u in old(s).info && (known[u] == conn ==> u == t);
      }
    }
  }
}
