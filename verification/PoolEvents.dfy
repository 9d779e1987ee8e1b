/** What each event of the pool does, said of the state before and after it: what happens to the
    connection, to the other connections and to the other calls.  The statistics are tied to what was
    seen to happen. */
module PoolEvents {
  import opened MapFolds
  import opened PoolModel
  import opened PoolInvariants
  import opened PoolTheorems

  /** Nobody is asleep, and the waiting calls are otherwise as they were. */
  ghost predicate AllAwake(before: map<Ticket, Waiter>, after: map<Ticket, Waiter>) {
    && after.Keys == before.Keys
    && forall g :: g in before ==> after[g] == before[g].(asleep := false)
  }

  /** The count of one server changes by `d`, and no other. */
  ghost predicate CountMoves(s: State, r: State, server: string, d: int) {
    forall k :: Active(r, k) == Active(s, k) + if k == server then d else 0
  }

  ghost predicate OtherStacksStay(s: State, r: State, server: string) {
    forall k :: k != server ==> Stack(r, k) == Stack(s, k)
  }

  /** A new pool is open and empty, and nothing has been counted. */
  lemma InitIsEmpty(cfg: Config, now: int)
    ensures var s := Init(cfg, now);
            && !s.closed && s.conns == Stacks(map[]) && s.now == now && s.cfg == Defaults(cfg)
            && s.info == map[] && s.held == map[] && s.dialing == map[] && s.waiting == map[]
            && s.shut == multiset{} && s.broadcasts == 0 && s.puts == 0 && s.failedDials == 0
            && s.stats == Stats(0, 0, 0, 0, 0) && forall k :: Active(s, k) == 0 && Stack(s, k) == []
  {
  }

  /** `Put` keeps a connection exactly when the pool is open, the connection healthy and its stack
      shorter than the limit.  It is then on top of the stack, used now, and nothing is closed;
      otherwise the stack is as it was and exactly this connection is closed. */
  lemma PutKeepsOrCloses(s: State, t: Transport)
    requires Inv(s) && t in s.held
    ensures t in s.info && NilIffClosed(s)
    ensures var r := Put(s, t); var home := s.info[t].server; var q := Stack(s, home);
            if !s.closed && s.info[t].healthy && |q| < s.cfg.maxIdle then
              && Stack(r, home) == q + [t] && r.info == s.info[t := s.info[t].(lastUsed := s.now)]
              && r.shut == s.shut
            else
              Stack(r, home) == q && r.info == s.info && r.shut == s.shut + multiset{t}
  {
    hide Inv;
    HeldState(s, t);
  }

  lemma HeldState(s: State, t: Transport)
    requires Inv(s) && t in s.held
    ensures t in s.info && NilIffClosed(s)
  {
    HeldKnown(s, t);
  }

  /** In every case `Put` ends the holding, gives one slot of the server back and wakes everybody, and
      leaves the other stacks, the other holders and the dials alone. */
  lemma PutReleases(s: State, t: Transport)
    requires Inv(s) && t in s.held
    ensures t in s.info && NilIffClosed(s)
    ensures var r := Put(s, t); var home := s.info[t].server;
            && r.held == s.held - {t} && CountMoves(s, r, home, -1) && OtherStacksStay(s, r, home)
            && AllAwake(s.waiting, r.waiting)
            && r.dialing == s.dialing && r.closed == s.closed && r.now == s.now && r.broadcasts == s.broadcasts
  {
    hide Inv;
    HeldState(s, t);
  }

  /** A dial that succeeded gives its caller a new, healthy connection, used now. */
  lemma DialOkGives(s: State, g: Ticket, t: Transport)
    requires Enabled(s, DialOkEvent(g, t))
    ensures var r := DialOk(s, g, t);
            && r.held == s.held[t := g] && r.info == s.info[t := Info(s.dialing[g], s.now, true)]
            && g !in r.dialing && (forall h :: h != g ==> (h in r.dialing <==> h in s.dialing))
            && (forall h :: h in r.dialing ==> r.dialing[h] == s.dialing[h])
            && r.conns == s.conns && r.active == s.active && r.shut == s.shut && r.waiting == s.waiting
            && r.stats == s.stats && r.closed == s.closed
  {
  }

  /** One that failed gives its slot back and wakes everybody. */
  lemma DialFailReleases(s: State, g: Ticket)
    requires Enabled(s, DialFailEvent(g))
    ensures var r := DialFail(s, g);
            && CountMoves(s, r, s.dialing[g], -1) && AllAwake(s.waiting, r.waiting)
            && g !in r.dialing && (forall h :: h != g ==> (h in r.dialing <==> h in s.dialing))
            && (forall h :: h in r.dialing ==> r.dialing[h] == s.dialing[h])
            && r.conns == s.conns && r.held == s.held && r.info == s.info && r.shut == s.shut && r.closed == s.closed
  {
  }

  /** `ClearServer` empties one stack and closes exactly what was on it. */
  lemma ClearEmpties(s: State, server: string)
    requires NilIffClosed(s)
    ensures var r := ClearServer(s, server);
            && Stack(r, server) == [] && r.shut == s.shut + multiset(Stack(s, server)) && OtherStacksStay(s, r, server)
            && r.active == s.active && r.held == s.held && r.dialing == s.dialing && r.waiting == s.waiting
            && r.info == s.info && r.closed == s.closed
  {
  }

  /** `Close` closes the pool, every idle connection of every server and nothing else, and wakes
      everybody; connections in use and dials go on. */
  lemma CloseCloses(s: State)
    requires Inv(s)
    ensures var r := Close(s);
            && r.closed && (forall k :: Stack(r, k) == [])
            && (forall t :: r.shut[t] == s.shut[t] + if OnAStack(s, t) then 1 else 0)
            && (!s.closed ==> AllAwake(s.waiting, r.waiting)) && (s.closed ==> r == s)
            && r.held == s.held && r.dialing == s.dialing && r.active == s.active && r.info == s.info
  {
    hide Sorted, Counted, Bounded, Waiters, Accounts;
    forall t ensures Idle(s)[t] == if OnAStack(s, t) then 1 else 0 {
      StackedOnce(s, t);
    }
  }

  ghost predicate OnAStack(s: State, t: Transport) {
    exists k :: t in Stack(s, k)
  }

  lemma StackedOnce(s: State, t: Transport)
    requires Conserved(s) && OwnStack(s)
    ensures Idle(s)[t] == if OnAStack(s, t) then 1 else 0
  {
    OnePlace(s, t);
    StackOwner(s, t);
    if OnAStack(s, t) {
      var k :| t in Stack(s, k);
      assert k == ServerOf(s, t);
      assert t in multiset(Stack(s, k));
    } else {
      assert t !in Stack(s, ServerOf(s, t));
    }
  }

  /** A reaper pass takes exactly the connections off the stacks that were not used for longer than the
      idle timeout; the others stay, in order. */
  lemma ReapTakesOld(s: State)
    requires NilIffClosed(s) && Sorted(s) && !s.closed
    ensures var r := Reap(s);
            forall k :: |Stack(r, k)| <= |Stack(s, k)| && Stack(r, k) == Stack(s, k)[|Stack(s, k)|-|Stack(r, k)|..]
    ensures var r := Reap(s);
            forall k, t :: t in Stack(s, k) && t in s.info ==>
              (t in Stack(r, k) <==> s.now - s.info[t].lastUsed <= s.cfg.idleTimeout)
  {
    hide Sorted, NilIffClosed, Reap;
    forall k ensures var q, q' := Stack(s, k), Stack(Reap(s), k); |q'| <= |q| && q' == q[|q|-|q'|..]
      ensures forall t :: t in Stack(s, k) && t in s.info ==>
                (t in Stack(Reap(s), k) <==> s.now - s.info[t].lastUsed <= s.cfg.idleTimeout)
    {
      ReapedStack(s, k);
    }
  }

  /** It closes exactly what it takes off. */
  lemma ReapCloses(s: State)
    requires Inv(s) && !s.closed
    ensures NilIffClosed(s)
    ensures forall t :: Reap(s).shut[t] == s.shut[t] + if OnAStack(s, t) && !OnAStack(Reap(s), t) then 1 else 0
  {
    hide Sorted, Counted, Bounded, Waiters, Accounts, Conserved, OwnStack, Reap, OnAStack;
    ReapKeeps(s);
    ReapLeaves(s);
    ReapTakesOld(s);
    forall t ensures Reap(s).shut[t] == s.shut[t] + if OnAStack(s, t) && !OnAStack(Reap(s), t) then 1 else 0 {
      TakenIsClosed(s, Reap(s), t);
    }
  }

  /** Nothing else happens in a pass. */
  lemma ReapLeaves(s: State)
    requires NilIffClosed(s)
    ensures var r := Reap(s);
            && r.held == s.held && r.dialing == s.dialing && r.active == s.active && r.info == s.info
            && r.waiting == s.waiting && r.closed == s.closed && r.now == s.now && r.broadcasts == s.broadcasts
  {
  }

  lemma TakenIsClosed(s: State, r: State, t: Transport)
    requires Conserved(s) && OwnStack(s) && Conserved(r) && OwnStack(r) && r.held == s.held && r.info == s.info
    requires forall k :: |Stack(r, k)| <= |Stack(s, k)| && Stack(r, k) == Stack(s, k)[|Stack(s, k)|-|Stack(r, k)|..]
    ensures r.shut[t] == s.shut[t] + if OnAStack(s, t) && !OnAStack(r, t) then 1 else 0
  {
    hide Conserved, OwnStack, OnAStack;
    StackedOnce(s, t);
    StackedOnce(r, t);
    OnePlace(s, t);
    OnePlace(r, t);
    OffAStack(s, r, t);
  }

  lemma OffAStack(s: State, r: State, t: Transport)
    requires forall k :: |Stack(r, k)| <= |Stack(s, k)| && Stack(r, k) == Stack(s, k)[|Stack(s, k)|-|Stack(r, k)|..]
    ensures OnAStack(r, t) ==> OnAStack(s, t)
  {
    if OnAStack(r, t) {
      var k :| t in Stack(r, k);
      assert t in Stack(s, k);
    }
  }

  lemma ReapedStack(s: State, k: string)
    requires NilIffClosed(s) && Sorted(s) && !s.closed
    ensures var q, q' := Stack(s, k), Stack(Reap(s), k);
            && |q'| <= |q| && q' == q[|q|-|q'|..]
            && forall t :: t in q && t in s.info ==> (t in q' <==> s.now - s.info[t].lastUsed <= s.cfg.idleTimeout)
  {
    if k in StackMap(s) {
      var q := Stack(s, k);
      assert SortedStack(s, q);
      ReapedPrefix(s, q, s.cfg.idleTimeout);
      assert q == Stale(q, s.info, s.now, s.cfg.idleTimeout) + Stack(Reap(s), k);
    }
  }

  /** A timer fires exactly when its time has come, and each that fires starts one broadcast. */
  lemma TickFires(s: State, now: int)
    ensures var r := Tick(s, now);
            && r == s.(now := now, waiting := r.waiting, broadcasts := r.broadcasts) && r.waiting.Keys == s.waiting.Keys
            && forall h :: h in s.waiting ==>
                 var due := s.waiting[h].timer.Due? || s.waiting[h].timer.at <= now;
                 r.waiting[h] == if due then s.waiting[h].(timer := Due) else s.waiting[h]
    ensures var r := Tick(s, now);
            r.broadcasts - s.broadcasts == |set h | h in s.waiting && r.waiting[h].timer != s.waiting[h].timer|
  {
    var r := Tick(s, now);
    assert (set h | h in s.waiting && r.waiting[h].timer != s.waiting[h].timer) == Firing(s, now);
  }

  /** A context that ends starts one broadcast, once. */
  lemma CancelStarts(s: State, g: Ticket)
    requires g in s.waiting
    ensures var r := Cancel(s, g);
            && r == s.(waiting := s.waiting[g := s.waiting[g].(ctxDone := true)], broadcasts := r.broadcasts)
            && r.broadcasts == s.broadcasts + if s.waiting[g].ctxDone then 0 else 1
  {
    if s.waiting[g].ctxDone {
      assert s.waiting[g := s.waiting[g]] == s.waiting;
    }
  }

  /** A broadcast wakes everybody. */
  lemma BroadcastWakes(s: State)
    requires s.broadcasts > 0
    ensures var r := Broadcast(s);
            AllAwake(s.waiting, r.waiting) && r == s.(waiting := r.waiting, broadcasts := s.broadcasts - 1)
  {
  }

  /** A caller writes the health of one connection. */
  lemma HealthIsWritten(s: State, t: Transport, healthy: bool)
    requires NilIffClosed(s) && Enabled(s, SetHealthEvent(t, healthy))
    ensures var r := Apply(s, SetHealthEvent(t, healthy));
            r.info == s.info[t := s.info[t].(healthy := healthy)] && r == s.(info := r.info)
  {
  }

  /** The steps of a run are the sections of the same name. */
  lemma EventsAreSections(s: State, e: Event)
    requires NilIffClosed(s) && Enabled(s, e)
    ensures match e
            case GetEvent(g, server, ctxDone) => Apply(s, e) == TryGet(s, g, server, ctxDone).0
            case RecheckEvent(g) => Apply(s, e) == Recheck(s, g).0
            case DialOkEvent(g, t) => Apply(s, e) == DialOk(s, g, t)
            case DialFailEvent(g) => Apply(s, e) == DialFail(s, g)
            case PutEvent(t) => Apply(s, e) == Put(s, t)
            case ClearEvent(server) => Apply(s, e) == ClearServer(s, server)
            case ReapEvent => Apply(s, e) == Reap(s)
            case CloseEvent => Apply(s, e) == Close(s)
            case BroadcastEvent => Apply(s, e) == Broadcast(s)
            case TickEvent(now) => Apply(s, e) == Tick(s, now)
            case CancelEvent(g) => Apply(s, e) == Cancel(s, g)
            case SetHealthEvent(_, _) => true
  {
  }

  // ----- the stacks in `Get` -----

  /** The first section of `Get` hands out the topmost healthy connection, used now, and closes what
      lies above; without one it closes the whole stack.  No other stack changes. */
  lemma FirstTryPops(s: State, g: Ticket, server: string, ctxDone: bool)
    requires NilIffClosed(s)
    ensures var (r, o) := TryGet(s, g, server, ctxDone); var q := Stack(s, server);
            && OtherStacksStay(s, r, server)
            && (s.closed ==> r == s)
            && (o.Got? ==>
                  && (exists n :: 0 <= n < |q| && q[n] == o.t && Healthy(s.info, q[n]) && Stack(r, server) == q[..n]
                                  && r.shut == s.shut + multiset(q[n+1..])
                                  && forall i :: n < i < |q| ==> !Healthy(s.info, q[i]))
                  && o.t in s.info && r.info == s.info[o.t := s.info[o.t].(lastUsed := s.now)])
            && (!s.closed && !o.Got? ==> Stack(r, server) == [] && r.shut == s.shut + multiset(q) && r.info == s.info)
  {
    hide GetSlot, Usable;
    var q := Stack(s, server);
    var k := Usable(q, s.info);
    UsableSpec(q, s.info);
    if !s.closed && k > 0 {
      var n := k - 1;
      assert q[..k][..n] == q[..n];
      assert Healthy(s.info, q[n]);
    }
    assert q[0..] == q;
  }

  /** A recheck marks the connection it hands out as used now, and changes no other stack. */
  lemma RecheckTouches(s: State, g: Ticket)
    requires NilIffClosed(s) && g in s.waiting
    ensures var (r, o) := Recheck(s, g);
            && OtherStacksStay(s, r, s.waiting[g].server)
            && (o.Got? ==> o.t in s.info && r.info == s.info[o.t := s.info[o.t].(lastUsed := s.now)])
            && (!o.Got? ==> r.info == s.info)
  {
    hide WaitLoop;
  }

  // ----- the statistics -----

  /** A connection the pool already knew got a holder. */
  ghost predicate Reused(s: State, r: State) {
    exists t :: t in s.info && t in r.held && t !in s.held
  }

  /** A call went off to dial. */
  ghost predicate DialStarted(s: State, r: State) {
    exists g :: g in r.dialing && g !in s.dialing
  }

  ghost function One(b: bool): int {
    if b then 1 else 0
  }

  /** What is counted in one step is what was seen to happen in it. */
  ghost predicate StepIsCounted(s: State, e: Event, r: State) {
    && r.stats.hits == s.stats.hits + One(Reused(s, r))
    && r.stats.misses == s.stats.misses + One(DialStarted(s, r))
    && r.stats.totalConns == s.stats.totalConns + One(DialStarted(s, r))
    && r.puts == s.puts + One(e.PutEvent?)
    && r.failedDials == s.failedDials + One(e.DialFailEvent?)
  }

  lemma WaitLoopCounts(s: State, g: Ticket, server: string, since: int, deadline: int, ctxDone: bool)
    ensures var (r, o) := WaitLoop(s, g, server, since, deadline, ctxDone);
            && r.stats.hits == s.stats.hits && r.stats.misses == s.stats.misses + One(o.Reserved?)
            && r.stats.totalConns == s.stats.totalConns + One(o.Reserved?)
            && r.puts == s.puts && r.failedDials == s.failedDials
  {
  }

  /** What a section of `Get` counts, by its outcome. */
  ghost predicate OutcomeIsCounted(s: State, r: State, o: Outcome) {
    && r.stats.hits == s.stats.hits + One(o.Got?)
    && r.stats.misses == s.stats.misses + One(o.Reserved?)
    && r.stats.totalConns == s.stats.totalConns + One(o.Reserved?)
    && r.puts == s.puts && r.failedDials == s.failedDials
  }

  lemma FirstTryCounts(s: State, g: Ticket, server: string, ctxDone: bool)
    requires NilIffClosed(s)
    ensures var (r, o) := TryGet(s, g, server, ctxDone); OutcomeIsCounted(s, r, o)
  {
    hide GetSlot, Usable;
    if !s.closed {
      var q := Stack(s, server);
      GetSlotCounts(if q == [] then s else Drop(s, server, [], q), g, server, ctxDone);
    }
  }

  lemma GetSlotCounts(s: State, g: Ticket, server: string, ctxDone: bool)
    ensures var (r, o) := GetSlot(s, g, server, ctxDone); OutcomeIsCounted(s, r, o)
  {
    hide WaitLoop;
    WaitLoopCounts(s, g, server, s.now, s.now + s.cfg.waitTimeout, ctxDone);
  }

  lemma RecheckCounts(s: State, g: Ticket)
    requires NilIffClosed(s) && g in s.waiting
    ensures var (r, o) := Recheck(s, g); OutcomeIsCounted(s, r, o)
  {
    hide WaitLoop, Healthy;
    if !s.closed {
      var w := s.waiting[g];
      var q := Stack(s, w.server);
      WaitLoopCounts(s, g, w.server, w.since, w.deadline, w.ctxDone);
      if q != [] {
        WaitLoopCounts(Drop(s, w.server, q[..|q|-1], q[|q|-1..]), g, w.server, w.since, w.deadline, w.ctxDone);
      }
    }
  }

  /** An outcome shows in the holders and the dials. */
  lemma OutcomeShows(s: State, r: State, o: Outcome, g: Ticket, server: string, since: int, deadline: int)
    requires Moves(s, r, o, g, server, since, deadline) && g !in s.dialing
    requires o.Got? ==> o.t in s.info && o.t !in s.held
    ensures Reused(s, r) <==> o.Got?
    ensures DialStarted(s, r) <==> o.Reserved?
  {
    if o.Got? {
      assert o.t in r.held;
    }
    if o.Reserved? {
      assert g in r.dialing;
    }
  }

  lemma IdleNotHeld(s: State, server: string, n: nat)
    requires Inv(s) && n < |Stack(s, server)|
    ensures Stack(s, server)[n] in s.info && Stack(s, server)[n] !in s.held
  {
    IdleAlone(s, server, n);
  }

  lemma FirstTryTakesIdle(s: State, g: Ticket, server: string, ctxDone: bool)
    requires Inv(s)
    ensures NilIffClosed(s)
    ensures var o := TryGet(s, g, server, ctxDone).1; o.Got? ==> o.t in s.info && o.t !in s.held
  {
    hide Inv, TryGet, Healthy, OtherStacksStay;
    InvHead(s);
    FirstTryPops(s, g, server, ctxDone);
    var o := TryGet(s, g, server, ctxDone).1;
    if o.Got? {
      var n :| 0 <= n < |Stack(s, server)| && Stack(s, server)[n] == o.t;
      IdleNotHeld(s, server, n);
    }
  }

  lemma GetIsCounted(s: State, g: Ticket, server: string, ctxDone: bool)
    requires Inv(s) && Enabled(s, GetEvent(g, server, ctxDone))
    ensures NilIffClosed(s)
    ensures StepIsCounted(s, GetEvent(g, server, ctxDone), TryGet(s, g, server, ctxDone).0)
  {
    hide Inv, TryGet, Moves, Reused, DialStarted;
    InvHead(s);
    var (r, o) := TryGet(s, g, server, ctxDone);
    FirstTryCounts(s, g, server, ctxDone);
    FirstTryMoves(s, g, server, ctxDone);
    FirstTryTakesIdle(s, g, server, ctxDone);
    OutcomeShows(s, r, o, g, server, s.now, s.now + s.cfg.waitTimeout);
  }

  lemma RecheckIsCounted(s: State, g: Ticket)
    requires Inv(s) && Enabled(s, RecheckEvent(g))
    ensures NilIffClosed(s)
    ensures StepIsCounted(s, RecheckEvent(g), Recheck(s, g).0)
  {
    hide Inv, Recheck, Moves, Reused, DialStarted;
    InvHead(s);
    var (r, o) := Recheck(s, g);
    var w := s.waiting[g];
    RecheckCounts(s, g);
    if s.closed {
      ClosedRecheck(s, g);
      NobodyGets(s, r);
    } else {
      RecheckMoves(s, g);
      RecheckDecides(s, g);
      RecheckPops(s, g);
      if o.Got? {
        IdleNotHeld(s, w.server, |Stack(s, w.server)| - 1);
      }
      OutcomeShows(s, r, o, g, w.server, w.since, w.deadline);
    }
  }

  lemma ClosedRecheck(s: State, g: Ticket)
    requires NilIffClosed(s) && g in s.waiting && s.closed
    ensures var (r, o) := Recheck(s, g); o == ClosedError && r == s.(waiting := s.waiting - {g})
  {
  }

  lemma StepCounts(s: State, e: Event)
    requires Inv(s) && Enabled(s, e)
    ensures NilIffClosed(s) && StepIsCounted(s, e, Apply(s, e))
  {
    hide Inv, TryGet, Recheck, StepIsCounted;
    InvHead(s);
    match e
    case GetEvent(g, server, ctxDone) => GetIsCounted(s, g, server, ctxDone);
    case RecheckEvent(g) => RecheckIsCounted(s, g);
    case _ => OtherIsCounted(s, e);
  }

  lemma OtherIsCounted(s: State, e: Event)
    requires NilIffClosed(s) && Enabled(s, e) && !e.GetEvent? && !e.RecheckEvent?
    ensures StepIsCounted(s, e, Apply(s, e))
  {
    hide TryGet, Recheck, StaleMap, FreshMap, Healthy, Stack, PoolModel.Touch, WakeAll, Reused, DialStarted;
    var r := Apply(s, e);
    NobodyGets(s, r);
  }

  lemma NobodyGets(s: State, r: State)
    ensures (forall t :: t in r.held && t in s.info ==> t in s.held) ==> !Reused(s, r)
    ensures (forall g :: g in r.dialing ==> g in s.dialing) ==> !DialStarted(s, r)
  {
  }

  /** How often something happened in the first `n` steps. */
  ghost function Reuses(states: seq<State>, n: nat): int
    requires n < |states|
  {
    if n == 0 then 0 else Reuses(states, n - 1) + One(Reused(states[n-1], states[n]))
  }

  ghost function Dials(states: seq<State>, n: nat): int
    requires n < |states|
  {
    if n == 0 then 0 else Dials(states, n - 1) + One(DialStarted(states[n-1], states[n]))
  }

  ghost function Puts(events: seq<Event>, n: nat): int
    requires n <= |events|
  {
    if n == 0 then 0 else Puts(events, n - 1) + One(events[n-1].PutEvent?)
  }

  ghost function FailedDials(events: seq<Event>, n: nat): int
    requires n <= |events|
  {
    if n == 0 then 0 else FailedDials(events, n - 1) + One(events[n-1].DialFailEvent?)
  }

  /** In every run hits are the reuses and misses the dials. */
  lemma {:induction false} HitsAndMisses(states: seq<State>, events: seq<Event>, cfg: Config, start: int, i: nat)
    requires IsRun(states, events, cfg, start) && i < |states|
    ensures var s := states[i];
            && s.stats.hits == Reuses(states, i)
            && s.stats.misses == s.stats.totalConns == Dials(states, i)
            && s.puts == Puts(events, i) && s.failedDials == FailedDials(events, i)
  {
    hide Apply, Inv, Reused, DialStarted;
    if i > 0 {
      HitsAndMisses(states, events, cfg, start, i - 1);
      RunInv(states, events, cfg, start, i - 1);
      assert Step(states[i-1], events[i-1], states[i]);
      StepCounts(states[i-1], events[i-1]);
    }
  }
}
