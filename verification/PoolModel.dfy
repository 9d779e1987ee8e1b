/** The connection pool of pkg/pool/pool.go as a transition system.

    One event is one critical section of the pool's mutex (or one step of the
    environment: the clock, a context, a caller writing a connection's health
    flag).  `Get` releases the mutex twice, in `cond.Wait` and around the dial,
    so one call of `Get` is several events, tied together by the ticket of the
    call.  The class `Pool` in Pool.dfy performs these events on a heap. */
module PoolModel {
  import opened MapFolds

  /** Identity of a transport, and of the `Conn` record made around it. */
  type Transport = nat
  /** Identity of one running call of `Get`. */
  type Ticket = nat

  datatype Config = Config(maxIdle: int, maxOpen: int, idleTimeout: int, waitTimeout: int)

  datatype Info = Info(server: string, lastUsed: int, healthy: bool)

  datatype Stats = Stats(totalConns: int, activeConns: int, idleConns: int, hits: int, misses: int)

  /** The idle stacks: `Close` replaces the map by nil, and writing to a nil map panics. */
  datatype Stacks = Nil | Stacks(m: map<string, seq<Transport>>)

  /** `Due`: the timer has fired. */
  datatype Timer = Armed(at: int) | Due

  /** `ctxDone`: the caller's context has ended since the call went to sleep. */
  datatype Waiter = Waiter(server: string, since: int, deadline: int, asleep: bool, timer: Timer, ctxDone: bool)

  datatype State = State(
    cfg: Config,
    conns: Stacks,
    active: map<string, int>,
    stats: Stats,
    closed: bool,
    now: int,
    // What the pool does not store, but its callers and the runtime do.
    info: map<Transport, Info>,      // every transport a dial ever produced
    held: map<Transport, Ticket>,    // handed out and not yet put back
    dialing: map<Ticket, string>,    // calls inside dialFunc
    waiting: map<Ticket, Waiter>,    // calls inside the wait loop
    shut: multiset<Transport>,       // one occurrence per call of Transport.Close
    broadcasts: nat,                 // started by a timer or a context, and not yet done
    puts: nat,
    failedDials: nat)

  /** What a critical section of `Get` decided. */
  datatype Outcome =
    | Got(t: Transport)
    | Reserved
    | Slept
    | ClosedError
    | ExhaustedError(waited: int)
    | ContextError

  const MINUTE := 60_000_000_000  // time is counted in nanoseconds

  /** The defaults `New` puts in. */
  function Defaults(cfg: Config): (r: Config)
    ensures r.maxIdle > 0 && r.maxOpen > 0 && r.idleTimeout > 0 && r.waitTimeout == cfg.waitTimeout
    ensures r.maxIdle == cfg.maxIdle || (cfg.maxIdle <= 0 && r.maxIdle == 2)
    ensures r.maxOpen == cfg.maxOpen || (cfg.maxOpen <= 0 && r.maxOpen == 10)
    ensures r.idleTimeout == cfg.idleTimeout || (cfg.idleTimeout <= 0 && r.idleTimeout == 5 * MINUTE)
  {
    Config(
      if cfg.maxIdle <= 0 then 2 else cfg.maxIdle,
      if cfg.maxOpen <= 0 then 10 else cfg.maxOpen,
      if cfg.idleTimeout <= 0 then 5 * MINUTE else cfg.idleTimeout,
      cfg.waitTimeout)
  }

  function Init(cfg: Config, now: int): State {
    State(Defaults(cfg), Stacks(map[]), map[], Stats(0, 0, 0, 0, 0), false, now,
          map[], map[], map[], map[], multiset{}, 0, 0, 0)
  }

  // ----- reading the state -----

  function Active(s: State, server: string): int {
    if server in s.active then s.active[server] else 0
  }

  function StackMap(s: State): map<string, seq<Transport>> {
    if s.conns.Nil? then map[] else s.conns.m
  }

  function Stack(s: State, server: string): seq<Transport> {
    if server in StackMap(s) then StackMap(s)[server] else []
  }

  predicate Healthy(info: map<Transport, Info>, t: Transport) {
    t in info && info[t].healthy
  }

  function ServerOf(s: State, t: Transport): string {
    if t in s.info then s.info[t].server else ""
  }

  function Touch(info: map<Transport, Info>, t: Transport, now: int): map<Transport, Info> {
    if t in info then info[t := info[t].(lastUsed := now)] else info
  }

  predicate Expired(info: map<Transport, Info>, t: Transport, now: int, timeout: int) {
    t in info && now - info[t].lastUsed > timeout
  }

  /** What is left of a stack once the unhealthy connections on top of it are dropped, as a length. */
  function Usable(q: seq<Transport>, info: map<Transport, Info>): (k: nat)
    ensures k <= |q|
  {
    if q == [] then 0
    else if Healthy(info, q[|q|-1]) then |q|
    else Usable(q[..|q|-1], info)
  }

  lemma {:induction false} UsableSpec(q: seq<Transport>, info: map<Transport, Info>)
    ensures var k := Usable(q, info);
            (k > 0 ==> Healthy(info, q[k-1])) && (forall i :: k <= i < |q| ==> !Healthy(info, q[i]))
  {
    if q != [] && !Healthy(info, q[|q|-1]) {
      UsableSpec(q[..|q|-1], info);
    }
  }

  /** The connections a reap pass keeps, in order. */
  function Fresh(q: seq<Transport>, info: map<Transport, Info>, now: int, timeout: int): seq<Transport> {
    if q == [] then []
    else if Expired(info, q[|q|-1], now, timeout) then Fresh(q[..|q|-1], info, now, timeout)
    else Fresh(q[..|q|-1], info, now, timeout) + [q[|q|-1]]
  }

  /** The connections a reap pass closes, in order. */
  function Stale(q: seq<Transport>, info: map<Transport, Info>, now: int, timeout: int): seq<Transport> {
    if q == [] then []
    else if Expired(info, q[|q|-1], now, timeout) then Stale(q[..|q|-1], info, now, timeout) + [q[|q|-1]]
    else Stale(q[..|q|-1], info, now, timeout)
  }

  function FreshMap(m: map<string, seq<Transport>>, info: map<Transport, Info>, now: int, timeout: int)
    : map<string, seq<Transport>>
  {
    map k | k in m :: Fresh(m[k], info, now, timeout)
  }

  function StaleMap(m: map<string, seq<Transport>>, info: map<Transport, Info>, now: int, timeout: int)
    : map<string, seq<Transport>>
  {
    map k | k in m :: Stale(m[k], info, now, timeout)
  }

  // ----- pieces of critical sections -----

  predicate NilIffClosed(s: State) {
    s.conns.Nil? <==> s.closed
  }

  /** Replace a server's stack and close `dropped`, which came off it. */
  function Drop(s: State, server: string, q: seq<Transport>, dropped: seq<Transport>): State
    requires s.conns.Stacks?
  {
    s.(conns := Stacks(s.conns.m[server := q]),
       stats := s.stats.(idleConns := s.stats.idleConns - |dropped|),
       shut := s.shut + multiset(dropped))
  }

  /** Pop `t` off the stack, leaving `q`, and give it to call `g`. */
  function HandOut(s: State, g: Ticket, server: string, q: seq<Transport>, t: Transport): State
    requires s.conns.Stacks?
  {
    s.(conns := Stacks(s.conns.m[server := q]),
       active := s.active[server := Active(s, server) + 1],
       stats := s.stats.(idleConns := s.stats.idleConns - 1, hits := s.stats.hits + 1,
                         activeConns := s.stats.activeConns + 1),
       info := Touch(s.info, t, s.now),
       held := s.held[t := g],
       waiting := s.waiting - {g})
  }

  /** Claim a slot and leave the mutex to dial. */
  function Reserve(s: State, g: Ticket, server: string): State {
    s.(active := s.active[server := Active(s, server) + 1],
       stats := s.stats.(misses := s.stats.misses + 1, totalConns := s.stats.totalConns + 1,
                         activeConns := s.stats.activeConns + 1),
       dialing := s.dialing[g := server],
       waiting := s.waiting - {g})
  }

  function WakeAll(waiting: map<Ticket, Waiter>): map<Ticket, Waiter> {
    map g | g in waiting :: waiting[g].(asleep := false)
  }

  /** The wait loop from its test up to the next release of the mutex. */
  function WaitLoop(s: State, g: Ticket, server: string, since: int, deadline: int, ctxDone: bool)
    : (r: (State, Outcome))
    ensures r.0.conns == s.conns && r.0.info == s.info && r.0.cfg == s.cfg && r.0.shut == s.shut && !r.1.Got?
  {
    if Active(s, server) < s.cfg.maxOpen then
      (Reserve(s, g, server), Reserved)
    else if ctxDone then
      (s.(waiting := s.waiting - {g}), ContextError)
    else if deadline - s.now <= 0 then
      (s.(waiting := s.waiting - {g}), ExhaustedError(s.cfg.waitTimeout))
    else
      (s.(waiting := s.waiting[g := Waiter(server, since, deadline, true, Armed(s.now + (deadline - s.now)), false)]),
       Slept)
  }

  /** `Get` without an idle connection to hand out: dial, wait or give up. */
  function GetSlot(s: State, g: Ticket, server: string, ctxDone: bool): (r: (State, Outcome))
    ensures r.0.conns == s.conns && r.0.closed == s.closed && r.0.cfg == s.cfg && r.0.shut == s.shut && !r.1.Got?
    ensures r.0.info == s.info
  {
    if Active(s, server) < s.cfg.maxOpen then
      (Reserve(s, g, server), Reserved)
    else if s.cfg.waitTimeout <= 0 then
      (s, ExhaustedError(0))
    else
      WaitLoop(s, g, server, s.now, s.now + s.cfg.waitTimeout, ctxDone)
  }

  // ----- critical sections -----

  /** `Get` up to the point where it first leaves the mutex. */
  function TryGet(s: State, g: Ticket, server: string, ctxDone: bool): (r: (State, Outcome))
    requires NilIffClosed(s)
    ensures NilIffClosed(r.0) && r.0.closed == s.closed && r.0.cfg == s.cfg
  {
    if s.closed then (s, ClosedError) else
    var q := Stack(s, server);
    var k := Usable(q, s.info);
    if k > 0 then
      var s1 := Drop(s, server, q[..k], q[k..]);
      (HandOut(s1, g, server, q[..k-1], q[k-1]), Got(q[k-1]))
    else
      GetSlot(if q == [] then s else Drop(s, server, [], q), g, server, ctxDone)
  }

  /** `Get` from the return of `cond.Wait` to the next time it leaves the mutex. */
  function Recheck(s: State, g: Ticket): (r: (State, Outcome))
    requires NilIffClosed(s) && g in s.waiting
    ensures NilIffClosed(r.0) && r.0.closed == s.closed && r.0.cfg == s.cfg
  {
    var w := s.waiting[g];
    if s.closed then (s.(waiting := s.waiting - {g}), ClosedError) else
    var q := Stack(s, w.server);
    if q == [] then
      WaitLoop(s, g, w.server, w.since, w.deadline, w.ctxDone)
    else if Healthy(s.info, q[|q|-1]) then
      (HandOut(s, g, w.server, q[..|q|-1], q[|q|-1]), Got(q[|q|-1]))
    else
      WaitLoop(Drop(s, w.server, q[..|q|-1], q[|q|-1..]), g, w.server, w.since, w.deadline, w.ctxDone)
  }

  function DialOk(s: State, g: Ticket, t: Transport): State
    requires g in s.dialing
  {
    s.(info := s.info[t := Info(s.dialing[g], s.now, true)],
       held := s.held[t := g],
       dialing := s.dialing - {g})
  }

  function DialFail(s: State, g: Ticket): State
    requires g in s.dialing
  {
    var server := s.dialing[g];
    s.(active := s.active[server := Active(s, server) - 1],
       stats := s.stats.(activeConns := s.stats.activeConns - 1),
       dialing := s.dialing - {g},
       waiting := WakeAll(s.waiting),
       failedDials := s.failedDials + 1)
  }

  /** `t` comes back and is closed. */
  function Retire(s: State, t: Transport): State {
    var server := ServerOf(s, t);
    s.(active := s.active[server := Active(s, server) - 1],
       stats := s.stats.(activeConns := s.stats.activeConns - 1),
       shut := s.shut + multiset{t},
       held := s.held - {t},
       waiting := WakeAll(s.waiting),
       puts := s.puts + 1)
  }

  /** `t` comes back and goes on its stack. */
  function Push(s: State, t: Transport): State
    requires s.conns.Stacks?
  {
    var server := ServerOf(s, t);
    s.(active := s.active[server := Active(s, server) - 1],
       stats := s.stats.(activeConns := s.stats.activeConns - 1, idleConns := s.stats.idleConns + 1),
       conns := Stacks(s.conns.m[server := Stack(s, server) + [t]]),
       info := Touch(s.info, t, s.now),
       held := s.held - {t},
       waiting := WakeAll(s.waiting),
       puts := s.puts + 1)
  }

  function Put(s: State, t: Transport): State
    requires NilIffClosed(s) && t in s.held
  {
    if s.closed || !Healthy(s.info, t) || |Stack(s, ServerOf(s, t))| >= s.cfg.maxIdle then Retire(s, t) else Push(s, t)
  }

  function ClearServer(s: State, server: string): State {
    if s.conns.Nil? then s else
    var q := Stack(s, server);
    s.(conns := Stacks(s.conns.m - {server}),
       stats := s.stats.(idleConns := s.stats.idleConns - |q|),
       shut := s.shut + multiset(q))
  }

  /** `Close` leaves the idle counter as it was. */
  ghost function Close(s: State): State {
    if s.closed then s else
    s.(closed := true,
       conns := Nil,
       shut := s.shut + Contents(StackMap(s)),
       waiting := WakeAll(s.waiting))
  }

  /** One tick of the reaper. */
  ghost function Reap(s: State): State
    requires NilIffClosed(s)
  {
    if s.closed then s else
    var stale := Contents(StaleMap(s.conns.m, s.info, s.now, s.cfg.idleTimeout));
    s.(conns := Stacks(FreshMap(s.conns.m, s.info, s.now, s.cfg.idleTimeout)),
       stats := s.stats.(idleConns := s.stats.idleConns - |stale|),
       shut := s.shut + stale)
  }

  /** The timers whose time comes by `now`. */
  function Firing(s: State, now: int): set<Ticket> {
    set g | g in s.waiting && s.waiting[g].timer.Armed? && s.waiting[g].timer.at <= now
  }

  /** Time moves on; a timer whose time has come starts its goroutine, which will broadcast. */
  function Tick(s: State, now: int): State {
    s.(now := now,
       broadcasts := s.broadcasts + |Firing(s, now)|,
       waiting := map g | g in s.waiting ::
                    if s.waiting[g].timer.Armed? && s.waiting[g].timer.at <= now
                    then s.waiting[g].(timer := Due) else s.waiting[g])
  }

  /** A waiting call's context ends, which starts the goroutine of `context.AfterFunc`. */
  function Cancel(s: State, g: Ticket): State
    requires g in s.waiting
  {
    if s.waiting[g].ctxDone then s else
    s.(waiting := s.waiting[g := s.waiting[g].(ctxDone := true)],
       broadcasts := s.broadcasts + 1)
  }

  /** One of the goroutines that timers and contexts started gets the mutex. */
  function Broadcast(s: State): State
    requires s.broadcasts > 0
  {
    s.(waiting := WakeAll(s.waiting), broadcasts := s.broadcasts - 1)
  }

  // ----- events and runs -----

  datatype Event =
    | GetEvent(g: Ticket, server: string, ctxDone: bool)
    | RecheckEvent(g: Ticket)
    | DialOkEvent(g: Ticket, t: Transport)
    | DialFailEvent(g: Ticket)
    | PutEvent(t: Transport)
    | ClearEvent(server: string)
    | ReapEvent
    | CloseEvent
    | BroadcastEvent
    | TickEvent(now: int)
    | CancelEvent(g: Ticket)
    | SetHealthEvent(t: Transport, healthy: bool)

  /** When an event can happen.  The three assumptions on the pool's users are here: a call is
      in one place at a time, a dial returns a new transport, and a connection is put back by
      somebody who holds it.  The clock does not run backwards. */
  predicate Enabled(s: State, e: Event) {
    match e
    case GetEvent(g, _, _) => g !in s.waiting && g !in s.dialing
    case RecheckEvent(g) => g in s.waiting && !s.waiting[g].asleep
    case DialOkEvent(g, t) => g in s.dialing && t !in s.info
    case DialFailEvent(g) => g in s.dialing
    case PutEvent(t) => t in s.held
    case ClearEvent(_) => true
    case ReapEvent => true
    case CloseEvent => true
    case BroadcastEvent => s.broadcasts > 0
    case TickEvent(now) => s.now <= now
    case CancelEvent(g) => g in s.waiting
    case SetHealthEvent(t, _) => t in s.info
  }

  ghost function Apply(s: State, e: Event): State
    requires NilIffClosed(s) && Enabled(s, e)
  {
    match e
    case GetEvent(g, server, ctxDone) => TryGet(s, g, server, ctxDone).0
    case RecheckEvent(g) => Recheck(s, g).0
    case DialOkEvent(g, t) => DialOk(s, g, t)
    case DialFailEvent(g) => DialFail(s, g)
    case PutEvent(t) => Put(s, t)
    case ClearEvent(server) => ClearServer(s, server)
    case ReapEvent => Reap(s)
    case CloseEvent => Close(s)
    case BroadcastEvent => Broadcast(s)
    case TickEvent(now) => Tick(s, now)
    case CancelEvent(g) => Cancel(s, g)
    case SetHealthEvent(t, healthy) => s.(info := s.info[t := s.info[t].(healthy := healthy)])
  }

  ghost predicate Step(s: State, e: Event, r: State) {
    Enabled(s, e) && (NilIffClosed(s) ==> r == Apply(s, e))
  }

  /** `states` is a run of a pool made by `New(cfg)`, with `events` between its states. */
  ghost predicate IsRun(states: seq<State>, events: seq<Event>, cfg: Config, start: int) {
    && |states| == |events| + 1
    && states[0] == Init(cfg, start)
    && (forall i :: 0 <= i < |events| ==> Step(states[i], events[i], states[i+1]))
  }
}
