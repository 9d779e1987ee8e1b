/** Requests and answers of pkg/proxy/proxy.go over pooled transports.

    The state of the connection pool is a component here, moved by the pool's own events.  On top
    of it, callers draw ids from the proxy's counter, send requests on the transports they own and
    read answers; each transport's backend may answer any request it was sent, late, twice or never,
    and may send notifications and requests of its own.  A transport to the gateway's hub is shared:
    the hub sends what a host says to all clients of the host, so answers to this proxy's requests
    on other transports arrive there too, and so do answers to other clients and to the handshake
    that the transport library numbers itself. */
module Correlation {
  import opened PoolModel
  import opened PoolInvariants
  import PoolTheorems
  import opened MessageIds

  /** What a message is for; the proxy only looks at the id.  `Foreign`: an answer to a request that
      is not the proxy's. */
  datatype Kind = Reply(answers: int) | Foreign | Notification | PeerRequest

  type Mail = Message<Kind>

  /** `Taken(at)`: the call returned with message number `at` of its transport, as result or as RPC
      error.  `Failed`: the send failed, the deadline passed or the transport broke. */
  datatype Status = Drawn | Sent | Taken(at: nat) | Failed

  datatype Call = Call(g: Ticket, t: Transport, status: Status)

  datatype Sys = Sys(
    pool: State,
    counter: nat,
    connecting: map<Ticket, Transport>,   // dialled, being initialised inside dialFunc
    made: set<Transport>,                 // every transport ever created
    shared: set<Transport>,               // those of them that go through the hub
    calls: map<int, Call>,                // every request, by id
    log: map<Transport, seq<Mail>>,       // everything a backend ever sent
    pos: map<Transport, nat>)             // how much of it was received

  function Log(s: Sys, t: Transport): seq<Mail> { if t in s.log then s.log[t] else [] }

  function Pos(s: Sys, t: Transport): nat { if t in s.pos then s.pos[t] else 0 }

  predicate Live(s: Sys, id: int) {
    id in s.calls && (s.calls[id].status.Drawn? || s.calls[id].status.Sent?)
  }

  /** `g` holds `t`, or is still setting it up. */
  predicate Owns(s: Sys, g: Ticket, t: Transport) {
    (t in s.pool.held && s.pool.held[t] == g) || (g in s.connecting && s.connecting[g] == t)
  }

  /** A caller does one thing at a time: `g` has no unfinished request on `t`. */
  ghost predicate Quiet(s: Sys, g: Ticket, t: Transport) {
    forall id :: Live(s, id) ==> !(s.calls[id].g == g && s.calls[id].t == t)
  }

  datatype Event =
    | PoolStep(e: PoolModel.Event)
    | Connect(g: Ticket, t: Transport, hub: bool)
    | Dialled(g: Ticket)
    | DialFailed(g: Ticket)
    | Draw(g: Ticket, t: Transport)
    | DrawElsewhere
    | Send(id: int, ok: bool)
    | Emit(t: Transport, m: Mail)
    | Receive(id: int)
    | GiveUp(id: int)

  /** What may arrive on `t`. */
  ghost predicate MaySend(s: Sys, t: Transport, m: Mail) {
    match m.body
    case Reply(j) =>
      && j in s.calls && !s.calls[j].status.Drawn?
      && (s.calls[j].t == t || (t in s.shared && s.calls[j].t in s.shared))
      && j >= 0 && exists form :: m.id == Encode(j, form)
    case Foreign => t in s.shared
    case Notification => m.id == NoId
    case PeerRequest => true
  }

  ghost predicate Enabled(s: Sys, e: Event) {
    match e
    case PoolStep(pe) =>
      && PoolModel.Enabled(s.pool, pe)
      && !pe.DialOkEvent? && !pe.DialFailEvent?
      // withBackend puts the connection back after its request has returned.
      && (pe.PutEvent? ==> Quiet(s, s.pool.held[pe.t], pe.t))
    case Connect(g, t, _) => g in s.pool.dialing && g !in s.connecting && t !in s.made
    case Dialled(g) => g in s.connecting && g in s.pool.dialing && Quiet(s, g, s.connecting[g])
    case DialFailed(g) => g in s.pool.dialing && (g in s.connecting ==> Quiet(s, g, s.connecting[g]))
    case Draw(g, t) => Owns(s, g, t) && Quiet(s, g, t) && s.counter < EXACT
    case DrawElsewhere => s.counter < EXACT
    case Send(id, _) => id in s.calls && s.calls[id].status.Drawn?
    case Emit(t, m) => MaySend(s, t, m)
    case Receive(id) => id in s.calls && s.calls[id].status.Sent? && Pos(s, s.calls[id].t) < |Log(s, s.calls[id].t)|
    case GiveUp(id) => id in s.calls && s.calls[id].status.Sent?
  }

  ghost function Apply(s: Sys, e: Event): Sys
    requires NilIffClosed(s.pool) && Enabled(s, e)
  {
    match e
    case PoolStep(pe) => s.(pool := PoolModel.Apply(s.pool, pe))
    case Connect(g, t, hub) =>
      s.(connecting := s.connecting[g := t], made := s.made + {t}, shared := if hub then s.shared + {t} else s.shared)
    case Dialled(g) => s.(pool := DialOk(s.pool, g, s.connecting[g]), connecting := s.connecting - {g})
    case DialFailed(g) => s.(pool := DialFail(s.pool, g), connecting := s.connecting - {g})
    case Draw(g, t) => s.(counter := s.counter + 1, calls := s.calls[s.counter + 1 := Call(g, t, Drawn)])
    case DrawElsewhere => s.(counter := s.counter + 1)
    case Send(id, ok) => s.(calls := s.calls[id := s.calls[id].(status := if ok then Sent else Failed)])
    case Emit(t, m) => s.(log := s.log[t := Log(s, t) + [m]])
    case Receive(id) =>
      var t := s.calls[id].t;
      var at := Pos(s, t);
      var read := s.(pos := s.pos[t := at + 1]);
      if Matches(Log(s, t)[at].id, id)
      then read.(calls := s.calls[id := s.calls[id].(status := Taken(at))])
      else read
    case GiveUp(id) => s.(calls := s.calls[id := s.calls[id].(status := Failed)])
  }

  function Init(cfg: Config, now: int): Sys {
    Sys(PoolModel.Init(cfg, now), 0, map[], {}, {}, map[], map[], map[])
  }

  ghost predicate Step(s: Sys, e: Event, r: Sys) {
    Enabled(s, e) && (NilIffClosed(s.pool) ==> r == Apply(s, e))
  }

  ghost predicate IsRun(states: seq<Sys>, events: seq<Event>, cfg: Config, start: int) {
    && |states| == |events| + 1
    && states[0] == Init(cfg, start)
    && (forall i :: 0 <= i < |events| ==> Step(states[i], events[i], states[i+1]))
  }

  // ----- the invariant -----

  ghost predicate Connections(s: Sys) {
    && s.pool.info.Keys <= s.made
    && (forall g :: g in s.connecting ==>
          g in s.pool.dialing && s.connecting[g] in s.made && s.connecting[g] !in s.pool.info)
    && (forall g, h :: g in s.connecting && h in s.connecting && s.connecting[g] == s.connecting[h] ==> g == h)
  }

  ghost predicate Ids(s: Sys) {
    s.counter <= EXACT && forall id :: id in s.calls ==> 1 <= id <= s.counter
  }

  /** An unfinished request was made by the present owner of its transport. */
  ghost predicate Ownership(s: Sys) {
    forall id :: Live(s, id) ==> Owns(s, s.calls[id].g, s.calls[id].t)
  }

  /** At most one unfinished request per transport. */
  ghost predicate OneLive(s: Sys) {
    forall i, j :: Live(s, i) && Live(s, j) && s.calls[i].t == s.calls[j].t ==> i == j
  }

  /** Every answer on a private transport is to a request sent on it; an answer to one of the proxy's
      requests matches no other id. */
  ghost predicate GoodMail(s: Sys, t: Transport, m: Mail) {
    && (m.body.Notification? ==> m.id == NoId)
    && (m.body.Reply? ==>
      var j := m.body.answers;
      && j in s.calls && (s.calls[j].t == t || t in s.shared) && !s.calls[j].status.Drawn?
      && forall id: int :: Matches(m.id, id) <==> id == j)
    && (m.body.Foreign? ==> t in s.shared)
  }

  /** The answer to an unfinished request is still to be read. */
  ghost predicate Unread(s: Sys) {
    forall id, k :: Live(s, id) && 0 <= k < Pos(s, s.calls[id].t) && k < |Log(s, s.calls[id].t)| ==>
      Log(s, s.calls[id].t)[k].body != Reply(id)
  }

  ghost predicate Logs(s: Sys) {
    forall t, k :: 0 <= k < |Log(s, t)| ==> GoodMail(s, t, Log(s, t)[k])
  }

  ghost predicate Reads(s: Sys) {
    && (forall t :: Pos(s, t) <= |Log(s, t)|)
    && (forall id :: id in s.calls && s.calls[id].status.Taken? ==>
          var c := s.calls[id];
          c.status.at < Pos(s, c.t) && Matches(Log(s, c.t)[c.status.at].id, id))
  }

  ghost predicate SysInv(s: Sys) {
    && NilIffClosed(s.pool) && Inv(s.pool)
    && Connections(s) && Ids(s) && Ownership(s) && OneLive(s)
    && Logs(s) && Reads(s) && Unread(s)
  }

  // ----- what the pool guarantees its callers -----

  /** Nobody but the caller who puts it back takes a connection from its holder; and a dial stays
      with the call that made it. */
  lemma HoldersStay(s: State, e: PoolModel.Event)
    requires Inv(s) && PoolModel.Enabled(s, e) && !e.DialOkEvent? && !e.DialFailEvent?
    ensures var r := PoolModel.Apply(s, e);
            && (forall t :: t in s.held && !(e.PutEvent? && e.t == t) ==> t in r.held && r.held[t] == s.held[t])
            && (forall g :: g in s.dialing ==> g in r.dialing)
            && r.info.Keys == s.info.Keys
  {
    hide Sorted, OwnStack, Counted, Bounded, Waiters, Accounts;
    match e
    case GetEvent(g, server, ctxDone) => GetHoldersStay(s, g, server, ctxDone);
    case RecheckEvent(g) => RecheckHoldersStay(s, g);
    case _ =>
  }

  lemma GetHoldersStay(s: State, g: Ticket, server: string, ctxDone: bool)
    requires NilIffClosed(s) && Conserved(s)
    ensures var r := TryGet(s, g, server, ctxDone).0;
            && (forall t :: t in s.held ==> t in r.held && r.held[t] == s.held[t])
            && (forall h :: h in s.dialing ==> h in r.dialing)
            && r.info.Keys == s.info.Keys
  {
    var q := Stack(s, server);
    var k := Usable(q, s.info);
    if !s.closed && k > 0 {
      IdleAlone(s, server, k - 1);
    }
  }

  lemma RecheckHoldersStay(s: State, g: Ticket)
    requires NilIffClosed(s) && Conserved(s) && g in s.waiting
    ensures var r := Recheck(s, g).0;
            && (forall t :: t in s.held ==> t in r.held && r.held[t] == s.held[t])
            && (forall h :: h in s.dialing ==> h in r.dialing)
            && r.info.Keys == s.info.Keys
  {
    var q := Stack(s, s.waiting[g].server);
    if !s.closed && q != [] {
      IdleAlone(s, s.waiting[g].server, |q| - 1);
    }
  }

  // ----- the invariant is kept -----

  lemma InitInv(cfg: Config, now: int)
    ensures SysInv(Init(cfg, now))
  {
    PoolTheorems.InitInv(cfg, now);
  }

  /** Exclusive ownership, which the pool provides. */
  lemma OneOwner(s: Sys, g: Ticket, h: Ticket, t: Transport)
    requires Inv(s.pool) && Connections(s) && Owns(s, g, t) && Owns(s, h, t)
    ensures g == h
  {
    if t in s.pool.held {
      HeldKnown(s.pool, t);
    }
  }

  lemma PoolStepKeeps(s: Sys, e: PoolModel.Event)
    requires SysInv(s) && Enabled(s, PoolStep(e))
    ensures SysInv(Apply(s, PoolStep(e)))
  {
    hide PoolModel.Apply, Inv;
    var r := Apply(s, PoolStep(e));
    PoolTheorems.StepInv(s.pool, e);
    PoolTheorems.InvHead(r.pool);
    HoldersStay(s.pool, e);
    forall id | Live(r, id) ensures Owns(r, r.calls[id].g, r.calls[id].t) {
      assert Live(s, id);
    }
    LogsSame(s, r);
    ReadsSame(s, r);
    UnreadSame(s, r);
  }

  lemma ConnectKeeps(s: Sys, g: Ticket, t: Transport, hub: bool)
    requires SysInv(s) && Enabled(s, Connect(g, t, hub))
    ensures SysInv(Apply(s, Connect(g, t, hub)))
  {
    hide Inv;
    var r := Apply(s, Connect(g, t, hub));
    forall id | Live(r, id) ensures Owns(r, r.calls[id].g, r.calls[id].t) {
      assert Live(s, id);
    }
    LogsSame(s, r);
    ReadsSame(s, r);
    UnreadSame(s, r);
  }

  lemma DialledKeeps(s: Sys, g: Ticket)
    requires SysInv(s) && Enabled(s, Dialled(g))
    ensures SysInv(Apply(s, Dialled(g)))
  {
    hide Inv;
    var r := Apply(s, Dialled(g));
    DialOkKeeps(s.pool, g, s.connecting[g]);
    forall id | Live(r, id) ensures Owns(r, r.calls[id].g, r.calls[id].t) {
      assert Live(s, id);
      if s.calls[id].t in s.pool.held && s.calls[id].t == s.connecting[g] {
        assert Inv(s.pool);
        HeldIsKnown(s.pool, s.calls[id].t);
      }
    }
    LogsSame(s, r);
    ReadsSame(s, r);
    UnreadSame(s, r);
  }

  lemma HeldIsKnown(s: State, t: Transport)
    requires Inv(s) && t in s.held
    ensures t in s.info
  {
    HeldKnown(s, t);
  }

  lemma DialFailedKeeps(s: Sys, g: Ticket)
    requires SysInv(s) && Enabled(s, DialFailed(g))
    ensures SysInv(Apply(s, DialFailed(g)))
  {
    hide Inv;
    var r := Apply(s, DialFailed(g));
    DialFailKeeps(s.pool, g);
    forall id | Live(r, id) ensures Owns(r, r.calls[id].g, r.calls[id].t) {
      assert Live(s, id);
    }
    LogsSame(s, r);
    ReadsSame(s, r);
    UnreadSame(s, r);
  }

  lemma DrawKeeps(s: Sys, g: Ticket, t: Transport)
    requires SysInv(s) && Enabled(s, Draw(g, t))
    ensures SysInv(Apply(s, Draw(g, t)))
  {
    hide Inv;
    var r := Apply(s, Draw(g, t));
    var n := s.counter + 1;
    assert n !in s.calls;
    forall id | Live(r, id) ensures Owns(r, r.calls[id].g, r.calls[id].t) {
      assert id == n || Live(s, id);
    }
    forall j | Live(s, j) && s.calls[j].t == t ensures false {
      OneOwner(s, g, s.calls[j].g, t);
    }
    forall i, j | Live(r, i) && Live(r, j) && r.calls[i].t == r.calls[j].t ensures i == j {
      assert (i == n || Live(s, i)) && (j == n || Live(s, j));
    }
    LogsSame(s, r);
    ReadsSame(s, r);
    UnreadSame(s, r);
  }

  /** The mail stays good while calls are added or move on. */
  lemma LogsSame(s: Sys, r: Sys)
    requires Logs(s) && r.log == s.log && s.shared <= r.shared
    requires forall id :: id in s.calls ==> id in r.calls && r.calls[id].t == s.calls[id].t
                                            && (r.calls[id].status.Drawn? ==> s.calls[id].status.Drawn?)
    ensures Logs(r)
  {
    forall t, k | 0 <= k < |Log(r, t)| ensures GoodMail(r, t, Log(r, t)[k]) {
      assert GoodMail(s, t, Log(s, t)[k]);
    }
  }

  lemma ReadsSame(s: Sys, r: Sys)
    requires Reads(s) && r.log == s.log && r.pos == s.pos
    requires forall id :: id in r.calls && r.calls[id].status.Taken? ==> id in s.calls && s.calls[id] == r.calls[id]
    ensures Reads(r)
  {
    forall u ensures Pos(r, u) <= |Log(r, u)| && Pos(s, u) == Pos(r, u) && Log(r, u) == Log(s, u) {
      assert Pos(s, u) <= |Log(s, u)|;
    }
  }

  lemma UnreadSame(s: Sys, r: Sys)
    requires Unread(s) && Logs(s) && r.log == s.log && r.pos == s.pos
    requires forall id :: Live(r, id) ==> (id in s.calls ==> Live(s, id) && s.calls[id].t == r.calls[id].t)
    ensures Unread(r)
  {
    forall id, k | Live(r, id) && 0 <= k < Pos(r, r.calls[id].t) && k < |Log(r, r.calls[id].t)|
      ensures Log(r, r.calls[id].t)[k].body != Reply(id)
    {
      var t := r.calls[id].t;
      assert Log(s, t) == Log(r, t) && Pos(s, t) == Pos(r, t);
      assert GoodMail(s, t, Log(s, t)[k]);
      if id in s.calls {
        assert Live(s, id) && Log(s, s.calls[id].t)[k] == Log(r, t)[k];
      }
    }
  }

  /** A request that moves on, or ends, disturbs nobody. */
  lemma StatusKeeps(s: Sys, r: Sys, id: int, st: Status)
    requires SysInv(s) && Live(s, id)
    requires r == s.(calls := s.calls[id := s.calls[id].(status := st)]) && !st.Drawn? && !st.Taken?
    ensures SysInv(r)
  {
    hide Inv;
    forall i | Live(r, i) ensures Live(s, i) && Owns(r, r.calls[i].g, r.calls[i].t) {
    }
    LogsSame(s, r);
    ReadsSame(s, r);
    UnreadSame(s, r);
  }

  lemma EmitKeeps(s: Sys, t: Transport, m: Mail)
    requires SysInv(s) && Enabled(s, Emit(t, m))
    ensures SysInv(Apply(s, Emit(t, m)))
  {
    hide Inv;
    var r := Apply(s, Emit(t, m));
    assert GoodMail(s, t, m) by {
      if m.body.Reply? {
        var j := m.body.answers;
        var form :| m.id == Encode(j, form);
        forall id: int ensures Matches(m.id, id) <==> id == j { AnswerMatches(j, form, id); }
      }
    }
    forall u, k | 0 <= k < |Log(r, u)| ensures GoodMail(r, u, Log(r, u)[k]) {
      assert (u == t && k == |Log(s, t)|) || GoodMail(s, u, Log(s, u)[k]);
    }
    EmitReads(s, t, m);
    EmitUnread(s, t, m);
    forall id | Live(r, id) ensures Owns(r, r.calls[id].g, r.calls[id].t) {
      assert Live(s, id);
    }
  }

  lemma EmitUnread(s: Sys, t: Transport, m: Mail)
    requires Unread(s) && Reads(s)
    ensures Unread(s.(log := s.log[t := Log(s, t) + [m]]))
  {
    var r := s.(log := s.log[t := Log(s, t) + [m]]);
    forall id, k | Live(r, id) && 0 <= k < Pos(r, r.calls[id].t) && k < |Log(r, r.calls[id].t)|
      ensures Log(r, r.calls[id].t)[k].body != Reply(id)
    {
      var u := r.calls[id].t;
      assert Live(s, id) && Pos(s, u) <= |Log(s, u)| && Log(r, u)[k] == Log(s, u)[k];
    }
  }

  lemma EmitReads(s: Sys, t: Transport, m: Mail)
    requires Reads(s)
    ensures Reads(s.(log := s.log[t := Log(s, t) + [m]]))
  {
    var r := s.(log := s.log[t := Log(s, t) + [m]]);
    forall u ensures Pos(r, u) <= |Log(r, u)| && Log(s, u) <= Log(r, u) {
      assert Pos(s, u) <= |Log(s, u)|;
    }
  }

  lemma ReceiveReads(s: Sys, id: int)
    requires NilIffClosed(s.pool) && Reads(s) && Enabled(s, Receive(id))
    ensures Reads(Apply(s, Receive(id)))
  {
    var r := Apply(s, Receive(id));
    forall u ensures Pos(r, u) <= |Log(r, u)| && Pos(s, u) <= Pos(r, u) && Log(r, u) == Log(s, u) {
      assert Pos(s, u) <= |Log(s, u)|;
    }
  }

  lemma ReceiveKeeps(s: Sys, id: int)
    requires SysInv(s) && Enabled(s, Receive(id))
    ensures SysInv(Apply(s, Receive(id)))
  {
    hide Inv;
    var r := Apply(s, Receive(id));
    forall i | Live(r, i) ensures Live(s, i) && Owns(r, r.calls[i].g, r.calls[i].t) {
    }
    LogsSame(s, r);
    ReceiveReads(s, id);
    ReceiveUnread(s, id);
  }

  lemma ReceiveUnread(s: Sys, id: int)
    requires NilIffClosed(s.pool) && Unread(s) && Logs(s) && OneLive(s) && Enabled(s, Receive(id))
    ensures Unread(Apply(s, Receive(id)))
  {
    var r := Apply(s, Receive(id));
    var t := s.calls[id].t;
    assert GoodMail(s, t, Log(s, t)[Pos(s, t)]);
    forall j, k | Live(r, j) && 0 <= k < Pos(r, r.calls[j].t) && k < |Log(r, r.calls[j].t)|
      ensures Log(r, r.calls[j].t)[k].body != Reply(j)
    {
      assert Live(s, j) && s.calls[j].t == r.calls[j].t && Log(r, s.calls[j].t) == Log(s, s.calls[j].t);
    }
  }

  lemma StepKeeps(s: Sys, e: Event)
    requires SysInv(s) && Enabled(s, e)
    ensures NilIffClosed(s.pool) && SysInv(Apply(s, e))
  {
    PoolTheorems.InvHead(s.pool);
    hide SysInv;
    match e
    case PoolStep(pe) => PoolStepKeeps(s, pe);
    case Connect(g, t, hub) => ConnectKeeps(s, g, t, hub);
    case Dialled(g) => DialledKeeps(s, g);
    case DialFailed(g) => DialFailedKeeps(s, g);
    case Draw(g, t) => DrawKeeps(s, g, t);
    case DrawElsewhere => ElsewhereKeeps(s);
    case Send(id, ok) => StatusKeeps(s, Apply(s, e), id, if ok then Sent else Failed);
    case Emit(t, m) => EmitKeeps(s, t, m);
    case Receive(id) => ReceiveKeeps(s, id);
    case GiveUp(id) => StatusKeeps(s, Apply(s, e), id, Failed);
  }

  lemma ElsewhereKeeps(s: Sys)
    requires SysInv(s) && Enabled(s, DrawElsewhere)
    ensures SysInv(Apply(s, DrawElsewhere))
  {
    hide Inv;
    var r := Apply(s, DrawElsewhere);
    forall i | Live(r, i) ensures Live(s, i) && Owns(r, r.calls[i].g, r.calls[i].t) {
    }
    LogsSame(s, r);
    ReadsSame(s, r);
    UnreadSame(s, r);
  }

  lemma {:induction false} RunInv(states: seq<Sys>, events: seq<Event>, cfg: Config, start: int, i: nat)
    requires IsRun(states, events, cfg, start) && i < |states|
    ensures SysInv(states[i])
  {
    hide SysInv, Apply;
    if i == 0 {
      InitInv(cfg, start);
    } else {
      RunInv(states, events, cfg, start, i - 1);
      assert Step(states[i-1], events[i-1], states[i]);
      StepKeeps(states[i-1], events[i-1]);
    }
  }

  // ----- how a call goes on -----

  /** A call keeps its caller and its transport.  It is sent or fails to be sent, then takes a message
      or is given up, each by its own event, and stays finished after that. */
  ghost predicate CallMoves(c: Call, d: Call, id: int, e: Event) {
    && d.g == c.g && d.t == c.t
    && d.status == match e
                   case Send(i, ok) => if i != id then c.status else if ok then Sent else Failed
                   case GiveUp(i) => if i != id then c.status else Failed
                   case Receive(i) => if i == id && d.status.Taken? then d.status else c.status
                   case _ => c.status
  }

  lemma CallsMove(s: Sys, e: Event)
    requires SysInv(s) && Enabled(s, e)
    ensures NilIffClosed(s.pool)
    ensures var r := Apply(s, e);
            && (forall id :: id in s.calls ==> id in r.calls && CallMoves(s.calls[id], r.calls[id], id, e))
            && (forall id :: id in r.calls && id !in s.calls ==>
                  e.Draw? && id == s.counter + 1 && r.calls[id] == Call(e.g, e.t, Drawn))
            && (e.Draw? ==> s.counter + 1 in r.calls && s.counter + 1 !in s.calls)
            && r.counter == s.counter + (if e.Draw? || e.DrawElsewhere? then 1 else 0)
  {
    PoolTheorems.InvHead(s.pool);
    hide Inv, PoolModel.Apply, Ownership, OneLive, Logs, Unread, Connections, Matches;
  }

  /** Backends append to what they sent. */
  lemma LogsGrow(s: Sys, e: Event)
    requires NilIffClosed(s.pool) && Enabled(s, e)
    ensures forall t :: Log(Apply(s, e), t) == Log(s, t) + if e.Emit? && e.t == t then [e.m] else []
  {
    hide PoolModel.Apply, Matches, MaySend, NilIffClosed, Quiet, Owns;
  }

  /** A receive step reads one message of its call's transport. */
  lemma ReadsGrow(s: Sys, e: Event)
    requires NilIffClosed(s.pool) && Enabled(s, e)
    ensures forall t :: Pos(Apply(s, e), t) == Pos(s, t) + if e.Receive? && s.calls[e.id].t == t then 1 else 0
  {
    hide PoolModel.Apply, Matches, MaySend, NilIffClosed, Quiet, Owns;
  }

  /** The pool moves by its own events, and by the end of a dial, which hands over the transport made for it. */
  lemma PoolMoves(s: Sys, e: Event)
    requires SysInv(s) && Enabled(s, e)
    ensures NilIffClosed(s.pool)
    ensures var r := Apply(s, e);
            r.pool == match e
                      case PoolStep(pe) => PoolModel.Apply(s.pool, pe)
                      case Dialled(g) => PoolModel.Apply(s.pool, DialOkEvent(g, s.connecting[g]))
                      case DialFailed(g) => PoolModel.Apply(s.pool, DialFailEvent(g))
                      case _ => s.pool
    ensures var r := Apply(s, e);
            && (e.Connect? ==> e.g in r.connecting && r.connecting[e.g] == e.t && e.t in r.made
                               && (e.t in r.shared <==> e.hub || e.t in s.shared))
            && (e.Dialled? || e.DialFailed? ==> e.g !in r.connecting)
  {
    PoolTheorems.InvHead(s.pool);
  }

  /** Over a run, calls keep caller and transport, and finished calls stay as they ended. */
  lemma {:induction false} FinishedStays(states: seq<Sys>, events: seq<Event>, cfg: Config, start: int,
                                         i: nat, j: nat, id: int)
    requires IsRun(states, events, cfg, start) && i <= j < |states| && id in states[i].calls
    ensures id in states[j].calls
    ensures states[j].calls[id].g == states[i].calls[id].g && states[j].calls[id].t == states[i].calls[id].t
    ensures states[i].calls[id].status.Taken? || states[i].calls[id].status.Failed? ==>
              states[j].calls[id].status == states[i].calls[id].status
  {
    hide SysInv, Apply;
    if i < j {
      FinishedStays(states, events, cfg, start, i, j - 1, id);
      RunInv(states, events, cfg, start, j - 1);
      assert Step(states[j-1], events[j-1], states[j]);
      CallsMove(states[j-1], events[j-1]);
    }
  }

  /** No number is drawn twice, whoever draws it. */
  lemma {:induction false} NumbersDiffer(states: seq<Sys>, events: seq<Event>, cfg: Config, start: int, i: nat, j: nat)
    requires IsRun(states, events, cfg, start) && i <= j < |states|
    ensures states[i].counter <= states[j].counter
    ensures i < j && (events[i].Draw? || events[i].DrawElsewhere?) ==> states[i].counter + 1 <= states[j].counter
  {
    hide SysInv, Apply;
    if i < j {
      NumbersDiffer(states, events, cfg, start, i, j - 1);
      RunInv(states, events, cfg, start, j - 1);
      assert Step(states[j-1], events[j-1], states[j]);
      CallsMove(states[j-1], events[j-1]);
    }
  }

  // ----- the guarantees -----

  /** A message whose number the proxy did not choose: a request of the peer's own, or an answer that
      the hub passes on to everybody. */
  predicate Stray(s: Sys, t: Transport, m: Mail) {
    m.body.PeerRequest? || (m.body.Foreign? && t in s.shared)
  }

  /** What a finished call returned answers that call, unless it was a request of the peer's own or,
      through the hub, an answer to somebody else. */
  lemma AnswersOwnRequest(states: seq<Sys>, events: seq<Event>, cfg: Config, start: int, i: nat, id: int)
    requires IsRun(states, events, cfg, start) && i < |states|
    requires id in states[i].calls && states[i].calls[id].status.Taken?
    ensures var s := states[i]; var c := s.calls[id];
            && c.status.at < |Log(s, c.t)|
            && var m := Log(s, c.t)[c.status.at];
               m.body == Reply(id) || (Stray(s, c.t, m) && Matches(m.id, id))
  {
    RunInv(states, events, cfg, start, i);
    var s := states[i];
    var c := s.calls[id];
    assert Pos(s, c.t) <= |Log(s, c.t)|;
    assert GoodMail(s, c.t, Log(s, c.t)[c.status.at]);
  }

  /** No message is returned by two calls. */
  lemma NotShared(states: seq<Sys>, events: seq<Event>, cfg: Config, start: int, i: nat, a: int, b: int)
    requires IsRun(states, events, cfg, start) && i < |states|
    requires a in states[i].calls && b in states[i].calls
    requires states[i].calls[a].status.Taken? && states[i].calls[b].status.Taken?
    requires states[i].calls[a].t == states[i].calls[b].t && states[i].calls[a].status == states[i].calls[b].status
    ensures a == b
  {
    RunInv(states, events, cfg, start, i);
    var s := states[i];
    var c := s.calls[a];
    assert Pos(s, c.t) <= |Log(s, c.t)|;
    MatchesOne(Log(s, c.t)[c.status.at].id, a, b);
  }

  /** The receive loop takes a message iff it is the call's answer, or a stray one that carries the
      same number. */
  lemma TakenExactly(states: seq<Sys>, events: seq<Event>, cfg: Config, start: int, i: nat, id: int)
    requires IsRun(states, events, cfg, start) && i < |states| && Enabled(states[i], Receive(id))
    ensures NilIffClosed(states[i].pool)
    ensures var s := states[i]; var t := s.calls[id].t; var m := Log(s, t)[Pos(s, t)];
            Apply(s, Receive(id)).calls[id].status.Taken? <==>
              m.body == Reply(id) || (Stray(s, t, m) && Matches(m.id, id))
  {
    RunInv(states, events, cfg, start, i);
    var s := states[i];
    var t := s.calls[id].t;
    assert GoodMail(s, t, Log(s, t)[Pos(s, t)]);
  }

  /** While a call waits on `t`, every other call's answer it can come across is to a call that has
      already ended, or through the hub to a call on another transport; and its own answer, once
      sent, is still ahead of it. */
  lemma SkipsOnlyEnded(states: seq<Sys>, events: seq<Event>, cfg: Config, start: int, i: nat, id: int, k: nat)
    requires IsRun(states, events, cfg, start) && i < |states| && Live(states[i], id)
    requires k < |Log(states[i], states[i].calls[id].t)|
    requires Log(states[i], states[i].calls[id].t)[k].body.Reply?
    ensures var s := states[i]; var j := Log(s, s.calls[id].t)[k].body.answers;
            && j in s.calls
            && (j != id ==> !Live(s, j) || (s.calls[j].t != s.calls[id].t && s.calls[id].t in s.shared))
            && (j == id ==> Pos(s, s.calls[id].t) <= k)
  {
    RunInv(states, events, cfg, start, i);
    var s := states[i];
    assert GoodMail(s, s.calls[id].t, Log(s, s.calls[id].t)[k]);
  }

  /** What `RecvResponse` finds on `t`, one `Recv` after the other. */
  ghost function Pending(s: Sys, t: Transport): seq<Received<Kind>>
    requires Pos(s, t) <= |Log(s, t)|
  {
    seq(|Log(s, t)| - Pos(s, t), i requires 0 <= i < |Log(s, t)| - Pos(s, t) => Msg(Log(s, t)[Pos(s, t) + i]))
  }

  ghost predicate ReceiveRun(states: seq<Sys>, id: int) {
    && |states| > 0 && NilIffClosed(states[|states|-1].pool)
    && forall i :: 0 <= i < |states| - 1 ==> NilIffClosed(states[i].pool) && Step(states[i], Receive(id), states[i+1])
  }

  lemma ReceiveRunMore(states: seq<Sys>, id: int, r: Sys)
    requires ReceiveRun(states, id) && NilIffClosed(r.pool) && Step(states[|states|-1], Receive(id), r)
    ensures ReceiveRun(states + [r], id)
  {
    hide Step, NilIffClosed;
    var longer := states + [r];
    forall i | 0 <= i < |longer| - 1 ensures NilIffClosed(longer[i].pool) && Step(longer[i], Receive(id), longer[i+1]) {
      if i < |states| - 1 {
        assert Step(states[i], Receive(id), states[i+1]);
      }
    }
  }

  /** A state after `k` more messages of `t` were read and skipped. */
  function Skipped(s: Sys, t: Transport, k: nat): Sys {
    if k == 0 then s else s.(pos := s.pos[t := Pos(s, t) + k])
  }

  lemma OneReceive(s: Sys, id: int, k: nat)
    requires NilIffClosed(s.pool) && id in s.calls && s.calls[id].status.Sent?
    requires Pos(s, s.calls[id].t) + k < |Log(s, s.calls[id].t)|
    ensures var t := s.calls[id].t; var at := Pos(s, t) + k; var now := Skipped(s, t, k);
            && Enabled(now, Receive(id))
            && Apply(now, Receive(id)) ==
                 if Matches(Log(s, t)[at].id, id)
                 then Skipped(s, t, k + 1).(calls := s.calls[id := s.calls[id].(status := Taken(at))])
                 else Skipped(s, t, k + 1)
  {
  }

  /** Skipping `k` messages is `k` steps that change nothing else. */
  lemma {:induction false} SkipRun(s: Sys, id: int, k: nat) returns (states: seq<Sys>)
    requires NilIffClosed(s.pool) && id in s.calls && s.calls[id].status.Sent?
    requires Pos(s, s.calls[id].t) <= |Log(s, s.calls[id].t)|
    requires k <= |Pending(s, s.calls[id].t)| && forall i :: 0 <= i < k ==> !Decisive(Pending(s, s.calls[id].t)[i], id)
    ensures |states| == k + 1 && states[0] == s && states[k] == Skipped(s, s.calls[id].t, k)
    ensures ReceiveRun(states, id)
  {
    hide Apply, Enabled, Matches, NilIffClosed;
    if k == 0 {
      states := [s];
    } else {
      var t := s.calls[id].t;
      var before := SkipRun(s, id, k - 1);
      assert !Decisive(Pending(s, t)[k-1], id);
      OneReceive(s, id, k - 1);
      ReceiveRunMore(before, id, Skipped(s, t, k));
      states := before + [Skipped(s, t, k)];
    }
  }

  /** The loop of `RecvResponse` is a run of `Receive` steps: if message `k` is the first one it stops
      at, the steps before skip `k` messages and change nothing else, and the last one takes it. */
  lemma LoopIsReceives(s: Sys, id: int, k: nat) returns (states: seq<Sys>)
    requires NilIffClosed(s.pool) && id in s.calls && s.calls[id].status.Sent?
    requires Pos(s, s.calls[id].t) <= |Log(s, s.calls[id].t)|
    requires k < |Pending(s, s.calls[id].t)| && FirstDecisive(Pending(s, s.calls[id].t), k, id)
    ensures |states| == k + 2 && states[0] == s && ReceiveRun(states, id)
    ensures var t := s.calls[id].t;
            states[k+1] == Skipped(s, t, k + 1).(calls := s.calls[id := s.calls[id].(status := Taken(Pos(s, t) + k))])
  {
    hide Apply, Enabled, Matches, NilIffClosed;
    var t := s.calls[id].t;
    var before := SkipRun(s, id, k);
    assert Decisive(Pending(s, t)[k], id);
    OneReceive(s, id, k);
    var r := Skipped(s, t, k + 1).(calls := s.calls[id := s.calls[id].(status := Taken(Pos(s, t) + k))]);
    ReceiveRunMore(before, id, r);
    states := before + [r];
  }

  /** If reading fails after `k` messages that the loop skips, the call ends there with the `k`
      messages read and everything behind them left for the transport's next user. */
  lemma FailedLoopIsReceives(s: Sys, id: int, k: nat) returns (states: seq<Sys>)
    requires NilIffClosed(s.pool) && id in s.calls && s.calls[id].status.Sent?
    requires Pos(s, s.calls[id].t) <= |Log(s, s.calls[id].t)|
    requires k <= |Pending(s, s.calls[id].t)|
    requires FirstDecisive(Pending(s, s.calls[id].t)[..k] + [ReadFails], k, id)
    ensures |states| == k + 1 && states[0] == s && ReceiveRun(states, id)
    ensures Enabled(states[k], GiveUp(id))
    ensures var t := s.calls[id].t; var r := Apply(states[k], GiveUp(id));
            r == Skipped(s, t, k).(calls := s.calls[id := s.calls[id].(status := Failed)])
            && Pending(s, t)[k..] == Pending(r, t)
  {
    var t := s.calls[id].t;
    var read := Pending(s, t)[..k] + [ReadFails];
    assert forall i :: 0 <= i < k ==> read[i] == Pending(s, t)[i] && !Decisive(read[i], id);
    states := SkipRun(s, id, k);
  }

  // ----- the two exceptions are real -----

  /** A caller gets its first connection. */
  lemma Opened(cfg: Config, hub: bool) returns (s1: Sys, s2: Sys, s3: Sys)
    ensures Step(Init(cfg, 0), PoolStep(GetEvent(1, "s", false)), s1)
    ensures Step(s1, Connect(1, 7, hub), s2) && Step(s2, Dialled(1), s3)
    ensures NilIffClosed(s3.pool) && s3.pool.held == map[7 := 1] && s3.shared == if hub then {7} else {}
    ensures s3.counter == 0 && s3.calls == map[] && s3.log == map[] && s3.pos == map[]
  {
    s1 := Apply(Init(cfg, 0), PoolStep(GetEvent(1, "s", false)));
    s2 := Apply(s1, Connect(1, 7, hub));
    s3 := Apply(s2, Dialled(1));
  }

  /** It draws the number 1, and the first thing it reads is a stray message with that number. */
  lemma TakesStray(s3: Sys, hub: bool) returns (s4: Sys, s5: Sys, s6: Sys, s7: Sys)
    requires NilIffClosed(s3.pool) && s3.pool.held == map[7 := 1] && s3.shared == if hub then {7} else {}
    requires s3.counter == 0 && s3.calls == map[] && s3.log == map[] && s3.pos == map[]
    ensures Step(s3, Draw(1, 7), s4) && Step(s4, Send(1, true), s5)
    ensures Step(s5, Emit(7, StrayMessage(hub)), s6) && Step(s6, Receive(1), s7)
    ensures s7.calls == map[1 := Call(1, 7, Taken(0))] && Log(s7, 7) == [StrayMessage(hub)]
  {
    hide Encode, Matches;
    s4 := Apply(s3, Draw(1, 7));
    s5 := Apply(s4, Send(1, true));
    s6 := Apply(s5, Emit(7, StrayMessage(hub)));
    AnswerMatches(1, AsFloat, 1);
    s7 := Apply(s6, Receive(1));
  }

  function StrayMessage(hub: bool): Mail {
    Message(Encode(1, AsFloat), NoFault, if hub then Foreign else PeerRequest)
  }

  /** There are runs in which a call returns a request of the peer's own, and, through the hub, an
      answer to somebody else, such as the library's handshake, which is numbered 1. */
  lemma StrayTaken(cfg: Config, hub: bool) returns (states: seq<Sys>, events: seq<Event>)
    ensures IsRun(states, events, cfg, 0)
    ensures var s := states[|states|-1];
            s.calls == map[1 := Call(1, 7, Taken(0))] && Log(s, 7) == [StrayMessage(hub)]
  {
    hide Step;
    var s1, s2, s3 := Opened(cfg, hub);
    var s4, s5, s6, s7 := TakesStray(s3, hub);
    events := [PoolStep(GetEvent(1, "s", false)), Connect(1, 7, hub), Dialled(1),
               Draw(1, 7), Send(1, true), Emit(7, StrayMessage(hub)), Receive(1)];
    states := [Init(cfg, 0), s1, s2, s3, s4, s5, s6, s7];
  }

  /** A transport has one user at a time, across `Get`, `Put` and the handshake inside a dial. */
  lemma OneUser(states: seq<Sys>, events: seq<Event>, cfg: Config, start: int, i: nat,
                g: Ticket, h: Ticket, t: Transport)
    requires IsRun(states, events, cfg, start) && i < |states|
    requires Owns(states[i], g, t) && Owns(states[i], h, t)
    ensures g == h && t !in states[i].pool.shut
  {
    RunInv(states, events, cfg, start, i);
    OneOwner(states[i], g, h, t);
    OnePlace(states[i].pool, t);
  }
}
