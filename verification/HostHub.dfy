/** Host registration of pkg/gateway/hub.go: the host table, its gauge and the sessions behind it.

    A session registers its host when it connects and unregisters the server's name, whoever holds
    it by then, when it ends. */
module HostHub {
  // ----- the sessions as a state machine -----

  datatype Event<S> = Connect(session: S, server: string) | End(session: S)

  /** `replaced` counts the registrations that found a host of the name in the table. */
  datatype State<S(==)> = State(
    hosts: map<string, S>,
    live: map<S, string>,
    seen: set<S>,
    closed: set<S>,
    gauge: int,
    replaced: nat)

  function Init<S(==)>(): State<S> {
    State(map[], map[], {}, {}, 0, 0)
  }

  predicate Enabled<S(==)>(s: State<S>, e: Event<S>) {
    match e
    case Connect(session, _) => session !in s.seen
    case End(session) => session in s.live
  }

  /** `RegisterHost`, as called by the handler of a new connection. */
  function Register<S(==)>(s: State<S>, session: S, server: string): State<S> {
    var known := server in s.hosts;
    State(s.hosts[server := session],
          s.live[session := server],
          s.seen + {session},
          if known then s.closed + {s.hosts[server]} else s.closed,
          s.gauge + 1,
          if known then s.replaced + 1 else s.replaced)
  }

  /** `UnregisterHost`. */
  function Unregister<S(==)>(s: State<S>, server: string): State<S> {
    if server in s.hosts then s.(hosts := s.hosts - {server}, gauge := s.gauge - 1) else s
  }

  function Step<S(==)>(s: State<S>, e: Event<S>): State<S>
    requires Enabled(s, e)
  {
    match e
    case Connect(session, server) => Register(s, session, server)
    case End(session) =>
      var t := Unregister(s, s.live[session]);
      t.(live := t.live - {session}, closed := t.closed + {session})
  }

  ghost predicate IsRun<S>(events: seq<Event<S>>) {
    events == [] || (IsRun(Before(events)) && Enabled(After(Before(events)), Last(events)))
  }

  function Before<S>(events: seq<Event<S>>): (r: seq<Event<S>>)
    requires events != []
    ensures |r| < |events|
  {
    events[..|events|-1]
  }

  function Last<S>(events: seq<Event<S>>): Event<S>
    requires events != []
  {
    events[|events|-1]
  }

  ghost function After<S>(events: seq<Event<S>>): State<S> {
    if events == [] then Init()
    else
      var s := After(Before(events));
      if Enabled(s, Last(events)) then Step(s, Last(events)) else s
  }

  // ----- what every run keeps -----

  ghost predicate Listed<S>(s: State<S>, session: S) {
    session in s.live && s.live[session] in s.hosts && s.hosts[s.live[session]] == session
  }

  ghost predicate Inv<S>(s: State<S>) {
    && s.gauge == |s.hosts| + s.replaced
    && s.live.Keys <= s.seen && s.closed <= s.seen
    && (forall n :: n in s.hosts ==> s.hosts[n] in s.live && s.live[s.hosts[n]] == n && s.hosts[n] !in s.closed)
    && (forall x :: x in s.seen && x !in s.live ==> x in s.closed)
    && (s.replaced == 0 ==> forall x :: x in s.live ==> Listed(s, x))
  }

  lemma SizeWith<K, V>(m: map<K, V>, k: K, v: V)
    ensures |m[k := v]| == |m| + if k in m then 0 else 1
  {
    assert m[k := v].Keys == m.Keys + {k};
  }

  lemma SizeWithout<K, V>(m: map<K, V>, k: K)
    requires k in m
    ensures |m - {k}| == |m| - 1
  {
    assert (m - {k}).Keys == m.Keys - {k};
  }

  lemma ConnectKeeps<S>(s: State<S>, session: S, server: string)
    requires Inv(s) && session !in s.seen
    ensures Inv(Register(s, session, server))
  {
    SizeWith(s.hosts, server, session);
  }

  lemma EndKeeps<S>(s: State<S>, session: S)
    requires Inv(s) && session in s.live
    ensures Inv(Step(s, End(session)))
  {
    if s.live[session] in s.hosts {
      SizeWithout(s.hosts, s.live[session]);
    }
  }

  lemma StepKeeps<S>(s: State<S>, e: Event<S>)
    requires Inv(s) && Enabled(s, e)
    ensures Inv(Step(s, e))
  {
    hide Inv, Register;
    match e
    case Connect(session, server) => ConnectKeeps(s, session, server);
    case End(session) => EndKeeps(s, session);
  }

  lemma {:induction false} RunKeeps<S>(events: seq<Event<S>>)
    requires IsRun(events)
    ensures Inv(After(events))
  {
    if events != [] {
      RunKeeps(Before(events));
      StepKeeps(After(Before(events)), Last(events));
    }
  }

  /** How many registrations of a run found a host of their name in the table. */
  ghost function Replacements<S>(events: seq<Event<S>>): nat {
    if events == [] then 0
    else
      var last := Last(events);
      Replacements(Before(events)) + if last.Connect? && last.server in After(Before(events)).hosts then 1 else 0
  }

  lemma {:induction false} ReplacedCounts<S>(events: seq<Event<S>>)
    requires IsRun(events)
    ensures After(events).replaced == Replacements(events)
  {
    if events != [] {
      ReplacedCounts(Before(events));
    }
  }

  /** The gauge is the size of the table plus the replacements, so it is right exactly while there
      has been none. */
  lemma {:induction false} GaugeLaw<S>(events: seq<Event<S>>)
    requires IsRun(events)
    ensures var s := After(events); s.gauge == |s.hosts| + Replacements(events)
    ensures var s := After(events); s.gauge == |s.hosts| <==> Replacements(events) == 0
  {
    RunKeeps(events);
    ReplacedCounts(events);
  }

  /** Without a replacement the table holds the live sessions and nothing else. */
  lemma TableIsLive<S>(events: seq<Event<S>>)
    requires IsRun(events) && Replacements(events) == 0
    ensures var s := After(events);
            && (forall x :: x in s.live ==> s.live[x] in s.hosts && s.hosts[s.live[x]] == x)
            && (forall n :: n in s.hosts ==> s.hosts[n] in s.live && s.live[s.hosts[n]] == n)
            && s.gauge == |s.hosts| == |s.live|
  {
    RunKeeps(events);
    ReplacedCounts(events);
    var s := After(events);
    SameSize(s.hosts, s.live);
  }

  /** Two maps that undo each other have the same size. */
  lemma {:induction false} SameSize<A, B>(f: map<A, B>, g: map<B, A>)
    requires forall a :: a in f ==> f[a] in g && g[f[a]] == a
    requires forall b :: b in g ==> g[b] in f && f[g[b]] == b
    ensures |f| == |g|
    decreases |f|
  {
    if f.Keys == {} {
      assert g.Keys == {};
    } else {
      var a :| a in f;
      var b := f[a];
      assert (f - {a}).Keys == f.Keys - {a} && (g - {b}).Keys == g.Keys - {b};
      SameSize(f - {a}, g - {b});
    }
  }

  /** In every run, what the table hands out is a live session of that name whose connection nobody closed. */
  lemma ListedIsOpen<S>(events: seq<Event<S>>, server: string)
    requires IsRun(events)
    ensures var s := After(events);
            server in s.hosts ==>
              var x := s.hosts[server];
              x in s.live && s.live[x] == server && x !in s.closed
  {
    RunKeeps(events);
  }

  /** A step that writes the table's entry for this name: a registration under it, or the end of
      any session of it. */
  ghost predicate Touches<S>(s: State<S>, e: Event<S>, server: string) {
    match e
    case Connect(_, n) => n == server
    case End(x) => x in s.live && s.live[x] == server
  }

  ghost predicate Undisturbed<S>(events: seq<Event<S>>, i: nat, server: string) {
    forall j :: i < j < |events| ==> !Touches(After(events[..j]), events[j], server)
  }

  lemma ListedStep<S>(s: State<S>, e: Event<S>, x: S, server: string)
    requires Inv(s) && Enabled(s, e) && x in s.seen && (x in s.live ==> s.live[x] == server)
    ensures Listed(Step(s, e), x) <==> Listed(s, x) && !Touches(s, e, server)
  {
  }

  lemma UndisturbedSplits<S>(events: seq<Event<S>>, i: nat, server: string)
    requires i < |events| - 1
    ensures Undisturbed(events, i, server) <==>
            Undisturbed(Before(events), i, server) && !Touches(After(Before(events)), Last(events), server)
  {
    hide Touches, After;
    var before := Before(events);
    assert forall j :: i < j < |before| ==> events[j] == before[j] && events[..j] == before[..j];
    assert events[..|events|-1] == before;
  }

  lemma LastUndisturbed<S>(events: seq<Event<S>>, server: string)
    requires events != []
    ensures Undisturbed(events, |events| - 1, server)
  {
  }

  /** A session is reachable exactly as long as nobody registers its name again and no session of
      the name, itself or an older one it replaced, ends. */
  lemma {:induction false} ReachableIff<S>(events: seq<Event<S>>, i: nat)
    requires IsRun(events) && i < |events| && events[i].Connect?
    ensures Listed(After(events), events[i].session) <==> Undisturbed(events, i, events[i].server)
  {
    hide Inv, Touches, Undisturbed;
    var x, server := events[i].session, events[i].server;
    var before, last := Before(events), Last(events);
    var s := After(before);
    RunKeeps(before);
    assert events[..|events|-1] == before;
    if i == |events| - 1 {
      assert Listed(Step(s, last), x);
      LastUndisturbed(events, server);
    } else {
      ReachableIff(before, i);
      LiveName(before, i);
      ListedStep(s, last, x, server);
      UndisturbedSplits(events, i, server);
    }
  }

  /** A session that has connected keeps the name it connected with. */
  lemma {:induction false} LiveName<S>(events: seq<Event<S>>, i: nat)
    requires IsRun(events) && i < |events| && events[i].Connect?
    ensures var s := After(events);
            && events[i].session in s.seen
            && (events[i].session in s.live ==> s.live[events[i].session] == events[i].server)
  {
    var before := Before(events);
    RunKeeps(before);
    if i < |events| - 1 {
      assert before[i] == events[i];
      LiveName(before, i);
    }
  }

  /** Step `j` closes the connection of the session that step `i` registered: the session ends, or its
      name is registered again while it stands in the table. */
  ghost predicate Closes<S>(events: seq<Event<S>>, i: nat, j: nat)
    requires i < |events| && events[i].Connect?
  {
    && i < j < |events|
    && match events[j]
       case End(x) => x == events[i].session
       case Connect(_, n) => n == events[i].server && Undisturbed(events[..j], i, n)
  }

  lemma ClosesBefore<S>(events: seq<Event<S>>, i: nat, j: nat)
    requires i < |events| - 1 && events[i].Connect? && j < |events| - 1
    ensures Closes(events, i, j) <==> Closes(Before(events), i, j)
  {
    assert events[..j] == Before(events)[..j];
  }

  lemma ClosedStep<S>(s: State<S>, e: Event<S>, x: S)
    requires Inv(s) && Enabled(s, e) && x in s.seen
    ensures x in Step(s, e).closed <==>
              || x in s.closed
              || match e
                 case End(y) => y == x
                 case Connect(_, n) => x in s.live && s.live[x] == n && Listed(s, x)
  {
  }

  ghost predicate Closing<S>(events: seq<Event<S>>, i: nat)
    requires i < |events| && events[i].Connect?
  {
    exists j: nat :: Closes(events, i, j)
  }

  lemma ClosingSplits<S>(events: seq<Event<S>>, i: nat)
    requires i < |events| - 1 && events[i].Connect?
    ensures Closing(events, i) <==> Closing(Before(events), i) || Closes(events, i, |events| - 1)
  {
    hide Closes;
    var before, n := Before(events), |events| - 1;
    assert events[i] == before[i];
    if j: nat :| Closes(events, i, j) {
      if j < n {
        ClosesBefore(events, i, j);
      } else if j > n {
        NothingBehind(events, i, j);
      }
    }
    if j: nat :| Closes(before, i, j) {
      if j < n {
        ClosesBefore(events, i, j);
      } else {
        NothingBehind(before, i, j);
      }
    }
  }

  /** A connection is closed exactly when its session has ended or its name was registered again while
      the table listed it. */
  lemma {:induction false} ClosedIff<S>(events: seq<Event<S>>, i: nat)
    requires IsRun(events) && i < |events| && events[i].Connect?
    ensures events[i].session in After(events).closed <==> Closing(events, i)
  {
    hide Inv, Closes, Closing, Undisturbed, Step;
    var x, server := events[i].session, events[i].server;
    var before, last := Before(events), Last(events);
    var s := After(before);
    RunKeeps(before);
    if i == |events| - 1 {
      NotYetClosed(s, x, server);
      NothingClosing(events);
      assert After(events) == Step(s, last);
    } else {
      assert events[i] == before[i];
      ClosedIff(before, i);
      LiveName(before, i);
      ClosedStep(s, last, x);
      ReachableIff(before, i);
      ClosesLast(events, i);
      ClosingSplits(events, i);
      assert After(events) == Step(s, last);
    }
  }

  lemma ClosesLast<S>(events: seq<Event<S>>, i: nat)
    requires i < |events| - 1 && events[i].Connect?
    ensures Closes(events, i, |events| - 1) <==>
            match Last(events)
            case End(x) => x == events[i].session
            case Connect(_, n) => n == events[i].server && Undisturbed(Before(events), i, n)
  {
    assert events[..|events|-1] == Before(events);
  }

  lemma NothingBehind<S>(events: seq<Event<S>>, i: nat, j: nat)
    requires i < |events| && events[i].Connect? && (j <= i || j >= |events|)
    ensures !Closes(events, i, j)
  {
  }

  lemma NotYetClosed<S>(s: State<S>, x: S, server: string)
    requires Inv(s) && x !in s.seen
    ensures x !in Step(s, Connect(x, server)).closed
  {
  }

  lemma NothingClosing<S>(events: seq<Event<S>>)
    requires events != [] && Last(events).Connect?
    ensures !Closing(events, |events| - 1)
  {
  }

  /** A session is live exactly from its registration to its end. */
  lemma {:induction false} LiveIff<S>(events: seq<Event<S>>, i: nat)
    requires IsRun(events) && i < |events| && events[i].Connect?
    ensures events[i].session in After(events).live <==>
            forall j :: i < j < |events| ==> events[j] != End(events[i].session)
  {
    var before := Before(events);
    RunKeeps(before);
    if i < |events| - 1 {
      assert forall j :: 0 <= j < |before| ==> before[j] == events[j];
      LiveIff(before, i);
      LiveName(before, i);
    }
  }

  /** A replaced session takes its successor out of the table when it ends, and the gauge never
      comes down again. */
  lemma ReplacementCosts(server: string)
    ensures var e := [Connect(1, server), Connect(2, server), End(1), End(2)];
            && IsRun(e[..3]) && 2 in After(e[..3]).live && server !in After(e[..3]).hosts
            && IsRun(e) && After(e).live == map[] && After(e).hosts == map[] && After(e).gauge == 1
  {
    var e: seq<Event<int>> := [Connect(1, server), Connect(2, server), End(1), End(2)];
    assert e[..1] == [] + [e[0]] && e[..2] == e[..1] + [e[1]] && e[..3] == e[..2] + [e[2]] && e == e[..3] + [e[3]];
    hide After, IsRun;
    NothingYet<int>();
    OneMore([], e[0]);
    OneMore(e[..1], e[1]);
    OneMore(e[..2], e[2]);
    OneMore(e[..3], e[3]);
  }

  lemma NothingYet<S>()
    ensures IsRun<S>([]) && After<S>([]) == Init()
  {
  }

  lemma OneMore<S>(events: seq<Event<S>>, e: Event<S>)
    requires IsRun(events) && Enabled(After(events), e)
    ensures IsRun(events + [e]) && After(events + [e]) == Step(After(events), e)
  {
    assert Before(events + [e]) == events;
  }

  // ----- the hub itself -----

  lemma AllSeen<S>(s: State<S>)
    requires Inv(s)
    ensures s.live.Keys <= s.seen && s.closed <= s.seen && forall n :: n in s.hosts ==> s.hosts[n] in s.seen
  {
  }

  /** A host and the connection it was made for. */
  class Host {
    const name: string
    var closed: bool

    constructor (name: string)
      ensures this.name == name && !closed
    {
      this.name, closed := name, false;
    }
  }

  class Hub {
    var hosts: map<string, Host>
    var hostsConnected: int   // the gauge
    ghost var s: State<Host>

    ghost predicate Valid()
      reads this, s.seen
    {
      && hosts == s.hosts && hostsConnected == s.gauge && Inv(s)
      && (forall h :: h in s.seen ==> h.closed == (h in s.closed))
      && (forall h :: h in s.live ==> s.live[h] == h.name)
    }

    constructor ()
      ensures Valid() && s == Init()
    {
      hosts, hostsConnected, s := map[], 0, Init();
    }

    /** `RegisterHost`, for the connection of a new session. */
    method RegisterHost(server: string) returns (host: Host)
      requires Valid()
      modifies this, if server in hosts then {hosts[server]} else {}
      ensures Valid() && fresh(host) && host.name == server
      ensures Enabled(old(s), Connect(host, server)) && s == Step(old(s), Connect(host, server))
    {
      hide Inv;
      AllSeen(s);
      if server in hosts {
        hosts[server].closed := true;
      }
      host := new Host(server);
      StepKeeps(s, Connect(host, server));
      hosts := hosts[server := host];
      hostsConnected := hostsConnected + 1;
      s := Step(s, Connect(host, server));
      assert Inv(s) && hosts == s.hosts && hostsConnected == s.gauge;
      forall h | h in s.seen ensures h.closed == (h in s.closed) {
        if h != host {
          assert h in old(s.seen);
          assert h.closed == (old(h.closed) || (server in old(hosts) && h == old(hosts)[server]));
        }
      }
    }

    /** `UnregisterHost`. */
    method UnregisterHost(server: string)
      requires hosts == s.hosts && hostsConnected == s.gauge
      modifies this
      ensures s == Unregister(old(s), server) && hosts == s.hosts && hostsConnected == s.gauge
    {
      if server in hosts {
        hosts := hosts - {server};
        hostsConnected := hostsConnected - 1;
      }
      s := Unregister(s, server);
    }

    /** The deferred function of a host's handler. */
    method EndSession(host: Host)
      requires Valid() && host in s.live
      modifies this, host
      ensures Valid() && s == Step(old(s), End(host))
    {
      StepKeeps(s, End(host));
      UnregisterHost(host.name);
      host.closed := true;
      s := Step(old(s), End(host));
    }

    /** `GetHost`.  The connection it hands out is open. */
    method GetHost(server: string) returns (host: Host?)
      requires Valid()
      ensures host != null <==> server in s.hosts
      ensures host != null ==> host == s.hosts[server] && host.name == server && !host.closed
    {
      if server in hosts {
        return hosts[server];
      }
      return null;
    }
  }
}
