/** The `Router` object of pkg/router/router.go. */
module Routing {
  import opened MapFolds
  import opened Registry
  import opened CircuitBreaker
  import opened ToolIndex
  import opened Resolver

  datatype Target = TargetLocal | TargetHub | TargetUnavailable

  /** `NilDereference`: the source reads the message of a record that is not there. */
  datatype Decision = Decision(target: Target, reason: string) | NilDereference

  /** Case folding of one character against an ASCII one; U+017F folds to s and U+212A to k. */
  predicate FoldsTo(c: char, ascii: char) {
    || c == ascii
    || ('a' <= ascii <= 'z' && c as int == ascii as int - 32)
    || (ascii == 's' && c == '\U{17F}')
    || (ascii == 'k' && c == '\U{212A}')
  }

  /** `strings.EqualFold` against a lower-case ASCII literal. */
  predicate EqualFold(s: string, literal: string) {
    |s| == |literal| && forall i :: 0 <= i < |s| ==> FoldsTo(s[i], literal[i])
  }

  /** Lower case of the letters that fold to ASCII ones. */
  function Lower(c: char): char {
    if 'A' <= c <= 'Z' then (c as int + 32) as char
    else if c == '\U{17F}' then 's'
    else if c == '\U{212A}' then 'k'
    else c
  }

  function LowerCase(s: string): string {
    seq(|s|, i requires 0 <= i < |s| => Lower(s[i]))
  }

  /** One of the categories, in lower case, keeps the server on this machine. */
  predicate StaysLocal(server: Server) {
    exists i :: 0 <= i < |server.categories| && LowerCase(server.categories[i]) in ["local-only", "filesystem"]
  }

  predicate LocalOnly(server: Server) {
    exists i :: 0 <= i < |server.categories| &&
      (EqualFold(server.categories[i], "local-only") || EqualFold(server.categories[i], "filesystem"))
  }

  lemma FoldsIff(c: char, ascii: char)
    requires 'a' <= ascii <= 'z' || ascii == '-'
    ensures FoldsTo(c, ascii) <==> Lower(c) == ascii
  {
  }

  lemma EqualFoldIff(s: string, literal: string)
    requires forall i :: 0 <= i < |literal| ==> 'a' <= literal[i] <= 'z' || literal[i] == '-'
    ensures EqualFold(s, literal) <==> LowerCase(s) == literal
  {
    hide FoldsTo, Lower;
    if |s| == |literal| {
      forall i | 0 <= i < |s| ensures FoldsTo(s[i], literal[i]) <==> LowerCase(s)[i] == literal[i] {
        FoldsIff(s[i], literal[i]);
      }
    }
    if LowerCase(s) == literal {
      assert |LowerCase(s)| == |s|;
    }
  }

  /** A server is local-only exactly when a category says so, in whatever case. */
  lemma LocalOnlyIff(server: Server)
    ensures LocalOnly(server) <==> StaysLocal(server)
  {
    hide EqualFold, LowerCase;
    forall i | 0 <= i < |server.categories|
      ensures EqualFold(server.categories[i], "local-only") <==> LowerCase(server.categories[i]) == "local-only"
      ensures EqualFold(server.categories[i], "filesystem") <==> LowerCase(server.categories[i]) == "filesystem"
    {
      EqualFoldIff(server.categories[i], "local-only");
      EqualFoldIff(server.categories[i], "filesystem");
    }
  }

  ghost predicate NoNil(servers: seq<Option<Server>>) {
    forall i :: 0 <= i < |servers| ==> servers[i].Some?
  }

  ghost predicate NoNilTargets(servers: seq<Option<Server>>) {
    && NoNil(servers)
    && forall i, t :: 0 <= i < |servers| && t in servers[i].value.targets ==> servers[i].value.targets[t].Some?
  }

  /** Entry `i` is nil or has a nil target, and no entry before it is or has. */
  ghost predicate FirstNil(servers: seq<Option<Server>>, i: nat) {
    && i < |servers| && NoNilTargets(servers[..i])
    && (servers[i].None? || exists t :: t in servers[i].value.targets && servers[i].value.targets[t].None?)
  }

  /** Successes and failures of a server, as far as a record of them exists. */
  ghost function History(m: map<string, Health>, name: string): seq<Mark>
    reads m.Values
  {
    if name in m then m[name].marks else []
  }

  /** The records stay, and `name` has one, which is not seeded if it is new. */
  ghost predicate Marked(before: map<string, Health>, after: map<string, Health>, name: string) {
    && after.Keys == before.Keys + {name}
    && (forall k :: k in before ==> after[k] == before[k])
    && (name !in before ==> !after[name].seeded)
  }

  /** Every record is right about its history, and no two names share one. */
  ghost predicate Records(m: map<string, Health>, threshold: nat)
    reads m.Values
  {
    && (forall k :: k in m ==> m[k].Valid(threshold))
    && (forall k, l :: k in m && l in m && k != l ==> m[k] != m[l])
  }

  /** Every record is as New makes it: healthy, with nothing known yet. */
  ghost predicate Untouched(m: map<string, Health>, threshold: nat)
    reads m.Values
  {
    && Records(m, threshold)
    && (forall k :: k in m ==> m[k].seeded && m[k].marks == [])
  }

  ghost function Names(servers: seq<Option<Server>>): set<string>
    requires NoNil(servers)
  {
    set i | 0 <= i < |servers| :: servers[i].value.name
  }

  /** What New keeps of the two tables while it fills them. */
  ghost predicate Filling(local: map<string, Health>, hub: map<string, Health>, threshold: nat)
    reads local.Values, hub.Values
  {
    Untouched(local, threshold) && Untouched(hub, threshold) && local.Values !! hub.Values
  }

  lemma NothingFilled(threshold: nat)
    ensures Filling(map[], map[], threshold)
  {
  }

  /** The records New makes for one server. */
  method Seed(local: map<string, Health>, hub: map<string, Health>, name: string, ghost threshold: nat)
    returns (l: map<string, Health>, h: map<string, Health>)
    requires Filling(local, hub, threshold) && threshold > 0
    ensures Filling(l, h, threshold)
    ensures l.Keys == local.Keys + {name} && h.Keys == hub.Keys + {name}
    ensures fresh(l.Values - local.Values) && fresh(h.Values - hub.Values)
  {
    var forLocal := new Health(true);
    var forHub := new Health(true);
    l, h := local[name := forLocal], hub[name := forHub];
    assert l.Values <= local.Values + {forLocal} && h.Values <= hub.Values + {forHub};
  }

  /** The record of `name`, made now, and not seeded, if there is none. */
  method Entry(m: map<string, Health>, name: string, ghost threshold: nat) returns (r: map<string, Health>, h: Health)
    requires Records(m, threshold) && threshold > 0
    ensures Records(r, threshold) && name in r && h == r[name] && Marked(m, r, name)
    ensures fresh(r.Values - m.Values) && (h in m.Values || fresh(h))
    ensures forall k :: History(r, k) == old(History(m, k))
  {
    if name in m {
      return m, m[name];
    }
    h := new Health(false);
    r := m[name := h];
  }

  method MarkGood(m: map<string, Health>, name: string, now: int, latency: real, ghost threshold: nat)
    returns (r: map<string, Health>)
    requires Records(m, threshold) && threshold > 0
    modifies m.Values
    ensures Records(r, threshold) && Marked(m, r, name) && fresh(r.Values - m.Values)
    ensures History(r, name) == old(History(m, name)) + [Good(now, latency)]
    ensures forall k :: k != name ==> History(r, k) == old(History(m, k))
  {
    var h;
    r, h := Entry(m, name, threshold);
    hide Health.Valid, Marked;
    h.Success(now, latency, threshold);
    forall k | k in r && k != name ensures History(r, k) == old(History(m, k)) && r[k].Valid(threshold) {
      assert r[k] != h;
    }
  }

  method MarkBad(m: map<string, Health>, name: string, now: int, message: string, threshold: nat)
    returns (r: map<string, Health>)
    requires Records(m, threshold) && threshold > 0
    modifies m.Values
    ensures Records(r, threshold) && Marked(m, r, name) && fresh(r.Values - m.Values)
    ensures History(r, name) == old(History(m, name)) + [Bad(now, message)]
    ensures forall k :: k != name ==> History(r, k) == old(History(m, k))
  {
    var h;
    r, h := Entry(m, name, threshold);
    hide Health.Valid, Marked;
    h.Failure(now, message, threshold);
    forall k | k in r && k != name ensures History(r, k) == old(History(m, k)) && r[k].Valid(threshold) {
      assert r[k] != h;
    }
  }

  function Threshold(configured: int): (limit: nat)
    ensures limit > 0 && (limit == configured || (configured <= 0 && limit == 3))
  {
    if configured <= 0 then 3 else configured
  }

  function Recovery(configured: int): (wait: int)
    ensures wait > 0 && (wait == configured || (configured <= 0 && wait == 30_000_000_000))
  {
    if configured <= 0 then 30_000_000_000 else configured
  }

  class Router {
    var registry: Registry?
    var localHealth: map<string, Health>
    var hubHealth: map<string, Health>
    const hubEnabled: bool
    const failureThreshold: nat
    const recoveryTime: int
    var toolIndex: Index

    /** Every record is right about its history, and no two names share one. */
    ghost predicate Valid()
      reads this, localHealth.Values, hubHealth.Values
    {
      && failureThreshold > 0 && recoveryTime > 0
      && Records(localHealth, failureThreshold) && Records(hubHealth, failureThreshold)
      && localHealth.Values !! hubHealth.Values
    }

    /** `New`, which follows the entries of the registry. */
    constructor (reg: Registry?, hubEnabled: bool, threshold: int, recovery: int)
      requires reg != null ==> NoNil(reg.servers)
      ensures Valid() && registry == reg && this.hubEnabled == hubEnabled
      ensures failureThreshold == Threshold(threshold) && recoveryTime == Recovery(recovery)
      ensures forall x :: Lookup(toolIndex, x) == if reg == null then [] else Providers(reg.servers, x)
      ensures Untouched(localHealth, failureThreshold) && Untouched(hubHealth, failureThreshold)
      ensures localHealth.Keys == hubHealth.Keys == if reg == null then {} else Names(reg.servers)
      ensures fresh(localHealth.Values) && fresh(hubHealth.Values)
    {
      registry, localHealth, hubHealth, toolIndex := reg, map[], map[], map[];
      this.hubEnabled := hubEnabled;
      failureThreshold, recoveryTime := Threshold(threshold), Recovery(recovery);
      new;
      hide Records;
      NothingFilled(failureThreshold);
      if reg != null {
        SeedAll(reg.servers);
        BuildToolIndex();
      }
    }

    /** The records `New` makes for every server. */
    method SeedAll(servers: seq<Option<Server>>)
      requires localHealth == map[] && hubHealth == map[] && failureThreshold > 0 && NoNil(servers)
      modifies this`localHealth, this`hubHealth
      ensures Filling(localHealth, hubHealth, failureThreshold)
      ensures fresh(localHealth.Values) && fresh(hubHealth.Values)
      ensures localHealth.Keys == hubHealth.Keys == Names(servers)
    {
      hide Filling, Untouched, Records;
      NothingFilled(failureThreshold);
      for i := 0 to |servers|
        invariant Filling(localHealth, hubHealth, failureThreshold)
        invariant fresh(localHealth.Values) && fresh(hubHealth.Values)
        invariant localHealth.Keys == hubHealth.Keys == Names(servers[..i])
      {
        localHealth, hubHealth := Seed(localHealth, hubHealth, servers[i].value.name, failureThreshold);
        NamesMore(servers, i);
      }
      assert servers[..|servers|] == servers;
    }

    /** `isHealthy`. */
    predicate IsHealthy(h: Health?, now: int)
      requires h != null ==> h.Valid(failureThreshold)
      reads h
    {
      h != null && h.IsHealthy(failureThreshold, recoveryTime, now)
    }

    /** `RecordSuccess`; a server without a record gets one. */
    method RecordSuccess(name: string, target: Target, now: int, latency: real)
      requires Valid()
      modifies this`localHealth, this`hubHealth, localHealth.Values, hubHealth.Values
      ensures Valid()
      ensures fresh(localHealth.Values - old(localHealth.Values)) && fresh(hubHealth.Values - old(hubHealth.Values))
      ensures target == TargetLocal ==> Marked(old(localHealth), localHealth, name)
      ensures target == TargetLocal ==>
                History(localHealth, name) == old(History(localHealth, name)) + [Good(now, latency)]
      ensures target == TargetLocal ==> forall t :: Up(localHealth, name, t)
      ensures target == TargetLocal ==>
                forall k :: k != name ==> History(localHealth, k) == old(History(localHealth, k))
      ensures target != TargetLocal ==> localHealth == old(localHealth) && unchanged(localHealth.Values)
      ensures target == TargetHub ==> Marked(old(hubHealth), hubHealth, name)
      ensures target == TargetHub ==> History(hubHealth, name) == old(History(hubHealth, name)) + [Good(now, latency)]
      ensures target == TargetHub ==> forall t :: Up(hubHealth, name, t)
      ensures target == TargetHub ==> forall k :: k != name ==> History(hubHealth, k) == old(History(hubHealth, k))
      ensures target != TargetHub ==> hubHealth == old(hubHealth) && unchanged(hubHealth.Values)
    {
      hide Records, History, Marked;
      match target
      case TargetUnavailable =>
      case TargetLocal =>
        localHealth := MarkGood(localHealth, name, now, latency, failureThreshold);
        ClosesFor(localHealth, name, old(History(localHealth, name)), Good(now, latency));
      case TargetHub =>
        hubHealth := MarkGood(hubHealth, name, now, latency, failureThreshold);
        ClosesFor(hubHealth, name, old(History(hubHealth, name)), Good(now, latency));
    }

    lemma ClosesFor(m: map<string, Health>, name: string, before: seq<Mark>, good: Mark)
      requires failureThreshold > 0 && good.Good? && History(m, name) == before + [good]
      ensures forall t :: Up(m, name, t)
    {
      forall t ensures Up(m, name, t) {
        SuccessCloses(before, m[name].seeded, failureThreshold, recoveryTime, good, t);
      }
    }

    /** `RecordFailure`; a server without a record gets one. */
    method RecordFailure(name: string, target: Target, now: int, message: string)
      requires Valid()
      modifies this`localHealth, this`hubHealth, localHealth.Values, hubHealth.Values
      ensures Valid()
      ensures fresh(localHealth.Values - old(localHealth.Values)) && fresh(hubHealth.Values - old(hubHealth.Values))
      ensures target == TargetLocal ==> Marked(old(localHealth), localHealth, name)
      ensures target == TargetLocal ==>
                History(localHealth, name) == old(History(localHealth, name)) + [Bad(now, message)]
      ensures target == TargetLocal ==>
                forall k :: k != name ==> History(localHealth, k) == old(History(localHealth, k))
      ensures target != TargetLocal ==> localHealth == old(localHealth) && unchanged(localHealth.Values)
      ensures target == TargetHub ==> Marked(old(hubHealth), hubHealth, name)
      ensures target == TargetHub ==> History(hubHealth, name) == old(History(hubHealth, name)) + [Bad(now, message)]
      ensures target == TargetHub ==> forall k :: k != name ==> History(hubHealth, k) == old(History(hubHealth, k))
      ensures target != TargetHub ==> hubHealth == old(hubHealth) && unchanged(hubHealth.Values)
    {
      hide Records, History, Marked;
      match target
      case TargetUnavailable =>
      case TargetLocal => localHealth := MarkBad(localHealth, name, now, message, failureThreshold);
      case TargetHub => hubHealth := MarkBad(hubHealth, name, now, message, failureThreshold);
    }

    /** One of the two. */
    method Record(report: Report)
      requires Valid()
      modifies this`localHealth, this`hubHealth, localHealth.Values, hubHealth.Values
      ensures Valid()
      ensures forall k :: History(localHealth, k) == old(History(localHealth, k)) + Part(report, TargetLocal, k)
      ensures forall k :: History(hubHealth, k) == old(History(hubHealth, k)) + Part(report, TargetHub, k)
      ensures forall k :: k in old(localHealth) ==> k in localHealth && localHealth[k] == old(localHealth)[k]
      ensures forall k :: k in old(hubHealth) ==> k in hubHealth && hubHealth[k] == old(hubHealth)[k]
      ensures fresh(localHealth.Values - old(localHealth.Values)) && fresh(hubHealth.Values - old(hubHealth.Values))
    {
      hide Records, History;
      match report.mark
      case Good(at, latency) => RecordSuccess(report.name, report.target, at, latency);
      case Bad(at, message) => RecordFailure(report.name, report.target, at, message);
    }

    // ----- routing -----

    ghost function Servers(): seq<Option<Server>>
      reads this, registry
    {
      if registry == null then [] else registry.servers
    }

    /** The history of a server, in one of the two tables, lets a call through at this time. */
    ghost predicate Up(m: map<string, Health>, name: string, now: int)
      reads this, m.Values
    {
      name in m && Available(m[name].marks, m[name].seeded, failureThreshold, recoveryTime, now)
    }

    /** The source follows a nil pointer: an entry of the registry before the server's own, the
        server's local record, or its hub record once the local one is refused. */
    ghost predicate Trips(name: string, now: int)
      reads this, registry, localHealth.Values
    {
      var i := IndexOf(Servers(), name);
      || !NoNil(Servers()[..i])
      || (i < |Servers()| && name !in localHealth)
      || (i < |Servers()| && !LocalOnly(Servers()[i].value)
            && hubEnabled && !Up(localHealth, name, now) && name !in hubHealth)
    }

    /** Local while the local history lets calls through, else the hub where there may be one. */
    ghost function Destination(name: string, now: int): Target
      reads this, registry, localHealth.Values, hubHealth.Values
    {
      var i := IndexOf(Servers(), name);
      if i == |Servers()| then
        if hubEnabled then TargetHub else TargetUnavailable
      else Preferred(name, now, !LocalOnly(Servers()[i].value) && hubEnabled)
    }

    ghost function Preferred(name: string, now: int, hubAllowed: bool): Target
      reads this, localHealth.Values, hubHealth.Values
    {
      if Up(localHealth, name, now) then TargetLocal
      else if hubAllowed && Up(hubHealth, name, now) then TargetHub
      else TargetUnavailable
    }

    /** The reason given: what was found, with the messages of the failures that came last. */
    ghost function Reason(name: string, now: int): string
      reads this, registry, localHealth.Values, hubHealth.Values
    {
      var i := IndexOf(Servers(), name);
      if i == |Servers()| then
        if hubEnabled then "server not in registry, routing to hub" else "server not in registry"
      else if LocalOnly(Servers()[i].value) then LocalOnlyReason(name, now)
      else AnywhereReason(name, now)
    }

    ghost function LocalOnlyReason(name: string, now: int): string
      reads this, localHealth.Values
    {
      if Up(localHealth, name, now) then "local-only server"
      else "local-only server unhealthy: " + LastMessage(History(localHealth, name))
    }

    ghost function AnywhereReason(name: string, now: int): string
      reads this, localHealth.Values, hubHealth.Values
    {
      var message := LastMessage(History(localHealth, name));
      if Up(localHealth, name, now) then "local healthy"
      else if hubEnabled && Up(hubHealth, name, now) then "local unhealthy (" + message + ") or missing, hub fallback"
      else if hubEnabled then "local: " + message + ", hub: " + LastMessage(History(hubHealth, name))
      else "local: " + message
    }

    /** Every server of the registry has both records. */
    ghost predicate Covered()
      requires NoNil(Servers())
      reads this, registry
    {
      Names(Servers()) <= localHealth.Keys && Names(Servers()) <= hubHealth.Keys
    }

    /** `Route`. */
    method Route(name: string, now: int) returns (d: Decision)
      requires Valid()
      ensures d.NilDereference? <==> Trips(name, now)
      ensures NoNil(Servers()) && Covered() ==> d.Decision?
      ensures d.Decision? ==> d.target == Destination(name, now) && d.reason == Reason(name, now)
    {
      hide LocalOnly, Up, Preferred, LocalOnlyReason, AnywhereReason, Health.Valid;
      var server: Option<Server> := None;
      if registry != null {
        var servers := registry.servers;
        for i := 0 to |servers|
          invariant server.None? && NoNil(servers[..i]) && i <= IndexOf(servers, name)
        {
          if servers[i].None? {
            return Decision.NilDereference;
          }
          if servers[i].value.name == name {
            server := servers[i];
            break;
          }
        }
      }
      if server.None? {
        return if hubEnabled then Decision(TargetHub, "server not in registry, routing to hub")
               else Decision(TargetUnavailable, "server not in registry");
      }
      if LocalOnly(server.value) {
        d := RouteLocalOnly(name, now);
      } else {
        d := RouteAnywhere(name, now);
      }
    }

    /** A server that runs on this machine only. */
    method RouteLocalOnly(name: string, now: int) returns (d: Decision)
      requires Valid()
      ensures d.NilDereference? <==> name !in localHealth
      ensures d.Decision? ==> d.target == Preferred(name, now, false) && d.reason == LocalOnlyReason(name, now)
    {
      hide Available, LastMessage;
      var local: Health? := if name in localHealth then localHealth[name] else null;
      if IsHealthy(local, now) {
        return Decision(TargetLocal, "local-only server");
      }
      if local == null {
        return Decision.NilDereference;
      }
      return Decision(TargetUnavailable, "local-only server unhealthy: " + local.errorMessage);
    }

    /** A server that may run behind the hub. */
    method RouteAnywhere(name: string, now: int) returns (d: Decision)
      requires Valid()
      ensures d.NilDereference? <==>
                name !in localHealth || (hubEnabled && !Up(localHealth, name, now) && name !in hubHealth)
      ensures d.Decision? ==> d.target == Preferred(name, now, hubEnabled) && d.reason == AnywhereReason(name, now)
    {
      hide Available, LastMessage;
      var local: Health? := if name in localHealth then localHealth[name] else null;
      var hub: Health? := if name in hubHealth then hubHealth[name] else null;
      if IsHealthy(local, now) {
        return Decision(TargetLocal, "local healthy");
      }
      if local == null {
        return Decision.NilDereference;
      }
      if hubEnabled && IsHealthy(hub, now) {
        return Decision(TargetHub, "local unhealthy (" + local.errorMessage + ") or missing, hub fallback");
      }
      if hubEnabled {
        if hub == null {
          return Decision.NilDereference;
        }
        return Decision(TargetUnavailable, "local: " + local.errorMessage + ", hub: " + hub.errorMessage);
      }
      return Decision(TargetUnavailable, "local: " + local.errorMessage);
    }

    // ----- the tool index -----

    method AddToolToIndex(tool: string, name: string)
      modifies this`toolIndex
      ensures forall x :: Lookup(toolIndex, x) ==
                if x == tool then AddName(Lookup(old(toolIndex), x), name) else Lookup(old(toolIndex), x)
      ensures forall x :: x in toolIndex ==> x in old(toolIndex) || x == tool
    {
      if tool !in toolIndex {
        toolIndex := toolIndex[tool := [name]];
        return;
      }
      var names := toolIndex[tool];
      for i := 0 to |names|
        invariant toolIndex == old(toolIndex) && name !in names[..i]
      {
        if names[i] == name {
          return;
        }
      }
      toolIndex := toolIndex[tool := names + [name]];
    }

    /** Index every tool of a list under `name`. */
    method AddTools(tools: seq<Tool>, name: string)
      modifies this`toolIndex
      ensures forall x :: Lookup(toolIndex, x) ==
                if Lists(tools, x) then AddName(Lookup(old(toolIndex), x), name) else Lookup(old(toolIndex), x)
    {
      for i := 0 to |tools|
        invariant forall x :: Lookup(toolIndex, x) ==
                    if Lists(tools[..i], x) then AddName(Lookup(old(toolIndex), x), name) else Lookup(old(toolIndex), x)
      {
        AddToolToIndex(tools[i].name, name);
        ListsMore(tools, i);
      }
      assert tools[..|tools|] == tools;
    }

    /** Index every tool a server declares. */
    method AddServer(server: Server)
      modifies this`toolIndex
      ensures forall x :: Lookup(toolIndex, x) ==
                if Declares(server, x) then AddName(Lookup(old(toolIndex), x), server.name)
                else Lookup(old(toolIndex), x)
    {
      if server.common.Some? {
        AddTools(server.common.value.tools, server.name);
      }
      ghost var base := toolIndex;
      var todo := server.targets.Keys;
      while todo != {}
        invariant todo <= server.targets.Keys
        invariant forall x :: Lookup(toolIndex, x) ==
                    if InSome(server, server.targets.Keys - todo, x) then AddName(Lookup(base, x), server.name)
                    else Lookup(base, x)
      {
        var t :| t in todo;
        if server.targets[t].Some? {
          AddTools(server.targets[t].value.tools, server.name);
        }
        InSomeMore(server, todo, t);
        todo := todo - {t};
      }
      forall x ensures InSome(server, server.targets.Keys, x) <==> InTargets(server, x) {
      }
      assert server.targets.Keys - {} == server.targets.Keys;
    }

    /** `BuildToolIndex`, for every order in which the targets may come. */
    method BuildToolIndex()
      modifies this`toolIndex
      ensures if registry == null then toolIndex == old(toolIndex)
              else forall x :: Lookup(toolIndex, x) == Providers(registry.servers, x)
    {
      if registry == null {
        return;
      }
      var servers := registry.servers;
      toolIndex := map[];
      for i := 0 to |servers|
        invariant forall x :: Lookup(toolIndex, x) == Providers(servers[..i], x)
      {
        if servers[i].Some? {
          AddServer(servers[i].value);
        }
        assert servers[..i+1][..i] == servers[..i];
      }
      assert servers[..|servers|] == servers;
    }

    method AppendTool(tool: string, name: string)
      modifies this`toolIndex
      ensures forall x :: Lookup(toolIndex, x) == Lookup(old(toolIndex), x) + if x == tool then [name] else []
    {
      toolIndex := toolIndex[tool := (if tool in toolIndex then toolIndex[tool] else []) + [name]];
    }

    /** Append a name once per mention, as `SetRegistry` does. */
    method AppendTools(tools: seq<Tool>, name: string)
      modifies this`toolIndex
      ensures forall x :: Lookup(toolIndex, x) == Lookup(old(toolIndex), x) + Repeat(name, Mentions(tools, x))
    {
      for i := 0 to |tools|
        invariant forall x :: Lookup(toolIndex, x) == Lookup(old(toolIndex), x) + Repeat(name, Mentions(tools[..i], x))
      {
        hide Repeat, Mentions, Lookup;
        AppendTool(tools[i].name, name);
        forall x ensures Lookup(toolIndex, x) == Lookup(old(toolIndex), x) + Repeat(name, Mentions(tools[..i+1], x)) {
          RepeatMore(Lookup(old(toolIndex), x), name, tools, i, x);
        }
      }
      assert tools[..|tools|] == tools;
    }

    /** False if it came to a nil target; then an unknown part of the mentions is appended. */
    method AppendServer(server: Server) returns (ok: bool)
      modifies this`toolIndex
      ensures ok <==> forall t :: t in server.targets ==> server.targets[t].Some?
      ensures ok ==>
                forall x :: Lookup(toolIndex, x) ==
                              Lookup(old(toolIndex), x) + Repeat(server.name, InAllTargets(server, x))
      ensures !ok ==> forall x :: Lookup(old(toolIndex), x) <= Lookup(toolIndex, x)
    {
      hide Repeat, Mentions, Sum, Lookup;
      var todo := server.targets.Keys;
      NoTargetYet(server);
      while todo != {}
        invariant todo <= server.targets.Keys
        invariant forall t :: t in server.targets && t !in todo ==> server.targets[t].Some?
        invariant forall x :: Lookup(toolIndex, x) ==
                    Lookup(old(toolIndex), x) + Repeat(server.name, Sum(PerTarget(server, x) - todo))
      {
        var target :| target in todo;
        if server.targets[target].None? {
          return false;
        }
        forall x ensures Repeat(server.name, Sum(PerTarget(server, x) - (todo - {target})))
                      == Repeat(server.name, Sum(PerTarget(server, x) - todo))
                         + Repeat(server.name, Mentions(server.targets[target].value.tools, x))
        {
          OneMoreTarget(server, x, todo, target);
        }
        AppendTools(server.targets[target].value.tools, server.name);
        todo := todo - {target};
      }
      forall x ensures PerTarget(server, x) - {} == PerTarget(server, x) {}
      return true;
    }

    /** `SetRegistry`.  False: it follows a nil entry or a nil target, when it has put the new registry
        in place and indexed the entries before the nil one. */
    method SetRegistry(reg: Registry?) returns (ok: bool)
      modifies this`registry, this`toolIndex
      ensures registry == reg
      ensures ok <==> reg == null || NoNilTargets(reg.servers)
      ensures ok ==> forall x :: Lookup(toolIndex, x) == if reg == null then [] else Appended(reg.servers, x)
      ensures !ok ==>
                exists i: nat :: FirstNil(reg.servers, i)
                                 && forall x :: Appended(reg.servers[..i], x) <= Lookup(toolIndex, x)
    {
      hide Appended, NoNilTargets, Repeat, InAllTargets;
      registry := reg;
      toolIndex := map[];
      if reg != null {
        var servers := reg.servers;
        NothingAppended(servers);
        for i := 0 to |servers|
          invariant registry == reg && NoNilTargets(servers[..i])
          invariant forall x :: Lookup(toolIndex, x) == Appended(servers[..i], x)
        {
          if servers[i].None? {
            NilAt(servers, i);
            return false;
          }
          var whole := AppendServer(servers[i].value);
          if !whole {
            NilAt(servers, i);
            return false;
          }
          NoNilMore(servers, i);
          AppendedMore(servers, i);
        }
        assert servers[..|servers|] == servers;
      }
      return true;
    }

    // ----- resolving -----

    /** `ResolveServer`.  What it writes into the registry's environments on the way does not show
        in its answer. */
    method ResolveServer(profile: string, tool: string, args: map<string, Arg>) returns (r: Resolution)
      requires registry != null ==> registry.Valid()
      modifies if registry == null then {} else {registry}
      modifies if registry == null then {} else CommonEnvs(registry.servers)
      ensures registry != null ==> registry.Valid() && registry.servers == old(registry.servers)
      ensures registry != null ==> registry.routing == old(registry.routing) && registry.envs == old(registry.envs)
      ensures r == if registry == null then Name("")
                   else Resolve(old(registry.servers), old(registry.routing), toolIndex, profile, tool, args)
    {
      if registry == null {
        return Name("");
      }
      var rule := AskRules(registry.routing, tool, args);
      if rule.Some? {
        return Name(rule.value);
      }
      var claim := AskServers(profile, tool);
      match claim
      case Claimed(name) => return Name(name);
      case ClaimPanics => return Panicked;
      case NoClaim =>
        if tool in toolIndex {
          var names := toolIndex[tool];
          if |names| == 1 {
            return Name(names[0]);
          }
          if |names| > 1 {
            return Ambiguous(names);
          }
        }
        return Name("");
    }

    method AskRules(rules: seq<Option<Rule>>, tool: string, args: map<string, Arg>) returns (r: Option<string>)
      ensures r == FirstRule(rules, tool, args)
    {
      for i := 0 to |rules|
        invariant FirstRule(rules, tool, args) == FirstRule(rules[i..], tool, args)
      {
        assert rules[i..][1..] == rules[i+1..];
        if rules[i].Some? && rules[i].value.toolName == tool {
          var rule := rules[i].value;
          if rule.argument in args && args[rule.argument].Str? {
            var c := AskCases(rule.cases, args[rule.argument].s);
            if c.Some? {
              return c;
            }
          }
          if rule.default_ != "" {
            return Some(rule.default_);
          }
        }
      }
      return None;
    }

    method AskCases(cases: seq<Case>, value: string) returns (r: Option<string>)
      ensures r == FirstCase(cases, value)
    {
      for i := 0 to |cases|
        invariant FirstCase(cases, value) == FirstCase(cases[i..], value)
      {
        assert cases[i..][1..] == cases[i+1..];
        if MatchPattern(value, cases[i].match_) {
          return Some(cases[i].server);
        }
      }
      return None;
    }

    method AskServers(profile: string, tool: string) returns (c: Claim)
      requires registry != null && registry.Valid()
      modifies registry`requests
      modifies CommonEnvs(registry.servers)
      ensures registry.Valid()
      ensures c == FirstClaim(registry.servers, 0, profile, tool)
    {
      hide Effective, Meant, NilTarget;
      var reg := registry;
      var servers := reg.servers;
      for i := 0 to |servers|
        invariant reg.Valid() && reg.servers == servers
        invariant FirstClaim(servers, 0, profile, tool) == FirstClaim(servers, i, profile, tool)
      {
        if servers[i].Some? {
          var name := servers[i].value.name;
          var s := reg.SpecAt(i, profile);
          if s.Panics? {
            return ClaimPanics;
          }
          var allowed := Contains(s.spec.alwaysAllow, tool);
          if allowed {
            return Claimed(name);
          }
          if name + "__" <= tool {
            return Claimed(name);
          }
        }
      }
      return NoClaim;
    }
  }

  lemma NilAt(servers: seq<Option<Server>>, i: nat)
    requires FirstNil(servers, i)
    ensures !NoNilTargets(servers)
  {
  }

  lemma NothingAppended(servers: seq<Option<Server>>)
    ensures NoNilTargets(servers[..0]) && forall x :: Appended(servers[..0], x) == []
  {
  }

  lemma AppendedMore(servers: seq<Option<Server>>, i: nat)
    requires i < |servers| && servers[i].Some?
    ensures var server := servers[i].value;
            forall x :: Appended(servers[..i+1], x) ==
                          Appended(servers[..i], x) + Repeat(server.name, InAllTargets(server, x))
  {
    assert servers[..i+1][..i] == servers[..i];
  }

  lemma NoNilMore(servers: seq<Option<Server>>, i: nat)
    requires i < |servers| && NoNilTargets(servers[..i]) && servers[i].Some?
    requires forall t :: t in servers[i].value.targets ==> servers[i].value.targets[t].Some?
    ensures NoNilTargets(servers[..i+1])
  {
    assert forall j :: 0 <= j < i ==> servers[..i+1][j] == servers[..i][j];
  }

  /** `New`; null if it follows a nil entry, from which nobody gets a router. */
  method NewRouter(reg: Registry?, hubEnabled: bool, threshold: int, recovery: int) returns (r: Router?)
    ensures r == null <==> reg != null && !NoNil(reg.servers)
    ensures r != null ==> fresh(r) && r.Valid() && r.registry == reg && r.hubEnabled == hubEnabled
    ensures r != null ==> r.failureThreshold == Threshold(threshold) && r.recoveryTime == Recovery(recovery)
    ensures r != null ==> Untouched(r.localHealth, r.failureThreshold) && Untouched(r.hubHealth, r.failureThreshold)
    ensures r != null ==> r.localHealth.Keys == r.hubHealth.Keys == Names(r.Servers())
    ensures r != null ==> fresh(r.localHealth.Values) && fresh(r.hubHealth.Values)
    ensures r != null ==> forall x :: Lookup(r.toolIndex, x) == Providers(r.Servers(), x)
  {
    hide Untouched, Records;
    if reg != null && exists i :: 0 <= i < |reg.servers| && reg.servers[i].None? {
      return null;
    }
    r := new Router(reg, hubEnabled, threshold, recovery);
  }

  // ----- whole traces -----

  /** One call of `RecordSuccess` or `RecordFailure`. */
  datatype Report = Report(name: string, target: Target, mark: Mark)

  function Part(report: Report, target: Target, name: string): seq<Mark> {
    if report.target == target && report.name == name then [report.mark] else []
  }

  /** What the reports say about one server at one place, in order. */
  function Told(reports: seq<Report>, target: Target, name: string): seq<Mark> {
    if reports == [] then []
    else Told(reports[..|reports|-1], target, name) + Part(reports[|reports|-1], target, name)
  }

  /** Where a call goes, as a function of the registry and the reports so far. */
  ghost function DestinationAfter(servers: seq<Option<Server>>, hubEnabled: bool, threshold: nat, recovery: int,
                                  reports: seq<Report>, name: string, now: int): Target
  {
    var i := IndexOf(servers, name);
    if i == |servers| then
      if hubEnabled then TargetHub else TargetUnavailable
    else if Available(Told(reports, TargetLocal, name), true, threshold, recovery, now) then TargetLocal
    else if
      && servers[i].Some? && !StaysLocal(servers[i].value) && hubEnabled
      && Available(Told(reports, TargetHub, name), true, threshold, recovery, now)
    then TargetHub
    else TargetUnavailable
  }

  /** The reason given with it. */
  ghost function ReasonAfter(servers: seq<Option<Server>>, hubEnabled: bool, threshold: nat, recovery: int,
                             reports: seq<Report>, name: string, now: int): string
  {
    var i := IndexOf(servers, name);
    var local, hub := Told(reports, TargetLocal, name), Told(reports, TargetHub, name);
    var localUp := Available(local, true, threshold, recovery, now);
    if i == |servers| then if hubEnabled then "server not in registry, routing to hub" else "server not in registry"
    else if servers[i].Some? && StaysLocal(servers[i].value) then
      if localUp then "local-only server" else "local-only server unhealthy: " + LastMessage(local)
    else if localUp then "local healthy"
    else if hubEnabled then
      if Available(hub, true, threshold, recovery, now)
      then "local unhealthy (" + LastMessage(local) + ") or missing, hub fallback"
      else "local: " + LastMessage(local) + ", hub: " + LastMessage(hub)
    else "local: " + LastMessage(local)
  }

  /** Every one of the names has a record, made by `New`. */
  ghost predicate Seeded(m: map<string, Health>, names: set<string>) {
    forall n :: n in names ==> n in m && m[n].seeded
  }

  /** Any reports to a new router. */
  method AfterReports(reg: Registry?, hubEnabled: bool, threshold: int, recovery: int, reports: seq<Report>)
    returns (r: Router?)
    ensures r == null <==> reg != null && !NoNil(reg.servers)
    ensures r != null ==> fresh(r) && r.Valid() && r.registry == reg && r.hubEnabled == hubEnabled
    ensures r != null ==> r.failureThreshold == Threshold(threshold) && r.recoveryTime == Recovery(recovery)
    ensures r != null ==> Seeded(r.localHealth, Names(r.Servers())) && Seeded(r.hubHealth, Names(r.Servers()))
    ensures r != null ==> forall n :: History(r.localHealth, n) == Told(reports, TargetLocal, n)
    ensures r != null ==> forall n :: History(r.hubHealth, n) == Told(reports, TargetHub, n)
  {
    hide Records, Filling, LocalOnly;
    r := NewRouter(reg, hubEnabled, threshold, recovery);
    if r == null {
      return;
    }
    for i := 0 to |reports|
      invariant r != null && fresh(r) && r.Valid() && r.registry == reg && NoNil(r.Servers())
      invariant fresh(r.localHealth.Values) && fresh(r.hubHealth.Values)
      invariant Seeded(r.localHealth, Names(r.Servers())) && Seeded(r.hubHealth, Names(r.Servers()))
      invariant forall n :: History(r.localHealth, n) == Told(reports[..i], TargetLocal, n)
      invariant forall n :: History(r.hubHealth, n) == Told(reports[..i], TargetHub, n)
    {
      assert reports[..i+1][..i] == reports[..i];
      r.Record(reports[i]);
    }
    assert reports[..|reports|] == reports;
  }

  /** After any reports to a new router `Route` meets no missing record, and the target is a function of
      the reports about that server. */
  method RouteAfterReports(reg: Registry?, hubEnabled: bool, threshold: int, recovery: int, reports: seq<Report>,
                           name: string, now: int)
    returns (d: Option<Decision>)
    ensures d.None? <==> reg != null && !NoNil(reg.servers)
    ensures d.Some? ==> d.value.Decision?
    ensures var servers := if reg == null then [] else reg.servers;
            var (t, w) := (Threshold(threshold), Recovery(recovery));
            d.Some? ==> d.value.target == DestinationAfter(servers, hubEnabled, t, w, reports, name, now)
                        && d.value.reason == ReasonAfter(servers, hubEnabled, t, w, reports, name, now)
    ensures var servers := if reg == null then [] else reg.servers; var i := IndexOf(servers, name);
            d.Some? && i < |servers| && StaysLocal(servers[i].value) ==> d.value.target != TargetHub
  {
    hide Records, LocalOnly, StaysLocal, Available, Told, LastMessage;
    var r := AfterReports(reg, hubEnabled, threshold, recovery, reports);
    if r == null {
      return None;
    }
    var i := IndexOf(r.Servers(), name);
    if i < |r.Servers()| {
      LocalOnlyIff(r.Servers()[i].value);
    }
    var decision := r.Route(name, now);
    d := Some(decision);
  }

  /** A server that `SetRegistry` brings in has no record, and routing to it follows a nil pointer;
      given to `New`, the same registry routes it. */
  method RouteNewServer(late: bool, now: int) returns (d: Decision)
    ensures d == if late then Decision.NilDereference else Decision(TargetLocal, "local healthy")
  {
    var server := Server("s", [], [], None, map[]);
    var reg := new Registry([Some(server)], [], map[]);
    var r := new Router(if late then null else reg, false, 0, 0);
    if late {
      var _ := r.SetRegistry(reg);
    }
    assert IndexOf(r.Servers(), "s") == 0;
    assert !late ==> "s" in Names(reg.servers) by {
      assert reg.servers[0].value.name == "s";
    }
    d := r.Route("s", now);
  }

  lemma NamesMore(servers: seq<Option<Server>>, i: nat)
    requires i < |servers| && NoNil(servers)
    ensures Names(servers[..i+1]) == Names(servers[..i]) + {servers[i].value.name}
  {
    var some, more := Names(servers[..i]), Names(servers[..i+1]);
    forall n ensures n in more <==> n in some || n == servers[i].value.name {
      if n in some {
        var j :| 0 <= j < i && servers[..i][j].value.name == n;
        assert servers[..i+1][j].value.name == n;
      }
      if n in more {
        var j :| 0 <= j < i + 1 && servers[..i+1][j].value.name == n;
        if j < i { assert servers[..i][j].value.name == n; }
      }
      assert servers[..i+1][i] == servers[i];
    }
  }

  ghost predicate InSome(server: Server, done: set<string>, tool: string) {
    exists t ::
      t in done && t in server.targets && server.targets[t].Some? && Lists(server.targets[t].value.tools, tool)
  }

  lemma InSomeMore(server: Server, todo: set<string>, t: string)
    requires todo <= server.targets.Keys && t in todo
    ensures forall x :: InSome(server, server.targets.Keys - (todo - {t}), x) <==>
              InSome(server, server.targets.Keys - todo, x)
              || (server.targets[t].Some? && Lists(server.targets[t].value.tools, x))
  {
    var done := server.targets.Keys - todo;
    assert server.targets.Keys - (todo - {t}) == done + {t};
  }

  lemma RepeatMore(names: seq<string>, name: string, tools: seq<Tool>, i: nat, tool: string)
    requires i < |tools|
    ensures names + Repeat(name, Mentions(tools[..i+1], tool))
         == names + Repeat(name, Mentions(tools[..i], tool)) + if tools[i].name == tool then [name] else []
  {
    assert tools[..i+1][..i] == tools[..i];
    var n := Mentions(tools[..i], tool);
    assert Repeat(name, n + 1) == Repeat(name, n) + [name];
  }

  lemma {:induction false} RepeatAdd(name: string, a: nat, b: nat)
    ensures Repeat(name, a + b) == Repeat(name, a) + Repeat(name, b)
  {
    if b > 0 {
      RepeatAdd(name, a, b - 1);
    }
  }

  lemma NoTargetYet(server: Server)
    ensures forall x :: Repeat(server.name, Sum(PerTarget(server, x) - server.targets.Keys)) == []
  {
    forall x ensures PerTarget(server, x) - server.targets.Keys == map[] {
    }
  }

  lemma OneMoreTarget(server: Server, tool: string, todo: set<string>, t: string)
    requires t in todo && todo <= server.targets.Keys && server.targets[t].Some?
    ensures Repeat(server.name, Sum(PerTarget(server, tool) - (todo - {t})))
         == Repeat(server.name, Sum(PerTarget(server, tool) - todo))
            + Repeat(server.name, Mentions(server.targets[t].value.tools, tool))
  {
    var counts := PerTarget(server, tool);
    var done := counts - todo;
    assert counts - (todo - {t}) == done[t := counts[t]];
    SumUpdate(done, t, counts[t]);
    SumNonNegative(done);
    RepeatAdd(server.name, Sum(done), counts[t]);
  }

  lemma ListsMore(tools: seq<Tool>, i: nat)
    requires i < |tools|
    ensures forall x :: Lists(tools[..i+1], x) <==> Lists(tools[..i], x) || x == tools[i].name
  {
    forall x ensures Lists(tools[..i+1], x) <==> Lists(tools[..i], x) || x == tools[i].name {
      if j :| 0 <= j < i && tools[j].name == x {
        assert tools[..i][j].name == x && tools[..i+1][j].name == x;
      }
      if Lists(tools[..i+1], x) {
        var j :| 0 <= j < i + 1 && tools[..i+1][j].name == x;
        if j < i { assert tools[..i][j].name == x; }
      }
      assert tools[..i+1][i] == tools[i];
    }
  }
}
