/** pkg/registry/registry.go: server lookup and the merging of specs.

    `GetServerSpec` copies the common spec as a struct, and a struct copy shares its `Env` map.  So
    the map is a heap object here, and merging a target's environment writes into the registry. */
module Registry {

  datatype Option<+T> = None | Some(value: T)

  /** A Go map, which is shared by everything that refers to it. */
  class EnvMap {
    var m: map<string, string>

    constructor ()
      ensures m == map[]
    {
      m := map[];
    }
  }

  datatype Tool = Tool(name: string, description: string)

  datatype TargetSpec = TargetSpec(
    description: string,
    command: string,
    args: seq<string>,
    env: EnvMap?,
    hint: string,
    timeout: int,
    alwaysAllow: seq<string>,
    kind: string,
    tools: seq<Tool>,
    ssh: Option<string>)

  /** `Targets` may hold nil entries. */
  datatype Server = Server(
    name: string,
    categories: seq<string>,
    alwaysAllow: seq<string>,
    common: Option<TargetSpec>,
    targets: map<string, Option<TargetSpec>>)

  datatype Case = Case(match_: string, server: string)

  datatype Rule = Rule(toolName: string, argument: string, cases: seq<Case>, default_: string)

  /** `Panics`: the source dereferences a nil pointer. */
  datatype SpecResult = Found(spec: TargetSpec) | NotFound | Panics

  const EMPTY := TargetSpec("", "", [], null, "", 0, [], "", [], None)

  // ----- reading -----

  /** Index of the first server of this name, or the number of servers. */
  function IndexOf(servers: seq<Option<Server>>, name: string): (i: nat)
    ensures i <= |servers|
    ensures i < |servers| ==> servers[i].Some? && servers[i].value.name == name
    ensures forall j :: 0 <= j < i ==> servers[j].None? || servers[j].value.name != name
  {
    if servers == [] then 0
    else if servers[0].Some? && servers[0].value.name == name then 0
    else 1 + IndexOf(servers[1..], name)
  }

  function Common(server: Server): TargetSpec {
    if server.common.Some? then server.common.value else EMPTY
  }

  predicate HasTarget(server: Server, target: string) {
    target != "" && target in server.targets
  }

  /** Merging, except for the environment. */
  function MergeRest(dst: TargetSpec, src: TargetSpec): TargetSpec {
    TargetSpec(
      if src.description != "" then src.description else dst.description,
      if src.command != "" then src.command else dst.command,
      if |src.args| > 0 then src.args else dst.args,
      dst.env,
      if src.hint != "" then src.hint else dst.hint,
      if src.timeout > 0 then src.timeout else dst.timeout,
      if |src.alwaysAllow| > 0 then src.alwaysAllow else dst.alwaysAllow,
      if src.kind != "" then src.kind else dst.kind,
      if |src.tools| > 0 then src.tools else dst.tools,
      if src.ssh.Some? then src.ssh else dst.ssh)
  }

  predicate NilTarget(server: Server, target: string) {
    HasTarget(server, target) && server.targets[target].None?
  }

  /** The merged spec, except for what its environment holds. */
  function Effective(server: Server, target: string): TargetSpec {
    if HasTarget(server, target) && server.targets[target].Some?
    then MergeRest(Common(server), server.targets[target].value)
    else Common(server)
  }

  function TargetEnv(server: Server, target: string): EnvMap? {
    if HasTarget(server, target) && server.targets[target].Some? then server.targets[target].value.env else null
  }

  /** What a merged spec says, field by field: what the target sets wins, whatever the common spec says,
      what it does not set comes from the common spec, and without one it is empty.  Without a target,
      or with an unknown one, the answer is the common spec.  The environment is not spoken of. */
  ghost predicate Merges(server: Server, target: string, spec: TargetSpec) {
    var c := if server.common.Some? then server.common.value else TargetSpec("", "", [], null, "", 0, [], "", [], None);
    if target == "" || target !in server.targets then
      && spec.description == c.description && spec.command == c.command && spec.args == c.args
      && spec.hint == c.hint && spec.timeout == c.timeout && spec.alwaysAllow == c.alwaysAllow
      && spec.kind == c.kind && spec.tools == c.tools && spec.ssh == c.ssh
    else
      && server.targets[target].Some?
      && var t := server.targets[target].value;
         && Wins(t.description != "", t.description, c.description, spec.description)
         && Wins(t.command != "", t.command, c.command, spec.command)
         && Wins(t.args != [], t.args, c.args, spec.args)
         && Wins(t.hint != "", t.hint, c.hint, spec.hint)
         && Wins(t.timeout > 0, t.timeout, c.timeout, spec.timeout)
         && Wins(t.alwaysAllow != [], t.alwaysAllow, c.alwaysAllow, spec.alwaysAllow)
         && Wins(t.kind != "", t.kind, c.kind, spec.kind)
         && Wins(t.tools != [], t.tools, c.tools, spec.tools)
         && Wins(t.ssh != None, t.ssh, c.ssh, spec.ssh)
  }

  ghost predicate Wins<T>(isSet: bool, ofTarget: T, ofCommon: T, result: T) {
    (isSet ==> result == ofTarget) && (!isSet ==> result == ofCommon)
  }

  lemma EffectiveMerges(server: Server, target: string)
    ensures NilTarget(server, target) <==> target != "" && target in server.targets && server.targets[target].None?
    ensures !NilTarget(server, target) ==>
              forall env: EnvMap? :: Merges(server, target, Effective(server, target).(env := env))
  {
  }

  /** What a target declares in tools: its own ones, or the common ones if it has none. */
  function DeclaredTools(server: Server, target: string): seq<Tool> {
    var common := if server.common.Some? then server.common.value.tools else [];
    if target != "" && target in server.targets && server.targets[target].Some?
       && server.targets[target].value.tools != []
    then server.targets[target].value.tools else common
  }

  lemma EffectiveTools(server: Server, target: string)
    ensures !NilTarget(server, target) ==> Effective(server, target).tools == DeclaredTools(server, target)
  {
  }

  // ----- the law of the environment -----

  /** What one request writes. */
  function Layer(server: Server, envs: map<EnvMap, map<string, string>>, target: string): map<string, string> {
    var e := TargetEnv(server, target);
    if e != null && e in envs then envs[e] else map[]
  }

  /** `base` overlaid, left to right, with the environment of each requested target. */
  function Overlay(server: Server, envs: map<EnvMap, map<string, string>>, base: map<string, string>,
                   targets: seq<string>): map<string, string>
  {
    if targets == [] then base
    else Overlay(server, envs, base, targets[..|targets|-1]) + Layer(server, envs, targets[|targets|-1])
  }

  /** The targets asked of the server at index `i`, in order. */
  function Asked(requests: seq<(nat, string)>, i: nat): seq<string> {
    if requests == [] then []
    else
      var rest := Asked(requests[..|requests|-1], i);
      var (j, t) := requests[|requests|-1];
      if j == i then rest + [t] else rest
  }

  /** The environment of a server's common spec. */
  function CommonEnv(servers: seq<Option<Server>>, i: nat): EnvMap? {
    if i < |servers| && servers[i].Some? then Common(servers[i].value).env else null
  }

  /** All of these. */
  function CommonEnvs(servers: seq<Option<Server>>): set<EnvMap> {
    set i | 0 <= i < |servers| && CommonEnv(servers, i) != null :: CommonEnv(servers, i)
  }

  /** The environment of one of its targets. */
  function EnvAt(servers: seq<Option<Server>>, i: nat, t: string): EnvMap? {
    if i < |servers| && servers[i].Some? && t in servers[i].value.targets && servers[i].value.targets[t].Some?
    then servers[i].value.targets[t].value.env else null
  }

  /** A server's tools under the names they have outside. */
  function Namespaced(name: string, tools: seq<Tool>): seq<Tool> {
    seq(|tools|, i requires 0 <= i < |tools| => Tool(name + "__" + tools[i].name, tools[i].description))
  }

  /** The server a name means is the first of that name. */
  function Meant(servers: seq<Option<Server>>, i: nat): (s: Server)
    requires i < |servers| && servers[i].Some?
  {
    var j := IndexOf(servers, servers[i].value.name);
    if j < |servers| then servers[j].value else servers[i].value
  }

  function StaticTools(servers: seq<Option<Server>>, n: nat, target: string): seq<Tool>
    requires n <= |servers| && forall i :: 0 <= i < n ==> servers[i].Some?
  {
    if n == 0 then []
    else StaticTools(servers, n - 1, target)
         + Namespaced(servers[n-1].value.name, Effective(Meant(servers, n - 1), target).tools)
  }

  class Registry {
    var servers: seq<Option<Server>>
    var routing: seq<Option<Rule>>
    ghost var envs: map<EnvMap, map<string, string>>   // every environment, as it was loaded
    ghost var requests: seq<(nat, string)>             // every answered GetServerSpec

    /** Decoding a file makes a new map for every environment in it. */
    ghost predicate Separate()
      reads this
    {
      && (forall i, j :: 0 <= i < j < |servers| && CommonEnv(servers, i) != null ==>
            CommonEnv(servers, i) != CommonEnv(servers, j))
      && (forall i, j, t :: 0 <= i < |servers| && 0 <= j < |servers| && CommonEnv(servers, i) != null ==>
            CommonEnv(servers, i) != EnvAt(servers, j, t))
      && (forall i :: 0 <= i < |servers| && CommonEnv(servers, i) != null ==> CommonEnv(servers, i) in envs)
      && (forall i, t :: 0 <= i < |servers| && EnvAt(servers, i, t) != null ==> EnvAt(servers, i, t) in envs)
    }

    /** The law: a target's environment is as it was loaded, and a common one is that overlaid with
        every target asked of its server so far. */
    ghost predicate Valid()
      reads this, envs.Keys
    {
      && Separate()
      && (forall i, t :: 0 <= i < |servers| && EnvAt(servers, i, t) != null ==>
            EnvAt(servers, i, t).m == envs[EnvAt(servers, i, t)])
      && (forall i :: 0 <= i < |servers| && CommonEnv(servers, i) != null ==>
            var e := CommonEnv(servers, i);
            e.m == Overlay(servers[i].value, envs, envs[e], Asked(requests, i)))
    }

    /** `GetServer`. */
    method GetServer(name: string) returns (i: nat)
      ensures i == IndexOf(servers, name)
    {
      i := 0;
      while i < |servers|
        invariant i <= |servers| && IndexOf(servers, name) == i + IndexOf(servers[i..], name)
      {
        if servers[i].Some? && servers[i].value.name == name {
          return;
        }
        assert servers[i..][1..] == servers[i+1..];
        i := i + 1;
      }
    }

    /** `mergeSpec`, with `dst` a copy: its fields change in the copy, its map in place. */
    method MergeSpec(dst: TargetSpec, src: TargetSpec) returns (r: TargetSpec)
      modifies if dst.env != null && src.env != null then {dst.env} else {}
      ensures r == MergeRest(dst, src).(env := r.env)
      ensures src.env == null || dst.env != null ==> r.env == dst.env
      ensures src.env != null && dst.env != null ==> r.env.m == old(dst.env.m) + old(src.env.m)
      ensures src.env != null && dst.env == null ==> fresh(r.env) && r.env.m == src.env.m
    {
      var env := dst.env;
      if src.env != null {
        if env == null {
          env := new EnvMap();
        }
        var todo := src.env.m.Keys;
        ghost var before, source := env.m, src.env.m;
        while todo != {}
          modifies env
          invariant todo <= source.Keys && src.env.m == source
          invariant env.m == before + (source - todo)
        {
          var k :| k in todo;
          env.m := env.m[k := src.env.m[k]];
          todo := todo - {k};
        }
        assert source - {} == source;
      }
      r := MergeRest(dst, src).(env := env);
    }

    /** A registry as loaded: `envs` says what each environment holds. */
    constructor (servers: seq<Option<Server>>, routing: seq<Option<Rule>>, ghost envs: map<EnvMap, map<string, string>>)
      requires forall e :: e in envs ==> envs[e] == e.m
      requires forall i, j :: 0 <= i < j < |servers| && CommonEnv(servers, i) != null ==>
                 CommonEnv(servers, i) != CommonEnv(servers, j)
      requires forall i, j, t :: 0 <= i < |servers| && 0 <= j < |servers| && CommonEnv(servers, i) != null ==>
                 CommonEnv(servers, i) != EnvAt(servers, j, t)
      requires forall i :: 0 <= i < |servers| && CommonEnv(servers, i) != null ==> CommonEnv(servers, i) in envs
      requires forall i, t :: 0 <= i < |servers| && EnvAt(servers, i, t) != null ==> EnvAt(servers, i, t) in envs
      ensures Valid() && this.servers == servers && this.routing == routing && this.envs == envs && requests == []
    {
      this.servers, this.routing, this.envs, this.requests := servers, routing, envs, [];
    }

    /** `GetServerSpec`.  What the spec says depends on the common and the target spec only, its
        environment aside.  A common environment is shared by every spec returned for the server and
        holds everything written to it so far; without one the environment is a new map and
        depends on the target only. */
    method GetServerSpec(name: string, target: string) returns (r: SpecResult)
      requires Valid()
      modifies this`requests
      modifies var e := CommonEnv(servers, IndexOf(servers, name)); if e == null then {} else {e}
      ensures Valid()
      ensures var i := IndexOf(servers, name);
              match r
              case NotFound => i == |servers| && requests == old(requests)
              case Panics => i < |servers| && NilTarget(servers[i].value, target) && requests == old(requests)
              case Found(spec) =>
                && i < |servers| && !NilTarget(servers[i].value, target)
                && requests == old(requests) + [(i, target)]
                && spec == Effective(servers[i].value, target).(env := spec.env)
      ensures r.Found? ==> Merges(servers[IndexOf(servers, name)].value, target, r.spec)
      ensures var i := IndexOf(servers, name);
              r.Found? && CommonEnv(servers, i) != null ==> r.spec.env == CommonEnv(servers, i)
      ensures var i := IndexOf(servers, name);
              r.Found? && CommonEnv(servers, i) == null ==>
                if TargetEnv(servers[i].value, target) == null then r.spec.env == null
                else fresh(r.spec.env) && r.spec.env.m == Layer(servers[i].value, envs, target)
    {
      hide Overlay, Asked, IndexOf, MergeRest, Layer, Merges;
      var i := GetServer(name);
      if i == |servers| {
        return NotFound;
      }
      var server := servers[i].value;
      var spec := Common(server);
      if target != "" && target in server.targets {
        if server.targets[target].None? {
          return Panics;
        }
        assert server.targets[target].value.env == EnvAt(servers, i, target);
        spec := MergeSpec(spec, server.targets[target].value);
      }
      requests := requests + [(i, target)];
      EffectiveMerges(server, target);
      AskedMore(old(requests), i, target);
      OverlayMore(server, envs, spec.env, Asked(old(requests), i), target);
      r := Found(spec);
    }

    /** The spec of the server at index `i`, which is asked for by name. */
    method SpecAt(i: nat, target: string) returns (r: SpecResult)
      requires Valid() && i < |servers| && servers[i].Some?
      modifies this`requests
      modifies CommonEnvs(servers)
      ensures Valid()
      ensures r == if NilTarget(Meant(servers, i), target) then Panics
                   else Found(Effective(Meant(servers, i), target).(env := if r.Found? then r.spec.env else null))
    {
      hide Valid, Overlay, Asked, MergeRest, Layer, Effective;
      IndexOfBound(servers, servers[i].value.name, i);
      r := GetServerSpec(servers[i].value.name, target);
    }

    /** `GetStaticTools`; None when it dereferences a nil entry. */
    method GetStaticTools(target: string) returns (r: Option<seq<Tool>>)
      requires Valid()
      modifies this`requests
      modifies CommonEnvs(servers)
      ensures Valid()
      ensures r.Some? <==> forall i :: 0 <= i < |servers| ==> servers[i].Some? && !NilTarget(Meant(servers, i), target)
      ensures r.Some? ==> r.value == StaticTools(servers, |servers|, target)
    {
      hide Valid, Effective, Meant, NilTarget;
      var tools := [];
      for i := 0 to |servers|
        invariant Valid()
        invariant forall j :: 0 <= j < i ==> servers[j].Some? && !NilTarget(Meant(servers, j), target)
        invariant tools == StaticTools(servers, i, target)
      {
        if servers[i].None? {
          return None;
        }
        var s := SpecAt(i, target);
        if s.Panics? {
          return None;
        }
        tools := tools + Namespaced(servers[i].value.name, s.spec.tools);
      }
      r := Some(tools);
    }
  }

  lemma {:induction false} IndexOfBound(servers: seq<Option<Server>>, name: string, i: nat)
    requires i < |servers| && servers[i].Some? && servers[i].value.name == name
    ensures IndexOf(servers, name) <= i
  {
  }

  datatype Verdict = Allowed | NotAllowed | NilDereference

  method Contains(list: seq<string>, x: string) returns (b: bool)
    ensures b <==> x in list
  {
    for i := 0 to |list|
      invariant x !in list[..i]
    {
      if list[i] == x {
        return true;
      }
    }
    return false;
  }

  lemma OverlayMore(server: Server, envs: map<EnvMap, map<string, string>>, e: EnvMap?, targets: seq<string>, t: string)
    ensures e != null && e in envs ==>
              Overlay(server, envs, envs[e], targets + [t])
                == Overlay(server, envs, envs[e], targets) + Layer(server, envs, t)
    ensures var d := TargetEnv(server, t); Layer(server, envs, t) == if d != null && d in envs then envs[d] else map[]
  {
    var more := targets + [t];
    assert more[..|more|-1] == targets;
  }

  lemma AskedMore(requests: seq<(nat, string)>, i: nat, t: string)
    ensures Asked(requests + [(i, t)], i) == Asked(requests, i) + [t]
    ensures forall j :: j != i ==> Asked(requests + [(i, t)], j) == Asked(requests, j)
  {
    var more := requests + [(i, t)];
    assert more[..|more|-1] == requests;
  }

  // ----- what the law means -----

  /** The last request before `n` that wrote key `k`, or -1. */
  function LastWriter(server: Server, envs: map<EnvMap, map<string, string>>, targets: seq<string>, k: string): (w: int)
    ensures -1 <= w < |targets|
    ensures w >= 0 ==> k in Layer(server, envs, targets[w])
    ensures forall j :: w < j < |targets| ==> k !in Layer(server, envs, targets[j])
  {
    if targets == [] then -1
    else if k in Layer(server, envs, targets[|targets|-1]) then |targets| - 1
    else LastWriter(server, envs, targets[..|targets|-1], k)
  }

  /** The value of `k` is the one the last request for it wrote, or the loaded one. */
  lemma {:induction false} OverlayLookup(server: Server, envs: map<EnvMap, map<string, string>>,
                                         base: map<string, string>, targets: seq<string>, k: string)
    ensures var w := LastWriter(server, envs, targets, k); var m := Overlay(server, envs, base, targets);
            if w >= 0 then k in m && m[k] == Layer(server, envs, targets[w])[k]
            else (k in m <==> k in base) && (k in base ==> m[k] == base[k])
  {
    if targets != [] {
      OverlayLookup(server, envs, base, targets[..|targets|-1], k);
    }
  }

  /** A caller that always asks for the same target gets the same environment every time. */
  lemma {:induction false} SameTargetStable(server: Server, envs: map<EnvMap, map<string, string>>,
                                            base: map<string, string>, targets: seq<string>, t: string)
    requires targets != [] && forall i :: 0 <= i < |targets| ==> targets[i] == t
    ensures Overlay(server, envs, base, targets) == base + Layer(server, envs, t)
  {
    if |targets| > 1 {
      SameTargetStable(server, envs, base, targets[..|targets|-1], t);
    }
  }

  /** Asking for `t` after `earlier` gives what asking for it first would have given, exactly when
      every key that `t` does not set was last set, if at all, to the value it was loaded with. */
  lemma HistoryFreeIff(server: Server, envs: map<EnvMap, map<string, string>>, base: map<string, string>,
                       earlier: seq<string>, t: string)
    ensures Overlay(server, envs, base, earlier + [t]) == base + Layer(server, envs, t) <==>
            forall k :: k !in Layer(server, envs, t) ==>
              var w := LastWriter(server, envs, earlier, k);
              w < 0 || (k in base && base[k] == Layer(server, envs, earlier[w])[k])
  {
    var all := earlier + [t];
    assert all[..|all|-1] == earlier;
    assert Overlay(server, envs, base, all) == Overlay(server, envs, base, earlier) + Layer(server, envs, t);
    hide Overlay, Layer;
    var was := Overlay(server, envs, base, earlier);
    var layer := Layer(server, envs, t);
    forall k ensures var w := LastWriter(server, envs, earlier, k);
                     if w >= 0 then k in was && was[k] == Layer(server, envs, earlier[w])[k]
                     else (k in was <==> k in base) && (k in base ==> was[k] == base[k])
    {
      OverlayLookup(server, envs, base, earlier, k);
    }
    SumsAgree(was, base, layer);
  }

  /** Asking for `t` gives the same environment whatever was asked before. */
  ghost predicate HistoryFree(server: Server, envs: map<EnvMap, map<string, string>>, base: map<string, string>,
                              t: string)
  {
    forall earlier: seq<string> :: Overlay(server, envs, base, earlier + [t]) == base + Layer(server, envs, t)
  }

  /** That is so exactly when every key that some target sets and `t` does not is loaded with that
      target's value. */
  lemma HistoryFreeFor(server: Server, envs: map<EnvMap, map<string, string>>, base: map<string, string>, t: string)
    ensures HistoryFree(server, envs, base, t) <==>
            forall u, k :: k in Layer(server, envs, u) && k !in Layer(server, envs, t) ==>
              k in base && base[k] == Layer(server, envs, u)[k]
  {
    hide Overlay, Layer;
    if HistoryFree(server, envs, base, t) {
      forall u, k | k in Layer(server, envs, u) && k !in Layer(server, envs, t)
        ensures k in base && base[k] == Layer(server, envs, u)[k]
      {
        HistoryFreeIff(server, envs, base, [u], t);
        assert Overlay(server, envs, base, [u] + [t]) == base + Layer(server, envs, t);
        assert LastWriter(server, envs, [u], k) == 0;
      }
    }
    if forall u, k :: k in Layer(server, envs, u) && k !in Layer(server, envs, t) ==>
         k in base && base[k] == Layer(server, envs, u)[k]
    {
      forall earlier: seq<string> ensures Overlay(server, envs, base, earlier + [t]) == base + Layer(server, envs, t) {
        HistoryFreeIff(server, envs, base, earlier, t);
      }
    }
  }

  /** All answers of a server are free of history exactly when no target sets a key to anything but
      what the common environment is loaded with. */
  lemma HistoryFreeAlways(server: Server, envs: map<EnvMap, map<string, string>>, base: map<string, string>)
    ensures (forall t :: HistoryFree(server, envs, base, t)) <==>
            forall u, k :: k in Layer(server, envs, u) ==> k in base && base[k] == Layer(server, envs, u)[k]
  {
    assert Layer(server, envs, "") == map[];
    hide HistoryFree, Layer;
    if forall t :: HistoryFree(server, envs, base, t) {
      HistoryFreeFor(server, envs, base, "");
    }
    if forall u, k :: k in Layer(server, envs, u) ==> k in base && base[k] == Layer(server, envs, u)[k] {
      forall t ensures HistoryFree(server, envs, base, t) {
        HistoryFreeFor(server, envs, base, t);
      }
    }
  }

  lemma SumsAgree(a: map<string, string>, b: map<string, string>, c: map<string, string>)
    ensures a + c == b + c <==> forall k :: k !in c ==> (k in a <==> k in b) && (k in a ==> a[k] == b[k])
  {
    if a + c == b + c {
      forall k | k !in c ensures (k in a <==> k in b) && (k in a ==> a[k] == b[k]) {
        assert k in a <==> k in a + c;
        assert k in b <==> k in b + c;
        assert k in a ==> (a + c)[k] == a[k] && (b + c)[k] == b[k];
      }
    }
  }

  /** A layer is what the target's environment was loaded with, and empty for no target, an unknown or
      nil one, and one without an environment. */
  lemma LayerIs(server: Server, envs: map<EnvMap, map<string, string>>, target: string)
    ensures (target == "" || target !in server.targets || server.targets[target].None?) ==>
              Layer(server, envs, target) == map[]
    ensures target != "" && target in server.targets && server.targets[target].Some? ==>
              var e := server.targets[target].value.env;
              Layer(server, envs, target) == if e != null && e in envs then envs[e] else map[]
  {
  }

  // ----- the static tools -----

  /** The tools of the first server of the name that entry `i` has. */
  function ToolsOf(servers: seq<Option<Server>>, i: nat, target: string): seq<Tool>
    requires i < |servers| && servers[i].Some?
  {
    var j := IndexOf(servers, servers[i].value.name);
    if j < |servers| then DeclaredTools(servers[j].value, target) else []
  }

  lemma ToolsOfEntry(servers: seq<Option<Server>>, i: nat, target: string)
    requires i < |servers| && servers[i].Some? && !NilTarget(Meant(servers, i), target)
    ensures Effective(Meant(servers, i), target).tools == ToolsOf(servers, i, target)
  {
    IndexOfBound(servers, servers[i].value.name, i);
    EffectiveTools(Meant(servers, i), target);
  }

  /** Where an entry's tools begin among the static tools. */
  function StartOf(servers: seq<Option<Server>>, i: nat, target: string): nat
    requires i <= |servers| && forall j :: 0 <= j < i ==> servers[j].Some?
  {
    if i == 0 then 0 else StartOf(servers, i - 1, target) + |ToolsOf(servers, i - 1, target)|
  }

  lemma {:induction false} StaticToolsLength(servers: seq<Option<Server>>, n: nat, target: string)
    requires n <= |servers|
    requires forall j :: 0 <= j < n ==> servers[j].Some? && !NilTarget(Meant(servers, j), target)
    ensures |StaticTools(servers, n, target)| == StartOf(servers, n, target)
  {
    hide Effective, Meant, NilTarget, ToolsOf, IndexOf;
    if n > 0 {
      StaticToolsLength(servers, n - 1, target);
      ToolsOfEntry(servers, n - 1, target);
    }
  }

  /** The static tools are the tools of all entries, in the order of the registry and of each entry's
      list, each under its entry's name and with its description, and nothing else. */
  lemma {:induction false} StaticToolAt(servers: seq<Option<Server>>, n: nat, target: string, i: nat, k: nat)
    requires n <= |servers| && i < n
    requires forall j :: 0 <= j < n ==> servers[j].Some? && !NilTarget(Meant(servers, j), target)
    requires k < |ToolsOf(servers, i, target)|
    ensures |StaticTools(servers, n, target)| == StartOf(servers, n, target)
    ensures StartOf(servers, i, target) + k < StartOf(servers, n, target)
    ensures var tool := ToolsOf(servers, i, target)[k];
            StaticTools(servers, n, target)[StartOf(servers, i, target) + k]
              == Tool(servers[i].value.name + "__" + tool.name, tool.description)
  {
    hide Effective, Meant, NilTarget, ToolsOf, IndexOf;
    StaticToolsLength(servers, n, target);
    StaticToolsLength(servers, n - 1, target);
    ToolsOfEntry(servers, n - 1, target);
    if i < n - 1 {
      StaticToolAt(servers, n - 1, target, i, k);
    }
  }

  // ----- allow lists -----

  /** The target's allow list, or the common one where the target has none. */
  ghost predicate Allows(server: Server, target: string, tool: string) {
    if target != "" && target in server.targets && server.targets[target].Some?
       && server.targets[target].value.alwaysAllow != []
    then tool in server.targets[target].value.alwaysAllow
    else server.common.Some? && tool in server.common.value.alwaysAllow
  }

  ghost predicate ListedAsNil(server: Server, target: string) {
    target != "" && target in server.targets && server.targets[target].None?
  }

  /** `IsToolAlwaysAllowed`, which may be called without a registry: the server's own list first, then
      the merged one. */
  method IsToolAlwaysAllowed(r: Registry?, name: string, target: string, tool: string) returns (v: Verdict)
    requires r != null ==> r.Valid()
    modifies if r == null then {} else {r}
    modifies var e := if r == null then null else CommonEnv(r.servers, IndexOf(r.servers, name));
             if e == null then {} else {e}
    ensures r == null ==> v == NotAllowed
    ensures r != null ==> r.Valid() && r.servers == old(r.servers)
    ensures r != null ==> r.routing == old(r.routing) && r.envs == old(r.envs)
    ensures r != null ==>
              var i := IndexOf(r.servers, name);
              if i == |r.servers| then v == NotAllowed
              else
                var server := r.servers[i].value;
                && (v == NilDereference <==> tool !in server.alwaysAllow && ListedAsNil(server, target))
                && (v == Allowed <==>
                      || tool in server.alwaysAllow
                      || (!ListedAsNil(server, target) && Allows(server, target, tool)))
  {
    hide Effective, IndexOf, Registry.Valid;
    if r == null {
      return NotAllowed;
    }
    var i := r.GetServer(name);
    if i == |r.servers| {
      return NotAllowed;
    }
    var listed := Contains(r.servers[i].value.alwaysAllow, tool);
    if listed {
      return Allowed;
    }
    var spec := r.GetServerSpec(name, target);
    if spec.Panics? {
      return NilDereference;
    }
    listed := Contains(spec.spec.alwaysAllow, tool);
    return if listed then Allowed else NotAllowed;
  }

  // ----- a caller that can tell -----

  const PLAIN := EMPTY.(command := "run")

  /** A registry of one server with a common environment and two targets, one of which sets a key. */
  method TwoTargets() returns (r: Registry)
    ensures fresh(r) && r.Valid() && r.requests == []
    ensures CommonEnv(r.servers, 0) != null && fresh(CommonEnv(r.servers, 0))
    ensures |r.servers| == 1 && r.servers[0].Some? && r.servers[0].value.name == "s"
    ensures var server := r.servers[0].value; var c := CommonEnv(r.servers, 0);
            && !NilTarget(server, "a") && !NilTarget(server, "b") && c in r.envs && r.envs[c] == map[]
            && Layer(server, r.envs, "a") == map["k" := "1"] && Layer(server, r.envs, "b") == map[]
  {
    var common := new EnvMap();
    var forA := new EnvMap();
    forA.m := map["k" := "1"];
    var server := Server("s", [], [], Some(PLAIN.(env := common)),
                         map["a" := Some(PLAIN.(env := forA)), "b" := Some(PLAIN)]);
    r := new Registry([Some(server)], [], map[common := map[], forA := map["k" := "1"]]);
  }

  /** What target `b` gets, if target `a` was asked for before and if not. */
  method AnswerForB(askedBefore: bool) returns (env: map<string, string>)
    ensures env == if askedBefore then map["k" := "1"] else map[]
  {
    hide MergeRest, Effective;
    var r := TwoTargets();
    if askedBefore {
      var _ := r.GetServerSpec("s", "a");
    }
    var spec := r.GetServerSpec("s", "b");
    assert Asked(r.requests, 0) == if askedBefore then ["a", "b"] else ["b"] by {
      Asks(askedBefore);
    }
    env := spec.spec.env.m;
  }

  lemma Asks(askedBefore: bool)
    ensures var requests := if askedBefore then [(0, "a"), (0, "b")] else [(0, "b")];
            Asked(requests, 0) == if askedBefore then ["a", "b"] else ["b"]
  {
    AskedMore([], 0, if askedBefore then "a" else "b");
    AskedMore([(0, "a")], 0, "b");
    assert [] + [(0, "a")] == [(0, "a")] && [] + [(0, "b")] == [(0, "b")];
    assert [(0, "a")] + [(0, "b")] == [(0, "a"), (0, "b")];
  }
}
