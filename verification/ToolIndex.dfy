/** The tool index of pkg/router/router.go against the registry it speeds up. */
module ToolIndex {
  import opened MapFolds
  import opened Registry

  type Index = map<string, seq<string>>

  function Lookup(index: Index, tool: string): seq<string> {
    if tool in index then index[tool] else []
  }

  // ----- the registry's side -----

  predicate Lists(tools: seq<Tool>, tool: string) {
    exists i :: 0 <= i < |tools| && tools[i].name == tool
  }

  predicate InTargets(server: Server, tool: string) {
    exists t :: t in server.targets && server.targets[t].Some? && Lists(server.targets[t].value.tools, tool)
  }

  /** The server declares the tool in its common spec or for some target. */
  predicate Declares(server: Server, tool: string) {
    Lists(Common(server).tools, tool) || InTargets(server, tool)
  }

  /** A server declares a tool by an entry of that name in the list of its common spec or of a target. */
  lemma DeclaresIff(server: Server, tool: string)
    ensures Declares(server, tool) <==>
            || (server.common.Some?
                  && exists i :: 0 <= i < |server.common.value.tools| && server.common.value.tools[i].name == tool)
            || exists t, i ::
                 && t in server.targets && server.targets[t].Some?
                 && 0 <= i < |server.targets[t].value.tools| && server.targets[t].value.tools[i].name == tool
  {
  }

  function AddName(names: seq<string>, name: string): seq<string> {
    if name in names then names else names + [name]
  }

  /** The servers that declare a tool, each once, in registry order. */
  function Providers(servers: seq<Option<Server>>, tool: string): seq<string> {
    if servers == [] then []
    else
      var before := Providers(servers[..|servers|-1], tool);
      var last := servers[|servers|-1];
      if last.Some? && Declares(last.value, tool) then AddName(before, last.value.name) else before
  }

  predicate DeclaredAt(servers: seq<Option<Server>>, i: nat, tool: string, name: string) {
    i < |servers| && servers[i].Some? && servers[i].value.name == name && Declares(servers[i].value, tool)
  }

  predicate Distinct(names: seq<string>) {
    forall i, j :: 0 <= i < j < |names| ==> names[i] != names[j]
  }

  /** `Providers` in its own terms: it names every server that declares the tool, no other, and none twice. */
  lemma {:induction false} ProvidersExactly(servers: seq<Option<Server>>, tool: string)
    ensures var names := Providers(servers, tool);
            && Distinct(names)
            && (forall name :: name in names <==> exists i: nat :: DeclaredAt(servers, i, tool, name))
  {
    if servers != [] {
      var rest := servers[..|servers|-1];
      ProvidersExactly(rest, tool);
      forall name ensures name in Providers(servers, tool) <==> exists i: nat :: DeclaredAt(servers, i, tool, name) {
        if name in Providers(rest, tool) {
          var i: nat :| DeclaredAt(rest, i, tool, name);
          assert DeclaredAt(servers, i, tool, name);
        }
        if i: nat :| DeclaredAt(servers, i, tool, name) && i < |rest| {
          assert DeclaredAt(rest, i, tool, name);
        }
        var n := |servers| - 1;
        assert name in Providers(servers, tool) && name !in Providers(rest, tool) ==>
                 DeclaredAt(servers, n, tool, name);
      }
    }
  }

  /** First server that declares `tool` under this name. */
  function FirstAt(servers: seq<Option<Server>>, tool: string, name: string): (i: nat)
    ensures i <= |servers|
    ensures i < |servers| ==> DeclaredAt(servers, i, tool, name)
    ensures forall j :: 0 <= j < i ==> !DeclaredAt(servers, j, tool, name)
    decreases |servers|
  {
    if servers == [] then 0
    else
      var rest := servers[..|servers|-1];
      var i := FirstAt(rest, tool, name);
      assert forall j :: 0 <= j < |rest| ==> DeclaredAt(rest, j, tool, name) == DeclaredAt(servers, j, tool, name);
      if i < |rest| then i
      else if DeclaredAt(servers, |rest|, tool, name) then |rest| else |servers|
  }

  /** The names stand in the order in which the registry first declares the tool under them. */
  lemma {:induction false} ProvidersInOrder(servers: seq<Option<Server>>, tool: string, a: nat, b: nat)
    requires a < b < |Providers(servers, tool)|
    ensures var names := Providers(servers, tool);
            FirstAt(servers, tool, names[a]) < FirstAt(servers, tool, names[b]) < |servers|
  {
    var rest := servers[..|servers|-1];
    ProvidersExactly(servers, tool);
    ProvidersExactly(rest, tool);
    var names := Providers(servers, tool);
    hide FirstAt, DeclaredAt, Distinct;
    FirstAtGrows(servers, tool, names[a]);
    FirstAtGrows(servers, tool, names[b]);
    var before := Providers(rest, tool);
    assert names == before || names == before + [names[|names|-1]];
    assert names[a] == before[a] && names[a] in before;
    hide Providers;
    if b < |before| {
      ProvidersInOrder(rest, tool, a, b);
    } else {
      assert names[b] !in before;
    }
  }

  lemma FirstAtGrows(servers: seq<Option<Server>>, tool: string, name: string)
    requires servers != []
    ensures var rest := servers[..|servers|-1];
            && (name in Providers(rest, tool) ==> FirstAt(servers, tool, name) == FirstAt(rest, tool, name) < |rest|)
            && (name !in Providers(rest, tool) ==> FirstAt(servers, tool, name) >= |rest|)
            && (name in Providers(servers, tool) ==> FirstAt(servers, tool, name) < |servers|)
  {
    var rest := servers[..|servers|-1];
    ProvidersExactly(rest, tool);
    ProvidersExactly(servers, tool);
  }

  /** A list after further calls of AddToolToIndex for its tool. */
  function AddedAll(names: seq<string>, added: seq<string>): seq<string> {
    if added == [] then names else AddName(AddedAll(names, added[..|added|-1]), added[|added|-1])
  }

  /** Whatever is added to a built index, no list ever names a server twice, the built part stays in
      front, and exactly the servers that were added join it. */
  lemma {:induction false} StaysDistinct(servers: seq<Option<Server>>, tool: string, added: seq<string>)
    ensures var names, all := Providers(servers, tool), AddedAll(Providers(servers, tool), added);
            Distinct(all) && names <= all && forall x :: x in all <==> x in names || x in added
  {
    if added == [] {
      ProvidersExactly(servers, tool);
    } else {
      var rest, last := added[..|added|-1], added[|added|-1];
      StaysDistinct(servers, tool, rest);
      assert added == rest + [last];
    }
  }

  // ----- what SetRegistry builds instead -----

  /** How often a list names a tool. */
  function Mentions(tools: seq<Tool>, tool: string): nat {
    if tools == [] then 0
    else Mentions(tools[..|tools|-1], tool) + (if tools[|tools|-1].name == tool then 1 else 0)
  }

  /** Mentions per target. */
  function PerTarget(server: Server, tool: string): map<string, int> {
    map t | t in server.targets :: if server.targets[t].Some? then Mentions(server.targets[t].value.tools, tool) else 0
  }

  /** How often the targets of a server name a tool. */
  ghost function InAllTargets(server: Server, tool: string): int {
    Sum(PerTarget(server, tool))
  }

  function Repeat(name: string, n: int): (r: seq<string>)
    ensures |r| == (if n < 0 then 0 else n) && forall x :: x in r ==> x == name
  {
    if n <= 0 then [] else Repeat(name, n - 1) + [name]
  }

  /** A server's name once for every mention of the tool among its targets. */
  ghost function Appended(servers: seq<Option<Server>>, tool: string): seq<string> {
    if servers == [] then []
    else
      var before := Appended(servers[..|servers|-1], tool);
      var last := servers[|servers|-1];
      if last.Some? then before + Repeat(last.value.name, InAllTargets(last.value, tool)) else before
  }

  ghost predicate OwnNames(servers: seq<Option<Server>>) {
    && (forall i :: 0 <= i < |servers| ==> servers[i].Some?)
    && (forall i, j :: 0 <= i < j < |servers| ==> servers[i].value.name != servers[j].value.name)
  }

  lemma {:induction false} RepeatCount(name: string, n: int, x: string)
    ensures multiset(Repeat(name, n))[x] == if x == name && n > 0 then n else 0
  {
    if n > 0 {
      RepeatCount(name, n - 1, x);
    }
  }

  /** With distinct names, each server's name stands in the list as often as its targets say. */
  lemma {:induction false} AppendedCount(servers: seq<Option<Server>>, tool: string, i: nat)
    requires OwnNames(servers) && i < |servers|
    ensures var n := InAllTargets(servers[i].value, tool);
            multiset(Appended(servers, tool))[servers[i].value.name] == if n > 0 then n else 0
  {
    var rest, last := servers[..|servers|-1], servers[|servers|-1].value;
    var name := servers[i].value.name;
    RepeatCount(last.name, InAllTargets(last, tool), name);
    if i < |rest| {
      AppendedCount(rest, tool, i);
    } else {
      AppendedNames(rest, tool, name);
    }
  }

  lemma {:induction false} AppendedNames(servers: seq<Option<Server>>, tool: string, name: string)
    requires forall j :: 0 <= j < |servers| ==> servers[j].Some? && servers[j].value.name != name
    ensures name !in Appended(servers, tool)
  {
    if servers != [] {
      AppendedNames(servers[..|servers|-1], tool, name);
    }
  }

  lemma {:induction false} DistinctCount(names: seq<string>, x: string)
    requires Distinct(names)
    ensures multiset(names)[x] == if x in names then 1 else 0
  {
    if names != [] {
      var rest := names[..|names|-1];
      DistinctCount(rest, x);
      assert names == rest + [names[|names|-1]];
    }
  }

  lemma {:induction false} SumNonNegative(m: map<string, int>)
    requires forall k :: k in m ==> m[k] >= 0
    ensures Sum(m) >= 0
    decreases |m|
  {
    if m != map[] {
      var k :| k in m && Sum(m) == m[k] + Sum(m - {k});
      SumNonNegative(m - {k});
    }
  }

  lemma TargetsCount(server: Server, tool: string)
    ensures InAllTargets(server, tool) >= 0
  {
    SumNonNegative(PerTarget(server, tool));
  }

  lemma {:induction false} AppendedOnce(servers: seq<Option<Server>>, tool: string)
    requires OwnNames(servers)
    requires forall i :: 0 <= i < |servers| ==>
               InAllTargets(servers[i].value, tool) == if Declares(servers[i].value, tool) then 1 else 0
    ensures Appended(servers, tool) == Providers(servers, tool)
  {
    if servers != [] {
      var rest, last := servers[..|servers|-1], servers[|servers|-1].value;
      AppendedOnce(rest, tool);
      ProvidersExactly(rest, tool);
      assert Repeat(last.name, 1) == Repeat(last.name, 0) + [last.name];
      assert last.name !in Providers(rest, tool);
    }
  }

  /** For distinct names and no nil entries, `SetRegistry` lists for a tool what `BuildToolIndex`
      lists, exactly when every server that declares it does so once among its targets. */
  lemma SameListIff(servers: seq<Option<Server>>, tool: string)
    requires OwnNames(servers)
    ensures Appended(servers, tool) == Providers(servers, tool) <==>
            forall i :: 0 <= i < |servers| ==>
              InAllTargets(servers[i].value, tool) == if Declares(servers[i].value, tool) then 1 else 0
  {
    hide Appended, Providers, InAllTargets, Declares, Distinct;
    if Appended(servers, tool) == Providers(servers, tool) {
      ProvidersExactly(servers, tool);
      forall i | 0 <= i < |servers|
        ensures InAllTargets(servers[i].value, tool) == if Declares(servers[i].value, tool) then 1 else 0
      {
        var s := servers[i].value;
        AppendedCount(servers, tool, i);
        DistinctCount(Providers(servers, tool), s.name);
        TargetsCount(s, tool);
        assert DeclaredAt(servers, i, tool, s.name) <==> Declares(s, tool);
        assert s.name in Providers(servers, tool) <==> Declares(s, tool);
      }
    } else if forall i :: 0 <= i < |servers| ==>
                InAllTargets(servers[i].value, tool) == if Declares(servers[i].value, tool) then 1 else 0 {
      AppendedOnce(servers, tool);
    }
  }

  /** How often the targets of all servers name a tool. */
  ghost function AllMentions(servers: seq<Option<Server>>, tool: string): (n: int)
    ensures n >= 0
  {
    if servers == [] then 0
    else
      var last := servers[|servers|-1];
      var before := AllMentions(servers[..|servers|-1], tool);
      if last.Some? then TargetsCount(last.value, tool); before + InAllTargets(last.value, tool) else before
  }

  lemma {:induction false} AppendedLength(servers: seq<Option<Server>>, tool: string)
    ensures |Appended(servers, tool)| == AllMentions(servers, tool)
  {
    if servers != [] {
      AppendedLength(servers[..|servers|-1], tool);
      if servers[|servers|-1].Some? {
        TargetsCount(servers[|servers|-1].value, tool);
      }
    }
  }

  /** The entries of one name. */
  ghost function Places(tools: seq<Tool>, tool: string): set<int> {
    set i | 0 <= i < |tools| && tools[i].name == tool
  }

  lemma PlacesGrow(tools: seq<Tool>, last: Tool, tool: string)
    ensures |Places(tools + [last], tool)| == |Places(tools, tool)| + if last.name == tool then 1 else 0
  {
    var before, n := Places(tools, tool), |tools|;
    if last.name == tool {
      assert Places(tools + [last], tool) == before + {n};
    } else {
      assert Places(tools + [last], tool) == before;
    }
  }

  /** Mentions are counted entry by entry. */
  lemma {:induction false} MentionsCount(tools: seq<Tool>, tool: string)
    ensures Mentions(tools, tool) == |Places(tools, tool)|
  {
    hide Places;
    if tools == [] {
      NoPlaces(tool);
    } else {
      var n := |tools| - 1;
      MentionsCount(tools[..n], tool);
      PlacesGrow(tools[..n], tools[n], tool);
      assert tools == tools[..n] + [tools[n]];
    }
  }

  lemma NoPlaces(tool: string)
    ensures Places([], tool) == {}
  {
  }

  /** The names stand in the order of the registry, each once per mention among the server's targets. */
  lemma {:induction false} AppendedAt(servers: seq<Option<Server>>, tool: string, i: nat, k: nat)
    requires i < |servers| && servers[i].Some? && k < InAllTargets(servers[i].value, tool)
    ensures AllMentions(servers[..i], tool) + k < |Appended(servers, tool)|
    ensures Appended(servers, tool)[AllMentions(servers[..i], tool) + k] == servers[i].value.name
    decreases |servers|
  {
    hide InAllTargets;
    var n := |servers| - 1;
    var rest := servers[..n];
    AppendedLength(rest, tool);
    AppendedLength(servers, tool);
    if i < n {
      AppendedAt(rest, tool, i, k);
      assert rest[..i] == servers[..i];
    } else {
      assert rest == servers[..i];
      var names := Repeat(servers[n].value.name, InAllTargets(servers[n].value, tool));
      assert names[k] in names;
    }
  }

  // ----- where the two builds differ -----

  /** One server, "s", and one tool, "t", in its common spec or for its targets "a" and "b". */
  function OneServer(inCommon: bool): seq<Option<Server>> {
    var spec := EMPTY.(tools := [Tool("t", "")]);
    [Some(if inCommon then Server("s", [], [], Some(spec), map[])
          else Server("s", [], [], None, map["a" := Some(spec), "b" := Some(spec)]))]
  }

  lemma BuildsDiffer()
    ensures Providers(OneServer(false), "t") == ["s"] && Appended(OneServer(false), "t") == ["s", "s"]
    ensures Providers(OneServer(true), "t") == ["s"] && Appended(OneServer(true), "t") == []
  {
    var twice, common := OneServer(false)[0].value, OneServer(true)[0].value;
    var tools := [Tool("t", "")];
    assert Mentions(tools, "t") == 1 && Lists(tools, "t") by {
      assert tools[0].name == "t" && tools[..0] == [];
    }
    assert Declares(twice, "t") by {
      assert InTargets(twice, "t") by { assert "a" in twice.targets && twice.targets["a"].value.tools == tools; }
    }
    assert Declares(common, "t");
    TwoTargetsCount(twice, tools);
    assert PerTarget(common, "t") == map[];
    assert OneServer(false)[..0] == [] && OneServer(true)[..0] == [];
    assert Repeat("s", 2) == Repeat("s", 1) + ["s"] && Repeat("s", 1) == Repeat("s", 0) + ["s"];
  }

  lemma TwoTargetsCount(server: Server, tools: seq<Tool>)
    requires server.targets.Keys == {"a", "b"} && Mentions(tools, "t") == 1
    requires forall t :: t in server.targets ==> server.targets[t].Some? && server.targets[t].value.tools == tools
    ensures InAllTargets(server, "t") == 2
  {
    var counts := PerTarget(server, "t");
    assert counts == map["a" := 1]["b" := 1];
    SumUpdate(map[], "a", 1);
    assert map[]["a" := 1] == map["a" := 1];
    SumUpdate(map["a" := 1], "b", 1);
  }
}
