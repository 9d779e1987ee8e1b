/** Tool names of the form server__tool: made by the registry (pkg/registry/registry.go), split by
    the profiles (pkg/profiles/profiles.go) and matched by the router (pkg/router/router.go). */
module ToolNames {
  import opened Registry
  import opened Resolver
  import opened Strings

  const SEPARATOR := "__"

  predicate SeparatorAt(s: string, i: nat)
    ensures SeparatorAt(s, i) <==> i + 1 < |s| && s[i] == '_' && s[i+1] == '_'
  {
    OccursAt(s, SEPARATOR, i)
  }

  /** Index of the first separator, or -1. */
  function SeparatorIndex(s: string): (i: int)
    ensures -1 <= i < |s|
    ensures i >= 0 ==> SeparatorAt(s, i)
    ensures forall j: nat :: (i < 0 || j < i) ==> !SeparatorAt(s, j)
  {
    Find(s, SEPARATOR)
  }

  /** `extractServerName`. */
  function ServerOf(tool: string): string {
    if SeparatorIndex(tool) < 0 then "" else tool[..SeparatorIndex(tool)]
  }

  /** The name without its server, as `getToolPriority` takes it. */
  function BaseOf(tool: string): Option<string> {
    if SeparatorIndex(tool) < 0 then None else Some(tool[SeparatorIndex(tool) + 2..])
  }

  ghost predicate Underscores(s: string, j: nat)
    requires j < |s|
  {
    s[j] == '_' && j + 1 < |s| && s[j+1] == '_'
  }

  /** The parts before and behind the first separator. */
  ghost predicate SplitsInto(s: string, server: string, base: string) {
    s == server + "__" + base && forall j :: 0 <= j < |server| ==> !Underscores(s, j)
  }

  /** A tool name is split at its first separator, and one without any has neither part. */
  lemma SplitMeaning(tool: string)
    ensures forall server, base ::
              SplitsInto(tool, server, base) <==> ServerOf(tool) == server && BaseOf(tool) == Some(base)
    ensures BaseOf(tool) == None <==> forall j :: 0 <= j < |tool| ==> !Underscores(tool, j)
    ensures BaseOf(tool) == None ==> ServerOf(tool) == ""
  {
    hide OccursAt, Find, SeparatorIndex;
    var i := SeparatorIndex(tool);
    forall j: nat | j < |tool| ensures SeparatorAt(tool, j) <==> Underscores(tool, j) {
    }
    forall server, base | SplitsInto(tool, server, base) ensures i == |server| && tool[i+2..] == base {
      Joined(server, base);
      assert Underscores(tool, |server|);
    }
    if i >= 0 {
      assert tool == tool[..i] + "__" + tool[i+2..] by {
        assert tool[i..i+2] == "__";
      }
    }
  }

  /** The server names that a prefix can carry: without a separator and not ending in half of one. */
  ghost predicate Clean(server: string) {
    (forall i: nat :: !SeparatorAt(server, i)) && (server == "" || server[|server|-1] != '_')
  }

  lemma Joined(server: string, tool: string)
    ensures var s := server + "__" + tool; var n := |server|;
            && |s| == n + 2 + |tool| && s[..n] == server && s[n] == '_' && s[n+1] == '_' && s[n+2..] == tool
            && forall j :: 0 <= j < n ==> s[j] == server[j]
  {
  }

  lemma CleanSplits(server: string, tool: string)
    requires Clean(server)
    ensures SeparatorIndex(server + "__" + tool) == |server|
  {
    hide OccursAt, Find;
    var s := server + "__" + tool;
    Joined(server, tool);
    forall j: nat | j < |server| ensures !SeparatorAt(s, j) {
      assert !SeparatorAt(server, j);
    }
    assert SeparatorAt(s, |server|);
  }

  lemma SplitsClean(server: string, tool: string)
    requires SeparatorIndex(server + "__" + tool) == |server|
    ensures Clean(server)
  {
    hide OccursAt, Find;
    var s := server + "__" + tool;
    Joined(server, tool);
    forall j: nat ensures !SeparatorAt(server, j) {
      assert j < |server| ==> !SeparatorAt(s, j);
    }
    if server != "" {
      assert !SeparatorAt(s, |server| - 1);
    }
  }

  /** Splitting a namespaced name gives its server back exactly when the server's name is clean. */
  lemma NamingRoundTrip(server: string, tool: string)
    ensures ServerOf(server + "__" + tool) == server <==> Clean(server)
    ensures Clean(server) ==> BaseOf(server + "__" + tool) == Some(tool)
  {
    hide OccursAt, Find, SeparatorIndex, Clean;
    var s := server + "__" + tool;
    Joined(server, tool);
    assert SeparatorAt(s, |server|);
    var i := SeparatorIndex(s);
    assert 0 <= i <= |server| && |s[..i]| == i;
    if Clean(server) {
      CleanSplits(server, tool);
    }
    if i == |server| {
      SplitsClean(server, tool);
    }
  }

  /** For a clean name, the router's prefix test and the profiles' splitting say the same. */
  lemma PrefixIffServer(server: string, tool: string)
    requires Clean(server)
    ensures server + "__" <= tool <==> SeparatorIndex(tool) >= 0 && ServerOf(tool) == server
  {
    if server + "__" <= tool {
      var rest := tool[|server| + 2..];
      assert tool == server + "__" + rest;
      NamingRoundTrip(server, rest);
    }
    var i := SeparatorIndex(tool);
    if i >= 0 && ServerOf(tool) == server {
      assert tool[i..i+2] == "__";
      assert tool[..i+2] == server + "__";
    }
  }

  /** No tool name has the prefix of two clean servers. */
  lemma OnePrefix(a: string, b: string, tool: string)
    requires Clean(a) && Clean(b) && a + "__" <= tool && b + "__" <= tool
    ensures a == b
  {
    PrefixIffServer(a, tool);
    PrefixIffServer(b, tool);
  }

  /** Two names are enough for a tool with both prefixes, once one of them is not clean. */
  lemma TwoPrefixes()
    ensures !Clean("a_") && "a" + "__" <= "a___b" && "a_" + "__" <= "a___b"
    ensures ServerOf("a_" + "__" + "b") == "a"
  {
    assert "a_"[1] == '_';
    NamingRoundTrip("a", "_b");
    assert "a_" + "__" + "b" == "a" + "__" + "_b" == "a___b";
    assert "a___b"[..3] == "a" + "__" && "a___b"[..4] == "a_" + "__";
  }

  ghost predicate Shared(a: string, b: string, tool: string) {
    a + "__" <= tool && b + "__" <= tool
  }

  /** Two servers can have a tool name in common exactly when the prefix of one begins with the prefix
      of the other. */
  lemma SharedIff(a: string, b: string)
    ensures (exists tool :: Shared(a, b, tool)) <==> a + "__" <= b + "__" || b + "__" <= a + "__"
  {
    var p, q := a + "__", b + "__";
    if tool :| Shared(a, b, tool) {
      assert p == tool[..|p|] && q == tool[..|q|];
      if |p| <= |q| {
        assert tool[..|q|][..|p|] == tool[..|p|];
      } else {
        assert tool[..|p|][..|q|] == tool[..|q|];
      }
    }
    if p <= q {
      assert Shared(a, b, q);
    }
    if q <= p {
      assert Shared(a, b, p);
    }
  }

  // ----- the router's second layer on a registry of clean names -----

  ghost predicate Named(servers: seq<Option<Server>>, name: string) {
    exists i :: 0 <= i < |servers| && servers[i].Some? && servers[i].value.name == name
  }

  ghost predicate CleanNames(servers: seq<Option<Server>>) {
    forall i :: 0 <= i < |servers| && servers[i].Some? ==> Clean(servers[i].value.name)
  }

  /** No allow list names the tool, and the profile is no target that is nil. */
  ghost predicate OnlyPrefixes(servers: seq<Option<Server>>, profile: string, tool: string) {
    forall i :: 0 <= i < |servers| && servers[i].Some? ==>
      !NilTarget(Meant(servers, i), profile) && tool !in Effective(Meant(servers, i), profile).alwaysAllow
  }

  /** Which server claims a tool by prefix is what the profiles would say, for every order of the servers. */
  lemma ClaimIsServerOf(servers: seq<Option<Server>>, profile: string, tool: string)
    requires CleanNames(servers) && OnlyPrefixes(servers, profile, tool)
    ensures FirstClaim(servers, 0, profile, tool)
         == if SeparatorIndex(tool) >= 0 && Named(servers, ServerOf(tool)) then Claimed(ServerOf(tool)) else NoClaim
  {
    hide Effective, NilTarget, Meant, Clean, ServerOf;
    FirstClaimIsFirst(servers, 0, profile, tool);
    forall i | 0 <= i < |servers| && servers[i].Some?
      ensures ClaimAt(servers, i, profile, tool)
           == if SeparatorIndex(tool) >= 0 && ServerOf(tool) == servers[i].value.name then Claimed(ServerOf(tool))
              else NoClaim
    {
      PrefixIffServer(servers[i].value.name, tool);
    }
    if SeparatorIndex(tool) >= 0 && Named(servers, ServerOf(tool)) {
      var i :| 0 <= i < |servers| && servers[i].Some? && servers[i].value.name == ServerOf(tool);
      assert ClaimAt(servers, i, profile, tool) != NoClaim;
    }
  }

  /** Every static tool that the registry names after a clean server is resolved to that server and
      kept or dropped with it by the profiles, unless a routing rule decides first. */
  lemma StaticToolsComeHome(servers: seq<Option<Server>>, i: nat, tool: Tool, profile: string,
                            routing: seq<Option<Rule>>, index: map<string, seq<string>>, args: map<string, Arg>)
    requires i < |servers| && servers[i].Some? && CleanNames(servers)
    requires tool in Namespaced(servers[i].value.name, Effective(Meant(servers, i), profile).tools)
    requires OnlyPrefixes(servers, profile, tool.name) && FirstRule(routing, tool.name, args) == None
    ensures ServerOf(tool.name) == servers[i].value.name
    ensures Resolve(servers, routing, index, profile, tool.name, args) == Name(servers[i].value.name)
  {
    hide OnlyPrefixes, Clean, ServerOf, FirstRule, Effective, Meant;
    var name := servers[i].value.name;
    var declared := Effective(Meant(servers, i), profile).tools;
    var k :| 0 <= k < |declared| && Namespaced(name, declared)[k] == tool;
    NamingRoundTrip(name, declared[k].name);
    var rest := declared[k].name;
    assert name + "__" + rest == tool.name;
    assert name + "__" <= tool.name;
    PrefixIffServer(name, tool.name);
    ClaimIsServerOf(servers, profile, tool.name);
    assert Named(servers, name);
  }
}
