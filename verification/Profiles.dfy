/** pkg/profiles/profiles.go: choosing, ranking and cutting off the tools of a profile. */
module Profiles {
  import opened MapFolds
  import opened Registry
  import opened ToolNames

  datatype McpTool = McpTool(name: string, definition: string)

  datatype Profile = Profile(servers: seq<string>, maxTools: int, priorities: map<string, int>)

  datatype FilterResult = FilterResult(
    tools: seq<McpTool>,
    profile: string,
    totalBefore: nat,
    totalAfter: nat,
    truncated: bool)

  /** `getToolPriority`: by the full name, then by the name without its server. */
  function Priority(name: string, priorities: map<string, int>): int {
    if name in priorities then priorities[name]
    else if BaseOf(name).Some? && BaseOf(name).value in priorities then priorities[BaseOf(name).value]
    else 0
  }

  /** The full name comes before the base name, which is what stands behind the first separator. */
  lemma PriorityIs(name: string, priorities: map<string, int>)
    ensures name in priorities ==> Priority(name, priorities) == priorities[name]
    ensures name !in priorities ==> forall server, base ::
              SplitsInto(name, server, base) && base in priorities ==> Priority(name, priorities) == priorities[base]
    ensures name !in priorities && (forall server, base :: SplitsInto(name, server, base) ==> base !in priorities) ==>
              Priority(name, priorities) == 0
  {
    hide SplitsInto, ServerOf, BaseOf;
    SplitMeaning(name);
    if BaseOf(name).Some? {
      assert SplitsInto(name, ServerOf(name), BaseOf(name).value);
    }
  }

  function Rank(tool: McpTool, priorities: map<string, int>): int {
    Priority(tool.name, priorities)
  }

  // ----- the one stable arrangement -----

  /** The tools of one rank, in order. */
  function Level(tools: seq<McpTool>, priorities: map<string, int>, rank: int): seq<McpTool> {
    if tools == [] then []
    else (if Rank(tools[0], priorities) == rank then [tools[0]] else []) + Level(tools[1..], priorities, rank)
  }

  ghost predicate SameLevels(a: seq<McpTool>, b: seq<McpTool>, priorities: map<string, int>) {
    forall rank :: Level(a, priorities, rank) == Level(b, priorities, rank)
  }

  ghost predicate Descending(tools: seq<McpTool>, priorities: map<string, int>) {
    forall i, j :: 0 <= i < j < |tools| ==> Rank(tools[i], priorities) >= Rank(tools[j], priorities)
  }

  /** Behind everything that ranks as high. */
  function Insert(tool: McpTool, tools: seq<McpTool>, priorities: map<string, int>): (r: seq<McpTool>)
    ensures |r| == |tools| + 1
  {
    if tools == [] || Rank(tool, priorities) >= Rank(tools[0], priorities) then [tool] + tools
    else [tools[0]] + Insert(tool, tools[1..], priorities)
  }

  /** Reference: the tools by descending rank, and in their old order within a rank. */
  function Ranked(tools: seq<McpTool>, priorities: map<string, int>): (r: seq<McpTool>)
    ensures |r| == |tools|
  {
    if tools == [] then [] else Insert(tools[0], Ranked(tools[1..], priorities), priorities)
  }

  lemma {:induction false} LevelOfSum(a: seq<McpTool>, b: seq<McpTool>, priorities: map<string, int>, rank: int)
    ensures Level(a + b, priorities, rank) == Level(a, priorities, rank) + Level(b, priorities, rank)
  {
    hide Rank;
    if a == [] {
      assert a + b == b;
    } else {
      var first := if Rank(a[0], priorities) == rank then [a[0]] else [];
      calc {
        Level(a + b, priorities, rank);
        { assert (a + b)[1..] == a[1..] + b; }
        first + Level(a[1..] + b, priorities, rank);
        { LevelOfSum(a[1..], b, priorities, rank); }
        first + (Level(a[1..], priorities, rank) + Level(b, priorities, rank));
        (first + Level(a[1..], priorities, rank)) + Level(b, priorities, rank);
        Level(a, priorities, rank) + Level(b, priorities, rank);
      }
    }
  }

  /** Levels follow the list tool by tool. */
  lemma LevelOfOne(tool: McpTool, priorities: map<string, int>, rank: int)
    ensures Level([tool], priorities, rank) == if Priority(tool.name, priorities) == rank then [tool] else []
  {
  }

  /** Exchanging neighbours of different rank changes no level. */
  lemma SwapKeepsLevels(a: seq<McpTool>, j: nat, priorities: map<string, int>)
    requires j + 1 < |a| && Rank(a[j], priorities) != Rank(a[j+1], priorities)
    ensures SameLevels(a[j := a[j+1]][j + 1 := a[j]], a, priorities)
  {
    var b := a[j := a[j+1]][j + 1 := a[j]];
    forall rank ensures Level(b, priorities, rank) == Level(a, priorities, rank) {
      assert a == a[..j] + ([a[j], a[j+1]] + a[j+2..]);
      assert b == a[..j] + ([a[j+1], a[j]] + a[j+2..]);
      LevelOfSum(a[..j], [a[j], a[j+1]] + a[j+2..], priorities, rank);
      LevelOfSum(a[..j], [a[j+1], a[j]] + a[j+2..], priorities, rank);
      LevelOfSum([a[j], a[j+1]], a[j+2..], priorities, rank);
      LevelOfSum([a[j+1], a[j]], a[j+2..], priorities, rank);
      PairLevel(a[j], a[j+1], priorities, rank);
    }
  }

  lemma PairLevel(x: McpTool, y: McpTool, priorities: map<string, int>, rank: int)
    requires Rank(x, priorities) != Rank(y, priorities)
    ensures Level([x, y], priorities, rank) == Level([y, x], priorities, rank)
  {
    assert [x, y][1..] == [y] && [y, x][1..] == [x];
  }

  lemma {:induction false} LevelMembers(tools: seq<McpTool>, priorities: map<string, int>, tool: McpTool)
    ensures multiset(Level(tools, priorities, Rank(tool, priorities)))[tool] == multiset(tools)[tool]
  {
    if tools != [] {
      assert tools == [tools[0]] + tools[1..];
      LevelMembers(tools[1..], priorities, tool);
    }
  }

  /** The same levels: a permutation. */
  lemma LevelsPermute(a: seq<McpTool>, b: seq<McpTool>, priorities: map<string, int>)
    requires SameLevels(a, b, priorities)
    ensures multiset(a) == multiset(b)
  {
    forall tool ensures multiset(a)[tool] == multiset(b)[tool] {
      LevelMembers(a, priorities, tool);
      LevelMembers(b, priorities, tool);
    }
  }

  /** There is only one arrangement that is descending and stable. */
  lemma {:induction false} OneArrangement(a: seq<McpTool>, b: seq<McpTool>, priorities: map<string, int>)
    requires SameLevels(a, b, priorities) && Descending(a, priorities) && Descending(b, priorities)
    ensures a == b
  {
    LevelsPermute(a, b, priorities);
    if a == [] {
      assert |multiset(a)| == |multiset(b)|;
    } else {
      assert a[0] in multiset(a) && a[0] in b;
      assert b[0] in multiset(b) && b[0] in a;
      var rank := Rank(a[0], priorities);
      assert Rank(b[0], priorities) == rank;
      assert Level(a, priorities, rank)[0] == a[0] && Level(b, priorities, rank)[0] == b[0];
      forall r ensures Level(a[1..], priorities, r) == Level(b[1..], priorities, r) {
        assert Level(a, priorities, r) == Level(b, priorities, r);
        assert Level(a, priorities, r)[if r == rank then 1 else 0..] == Level(a[1..], priorities, r);
        assert Level(b, priorities, r)[if r == rank then 1 else 0..] == Level(b[1..], priorities, r);
      }
      OneArrangement(a[1..], b[1..], priorities);
    }
  }

  lemma {:induction false} InsertKeepsLevels(tool: McpTool, tools: seq<McpTool>,
                                             priorities: map<string, int>, rank: int)
    ensures Level(Insert(tool, tools, priorities), priorities, rank) == Level([tool] + tools, priorities, rank)
  {
    hide Level, Rank;
    if tools != [] && Rank(tool, priorities) < Rank(tools[0], priorities) {
      var rest := tools[1..];
      InsertKeepsLevels(tool, rest, priorities, rank);
      LevelOfSum([tools[0]], Insert(tool, rest, priorities), priorities, rank);
      LevelOfSum([tools[0]], [tool] + rest, priorities, rank);
      assert [tools[0]] + ([tool] + rest) == [tools[0], tool] + rest;
      LevelOfSum([tools[0], tool], rest, priorities, rank);
      LevelOfSum([tool, tools[0]], rest, priorities, rank);
      assert [tool] + tools == [tool, tools[0]] + rest;
      PairLevel(tool, tools[0], priorities, rank);
    }
  }

  lemma DescendingAfter(tool: McpTool, tools: seq<McpTool>, priorities: map<string, int>)
    requires Descending(tools, priorities)
    requires forall t :: t in tools ==> Rank(tool, priorities) >= Rank(t, priorities)
    ensures Descending([tool] + tools, priorities)
  {
    hide Rank;
  }

  lemma {:induction false} InsertArranges(tool: McpTool, tools: seq<McpTool>, priorities: map<string, int>)
    requires Descending(tools, priorities)
    ensures Descending(Insert(tool, tools, priorities), priorities)
    ensures SameLevels(Insert(tool, tools, priorities), [tool] + tools, priorities)
  {
    hide Level, Rank;
    forall rank
      ensures Level(Insert(tool, tools, priorities), priorities, rank) == Level([tool] + tools, priorities, rank)
    {
      InsertKeepsLevels(tool, tools, priorities, rank);
    }
    if tools != [] && Rank(tool, priorities) < Rank(tools[0], priorities) {
      InsertArranges(tool, tools[1..], priorities);
      var inner := Insert(tool, tools[1..], priorities);
      LevelsPermute(inner, [tool] + tools[1..], priorities);
      forall t | t in inner ensures Rank(tools[0], priorities) >= Rank(t, priorities) {
        assert t in multiset(inner) && t in [tool] + tools[1..];
      }
      DescendingAfter(tools[0], inner, priorities);
    } else {
      DescendingAfter(tool, tools, priorities);
    }
  }

  /** The reference is that arrangement. */
  lemma {:induction false} RankedArranges(tools: seq<McpTool>, priorities: map<string, int>)
    ensures Descending(Ranked(tools, priorities), priorities)
    ensures SameLevels(Ranked(tools, priorities), tools, priorities)
  {
    if tools != [] {
      var rest := Ranked(tools[1..], priorities);
      RankedArranges(tools[1..], priorities);
      InsertArranges(tools[0], rest, priorities);
      assert tools == [tools[0]] + tools[1..];
      forall rank ensures Level(Ranked(tools, priorities), priorities, rank) == Level(tools, priorities, rank) {
        LevelOfSum([tools[0]], rest, priorities, rank);
        LevelOfSum([tools[0]], tools[1..], priorities, rank);
      }
    }
  }

  /** `sortByPriority`: a bubble sort in place. */
  method SortByPriority(tools: array<McpTool>, priorities: map<string, int>)
    modifies tools
    ensures tools[..] == Ranked(old(tools[..]), priorities)
  {
    hide Rank, Level;
    var n := tools.Length;
    var i := 0;
    while i < n - 1
      invariant 0 <= i && (n > 0 ==> i < n)
      invariant SameLevels(tools[..], old(tools[..]), priorities)
      invariant forall k, l :: 0 <= k < l < n && n - i <= l ==> Rank(tools[k], priorities) >= Rank(tools[l], priorities)
    {
      var j := 0;
      while j < n - i - 1
        invariant 0 <= j < n - i
        invariant SameLevels(tools[..], old(tools[..]), priorities)
        invariant forall k, l :: 0 <= k < l < n && n - i <= l ==>
                    Rank(tools[k], priorities) >= Rank(tools[l], priorities)
        invariant forall k :: 0 <= k <= j ==> Rank(tools[k], priorities) >= Rank(tools[j], priorities)
      {
        Compare(tools, j, priorities);
        j := j + 1;
      }
      i := i + 1;
    }
    RankedArranges(old(tools[..]), priorities);
    OneArrangement(tools[..], Ranked(old(tools[..]), priorities), priorities);
  }

  /** The body of the inner loop. */
  method Compare(tools: array<McpTool>, j: nat, priorities: map<string, int>)
    requires j + 1 < tools.Length
    modifies tools
    ensures SameLevels(tools[..], old(tools[..]), priorities)
    ensures Rank(tools[j], priorities) >= Rank(tools[j+1], priorities)
    ensures tools[..] == old(tools[..]) || (tools[j] == old(tools[j+1]) && tools[j+1] == old(tools[j]))
    ensures forall k :: 0 <= k < tools.Length && k != j && k != j + 1 ==> tools[k] == old(tools[k])
  {
    if Priority(tools[j].name, priorities) < Priority(tools[j+1].name, priorities) {
      ghost var was := tools[..];
      tools[j], tools[j+1] := tools[j+1], tools[j];
      SwapKeepsLevels(was, j, priorities);
      assert tools[..] == was[j := was[j+1]][j + 1 := was[j]];
    }
  }

  // ----- the filter -----

  /** The profile of this name, or "full".  A name may stand for no profile. */
  function Chosen(profiles: map<string, Option<Profile>>, name: string): (string, Option<Profile>) {
    if name in profiles && profiles[name].Some? then (name, profiles[name])
    else ("full", if "full" in profiles then profiles["full"] else None)
  }

  predicate Wildcard(profile: Profile) {
    |profile.servers| == 1 && profile.servers[0] == "*"
  }

  /** The tools whose server the profile names, in order. */
  function Included(tools: seq<McpTool>, servers: seq<string>): seq<McpTool> {
    if tools == [] then []
    else
      var before := Included(tools[..|tools|-1], servers);
      var last := tools[|tools|-1];
      if ServerOf(last.name) in servers then before + [last] else before
  }

  /** What a profile offers before its limit. */
  function Offered(tools: seq<McpTool>, profile: Profile): seq<McpTool> {
    if Wildcard(profile) then tools else Ranked(Included(tools, profile.servers), profile.priorities)
  }

  predicate OverLimit(tools: seq<McpTool>, profile: Profile) {
    0 < profile.maxTools < |Offered(tools, profile)|
  }

  function Kept(tools: seq<McpTool>, profile: Profile): seq<McpTool> {
    if OverLimit(tools, profile) then Offered(tools, profile)[..profile.maxTools] else Offered(tools, profile)
  }

  /** A list up to a positive limit, and what is reported about it. */
  ghost predicate CutTo(r: FilterResult, offered: seq<McpTool>, limit: int) {
    && r.tools <= offered
    && |r.tools| == (if 0 < limit < |offered| then limit else |offered|)
    && (r.truncated <==> |r.tools| < |offered|)
    && r.totalAfter == |r.tools|
  }

  /** The arrangement of a list: descending, and in the old order within each rank. */
  ghost predicate Arranges(a: seq<McpTool>, tools: seq<McpTool>, priorities: map<string, int>) {
    Descending(a, priorities) && SameLevels(a, tools, priorities)
  }

  /** What a profile answers: the tools as they come if it is for all servers, else the arrangement of
      the tools of its servers, and in each case the front of it. */
  ghost predicate Answers(r: FilterResult, tools: seq<McpTool>, profile: Profile) {
    && r.totalBefore == |tools|
    && if profile.servers == ["*"] then CutTo(r, tools, profile.maxTools)
       else
         var included := Included(tools, profile.servers);
         exists a :: Arranges(a, included, profile.priorities) && CutTo(r, a, profile.maxTools)
  }

  lemma KeptAnswers(r: FilterResult, tools: seq<McpTool>, profile: Profile)
    requires r.tools == Kept(tools, profile) && (r.truncated <==> OverLimit(tools, profile))
    requires r.totalBefore == |tools| && r.totalAfter == |r.tools|
    ensures Answers(r, tools, profile)
  {
    hide Ranked, Included, Descending, SameLevels;
    var included := Included(tools, profile.servers);
    RankedArranges(included, profile.priorities);
    assert Wildcard(profile) <==> profile.servers == ["*"];
    assert CutTo(r, Offered(tools, profile), profile.maxTools);
    assert Arranges(Ranked(included, profile.priorities), included, profile.priorities);
  }

  /** Included tools follow the list tool by tool. */
  lemma {:induction false} IncludedOfSum(a: seq<McpTool>, b: seq<McpTool>, servers: seq<string>)
    ensures Included(a + b, servers) == Included(a, servers) + Included(b, servers)
  {
    hide ServerOf;
    if b == [] {
      assert a + b == a;
    } else {
      assert (a + b)[..|a + b|-1] == a + b[..|b|-1];
      IncludedOfSum(a, b[..|b|-1], servers);
    }
  }

  lemma IncludedOfOne(tool: McpTool, servers: seq<string>)
    ensures Included([tool], servers) == if ServerOf(tool.name) in servers then [tool] else []
  {
    hide ServerOf;
    assert [tool][..0] == [];
  }

  /** `Filter`.  `None`: the source follows a nil profile. */
  method Filter(profiles: map<string, Option<Profile>>, tools: seq<McpTool>, name: string)
    returns (r: Option<FilterResult>)
    ensures r.None? <==> Chosen(profiles, name).1.None?
    ensures r.Some? ==> r.value.profile == Chosen(profiles, name).0
    ensures r.Some? ==> r.value.tools == Kept(tools, Chosen(profiles, name).1.value)
    ensures r.Some? ==> (r.value.truncated <==> OverLimit(tools, Chosen(profiles, name).1.value))
    ensures r.Some? ==> r.value.totalBefore == |tools| && r.value.totalAfter == |r.value.tools|
    ensures name in profiles && profiles[name].Some? ==>
              r.Some? && r.value.profile == name && Answers(r.value, tools, profiles[name].value)
    ensures !(name in profiles && profiles[name].Some?) ==>
              if "full" in profiles && profiles["full"].Some?
              then r.Some? && r.value.profile == "full" && Answers(r.value, tools, profiles["full"].value)
              else r.None?
  {
    hide Ranked, Included, Answers;
    var (profileName, found) := Chosen(profiles, name);
    if found.None? {
      return None;
    }
    var profile := found.value;
    if Wildcard(profile) {
      var cut := |tools| > profile.maxTools > 0;
      var kept := if cut then tools[..profile.maxTools] else tools;
      r := Some(FilterResult(kept, profileName, |tools|, |kept|, cut));
      KeptAnswers(r.value, tools, profile);
      return;
    }
    var filtered := Select(tools, profile.servers);
    if |profile.priorities| > 0 {
      var a := new McpTool[|filtered|](i requires 0 <= i < |filtered| => filtered[i]);
      assert a[..] == filtered;
      SortByPriority(a, profile.priorities);
      filtered := a[..];
    } else {
      RankedWithoutPriorities(filtered, profile.priorities);
    }
    var truncated := |filtered| > profile.maxTools > 0;
    if truncated {
      filtered := filtered[..profile.maxTools];
    }
    r := Some(FilterResult(filtered, profileName, |tools|, |filtered|, truncated));
    KeptAnswers(r.value, tools, profile);
  }

  /** The two loops over the servers and over the tools. */
  method Select(tools: seq<McpTool>, servers: seq<string>) returns (filtered: seq<McpTool>)
    ensures filtered == Included(tools, servers)
  {
    var serverSet := map[];
    for i := 0 to |servers|
      invariant forall s :: s in serverSet <==> s in servers[..i]
    {
      serverSet := serverSet[servers[i] := true];
    }
    assert servers[..|servers|] == servers;
    filtered := [];
    for i := 0 to |tools|
      invariant filtered == Included(tools[..i], servers)
    {
      assert tools[..i+1][..i] == tools[..i];
      var server := ServerOf(tools[i].name);
      if server in serverSet {
        filtered := filtered + [tools[i]];
      }
    }
    assert tools[..|tools|] == tools;
  }

  lemma {:induction false} RankedWithoutPriorities(tools: seq<McpTool>, priorities: map<string, int>)
    requires |priorities| == 0
    ensures Ranked(tools, priorities) == tools
  {
    if tools != [] {
      RankedWithoutPriorities(tools[1..], priorities);
    }
  }

  /** The filter takes every tool of the named servers and no other. */
  lemma {:induction false} IncludedExactly(tools: seq<McpTool>, servers: seq<string>, tool: McpTool)
    ensures multiset(Included(tools, servers))[tool]
         == if ServerOf(tool.name) in servers then multiset(tools)[tool] else 0
  {
    if tools != [] {
      IncludedExactly(tools[..|tools|-1], servers, tool);
      assert tools == tools[..|tools|-1] + [tools[|tools|-1]];
    }
  }

  /** The first tools of a descending list hold a prefix of every level. */
  lemma {:induction false} PrefixOfLevels(tools: seq<McpTool>, n: nat, priorities: map<string, int>, rank: int)
    requires n <= |tools|
    ensures Level(tools[..n], priorities, rank) <= Level(tools, priorities, rank)
    ensures Level(tools[..n], priorities, rank) != Level(tools, priorities, rank) ==>
              exists j :: n <= j < |tools| && Rank(tools[j], priorities) == rank
  {
    hide Rank;
    assert tools == tools[..n] + tools[n..];
    LevelOfSum(tools[..n], tools[n..], priorities, rank);
    var dropped := Level(tools[n..], priorities, rank);
    if dropped != [] {
      LevelRanks(tools[n..], priorities, rank);
      var i :| 0 <= i < |tools[n..]| && Rank(tools[n..][i], priorities) == rank;
      assert tools[n + i] == tools[n..][i];
    }
  }

  lemma {:induction false} LevelRanks(tools: seq<McpTool>, priorities: map<string, int>, rank: int)
    ensures Level(tools, priorities, rank) != [] ==> exists i :: 0 <= i < |tools| && Rank(tools[i], priorities) == rank
  {
    if tools != [] && Rank(tools[0], priorities) != rank {
      LevelRanks(tools[1..], priorities, rank);
      if Level(tools, priorities, rank) != [] {
        var i :| 0 <= i < |tools[1..]| && Rank(tools[1..][i], priorities) == rank;
        assert tools[i + 1] == tools[1..][i];
      }
    }
  }

  /** The tools kept are the top ones: of each rank the earliest, and where one of a rank is dropped
      nothing of a lower rank is kept.  The limit is used up before anything is dropped. */
  lemma TopTools(tools: seq<McpTool>, profile: Profile, rank: int)
    requires !Wildcard(profile)
    ensures var kept, all := Kept(tools, profile), Included(tools, profile.servers);
            && |kept| == (if 0 < profile.maxTools < |all| then profile.maxTools else |all|)
            && Level(kept, profile.priorities, rank) <= Level(all, profile.priorities, rank)
            && (Level(kept, profile.priorities, rank) != Level(all, profile.priorities, rank) ==>
                  forall t :: t in kept ==> Rank(t, profile.priorities) >= rank)
  {
    hide Rank, Level, Included, Ranked;
    var all := Included(tools, profile.servers);
    var offered := Ranked(all, profile.priorities);
    RankedArranges(all, profile.priorities);
    LevelsPermute(offered, all, profile.priorities);
    assert |multiset(offered)| == |multiset(all)|;
    PrefixOfLevels(offered, |Kept(tools, profile)|, profile.priorities, rank);
  }

  // ----- a profile of all servers -----

  /** None of the first `n` tools is outranked by one behind it. */
  ghost predicate Leads(tools: seq<McpTool>, n: nat, priorities: map<string, int>)
    requires n <= |tools|
  {
    forall i, j :: 0 <= i < n && i < j < |tools| ==> Rank(tools[i], priorities) >= Rank(tools[j], priorities)
  }

  lemma LeadersAreTop(tools: seq<McpTool>, n: nat, priorities: map<string, int>)
    requires n <= |tools| && Leads(tools, n, priorities)
    ensures Ranked(tools, priorities)[..n] == tools[..n]
  {
    hide Rank, Level, Ranked;
    var rest := Ranked(tools[n..], priorities);
    RankedArranges(tools[n..], priorities);
    LevelsPermute(rest, tools[n..], priorities);
    var a := tools[..n] + rest;
    forall i, j | 0 <= i < j < |a| ensures Rank(a[i], priorities) >= Rank(a[j], priorities) {
      if i < n <= j {
        assert a[j] in multiset(rest) && a[j] in tools[n..];
        var m :| 0 <= m < |tools[n..]| && tools[n..][m] == a[j];
        assert tools[n + m] == a[j];
      }
    }
    forall rank ensures Level(a, priorities, rank) == Level(tools, priorities, rank) {
      LevelOfSum(tools[..n], rest, priorities, rank);
      LevelOfSum(tools[..n], tools[n..], priorities, rank);
      assert tools == tools[..n] + tools[n..];
    }
    RankedArranges(tools, priorities);
    OneArrangement(a, Ranked(tools, priorities), priorities);
    assert a[..n] == tools[..n];
  }

  lemma TopAreLeaders(tools: seq<McpTool>, n: nat, priorities: map<string, int>)
    requires n <= |tools| && Ranked(tools, priorities)[..n] == tools[..n]
    ensures Leads(tools, n, priorities)
  {
    hide Rank, Level, Ranked;
    var r := Ranked(tools, priorities);
    RankedArranges(tools, priorities);
    LevelsPermute(r, tools, priorities);
    assert r == r[..n] + r[n..] && tools == tools[..n] + tools[n..];
    assert multiset(r[n..]) + multiset(r[..n]) == multiset(r) == multiset(tools);
    assert multiset(tools) == multiset(tools[n..]) + multiset(r[..n]);
    MultisetCancel(multiset(r[n..]), multiset(tools[n..]), multiset(r[..n]));
    forall i, j | 0 <= i < n && i < j < |tools| ensures Rank(tools[i], priorities) >= Rank(tools[j], priorities) {
      assert tools[i] == tools[..n][i] == r[i];
      if j < n {
        assert tools[j] == tools[..n][j] == r[j];
      } else {
        assert tools[j] == tools[n..][j-n] && tools[j] in multiset(r[n..]);
        var m :| 0 <= m < |r[n..]| && r[n..][m] == tools[j];
        assert r[n + m] == tools[j];
      }
    }
  }

  /** A profile of all servers keeps the top tools of its own ranking exactly when no tool it keeps is
      outranked by a later one: it takes the first tools as they come. */
  lemma WildcardRankedIff(tools: seq<McpTool>, profile: Profile)
    requires Wildcard(profile)
    ensures |Kept(tools, profile)| <= |tools|
    ensures Kept(tools, profile) == Ranked(tools, profile.priorities)[..|Kept(tools, profile)|] <==>
            forall i, j :: 0 <= i < |Kept(tools, profile)| && i < j < |tools| ==>
              Rank(tools[i], profile.priorities) >= Rank(tools[j], profile.priorities)
  {
    hide Rank, Ranked;
    var n := |Kept(tools, profile)|;
    assert Kept(tools, profile) == tools[..n];
    if Leads(tools, n, profile.priorities) {
      LeadersAreTop(tools, n, profile.priorities);
    } else if Ranked(tools, profile.priorities)[..n] == tools[..n] {
      TopAreLeaders(tools, n, profile.priorities);
    }
  }

  /** Such a profile drops a tool that outranks the one it keeps. */
  lemma WildcardUnranked(definition: string)
    ensures var lo, hi := McpTool("lo", definition), McpTool("hi", definition);
            var profile := Profile(["*"], 1, map["hi" := 10]);
            && Wildcard(profile) && Kept([lo, hi], profile) == [lo]
            && Rank(hi, profile.priorities) > Rank(lo, profile.priorities)
            && Ranked([lo, hi], profile.priorities) == [hi, lo]
  {
    var lo, hi := McpTool("lo", definition), McpTool("hi", definition);
    var priorities := map["hi" := 10];
    assert Rank(lo, priorities) == 0 && Rank(hi, priorities) == 10;
    hide Rank;
    assert [lo, hi][1..] == [hi] && [hi][1..] == [];
    assert Ranked([hi], priorities) == [hi];
    assert Insert(lo, [hi], priorities) == [hi, lo] by {
      assert Insert(lo, [], priorities) == [lo];
    }
    assert Kept([lo, hi], Profile(["*"], 1, priorities)) == [lo];
  }
}
