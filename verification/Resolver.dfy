/** How pkg/router/router.go finds the server for a tool call: routing rules, then claims, then the
    tool index. */
module Resolver {
  import opened Registry
  import opened ToolIndex
  import opened Strings

  datatype Arg = Str(s: string) | Other

  /** `Panicked`: GetServerSpec met a nil target. */
  datatype Resolution = Name(server: string) | Ambiguous(servers: seq<string>) | Panicked

  predicate EndsInStar(p: string) {
    |p| > 0 && p[|p|-1] == '*'
  }

  /** `matchPattern`. */
  predicate MatchPattern(value: string, pattern: string) {
    if pattern == "*" then true
    else if EndsInStar(pattern) then pattern[..|pattern|-1] <= value
    else if "*" <= pattern then HasSuffix(value, pattern[1..])
    else value == pattern
  }

  function FirstCase(cases: seq<Case>, value: string): Option<string> {
    if cases == [] then None
    else if MatchPattern(value, cases[0].match_) then Some(cases[0].server)
    else FirstCase(cases[1..], value)
  }

  /** What one rule says about a call. */
  function RuleAnswer(rule: Option<Rule>, tool: string, args: map<string, Arg>): Option<string> {
    if rule.None? || rule.value.toolName != tool then None
    else
      var r := rule.value;
      var c := if r.argument in args && args[r.argument].Str? then FirstCase(r.cases, args[r.argument].s) else None;
      if c.Some? then c else if r.default_ != "" then Some(r.default_) else None
  }

  function FirstRule(rules: seq<Option<Rule>>, tool: string, args: map<string, Arg>): Option<string> {
    if rules == [] then None
    else if RuleAnswer(rules[0], tool, args).Some? then RuleAnswer(rules[0], tool, args)
    else FirstRule(rules[1..], tool, args)
  }

  datatype Claim = Claimed(name: string) | NoClaim | ClaimPanics

  /** Whether the server at index `i` claims a tool: by its allow list for the profile or by prefix. */
  function ClaimAt(servers: seq<Option<Server>>, i: nat, profile: string, tool: string): Claim
    requires i < |servers|
  {
    if servers[i].None? then NoClaim
    else
      var name := servers[i].value.name;
      var meant := Meant(servers, i);
      if NilTarget(meant, profile) then ClaimPanics
      else if tool in Effective(meant, profile).alwaysAllow || name + "__" <= tool then Claimed(name)
      else NoClaim
  }

  function FirstClaim(servers: seq<Option<Server>>, i: nat, profile: string, tool: string): Claim
    requires i <= |servers|
    decreases |servers| - i
  {
    if i == |servers| then NoClaim
    else if ClaimAt(servers, i, profile, tool) != NoClaim then ClaimAt(servers, i, profile, tool)
    else FirstClaim(servers, i + 1, profile, tool)
  }

  /** `ResolveServer` as a function of the registry, without its environments, and the index. */
  function Resolve(servers: seq<Option<Server>>, routing: seq<Option<Rule>>, index: Index,
                   profile: string, tool: string, args: map<string, Arg>): Resolution
  {
    var rule := FirstRule(routing, tool, args);
    if rule.Some? then Name(rule.value) else
    match FirstClaim(servers, 0, profile, tool)
    case Claimed(name) => Name(name)
    case ClaimPanics => Panicked
    case NoClaim =>
      var names := Lookup(index, tool);
      if |names| == 1 then Name(names[0]) else if |names| > 1 then Ambiguous(names) else Name("")
  }

  // ----- the layers, declaratively -----

  lemma {:induction false} FirstCaseIsFirst(cases: seq<Case>, value: string)
    ensures match FirstCase(cases, value)
            case None => forall i :: 0 <= i < |cases| ==> !MatchPattern(value, cases[i].match_)
            case Some(server) =>
              exists i :: 0 <= i < |cases| && MatchPattern(value, cases[i].match_) && cases[i].server == server
                          && forall j :: 0 <= j < i ==> !MatchPattern(value, cases[j].match_)
  {
    if cases != [] && !MatchPattern(value, cases[0].match_) {
      FirstCaseIsFirst(cases[1..], value);
      if FirstCase(cases[1..], value).Some? {
        var i :| 0 <= i < |cases[1..]| && MatchPattern(value, cases[1..][i].match_)
                 && cases[1..][i].server == FirstCase(cases[1..], value).value
                 && forall j :: 0 <= j < i ==> !MatchPattern(value, cases[1..][j].match_);
        assert cases[i+1] == cases[1..][i];
        forall j | 0 <= j < i + 1 ensures !MatchPattern(value, cases[j].match_) {
          if j > 0 { assert cases[j] == cases[1..][j-1]; }
        }
      } else {
        forall i | 0 <= i < |cases| ensures !MatchPattern(value, cases[i].match_) {
          if i > 0 { assert cases[i] == cases[1..][i-1]; }
        }
      }
    }
  }

  /** A rule layer answer is that of the first rule that yields one. */
  lemma {:induction false} FirstRuleIsFirst(rules: seq<Option<Rule>>, tool: string, args: map<string, Arg>)
    ensures match FirstRule(rules, tool, args)
            case None => forall i :: 0 <= i < |rules| ==> RuleAnswer(rules[i], tool, args).None?
            case Some(server) =>
              exists i :: 0 <= i < |rules| && RuleAnswer(rules[i], tool, args) == Some(server)
                          && forall j :: 0 <= j < i ==> RuleAnswer(rules[j], tool, args).None?
  {
    if rules != [] && RuleAnswer(rules[0], tool, args).None? {
      FirstRuleIsFirst(rules[1..], tool, args);
      if FirstRule(rules[1..], tool, args).Some? {
        var i :| 0 <= i < |rules[1..]| && RuleAnswer(rules[1..][i], tool, args) == FirstRule(rules[1..], tool, args)
                 && forall j :: 0 <= j < i ==> RuleAnswer(rules[1..][j], tool, args).None?;
        assert rules[i+1] == rules[1..][i];
        forall j | 0 <= j < i + 1 ensures RuleAnswer(rules[j], tool, args).None? {
          if j > 0 { assert rules[j] == rules[1..][j-1]; }
        }
      } else {
        forall i | 0 <= i < |rules| ensures RuleAnswer(rules[i], tool, args).None? {
          if i > 0 { assert rules[i] == rules[1..][i-1]; }
        }
      }
    }
  }

  lemma {:induction false} FirstClaimIsFirst(servers: seq<Option<Server>>, i: nat, profile: string, tool: string)
    requires i <= |servers|
    ensures var c := FirstClaim(servers, i, profile, tool);
            if c == NoClaim then forall j :: i <= j < |servers| ==> ClaimAt(servers, j, profile, tool) == NoClaim
            else exists j :: i <= j < |servers| && ClaimAt(servers, j, profile, tool) == c
                             && forall k :: i <= k < j ==> ClaimAt(servers, k, profile, tool) == NoClaim
    decreases |servers| - i
  {
    hide ClaimAt;
    if i < |servers| && ClaimAt(servers, i, profile, tool) == NoClaim {
      FirstClaimIsFirst(servers, i + 1, profile, tool);
    }
  }

  // ----- the layers, from the rules and the registry themselves -----

  /** The rule's argument is a string, and case `k` is the first that it matches. */
  ghost predicate Matches(rule: Rule, args: map<string, Arg>, k: nat) {
    && rule.argument in args && args[rule.argument].Str?
    && k < |rule.cases| && MatchPattern(args[rule.argument].s, rule.cases[k].match_)
    && forall j :: 0 <= j < k ==> !MatchPattern(args[rule.argument].s, rule.cases[j].match_)
  }

  /** The argument is missing, or no string, or a string that no case matches. */
  ghost predicate NoMatch(rule: Rule, args: map<string, Arg>) {
    || rule.argument !in args || !args[rule.argument].Str?
    || forall j :: 0 <= j < |rule.cases| ==> !MatchPattern(args[rule.argument].s, rule.cases[j].match_)
  }

  ghost predicate Silent(rule: Option<Rule>, tool: string, args: map<string, Arg>) {
    rule.None? || rule.value.toolName != tool || (NoMatch(rule.value, args) && rule.value.default_ == "")
  }

  /** One rule: the first matching case comes before the default, and the default answers exactly
      where no case does. */
  lemma RuleAnswerIs(rule: Option<Rule>, tool: string, args: map<string, Arg>)
    ensures RuleAnswer(rule, tool, args) == None <==> Silent(rule, tool, args)
    ensures rule.Some? && rule.value.toolName == tool ==>
              && (forall k: nat :: Matches(rule.value, args, k) ==>
                    RuleAnswer(rule, tool, args) == Some(rule.value.cases[k].server))
              && (NoMatch(rule.value, args) && rule.value.default_ != "" ==>
                    RuleAnswer(rule, tool, args) == Some(rule.value.default_))
  {
    if rule.Some? && rule.value.toolName == tool && rule.value.argument in args && args[rule.value.argument].Str? {
      var r := rule.value;
      FirstCaseIsFirst(r.cases, args[r.argument].s);
      if !NoMatch(r, args) {
        var value := args[r.argument].s;
        var i :| 0 <= i < |r.cases| && MatchPattern(value, r.cases[i].match_)
                 && FirstCase(r.cases, value) == Some(r.cases[i].server)
                 && forall j :: 0 <= j < i ==> !MatchPattern(value, r.cases[j].match_);
        forall k: nat | Matches(r, args, k) ensures k == i {
          assert MatchPattern(value, r.cases[k].match_) && MatchPattern(value, r.cases[i].match_);
        }
      }
    }
  }

  /** The first rule that is not silent decides a call, whatever any server claims and whatever the
      index holds. */
  lemma RuleDecides(servers: seq<Option<Server>>, routing: seq<Option<Rule>>, index: Index,
                    profile: string, tool: string, args: map<string, Arg>, i: nat)
    requires i < |routing| && routing[i].Some? && routing[i].value.toolName == tool
    requires forall j :: 0 <= j < i ==> Silent(routing[j], tool, args)
    ensures forall k: nat :: Matches(routing[i].value, args, k) ==>
              Resolve(servers, routing, index, profile, tool, args) == Name(routing[i].value.cases[k].server)
    ensures NoMatch(routing[i].value, args) && routing[i].value.default_ != "" ==>
              Resolve(servers, routing, index, profile, tool, args) == Name(routing[i].value.default_)
  {
    hide RuleAnswer, Matches, NoMatch, Silent, FirstClaim, FirstRule;
    RuleAnswerIs(routing[i], tool, args);
    FirstRuleIsFirst(routing, tool, args);
    forall j | 0 <= j < i ensures RuleAnswer(routing[j], tool, args).None? {
      RuleAnswerIs(routing[j], tool, args);
    }
    if RuleAnswer(routing[i], tool, args).Some? {
      assert FirstRule(routing, tool, args) == RuleAnswer(routing[i], tool, args);
    }
  }

  /** `GetServer` answers the server at index `m` for this name. */
  ghost predicate FirstOfName(servers: seq<Option<Server>>, m: nat, name: string) {
    && m < |servers| && servers[m].Some? && servers[m].value.name == name
    && forall j :: 0 <= j < m ==> servers[j].None? || servers[j].value.name != name
  }

  /** A server claims a tool by its prefix or by the allow list of the first server of its name. */
  ghost predicate Claims(servers: seq<Option<Server>>, i: nat, profile: string, tool: string)
    requires i < |servers|
    ensures Claims(servers, i, profile, tool) ==> servers[i].Some?
  {
    && servers[i].Some?
    && var name := servers[i].value.name;
       || name + "__" <= tool
       || exists m: nat :: FirstOfName(servers, m, name) && Allows(servers[m].value, profile, tool)
  }

  /** Its spec is merged with a target that is nil. */
  ghost predicate MeetsNil(servers: seq<Option<Server>>, i: nat, profile: string)
    requires i < |servers|
  {
    servers[i].Some? && exists m: nat ::
      FirstOfName(servers, m, servers[i].value.name) && ListedAsNil(servers[m].value, profile)
  }

  lemma ClaimAtIs(servers: seq<Option<Server>>, i: nat, profile: string, tool: string)
    requires i < |servers|
    ensures ClaimAt(servers, i, profile, tool)
         == if MeetsNil(servers, i, profile) then ClaimPanics
            else if Claims(servers, i, profile, tool) then Claimed(servers[i].value.name)
            else NoClaim
  {
    if servers[i].Some? {
      var name := servers[i].value.name;
      var first := IndexOf(servers, name);
      assert FirstOfName(servers, first, name);
      forall m: nat | FirstOfName(servers, m, name) ensures m == first {
        assert !(m < first) && !(first < m);
      }
    }
  }

  /** Where no rule speaks, the first server that claims the tool decides before the index is asked, and
      the index decides exactly where no server does. */
  lemma ClaimDecides(servers: seq<Option<Server>>, routing: seq<Option<Rule>>, index: Index,
                     profile: string, tool: string, args: map<string, Arg>, i: nat)
    requires forall j :: 0 <= j < |routing| ==> Silent(routing[j], tool, args)
    requires i <= |servers|
    requires forall j :: 0 <= j < i ==> !Claims(servers, j, profile, tool) && !MeetsNil(servers, j, profile)
    ensures var r := Resolve(servers, routing, index, profile, tool, args);
            if i < |servers| then
              && (MeetsNil(servers, i, profile) ==> r == Panicked)
              && (!MeetsNil(servers, i, profile) && Claims(servers, i, profile, tool) ==>
                    r == Name(servers[i].value.name))
            else
              && (tool !in index || index[tool] == [] ==> r == Name(""))
              && (tool in index && |index[tool]| == 1 ==> r == Name(index[tool][0]))
              && (tool in index && |index[tool]| > 1 ==> r == Ambiguous(index[tool]))
  {
    hide ClaimAt, Claims, MeetsNil, Silent, RuleAnswer, FirstClaim, FirstRule;
    FirstRuleIsFirst(routing, tool, args);
    forall j | 0 <= j < |routing| ensures RuleAnswer(routing[j], tool, args).None? {
      RuleAnswerIs(routing[j], tool, args);
    }
    FirstClaimIsFirst(servers, 0, profile, tool);
    forall j | 0 <= j <= i && j < |servers|
      ensures ClaimAt(servers, j, profile, tool)
           == if MeetsNil(servers, j, profile) then ClaimPanics
              else if Claims(servers, j, profile, tool) then Claimed(servers[j].value.name)
              else NoClaim
    {
      ClaimAtIs(servers, j, profile, tool);
    }
  }

  predicate AgreesWith(index: Index, servers: seq<Option<Server>>, tool: string) {
    Lookup(index, tool) == Providers(servers, tool)
  }

  /** On an index built from the registry, a call is ambiguous exactly when no rule and no claim
      settles it and two servers of different names declare the tool. */
  lemma AmbiguousIff(servers: seq<Option<Server>>, routing: seq<Option<Rule>>, index: Index,
                     profile: string, tool: string, args: map<string, Arg>)
    requires AgreesWith(index, servers, tool)
    ensures Resolve(servers, routing, index, profile, tool, args).Ambiguous? <==>
            && FirstRule(routing, tool, args).None?
            && FirstClaim(servers, 0, profile, tool) == NoClaim
            && exists a, b, i: nat, j: nat ::
                 a != b && DeclaredAt(servers, i, tool, a) && DeclaredAt(servers, j, tool, b)
  {
    hide FirstRule, FirstClaim, Providers, Declares;
    ProvidersExactly(servers, tool);
    var names := Providers(servers, tool);
    if |names| > 1 {
      assert names[0] in names && names[1] in names && names[0] != names[1];
    }
    if a, b, i: nat, j: nat :| a != b && DeclaredAt(servers, i, tool, a) && DeclaredAt(servers, j, tool, b) {
      assert a in names && b in names;
    }
  }

  /** The index settles a call exactly when all servers that declare the tool have one name. */
  lemma UniqueIff(servers: seq<Option<Server>>, routing: seq<Option<Rule>>, index: Index,
                  profile: string, tool: string, args: map<string, Arg>, name: string)
    requires AgreesWith(index, servers, tool)
    requires FirstRule(routing, tool, args).None? && FirstClaim(servers, 0, profile, tool) == NoClaim && name != ""
    ensures Resolve(servers, routing, index, profile, tool, args) == Name(name) <==>
            && (exists i: nat :: DeclaredAt(servers, i, tool, name))
            && (forall a, i: nat :: DeclaredAt(servers, i, tool, a) ==> a == name)
  {
    ProvidersExactly(servers, tool);
    var names := Providers(servers, tool);
    forall a, i: nat | DeclaredAt(servers, i, tool, a) ensures a in names {
    }
    if |names| == 1 {
      assert names[0] in names;
      assert forall a :: a in names ==> a == names[0];
    }
    if |names| > 1 {
      assert names[0] in names && names[1] in names && names[0] != names[1];
    }
  }

  /** On an index that `SetRegistry` made, mentions are counted, and not servers: a call is ambiguous
      exactly when no rule and no claim settles it and the targets of all servers together mention
      the tool at least twice, and it is lost when they do not mention it. */
  lemma AfterSetRegistryIff(servers: seq<Option<Server>>, routing: seq<Option<Rule>>, index: Index,
                            profile: string, tool: string, args: map<string, Arg>)
    requires Lookup(index, tool) == Appended(servers, tool)
    ensures var r := Resolve(servers, routing, index, profile, tool, args);
            var settled := FirstRule(routing, tool, args).Some? || FirstClaim(servers, 0, profile, tool) != NoClaim;
            && (r.Ambiguous? <==> !settled && AllMentions(servers, tool) >= 2)
            && (!settled && AllMentions(servers, tool) == 0 ==> r == Name(""))
  {
    AppendedLength(servers, tool);
  }

  /** So one server that declares a tool for two targets makes a call ambiguous, and one that declares
      it for all of them in common is not found, where the index of `BuildToolIndex` finds both. */
  lemma SpuriousAnswers(inCommon: bool, index: Index, built: Index)
    requires Lookup(index, "t") == Appended(OneServer(inCommon), "t")
    requires Lookup(built, "t") == Providers(OneServer(inCommon), "t")
    ensures Resolve(OneServer(inCommon), [], built, "", "t", map[]) == Name("s")
    ensures Resolve(OneServer(inCommon), [], index, "", "t", map[])
              == if inCommon then Name("") else Ambiguous(["s", "s"])
  {
    BuildsDiffer();
    var servers := OneServer(inCommon);
    assert ClaimAt(servers, 0, "", "t") == NoClaim by {
      assert IndexOf(servers, "s") == 0;
      assert "s" + "__" == "s__" && !("s__" <= "t");
    }
    assert FirstClaim(servers, 1, "", "t") == NoClaim;
  }

  ghost predicate Begins(value: string, stem: string) {
    exists rest :: value == stem + rest
  }

  ghost predicate Ends(value: string, stem: string) {
    exists rest :: value == rest + stem
  }

  /** A trailing star is any ending. */
  lemma PatternPrefix(value: string, stem: string)
    ensures MatchPattern(value, stem + "*") <==> Begins(value, stem)
  {
    assert (stem + "*")[..|stem|] == stem;
    if stem <= value {
      assert value == stem + value[|stem|..];
    }
    if stem == "" {
      assert value == stem + value;
    }
  }

  /** A leading star is any beginning, unless the pattern ends in one as well. */
  lemma PatternSuffix(value: string, stem: string)
    requires !EndsInStar(stem)
    ensures MatchPattern(value, "*" + stem) <==> Ends(value, stem)
  {
    if stem == "" {
      assert "*" + stem == "*";
      assert value == value + stem;
    } else {
      assert ("*" + stem)[1..] == stem && ("*" + stem)[|stem|] == stem[|stem|-1];
      if HasSuffix(value, stem) {
        assert value == value[..|value|-|stem|] + stem;
      }
    }
  }

  /** Every pattern: a star at the end is any ending, else a star at the beginning is any beginning,
      and stars elsewhere are literal. */
  lemma PatternMeaning(value: string, pattern: string)
    ensures MatchPattern(value, pattern) <==>
            if EndsInStar(pattern) then Begins(value, pattern[..|pattern|-1])
            else if "*" <= pattern then Ends(value, pattern[1..])
            else value == pattern
  {
    if EndsInStar(pattern) {
      assert pattern == pattern[..|pattern|-1] + "*";
      PatternPrefix(value, pattern[..|pattern|-1]);
    } else if "*" <= pattern {
      assert pattern == "*" + pattern[1..];
      assert |pattern| > 1 ==> pattern[1..][|pattern|-2] == pattern[|pattern|-1];
      PatternSuffix(value, pattern[1..]);
    }
  }
}
