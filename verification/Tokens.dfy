/** Tokens in registry values: the secret tokens of pkg/generator/manifests.go and the path
    placeholders of pkg/generator/common.go. */
module Tokens {
  import opened Registry
  import opened Strings

  datatype SecretToken = SecretToken(kind: string, key: string, def: string, hasDefault: bool)

  predicate KnownKind(kind: string) {
    kind == "env" || kind == "keychain" || kind == "secret"
  }

  predicate Braced(value: string)
    ensures Braced(value) ==> |value| >= 3 && value == "${" + value[2..|value|-1] + "}"
  {
    if "${" <= value && HasSuffix(value, "}") then
      assert value[1] == '{' && value[|value|-1] == '}';
      true
    else false
  }

  /** `parseSecretToken`. */
  function ParseSecretToken(value: string): Option<SecretToken> {
    if !Braced(value) then None
    else
      var body := value[2..|value|-1];
      var colon := Find(body, ":");
      if colon < 0 then None
      else
        var kind, rest := body[..colon], body[colon+1..];
        if !KnownKind(kind) || rest == "" then None else ParseKey(kind, rest)
  }

  function ParseKey(kind: string, rest: string): Option<SecretToken> {
    var i := Find(rest, ":-");
    if i < 0 then Some(SecretToken(kind, rest, "", false))
    else if i == 0 then None
    else Some(SecretToken(kind, rest[..i], rest[i+2..], true))
  }

  /** The grammar: ${kind:key} and ${kind:key:-default}. */
  function Format(t: SecretToken): string {
    "${" + t.kind + ":" + t.key + (if t.hasDefault then ":-" + t.def else "") + "}"
  }

  ghost predicate WellFormed(t: SecretToken) {
    KnownKind(t.kind) && t.key != "" && !Occurs(t.key, ":-") && (t.hasDefault || t.def == "")
  }

  /** Parsing inverts the grammar in both directions. */
  lemma ParseIffFormat(value: string, t: SecretToken)
    ensures ParseSecretToken(value) == Some(t) <==> WellFormed(t) && Format(t) == value
  {
    if ParseSecretToken(value) == Some(t) {
      ParsedIsFormat(value, t);
    }
    if WellFormed(t) && Format(t) == value {
      FormatParses(t);
    }
  }

  lemma FirstColon(kind: string, rest: string)
    requires ':' !in kind
    ensures Find(kind + (":" + rest), ":") == |kind|
  {
    hide OccursAt, Find;
    var body := kind + (":" + rest);
    OneChar(body, ':', |kind|);
    forall j: nat | j < |kind| ensures !OccursAt(body, ":", j) {
      OneChar(body, ':', j);
      assert body[j] == kind[j];
    }
    FindIs(body, ":", |kind|);
  }

  /** A key without ":-" ends where the first ":-" is found. */
  lemma FirstDefault(key: string, def: string)
    requires !Occurs(key, ":-")
    ensures Find(key + (":-" + def), ":-") == |key|
  {
    hide OccursAt, Find;
    var rest := key + (":-" + def);
    TwoChars(rest, ':', '-', |key|);
    forall j: nat | j < |key| ensures !OccursAt(rest, ":-", j) {
      TwoChars(rest, ':', '-', j);
      TwoChars(key, ':', '-', j);
      assert rest[j] == key[j] && (j + 1 < |key| ==> rest[j+1] == key[j+1]);
    }
    FindIs(rest, ":-", |key|);
  }

  function Tail(t: SecretToken): string {
    t.key + if t.hasDefault then ":-" + t.def else ""
  }

  lemma FormatIs(t: SecretToken)
    ensures Format(t) == "${" + (t.kind + (":" + Tail(t))) + "}"
  {
    if t.hasDefault {
      assert "${" + t.kind + ":" + t.key + (":-" + t.def) + "}"
          == "${" + (t.kind + (":" + (t.key + (":-" + t.def)))) + "}";
    } else {
      assert "${" + t.kind + ":" + t.key + "" + "}" == "${" + (t.kind + (":" + (t.key + ""))) + "}";
    }
  }

  lemma FormatParses(t: SecretToken)
    requires WellFormed(t)
    ensures ParseSecretToken(Format(t)) == Some(t)
  {
    hide Format, Find, OccursAt, ParseSecretToken;
    var rest := Tail(t);
    FormatIs(t);
    assert "${" + (t.kind + (":" + rest)) + "}" == "${" + t.kind + ":" + rest + "}";
    ParsesAfterColon(t.kind, rest);
    if t.hasDefault {
      FirstDefault(t.key, t.def);
      assert rest[..|t.key|] == t.key && rest[|t.key|+2..] == t.def;
    } else {
      assert rest == t.key;
    }
  }

  /** What is between the first colon and the braces, whatever stands before the colon. */
  lemma ParsesAfterColon(kind: string, rest: string)
    requires ':' !in kind
    ensures ParseSecretToken("${" + kind + ":" + rest + "}")
         == if kind in ["env", "keychain", "secret"] && rest != "" then ParseKey(kind, rest) else None
  {
    hide Find, OccursAt, ParseKey;
    var value, body := "${" + kind + ":" + rest + "}", kind + (":" + rest);
    assert value == "${" + body + "}";
    assert value[2..|value|-1] == body && HasSuffix(value, "}");
    FirstColon(kind, rest);
    assert body[..|kind|] == kind && body[|kind|+1..] == rest;
  }

  /** The three kinds of token, in the syntax of a registry file; any other kind is no token. */
  lemma KindsAre(kind: string, key: string, def: string)
    requires ':' !in kind && key != "" && !Occurs(key, ":-")
    ensures var known := kind in ["env", "keychain", "secret"];
            && ParseSecretToken("${" + kind + ":" + key + "}")
               == (if known then Some(SecretToken(kind, key, "", false)) else None)
            && ParseSecretToken("${" + kind + ":" + (key + (":-" + def)) + "}")
               == (if known then Some(SecretToken(kind, key, def, true)) else None)
  {
    hide Find, OccursAt, ParseSecretToken;
    ParsesAfterColon(kind, key);
    var rest := key + (":-" + def);
    ParsesAfterColon(kind, rest);
    FirstDefault(key, def);
    assert rest[..|key|] == key && rest[|key|+2..] == def;
  }

  lemma ParsedKey(kind: string, rest: string, t: SecretToken)
    requires rest != "" && ParseKey(kind, rest) == Some(t)
    ensures t.kind == kind && t.key != "" && !Occurs(t.key, ":-") && (t.hasDefault || t.def == "")
    ensures rest == Tail(t)
  {
    if t.hasDefault {
      BeforeFind(rest, ":-");
      SplitAt(rest, ":-", Find(rest, ":-"));
    }
  }

  lemma ParsedIsFormat(value: string, t: SecretToken)
    requires ParseSecretToken(value) == Some(t)
    ensures WellFormed(t) && Format(t) == value
  {
    var body := value[2..|value|-1];
    var colon := Find(body, ":");
    hide Format, ParseKey, Tail, OccursAt;
    FormatIs(t);
    SplitAt(body, ":", colon);
    ParsedKey(body[..colon], body[colon+1..], t);
  }

  // ----- placeholders -----

  const REPO := "${repo}"
  const HOME := "${HOME}"
  const CLUSTER_REPO := "/app"
  const CLUSTER_HOME := "/home/mcp"

  /** `ResolveTokens` in the cluster context. */
  function ResolveInCluster(value: string): string {
    ReplaceAll(ReplaceAll(value, REPO, CLUSTER_REPO), HOME, CLUSTER_HOME)
  }

  /** Nothing is left to resolve, so resolving again changes nothing. */
  lemma NoPlaceholderLeft(value: string)
    ensures !Occurs(ResolveInCluster(value), REPO) && !Occurs(ResolveInCluster(value), HOME)
    ensures ResolveInCluster(ResolveInCluster(value)) == ResolveInCluster(value)
  {
    var once := ReplaceAll(value, REPO, CLUSTER_REPO);
    var r := ResolveInCluster(value);
    if i: nat :| OccursAt(r, HOME, i) {
      NothingNew(once, HOME, CLUSTER_HOME, HOME, i);
    }
    if i: nat :| OccursAt(r, REPO, i) {
      NothingNew(once, HOME, CLUSTER_HOME, REPO, i);
      var j: nat :| OccursAt(once, REPO, j);
      NothingNew(value, REPO, CLUSTER_REPO, REPO, j);
    }
    NothingToReplace(r, REPO, CLUSTER_REPO);
    NothingToReplace(r, HOME, CLUSTER_HOME);
  }

  /** A value is kept exactly when it has no placeholder; secret tokens without one are kept. */
  lemma KeptIff(value: string)
    ensures ResolveInCluster(value) == value <==> !Occurs(value, REPO) && !Occurs(value, HOME)
  {
    NoPlaceholderLeft(value);
    if !Occurs(value, REPO) && !Occurs(value, HOME) {
      NothingToReplace(value, REPO, CLUSTER_REPO);
      NothingToReplace(value, HOME, CLUSTER_HOME);
    }
  }

  /** What each placeholder stands for, wherever in a value it is. */
  lemma RepoBecomes(a: string, b: string)
    ensures ResolveInCluster(a + ("${repo}" + b)) == ResolveInCluster(a) + "/app" + ResolveInCluster(b)
  {
    hide ReplaceAll;
    ReplaceOfSum(a, "${repo}" + b, REPO, CLUSTER_REPO);
    ReplaceFirst(REPO, b, CLUSTER_REPO);
    var before, behind := ReplaceAll(a, REPO, CLUSTER_REPO), ReplaceAll(b, REPO, CLUSTER_REPO);
    assert before + ("/app" + behind) == ReplaceAll(a + ("${repo}" + b), REPO, CLUSTER_REPO);
    ReplaceOfSum(before, "/app" + behind, HOME, CLUSTER_HOME);
    BeginningStays("/app", behind, HOME, CLUSTER_HOME);
  }

  lemma HomeBecomes(a: string, b: string)
    ensures ResolveInCluster(a + ("${HOME}" + b)) == ResolveInCluster(a) + "/home/mcp" + ResolveInCluster(b)
  {
    hide ReplaceAll;
    ReplaceOfSum(a, "${HOME}" + b, REPO, CLUSTER_REPO);
    HomeIsNotRepo(b);
    var before, behind := ReplaceAll(a, REPO, CLUSTER_REPO), ReplaceAll(b, REPO, CLUSTER_REPO);
    ReplaceOfSum(before, "${HOME}" + behind, HOME, CLUSTER_HOME);
    ReplaceFirst(HOME, behind, CLUSTER_HOME);
  }

  lemma HomeIsNotRepo(s: string)
    ensures ReplaceAll("${HOME}" + s, REPO, CLUSTER_REPO) == "${HOME}" + ReplaceAll(s, REPO, CLUSTER_REPO)
  {
    var value := "${HOME}" + s;
    assert !(REPO <= value) by {
      assert value[2] == 'H' && REPO[2] == 'r';
    }
    assert value[0] == '$' && value[1..] == "{HOME}" + s;
    BeginningStays("{HOME}", s, REPO, CLUSTER_REPO);
  }

  // ----- environment variables of a deployment -----

  const SHARED_SECRETS := "mcp-secrets"

  datatype EnvVar = Plain(name: string, value: string) | FromSecret(name: string, secret: string, key: string)

  /** `k8sEnvVarFromRegistry`. */
  function EnvVarOf(name: string, raw: string): EnvVar {
    var value := ResolveInCluster(raw);
    match ParseSecretToken(value)
    case Some(t) =>
      if t.hasDefault then Plain(name, ResolveInCluster(t.def)) else FromSecret(name, SHARED_SECRETS, t.key)
    case None => Plain(name, value)
  }

  ghost predicate IsToken(value: string, t: SecretToken) {
    WellFormed(t) && Format(t) == value
  }

  /** What the resolved value is decides: a token without a default is read from the shared secret, a
      token with one becomes the resolved default, and what is no token stays as it is.  A plain value
      never holds a placeholder. */
  lemma EnvVarLaw(name: string, raw: string)
    ensures forall key :: EnvVarOf(name, raw) == FromSecret(name, "mcp-secrets", key) <==>
              exists kind :: IsToken(ResolveInCluster(raw), SecretToken(kind, key, "", false))
    ensures forall t :: IsToken(ResolveInCluster(raw), t) && t.hasDefault ==>
              EnvVarOf(name, raw) == Plain(name, ResolveInCluster(t.def))
    ensures (forall t :: !IsToken(ResolveInCluster(raw), t)) ==>
              EnvVarOf(name, raw) == Plain(name, ResolveInCluster(raw))
    ensures EnvVarOf(name, raw).Plain? ==>
              !Occurs(EnvVarOf(name, raw).value, REPO) && !Occurs(EnvVarOf(name, raw).value, HOME)
  {
    hide Format, WellFormed, ResolveInCluster, ParseSecretToken, Occurs;
    NoPlaceholderLeft(raw);
    var value := ResolveInCluster(raw);
    forall t ensures IsToken(value, t) <==> ParseSecretToken(value) == Some(t) {
      ParseIffFormat(value, t);
    }
    var p := ParseSecretToken(value);
    if p.Some? {
      assert IsToken(value, p.value);
      NoPlaceholderLeft(p.value.def);
      if !p.value.hasDefault { NoDefault(p.value); }
    }
    forall key ensures EnvVarOf(name, raw) == FromSecret(name, SHARED_SECRETS, key) <==>
                       exists kind :: IsToken(value, SecretToken(kind, key, "", false))
    {
      if EnvVarOf(name, raw) == FromSecret(name, SHARED_SECRETS, key) {
        assert p.value == SecretToken(p.value.kind, key, "", false);
      }
    }
  }

  lemma NoDefault(t: SecretToken)
    requires WellFormed(t) && !t.hasDefault
    ensures t.def == ""
  {
  }
}
