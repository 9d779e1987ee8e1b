/** Searching and replacing in strings. */
module Strings {

  predicate HasSuffix(s: string, suffix: string) {
    |suffix| <= |s| && s[|s|-|suffix|..] == suffix
  }

  predicate OccursAt(s: string, sub: string, i: nat) {
    i + |sub| <= |s| && s[i..i+|sub|] == sub
  }

  ghost predicate Occurs(s: string, sub: string) {
    exists i: nat :: OccursAt(s, sub, i)
  }

  /** `strings.Index`: where `sub` occurs first, or -1. */
  function Find(s: string, sub: string): (i: int)
    ensures -1 <= i <= |s|
    ensures i >= 0 ==> OccursAt(s, sub, i)
    ensures forall j: nat :: (i < 0 || j < i) ==> !OccursAt(s, sub, j)
    decreases |s|
  {
    if sub <= s then assert s[0..|sub|] == sub; 0
    else if s == "" then -1
    else
      var i := Find(s[1..], sub);
      assert !OccursAt(s, sub, 0);
      assert forall j: nat :: j > 0 ==> OccursAt(s, sub, j) == OccursAt(s[1..], sub, j - 1) by {
        forall j: nat | j > 0 ensures OccursAt(s, sub, j) == OccursAt(s[1..], sub, j - 1) {
          if j + |sub| <= |s| { assert s[j..j+|sub|] == s[1..][j-1..j-1+|sub|]; }
        }
      }
      if i < 0 then -1 else i + 1
  }

  lemma OneChar(s: string, c: char, i: nat)
    ensures OccursAt(s, [c], i) <==> i < |s| && s[i] == c
  {
  }

  lemma TwoChars(s: string, c: char, d: char, i: nat)
    ensures OccursAt(s, [c, d], i) <==> i + 1 < |s| && s[i] == c && s[i+1] == d
  {
    if i + 1 < |s| {
      assert s[i..i+2] == [s[i], s[i+1]];
    }
  }

  lemma FindIs(s: string, sub: string, i: nat)
    requires OccursAt(s, sub, i) && forall j: nat :: j < i ==> !OccursAt(s, sub, j)
    ensures Find(s, sub) == i
  {
    assert !(Find(s, sub) > i);
  }

  lemma SplitAt(s: string, sub: string, i: nat)
    requires OccursAt(s, sub, i)
    ensures s == s[..i] + (sub + s[i+|sub|..])
  {
    assert s[i..] == sub + s[i+|sub|..];
  }

  lemma BeforeFind(s: string, sub: string)
    requires Find(s, sub) >= 0 && sub != ""
    ensures !Occurs(s[..Find(s, sub)], sub)
  {
    var before := s[..Find(s, sub)];
    forall j: nat ensures !OccursAt(before, sub, j) {
      assert j < |before| ==> !OccursAt(s, sub, j);
      if j + |sub| <= |before| {
        assert s[j..j+|sub|] == before[j..j+|sub|];
      }
    }
  }

  /** `strings.ReplaceAll`, or the replacing of a regular expression that is a literal: from the left,
      without looking again at what was put in. */
  function ReplaceAll(s: string, old_: string, new_: string): string
    requires old_ != ""
    decreases |s|
  {
    if old_ <= s then new_ + ReplaceAll(s[|old_|..], old_, new_)
    else if s == "" then ""
    else [s[0]] + ReplaceAll(s[1..], old_, new_)
  }

  lemma NoPrefix(s: string, old_: string, new_: string, u: string)
    requires old_ != "" && old_ <= s && new_ != "" && u != "" && new_[0] !in u
    ensures !(u <= ReplaceAll(s, old_, new_))
  {
    assert ReplaceAll(s, old_, new_)[0] == new_[0];
    assert u[0] in u;
  }

  /** A prefix of the result that has nothing to do with what was put in was there before. */
  lemma {:induction false} PrefixWasThere(s: string, old_: string, new_: string, u: string)
    requires old_ != "" && new_ != "" && new_[0] !in u
    requires u <= ReplaceAll(s, old_, new_)
    ensures u <= s
    decreases |s|
  {
    if u != "" && old_ <= s {
      NoPrefix(s, old_, new_, u);
    } else if u != "" && s != "" {
      var rest := ReplaceAll(s[1..], old_, new_);
      assert ([s[0]] + rest)[1..] == rest;
      assert u[1..] <= rest;
      PrefixWasThere(s[1..], old_, new_, u[1..]);
      assert s == [s[0]] + s[1..] && u == [u[0]] + u[1..];
    }
  }

  /** What the replaced text cannot be a part of does not come up anew, and the replaced pattern is gone:
      `u` begins with a character that `new_` does not have and lacks the first character of `new_`. */
  lemma {:induction false} NothingNew(s: string, old_: string, new_: string, u: string, i: nat)
    requires old_ != "" && new_ != "" && u != "" && new_[0] !in u && u[0] !in new_
    requires OccursAt(ReplaceAll(s, old_, new_), u, i)
    ensures Occurs(s, u) && u != old_
    decreases |s|
  {
    var r := ReplaceAll(s, old_, new_);
    if old_ <= s {
      var rest := ReplaceAll(s[|old_|..], old_, new_);
      assert r[i] == u[0];
      assert i >= |new_|;
      assert r[i..i+|u|] == rest[i-|new_|..i-|new_|+|u|];
      NothingNew(s[|old_|..], old_, new_, u, i - |new_|);
      OccursLater(s, |old_|, u);
    } else if s != "" {
      var rest := ReplaceAll(s[1..], old_, new_);
      if i == 0 {
        assert u <= r;
        PrefixWasThere(s, old_, new_, u);
        assert OccursAt(s, u, 0);
      } else {
        assert r[i..i+|u|] == rest[i-1..i-1+|u|];
        NothingNew(s[1..], old_, new_, u, i - 1);
        OccursLater(s, 1, u);
      }
    }
  }

  lemma OccursLater(s: string, n: nat, u: string)
    requires n <= |s| && Occurs(s[n..], u)
    ensures Occurs(s, u)
  {
    var i: nat :| OccursAt(s[n..], u, i);
    assert s[n..][i..i+|u|] == s[n+i..n+i+|u|];
    assert OccursAt(s, u, n + i);
  }

  lemma OccursFirst(s: string, u: string)
    requires u <= s
    ensures Occurs(s, u)
  {
    assert OccursAt(s, u, 0);
  }

  lemma {:induction false} NothingToReplace(s: string, old_: string, new_: string)
    requires old_ != "" && !Occurs(s, old_)
    ensures ReplaceAll(s, old_, new_) == s
    decreases |s|
  {
    hide Occurs, OccursAt;
    if old_ <= s {
      OccursFirst(s, old_);
    } else if s != "" {
      if Occurs(s[1..], old_) { OccursLater(s, 1, old_); }
      NothingToReplace(s[1..], old_, new_);
      assert s == [s[0]] + s[1..];
    }
  }

  lemma NotAcross(a: string, b: string, old_: string)
    requires a != "" && old_ != "" && (b == "" || b[0] !in old_[1..]) && old_ <= a + b
    ensures old_ <= a
  {
    assert forall k :: 0 < k < |old_| ==> old_[k] == old_[1..][k-1];
    assert b != "" ==> (a + b)[|a|] == b[0];
  }

  lemma NothingIn(old_: string, new_: string)
    requires old_ != ""
    ensures ReplaceAll("", old_, new_) == ""
  {
  }

  lemma ReplaceFirst(placeholder: string, s: string, new_: string)
    requires placeholder != ""
    ensures ReplaceAll(placeholder + s, placeholder, new_) == new_ + ReplaceAll(s, placeholder, new_)
  {
    assert (placeholder + s)[|placeholder|..] == s;
  }

  lemma ReplaceLater(c: char, s: string, old_: string, new_: string)
    requires old_ != "" && !(old_ <= [c] + s)
    ensures ReplaceAll([c] + s, old_, new_) == [c] + ReplaceAll(s, old_, new_)
  {
    assert ([c] + s)[1..] == s;
  }

  /** What lies on both sides of a place where no occurrence can lie across is replaced by itself. */
  lemma {:induction false} ReplaceOfSum(a: string, b: string, old_: string, new_: string)
    requires old_ != "" && (b == "" || b[0] !in old_[1..])
    ensures ReplaceAll(a + b, old_, new_) == ReplaceAll(a, old_, new_) + ReplaceAll(b, old_, new_)
    decreases |a|
  {
    hide ReplaceAll;
    if a == "" {
      assert a + b == b;
      NothingIn(old_, new_);
    } else if old_ <= a {
      var rest := a[|old_|..];
      assert a == old_ + rest && a + b == old_ + (rest + b);
      ReplaceFirst(old_, rest, new_);
      ReplaceFirst(old_, rest + b, new_);
      ReplaceOfSum(rest, b, old_, new_);
    } else {
      var rest := a[1..];
      assert a == [a[0]] + rest && a + b == [a[0]] + (rest + b);
      if old_ <= a + b {
        NotAcross(a, b, old_);
      }
      ReplaceLater(a[0], rest, old_, new_);
      ReplaceLater(a[0], rest + b, old_, new_);
      ReplaceOfSum(rest, b, old_, new_);
    }
  }

  /** A beginning that no occurrence can begin in stays. */
  lemma {:induction false} BeginningStays(u: string, s: string, old_: string, new_: string)
    requires old_ != "" && old_[0] !in u
    ensures ReplaceAll(u + s, old_, new_) == u + ReplaceAll(s, old_, new_)
    decreases |u|
  {
    if u == "" {
      assert u + s == s;
    } else {
      assert (u + s)[0] == u[0] && (u + s)[1..] == u[1..] + s;
      BeginningStays(u[1..], s, old_, new_);
      assert u + ReplaceAll(s, old_, new_) == [u[0]] + (u[1..] + ReplaceAll(s, old_, new_));
    }
  }

  /** The stretches between the places that are replaced. */
  function Gaps(s: string, old_: string): (g: seq<string>)
    requires old_ != ""
    ensures g != []
    decreases |s|
  {
    if old_ <= s then [""] + Gaps(s[|old_|..], old_)
    else if s == "" then [""]
    else
      var g := Gaps(s[1..], old_);
      [[s[0]] + g[0]] + g[1..]
  }

  function Join(parts: seq<string>, separator: string): string
    requires parts != []
  {
    if |parts| == 1 then parts[0] else parts[0] + separator + Join(parts[1..], separator)
  }

  /** Replacing keeps every character outside the places it replaces. */
  lemma ReplaceIsJoin(s: string, old_: string, new_: string)
    requires old_ != ""
    ensures Join(Gaps(s, old_), old_) == s
    ensures Join(Gaps(s, old_), new_) == ReplaceAll(s, old_, new_)
  {
    JoinReplaces(s, old_, new_);
    JoinReplaces(s, old_, old_);
    ReplaceItself(s, old_);
  }

  lemma {:induction false} ReplaceItself(s: string, old_: string)
    requires old_ != ""
    ensures ReplaceAll(s, old_, old_) == s
    decreases |s|
  {
    if old_ <= s {
      ReplaceItself(s[|old_|..], old_);
      assert s == old_ + s[|old_|..];
    } else if s != "" {
      ReplaceItself(s[1..], old_);
      assert s == [s[0]] + s[1..];
    }
  }

  lemma {:induction false} JoinReplaces(s: string, old_: string, new_: string)
    requires old_ != ""
    ensures Join(Gaps(s, old_), new_) == ReplaceAll(s, old_, new_)
    decreases |s|
  {
    if old_ <= s {
      var g := Gaps(s[|old_|..], old_);
      assert Gaps(s, old_) == [""] + g && ReplaceAll(s, old_, new_) == new_ + ReplaceAll(s[|old_|..], old_, new_);
      hide Join, Gaps, ReplaceAll;
      JoinReplaces(s[|old_|..], old_, new_);
      JoinCons("", g, new_);
      assert "" + new_ == new_;
    } else if s != "" {
      var g := Gaps(s[1..], old_);
      assert Gaps(s, old_) == [[s[0]] + g[0]] + g[1..];
      assert ReplaceAll(s, old_, new_) == [s[0]] + ReplaceAll(s[1..], old_, new_);
      hide Join, Gaps, ReplaceAll;
      JoinReplaces(s[1..], old_, new_);
      JoinFirst(s[0], g, new_);
    }
  }

  lemma JoinCons(part: string, parts: seq<string>, separator: string)
    requires parts != []
    ensures Join([part] + parts, separator) == part + separator + Join(parts, separator)
  {
    assert ([part] + parts)[1..] == parts;
  }

  lemma JoinFirst(c: char, parts: seq<string>, separator: string)
    requires parts != []
    ensures Join([[c] + parts[0]] + parts[1..], separator) == [c] + Join(parts, separator)
  {
    var first, rest := [c] + parts[0], parts[1..];
    if rest != [] {
      assert parts == [parts[0]] + rest;
      JoinCons(first, rest, separator);
      JoinCons(parts[0], rest, separator);
      var tail := Join(rest, separator);
      assert first + separator + tail == [c] + (parts[0] + separator + tail);
    }
  }
}
