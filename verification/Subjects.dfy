/** NATS subjects: deciding whether one wildcard pattern covers another. */
module Subjects {

  /** The tokens of a subject, between its dots. There is always at least one. */
  function Split(s: string): (tokens: seq<string>)
    ensures |tokens| >= 1
  {
    if s == "" then [""]
    else if s[0] == '.' then [""] + Split(s[1..])
    else
      var rest := Split(s[1..]);
      [[s[0]] + rest[0]] + rest[1..]
  }

  function Join(tokens: seq<string>): string
    requires |tokens| >= 1
  {
    if |tokens| == 1 then tokens[0] else tokens[0] + "." + Join(tokens[1..])
  }

  lemma {:induction false} JoinUndoesSplit(s: string)
    ensures Join(Split(s)) == s
  {
    if s != "" {
      JoinUndoesSplit(s[1..]);
      var rest := Split(s[1..]);
      if s[0] == '.' {
        assert Split(s)[1..] == rest;
        assert Join(Split(s)) == "" + "." + Join(rest);
      } else if |rest| > 1 {
        assert Split(s)[1..] == rest[1..];
        assert Join(Split(s)) == ([s[0]] + rest[0]) + "." + Join(rest[1..]);
      }
    }
  }

  /** Two subjects are the same exactly when their tokens are. */
  lemma SameTokensSameSubject(a: string, b: string)
    ensures Split(a) == Split(b) <==> a == b
  {
    JoinUndoesSplit(a);
    JoinUndoesSplit(b);
  }

  // ------------------------------------------------------------------------------------------
  // What a pattern means.

  /** A pattern's tokens are not empty, and `>` stands last if anywhere. */
  predicate WellFormed(p: seq<string>) {
    forall i :: 0 <= i < |p| ==> p[i] != "" && (p[i] == ">" ==> i == |p| - 1)
  }

  /** A subject a message is published on: no wildcards. */
  predicate Concrete(c: seq<string>) {
    forall i :: 0 <= i < |c| ==> c[i] != "" && c[i] != "*" && c[i] != ">"
  }

  /** `*` stands for one token, `>` for one or more to the end. */
  predicate Matches(p: seq<string>, c: seq<string>) {
    if p == [] then c == []
    else if c == [] then false
    else if p[0] == ">" then true
    else (p[0] == "*" || p[0] == c[0]) && Matches(p[1..], c[1..])
  }

  /** Every concrete subject that `s` matches, `p` matches. */
  ghost predicate Includes(p: seq<string>, s: seq<string>) {
    forall c :: Concrete(c) && Matches(s, c) ==> Matches(p, c)
  }

  // ------------------------------------------------------------------------------------------
  // The decision.

  predicate CoversFrom(p: seq<string>, s: seq<string>) {
    if p == [] then s == []
    else if p[0] == ">" then s != []
    else if p[0] == "*" then s != [] && s[0] != ">" && CoversFrom(p[1..], s[1..])
    else s != [] && s[0] == p[0] && CoversFrom(p[1..], s[1..])
  }

  lemma {:induction false} CoversItself(p: seq<string>)
    ensures CoversFrom(p, p)
  {
    if p != [] {
      CoversItself(p[1..]);
    }
  }

  /** Whether `pattern` covers `subject`, which may be a pattern itself. */
  method Covers(pattern: string, subject: string) returns (covers: bool)
    ensures covers == CoversFrom(Split(pattern), Split(subject))
  {
    if pattern == subject {
      CoversItself(Split(pattern));
      return true;
    }
    var p, s := Split(pattern), Split(subject);
    for i := 0 to |p|
      invariant i <= |s| && CoversFrom(p, s) == CoversFrom(p[i..], s[i..])
    {
      assert p[i..][0] == p[i] && p[i..][1..] == p[i + 1..];
      assert i < |s| ==> s[i..][0] == s[i] && s[i..][1..] == s[i + 1..];
      if p[i] == ">" {
        return |s| > i;
      } else if p[i] == "*" {
        if |s| <= i || s[i] == ">" {
          return false;
        }
      } else if |s| <= i || s[i] != p[i] {
        return false;
      }
    }
    return |p| == |s|;
  }

  // ------------------------------------------------------------------------------------------
  // Soundness: what is covered is included.

  lemma {:induction false} CoveredIsMatched(p: seq<string>, s: seq<string>, c: seq<string>)
    requires WellFormed(p) && WellFormed(s) && Concrete(c)
    requires CoversFrom(p, s) && Matches(s, c)
    ensures Matches(p, c)
  {
    if p != [] && p[0] != ">" {
      CoveredIsMatched(p[1..], s[1..], c[1..]);
    }
  }

  // ------------------------------------------------------------------------------------------
  // Completeness: what is not covered has a witness.

  /** A concrete subject a pattern matches. */
  function Filled(s: seq<string>): seq<string> {
    if s == [] then [] else [if s[0] == "*" || s[0] == ">" then "x" else s[0]] + Filled(s[1..])
  }

  lemma {:induction false} FilledIsMatched(s: seq<string>)
    requires WellFormed(s)
    ensures Concrete(Filled(s)) && Matches(s, Filled(s)) && |Filled(s)| == |s|
  {
    if s != [] {
      FilledIsMatched(s[1..]);
      assert Filled(s)[1..] == Filled(s[1..]);
    }
  }

  /** A concrete subject that `s` matches and `p` does not. */
  function Witness(p: seq<string>, s: seq<string>): seq<string>
    requires !CoversFrom(p, s)
  {
    if p == [] || s == [] then Filled(s)
    else if p[0] == "*" then
      if s[0] == ">" then if |p| == 1 then ["x", "x"] else ["x"]
      else [Filled(s)[0]] + Witness(p[1..], s[1..])
    else if s[0] == ">" then [p[0] + "x"]
    else if s[0] == "*" then [p[0] + "x"] + Filled(s[1..])
    else if s[0] == p[0] then [s[0]] + Witness(p[1..], s[1..])
    else Filled(s)
  }

  lemma {:induction false} WitnessTellsThemApart(p: seq<string>, s: seq<string>)
    requires WellFormed(p) && WellFormed(s) && !CoversFrom(p, s)
    ensures var w := Witness(p, s); Concrete(w) && Matches(s, w) && !Matches(p, w)
  {
    var w := Witness(p, s);
    FilledIsMatched(s);
    if p != [] && s != [] {
      FilledIsMatched(s[1..]);
      assert s[0] == ">" ==> |s| == 1;
      if (p[0] == "*" && s[0] != ">") || (p[0] == s[0] && p[0] != "*") {
        WitnessTellsThemApart(p[1..], s[1..]);
        assert w[1..] == Witness(p[1..], s[1..]);
      } else if p[0] != "*" && s[0] == "*" {
        assert w[1..] == Filled(s[1..]);
      }
    }
  }

  /** Inclusion is decided exactly, for every pair of well-formed patterns. */
  lemma CoversDecidesInclusion(pattern: string, subject: string)
    requires WellFormed(Split(pattern)) && WellFormed(Split(subject))
    ensures CoversFrom(Split(pattern), Split(subject)) <==> Includes(Split(pattern), Split(subject))
  {
    var p, s := Split(pattern), Split(subject);
    if CoversFrom(p, s) {
      forall c | Concrete(c) && Matches(s, c)
        ensures Matches(p, c)
      {
        CoveredIsMatched(p, s, c);
      }
    } else {
      WitnessTellsThemApart(p, s);
      assert !Includes(p, s);
    }
  }

  // ------------------------------------------------------------------------------------------
  // No two patterns mean the same.

  lemma {:induction false} CoveringEachOther(p: seq<string>, s: seq<string>)
    requires WellFormed(p) && WellFormed(s) && CoversFrom(p, s) && CoversFrom(s, p)
    ensures p == s
  {
    if p != [] {
      assert p[0] == s[0];
      if p[0] == ">" {
        assert |p| == 1 && |s| == 1;
      } else {
        CoveringEachOther(p[1..], s[1..]);
        assert p == [p[0]] + p[1..] && s == [s[0]] + s[1..];
      }
    }
  }

  /** Two well-formed patterns match the same concrete subjects only if they are the same string. */
  lemma PatternsMeanDifferentThings(a: string, b: string)
    requires WellFormed(Split(a)) && WellFormed(Split(b))
    ensures Includes(Split(a), Split(b)) && Includes(Split(b), Split(a)) <==> a == b
  {
    CoversDecidesInclusion(a, b);
    CoversDecidesInclusion(b, a);
    if CoversFrom(Split(a), Split(b)) && CoversFrom(Split(b), Split(a)) {
      CoveringEachOther(Split(a), Split(b));
      SameTokensSameSubject(a, b);
    }
  }
}
