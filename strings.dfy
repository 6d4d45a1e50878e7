/** String helpers shared by the core: joining with a separator, splitting on a
    set of separator characters, prefix tests and the lexicographic order of
    strings. */
module Strings {

  /** `prefix` is a prefix of `s` (Java `String.startsWith`). */
  predicate StartsWith(s: string, prefix: string) {
    |prefix| <= |s| && s[..|prefix|] == prefix
  }

  /** The pieces separated by `sep` (Apache `StringUtils.join`, `Collectors.joining`). */
  function Join(xs: seq<string>, sep: string): string
    decreases |xs|
  {
    if |xs| == 0 then "" else if |xs| == 1 then xs[0] else xs[0] + sep + Join(xs[1..], sep)
  }

  lemma {:induction false} JoinAppend(xs: seq<string>, x: string, sep: string)
    requires |xs| > 0
    ensures Join(xs + [x], sep) == Join(xs, sep) + sep + x
    decreases |xs|
  {
    if |xs| == 1 {
      assert xs + [x] == [xs[0], x];
      assert [xs[0], x][1..] == [x];
    } else {
      assert (xs + [x])[1..] == xs[1..] + [x];
      JoinAppend(xs[1..], x, sep);
    }
  }

  /** True when no character of `s` is in `delims`. */
  predicate Clean(s: string, delims: set<char>) {
    forall i :: 0 <= i < |s| ==> s[i] !in delims
  }

  /** Length of the leading run of characters of `s` outside `delims`. */
  function RunLength(s: string, delims: set<char>): (n: nat)
    ensures n <= |s|
    ensures Clean(s[..n], delims)
    ensures n == |s| || s[n] in delims
    decreases |s|
  {
    if |s| == 0 || s[0] in delims then 0
    else
      var m := RunLength(s[1..], delims);
      assert s[..1 + m] == [s[0]] + s[1..][..m];
      1 + m
  }

  /** Apache `StringUtils.split(s, separatorChars)`: the maximal runs of
      characters outside `delims`, in order. Adjacent separators act as one,
      and no token is empty. */
  function Tokens(s: string, delims: set<char>): (ts: seq<string>)
    ensures forall k :: 0 <= k < |ts| ==> |ts[k]| > 0 && Clean(ts[k], delims)
    decreases |s|
  {
    if |s| == 0 then []
    else if s[0] in delims then Tokens(s[1..], delims)
    else
      var n := RunLength(s, delims);
      [s[..n]] + Tokens(s[n..], delims)
  }

  lemma {:induction false} RunLengthOfClean(x: string, rest: string, delims: set<char>)
    requires Clean(x, delims)
    requires rest == [] || rest[0] in delims
    ensures RunLength(x + rest, delims) == |x|
    decreases |x|
  {
    if |x| > 0 {
      assert (x + rest)[1..] == x[1..] + rest;
      RunLengthOfClean(x[1..], rest, delims);
    }
  }

  lemma {:induction false} TokensSkip(p: string, rest: string, delims: set<char>)
    requires forall i :: 0 <= i < |p| ==> p[i] in delims
    ensures Tokens(p + rest, delims) == Tokens(rest, delims)
    decreases |p|
  {
    if |p| > 0 {
      var s := p + rest;
      assert s[0] == p[0] && s[0] in delims;
      assert s[1..] == p[1..] + rest;
      assert Tokens(s, delims) == Tokens(s[1..], delims);
      TokensSkip(p[1..], rest, delims);
    } else {
      assert p + rest == rest;
    }
  }

  lemma TokensClean(x: string, rest: string, delims: set<char>)
    requires |x| > 0 && Clean(x, delims)
    requires rest == [] || rest[0] in delims
    ensures Tokens(x + rest, delims) == [x] + Tokens(rest, delims)
  {
    RunLengthOfClean(x, rest, delims);
    assert (x + rest)[..|x|] == x;
    assert (x + rest)[|x|..] == rest;
  }

  /** Splitting a joined list gives the list back, when the separator is made
      of separator characters only and every piece is a non-empty token. */
  lemma {:induction false} TokensOfJoin(xs: seq<string>, sep: string, delims: set<char>)
    requires |sep| > 0 && forall i :: 0 <= i < |sep| ==> sep[i] in delims
    requires forall k :: 0 <= k < |xs| ==> |xs[k]| > 0 && Clean(xs[k], delims)
    ensures Tokens(Join(xs, sep), delims) == xs
    decreases |xs|
  {
    if |xs| == 1 {
      TokensClean(xs[0], [], delims);
      assert xs[0] + [] == xs[0];
    } else if |xs| > 1 {
      var rest := Join(xs[1..], sep);
      assert Join(xs, sep) == xs[0] + (sep + rest);
      TokensClean(xs[0], sep + rest, delims);
      TokensSkip(sep, rest, delims);
      TokensOfJoin(xs[1..], sep, delims);
    }
  }

  /** There are no tokens exactly when every character is a separator. */
  lemma {:induction false} TokensEmpty(s: string, delims: set<char>)
    ensures Tokens(s, delims) == [] <==> forall i :: 0 <= i < |s| ==> s[i] in delims
    decreases |s|
  {
    if |s| > 0 && s[0] in delims {
      TokensEmpty(s[1..], delims);
      assert forall i :: 1 <= i < |s| ==> s[i] == s[1..][i - 1];
    }
  }

  /** Java's `String.compareTo(a, b) < 0`, read as code-point order:
      lexicographic order on characters, a proper prefix coming first. */
  predicate Less(a: string, b: string)
    decreases |a|
  {
    if |a| == 0 then |b| > 0
    else if |b| == 0 then false
    else if a[0] == b[0] then Less(a[1..], b[1..])
    else a[0] < b[0]
  }

  lemma {:induction false} LessIrreflexive(a: string)
    ensures !Less(a, a)
    decreases |a|
  {
    if |a| > 0 { LessIrreflexive(a[1..]); }
  }

  lemma {:induction false} LessTransitive(a: string, b: string, c: string)
    requires Less(a, b) && Less(b, c)
    ensures Less(a, c)
    decreases |a|
  {
    if |a| > 0 && a[0] == b[0] && b[0] == c[0] {
      LessTransitive(a[1..], b[1..], c[1..]);
    }
  }

  lemma {:induction false} LessTotal(a: string, b: string)
    requires a != b
    ensures Less(a, b) || Less(b, a)
    decreases |a|
  {
    if |a| > 0 && |b| > 0 && a[0] == b[0] {
      assert a == [a[0]] + a[1..] && b == [b[0]] + b[1..];
      LessTotal(a[1..], b[1..]);
    }
  }

  lemma {:induction false} LessAsymmetric(a: string, b: string)
    requires Less(a, b)
    ensures !Less(b, a)
    decreases |a|
  {
    if |a| > 0 && a[0] == b[0] {
      LessAsymmetric(a[1..], b[1..]);
    }
  }
}
