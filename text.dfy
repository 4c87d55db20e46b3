/**
 * The JavaScript string operations the app relies on: `trim`,
 * `startsWith`, `includes`, `Array.prototype.join` and `split` on a
 * one-character separator.
 */
module Text {

  /** The characters `String.prototype.trim` removes: the ECMAScript
      WhiteSpace and LineTerminator code points. */
  predicate IsWhitespace(c: char) {
    var n := c as int;
    n == 0x09 || n == 0x0A || n == 0x0B || n == 0x0C || n == 0x0D || n == 0x20
    || n == 0xA0 || n == 0x1680 || (0x2000 <= n <= 0x200A) || n == 0x2028
    || n == 0x2029 || n == 0x202F || n == 0x205F || n == 0x3000 || n == 0xFEFF
  }

  ghost predicate AllWhitespace(s: string) {
    forall i :: 0 <= i < |s| ==> IsWhitespace(s[i])
  }

  /** Neither end of `s` is whitespace: what `trim` returns. */
  ghost predicate Trimmed(s: string) {
    s == [] || (!IsWhitespace(s[0]) && !IsWhitespace(s[|s| - 1]))
  }

  function TrimStart(s: string): (r: string)
    ensures |r| <= |s| && r == s[|s| - |r|..]
    ensures AllWhitespace(s[..|s| - |r|])
    ensures r == [] || !IsWhitespace(r[0])
  {
    if |s| > 0 && IsWhitespace(s[0]) then
      var r := TrimStart(s[1..]);
      var n := |s| - |r|;
      assert s[1..][n - 1..] == s[n..];
      assert AllWhitespace(s[..n]) by {
        forall i | 0 <= i < n ensures IsWhitespace(s[..n][i]) {
          if i > 0 {
            assert s[..n][i] == s[1..][..n - 1][i - 1];
          }
        }
      }
      r
    else s
  }

  function TrimEnd(s: string): (r: string)
    ensures |r| <= |s| && r == s[..|r|]
    ensures AllWhitespace(s[|r|..])
    ensures r == [] || !IsWhitespace(r[|r| - 1])
  {
    if |s| > 0 && IsWhitespace(s[|s| - 1]) then
      var r := TrimEnd(s[..|s| - 1]);
      assert s[|r|..] == s[..|s| - 1][|r|..] + [s[|s| - 1]];
      r
    else s
  }

  /** `s.trim()`: `s` without its leading and trailing whitespace. */
  function Trim(s: string): (r: string)
    ensures Trimmed(r)
    ensures |r| <= |s|
  {
    TrimEnd(TrimStart(s))
  }

  lemma {:induction false} TrimStartSkipsWhitespace(a: string, m: string)
    requires AllWhitespace(a)
    requires m == [] || !IsWhitespace(m[0])
    ensures TrimStart(a + m) == m
  {
    if a != [] {
      assert (a + m)[1..] == a[1..] + m;
      TrimStartSkipsWhitespace(a[1..], m);
    } else {
      assert a + m == m;
    }
  }

  lemma {:induction false} TrimEndSkipsWhitespace(m: string, b: string)
    requires AllWhitespace(b)
    requires m == [] || !IsWhitespace(m[|m| - 1])
    ensures TrimEnd(m + b) == m
  {
    if b != [] {
      assert (m + b)[..|m + b| - 1] == m + b[..|b| - 1];
      TrimEndSkipsWhitespace(m, b[..|b| - 1]);
    } else {
      assert m + b == m;
    }
  }

  lemma WhitespaceConcat(x: string, y: string)
    requires AllWhitespace(x) && AllWhitespace(y)
    ensures AllWhitespace(x + y)
  {
    forall i | 0 <= i < |x + y| ensures IsWhitespace((x + y)[i]) {
      if i < |x| { assert (x + y)[i] == x[i]; } else { assert (x + y)[i] == y[i - |x|]; }
    }
  }

  /** Trimming a string padded by whitespace on both sides recovers the
      inner string, provided the inner string is itself trimmed. */
  lemma TrimUnpads(a: string, m: string, b: string)
    requires AllWhitespace(a) && AllWhitespace(b) && Trimmed(m)
    ensures Trim(a + m + b) == m
  {
    if m == [] {
      assert a + m + b == a + b;
      WhitespaceConcat(a, b);
      TrimStartSkipsWhitespace(a + b, []);
      assert a + b + [] == a + b;
    } else {
      assert a + m + b == a + (m + b);
      TrimStartSkipsWhitespace(a, m + b);
      TrimEndSkipsWhitespace(m, b);
    }
  }

  /** `s` is `r` padded by whitespace on both sides, where `r` is `s` trimmed. */
  lemma TrimSplits(s: string) returns (pre: string, post: string)
    ensures AllWhitespace(pre) && AllWhitespace(post)
    ensures s == pre + Trim(s) + post
  {
    var t := TrimStart(s);
    var r := TrimEnd(t);
    assert r == Trim(s);
    pre := s[..|s| - |t|];
    post := t[|r|..];
    SuffixThenPrefix(s, t, r);
  }

  /** A prefix `r` of a suffix `t` of `s` sits between the two cut-off parts. */
  lemma SuffixThenPrefix(s: string, t: string, r: string)
    requires |t| <= |s| && t == s[|s| - |t|..]
    requires |r| <= |t| && r == t[..|r|]
    ensures s == s[..|s| - |t|] + r + t[|r|..]
  {
    assert s == s[..|s| - |t|] + t;
    assert t == r + t[|r|..];
  }

  /** Outer padding joins the whitespace that `trim` strips. */
  lemma PaddingJoinsWhitespace(a: string, p: string, r: string, q: string, b: string)
    ensures a + (p + r + q) + b == (a + p) + r + (q + b)
  {
  }

  /** Outer whitespace never changes what `trim` returns. */
  lemma TrimIgnoresPadding(a: string, s: string, b: string)
    requires AllWhitespace(a) && AllWhitespace(b)
    ensures Trim(a + s + b) == Trim(s)
  {
    var pre, post := TrimSplits(s);
    var r := Trim(s);
    WhitespaceConcat(a, pre);
    WhitespaceConcat(post, b);
    PaddingJoinsWhitespace(a, pre, r, post, b);
    TrimUnpads(a + pre, r, post + b);
  }

  /** `s.startsWith(p)`. */
  predicate StartsWith(s: string, p: string) {
    |p| <= |s| && s[..|p|] == p
  }

  /** `q` occurs in `s` starting at position `i`. */
  ghost predicate OccursAt(s: string, q: string, i: int) {
    0 <= i <= |s| - |q| && s[i..i + |q|] == q
  }

  /** `s.includes(q)`: `q` occurs somewhere in `s` (the empty string occurs
      everywhere). */
  function Includes(s: string, q: string): (r: bool)
    ensures r <==> exists i :: OccursAt(s, q, i)
  {
    if StartsWith(s, q) then
      assert OccursAt(s, q, 0);
      true
    else if |s| <= |q| then
      assert forall i :: OccursAt(s, q, i) ==> i == 0;
      false
    else
      var rest := Includes(s[1..], q);
      assert forall i :: OccursAt(s, q, i) && i > 0 ==> OccursAt(s[1..], q, i - 1) by {
        forall i | OccursAt(s, q, i) && i > 0 ensures OccursAt(s[1..], q, i - 1) {
          var j := i - 1;
          assert s[1..][j..j + |q|] == s[j + 1..j + 1 + |q|];
        }
      }
      assert rest ==> exists i :: OccursAt(s, q, i) by {
        if rest {
          var j :| OccursAt(s[1..], q, j);
          assert s[j + 1..j + 1 + |q|] == s[1..][j..j + |q|];
          assert OccursAt(s, q, j + 1);
        }
      }
      rest
  }

  /** `parts.join(sep)`. */
  function Join(parts: seq<string>, sep: string): (r: string)
    ensures parts == [] ==> r == ""
    ensures |parts| == 1 ==> r == parts[0]
  {
    if parts == [] then ""
    else if |parts| == 1 then parts[0]
    else parts[0] + sep + Join(parts[1..], sep)
  }

  /** The first position of `c` in `s`. */
  function FirstIndex(s: string, c: char): (r: nat)
    requires c in s
    ensures r < |s| && s[r] == c && c !in s[..r]
  {
    if s[0] == c then 0
    else
      var k := FirstIndex(s[1..], c);
      assert s[..k + 1] == [s[0]] + s[1..][..k];
      k + 1
  }

  lemma FirstIndexUnique(s: string, c: char, k: nat)
    requires k < |s| && s[k] == c && c !in s[..k]
    ensures FirstIndex(s, c) == k
  {
    var i := FirstIndex(s, c);
    assert s[..k] == s[..i] || i != k;
  }

  /** `s.split(c)`: the pieces between occurrences of `c`; always at least one piece. */
  function Split(s: string, c: char): (r: seq<string>)
    ensures |r| >= 1
    ensures forall i :: 0 <= i < |r| ==> c !in r[i]
    decreases |s|
  {
    if c in s then
      var i := FirstIndex(s, c);
      [s[..i]] + Split(s[i + 1..], c)
    else [s]
  }

  lemma SplitFirst(s: string, c: char)
    requires c in s
    ensures Split(s, c) == [s[..FirstIndex(s, c)]] + Split(s[FirstIndex(s, c) + 1..], c)
  {
  }

  lemma JoinCons(p: string, rest: seq<string>, sep: string)
    requires rest != []
    ensures Join([p] + rest, sep) == p + sep + Join(rest, sep)
  {
    assert ([p] + rest)[1..] == rest;
  }

  /** Joining the pieces of a split with the separator gives back the string. */
  lemma {:induction false} JoinSplit(s: string, c: char)
    ensures Join(Split(s, c), [c]) == s
    decreases |s|
  {
    if c in s {
      var i := FirstIndex(s, c);
      var t := s[i + 1..];
      calc {
        Join(Split(s, c), [c]);
        { SplitFirst(s, c); }
        Join([s[..i]] + Split(t, c), [c]);
        { JoinCons(s[..i], Split(t, c), [c]); }
        s[..i] + [c] + Join(Split(t, c), [c]);
        { JoinSplit(t, c); }
        s[..i] + [c] + t;
        { SplitAroundIndex(s, i); }
        s;
      }
    }
  }

  /** A string is its part before `i`, the character at `i`, and the rest. */
  lemma SplitAroundIndex(s: string, i: nat)
    requires i < |s|
    ensures s[..i] + [s[i]] + s[i + 1..] == s
  {
  }

  /** Splitting at the separator undoes a join of pieces that do not contain it. */
  lemma {:induction false} SplitJoin(parts: seq<string>, c: char)
    requires |parts| >= 1
    requires forall i :: 0 <= i < |parts| ==> c !in parts[i]
    ensures Split(Join(parts, [c]), c) == parts
  {
    if |parts| > 1 {
      var p, rest := parts[0], parts[1..];
      var j := Join(rest, [c]);
      assert parts == [p] + rest;
      JoinCons(p, rest, [c]);
      var s := p + [c] + j;
      assert s[|p|] == c && s[..|p|] == p;
      FirstIndexUnique(s, c, |p|);
      SplitFirst(s, c);
      assert s[|p| + 1..] == j;
      SplitJoin(rest, c);
    }
  }
}
