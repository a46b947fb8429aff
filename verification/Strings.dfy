/** Splitting and joining of strings at a separator, as str.split and str.join do. */
module Strings {

  predicate AllOf(s: string, allowed: char -> bool) {
    forall i :: 0 <= i < |s| ==> allowed(s[i])
  }

  /** The longest prefix whose characters all satisfy p, and the rest. */
  function Span(s: string, p: char -> bool): (r: (string, string))
    ensures r.0 + r.1 == s
    ensures AllOf(r.0, p)
    ensures r.1 == "" || !p(r.1[0])
  {
    if s == "" || !p(s[0]) then ("", s)
    else var (a, b) := Span(s[1..], p); ([s[0]] + a, b)
  }

  /** Such a prefix is the only one. */
  lemma {:induction false} SpanIs(a: string, b: string, p: char -> bool)
    requires AllOf(a, p) && (b == "" || !p(b[0]))
    ensures Span(a + b, p) == (a, b)
  {
    if a == "" {
      assert a + b == b;
    } else {
      assert (a + b)[1..] == a[1..] + b;
      SpanIs(a[1..], b, p);
      assert [a[0]] + a[1..] == a;
    }
  }

  /** s.split(c, n): at most n cuts. */
  function SplitMax(s: string, c: char, n: nat): (parts: seq<string>)
    ensures 1 <= |parts| <= n + 1
    decreases n
  {
    var (a, b) := Span(s, x => x != c);
    if n == 0 || b == "" then [s] else [a] + SplitMax(b[1..], c, n - 1)
  }

  function Join(parts: seq<string>, c: char): string {
    if parts == [] then ""
    else if |parts| == 1 then parts[0]
    else parts[0] + [c] + Join(parts[1..], c)
  }

  ghost predicate Bare(parts: seq<string>, c: char) {
    forall i :: 0 <= i < |parts| ==> c !in parts[i]
  }

  /** Joining gives the string back, and if there were fewer cuts than allowed the parts are
      free of the separator. */
  lemma {:induction false} SplitThenJoin(s: string, c: char, n: nat)
    ensures Join(SplitMax(s, c, n), c) == s
    ensures |SplitMax(s, c, n)| <= n ==> Bare(SplitMax(s, c, n), c)
    decreases n
  {
    var (a, b) := Span(s, x => x != c);
    if n == 0 {
    } else if b == "" {
      assert s == a;
    } else {
      SplitThenJoin(b[1..], c, n - 1);
      var rest := SplitMax(b[1..], c, n - 1);
      assert ([a] + rest)[1..] == rest;
      assert a + [c] + b[1..] == a + b;
    }
  }

  /** Splitting a join of separator-free parts finds the parts. */
  lemma {:induction false} JoinThenSplit(parts: seq<string>, c: char, n: nat)
    requires 1 <= |parts| <= n + 1 && Bare(parts, c)
    ensures SplitMax(Join(parts, c), c, n) == parts
    decreases |parts|
  {
    if |parts| == 1 {
      SpanIs(parts[0], "", x => x != c);
      assert parts[0] + "" == parts[0];
      assert [parts[0]] == parts;
    } else {
      var tail := [c] + Join(parts[1..], c);
      assert Join(parts, c) == parts[0] + tail;
      SpanIs(parts[0], tail, x => x != c);
      assert tail[1..] == Join(parts[1..], c);
      JoinThenSplit(parts[1..], c, n - 1);
      assert [parts[0]] + parts[1..] == parts;
    }
  }
}
