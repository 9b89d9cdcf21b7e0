/**
  Text helpers used by the notifier: raw substring search (the behaviour of
  Go's strings.Contains, taken character by character) and splitting a text
  into its newline-separated lines, with the inverse join.
*/
module Strings {

  import opened Wrappers

  /** `pat` occurs in `s` starting at position `i`. */
  ghost predicate OccursAt(s: string, pat: string, i: int)
  {
    0 <= i && i + |pat| <= |s| && s[i..i + |pat|] == pat
  }

  /** Raw, case-sensitive substring test: no trimming, no normalisation. */
  function Contains(s: string, pat: string): bool
    decreases |s|
  {
    if pat <= s then true
    else if s == [] then false
    else Contains(s[1..], pat)
  }

  /** Whatever Contains finds is an occurrence at some position. */
  lemma {:induction false} ContainsSound(s: string, pat: string) returns (i: int)
    requires Contains(s, pat)
    ensures OccursAt(s, pat, i)
    decreases |s|
  {
    if pat <= s {
      i := 0;
    } else {
      var j := ContainsSound(s[1..], pat);
      assert s[1..][j..j + |pat|] == s[j + 1..j + 1 + |pat|];
      i := j + 1;
    }
  }

  /** An occurrence at a known position is found. */
  lemma {:induction false} ContainsAt(s: string, pat: string, i: int)
    requires OccursAt(s, pat, i)
    ensures Contains(s, pat)
    decreases i
  {
    if i > 0 && !(pat <= s) {
      assert s[1..][i - 1..i - 1 + |pat|] == s[i..i + |pat|];
      ContainsAt(s[1..], pat, i - 1);
    }
  }

  /** Contains agrees with the positional definition, in both directions. */
  lemma ContainsIff(s: string, pat: string)
    ensures Contains(s, pat) <==> exists i :: OccursAt(s, pat, i)
  {
    if Contains(s, pat) {
      var i := ContainsSound(s, pat);
    }
    forall i | OccursAt(s, pat, i) ensures Contains(s, pat) {
      ContainsAt(s, pat, i);
    }
  }

  /** Text around an occurrence never hides it. */
  lemma ContainsInContext(a: string, s: string, b: string, pat: string)
    requires Contains(s, pat)
    ensures Contains(a + s + b, pat)
  {
    var i := ContainsSound(s, pat);
    assert (a + s + b)[|a| + i..|a| + i + |pat|] == s[i..i + |pat|];
    ContainsAt(a + s + b, pat, |a| + i);
  }

  /** The lines of `s`, split at every '\n' (Go's strings.Split(s, "\n")). */
  function Lines(s: string): (r: seq<string>)
    ensures |r| >= 1
    decreases |s|
  {
    if s == [] then [[]]
    else if s[0] == '\n' then [[]] + Lines(s[1..])
    else
      var rest := Lines(s[1..]);
      [[s[0]] + rest[0]] + rest[1..]
  }

  /** The lines joined with '\n' between consecutive ones. */
  function JoinLines(ls: seq<string>): string
    requires |ls| >= 1
    decreases |ls|
  {
    if |ls| == 1 then ls[0] else ls[0] + "\n" + JoinLines(ls[1..])
  }

  /** No line contains a newline. */
  ghost predicate NoNewlines(ls: seq<string>)
  {
    forall k :: 0 <= k < |ls| ==> '\n' !in ls[k]
  }

  /** No line of a split text contains a newline. */
  lemma {:induction false} LinesHaveNoNewlines(s: string)
    ensures NoNewlines(Lines(s))
    decreases |s|
  {
    if s == [] {
    } else if s[0] == '\n' {
      LinesHaveNoNewlines(s[1..]);
      var r := Lines(s);
      assert r[1..] == Lines(s[1..]);
      forall k | 0 <= k < |r| ensures '\n' !in r[k] {
        if k > 0 { assert r[k] == r[1..][k - 1]; }
      }
    } else {
      LinesHaveNoNewlines(s[1..]);
      var rest := Lines(s[1..]);
      var r := Lines(s);
      assert r == [[s[0]] + rest[0]] + rest[1..];
      forall k | 0 <= k < |r| ensures '\n' !in r[k] {
        if k > 0 { assert r[k] == r[1..][k - 1] == rest[k]; }
      }
    }
  }

  lemma Reassociate(c: string, a: string, n: string, t: string)
    ensures c + a + n + t == c + (a + n + t)
  {
  }

  /** Growing the first line at its front grows the joined text the same way. */
  lemma JoinPrepend(c: string, ls: seq<string>)
    requires |ls| >= 1
    ensures JoinLines([c + ls[0]] + ls[1..]) == c + JoinLines(ls)
  {
    var grown := [c + ls[0]] + ls[1..];
    if |ls| > 1 {
      var tail := JoinLines(ls[1..]);
      assert grown[1..] == ls[1..];
      assert JoinLines(grown) == c + ls[0] + "\n" + tail;
      assert JoinLines(ls) == ls[0] + "\n" + tail;
      Reassociate(c, ls[0], "\n", tail);
    }
  }

  /** Joining the lines of a text gives back the text. */
  lemma {:induction false} JoinOfLines(s: string)
    ensures JoinLines(Lines(s)) == s
    decreases |s|
  {
    if s == [] {
    } else if s[0] == '\n' {
      JoinOfLines(s[1..]);
      var r := Lines(s);
      assert r[1..] == Lines(s[1..]);
      assert JoinLines(r) == r[0] + "\n" + JoinLines(r[1..]);
      assert s == "\n" + s[1..];
    } else {
      JoinOfLines(s[1..]);
      var rest := Lines(s[1..]);
      assert Lines(s) == [[s[0]] + rest[0]] + rest[1..];
      JoinPrepend([s[0]], rest);
      assert s == [s[0]] + s[1..];
    }
  }

  /** A line without newline, put in front with a '\n', becomes the first line. */
  lemma {:induction false} LinesCons(a: string, b: string)
    requires '\n' !in a
    ensures Lines(a + "\n" + b) == [a] + Lines(b)
    decreases |a|
  {
    if a == [] {
      assert a + "\n" + b == "\n" + b;
      assert ("\n" + b)[1..] == b;
    } else {
      LinesCons(a[1..], b);
      assert (a + "\n" + b)[1..] == a[1..] + "\n" + b;
      assert [a[0]] + a[1..] == a;
    }
  }

  /** A text without newline is a single line. */
  lemma {:induction false} LinesSingle(a: string)
    requires '\n' !in a
    ensures Lines(a) == [a]
    decreases |a|
  {
    if a != [] {
      LinesSingle(a[1..]);
      assert [a[0]] + a[1..] == a;
    }
  }

  /** Joining lines without newlines and splitting again gives the same lines. */
  lemma {:induction false} LinesOfJoin(ls: seq<string>)
    requires |ls| >= 1
    requires NoNewlines(ls)
    ensures Lines(JoinLines(ls)) == ls
    decreases |ls|
  {
    assert '\n' !in ls[0];
    if |ls| == 1 {
      LinesSingle(ls[0]);
    } else {
      assert NoNewlines(ls[1..]) by {
        forall k | 0 <= k < |ls[1..]| ensures '\n' !in ls[1..][k] {
          assert ls[1..][k] == ls[k + 1];
        }
      }
      LinesOfJoin(ls[1..]);
      LinesCons(ls[0], JoinLines(ls[1..]));
    }
  }

  /** Every line but the last occurs, with its newline, in the joined text. */
  lemma {:induction false} JoinedLineOccurs(ls: seq<string>, k: nat)
    requires k < |ls| - 1
    ensures Contains(JoinLines(ls), ls[k] + "\n")
    decreases k
  {
    var tail := JoinLines(ls[1..]);
    assert JoinLines(ls) == ls[0] + "\n" + tail;
    if k == 0 {
      assert JoinLines(ls)[..|ls[0] + "\n"|] == ls[0] + "\n";
      ContainsAt(JoinLines(ls), ls[0] + "\n", 0);
    } else {
      JoinedLineOccurs(ls[1..], k - 1);
      ContainsInContext(ls[0] + "\n", tail, [], ls[k] + "\n");
      assert ls[0] + "\n" + tail + [] == JoinLines(ls);
    }
  }

  /** A join of two or more lines ends with a newline and the last line. */
  lemma {:induction false} JoinEndsWithLast(ls: seq<string>)
    requires |ls| >= 2
    ensures var j := JoinLines(ls); var e := "\n" + ls[|ls| - 1];
      |j| >= |e| && j[|j| - |e|..] == e
    decreases |ls|
  {
    var j := JoinLines(ls);
    var e := "\n" + ls[|ls| - 1];
    var tail := JoinLines(ls[1..]);
    assert j == ls[0] + "\n" + tail;
    if |ls| == 2 {
      assert tail == ls[1];
      assert j == ls[0] + e;
    } else {
      JoinEndsWithLast(ls[1..]);
      assert ls[1..][|ls[1..]| - 1] == ls[|ls| - 1];
      assert j[|j| - |e|..] == tail[|tail| - |e|..];
    }
  }

  /**
    A URL cut at its first '?': the endpoint before it and, when there is
    one, the query after it.
  */
  function SplitQuery(url: string): (r: (string, Option<string>))
    decreases |url|
  {
    if url == [] then ([], None)
    else if url[0] == '?' then ([], Some(url[1..]))
    else
      var rest := SplitQuery(url[1..]);
      ([url[0]] + rest.0, rest.1)
  }

  /** The part of a URL before its first '?'. */
  function Endpoint(url: string): string
  {
    SplitQuery(url).0
  }

  /**
    The value of a query made of the single parameter `param`: whatever
    follows "param=" (no percent-decoding, no splitting at '&').
  */
  function QueryValue(url: string, param: string): Option<string>
  {
    match SplitQuery(url).1
    case None => None
    case Some(q) =>
      if param + "=" <= q then Some(q[|param| + 1..]) else None
  }

  /** Cutting an endpoint without '?' off the front of a URL. */
  lemma {:induction false} SplitQueryAfter(base: string, query: string)
    requires '?' !in base
    ensures SplitQuery(base + "?" + query) == (base, Some(query))
    decreases |base|
  {
    if base == [] {
      assert base + "?" + query == "?" + query;
      assert ("?" + query)[1..] == query;
    } else {
      assert (base + "?" + query)[1..] == base[1..] + "?" + query;
      SplitQueryAfter(base[1..], query);
      assert [base[0]] + base[1..] == base;
    }
  }

  /**
    A URL formed as base + "?" + param + "=" + value gives back its endpoint
    and its value, whatever characters the value holds.
  */
  lemma QueryRoundTrip(base: string, param: string, value: string)
    requires '?' !in base
    ensures Endpoint(base + "?" + param + "=" + value) == base
    ensures QueryValue(base + "?" + param + "=" + value, param) == Some(value)
  {
    assert base + "?" + param + "=" + value == base + "?" + (param + "=" + value);
    SplitQueryAfter(base, param + "=" + value);
    assert (param + "=" + value)[..|param| + 1] == param + "=";
    assert (param + "=" + value)[|param| + 1..] == value;
  }
}
