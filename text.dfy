/** Small datatypes shared by the other modules. */
module Wrappers {

  datatype Option<+T> = None | Some(value: T)
}

/**
  String helpers with the meaning the Python program gives them:
  `sep.join(xs)`, `str(n)` for a non-negative integer, and searching for a
  character or a substring.
 */
module Text {
  import opened Wrappers

  /** True when `t` occurs somewhere inside `s`. */
  ghost predicate Occurs(t: string, s: string) {
    exists p: string, q: string :: s == p + t + q
  }

  /** `t` occurs in any text that has `t` in a framed part of its tail. */
  lemma OccursInTail(x: string, a: string, t: string, b: string)
    ensures Occurs(t, x + (a + t + b))
  {
    assert x + (a + t + b) == (x + a) + t + b;
  }

  /** Every text occurs in itself. */
  lemma OccursItself(t: string)
    ensures Occurs(t, t)
  {
    assert t == [] + t + [];
  }

  /** True when `s` ends with `t`. */
  predicate EndsWith(s: string, t: string) {
    |t| <= |s| && s[|s| - |t|..] == t
  }

  /** A text ends with what was appended last. */
  lemma EndsWithAppend(x: string, t: string)
    ensures EndsWith(x + t, t)
  {
    assert (x + t)[|x|..] == t;
  }

  /** What occurs in `s` occurs in any text that contains `s`. */
  lemma OccursWithin(t: string, s: string, p: string, q: string)
    requires Occurs(t, s)
    ensures Occurs(t, p + s + q)
  {
    var a, b :| s == a + t + b;
    assert p + s + q == (p + a) + t + (b + q);
  }

  /** True when no element of `xs` contains the character `c`. */
  predicate NoneContains(xs: seq<string>, c: char) {
    forall i :: 0 <= i < |xs| ==> c !in xs[i]
  }

  /** Total length of the elements of `xs`. */
  function TotalLength(xs: seq<string>): nat {
    if xs == [] then 0 else |xs[0]| + TotalLength(xs[1..])
  }

  /**
    Python's `sep.join(xs)`: the elements in order with `sep` between
    neighbours; the empty list gives the empty string.
   */
  function Join(xs: seq<string>, sep: string): (r: string)
    ensures xs == [] ==> r == ""
    ensures xs != [] ==> |r| == TotalLength(xs) + (|xs| - 1) * |sep|
  {
    if xs == [] then ""
    else if |xs| == 1 then xs[0]
    else xs[0] + sep + Join(xs[1..], sep)
  }

  /** Concatenation is associative. */
  lemma AppendAssoc(a: string, b: string, c: string)
    ensures a + (b + c) == a + b + c
  {
  }

  /** Joining splits at any inner boundary into the join of both halves. */
  lemma {:induction false} JoinSplit(xs: seq<string>, k: nat, sep: string)
    requires 0 < k < |xs|
    ensures Join(xs, sep) == Join(xs[..k], sep) + sep + Join(xs[k..], sep)
  {
    if k == 1 {
      assert xs[..1] == [xs[0]];
      assert xs[1..] == xs[k..];
    } else {
      var tail := xs[1..];
      JoinSplit(tail, k - 1, sep);
      assert tail[..k - 1] == xs[1..k];
      assert tail[k - 1..] == xs[k..];
      assert xs[..k][1..] == xs[1..k];
      var a, j1, j2 := xs[0] + sep, Join(xs[1..k], sep), Join(xs[k..], sep);
      AppendAssoc(a, j1 + sep, j2);
      AppendAssoc(a, j1, sep);
      calc {
        Join(xs, sep);
        a + Join(tail, sep);
        a + (j1 + sep + j2);
        (a + j1) + sep + j2;
        Join(xs[..k], sep) + sep + j2;
      }
    }
  }

  /** The join of the first `k` elements is a prefix of the join of all. */
  lemma JoinPrefix(xs: seq<string>, k: nat, sep: string)
    requires k <= |xs|
    ensures Join(xs[..k], sep) <= Join(xs, sep)
  {
    if 0 < k < |xs| {
      JoinSplit(xs, k, sep);
    } else if k == |xs| {
      assert xs[..k] == xs;
    }
  }

  /** Every element of `xs` occurs in the join, between separators. */
  lemma JoinHasElement(xs: seq<string>, i: nat, sep: string)
    requires i < |xs|
    ensures Occurs(xs[i], Join(xs, sep))
  {
    var p, q := Join(xs[..i], sep), Join(xs[i + 1..], sep);
    var before := if i == 0 then "" else p + sep;
    var after := if i == |xs| - 1 then "" else sep + q;
    if i > 0 {
      JoinSplit(xs, i, sep);
    }
    var rest := xs[i..];
    if i < |xs| - 1 {
      JoinSplit(rest, 1, sep);
      assert rest[..1] == [xs[i]];
      assert rest[1..] == xs[i + 1..];
    } else {
      assert rest == [xs[i]];
    }
    assert Join(xs, sep) == before + xs[i] + after;
  }

  /** A character found neither in the elements nor in `sep` is not in the join. */
  lemma {:induction false} JoinAvoids(xs: seq<string>, sep: string, c: char)
    requires NoneContains(xs, c) && c !in sep
    ensures c !in Join(xs, sep)
  {
    if |xs| > 1 {
      JoinAvoids(xs[1..], sep, c);
    }
  }

  /** A suffix is its first element followed by the rest. */
  lemma ConsSuffix<T>(xs: seq<T>, i: nat)
    requires i < |xs|
    ensures [xs[i]] + xs[i + 1..] == xs[i..]
  {
  }

  /** Index of the first `c` in `s`, or `|s|` when there is none. */
  function IndexOf(s: string, c: char): (k: nat)
    ensures k <= |s|
    ensures c !in s[..k]
    ensures k < |s| ==> s[k] == c
  {
    if s == [] then 0
    else if s[0] == c then 0
    else 1 + IndexOf(s[1..], c)
  }

  /** The first `c` after a `c`-free prefix is the one right after it. */
  lemma IndexOfAfter(v: string, c: char, t: string)
    requires c !in v
    ensures IndexOf(v + [c] + t, c) == |v|
  {
    var s := v + [c] + t;
    assert s[|v|] == c;
    assert s[..|v|] == v;
  }

  /** A `c`-free prefix shifts the first `c` by its length. */
  lemma {:induction false} IndexOfShift(v: string, x: string, c: char)
    requires c !in v
    ensures IndexOf(v + x, c) == |v| + IndexOf(x, c)
  {
    if v != [] {
      assert (v + x)[1..] == v[1..] + x;
      IndexOfShift(v[1..], x, c);
    } else {
      assert v + x == x;
    }
  }

  /** The text between `head` and `tail` when `w` starts with one and ends with the other. */
  function Between(head: string, tail: string, w: string): (r: Option<string>)
    ensures r.Some? ==> w == head + r.value + tail
  {
    if |head| + |tail| <= |w| && w[..|head|] == head && w[|w| - |tail|..] == tail then
      var p := w[|head|..|w| - |tail|];
      assert w == w[..|head|] + p + w[|w| - |tail|..];
      Some(p)
    else
      None
  }

  /** Framing `p` with `head` and `tail` and taking the frame off again gives `p`. */
  lemma BetweenFramed(head: string, p: string, tail: string)
    ensures Between(head, tail, head + p + tail) == Some(p)
  {
    var w := head + p + tail;
    assert w[..|head|] == head;
    assert w[|w| - |tail|..] == tail;
    assert w[|head|..|w| - |tail|] == p;
  }

  /**
    Splits `m` around the separator `mid`, placed so that the first line
    break of `m` is the first line break of `mid`; `None` when `mid` is not
    there.
   */
  function SplitAround(m: string, mid: string): (r: Option<(string, string)>)
    ensures r.Some? ==> m == r.value.0 + mid + r.value.1
  {
    var k, d := IndexOf(m, '\n'), IndexOf(mid, '\n');
    if d <= k && k - d + |mid| <= |m| && m[k - d..k - d + |mid|] == mid then
      var a, b := m[..k - d], m[k - d + |mid|..];
      assert m == a + m[k - d..k - d + |mid|] + b;
      Some((a, b))
    else
      None
  }

  /** A one-line first part and a separator holding a line break split back apart. */
  lemma SplitAroundJoined(a: string, mid: string, b: string)
    requires '\n' !in a && '\n' in mid
    ensures SplitAround(a + mid + b, mid) == Some((a, b))
  {
    var m := a + mid + b;
    assert m == a + (mid + b);
    IndexOfShift(a, mid + b, '\n');
    var d := IndexOf(mid, '\n');
    assert d < |mid|;
    assert IndexOf(mid + b, '\n') == d by {
      assert mid + b == mid[..d] + [mid[d]] + (mid[d + 1..] + b);
      IndexOfAfter(mid[..d], '\n', mid[d + 1..] + b);
    }
    assert m[|a|..|a| + |mid|] == mid;
    assert m[..|a|] == a;
    assert m[|a| + |mid|..] == b;
  }

  /** Numeric value of a decimal digit character. */
  function DigitValue(c: char): nat
    requires '0' <= c <= '9'
  {
    (c as int - '0' as int) as nat
  }

  /** Decimal digit character of `d`. */
  function DigitChar(d: nat): (c: char)
    requires d < 10
  {
    ('0' as int + d) as char
  }

  predicate AllDigits(s: string) {
    forall i :: 0 <= i < |s| ==> '0' <= s[i] <= '9'
  }

  /** The value of a string of decimal digits, most significant first. */
  function DecimalValue(s: string): nat
    requires AllDigits(s)
  {
    if s == [] then 0
    else 10 * DecimalValue(s[..|s| - 1]) + DigitValue(s[|s| - 1])
  }

  /**
    Python's `str(n)` for `n >= 0`: decimal digits without leading zeros
    ("0" for zero).
   */
  function NatToDecimal(n: nat): (r: string)
    ensures |r| >= 1 && AllDigits(r)
    ensures r[0] == '0' ==> n == 0 && r == "0"
  {
    if n < 10 then [DigitChar(n)]
    else NatToDecimal(n / 10) + [DigitChar(n % 10)]
  }

  /** Reading back the decimal rendering gives the number. */
  lemma {:induction false} DecimalRoundTrip(n: nat)
    ensures DecimalValue(NatToDecimal(n)) == n
  {
    var r := NatToDecimal(n);
    if n >= 10 {
      DecimalRoundTrip(n / 10);
      assert r[..|r| - 1] == NatToDecimal(n / 10);
    }
  }

  /** A decimal rendering has no newline in it. */
  lemma DecimalSingleLine(n: nat)
    ensures '\n' !in NatToDecimal(n)
  {
  }
}
