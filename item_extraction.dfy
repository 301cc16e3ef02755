/**
  The clothing-item extraction of test.py:110-112:

      re.findall(r"\d+\.\s(.*?)\s-\s(.*?)(?=\n\d+\.|$)", wardrobe_plan)[:10]

  followed by formatting each pair of groups as "type: desc".

  The pattern is read with Python's `re` rules for a `str` pattern and no
  flags: `.` is any character but a newline, `\s` is any character that
  `str.isspace` accepts (the newline among them), `*?` is lazy, `\d+` is
  greedy, and `$` holds at the end of the text or just before a newline
  that is the last character.

  A match is described by a `Span` of positions in the reply:

      start   the first digit of the item number
      dot     the '.' after the number
      sep     the whitespace that opens the " - " separator
      end     where the lookahead holds (the match ends here)

  so that group 1 is s[dot + 2 .. sep] and group 2 is s[sep + 3 .. end].
 */
module ItemExtraction {
  import opened Wrappers

  /** Positions of one regex match inside the reply. */
  datatype Span = Span(start: nat, dot: nat, sep: nat, end: nat)

  /** At most this many matches are turned into items (test.py:112). */
  const MaxItems: nat := 10

  /** `\d`, restricted to the ASCII digits. */
  predicate IsDigit(c: char) {
    '0' <= c <= '9'
  }

  /** `\s` for a `str` pattern: exactly the characters `str.isspace` accepts. */
  predicate IsSpace(c: char) {
    var n := c as int;
    || 9 <= n <= 13            // \t \n \v \f \r
    || 28 <= n <= 32           // file, group, record and unit separators; space
    || n == 0x85 || n == 0xA0 || n == 0x1680
    || 0x2000 <= n <= 0x200A
    || n == 0x2028 || n == 0x2029 || n == 0x202F || n == 0x205F || n == 0x3000
  }

  // ---------------------------------------------------------------------
  // The meaning of the pattern, stated declaratively.
  // ---------------------------------------------------------------------

  /** `\n\d+\.` matches at `e`: a newline, one or more digits, a dot. */
  ghost predicate NumberedLineAt(s: string, e: nat) {
    && e < |s| && s[e] == '\n'
    && exists q :: e + 1 < q < |s| && s[q] == '.' && (forall k :: e + 1 <= k < q ==> IsDigit(s[k]))
  }

  /** `$` without MULTILINE: end of text, or before a final newline. */
  predicate EndAnchorAt(s: string, e: nat) {
    e == |s| || (e == |s| - 1 && s[e] == '\n')
  }

  /** The lookahead `(?=\n\d+\.|$)` holds at `e`. */
  ghost predicate LookaheadAt(s: string, e: nat) {
    NumberedLineAt(s, e) || EndAnchorAt(s, e)
  }

  /** `\s-\s` matches at `b`. */
  predicate SeparatorAt(s: string, b: nat) {
    b + 2 < |s| && IsSpace(s[b]) && s[b + 1] == '-' && IsSpace(s[b + 2])
  }

  /** No newline in s[lo..hi], which is what `.*` may consume there. */
  predicate SingleLine(s: string, lo: nat, hi: nat)
    requires lo <= hi <= |s|
  {
    forall k :: lo <= k < hi ==> s[k] != '\n'
  }

  /** A well-formed span lies inside the text with its parts in order. */
  predicate WellFormed(s: string, m: Span) {
    m.start < m.dot && m.dot + 2 <= m.sep && m.sep + 3 <= m.end <= |s|
  }

  /**
    The whole pattern matches s[m.start..m.end] with `\d+` covering
    s[m.start..m.dot], group 1 covering s[m.dot + 2..m.sep] and group 2
    covering s[m.sep + 3..m.end]: one way among possibly several in which
    the regex can match at m.start.
   */
  ghost predicate MatchesWith(s: string, m: Span) {
    && WellFormed(s, m)
    && (forall k :: m.start <= k < m.dot ==> IsDigit(s[k]))
    && s[m.dot] == '.' && IsSpace(s[m.dot + 1])
    && SingleLine(s, m.dot + 2, m.sep)
    && SeparatorAt(s, m.sep)
    && SingleLine(s, m.sep + 3, m.end)
    && LookaheadAt(s, m.end)
  }

  /**
    The backtracking order of Python's matcher: greedy `\d+` tries longer
    runs first, then lazy group 1 tries shorter captures first, then lazy
    group 2 does. `m` is tried before `m'` when it comes first in that order.
   */
  predicate TriedBefore(m: Span, m': Span) {
    || m.dot > m'.dot
    || (m.dot == m'.dot && m.sep < m'.sep)
    || (m.dot == m'.dot && m.sep == m'.sep && m.end < m'.end)
  }

  /** Group 1 (the item type) of a match. */
  function ItemType(s: string, m: Span): string
    requires WellFormed(s, m)
  {
    s[m.dot + 2..m.sep]
  }

  /** Group 2 (the description) of a match. */
  function Description(s: string, m: Span): string
    requires WellFormed(s, m)
  {
    s[m.sep + 3..m.end]
  }

  // ---------------------------------------------------------------------
  // The matcher, as Python's backtracking search resolves it.
  // ---------------------------------------------------------------------

  /** End of the run of digits that starts at `i`. */
  function DigitRunEnd(s: string, i: nat): (j: nat)
    requires i <= |s|
    ensures i <= j <= |s|
    ensures forall k :: i <= k < j ==> IsDigit(s[k])
    ensures j == |s| || !IsDigit(s[j])
    decreases |s| - i
  {
    if i < |s| && IsDigit(s[i]) then DigitRunEnd(s, i + 1) else i
  }

  /** The first newline at or after `i`, or the end of the text. */
  function LineEnd(s: string, i: nat): (e: nat)
    requires i <= |s|
    ensures i <= e <= |s|
    ensures SingleLine(s, i, e)
    ensures e == |s| || s[e] == '\n'
    decreases |s| - i
  {
    if i < |s| && s[i] != '\n' then LineEnd(s, i + 1) else i
  }

  /**
    The lookahead, decided: after the newline, `\d+` can only stop at the
    end of the digit run, since a digit is never '.'.
   */
  predicate LookaheadHolds(s: string, e: nat)
    requires e <= |s|
  {
    || EndAnchorAt(s, e)
    || (e < |s| && s[e] == '\n' &&
        var q := DigitRunEnd(s, e + 1); q > e + 1 && q < |s| && s[q] == '.')
  }

  /**
    Whether `\s-\s(.*?)(?=...)` succeeds with the separator at `b`. Group 2
    cannot contain a newline, and before the first newline (or the end)
    the lookahead cannot hold, so group 2 must stop exactly at that line end.
   */
  predicate TailMatchesAt(s: string, b: nat) {
    SeparatorAt(s, b) && LookaheadHolds(s, LineEnd(s, b + 3))
  }

  /** The first `b` in [lo, hi] at which the tail of the pattern succeeds. */
  function FirstSeparator(s: string, lo: nat, hi: nat): (r: Option<nat>)
    requires hi <= |s|
    ensures r.Some? ==> lo <= r.value <= hi && TailMatchesAt(s, r.value)
    ensures forall b :: lo <= b <= hi && (r.Some? ==> b < r.value) ==> !TailMatchesAt(s, b)
    decreases hi + 1 - lo
  {
    if lo > hi then None
    else if TailMatchesAt(s, lo) then Some(lo)
    else FirstSeparator(s, lo + 1, hi)
  }

  /**
    The match that Python's `re` finds when it tries the pattern at `i`,
    if any: the maximal digit run, then the shortest group 1 for which the
    rest succeeds, then group 2 up to the end of its line.
   */
  function MatchAt(s: string, i: nat): (r: Option<Span>)
    requires i <= |s|
    ensures r.Some? ==> r.value.start == i && WellFormed(s, r.value)
  {
    var j := DigitRunEnd(s, i);
    if j > i && j + 1 < |s| && s[j] == '.' && IsSpace(s[j + 1]) then
      match FirstSeparator(s, j + 2, LineEnd(s, j + 2))
      case None => None
      case Some(b) => Some(Span(i, j, b, LineEnd(s, b + 3)))
    else
      None
  }

  /** The decided lookahead is the declarative one. */
  lemma LookaheadHoldsIff(s: string, e: nat)
    requires e <= |s|
    ensures LookaheadHolds(s, e) <==> LookaheadAt(s, e)
  {
  }

  /** A digit run followed by '.' ends where the maximal run ends. */
  lemma DigitRunForced(s: string, i: nat, j: nat)
    requires i <= j < |s| && s[j] == '.'
    requires forall k :: i <= k < j ==> IsDigit(s[k])
    ensures j == DigitRunEnd(s, i)
  {
  }

  /** A newline-free stretch that ends at a newline or the end ends at the line end. */
  lemma LineEndForced(s: string, c: nat, e: nat)
    requires c <= e <= |s| && SingleLine(s, c, e)
    requires e == |s| || s[e] == '\n'
    ensures e == LineEnd(s, c)
  {
  }

  /** A newline-free stretch from `c` never passes the line end. */
  lemma WithinLine(s: string, c: nat, b: nat)
    requires c <= b <= |s| && SingleLine(s, c, b)
    ensures b <= LineEnd(s, c)
  {
  }

  /** What `MatchAt` returns is a match of the pattern. */
  lemma MatchAtSound(s: string, i: nat)
    requires i <= |s| && MatchAt(s, i).Some?
    ensures MatchesWith(s, MatchAt(s, i).value)
  {
    var m := MatchAt(s, i).value;
    LookaheadHoldsIff(s, m.end);
  }

  /**
    Any match of the pattern has the maximal digit run, a group 1 that
    stays on its line, a group 2 that ends at its line end, and a tail that
    succeeds at its separator.
   */
  lemma CandidateForced(s: string, m': Span)
    requires MatchesWith(s, m')
    ensures m'.dot == DigitRunEnd(s, m'.start)
    ensures m'.sep <= LineEnd(s, m'.dot + 2)
    ensures m'.end == LineEnd(s, m'.sep + 3)
    ensures TailMatchesAt(s, m'.sep)
  {
    DigitRunForced(s, m'.start, m'.dot);
    WithinLine(s, m'.dot + 2, m'.sep);
    LineEndForced(s, m'.sep + 3, m'.end);
    LookaheadHoldsIff(s, m'.end);
  }

  /**
    Any way the pattern can match at `i` has the same digit run as the one
    `MatchAt` picks, a group 1 no shorter, and, with the same group 1, the
    same group 2; in particular `MatchAt` returns the first match in
    Python's backtracking order, and finds one whenever one exists.
   */
  lemma MatchAtFirst(s: string, i: nat, m': Span)
    requires i <= |s| && m'.start == i && MatchesWith(s, m')
    ensures MatchAt(s, i).Some?
    ensures var m := MatchAt(s, i).value;
      m'.dot == m.dot && m.sep <= m'.sep && (m'.sep == m.sep ==> m'.end == m.end)
  {
    CandidateForced(s, m');
  }

  /** `MatchAt` is exactly the first match in Python's backtracking order. */
  lemma MatchAtIsPythonChoice(s: string, i: nat)
    requires i <= |s|
    ensures MatchAt(s, i).None? <==> !exists m': Span :: m'.start == i && MatchesWith(s, m')
    ensures MatchAt(s, i).Some? ==>
      var m := MatchAt(s, i).value;
      MatchesWith(s, m) &&
      forall m': Span :: m'.start == i && MatchesWith(s, m') && m' != m ==> TriedBefore(m, m')
  {
    if MatchAt(s, i).Some? {
      MatchAtSound(s, i);
      var m := MatchAt(s, i).value;
      forall m': Span | m'.start == i && MatchesWith(s, m') && m' != m
        ensures TriedBefore(m, m')
      {
        MatchAtFirst(s, i, m');
      }
    } else {
      if m': Span :| m'.start == i && MatchesWith(s, m') {
        MatchAtFirst(s, i, m');
      }
    }
  }

  // ---------------------------------------------------------------------
  // findall: left-to-right, non-overlapping.
  // ---------------------------------------------------------------------

  /** The matcher as a value: what trying the pattern at position `k` gives. */
  ghost function Finder(s: string): nat -> Option<Span> {
    (k: nat) => if k <= |s| then MatchAt(s, k) else None
  }

  /** Every match the matcher reports starts where it was tried and is not empty. */
  ghost predicate Advancing(found: nat -> Option<Span>) {
    forall k: nat :: found(k).Some? ==> found(k).value.start == k < found(k).value.end
  }

  /** The pattern never matches the empty string. */
  lemma FinderAdvances(s: string)
    ensures Advancing(Finder(s))
  {
    forall k: nat | Finder(s)(k).Some?
      ensures Finder(s)(k).value.start == k < Finder(s)(k).value.end
    {
      assert Finder(s)(k) == MatchAt(s, k);
    }
  }

  /**
    What `findall` must return from `pos` on, for a text of length `n` and
    a matcher `found`: each match is the one found at the first position
    (from where the previous match ended) at which the pattern matches,
    and no position after the last match, up to and including `n`, starts
    a match.
   */
  ghost predicate Leftmost(found: nat -> Option<Span>, n: nat, pos: nat, spans: seq<Span>)
    decreases |spans|
  {
    if spans == [] then
      forall k :: pos <= k <= n ==> found(k).None?
    else
      var m := spans[0];
      && pos <= m.start
      && (forall k :: pos <= k < m.start ==> found(k).None?)
      && found(m.start) == Some(m)
      && Leftmost(found, n, m.end, spans[1..])
  }

  /** The scanning loop of `re.findall` from position `pos`. */
  function Scan(s: string, pos: nat): (r: seq<Span>)
    requires pos <= |s|
    ensures Leftmost(Finder(s), |s|, pos, r)
    ensures forall t :: 0 <= t < |r| ==> WellFormed(s, r[t])
    decreases |s| - pos
  {
    var here := MatchAt(s, pos);
    if here.Some? then [here.value] + Scan(s, here.value.end)
    else if pos == |s| then []
    else Scan(s, pos + 1)
  }

  /** The leftmost condition determines the matches: it has one solution. */
  lemma {:induction false} LeftmostUnique(s: string, pos: nat, spans: seq<Span>)
    requires pos <= |s| && Leftmost(Finder(s), |s|, pos, spans)
    ensures spans == Scan(s, pos)
    decreases |s| - pos
  {
    var here := MatchAt(s, pos);
    assert Finder(s)(pos) == here;
    if here.Some? {
      assert spans != [] && spans[0] == here.value;
      LeftmostUnique(s, here.value.end, spans[1..]);
    } else if pos < |s| {
      assert spans != [] ==> pos < spans[0].start;
      LeftmostUnique(s, pos + 1, spans);
    }
  }

  /** Matches chosen leftmost-first are found where they start and come in order. */
  lemma {:induction false} LeftmostInOrder(found: nat -> Option<Span>, n: nat, pos: nat, spans: seq<Span>)
    requires Advancing(found) && Leftmost(found, n, pos, spans)
    ensures forall t :: 0 <= t < |spans| ==> pos <= spans[t].start && found(spans[t].start) == Some(spans[t])
    ensures forall t, u :: 0 <= t < u < |spans| ==> spans[t].end <= spans[u].start
    decreases |spans|
  {
    if spans != [] {
      var m, rest := spans[0], spans[1..];
      LeftmostInOrder(found, n, m.end, rest);
      forall t | 0 < t < |spans|
        ensures pos <= spans[t].start && found(spans[t].start) == Some(spans[t])
      {
        assert spans[t] == rest[t - 1];
      }
      forall t, u | 0 <= t < u < |spans| ensures spans[t].end <= spans[u].start {
        assert spans[u] == rest[u - 1];
        if t > 0 {
          assert spans[t] == rest[t - 1];
        }
      }
    }
  }

  /**
    The matches are in left-to-right order and do not overlap; each is a
    match of the pattern, so both captured groups are free of newlines and
    the lookahead holds where the match ends.
   */
  lemma ScanInOrder(s: string, pos: nat)
    requires pos <= |s|
    ensures var r := Scan(s, pos);
      && (forall t :: 0 <= t < |r| ==> pos <= r[t].start && MatchesWith(s, r[t]))
      && (forall t, u :: 0 <= t < u < |r| ==> r[t].end <= r[u].start)
  {
    var r := Scan(s, pos);
    FinderAdvances(s);
    LeftmostInOrder(Finder(s), |s|, pos, r);
    forall t | 0 <= t < |r| ensures MatchesWith(s, r[t]) {
      var k := r[t].start;
      assert Finder(s)(k) == Some(r[t]);
      MatchAtSound(s, k);
    }
  }

  /** The list of (group 1, group 2) pairs `re.findall` returns. */
  function FindAll(s: string): (r: seq<(string, string)>)
  {
    var spans := Scan(s, 0);
    seq(|spans|, t requires 0 <= t < |spans| => (ItemType(s, spans[t]), Description(s, spans[t])))
  }

  /** `flat_items`: the first ten pairs, each formatted as "type: desc". */
  function FlatItems(s: string): (r: seq<string>)
    ensures |r| <= MaxItems
    ensures |r| == if |FindAll(s)| < MaxItems then |FindAll(s)| else MaxItems
    ensures forall t :: 0 <= t < |r| ==> r[t] == FindAll(s)[t].0 + ": " + FindAll(s)[t].1
  {
    var pairs := FindAll(s);
    var kept := if |pairs| <= MaxItems then pairs else pairs[..MaxItems];
    seq(|kept|, t requires 0 <= t < |kept| => kept[t].0 + ": " + kept[t].1)
  }

  /**
    Each flat item comes from the corresponding match, in order: it is the
    item type, ": " and the description of a span at which the pattern
    matches, and the spans are disjoint and left to right.
   */
  lemma FlatItemsFromMatches(s: string)
    ensures var r := FlatItems(s); var spans := Scan(s, 0);
      && |r| <= |spans|
      && (forall t :: 0 <= t < |r| ==>
            MatchesWith(s, spans[t]) && r[t] == ItemType(s, spans[t]) + ": " + Description(s, spans[t]))
      && (forall t, u :: 0 <= t < u < |spans| ==> spans[t].end <= spans[u].start)
  {
    ScanInOrder(s, 0);
  }

  /** Neither captured group of a match contains a newline. */
  lemma GroupsSingleLine(s: string, m: Span)
    requires MatchesWith(s, m)
    ensures '\n' !in ItemType(s, m) && '\n' !in Description(s, m)
  {
  }

  /** No flat item contains a newline, whatever the reply. */
  lemma FlatItemsSingleLine(s: string)
    ensures forall t :: 0 <= t < |FlatItems(s)| ==> '\n' !in FlatItems(s)[t]
  {
    var r := FlatItems(s);
    var spans := Scan(s, 0);
    FlatItemsFromMatches(s);
    forall t | 0 <= t < |r| ensures '\n' !in r[t] {
      GroupsSingleLine(s, spans[t]);
    }
  }
}
