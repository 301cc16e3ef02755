/**
  The style-profile block of test.py:62-72: the submitted form values as a
  fixed list of labelled lines, multi-selections joined with ", " in the
  order they were selected, and an empty selection left empty.
 */
module StyleProfile {
  import opened Wrappers
  import opened Text

  /** The values the form collects (test.py:23-55). */
  datatype StyleForm = StyleForm(
    name: string,
    age: nat,
    gender: string,
    bodyType: string,
    topSize: string,
    bottomSize: string,
    colorPalette: seq<string>,
    styleInspiration: seq<string>,
    avoids: string,
    lifestyle: seq<string>,
    investment: nat)

  /** Separator of the multi-selections: Python's `', '.join`. */
  const ListSeparator: string := ", "

  /** Indentation the triple-quoted f-string keeps at the start of each line. */
  const Indent: string := "    "

  /** The line break and indentation before the closing quotes. */
  const ClosingLine: string := "\n" + Indent

  /** One line of the block: a line break, the indentation, "<label>: <value>". */
  function FieldLine(label_: string, value: string): string {
    "\n" + Indent + label_ + ": " + value
  }

  /**
    `style_profile` as the f-string of test.py:62-72 builds it: nine
    labelled lines, then a line break and the indentation of the closing
    quotes. The sizes line holds two values, "Top <top>, Bottom <bottom>".
   */
  function Profile(f: StyleForm): string {
    FieldLine("Gender Identity", f.gender) +
    FieldLine("Age", NatToDecimal(f.age)) +
    FieldLine("Body Type", f.bodyType) +
    FieldLine("Sizes", "Top " + f.topSize + ", Bottom " + f.bottomSize) +
    FieldLine("Color Preferences", Join(f.colorPalette, ListSeparator)) +
    FieldLine("Style Inspiration", Join(f.styleInspiration, ListSeparator)) +
    FieldLine("Avoids", f.avoids) +
    FieldLine("Lifestyle Needs", Join(f.lifestyle, ListSeparator)) +
    FieldLine("Monthly Budget", "$" + NatToDecimal(f.investment)) +
    ClosingLine
  }

  /** The labels of the profile block, in order. */
  const FieldLabels: seq<string> := [
    "Gender Identity", "Age", "Body Type", "Sizes", "Color Preferences",
    "Style Inspiration", "Avoids", "Lifestyle Needs", "Monthly Budget"]

  /** The text that follows each label, in the order of `FieldLabels`. */
  function FieldValues(f: StyleForm): (vs: seq<string>)
    ensures |vs| == |FieldLabels|
  {
    [ f.gender,
      NatToDecimal(f.age),
      f.bodyType,
      "Top " + f.topSize + ", Bottom " + f.bottomSize,
      Join(f.colorPalette, ListSeparator),
      Join(f.styleInspiration, ListSeparator),
      f.avoids,
      Join(f.lifestyle, ListSeparator),
      "$" + NatToDecimal(f.investment) ]
  }

  /** The field lines for `labels[i..]` and `values[i..]`, paired in order, then the closing line. */
  function Block(labels: seq<string>, values: seq<string>, i: nat): (r: string)
    requires |labels| == |values| && i <= |labels|
    ensures |r| > 0 && r[0] == '\n'
    decreases |labels| - i
  {
    if i == |labels| then ClosingLine
    else FieldLine(labels[i], values[i]) + Block(labels, values, i + 1)
  }

  /** The field lines for the first `n` labels and values, paired in order. */
  function RenderFirst(labels: seq<string>, values: seq<string>, n: nat): string
    requires |labels| == |values| && n <= |labels|
  {
    if n == 0 then ""
    else RenderFirst(labels, values, n - 1) + FieldLine(labels[n - 1], values[n - 1])
  }

  /** The first `n` lines followed by the block from `n` on are the whole block. */
  lemma {:induction false} RenderSplit(labels: seq<string>, values: seq<string>, n: nat)
    requires |labels| == |values| && n <= |labels|
    ensures RenderFirst(labels, values, n) + Block(labels, values, n) == Block(labels, values, 0)
  {
    if n > 0 {
      RenderSplit(labels, values, n - 1);
      var a, l, r := RenderFirst(labels, values, n - 1), FieldLine(labels[n - 1], values[n - 1]), Block(labels, values, n);
      assert RenderFirst(labels, values, n) == a + l;
      assert Block(labels, values, n - 1) == l + r;
      assert (a + l) + r == a + (l + r);
    }
  }

  /**
    Reads field lines back: for each expected label from `labels[i]` on, a
    line "<label>: <value>" after a line break and the indentation, the
    value running to the next line break; then the closing line, and
    nothing more.
   */
  function ParseFields(s: string, labels: seq<string>, i: nat): (r: Option<seq<string>>)
    requires i <= |labels|
    ensures r.Some? ==> |r.value| == |labels| - i
    decreases |labels| - i
  {
    if i == |labels| then
      if s == ClosingLine then Some([]) else None
    else
      var head := "\n" + Indent + labels[i] + ": ";
      if |head| <= |s| && s[..|head|] == head then
        var rest := s[|head|..];
        var k := IndexOf(rest, '\n');
        match ParseFields(rest[k..], labels, i + 1)
        case None => None
        case Some(vs) => Some([rest[..k]] + vs)
      else
        None
  }

  /** Reads a profile block back into the values of its fields, in label order. */
  function ParseProfile(s: string): (r: Option<seq<string>>)
    ensures r.Some? ==> |r.value| == |FieldLabels|
  {
    ParseFields(s, FieldLabels, 0)
  }

  /** No value the profile shows spans more than one line. */
  predicate SingleLineForm(f: StyleForm) {
    && '\n' !in f.gender && '\n' !in f.bodyType && '\n' !in f.topSize
    && '\n' !in f.bottomSize && '\n' !in f.avoids
    && NoneContains(f.colorPalette, '\n')
    && NoneContains(f.styleInspiration, '\n')
    && NoneContains(f.lifestyle, '\n')
  }

  /** The profile block is its nine field lines, then the closing line. */
  lemma ProfileIsFirstLines(f: StyleForm)
    ensures Profile(f) == RenderFirst(FieldLabels, FieldValues(f), 9) + ClosingLine
  {
    var vs := FieldValues(f);
    var ls := FieldLabels;
    var p0 := FieldLine(ls[0], vs[0]);
    assert RenderFirst(ls, vs, 1) == p0;
    var p1 := p0 + FieldLine(ls[1], vs[1]);
    assert RenderFirst(ls, vs, 2) == p1;
    var p2 := p1 + FieldLine(ls[2], vs[2]);
    assert RenderFirst(ls, vs, 3) == p2;
    var p3 := p2 + FieldLine(ls[3], vs[3]);
    assert RenderFirst(ls, vs, 4) == p3;
    var p4 := p3 + FieldLine(ls[4], vs[4]);
    assert RenderFirst(ls, vs, 5) == p4;
    var p5 := p4 + FieldLine(ls[5], vs[5]);
    assert RenderFirst(ls, vs, 6) == p5;
    var p6 := p5 + FieldLine(ls[6], vs[6]);
    assert RenderFirst(ls, vs, 7) == p6;
    var p7 := p6 + FieldLine(ls[7], vs[7]);
    assert RenderFirst(ls, vs, 8) == p7;
    var p8 := p7 + FieldLine(ls[8], vs[8]);
    assert RenderFirst(ls, vs, 9) == p8;
  }

  /** The profile block is the field lines of `FieldValues`, in label order. */
  lemma ProfileIsBlock(f: StyleForm)
    ensures Profile(f) == Block(FieldLabels, FieldValues(f), 0)
  {
    ProfileIsFirstLines(f);
    RenderSplit(FieldLabels, FieldValues(f), 9);
  }

  /** One field line with a one-line value reads back as that value. */
  lemma ParseStep(labels: seq<string>, i: nat, v: string, tail: string)
    requires i < |labels| && '\n' !in v && |tail| > 0 && tail[0] == '\n'
    ensures ParseFields(tail, labels, i + 1).Some? ==>
      ParseFields(FieldLine(labels[i], v) + tail, labels, i) == Some([v] + ParseFields(tail, labels, i + 1).value)
  {
    var head := "\n" + Indent + labels[i] + ": ";
    var s := FieldLine(labels[i], v) + tail;
    assert s == head + (v + tail);
    var rest := s[|head|..];
    assert rest == v + [tail[0]] + tail[1..];
    IndexOfAfter(v, '\n', tail[1..]);
    assert rest[..|v|] == v;
    assert rest[|v|..] == tail;
  }

  /** Reading back a block reads its first line, then the rest of the block. */
  lemma ParseBlockStep(labels: seq<string>, values: seq<string>, i: nat)
    requires |labels| == |values| && i < |labels| && '\n' !in values[i]
    ensures ParseFields(Block(labels, values, i + 1), labels, i + 1).Some? ==>
      ParseFields(Block(labels, values, i), labels, i)
        == Some([values[i]] + ParseFields(Block(labels, values, i + 1), labels, i + 1).value)
  {
    var b := Block(labels, values, i + 1);
    assert Block(labels, values, i) == FieldLine(labels[i], values[i]) + b;
    ParseStep(labels, i, values[i], b);
  }

  /** Reading back a block of one-line values gives the values. */
  lemma {:induction false} ParseRendered(labels: seq<string>, values: seq<string>, i: nat)
    requires |labels| == |values| && i <= |labels| && NoneContains(values, '\n')
    ensures ParseFields(Block(labels, values, i), labels, i) == Some(values[i..])
    decreases |labels| - i
  {
    if i < |labels| {
      ParseRendered(labels, values, i + 1);
      ParseBlockStep(labels, values, i);
      ConsSuffix(values, i);
    } else {
      ParseClosing(labels, values);
    }
  }

  /** The closing line alone reads back as no values. */
  lemma ParseClosing(labels: seq<string>, values: seq<string>)
    requires |labels| == |values|
    ensures ParseFields(Block(labels, values, |labels|), labels, |labels|) == Some(values[|labels|..])
  {
    assert values[|labels|..] == [];
  }

  /**
    When every value is on one line, the profile block reads back as its
    fields: the labels in order, each followed by exactly its value, so the
    multi-selections appear joined with ", " in selection order.
   */
  lemma ProfileRoundTrip(f: StyleForm)
    requires SingleLineForm(f)
    ensures ParseProfile(Profile(f)) == Some(FieldValues(f))
  {
    var vs := FieldValues(f);
    ProfileIsBlock(f);
    FieldValuesSingleLine(f);
    ParseRendered(FieldLabels, vs, 0);
    assert vs[0..] == vs;
  }

  /** On a one-line form every field value is one line. */
  lemma FieldValuesSingleLine(f: StyleForm)
    requires SingleLineForm(f)
    ensures NoneContains(FieldValues(f), '\n')
  {
    DecimalSingleLine(f.age);
    DecimalSingleLine(f.investment);
    JoinAvoids(f.colorPalette, ListSeparator, '\n');
    JoinAvoids(f.styleInspiration, ListSeparator, '\n');
    JoinAvoids(f.lifestyle, ListSeparator, '\n');
  }

  /**
    A field whose value is empty leaves its label directly before a line
    break, on its own line: after the first `k` field lines and before the
    rest of the block.
   */
  lemma EmptyValueLine(labels: seq<string>, values: seq<string>, k: nat)
    requires |labels| == |values| && k < |labels| && values[k] == ""
    ensures Block(labels, values, 0)
      == RenderFirst(labels, values, k) + (FieldLine(labels[k], "") + "\n") + Block(labels, values, k + 1)[1..]
    ensures Occurs(FieldLine(labels[k], "") + "\n", Block(labels, values, 0))
  {
    RenderSplit(labels, values, k);
    var a, l, r := RenderFirst(labels, values, k), FieldLine(labels[k], ""), Block(labels, values, k + 1);
    assert Block(labels, values, k) == l + r;
    assert r == "\n" + r[1..];
    assert Block(labels, values, 0) == a + (l + "\n") + r[1..];
  }

  /**
    An empty multi-selection gives an empty field value, so its label is
    followed directly by the end of its own line (`EmptyFieldInProfile`):
    no placeholder is written.
   */
  lemma EmptySelectionsStayEmpty(f: StyleForm)
    ensures f.colorPalette == [] ==> FieldValues(f)[4] == ""
    ensures f.styleInspiration == [] ==> FieldValues(f)[5] == ""
    ensures f.lifestyle == [] ==> FieldValues(f)[7] == ""
    ensures f.colorPalette == [] ==> Occurs(FieldLine("Color Preferences", "") + "\n", Profile(f))
    ensures f.styleInspiration == [] ==> Occurs(FieldLine("Style Inspiration", "") + "\n", Profile(f))
    ensures f.lifestyle == [] ==> Occurs(FieldLine("Lifestyle Needs", "") + "\n", Profile(f))
  {
    if f.colorPalette == [] {
      EmptyFieldInProfile(f, 4);
    }
    if f.styleInspiration == [] {
      EmptyFieldInProfile(f, 5);
    }
    if f.lifestyle == [] {
      EmptyFieldInProfile(f, 7);
    }
  }

  /**
    A profile field whose value is empty ends its own line right after the
    label: that line follows the first `k` field lines of the profile.
   */
  lemma EmptyFieldInProfile(f: StyleForm, k: nat)
    requires k < |FieldLabels| && FieldValues(f)[k] == ""
    ensures Profile(f)
      == RenderFirst(FieldLabels, FieldValues(f), k) + (FieldLine(FieldLabels[k], "") + "\n")
         + Block(FieldLabels, FieldValues(f), k + 1)[1..]
    ensures Occurs(FieldLine(FieldLabels[k], "") + "\n", Profile(f))
  {
    ProfileIsBlock(f);
    EmptyValueLine(FieldLabels, FieldValues(f), k);
  }

  /** The name is collected but never written into the profile. */
  lemma ProfileIgnoresName(f: StyleForm, other: string)
    ensures Profile(f.(name := other)) == Profile(f)
  {
  }
}
