/**
  The picture request of test.py:115-122: the first eight formatted items
  joined with ", " (or "Various clothing items" when there are none), the
  chosen colours joined with ", " (or "neutral palette" when none were
  chosen), inside a fixed template that always ends by ruling out people.
 */
module ImagePrompt {
  import opened Wrappers
  import opened Text
  import StyleProfile
  import ItemExtraction

  /** Indentation the triple-quoted f-string keeps at the start of each line. */
  const ImageIndent: string := "        "

  /** At most this many items are named in the picture request (`flat_items[:8]`). */
  const MaxShown: nat := 8

  /** Written in place of the item list when no item was extracted. */
  const ItemsFallback: string := "Various clothing items"

  /** Written in place of the colours when none was chosen. */
  const ColorsFallback: string := "neutral palette"

  /** The closing clause that rules out people in the picture. */
  const NoModelsClause: string := "No human figures or models."

  /** The template up to the item list. */
  const ImageHead: string :=
    "\n" + ImageIndent + "Professional flat lay of a gender-neutral capsule wardrobe collection showing:"
    + "\n" + ImageIndent

  /** The template between the item list and the colours (each line ends with a space). */
  const ImageMid: string :=
    " " + "\n" + ImageIndent + "arranged artistically on a neutral background. "
    + "\n" + ImageIndent + "Colors: "

  /** The template after the colours up to `NoModelsClause`. */
  const ImageTailBefore: string :=
    "." + "\n" + ImageIndent + "Editorial product photography style, clean lines, perfect lighting, "
    + "\n" + ImageIndent + "minimalist composition. "

  /** The template after `NoModelsClause`: the indentation of the closing quotes. */
  const ImageTailAfter: string := "\n" + ImageIndent

  /** The template after the colours. */
  const ImageTail: string := ImageTailBefore + NoModelsClause + ImageTailAfter

  /** How many of `items` the picture request names. */
  function Shown(items: seq<string>): (n: nat)
    ensures n <= MaxShown && n <= |items|
    ensures n == MaxShown || n == |items|
  {
    if |items| < MaxShown then |items| else MaxShown
  }

  /** The item part: the first `Shown` items joined with ", ", or the fallback. */
  function ItemsClause(items: seq<string>): string {
    if items == [] then ItemsFallback else Join(items[..Shown(items)], StyleProfile.ListSeparator)
  }

  /** The colour part: the colours joined with ", ", or the fallback. */
  function ColorsClause(colors: seq<string>): string {
    if colors == [] then ColorsFallback else Join(colors, StyleProfile.ListSeparator)
  }

  /** `image_prompt` for the formatted items and the chosen colours. */
  function Prompt(items: seq<string>, colors: seq<string>): string {
    ImageHead + ItemsClause(items) + ImageMid + ColorsClause(colors) + ImageTail
  }

  /**
    Reads a picture request back into its item part and colour part; `None`
    when the text is not the template filled in with a one-line item part.
   */
  function ParsePrompt(w: string): (r: Option<(string, string)>)
    ensures r.Some? ==> w == ImageHead + r.value.0 + ImageMid + r.value.1 + ImageTail
  {
    match Between(ImageHead, ImageTail, w)
    case None => None
    case Some(m) =>
      match SplitAround(m, ImageMid)
      case None => None
      case Some(parts) =>
        Regroup(ImageHead, parts.0, ImageMid, parts.1, ImageTail);
        Some(parts)
  }

  /** Filling the template's five pieces does not depend on how they are grouped. */
  lemma Regroup(h: string, a: string, m: string, b: string, t: string)
    ensures h + (a + m + b) + t == h + a + m + b + t
  {
  }

  /** A template filled with a one-line first part reads back as its two parts. */
  lemma FilledReadsBack(h: string, a: string, m: string, b: string, t: string)
    requires '\n' !in a && '\n' in m
    ensures Between(h, t, h + a + m + b + t) == Some(a + m + b)
    ensures SplitAround(a + m + b, m) == Some((a, b))
  {
    Regroup(h, a, m, b, t);
    BetweenFramed(h, a + m + b, t);
    SplitAroundJoined(a, m, b);
  }

  /** The fallback and the separator are one line each. */
  lemma FallbackSingleLine()
    ensures '\n' !in ItemsFallback && '\n' !in StyleProfile.ListSeparator
  {
  }

  /** The item part is one line when the items are. */
  lemma ItemsClauseSingleLine(items: seq<string>)
    requires NoneContains(items, '\n')
    ensures '\n' !in ItemsClause(items)
  {
    FallbackSingleLine();
    if items != [] {
      JoinAvoids(items[..Shown(items)], StyleProfile.ListSeparator, '\n');
    }
  }

  /**
    With one-line items the request reads back as exactly its item part and
    its colour part: nothing else lands between the template's pieces.
   */
  lemma PromptRoundTrip(items: seq<string>, colors: seq<string>)
    requires NoneContains(items, '\n')
    ensures ParsePrompt(Prompt(items, colors)) == Some((ItemsClause(items), ColorsClause(colors)))
  {
    ItemsClauseSingleLine(items);
    assert ImageMid[1] == '\n';
    FilledReadsBack(ImageHead, ItemsClause(items), ImageMid, ColorsClause(colors), ImageTail);
  }

  /** Every request, for every input, contains and ends with the clause ruling out people. */
  lemma PromptRulesOutModels(items: seq<string>, colors: seq<string>)
    ensures Occurs(NoModelsClause, Prompt(items, colors))
    ensures EndsWith(Prompt(items, colors), NoModelsClause + ImageTailAfter)
  {
    var x := ImageHead + ItemsClause(items) + ImageMid + ColorsClause(colors);
    AppendAssoc(x, ImageTailBefore + NoModelsClause, ImageTailAfter);
    AppendAssoc(x, ImageTailBefore, NoModelsClause);
    AppendAssoc(x + ImageTailBefore, NoModelsClause, ImageTailAfter);
    EndsWithAppend(x + ImageTailBefore, NoModelsClause + ImageTailAfter);
  }

  /** `t` in the first or the second filled-in part is in the filled-in template. */
  lemma OccursInFilled(t: string, h: string, a: string, m: string, b: string, tl: string)
    requires Occurs(t, a) || Occurs(t, b)
    ensures Occurs(t, h + a + m + b + tl)
  {
    if Occurs(t, a) {
      OccursWithin(t, a, h, m + b + tl);
      AppendAssoc(h + a, m + b, tl);
      AppendAssoc(h + a, m, b);
    } else {
      OccursWithin(t, b, h + a + m, tl);
    }
  }

  /** Without items the request says "Various clothing items". */
  lemma NoItemsFallback(items: seq<string>, colors: seq<string>)
    requires items == []
    ensures ItemsClause(items) == ItemsFallback
    ensures Occurs(ItemsFallback, Prompt(items, colors))
  {
    OccursItself(ItemsFallback);
    OccursInFilled(ItemsFallback, ImageHead, ItemsClause(items), ImageMid, ColorsClause(colors), ImageTail);
  }

  /**
    Without colours the request says "neutral palette"; otherwise it holds
    the colours joined with ", " in selection order, and each colour.
   */
  lemma ColorsInPrompt(items: seq<string>, colors: seq<string>)
    ensures colors == [] ==> Occurs(ColorsFallback, Prompt(items, colors))
    ensures colors != [] ==> Occurs(Join(colors, StyleProfile.ListSeparator), Prompt(items, colors))
    ensures forall i :: 0 <= i < |colors| ==> Occurs(colors[i], Prompt(items, colors))
  {
    var c := ColorsClause(colors);
    OccursItself(c);
    OccursInFilled(c, ImageHead, ItemsClause(items), ImageMid, c, ImageTail);
    forall i | 0 <= i < |colors|
      ensures Occurs(colors[i], Prompt(items, colors))
    {
      JoinHasElement(colors, i, StyleProfile.ListSeparator);
      OccursInFilled(colors[i], ImageHead, ItemsClause(items), ImageMid, c, ImageTail);
    }
  }

  /**
    The item part names the first `Shown` items, in order: it is the join of
    them and a prefix of the join of all items.
   */
  lemma ItemsClauseKeepsFirst(items: seq<string>)
    requires items != []
    ensures ItemsClause(items) == Join(items[..Shown(items)], StyleProfile.ListSeparator)
    ensures ItemsClause(items) <= Join(items, StyleProfile.ListSeparator)
  {
    JoinPrefix(items, Shown(items), StyleProfile.ListSeparator);
  }

  /** Items past the eighth do not change the item part. */
  lemma ItemsPastEighthIgnored(items: seq<string>)
    requires |items| > MaxShown
    ensures ItemsClause(items) == ItemsClause(items[..MaxShown])
  {
    var first := items[..MaxShown];
    assert first[..Shown(first)] == first;
  }

  /** Each of the first eight items is named in the request. */
  lemma ShownItemsInPrompt(items: seq<string>, colors: seq<string>, i: nat)
    requires i < Shown(items)
    ensures Occurs(items[i], Prompt(items, colors))
  {
    var shown := items[..Shown(items)];
    JoinHasElement(shown, i, StyleProfile.ListSeparator);
    OccursInFilled(items[i], ImageHead, ItemsClause(items), ImageMid, ColorsClause(colors), ImageTail);
  }

  /** The item part lists item `j` after all items before it. */
  lemma ShownItemsInOrder(items: seq<string>, j: nat)
    requires 0 < j < Shown(items)
    ensures ItemsClause(items)
      == Join(items[..j], StyleProfile.ListSeparator) + StyleProfile.ListSeparator
         + Join(items[j..Shown(items)], StyleProfile.ListSeparator)
  {
    var shown := items[..Shown(items)];
    JoinSplit(shown, j, StyleProfile.ListSeparator);
    assert shown[..j] == items[..j];
    assert shown[j..] == items[j..Shown(items)];
  }

  /** The request built from a chat reply and the chosen colours. */
  function PromptForReply(reply: string, colors: seq<string>): string {
    Prompt(ItemExtraction.FlatItems(reply), colors)
  }

  /**
    From any chat reply: the item part is the fallback exactly when no
    item was extracted, otherwise the join of the first eight of at most
    ten formatted items; and the request reads back as those two parts.
   */
  lemma ReplyToPrompt(reply: string, colors: seq<string>)
    ensures var items := ItemExtraction.FlatItems(reply);
      && |items| <= ItemExtraction.MaxItems
      && (items == [] <==> ItemExtraction.FindAll(reply) == [])
      && ParsePrompt(PromptForReply(reply, colors)) == Some((ItemsClause(items), ColorsClause(colors)))
  {
    var items := ItemExtraction.FlatItems(reply);
    ItemExtraction.FlatItemsSingleLine(reply);
    PromptRoundTrip(items, colors);
  }
}
