# Personal Style Architect: text pipeline model

`test.py` is a Streamlit page that collects a style profile. It asks a chat
model for a capsule wardrobe, extracts clothing items from the reply and
asks an image model for a flat-lay picture. Between the widgets and the
remote calls sits a small pipeline of pure string manipulation. This
project models that pipeline in Dafny and proves what it guarantees:

- **Style profile** (`style_profile.dfy`, test.py:62-72): the form values as
  nine labelled lines. Each multi-selection is joined with `", "` in the
  order it was selected. An empty selection leaves the value empty.
  `Profile` is the f-string exactly, whitespace included. `ParseProfile`
  reads the block back, and the round trip is proved for one-line values.
- **Wardrobe prompt** (`wardrobe_prompt.dfy`, test.py:74-92): a fixed
  instruction template with the profile placed unchanged after
  "Client profile:". `ClientProfile` recovers the profile from a prompt.
- **Item extraction** (`item_extraction.dfy`, test.py:110-112): the pattern
  `\d+\.\s(.*?)\s-\s(.*?)(?=\n\d+\.|$)` under Python `re` rules. It has
  two parts:
  - A declarative statement of what a match is (`MatchesWith`) and of
    Python's backtracking preference (`TriedBefore`).
  - A decided matcher (`MatchAt`), proved to return exactly Python's choice.
    `Scan` models `findall`'s left-to-right scan for non-overlapping
    matches, and is proved to be the only sequence that satisfies the
    leftmost-first condition.
  `FlatItems` keeps the first ten matches and formats each as
  `"type: desc"`.
- **Image prompt** (`image_prompt.dfy`, test.py:115-122): the first eight
  items joined with `", "` or "Various clothing items", the colours joined
  with `", "` or "neutral palette". The template always ends with "No human
  figures or models.". `ParsePrompt` reads the two filled-in parts back.
- **Text helpers** (`text.dfy`): `sep.join`, `str(n)` for non-negative
  integers, first index of a character, framing and splitting.

An empty selection yields an empty value, with no placeholder. The reply
is searched only with the item pattern; there is no section splitter.

## Model

| member | source | states |
|---|---|---|
| Text.Join | test.py:67-70 | `', '.join` gives "" for an empty list, and its length is the element lengths plus one separator between neighbours |
| Text.JoinSplit | test.py:67-70 | the join of a list is the join of any nonempty prefix, the separator, then the join of the rest, so elements keep their selection order |
| Text.JoinHasElement | test.py:119 | every element of a joined list occurs in the joined text |
| Text.JoinAvoids | test.py:67-70 | a character absent from the elements and from the separator is absent from the join |
| Text.DecimalRoundTrip | test.py:64 | `str(n)` of a non-negative integer reads back as `n` |
| Text.NatToDecimal | test.py:71 | `str(n)` is one or more decimal digits, with no leading zero unless `n` is 0 |
| StyleProfile.ProfileIsBlock | test.py:62-72 | the profile is the nine "label: value" lines in label order, each on its own indented line, then the closing indentation |
| StyleProfile.ParseRendered | test.py:62-72 | reading back a rendered block of one-line values gives exactly the values, in order |
| StyleProfile.ProfileRoundTrip | test.py:62-72 | for one-line form values, the profile reads back as the nine field values: each multi-selection joined with ", " in selection order, the age and budget in decimal |
| StyleProfile.EmptySelectionsStayEmpty | test.py:67-70 | an empty colour, style or lifestyle selection gives an empty field value, and "Label: " is directly followed by a line break, with no placeholder |
| StyleProfile.EmptyFieldInProfile | test.py:62-72 | any field with an empty value ends its own line right after the label: the profile is the preceding field lines, "Label: " and a line break, then the rest of the block |
| StyleProfile.FieldValuesSingleLine | test.py:62-72 | one-line inputs give one-line field values, including the joined selections and the numbers |
| StyleProfile.ProfileIgnoresName | test.py:62-72 | the name entered on the form does not affect the profile |
| WardrobePrompt.ClientProfile | test.py:74-92 | whatever profile is recovered from a text, putting it back into the template gives that text |
| WardrobePrompt.ProfileEmbedded | test.py:77 | any profile is embedded verbatim in the wardrobe prompt and is recovered from it |
| WardrobePrompt.FormReachesPrompt | test.py:62-92 | the prompt built from any form carries its profile block; for one-line form values, that block reads back as the form's field values |
| WardrobePrompt.PromptForbidsModels | test.py:90 | every wardrobe prompt contains "- NO human figures - show only clothing" |
| ItemExtraction.LookaheadHoldsIff | test.py:110 | the decided lookahead holds exactly where `(?=\n\d+\.\|$)` holds |
| ItemExtraction.CandidateForced | test.py:110 | in any match the digit run is maximal, group 1 stays on its line, and group 2 ends at the first line break or at the end of text |
| ItemExtraction.MatchAtSound | test.py:110 | the span `MatchAt` returns is a match of the pattern |
| ItemExtraction.MatchAtFirst | test.py:110 | any match at a position has the same digit run as `MatchAt`'s, a group 1 that is no shorter, and the same group 2 when group 1 is equal |
| ItemExtraction.MatchAtIsPythonChoice | test.py:110 | `MatchAt` fails exactly when no match starts there; otherwise it is the match Python's backtracking tries first |
| ItemExtraction.FinderAdvances | test.py:110 | every match starts where it was tried and is not empty |
| ItemExtraction.Scan | test.py:111 | the `findall` scan reports, from each position, the match at the first position that has one, then continues after it; nothing matches after the last |
| ItemExtraction.LeftmostUnique | test.py:111 | exactly one sequence of matches satisfies the leftmost-first condition, and it is `Scan`'s |
| ItemExtraction.LeftmostInOrder | test.py:111 | leftmost-first matches are found where they start, run left to right and do not overlap |
| ItemExtraction.ScanInOrder | test.py:110-111 | each reported match satisfies the pattern, including the lookahead where it ends (a line break, digits and "." follow, or the end of text); matches run left to right and do not overlap |
| ItemExtraction.FlatItems | test.py:112 | at most 10 items, exactly min(matches, 10), and item t is group 1 of match t, ": ", then group 2 |
| ItemExtraction.FlatItemsFromMatches | test.py:110-112 | every flat item is built from the match at the same index, and that match satisfies the pattern; the matches are disjoint and in order |
| ItemExtraction.GroupsSingleLine | test.py:110 | neither captured group contains a newline |
| ItemExtraction.FlatItemsSingleLine | test.py:110-112 | no flat item contains a newline, whatever the reply |
| ImagePrompt.Shown | test.py:117 | at most 8 items are named, and all of them when there are fewer |
| ImagePrompt.ParsePrompt | test.py:115-122 | whatever item and colour parts are read back, filling the template with them gives the text |
| ImagePrompt.PromptRoundTrip | test.py:115-122 | with one-line items, the image prompt reads back as exactly its item part and its colour part |
| ImagePrompt.PromptRulesOutModels | test.py:121 | every image prompt contains "No human figures or models." and ends with it, followed only by the closing line break and indentation |
| ImagePrompt.NoItemsFallback | test.py:117 | with no items the item part is "Various clothing items", and the prompt contains it |
| ImagePrompt.ColorsInPrompt | test.py:119 | with no colours the prompt contains "neutral palette"; otherwise it contains the colours joined with ", " and each colour |
| ImagePrompt.ItemsClauseKeepsFirst | test.py:117 | the item part is the join of the first `Shown` items, and it is a prefix of the join of all items |
| ImagePrompt.ItemsPastEighthIgnored | test.py:117 | items after the eighth do not change the item part |
| ImagePrompt.ShownItemsInPrompt | test.py:117 | each of the first eight items occurs in the image prompt |
| ImagePrompt.ShownItemsInOrder | test.py:117 | in the item part, every named item comes after all items before it |
| ImagePrompt.ItemsClauseSingleLine | test.py:117 | one-line items give a one-line item part |
| ImagePrompt.ReplyToPrompt | test.py:110-122 | for any chat reply there are at most 10 items, and the item part falls back exactly when nothing was extracted; the prompt reads back as the item part and the colour part |

## Left out

- Streamlit page setup, widgets and rendering (test.py:13-58, 106-107, 125-142) are left out because they are user interface. The form values are inputs of the model.
  - Widget option lists are not modelled: every field is an arbitrary string.
  - Slider ranges are not modelled: age and budget are arbitrary natural numbers.
  - Every property proved therefore also holds for the values the widgets can produce.
- The OpenAI chat and image calls (test.py:96-105, 128-136) are left out because they are remote services. The chat reply is an arbitrary input string.
- `load_dotenv` and client construction (test.py:9-10) are left out because they are configuration I/O.
- The try/except around the image call (test.py:140-142) is left out because it is exception handling around a foreign call.
- ItemExtraction.IsDigit: `\d` is modelled as the ASCII digits only. Python's `str` patterns also accept other Unicode decimal digits.
- StyleProfile.ProfileRoundTrip: holds only for one-line field values. The free-text "avoids" area can hold line breaks, and those cannot be told apart from the following lines of the block. The profile itself (`Profile`) is modelled for every input.
- WardrobePrompt.FormReachesPrompt: the read-back half holds only for one-line form values, for the same reason as `ProfileRoundTrip`. The embedding half holds for every form.
- ImagePrompt.PromptRoundTrip: holds only for one-line items. This is no restriction for the items the program builds (`ReplyToPrompt`, `FlatItemsSingleLine`).
- The integer widths do not matter here. `age` and `investment` are printed in decimal and never computed with.
