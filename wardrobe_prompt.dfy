/**
  The request sent to the chat model (test.py:74-92): a fixed instruction
  template with the style-profile block placed, unchanged, after
  "Client profile:".
 */
module WardrobePrompt {
  import opened Wrappers
  import opened Text
  import opened StyleProfile

  /** The template up to the profile: the opening line and an empty line. */
  const Head: string :=
    "\n" + Indent + "Act as a professional stylist creating a seasonless capsule wardrobe. Client profile:"
    + "\n\n" + Indent

  /** The line asking for pictures without people. */
  const NoHumansRequest: string := "- NO human figures - show only clothing"

  /** The template from the end of the profile up to the indentation before `NoHumansRequest`. */
  const TailBefore: string :=
    "\n\n" + Indent + "Create a wardrobe plan that includes:"
    + "\n" + Indent + "1. 8-10 tops (specify types and color/material)"
    + "\n" + Indent + "2. 5-6 bottoms (specify styles)"
    + "\n" + Indent + "3. 3-4 outerwear pieces"
    + "\n" + Indent + "4. 4-5 footwear options"
    + "\n" + Indent + "5. Accessories recommendation"
    + "\n" + Indent + "6. Key wardrobe rules for mixing pieces"
    + "\n" + Indent
    + "\n" + Indent + "For DALL-E image:"
    + "\n" + Indent + "- List specific clothing items from the wardrobe"
    + "\n" + Indent + "- Create an image prompt showing these items arranged aesthetically"
    + "\n" + Indent

  /** The template after `NoHumansRequest`: the last request line and the closing indentation. */
  const TailAfter: string := "\n" + Indent + "- Specify exact colors from the palette" + "\n" + Indent

  /** The template after the profile. */
  const Tail: string := TailBefore + NoHumansRequest + TailAfter

  /** `wardrobe_prompt`: the profile block between the two halves of the template. */
  function Prompt(profile: string): string {
    Head + profile + Tail
  }

  /**
    Recovers the client profile from a prompt: the text between the
    template's two halves, or `None` when the text is not of that form.
   */
  function ClientProfile(w: string): (r: Option<string>)
    ensures r.Some? ==> Prompt(r.value) == w
  {
    Between(Head, Tail, w)
  }

  /** Any profile text is carried into the prompt verbatim and can be read back from it. */
  lemma ProfileEmbedded(profile: string)
    ensures ClientProfile(Prompt(profile)) == Some(profile)
  {
    BetweenFramed(Head, profile, Tail);
  }

  /**
    The prompt built from any submitted form carries its profile block;
    when the form values are one line each, that block reads back as the
    form's field values.
   */
  lemma FormReachesPrompt(f: StyleForm)
    ensures ClientProfile(Prompt(Profile(f))) == Some(Profile(f))
    ensures SingleLineForm(f) ==>
      ParseProfile(ClientProfile(Prompt(Profile(f))).value) == Some(FieldValues(f))
  {
    ProfileEmbedded(Profile(f));
    if SingleLineForm(f) {
      ProfileRoundTrip(f);
    }
  }

  /** Every prompt, whatever the profile, asks for images without people. */
  lemma PromptForbidsModels(profile: string)
    ensures Occurs(NoHumansRequest, Prompt(profile))
  {
    OccursInTail(Head + profile, TailBefore, NoHumansRequest, TailAfter);
  }
}
