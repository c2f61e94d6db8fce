/**
 * `suggestStyleVariationsFlow`: the input schema (two strings and a
 * two-value enum), the prompt template with `style` and `variationType`
 * substituted, one `ai.generate` call with [rendered text, photo] that asks
 * for text and image, and the check that the reply carries an image.
 */
module SuggestStyleVariations {
  import opened Wrappers
  import opened Text
  import opened ModelCall

  /** The closed enum `variationType`. */
  datatype VariationType = MoreMinimalist | MoreLuxurious

  /** The enum's string values, spaces included. */
  function VariationName(v: VariationType): string {
    match v
    case MoreMinimalist => "more minimalist"
    case MoreLuxurious => "more luxurious"
  }

  /** `z.enum(['more minimalist', 'more luxurious'])` applied to a string. */
  function ParseVariationType(s: string): (r: Option<VariationType>)
    ensures r.Some? <==> s == "more minimalist" || s == "more luxurious"
    ensures r.Some? ==> VariationName(r.value) == s
  {
    if s == "more minimalist" then Some(MoreMinimalist)
    else if s == "more luxurious" then Some(MoreLuxurious)
    else None
  }

  /** Every enum value is accepted back as itself. */
  lemma ParseVariationName(v: VariationType)
    ensures ParseVariationType(VariationName(v)) == Some(v)
  {
  }

  /** `SuggestStyleVariationsInput` once its schema has accepted it. */
  datatype SuggestStyleVariationsInput = SuggestStyleVariationsInput(photoDataUri: string, style: string, variationType: VariationType)

  /** The request object as it reaches the flow, before its schema runs. */
  datatype RawVariationsInput = RawVariationsInput(photoDataUri: Field, style: Field, variationType: Field)

  /** `SuggestStyleVariationsOutput`. */
  datatype SuggestStyleVariationsOutput = SuggestStyleVariationsOutput(variedPhotoDataUri: string)

  /** `SuggestStyleVariationsInputSchema`: only string types and the enum are checked (no data-URI check here). */
  predicate ValidVariationsInput(raw: RawVariationsInput) {
    raw.photoDataUri.Str? && raw.style.Str? && raw.variationType.Str?
    && (raw.variationType.s == "more minimalist" || raw.variationType.s == "more luxurious")
  }

  function ParseVariationsInput(raw: RawVariationsInput): (r: Outcome<SuggestStyleVariationsInput>)
    ensures r.Returned? <==> ValidVariationsInput(raw)
    ensures r.Threw? ==> r.exception == ValidationError
    ensures r.Returned? ==>
      && r.value.photoDataUri == raw.photoDataUri.s
      && r.value.style == raw.style.s
      && VariationName(r.value.variationType) == raw.variationType.s
  {
    match (raw.photoDataUri, raw.style, raw.variationType)
    case (Str(photo), Str(style), Str(kind)) =>
      (match ParseVariationType(kind)
       case Some(v) => Returned(SuggestStyleVariationsInput(photo, style, v))
       case None => Threw(ValidationError))
    case _ => Threw(ValidationError)
  }

  /** The literal pieces of the prompt template around `{{{style}}}` and `{{{variationType}}}`. */
  const TemplateIntro: string :=
    "You are an interior design assistant. Given an image of a room and a style, you will generate a new image of the room with a style variation. The variation should be either more minimalist or more luxurious than the original style.\n\n"
  const StyleLabel: string := "Original Style: "
  const TypeLabel: string := "Variation Type: "
  const TemplateTail: string :=
    "\n\nOriginal Image: {{media url=photoDataUri}}\n\nPlease generate a new image of the room with the style variation. Return the new image as a data URI.\n"

  /** Everything before `{{{style}}}`. */
  function TemplateHead(): string {
    TemplateIntro + StyleLabel
  }

  /** What follows the style up to the end of the `Variation Type:` line. */
  function TypeLine(v: VariationType): string {
    "\n" + (TypeLabel + VariationName(v))
  }

  /** The template with its two triple-brace fields substituted literally. */
  function RenderPrompt(input: SuggestStyleVariationsInput): (text: string)
    ensures Contains(text, StyleLabel + input.style + "\n")
    ensures Contains(text, TypeLabel + VariationName(input.variationType))
  {
    StyleLineIsInTemplate(input.style, input.variationType);
    TypeLineIsInTemplate(input.style, input.variationType);
    TemplateHead() + input.style + TypeLine(input.variationType) + TemplateTail
  }

  lemma StyleLineIsInTemplate(style: string, v: VariationType)
    ensures Contains(TemplateHead() + style + TypeLine(v) + TemplateTail, StyleLabel + style + "\n")
  {
    StraddleIsContained(TemplateIntro, StyleLabel, style, "\n", TypeLabel + VariationName(v), TemplateTail);
  }

  lemma TypeLineIsInTemplate(style: string, v: VariationType)
    ensures Contains(TemplateHead() + style + TypeLine(v) + TemplateTail, TypeLabel + VariationName(v))
  {
    SplicedAfterIsContained(TemplateHead() + style, "\n", TypeLabel + VariationName(v), TemplateTail);
  }

  /**
   * Reads the style and the variation type back out of a rendered prompt:
   * the partner of `RenderPrompt`.
   */
  function RenderedFields(text: string): Option<(string, VariationType)> {
    match Unframe(TemplateHead(), TemplateTail, text)
    case None => None
    case Some(middle) => StyleAndType(middle)
  }

  /** Splits `style + TypeLine(v)` back into its two fields. */
  function StyleAndType(middle: string): Option<(string, VariationType)> {
    match Unframe("", TypeLine(MoreMinimalist), middle)
    case Some(style) => Some((style, MoreMinimalist))
    case None =>
      match Unframe("", TypeLine(MoreLuxurious), middle)
      case Some(style) => Some((style, MoreLuxurious))
      case None => None
  }

  /** A rendered prompt gives back the style and variation type it was rendered from. */
  lemma RenderedFieldsOfRender(input: SuggestStyleVariationsInput)
    ensures RenderedFields(RenderPrompt(input)) == Some((input.style, input.variationType))
  {
    UnframeFrameTwo(TemplateHead(), input.style, TypeLine(input.variationType), TemplateTail);
    StyleAndTypeOfLine(input.style, input.variationType);
  }

  lemma StyleAndTypeOfLine(style: string, v: VariationType)
    ensures StyleAndType(style + TypeLine(v)) == Some((style, v))
  {
    assert style + TypeLine(v) == "" + style + TypeLine(v);
    UnframeFrame("", style, TypeLine(v));
    if v == MoreLuxurious {
      LuxuriousIsNotMinimalist(style);
    }
  }

  /** The two variation lines end differently, so neither is mistaken for the other. */
  lemma LuxuriousIsNotMinimalist(style: string)
    ensures Unframe("", TypeLine(MoreMinimalist), style + TypeLine(MoreLuxurious)) == None
  {
    var middle := style + TypeLine(MoreLuxurious);
    assert middle[|middle| - 1] == 's';
    forall other ensures middle != "" + other + TypeLine(MoreMinimalist) {
      var t := "" + other + TypeLine(MoreMinimalist);
      assert t[|t| - 1] == 't';
    }
  }

  /** Prompts for different style/variation pairs are different texts. */
  lemma RenderPromptInjective(a: SuggestStyleVariationsInput, b: SuggestStyleVariationsInput)
    ensures RenderPrompt(a) == RenderPrompt(b) <==> a.style == b.style && a.variationType == b.variationType
  {
    RenderedFieldsOfRender(a);
    RenderedFieldsOfRender(b);
  }

  /** The argument the flow passes to `ai.generate`. */
  function Compose(input: SuggestStyleVariationsInput): (req: GenerateRequest)
    ensures req.model == ImageGenerationModel
    ensures |req.prompt| == 2
    ensures req.prompt[0].Text? && RenderedFields(req.prompt[0].text) == Some((input.style, input.variationType))
    ensures req.prompt[1] == Media(input.photoDataUri)
    ensures req.responseModalities == [TEXT, IMAGE] && AsksTextAndImage(req)
  {
    RenderedFieldsOfRender(input);
    GenerateRequest(ImageGenerationModel, [Text(RenderPrompt(input)), Media(input.photoDataUri)], [TEXT, IMAGE])
  }

  /** What the flow body makes of the reply: no usable `media.url` is a hard failure. */
  function ExtractVariedPhoto(reply: ModelReply): (r: Outcome<SuggestStyleVariationsOutput>)
    ensures r.Returned? <==> HasImage(reply)
    ensures r.Returned? ==> r.value.variedPhotoDataUri == reply.media.value
    ensures reply.Failed? ==> r == Threw(Upstream(reply.reason))
    ensures reply.Reply? && !HasImage(reply) ==> r == Threw(Error("No image was generated."))
  {
    match reply
    case Failed(reason) => Threw(Upstream(reason))
    case Reply(_, media) =>
      if media.None? || media.value == "" then Threw(Error("No image was generated."))
      else Returned(SuggestStyleVariationsOutput(media.value))
  }

  /**
   * The flow: its input schema runs first and, when it rejects, the model is
   * never called; otherwise exactly one call, made with `Compose`.
   */
  function SuggestStyleVariationsFlow(raw: RawVariationsInput, reply: ModelReply): (r: Traced<Outcome<SuggestStyleVariationsOutput>>)
    ensures !ValidVariationsInput(raw) ==> r.calls == [] && r.value == Threw(ValidationError)
    ensures ValidVariationsInput(raw) ==>
      && ParseVariationsInput(raw).Returned?
      && r.calls == [Compose(ParseVariationsInput(raw).value)]
      && r.value == ExtractVariedPhoto(reply)
    ensures forall c | c in r.calls :: AsksTextAndImage(c)
  {
    match ParseVariationsInput(raw)
    case Threw(e) => Traced([], Threw(e))
    case Returned(input) => Traced([Compose(input)], ExtractVariedPhoto(reply))
  }

  /** Whatever text the reply holds, only its media decides the outcome. */
  lemma ReplyTextIsIgnored(raw: RawVariationsInput, t1: string, t2: string, media: Option<string>)
    ensures SuggestStyleVariationsFlow(raw, Reply(t1, media)) == SuggestStyleVariationsFlow(raw, Reply(t2, media))
  {
  }
}
