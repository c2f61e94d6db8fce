/**
 * `generateStyledImageFlow`: its input schema (two strings), then one
 * `ai.generate` call with a three-part prompt (fixed instruction, the room
 * photo, the style prompt) that asks for text and image, whose reply's
 * `media.url` becomes `redesignedImageDataUri`.
 */
module GenerateStylePrompt {
  import opened Wrappers
  import opened Text
  import opened ModelCall

  /** `GenerateStyledImageInput` once the flow's schema has accepted it. */
  datatype GenerateStyledImageInput = GenerateStyledImageInput(photoDataUri: string, stylePrompt: string)

  /** The object handed to `generateStyledImage` (callable by any client), before the flow's schema runs. */
  datatype RawStyledImageInput = RawStyledImageInput(photoDataUri: Field, stylePrompt: Field)

  /** `GenerateStyledImageInputSchema`: two strings; the data-URI format is only described, not checked. */
  predicate ValidStyledImageInput(raw: RawStyledImageInput) {
    raw.photoDataUri.Str? && raw.stylePrompt.Str?
  }

  function ParseStyledImageInput(raw: RawStyledImageInput): (r: Outcome<GenerateStyledImageInput>)
    ensures r.Returned? <==> ValidStyledImageInput(raw)
    ensures r.Threw? ==> r.exception == ValidationError
    ensures r.Returned? ==> r.value.photoDataUri == raw.photoDataUri.s && r.value.stylePrompt == raw.stylePrompt.s
  {
    match (raw.photoDataUri, raw.stylePrompt)
    case (Str(photo), Str(stylePrompt)) => Returned(GenerateStyledImageInput(photo, stylePrompt))
    case _ => Threw(ValidationError)
  }

  /** `GenerateStyledImageOutput`. */
  datatype GenerateStyledImageOutput = GenerateStyledImageOutput(redesignedImageDataUri: string)

  /** The first text part, the same for every request. */
  const Instruction: string :=
    "You are an AI interior designer. Your task is to redesign the room in the provided image based on the user's style prompt. You MUST use the provided image as a strong reference, maintaining the original room layout, perspective, and core elements. Only modify the style, furniture, and decor as requested in the prompt."

  /** The literal pieces around `${input.stylePrompt}` in the last text part. */
  const StyleLineHead: string := "Redesign the room in the provided image according to the following style prompt: "
  const StyleLineTail: string := "."

  /** The last text part: the style prompt, verbatim, inside a fixed sentence. */
  function StyleLine(stylePrompt: string): (line: string)
    ensures Unframe(StyleLineHead, StyleLineTail, line) == Some(stylePrompt)
    ensures Contains(line, stylePrompt)
  {
    UnframeFrame(StyleLineHead, stylePrompt, StyleLineTail);
    SplicedIsContained(StyleLineHead, stylePrompt, StyleLineTail);
    StyleLineHead + stylePrompt + StyleLineTail
  }

  /** The argument the flow passes to `ai.generate`. */
  function Compose(input: GenerateStyledImageInput): (req: GenerateRequest)
    ensures req.model == ImageGenerationModel
    ensures |req.prompt| == 3
    ensures req.prompt[0] == Text(Instruction)
    ensures req.prompt[1] == Media(input.photoDataUri)
    ensures req.prompt[2].Text? && Unframe(StyleLineHead, StyleLineTail, req.prompt[2].text) == Some(input.stylePrompt)
    ensures req.responseModalities == [TEXT, IMAGE] && AsksTextAndImage(req)
  {
    GenerateRequest(
      ImageGenerationModel,
      [Text(Instruction), Media(input.photoDataUri), Text(StyleLine(input.stylePrompt))],
      [TEXT, IMAGE])
  }

  /**
   * What the flow body makes of the reply. No presence check of its own:
   * `media.url!` on a null `media` throws a `TypeError`, and an empty `url`
   * is returned as it is.
   */
  function ExtractRedesignedImage(reply: ModelReply): (r: Outcome<GenerateStyledImageOutput>)
    ensures r.Returned? <==> reply.Reply? && reply.media.Some?
    ensures r.Returned? ==> r.value.redesignedImageDataUri == reply.media.value
    ensures reply.Failed? ==> r == Threw(Upstream(reply.reason))
    ensures reply.Reply? && reply.media.None? ==> r == Threw(TypeError)
  {
    match reply
    case Failed(reason) => Threw(Upstream(reason))
    case Reply(_, None) => Threw(TypeError)
    case Reply(_, Some(url)) => Returned(GenerateStyledImageOutput(url))
  }

  /**
   * The flow: its input schema runs first and, when it rejects, the model is
   * never called; otherwise exactly one call, made with `Compose`.
   */
  function GenerateStyledImageFlow(raw: RawStyledImageInput, reply: ModelReply): (r: Traced<Outcome<GenerateStyledImageOutput>>)
    ensures !ValidStyledImageInput(raw) ==> r.calls == [] && r.value == Threw(ValidationError)
    ensures ValidStyledImageInput(raw) ==>
      && r.calls == [Compose(GenerateStyledImageInput(raw.photoDataUri.s, raw.stylePrompt.s))]
      && r.value == ExtractRedesignedImage(reply)
    ensures forall c | c in r.calls :: AsksTextAndImage(c)
  {
    match ParseStyledImageInput(raw)
    case Threw(e) => Traced([], Threw(e))
    case Returned(input) => Traced([Compose(input)], ExtractRedesignedImage(reply))
  }

  /** The instruction part is the same whatever the input. */
  lemma InstructionIsFixed(a: GenerateStyledImageInput, b: GenerateStyledImageInput)
    ensures Compose(a).prompt[0] == Compose(b).prompt[0]
  {
  }

  /**
   * Composition is deterministic and loses nothing: two inputs give
   * textually identical requests exactly when they are the same input.
   */
  lemma ComposeInjective(a: GenerateStyledImageInput, b: GenerateStyledImageInput)
    ensures Compose(a) == Compose(b) <==> a == b
  {
    if Compose(a) == Compose(b) {
      assert a.photoDataUri == Compose(a).prompt[1].url;
      FrameInjective(StyleLineHead, a.stylePrompt, b.stylePrompt, StyleLineTail);
    }
  }
}
