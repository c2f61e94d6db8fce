/**
 * The server action `generateStyledImageAction`: validate the caller's
 * object, wrap the style in a fixed sentence, run the redesign flow, reject
 * an empty image, and turn every exception into one of two error strings.
 */
module Actions {
  import opened Wrappers
  import opened Text
  import opened ModelCall
  import GenerateStylePrompt

  /** The object the client sends; nothing about it is trusted. */
  datatype RawActionInput = RawActionInput(photoDataUri: Field, style: Field)

  /** What `actionSchema.parse` hands back when it accepts. */
  datatype ActionInput = ActionInput(photoDataUri: string, style: string)

  /** `{ redesignedImageDataUri }` or `{ error }`: one or the other, never both. */
  datatype ActionResult = Ok(redesignedImageDataUri: string) | Err(error: string)

  const ImagePrefix: string := "data:image/"
  const InvalidInputMessage: string := "Invalid input provided."
  const GenerationFailedMessage: string := "Failed to generate image. Please try again later."
  const NoImageMessage: string := "The AI model did not return an image."

  /** `actionSchema`: two strings, the photo starting with `data:image/`; any string is a style, the empty one too. */
  predicate ValidActionInput(raw: RawActionInput) {
    raw.photoDataUri.Str? && ImagePrefix <= raw.photoDataUri.s && raw.style.Str?
  }

  /** `actionSchema.parse(input)`: returns the two strings or throws a `ZodError`. */
  function ParseActionInput(raw: RawActionInput): (r: Outcome<ActionInput>)
    ensures r.Returned? <==> ValidActionInput(raw)
    ensures r.Threw? ==> r.exception == ZodError
    ensures r.Returned? ==> r.value == ActionInput(raw.photoDataUri.s, raw.style.s)
  {
    match (raw.photoDataUri, raw.style)
    case (Str(photo), Str(style)) =>
      if StartsWith(photo, ImagePrefix) then Returned(ActionInput(photo, style)) else Threw(ZodError)
    case _ => Threw(ZodError)
  }

  /** The literal pieces around `${style}` in `stylePrompt`. */
  const StylePromptHead: string := "Redesign this room in a "
  const StylePromptTail: string := " interior design style. Focus on creating a photorealistic and aesthetically pleasing result."

  /** `stylePrompt`: the style, verbatim and recoverable, inside a fixed sentence. */
  function StylePrompt(style: string): (p: string)
    ensures Unframe(StylePromptHead, StylePromptTail, p) == Some(style)
    ensures Contains(p, style)
  {
    UnframeFrame(StylePromptHead, style, StylePromptTail);
    SplicedIsContained(StylePromptHead, style, StylePromptTail);
    StylePromptHead + style + StylePromptTail
  }

  /** The `catch` block: only a `ZodError` is the caller's fault; everything else is the generic failure. */
  function ErrorMessage(e: Exception): (msg: string)
    ensures msg == InvalidInputMessage <==> e == ZodError
    ensures msg == InvalidInputMessage || msg == GenerationFailedMessage
  {
    if e.ZodError? then InvalidInputMessage else GenerationFailedMessage
  }

  /**
   * The argument object `{ photoDataUri, stylePrompt }` the action passes to
   * `generateStyledImage`: the validated photo unchanged, the style wrapped
   * in its sentence. It always satisfies the flow's own schema.
   */
  function FlowInput(input: ActionInput): (arg: GenerateStylePrompt.RawStyledImageInput)
    ensures GenerateStylePrompt.ValidStyledImageInput(arg)
    ensures arg.photoDataUri == Str(input.photoDataUri)
    ensures Unframe(StylePromptHead, StylePromptTail, arg.stylePrompt.s) == Some(input.style)
  {
    GenerateStylePrompt.RawStyledImageInput(Str(input.photoDataUri), Str(StylePrompt(input.style)))
  }

  /**
   * The action. It never throws: every path ends in an `ActionResult`.
   * A rejected input makes no model call at all; an accepted one makes
   * exactly one, and succeeds exactly when the reply carries a non-empty
   * image URL, which it then returns unchanged.
   */
  function GenerateStyledImageAction(raw: RawActionInput, reply: ModelReply): (r: Traced<ActionResult>)
    ensures !ValidActionInput(raw) ==> r == Traced([], Err(InvalidInputMessage))
    ensures ValidActionInput(raw) ==>
      r.calls == [GenerateStylePrompt.Compose(GenerateStylePrompt.GenerateStyledImageInput(raw.photoDataUri.s, StylePrompt(raw.style.s)))]
    ensures ValidActionInput(raw) ==> (r.value.Ok? <==> HasImage(reply))
    ensures r.value.Ok? ==> HasImage(reply) && r.value.redesignedImageDataUri == reply.media.value
    ensures ValidActionInput(raw) && !HasImage(reply) ==> r.value == Err(GenerationFailedMessage)
    ensures r.value.Ok? ==> r.value.redesignedImageDataUri != ""
    ensures r.value.Err? ==> r.value.error == InvalidInputMessage || r.value.error == GenerationFailedMessage
  {
    match ParseActionInput(raw)
    case Threw(e) => Traced([], Err(ErrorMessage(e)))
    case Returned(input) =>
      var run := GenerateStylePrompt.GenerateStyledImageFlow(FlowInput(input), reply);
      var outcome :=
        match run.value
        case Threw(e) => Threw(e)
        case Returned(output) =>
          if output.redesignedImageDataUri == "" then Threw(Error(NoImageMessage))
          else Returned(output.redesignedImageDataUri);
      Traced(run.calls,
        match outcome
        case Returned(uri) => Ok(uri)
        case Threw(e) => Err(ErrorMessage(e)))
  }

  /**
   * What an accepted input turns into on the wire: one request, asking for
   * text and image, whose media part is the caller's photo unchanged and
   * whose last text part contains the caller's style verbatim.
   */
  lemma AcceptedInputReachesModel(raw: RawActionInput, reply: ModelReply)
    requires ValidActionInput(raw)
    ensures var calls := GenerateStyledImageAction(raw, reply).calls;
      && |calls| == 1
      && AsksTextAndImage(calls[0])
      && calls[0].prompt[1] == Media(raw.photoDataUri.s)
      && calls[0].prompt[2].Text?
      && Contains(calls[0].prompt[2].text, raw.style.s)
  {
    var stylePrompt := StylePrompt(raw.style.s);
    var line := GenerateStylePrompt.StyleLine(stylePrompt);
    ContainsTransitive(line, stylePrompt, raw.style.s);
  }

  /**
   * The request determines the caller's input: accepted inputs that lead to
   * the same model request are the same input.
   */
  lemma RequestDeterminesInput(a: RawActionInput, b: RawActionInput, replyA: ModelReply, replyB: ModelReply)
    requires ValidActionInput(a) && ValidActionInput(b)
    ensures GenerateStyledImageAction(a, replyA).calls == GenerateStyledImageAction(b, replyB).calls
        <==> a == b
  {
    var ia := ActionInput(a.photoDataUri.s, a.style.s);
    var ib := ActionInput(b.photoDataUri.s, b.style.s);
    if GenerateStyledImageAction(a, replyA).calls == GenerateStyledImageAction(b, replyB).calls {
      GenerateStylePrompt.ComposeInjective(
        GenerateStylePrompt.GenerateStyledImageInput(ia.photoDataUri, StylePrompt(ia.style)),
        GenerateStylePrompt.GenerateStyledImageInput(ib.photoDataUri, StylePrompt(ib.style)));
      assert StylePrompt(ia.style) == StylePrompt(ib.style);
    }
  }

  /** Replaying a request composes the same model request, whatever the model answered. */
  lemma ReplayComposesSameRequest(raw: RawActionInput, first: ModelReply, second: ModelReply)
    ensures GenerateStyledImageAction(raw, first).calls == GenerateStyledImageAction(raw, second).calls
  {
  }

  /** A photo without the `data:image/` prefix is refused before any model call. */
  lemma NotADataUriIsRefused(reply: ModelReply)
    ensures GenerateStyledImageAction(RawActionInput(Str("not-a-data-uri"), Str("Modern")), reply)
         == Traced([], Err(InvalidInputMessage))
  {
    assert !(ImagePrefix <= "not-a-data-uri") by {
      assert "not-a-data-uri"[0] != ImagePrefix[0];
    }
  }

  /** Only the prefix is checked: an empty style and a photo with no payload are accepted. */
  lemma PrefixIsAllThatIsChecked()
    ensures ValidActionInput(RawActionInput(Str(ImagePrefix), Str("")))
  {
  }

  /**
   * A PNG photo with style "Modern", answered by a reply that has text but no
   * image: one request (photo bound, `Modern` in the style text, text and
   * image asked for), and the generic failure.
   */
  lemma ModernPngWithoutImage(text: string)
    ensures var raw := RawActionInput(Str("data:image/png;base64,AAAA"), Str("Modern"));
      var r := GenerateStyledImageAction(raw, Reply(text, None));
      && |r.calls| == 1
      && r.calls[0].prompt[1] == Media("data:image/png;base64,AAAA")
      && Contains(r.calls[0].prompt[2].text, "Modern")
      && AsksTextAndImage(r.calls[0])
      && r.value == Err(GenerationFailedMessage)
  {
    var raw := RawActionInput(Str("data:image/png;base64,AAAA"), Str("Modern"));
    assert ImagePrefix <= raw.photoDataUri.s;
    AcceptedInputReachesModel(raw, Reply(text, None));
  }
}
