/**
 * The vocabulary shared by both flows and the server action: the request
 * handed to `ai.generate`, the reply it can come back with, the exceptions
 * that can travel up the pipeline, and the untyped fields a caller sends
 * across the client/server boundary.
 *
 * `ai.generate` itself is not modelled: every pipeline takes the reply as a
 * parameter, so each property is stated for every reply the model could give.
 */
module ModelCall {
  import opened Wrappers

  /** One element of the `prompt` array: `{text}` or `{media: {url}}`. */
  datatype Part = Text(text: string) | Media(url: string)

  /** A value of `config.responseModalities`. */
  datatype Modality = TEXT | IMAGE

  /** The model both image flows name. */
  const ImageGenerationModel: string := "googleai/gemini-2.0-flash-preview-image-generation"

  /** The argument of one `ai.generate` call. */
  datatype GenerateRequest = GenerateRequest(model: string, prompt: seq<Part>, responseModalities: seq<Modality>)

  /**
   * What one `ai.generate` call comes back with: a rejected promise, or a
   * response with its text and, possibly, the `url` of its first media part
   * (`media` is `null` when the reply holds no image).
   */
  datatype ModelReply = Failed(reason: string) | Reply(text: string, media: Option<string>)

  /** The exceptions that can be thrown somewhere in the pipeline. */
  datatype Exception =
    | ZodError                 // `actionSchema.parse` rejected the caller's input
    | ValidationError          // a flow's input schema rejected its input
    | TypeError                // `media.url` read while `media` is null
    | Error(message: string)   // `throw new Error(message)` in the pipeline's own code
    | Upstream(reason: string) // `ai.generate` rejected

  /** How a step ends: it returns a value or throws. */
  datatype Outcome<+T> = Returned(value: T) | Threw(exception: Exception)

  /** A result together with the model requests made while computing it, in order. */
  datatype Traced<+T> = Traced(calls: seq<GenerateRequest>, value: T)

  /** A field of an untyped request object: a string, or anything else (missing, null, number, object). */
  datatype Field = Str(s: string) | NonString

  /**
   * The response-format contract of the image model: a text modality and an
   * image modality are requested together, never an image alone.
   */
  predicate AsksTextAndImage(req: GenerateRequest) {
    TEXT in req.responseModalities && IMAGE in req.responseModalities
  }

  /** The image the reply carries, by the test `media?.url` is truthy. */
  predicate HasImage(reply: ModelReply) {
    reply.Reply? && reply.media.Some? && reply.media.value != ""
  }
}
