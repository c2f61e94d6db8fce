# DecoAI generation pipeline, in Dafny

This project models the server side of DecoAI's room redesign. A caller sends a
room photo as a data URI and a style name. The server action checks the photo's
prefix and wraps the style in a fixed sentence. The redesign flow builds a
three-part prompt and asks the image model for text and image. The action then
turns the model's reply, or any failure along the way, into either
`{ redesignedImageDataUri }` or `{ error }`. The variation flow
(`suggestStyleVariationsFlow`) is modelled too: its two-value enum, its prompt
template, its two-part request and its missing-image check.

All three source files are pure logic, so the model uses datatypes and
functions. The call to `ai.generate` is not modelled. Each pipeline takes the
model's reply as a parameter (`ModelReply`: a rejected call, or a reply with
its text and an optional media URL). Every property therefore holds for every
reply the model could give. Each pipeline also returns the list of model
requests it made (`Traced.calls`). So "the model is never called" is
`calls == []`, and "one call, no retry" is `|calls| == 1`.

Files:
- `wrappers.dfy`: `Option`.
- `text.dfy`: the `startsWith` the action's schema uses; substring occurrence
  (`Contains`), which no source file calls and which is used only to state
  that text appears verbatim in a prompt; and the inverse of a template
  literal (`Unframe`), with lemmas.
- `model_call.dfy`: the prompt parts, modalities, request, reply and exception types shared by both flows.
- `generate_style_prompt.dfy`: `generateStyledImageFlow`.
- `suggest_style_variations.dfy`: `suggestStyleVariationsFlow` and its input schema.
- `actions.dfy`: `generateStyledImageAction`.

The schema descriptions promise a base64 data URI with a MIME type
(src/ai/flows/generate-style-prompt.ts:18). The code checks less, and the model
follows the code:
- The action checks only that the photo starts with `data:image/`. It does not
  check that the string is a well-formed base64 data URI (`PrefixIsAllThatIsChecked`).
- The redesign flow's own schema checks only that both fields are strings.
- The style may be empty.
- The variation flow checks no data-URI prefix at all.
- Its enum values are `more minimalist` and `more luxurious`, with spaces.
- The action calls only the redesign flow. Neither the variation flow nor the
  design-tips flow is reachable from it.

## Model

| member | source | states |
|---|---|---|
| Text.StartsWith | src/app/actions.ts:8 | `startsWith` holds exactly when the prefix is a sequence prefix of the string |
| Actions.ParseActionInput | src/app/actions.ts:7-16 | accepts exactly when both fields are strings and the photo starts with `data:image/` (any style, the empty one too); then returns both strings unchanged, otherwise throws a `ZodError` |
| Actions.StylePrompt | src/app/actions.ts:18 | the style prompt contains the style verbatim, and the style can be read back from it |
| Actions.FlowInput | src/app/actions.ts:20-23 | the object passed to the flow holds the validated photo unchanged and a style prompt from which the style is recovered; it always passes the flow's input schema |
| Actions.ErrorMessage | src/app/actions.ts:30-36 | the message is one of the two strings; it is "Invalid input provided." exactly for a `ZodError` |
| Actions.GenerateStyledImageAction | src/app/actions.ts:14-37 | rejected input: no model call and the invalid-input error. Accepted input: exactly one call, made with the composed request. It succeeds exactly when the reply has a non-empty media URL, and returns that URL unchanged. Every other outcome (upstream failure, no media, empty URL) is the generic error. A success is never empty and an error is always one of the two strings |
| Actions.AcceptedInputReachesModel | src/app/actions.ts:16-23 | for an accepted input, the single request asks for text and image, its media part is the caller's photo unchanged, and its last text part contains the caller's style verbatim |
| Actions.RequestDeterminesInput | src/app/actions.ts:16-23 | two accepted inputs produce the same model request exactly when they are the same input |
| Actions.ReplayComposesSameRequest | src/app/actions.ts:16-23 | the request sent depends only on the input, never on what the model answered |
| Actions.NotADataUriIsRefused | src/app/actions.ts:8-10 | `not-a-data-uri` with style `Modern` is refused with the invalid-input error before any model call |
| Actions.PrefixIsAllThatIsChecked | src/app/actions.ts:8-11 | a bare `data:image/` with an empty style is accepted |
| Actions.ModernPngWithoutImage | src/app/actions.ts:14-37 | a PNG photo with style `Modern` and a reply without an image: one request, with the photo bound, `Modern` in the style text and text+image asked for; the result is the generic error |
| GenerateStylePrompt.ParseStyledImageInput | src/ai/flows/generate-style-prompt.ts:14-21 | accepts exactly two strings, keeping them unchanged; otherwise throws a validation error |
| GenerateStylePrompt.StyleLine | src/ai/flows/generate-style-prompt.ts:50 | the last text part contains the style prompt verbatim, and the style prompt can be read back from it |
| GenerateStylePrompt.Compose | src/ai/flows/generate-style-prompt.ts:45-55 | exactly three parts, in the order instruction text, media bound to `photoDataUri`, style text from which `stylePrompt` is recovered; modalities `[TEXT, IMAGE]`, so text and image are asked for together |
| GenerateStylePrompt.InstructionIsFixed | src/ai/flows/generate-style-prompt.ts:48 | the first part is the same for every input |
| GenerateStylePrompt.ComposeInjective | src/ai/flows/generate-style-prompt.ts:45-55 | two inputs give identical requests exactly when they are the same input |
| GenerateStylePrompt.ExtractRedesignedImage | src/ai/flows/generate-style-prompt.ts:56 | returns exactly when the reply has media, and the output is `media.url` unchanged, the empty string included. No media throws a `TypeError`; an upstream rejection propagates |
| GenerateStylePrompt.GenerateStyledImageFlow | src/ai/flows/generate-style-prompt.ts:38-58 | input the schema rejects: no model call and a validation error. Otherwise one call with `Compose` of the two strings, and the outcome is `ExtractRedesignedImage(reply)`. Every call asks for text and image |
| SuggestStyleVariations.ParseVariationType | src/ai/flows/suggest-style-variations.ts:20-22 | accepts exactly `more minimalist` and `more luxurious`, and the accepted value's name is the string given |
| SuggestStyleVariations.ParseVariationName | src/ai/flows/suggest-style-variations.ts:21 | each enum value's name parses back to that value |
| SuggestStyleVariations.ParseVariationsInput | src/ai/flows/suggest-style-variations.ts:13-23 | accepts exactly three strings with a valid enum string; otherwise throws a validation error; keeps the fields unchanged |
| SuggestStyleVariations.RenderPrompt | src/ai/flows/suggest-style-variations.ts:41-49 | the rendered text has an `Original Style: <style>` line and a `Variation Type: <variation>` line |
| SuggestStyleVariations.RenderedFieldsOfRender | src/ai/flows/suggest-style-variations.ts:41-49 | the style and the variation type can be read back from the rendered text |
| SuggestStyleVariations.RenderPromptInjective | src/ai/flows/suggest-style-variations.ts:41-49 | two inputs render to the same text exactly when their style and variation type agree |
| SuggestStyleVariations.Compose | src/ai/flows/suggest-style-variations.ts:59-68 | exactly two parts: the rendered text (which gives back style and variation), then media bound to `photoDataUri`; modalities `[TEXT, IMAGE]` |
| SuggestStyleVariations.ExtractVariedPhoto | src/ai/flows/suggest-style-variations.ts:70-74 | returns exactly when the reply has a non-empty `media.url`, and the output is that URL. A reply without one throws `No image was generated.`; an upstream rejection propagates |
| SuggestStyleVariations.SuggestStyleVariationsFlow | src/ai/flows/suggest-style-variations.ts:52-76 | input the schema rejects: no model call and a validation error. Otherwise one call with `Compose` of the parsed input, and the outcome is `ExtractVariedPhoto(reply)`. Every call asks for text and image |
| SuggestStyleVariations.ReplyTextIsIgnored | src/ai/flows/suggest-style-variations.ts:70-72 | the reply's text never changes the flow's outcome; only its media does |

## Left out

- `ai.generate` and the Gemini model: an external network service. Its reply is a parameter. Latency, the lack of a timeout and concurrent requests are not modelled; each request is one sequential step.
- Genkit and zod internals. A schema is modelled as a predicate over what the code states: string types, the `data:image/` prefix and the two-value enum. Issue lists and messages inside a `ZodError` or a Genkit validation error are not modelled, including the refine message `Invalid image data URI`.
- Genkit's output-schema check of both flows is not modelled. Both outputs are always strings, so that check cannot fail here.
- `SuggestStyleVariations.RenderPrompt`: Handlebars rendering is modelled as literal substitution of `style` and `variationType` into the template. The `{{media url=photoDataUri}}` helper is library behaviour and stays verbatim in the rendered text. The model also assumes `prompt.prompt(input)` yields that text.
- `console.error` in the action's `catch` block: a log side effect, not part of the returned value.
- Upstream failures are assumed never to be `ZodError` instances. So they fall into the generic error, as every non-validation failure does in the code.
- The exported wrappers `generateStyledImage` and `suggestStyleVariations` only forward to their flows, so they are modelled by the flow functions. Both flow functions take the untyped object a client may send, and run the flow's input schema first.
- src/ai/flows/provide-design-tips.ts: the whole flow is a `definePrompt` call with a structured-output schema, and its body returns `output!`. It has no logic of its own to model.
- The UI (main-panel.tsx, image-comparison.tsx, header.tsx, page.tsx) and src/ai/dev.ts: presentation and environment loading.
- JavaScript strings are UTF-16 code units; here they are sequences of `char`. The only checked prefix is ASCII, so the two readings agree.
