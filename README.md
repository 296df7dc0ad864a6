# QR code generator: request handling and form logic in Dafny

This project models the decision logic of a small web application that makes
QR codes as PNG images. It has three parts.

- The `POST /api/generate-qr` handler (`Route`). It runs an ordered chain of
  checks on the JSON fields `type`, `size`, `text`, `url`, `logo` and `bgImage`.
  Each check either answers 400 with a fixed message or falls through to the
  QR content. The handler also supplies the default colours for the encoder
  and computes where the logo goes. It maps failures of the imaging steps to
  500 responses.
- The background-mode chroma key (`ChromaKey`). This pass walks the RGBA
  buffer of a second QR render in place. It makes every near-white pixel
  (red, green and blue all above 250) fully transparent, so that only the dark
  modules cover the photo.
- The browser form (`GeneratePage`). It covers the form state, the content
  field that sends what is typed to `text` or `url`, the checks run before
  sending, and the payload it posts.

`JsValues` holds the JavaScript semantics these rely on: truthiness, `||`,
`trim`, `startsWith` and `split(',')`. The last one is used to take the data
part of a data URL, whose syntax is in section 3 of RFC 2397.

The QR encoder and the imaging library are foreign code. In the model, each
call into them is one step of a trace, and a `Backend` value says which kinds
of step throw and what they throw. `Route.Post` returns the response together
with that trace. So the model can state that a rejected request makes no
image call, exactly which calls an accepted request makes, and which catch
reports each failure. The images are symbolic terms that record what went
into them: the QR content and options, the uploaded logo or photo, the
placement, and the near-white keying of the overlay.

The handler accepts a `type` outside the four known modes: every check passes and the
content stays `''`. The model keeps that behaviour.

## Model

| member | source | states |
|---|---|---|
| `JsValues.FalsyValues` | app/api/generate-qr/route.ts:11-56 | JavaScript truthiness as `Truthy` defines it and every `!x` and `\|\|` of the handler uses it: the falsy values are exactly `undefined`, `null`, `false`, `0`, `NaN` and `''` |
| `JsValues.Or` | app/api/generate-qr/route.ts:55 | `a \|\| b` is `a` when `a` is truthy and `b` otherwise; the result is truthy iff either operand is |
| `JsValues.TrimEmptyIffAllWhitespace` | app/generate/page.tsx:56-77 | `s.trim()` is empty exactly when every character of `s` is an ECMAScript whitespace or line-terminator character (proved by induction over both trim directions) |
| `JsValues.NotBlankIsTruthy` | app/generate/page.tsx:56-61 | a string that is not blank is non-empty, so it is truthy for the server's `!text` / `!url` checks |
| `JsValues.Trim` | app/generate/page.tsx:56 | `s.trim()` is what is left of `s` after cutting an all-whitespace prefix and an all-whitespace suffix, and it neither starts nor ends with a whitespace character |
| `JsValues.SplitComma` | app/generate/page.tsx:42 | `s.split(',')` always has at least one piece |
| `JsValues.JoinSplit` | app/generate/page.tsx:42 | joining the pieces of `split(',')` with commas gives back the original string (the split of the encoder's data URL at route.ts:75 and 126 is folded into the encode step, so the lemma serves the form's split) |
| `JsValues.SplitPiecesCommaFree` | app/generate/page.tsx:42 | no piece of `split(',')` contains a comma |
| `JsValues.DataPart` | app/generate/page.tsx:42 | `split(',')[1]` is defined exactly when the string has a comma, and then it holds no comma |
| `JsValues.DataPartOfDataUrl` | app/generate/page.tsx:40-43 | for a data URL `header,data` whose parts hold no comma, `split(',')[1]` is exactly `data` |
| `Route.Validate` | app/api/generate-qr/route.ts:11-62 | for each of the six 400 messages, exactly which bodies get it, in rule order: missing `type`/`size` wins over everything, and the image-field checks come before the content check. Also which bodies are accepted, and the content per type: `text`, `url`, `text \|\| url` (truthy) for logo/background, `''` for an unknown type |
| `Route.TextOrUrlModeAccepted` | app/api/generate-qr/route.ts:19-52 | a text (url) request with truthy size and non-empty `text` (`url`) is accepted with that string as content |
| `Route.ImageModeAccepted` | app/api/generate-qr/route.ts:33-62 | a logo/background request with its image present, truthy size and non-empty `text \|\| url` is accepted with that content |
| `Route.BaseOptions` | app/api/generate-qr/route.ts:65-72 | the encoder gets width `size` and margin 1; dark is `color` or `#000000` when falsy, light is `backgroundColor` or `#ffffff` when falsy |
| `Route.OverlayOptions` | app/api/generate-qr/route.ts:117-124 | the background-mode render always has light `#ffffff`; its width, dark colour and margin equal the base render's |
| `Route.LogoPlacement` | app/api/generate-qr/route.ts:85-90 | `side = floor(3*size/10)`, `x == y`; for `size >= 0` the logo has `0 <= side <= size` and lies inside the square on both axes; the right margin equals the left one or exceeds it by one |
| `Route.PlacementFor` | app/api/generate-qr/route.ts:85-90 | a placement is computed exactly when `size` is a JSON number, and it is then `LogoPlacement(size)` |
| `Route.Post` | app/api/generate-qr/route.ts:5-176 | its contract is `Answers(b, Validate(b), be, h)`, which says: statuses are 200, 400 or 500; 400 iff validation rejects, and then no foreign call is made; an accepted request makes exactly the calls of `Path` (base render and read, its branch's calls, PNG encoding) up to and including the first that throws, and no call after it; it first encodes its content with the base options; a PNG iff accepted and no call in the trace threw; every 500 has a trace that stops at the call that threw. That call decides the message: the outer catch (base render, its decoding, PNG encoding) answers with the error's own message, or "Failed to generate QR code" for a non-Error. The logo catch answers "Failed to process logo image"; the background catch answers "Failed to process background image" (this includes the second QR render) |
| `Route.Respond` | app/api/generate-qr/route.ts:64-176 | once validation has given its outcome, the handler answers as `Answers` states: a 400 with the rejection's message and no call, or the accepted request's calls and response |
| `Route.Accepted` | app/api/generate-qr/route.ts:64-168 | an accepted request makes exactly the calls of `Path` up to the first that throws; it starts with the base render; a failure there is answered by the outer catch with the one-call trace when the encoder throws; a failing logo or background call after a clean base render gets its branch's 500 |
| `Route.BaseFailure` | app/api/generate-qr/route.ts:65-76 | when the base render or its read throws, `Post` answers exactly 500 with the thrown error's message (or "Failed to generate QR code" for a non-Error, route.ts:169-174), and the trace is the base calls up to that one |
| `Route.PngFailure` | app/api/generate-qr/route.ts:158-174 | when every call before the PNG encoding returns and the encoding throws, `Post` answers exactly 500 with what it threw, after the whole `Path` |
| `Route.Path` | app/api/generate-qr/route.ts:64-159 | the calls of an accepted request in source order: at least three, the base render with the base options first, the PNG encoding last |
| `Route.LogoPart` | app/api/generate-qr/route.ts:79 | the logo calls are on the path exactly for a logo request with a truthy `logo` |
| `Route.BackgroundPart` | app/api/generate-qr/route.ts:108 | the background calls are on the path exactly for a background request with a truthy `bgImage` |
| `Route.Upto` | app/api/generate-qr/route.ts:64-174 | a throw leaves the `try`: the calls made along a path are a prefix of it, all of it when nothing throws, and up to and including the first call that throws otherwise |
| `Route.RunCalls` | app/api/generate-qr/route.ts:80-146 | a `try` block: the calls run in order until one throws; it completes iff none throws, and its trace is then every call; otherwise the trace stops at the first call that throws, which is the last one made, and the run carries what that call threw |
| `Route.ReportsFailure` | app/api/generate-qr/route.ts:98-174 | a reported failure is a 500 whose trace is non-empty and ends at a call whose stage throws |
| `Route.FailureMessages` | app/api/generate-qr/route.ts:98-174 | every stage lies inside exactly one `try`, so a reported failure carries the outer catch's message (route.ts:172), "Failed to process logo image" (route.ts:101) or "Failed to process background image" (route.ts:152) |
| `Route.UnexpectedMessage` | app/api/generate-qr/route.ts:172 | the outer catch answers with the thrown Error's own message, and with "Failed to generate QR code" for anything else thrown |
| `Route.BaseCalls` | app/api/generate-qr/route.ts:65-76 | the base render and its read, both enclosed only by the outer catch |
| `Route.LogoCalls` | app/api/generate-qr/route.ts:81-97 | the logo branch reads the uploaded logo, resizes it and composites it at the placement, all under the logo catch |
| `Route.BackgroundCalls` | app/api/generate-qr/route.ts:110-146 | the background branch reads the uploaded photo, covers it to `size`, renders and reads the overlay with the overlay options, keys out its white and composites it, all under the background catch |
| `Route.LogoStep` | app/api/generate-qr/route.ts:78-105 | the logo branch runs only for a logo request with a logo; any failing logo call gives "Failed to process logo image"; otherwise the request continues unchanged into the background branch |
| `Route.LogoThrew` | app/api/generate-qr/route.ts:98-104 | a failing read, resize or composite of the logo is answered by the logo catch, at the call that threw |
| `Route.BackgroundStep` | app/api/generate-qr/route.ts:107-156 | the background branch runs only for a background request with a photo; any failing call in it gives "Failed to process background image"; otherwise the request continues to the PNG encoding |
| `Route.BackgroundThrew` | app/api/generate-qr/route.ts:149-155 | a failing read, cover, overlay render, decode, scan or composite is answered by the background catch, at the call that threw |
| `Route.Finish` | app/api/generate-qr/route.ts:158-174 | after a clean trace, the PNG encoding either returns the image (200) or fails into the outer catch with one more call in the trace |
| `Route.PlainSuccess` | app/api/generate-qr/route.ts:64-168 | with no failing call, a text, url or unknown-type request returns the base render alone, after exactly base render, read, PNG encode |
| `Route.BackgroundSuccess` | app/api/generate-qr/route.ts:107-159 | with no call on its path failing (other stages may fail), a background request returns the white-light overlay render, with its near-white pixels keyed out, composited over the request's own `bgImage` covered to `size`, after exactly base render, read, cover, overlay render, read, punch, composite, PNG encode |
| `Route.LogoSuccess` | app/api/generate-qr/route.ts:78-105 | with no call on its path failing (other stages may fail), a logo request with numeric size returns the base render with the request's own `logo` drawn at `LogoPlacement(size)`, after exactly base render, read, logo read, resize, composite, PNG encode |
| `ChromaKey.KeyPixel` | app/api/generate-qr/route.ts:131-138 | on one RGBA pixel the callback keeps red, green and blue, and sets alpha to 0 iff all three are above 250 |
| `ChromaKey.Punched` | app/api/generate-qr/route.ts:129-139 | the pass keys every pixel on its own and keeps the buffer's length |
| `ChromaKey.PunchedAt` | app/api/generate-qr/route.ts:130-139 | after the pass, byte `i` is 0 when it is the alpha of a near-white pixel and its original value otherwise (pixel-wise definition equals byte-wise reading, by induction) |
| `ChromaKey.PunchedPixel` | app/api/generate-qr/route.ts:130-139 | for every pixel: R, G and B bytes are unchanged; alpha becomes 0 when R, G, B > 250; otherwise alpha is unchanged |
| `ChromaKey.PunchedIdempotent` | app/api/generate-qr/route.ts:136-138 | running the pass twice equals running it once, since the bytes it tests are never written |
| `ChromaKey.PunchedAppend` | app/api/generate-qr/route.ts:130 | the pass over a buffer split after whole pixels is the pass over each part |
| `ChromaKey.Bitmap.KeyOutPixel` | app/api/generate-qr/route.ts:130-139 | the callback on the pixel at byte `idx` rewrites only those four bytes, into `KeyPixel` of their old value |
| `ChromaKey.Bitmap.MakeWhiteTransparent` | app/api/generate-qr/route.ts:130-139 | the row-by-row scan with byte index `4 * (width*y + x)` leaves the buffer equal to `Punched` of the old buffer, and the same length |
| `ChromaKey.PixelInRange` | app/api/generate-qr/route.ts:130 | every pixel the scan visits has its four bytes inside the `4*width*height` buffer |
| `GeneratePage.ClassifyContent` | app/generate/page.tsx:218-224 | after an edit of the content field, at most one of `text`/`url` is non-empty; `url` is set only for input starting with `http://` or `https://`; `text` is set only for other input; the field (`text \|\| url`) shows back exactly what was typed |
| `GeneratePage.GeneratorForm.ContentShown` | app/generate/page.tsx:216 | the logo/background content field shows `text \|\| url`, which is empty exactly when both are |
| `GeneratePage.CheckInputs` | app/generate/page.tsx:56-77 | text mode fails iff `text` is blank ("Please enter some text"), url mode iff `url` is blank ("Please enter a URL"); logo/background mode reports a missing file first, then fails iff both `text` and `url` are blank |
| `GeneratePage.PayloadFor` | app/generate/page.tsx:79-105 | always carries type, size and both colours; text/url mode carries only its own field; logo/background carries `text` iff it is not blank, else `url` iff it is not blank, never both; `logo` only in logo mode and `bgImage` only in background mode, each as the file's data part |
| `GeneratePage.SubmitFor` | app/generate/page.tsx:49-105 | the form shows an error iff one of its checks fails, and otherwise sends `PayloadFor` of its state; a sent payload always carries non-blank `text` or `url`, and a logo or background request is sent only with its file chosen |
| `GeneratePage.ToBody` | app/api/generate-qr/route.ts:7-8 | after `JSON.stringify` and `request.json()`, the handler reads type and size as the form's string and number, both colours as the form's strings, each content or image field as the form's string, and a field the form left out as `undefined` |
| `GeneratePage.ClientAcceptedTextOrUrlIsServerAccepted` | app/generate/page.tsx:56-61 | in text and url mode, a payload the form lets through is accepted by `Route.Validate`, with exactly the typed string as content |
| `GeneratePage.ClientAcceptedImageModeIsServerAccepted` | app/generate/page.tsx:62-97 | in logo/background mode, if the form's checks pass and the file's data part is non-empty, the server accepts, encoding `text` when it is not blank and `url` otherwise |
| `GeneratePage.EmptyLogoFileRejectedByServer` | app/generate/page.tsx:99-101 | an empty logo file passes the form's checks, but its data part is empty, so the server answers "Logo is required for logo type" |
| `GeneratePage.GeneratorForm.constructor` | app/generate/page.tsx:9-16 | initial state: text mode, empty text and url, size 512, `#000000` on `#ffffff`, no files |
| `GeneratePage.GeneratorForm.OnContentChange` | app/generate/page.tsx:217-225 | the handler leaves `(text, url) == ClassifyContent(value)`, so at most one is non-empty and the field shows `value` |
| `GeneratePage.GeneratorForm.OnTextChange` | app/generate/page.tsx:184 | the text-mode textarea sets `text` only |
| `GeneratePage.GeneratorForm.OnUrlChange` | app/generate/page.tsx:201 | the url-mode input sets `url` only |
| `GeneratePage.GeneratorForm.OnLogoChange` | app/generate/page.tsx:23-27 | the first selected file becomes the logo; an empty selection keeps the previous one |
| `GeneratePage.GeneratorForm.OnBackgroundChange` | app/generate/page.tsx:29-33 | the first selected file becomes the background; an empty selection keeps the previous one |
| `GeneratePage.GeneratorForm.OnSizeChange` | app/generate/page.tsx:340-348 | the size is always one of 256, 512, 1024 |
| `GeneratePage.GeneratorForm.Generate` | app/generate/page.tsx:49-105 | the step-by-step checks and the field-by-field payload assembly give `SubmitFor` of the form state, that is, the first failing check's message or `Send(PayloadFor(...))`; the sent size is one of the selector's values |

## Left out

- QR symbol encoding (`QRCode.toDataURL`): third-party code. Each call is a trace step with its options; the image is the opaque value `QrImage(content, options)`.
- Imaging library operations: these are foreign code with no visible source. They are decoding (`Jimp.read`), `resize`, `cover`, `composite` with source-over blending and opacities, and PNG encoding. Each is a trace step that may throw. The `scan` traversal itself is modelled, because the callback's effect depends on the byte indices it is given.
- Base64 decoding (`Buffer.from(..., 'base64')`) and the `split(',')` of the encoder's data URL: runtime primitives, not modelled on bytes. For the two QR renders they are part of the encode step. For the logo and the photo, the decode is part of the read step that follows it.
- `Route.LogoPlacement`: models `Math.floor(size * 0.3)` with the exact fraction 3/10. It does not model double-precision rounding of the product.
- `Route.PlacementFor`: models the placement only when `size` is a JSON number. JavaScript's coercion of a truthy string, boolean or object `size` in `size * 0.3` is not modelled, and the placement is then recorded as unknown.
- `JsValues.JsValue`: numbers are integers plus `NaN`. Fractional numbers are not modelled.
- Next.js plumbing is not modelled: `request.json()` (a body that is not JSON fails in the outer catch), `NextResponse`, and the response headers.
- `Route.Body`: a body that parses to JSON `null` is not represented. The destructuring at route.ts:8 throws a TypeError for `null`, and the outer catch would answer 500 with its message. The model starts from the destructured fields. A number, string or boolean body destructures to eight `undefined` fields, which is the all-`Undefined` `Body`.
- `ChromaKey.Bitmap.MakeWhiteTransparent`: the byte index `(width*y + x) << 2` that the imaging library's `scan` hands the callback at route.ts:130 is computed as an unbounded `4 * (width*y + x)`. JavaScript's `<<` works on 32-bit integers, so the two differ only for images of 2^29 pixels or more, whose buffers of 2 GiB or more the model assumes do not occur.
- `console.error` logging: output only.
- React rendering and the type and colour inputs (page.tsx:166, 297-330): these are plain setters with no logic.
- `FileReader` (page.tsx:35-47): a chosen file is represented by the data URL the reader would produce. Only the `split(',')[1]` step is modelled.
- The `loading`, `error` and `qrPreview` state, `fetch`, reading the server's error message, blob URLs and the download link (page.tsx:50-52, 107-139): browser I/O.
- The centre-text badge: no code for it exists in the handler.
- app/page.tsx (static landing page) and next.config.js (build configuration): no logic.
