# Document intake and image-generation gate — a Dafny model

This project models the two request-decision pipelines of a generative-AI
SaaS dashboard built on Next.js:

- `POST /api/analyze-document` — an uploaded file passes an ordered
  cascade of guards (session, file presence, a case-insensitive MIME
  whitelist of two PDF and two DOCX types, a 10 MiB size bound), its text
  is extracted by `pdf-parse` or `mammoth`, empty or whitespace-only text is
  rejected, and the text is cut to 4000 UTF-16 code units plus `"..."` and
  trimmed.
- `POST /api/image` — the JSON body is destructured with defaults, checked
  in order (session, API key, prompts, amount, resolution), gated on the
  free trial or a subscription, sent to the image provider once or twice,
  and the user's usage counter is increased after every generation has
  succeeded: not at all for a subscriber, otherwise once, plus once more
  when `prompt2` is truthy.

Each handler is a pure function. Everything foreign — the session lookup,
the extraction libraries, the provider, `checkApiLimit` and
`checkSubscription` — is an input value. The usage counter is a `nat` passed
in and returned. The image handler also returns the trace of side effects
it performs, in order. Every guard cascade is also proved equal to a generic
"first failing guard decides" definition (`Cascade.FirstFailure`).

Modules: `Wrappers` (Option, Result), `JsValues` (JSON fields, truthiness,
destructuring defaults), `JsText` (`trim` on UTF-16 code units, ASCII
`toLowerCase`), `Cascade`, `AnalyzeDocument`, `ImageGeneration`.

Behaviour of the handlers a caller might not expect:

- An extraction that yields no text or the empty string throws inside the
  inner `try` and is a 500. Only non-empty, whitespace-only text gets the
  empty-content 400.
- The success JSON carries exactly `content`, `status`, `fileType` and
  `contentLength`. `contentLength` is the length after truncation and
  before trimming.
- The image route reads the body before it checks the session. An
  unreadable body, or a body that is JSON `null`, is a 500 even for a
  signed-out caller.
- `amount` and `resolution` are only tested for truthiness. They are not
  checked against the 1–5 range or the size list.
- Destructuring defaults replace only absent fields. An explicit `null`
  amount is kept and then rejected with 400.
- With only `prompt2` truthy, the first provider call is still made, and it
  carries the falsy `prompt`.

## Model

| member | source | states |
|---|---|---|
| JsValues.Truthy | app/api/image/route.ts:27-35 | a value is truthy exactly when it is none of `undefined`, `null`, `false`, `0` and `""`; in particular `undefined` and `null` are falsy |
| JsValues.WithDefault | app/api/image/route.ts:15 | the default replaces `undefined` only; a defined default never leaves the field undefined; the result is truthy exactly when the field is, or when the field is absent and the default is truthy |
| JsValues.WithDefaultIdempotent | app/api/image/route.ts:15 | applying the same default again changes nothing |
| JsValues.SignedIn | app/api/image/route.ts:17 | the session check passes exactly when the user id, as a JavaScript value (a string or `null`), is truthy |
| JsText.FirstKept | app/api/analyze-document/route.ts:92 | the result is the first index from the start point on whose code unit `trim` keeps, or the length; every code unit skipped is whitespace or a line terminator |
| JsText.EndKept | app/api/analyze-document/route.ts:92 | the result is one past the last code unit before the end point that `trim` keeps, never below the lower bound; every code unit skipped is whitespace or a line terminator |
| JsText.Trim | app/api/analyze-document/route.ts:79 | `trim` returns a slice of the input; the parts outside it are all trim-whitespace; a non-empty result starts and ends with a code unit that is not |
| JsText.TrimSliceUnique | app/api/analyze-document/route.ts:92 | only one slice of a text meets that description, so it determines the trim result |
| JsText.TrimIsTheTrimSlice | app/api/analyze-document/route.ts:92 | every slice meeting that description is what `Trim` returns |
| JsText.TrimEmptyIffAllTrimmable | app/api/analyze-document/route.ts:79 | `trim().length === 0` holds exactly when every code unit is whitespace or a line terminator |
| JsText.TrimIdempotent | app/api/analyze-document/route.ts:92 | trimming already trimmed text changes nothing |
| JsText.LowerAscii | app/api/analyze-document/route.ts:31 | the result is never an upper-case ASCII letter: an upper-case letter becomes a lower-case one 32 code points higher, and every other character is unchanged |
| JsText.LowerAsciiIdempotent | app/api/analyze-document/route.ts:31 | lowering a character twice is lowering it once |
| JsText.ToLowerAscii | app/api/analyze-document/route.ts:31 | the result has no upper-case ASCII letter and equals the input up to ASCII case, which together fix it; the length is kept |
| JsText.ToLowerAsciiIdempotent | app/api/analyze-document/route.ts:31 | a lower-cased string has no upper-case ASCII letter, and lowering it again changes nothing |
| JsText.LowerAlphabet | app/api/analyze-document/route.ts:31 | `"ABCDEFGHIJKLMNOPQRSTUVWXYZ"` lowers to `"abcdefghijklmnopqrstuvwxyz"` |
| JsText.ToLowerAsciiMatches | app/api/analyze-document/route.ts:31-32 | a lower-cased string equals a lower-case word exactly when the input equals that word up to ASCII case |
| Cascade.FirstFailure | app/api/analyze-document/route.ts:10-55 | a guard list passes exactly when every guard passes; otherwise the answer is the rejection of a guard that fails after all earlier guards passed |
| Cascade.FirstFailureAt | app/api/image/route.ts:17-47 | if guard `i` is the first to fail, the answer is guard `i`'s rejection |
| AnalyzeDocument.WhitelistIsLowerCase | app/api/analyze-document/route.ts:23-29 | all four accepted MIME types are lower case |
| AnalyzeDocument.WhitelistsDisjoint | app/api/analyze-document/route.ts:23-29 | no MIME type is on both the PDF list and the DOCX list |
| AnalyzeDocument.AcceptedIgnoringCase | app/api/analyze-document/route.ts:31-40 | a declared type passes the whitelist exactly when it equals an accepted type up to ASCII case |
| AnalyzeDocument.UpperCasePdfAccepted | app/api/analyze-document/route.ts:31-32 | `"APPLICATION/PDF"` lowers to `"application/pdf"`, which is accepted |
| AnalyzeDocument.ExtractorFor | app/api/analyze-document/route.ts:65-77 | PDF types and only they go to `pdf-parse`; DOCX types and only they go to `mammoth`; non-whitelisted types go to no extractor |
| AnalyzeDocument.LibraryText | app/api/analyze-document/route.ts:66-76 | a library call succeeds exactly when it returns non-empty text, and then yields that text; a returned result with no text or empty text fails with the branch's own message; a throwing library fails with its own message, or `"Unknown error"` when it has none |
| AnalyzeDocument.ExtractText | app/api/analyze-document/route.ts:61-77 | a PDF goes through `pdf-parse` with the PDF failure message and a DOCX through `mammoth` with the DOCX message; text from an extractor is never empty; with no extractor the text stays `""` |
| AnalyzeDocument.Truncate | app/api/analyze-document/route.ts:84-87 | text of at most 4000 code units is unchanged; longer text becomes its first 4000 code units followed by `"..."`, exactly 4003 in all |
| AnalyzeDocument.TruncateIdempotent | app/api/analyze-document/route.ts:84-87 | truncating twice is truncating once |
| AnalyzeDocument.TruncateKeepsContent | app/api/analyze-document/route.ts:79-87 | text that is not whitespace-only stays that way after truncation |
| AnalyzeDocument.ProcessContent | app/api/analyze-document/route.ts:58-104 | a success has non-empty content no longer than `contentLength`, which is at most 4003, and echoes the lower-cased type |
| AnalyzeDocument.Analyze | app/api/analyze-document/route.ts:6-112 | the status is 401 exactly when no user is signed in; the status is always 200, 400, 401 or 500; a success comes from a whitelisted blob of at most 10 MiB and has non-empty content no longer than `contentLength`, which is at most 4003 |
| AnalyzeDocument.AnalyzeIsFirstFailingCheck | app/api/analyze-document/route.ts:8-55 | the handler answers with the first failing guard among session, blob, type and size, and runs extraction only when all four pass |
| AnalyzeDocument.SignedOutIsUnauthorized | app/api/analyze-document/route.ts:8-12 | no signed-in user gives 401, whatever the file and the libraries do |
| AnalyzeDocument.UnsupportedTypeIgnoresSize | app/api/analyze-document/route.ts:31-55 | a type off the whitelist gets the unsupported-type 400 with the lower-cased type echoed, even when the file is too large |
| AnalyzeDocument.SizeBoundIsStrict | app/api/analyze-document/route.ts:49-55 | an accepted file gets the too-large 400 exactly when its size exceeds 10485760 bytes |
| AnalyzeDocument.ExtractorsAreDisjoint | app/api/analyze-document/route.ts:65-77 | for a PDF the answer does not depend on `mammoth`'s reply, and for a DOCX it does not depend on `pdf-parse`'s reply |
| AnalyzeDocument.EmptyExtractionIsServerError | app/api/analyze-document/route.ts:65-77 | an extraction with no text or empty text is a 500 carrying the branch's "Failed to extract text" message |
| AnalyzeDocument.NoTextMeansWhitespaceOnly | app/api/analyze-document/route.ts:79-82 | the empty-content 400 happens exactly when the consulted library returned non-empty, whitespace-only text |
| AnalyzeDocument.ExtractionOutcomes | app/api/analyze-document/route.ts:58-104 | for a signed-in file of an accepted type within 10 MiB, a throwing library gives the 500 with its message or `"Unknown error"`, and returned text that is not whitespace-only gives the success whose content is the trimmed truncation and whose `contentLength` is the truncated length |
| AnalyzeDocument.SuccessIsTrimmedTruncation | app/api/analyze-document/route.ts:84-96 | on success `content` is the trim of the truncated text and `contentLength` is the truncated text's length |
| AnalyzeDocument.ShortTextPassesUnchanged | app/api/analyze-document/route.ts:31-96 | a 20-byte file declared as PDF whose library yields 50 letters succeeds, and the text comes back unchanged with length 50 |
| ImageGeneration.ApplyDefaults | app/api/image/route.ts:15 | absent `amount`, `resolution` and `model` become `1`, `"1024x1024"` and `"dall-e-2"`; present fields, `null` included, are kept; a defaulted field is truthy |
| ImageGeneration.CallsDifferOnlyInPrompt | app/api/image/route.ts:50-68 | the call for `prompt2` is the call for `prompt` with only the prompt replaced: amount, resolution, model and quality are shared |
| ImageGeneration.QualityFollowsModel | app/api/image/route.ts:55-67 | every provider call of a request asks for `hd` exactly when the body's `model` is the string `"dall-e-3"`, so an absent model, defaulted to `"dall-e-2"`, gets `standard` |
| ImageGeneration.CounterAfter | app/api/image/route.ts:72-78 | effects never lower the counter; they raise it by at most their number; a trace of generation calls only leaves it unchanged |
| ImageGeneration.CounterAfterAppend | app/api/image/route.ts:72-78 | the counter after two traces in sequence is the counter after the first, then the second |
| ImageGeneration.CounterMonotone | app/api/image/route.ts:72-78 | a higher starting count stays at least as high; one more increment adds exactly one |
| ImageGeneration.CounterMonotoneFrom | app/api/image/route.ts:72-78 | a higher starting count stays at least as high after any trace |
| ImageGeneration.UsageEffects | app/api/image/route.ts:72-78 | only increments: none for a subscriber, otherwise one, plus one more when a second prompt was sent |
| ImageGeneration.Gate | app/api/image/route.ts:17-47 | the 403 comes exactly for an admissible request with neither a free trial nor a subscription; the gate lets a request through exactly when it is admissible and the user has a trial or a subscription |
| ImageGeneration.GateIsFirstFailingCheck | app/api/image/route.ts:17-47 | the gate answers with the first failing guard: 401, then 500 for a missing key, then the prompt, amount and resolution 400s, then 403 |
| ImageGeneration.RunGeneration | app/api/image/route.ts:49-80 | a success needs every call issued to succeed, and its list is the first reply's images followed by the second's when `prompt2` is truthy; any failed call gives the 500 |
| ImageGeneration.HandleImage | app/api/image/route.ts:11-85 | the counter never decreases; it is unchanged on every error; on success it rises by 0 for a subscriber, else by 2 when `prompt2` is truthy and by 1 otherwise; increments come after every generation call; a success lists the first reply's images, then the second's when `prompt2` is truthy; every call uses the same quality rule |
| ImageGeneration.HandleImageIsFirstFailingCheck | app/api/image/route.ts:17-47 | for a readable body, when a guard fails the handler answers with the rejection of the first failing guard among session, key, prompts, amount, resolution and quota, with no calls and no charge |
| ImageGeneration.HandleImageSucceedsIff | app/api/image/route.ts:13-80 | the handler lists images exactly when the body is readable, every guard passes, the first call succeeds and, when `prompt2` is truthy, the second call succeeds too |
| ImageGeneration.UnreadableBodyIsInternalError | app/api/image/route.ts:13-19 | an unreadable or `null` body is a 500 with no effects, even when no user is signed in |
| ImageGeneration.SignedOutIsUnauthorized | app/api/image/route.ts:17-19 | a readable request with no signed-in user is a 401 that calls nothing and charges nothing |
| ImageGeneration.NullAmountIsNotDefaulted | app/api/image/route.ts:31-33 | an explicit `null` amount is rejected with "Amount is required"; an absent amount is defaulted and passes |
| ImageGeneration.QuotaGate | app/api/image/route.ts:39-47 | the 403 comes exactly when the request is admissible and the user has neither a free trial nor a subscription; a 403 calls nothing and charges nothing |
| ImageGeneration.EffectsPastTheGate | app/api/image/route.ts:49-78 | past the gate, the handler calls the provider for `prompt`; it calls again for `prompt2` only when `prompt2` is truthy and the first call succeeded; increments follow, and only on success |
| ImageGeneration.ProviderFailureChargesNothing | app/api/image/route.ts:50-83 | a failed provider call is a 500 and leaves the counter unchanged, even when the first call succeeded |
| ImageGeneration.FirstCallCarriesPrompt | app/api/image/route.ts:27-56 | past the gate the first call always goes out and carries `prompt`, even when only `prompt2` is truthy |
| ImageGeneration.TwoPromptScenario | app/api/image/route.ts:49-80 | two prompts, `amount` `"2"` and a trial user with two images per reply give four images in prompt order and raise the counter by two |

## Left out

- Form and body plumbing: `req.formData()` rejecting, `file.arrayBuffer()` rejecting and `Buffer` conversion are not modelled. These are the 500s of analyze-document lines 98-111 that do not come from the extraction libraries.
- Response construction and logging: `NextResponse` objects are reduced to a status with a message or a payload, and `console` output is dropped.
- The text extraction done by `pdf-parse` and `mammoth`, the session lookup by `auth()`, and the provider's image generation are foreign. Their answers are inputs, and their internal failures other than the answers modelled are not.
- `lib/api-limit` and `lib/subscription` are not part of this model. `checkApiLimit` and `checkSubscription` are booleans, so the free-tier limit constant and the billing-period check behind them are not modelled. Their throwing is not modelled either.
- ImageGeneration.HandleImage: assumes `incrementApiLimit` always succeeds. In the source, a throw between the two increments would give a 500 after only one increment.
- ImageGeneration.CallsDifferOnlyInPrompt: a call records `amount` as sent, before `parseInt(amount, 10)`, because the provider's reading of `n` is foreign.
- JsText.ToLowerAscii: lowers only ASCII letters, not full Unicode `toLowerCase`. Full lowering can lengthen a string and maps two non-ASCII characters to ASCII letters: U+0130 becomes `"i"` followed by U+0307, and the Kelvin sign U+212A becomes `"k"`. No accepted type contains U+0307 or `k`, so the whitelist verdict is the same. Only the echoed `fileType` of a non-ASCII type can differ.
- JSON numbers are reals and never `NaN`. Arrays and objects are one truthy `Composite` value.
- The API key is read once, when the module loads. It is an input here.
- Concurrent requests racing on the counter are not modelled: the model is sequential.
- The commented-out earlier handler (analyze-document lines 114-166) is dead code.
- The layouts, pages and form constants of the dashboard are UI with no decision logic.
