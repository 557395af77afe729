# AI merchandise mock-up front end — verified model of its logic

The application lets a user upload an image, then either pick a merchandise
product or type a free-text instruction, and shows the image returned by an
external image-generation service in a history gallery. This Dafny project
models the three pieces of real logic in it:

* **The service wrapper** (`services/gemini.ts`), module `Gemini`: the API-key
  check, the split of the uploaded data URI into base64 payload and MIME type
  with JavaScript's `split`, `indexOf` and `substring` (module `JsString` gives
  those primitives their ECMAScript meaning, including -1 from `indexOf` and
  the clamping and argument swap of `substring`), the choice of the first part
  of the first candidate, and the rewriting of thrown messages that mention
  403 or 503. Pure functions; the SDK call is a function parameter from the
  request to what the call resolved to or threw.
* **The session state** (`App.tsx`), class `App.Session`: the five state
  fields and the upload, clear, tab and generate handlers. The asynchronous
  generate handler is split into `BeginGenerate` (up to the `await`) and
  `CompleteGenerate` (after it), so other handlers, or a second generation,
  can run in between. Each method states the whole new state, and all keep
  `Valid()`: a shown error is never empty, and every history record has a
  non-empty source image and a PNG data URI as its result.
* **The free-text editor** (`components/EditorPanel.tsx`), class
  `Editor.EditorPanel`: the `prompt` field, the submit guard, the suggestion
  buttons and the submit button's enabled state.

Behaviour of the code that the model keeps:

* The product prompt (App.tsx:51) is the text "A high-quality, photorealistic
  product shot of a ", the product name, and " featuring the provided logo or
  design clearly visible on it. Professional studio lighting, commercial
  photography style.", character for character.
* `handleGenerate` does not check `isProcessing`. Only the disabled controls
  (`components/MerchGrid.tsx:46`, `components/EditorPanel.tsx:42,64`) keep a
  second generation from starting. `BeginGenerate` therefore has no such
  precondition, and it starts a generation whatever the flag says. The first
  generation to complete lowers the flag even if another is still pending.
* A thrown error that mentions neither 403 nor 503 is rethrown unchanged
  (services/gemini.ts:64). The "no image" error is only thrown when a response
  has no usable image data.
* The free-text prompt is dispatched as typed, untrimmed
  (components/EditorPanel.tsx:14-16). Trimming is only used for the test.
* JavaScript truthiness is kept: an empty input image counts as no image, an
  empty API key as a missing key, and empty inline data as no image data.

## Model

| member | source | states |
|---|---|---|
| `JsString.IndexOf` | services/gemini.ts:20-23 | `indexOf` gives -1 exactly when the character is absent, otherwise the position of its first occurrence |
| `JsString.Split` | services/gemini.ts:19 | `split(',')` gives at least one segment, no segment holds the separator, and joining the segments gives the input back |
| `JsString.SplitJoin` | services/gemini.ts:19 | splitting joined separator-free parts gives the same parts back |
| `JsString.SplitHead` | services/gemini.ts:19 | the first segment is the text before the first separator, or the whole input |
| `JsString.SplitSecond` | services/gemini.ts:19 | a second segment exists exactly when there is a separator, and it is the text between the first and the second separator |
| `JsString.Clamp` | services/gemini.ts:20-23 | a `substring` position is clamped into [0, length]: a negative one becomes 0, one past the end becomes the length, and an in-range one is kept |
| `JsString.Substring` | services/gemini.ts:20-23 | `substring` gives text that occurs in its input and is no longer than it; with `Clamp` fixing every position, `SubstringInRange`, `SubstringSymmetric` and `SubstringNegativeIsZero` pin down which text |
| `JsString.SubstringInRange` | services/gemini.ts:20-23 | `substring` with ordered in-range positions is that slice |
| `JsString.SubstringSymmetric` | services/gemini.ts:20-23 | `substring` swaps its arguments when the start is after the end |
| `JsString.SubstringNegativeIsZero` | services/gemini.ts:20-23 | a negative position such as `indexOf(...)` = -1 counts as 0 |
| `JsString.Includes` | services/gemini.ts:58-61 | `includes` holds only for a text no longer than the input, and always for the empty text |
| `JsString.IncludesNeedsFirstChar` | services/gemini.ts:58-61 | a non-empty text occurs only where its first character does |
| `JsString.LeadingWhitespace` | components/EditorPanel.tsx:14 | the count of leading characters `trim()` removes: all of them are whitespace and the next one, if any, is not |
| `JsString.TrailingWhitespace` | components/EditorPanel.tsx:14 | the count of trailing characters `trim()` removes: all of them are whitespace and the one before, if any, is not |
| `JsString.Trim` | components/EditorPanel.tsx:14 | `trim()` is the input with its leading whitespace (counted by `LeadingWhitespace`) and its trailing whitespace removed: the result is a slice of the input, what lies before and after it is all whitespace, and the result starts and ends with a non-whitespace character |
| `JsString.TrimEmptyIff` | components/EditorPanel.tsx:14 | `trim()` is empty exactly when the text is all whitespace |
| `JsString.TrimIdempotent` | components/EditorPanel.tsx:14 | trimming twice equals trimming once |
| `JsString.NumberToString` | App.tsx:33 | the id `Date.now().toString()` is a non-empty string of decimal digits with no leading zero |
| `JsString.NumberToStringRoundTrip` | App.tsx:33 | reading the id's digits back gives the clock value, so different clock values give different ids |
| `Gemini.FirstPart` | services/gemini.ts:47 | a part is found only when there is a first candidate with content and a non-empty part list, and it is the first part of that list |
| `Gemini.FirstImageData` | services/gemini.ts:47-49 | image data is found only when it is non-empty, and it is then the `inlineData.data` of the first part of the first candidate |
| `Gemini.FirstImageDataFound` | services/gemini.ts:47-49 | for a response whose first candidate's first part has inline data `d`, the data found is `d` when non-empty and nothing otherwise, whatever follows |
| `Gemini.FirstImageDataAbsent` | services/gemini.ts:47-49 | no candidates, an empty candidate list, no content, no or empty parts, no inline data or no data each give no image data |
| `Gemini.ExtractImage` | services/gemini.ts:47-53 | success exactly when image data is found, and then the result is the PNG data URI prefix followed by that data; otherwise the no-image error |
| `Gemini.GenerateEditedImage` | services/gemini.ts:12-64 | every successful result is the PNG data URI prefix followed by a non-empty payload |
| `Gemini.MissingKeyShortCircuits` | services/gemini.ts:12-14 | a missing or empty key fails with the key message whatever the service would do, and the 403/503 mapping would leave that message alone |
| `Gemini.Base64Payload` | services/gemini.ts:19 | the payload sent is the whole input, or a non-empty comma-free segment of an input with a comma; `PayloadBetweenFirstCommas` says which segment |
| `Gemini.MimeTypeOf` | services/gemini.ts:20-23 | the MIME type is text occurring in the input; `MimeTypeOfDataUri` and the `MimeTypeWithout…` lemmas say which |
| `Gemini.RequestFor` | services/gemini.ts:19-44 | the request names the model, carries the prompt, asks for image output only, and carries the payload and MIME type parsed from the upload; `DataUriRoundTrip` says what they are for a data URI |
| `Gemini.PayloadBetweenFirstCommas` | services/gemini.ts:19 | the payload is the text between the first and the second comma when that is non-empty, otherwise the whole input |
| `Gemini.PayloadWithoutComma` | services/gemini.ts:19 | an input without a comma is sent whole |
| `Gemini.PayloadOfDataUri` | services/gemini.ts:19 | the payload of a data URI with a comma-free type and a non-empty, comma-free payload is that payload |
| `Gemini.PayloadOfEmptyDataUri` | services/gemini.ts:19 | a data URI with an empty payload is sent whole, header included |
| `Gemini.MimeTypeOfDataUri` | services/gemini.ts:20-23 | the MIME type of `data:m;base64,d` is `m` when `m` has no ':' or ';' |
| `Gemini.DataUriRoundTrip` | services/gemini.ts:19-23 | the request built from `data:m;base64,d`, with any prompt, carries exactly `d` and `m` |
| `Gemini.ResultParsesBack` | services/gemini.ts:19-50 | the service's own result, uploaded again, is sent as `image/png` with the same payload and the given prompt |
| `Gemini.MimeTypeWithoutHeader` | services/gemini.ts:20-23 | with no ':' and no ';' the MIME type is empty |
| `Gemini.MimeTypeWithoutSemicolon` | services/gemini.ts:20-23 | with a ':' but no ';' the MIME type is everything up to and including the ':' |
| `Gemini.MimeTypeWithoutColon` | services/gemini.ts:20-23 | with a ';' but no ':' the MIME type is everything before the ';' |
| `Gemini.MimeTypeSemicolonFirst` | services/gemini.ts:20-23 | with the first ';' before the first ':' the positions swap |
| `Gemini.NoStatusWithoutDigits` | services/gemini.ts:58-61 | a text without the digits 4 and 5 mentions neither 403 nor 503 |
| `Gemini.FixedMessagesMentionNoStatus` | services/gemini.ts:13-62 | none of the four fixed messages mentions 403 or 503 |
| `Gemini.Classify403First` | services/gemini.ts:58-60 | a message mentioning 403 becomes the permission message, even if it also mentions 503 |
| `Gemini.Classify503` | services/gemini.ts:61-63 | a message mentioning 503 but not 403 becomes the unavailable message |
| `Gemini.ClassifyPassesThrough` | services/gemini.ts:58-64 | an error with no message, or one mentioning neither status, is rethrown unchanged |
| `Gemini.Classify` | services/gemini.ts:55-64 | the mapping yields one of its two fixed messages or its input; `Classify403First`, `Classify503` and `ClassifyPassesThrough` say which |
| `Gemini.ClassifyIdempotent` | services/gemini.ts:58-64 | mapping an already mapped error changes nothing |
| `Gemini.SuccessIff` | services/gemini.ts:47-51 | success exactly when the key is set, the call resolved and the first part of the first candidate has non-empty data; the result is that data as a PNG data URI |
| `Gemini.NoImageFailure` | services/gemini.ts:53-64 | a response without usable image data fails with the no-image message, unchanged by the mapping |
| `Gemini.ThrownCallIsClassified` | services/gemini.ts:55-64 | a thrown call fails with the mapped error |
| `Gemini.OnlyFirstPartMatters` | services/gemini.ts:47 | later parts and later candidates do not change the result |
| `App.MerchPrompt` | App.tsx:51 | the product prompt starts with the fixed prefix, ends with the fixed suffix, and is as long as prefix, name and suffix together; `MerchPromptRecoversName` reads the name back |
| `App.MerchPromptRecoversName` | App.tsx:51 | the product prompt is the fixed prefix, the name, then the fixed suffix, so the name can be read back |
| `App.MerchPromptInjective` | App.tsx:51 | different product names give different prompts |
| `App.CatalogPromptsDistinct` | components/MerchGrid.tsx:10-17 | the six catalogue products give six different prompts |
| `App.ErrorText` | App.tsx:44 | the shown error is the error's message when that is non-empty, otherwise the fallback text, and never empty |
| `App.Session.constructor` | App.tsx:12-16 | the session starts on the merchandise tab with no image, no history, no error and not processing |
| `App.Session.HandleImageUpload` | App.tsx:18-21 | the image is replaced and the error cleared; tab, history and processing flag are unchanged |
| `App.Session.ClearImage` | App.tsx:74 | the image is removed; history, error, tab and flag are unchanged |
| `App.Session.SelectTab` | App.tsx:93-104 | only the active tab changes |
| `App.Session.BeginGenerate` | App.tsx:23-27 | with no (or an empty) image nothing changes and nothing is started; otherwise the flag rises, the error clears and the image, prompt and tab are captured |
| `App.Session.CompleteGenerate` | App.tsx:29-47 | given the settled result of the service call, on success one record (id and timestamp from the two clock readings) is put in front of the current history, on failure the history is unchanged and the error is the non-empty shown text; the flag drops either way |
| `App.Session.HandleGenerate` | App.tsx:23-48 | run without interleaving: no-op without an image, otherwise exactly one record added in front with the error cleared, or the error set with the history unchanged |
| `App.Session.HandleMerchSelect` | App.tsx:50-53 | a product selection begins a generation with that product's prompt |
| `Editor.EditorPanel.constructor` | components/EditorPanel.tsx:10 | the prompt starts empty |
| `Editor.EditorPanel.OnChange` | components/EditorPanel.tsx:39 | typing sets the prompt to the textarea's value |
| `Editor.EditorPanel.ChooseSuggestion` | components/EditorPanel.tsx:54 | a suggestion button sets the prompt to exactly that suggestion |
| `Editor.EditorPanel.HandleSubmit` | components/EditorPanel.tsx:12-17 | the prompt is dispatched exactly when it has a non-whitespace character, and it is dispatched untrimmed |
| `Editor.EditorPanel.SubmitEnabled` | components/EditorPanel.tsx:64 | the submit button is enabled exactly when not processing and the prompt has a non-whitespace character |
| `Editor.SuggestionsAreSubmittable` | components/EditorPanel.tsx:19-24 | every suggestion, once chosen, would be dispatched |

`App.CatalogThenDeniedScenario` is a client of the session: an upload, a
product selection that succeeds, then one that the service denies with a 403.

## Left out

- The `GoogleGenAI` client and the `generateContent` call (services/gemini.ts:16, 26-44): foreign library and network I/O. The call is a function parameter; the request it receives (model, payload, MIME type, prompt, image-only output) is modelled.
- `process.env.API_KEY`: read from the environment; it is an `Option<string>` parameter.
- `Date.now()` (App.tsx:33, 37): the clock is read twice, so there are two parameters, one for the id and one for the timestamp. Both are natural numbers: a clock reading before 1970, which `toString()` would render with a leading '-', is not modelled.
- `FileReader.readAsDataURL` (components/ImageInput.tsx:14-18): browser file I/O. The upload handler takes the resulting string.
- The download through a DOM anchor (components/Gallery.tsx:11-18), the JSX rendering, `getIcon` and `toLocaleTimeString`: presentation only.
- `console.error` logging: no effect on state.
- Asynchronous interleaving is modelled only at the `await`: `BeginGenerate` and `CompleteGenerate` are separate steps, and React's batching of state updates is not modelled.
- A thrown value that is `null` or `undefined` (reading its `message` would itself throw) is not modelled; a thrown value here always has an optional `message`.
- JavaScript strings are sequences of UTF-16 code units, Dafny's of Unicode scalar values; the indices agree for the ASCII text of data URIs and status messages but not for characters outside the Basic Multilingual Plane.
- `types.ts` has no behaviour; its records are the datatypes `App.GeneratedImage` and `App.MerchProduct`.
- `Editor.EditorPanel.TextareaEnabled` (components/EditorPanel.tsx:42) and `App.Session.ProductGridEnabled` (App.tsx:89, App.tsx:117-121, components/MerchGrid.tsx:46) have no contract of their own: each is one boolean condition.
