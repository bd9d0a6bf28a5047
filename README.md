# Password-list generator: request logic

This project models the request logic of the single React component `App` of
Generate-password-list (`src/app.js`). The component has three modes:

- **samples** asks a generative-text service for variations of sample passwords;
- **target** asks for likely default credentials of a device, given its manufacturer,
  model and usernames;
- **length** asks for passwords of a given length, count and character type.

For each mode the model covers:

- the guard check on the form inputs and its exact error message;
- the prompt template;
- how the reply of the remote call is read (`callGeminiAPI`), including the error
  message it leaves in the one error slot shared by all modes;
- the ordered writes the handler makes to the component state: the loading flag, the
  result slot and the error message.

Modules:

- `Wrappers` (`wrappers.dfy`): `Option` and `Result`.
- `JsText` (`js_text.dfy`): the JavaScript semantics the component relies on.
  - `String.prototype.trim` over the ECMAScript whitespace and line-terminator set.
  - The global `parseInt` without a radix: leading whitespace, an optional sign, a
    `0x`/`0X` hexadecimal prefix, then the longest run of digits. `None` stands for `NaN`.
  - `${n}`: the decimal rendering of a non-negative integer.
- `Prompts` (`prompts.dfy`): the three prompt templates, the `N/A` substitution and the
  character-type phrase.
- `GeminiApi` (`gemini_api.dfy`): the reply as a datatype. `FetchOutcome` is either a
  rejection, or a status with a body that is either unparsable or a JSON object.
  - The shape check on `candidates[0].content.parts[0].text`.
  - The `API error: <status> - <message>` text.
  - What `callGeminiAPI` returns, and what it leaves in the error slot.
- `Validation` (`validation.dfy`): the guard checks of the three handlers, in the
  handlers' order.
- `PasswordApp` (`app.dfy`): class `App`, which holds the component state.
  - One setter per input field (the `onChange` handlers).
  - `CallGeminiApi`.
  - One method per handler. Each takes the outcome of the remote call as a parameter.
  - A ghost log `calls` records every remote call: its prompt and the loading flags at
    the moment it was made. It is what "no call is made" is stated against.

The remote call is an input: each handler runs as one atomic method, with the awaited
result supplied by the caller.

After a completed call, a mode's result slot and the shared error are never both set.
They can both be empty: an ok reply whose first part's `text` is empty or missing leaves
the error cleared by `callGeminiAPI` on entry (`src/app.js:38`) and the result slot
unfilled, because the handler stores only a truthy result (`src/app.js:95`).
`PasswordApp.ResultAndErrorExclusive` states exactly when this happens. The error slot
`errorMessage` is one slot shared by all three modes.

## Model

| member | source | states |
|---|---|---|
| JsText.TrimStartSpec | src/app.js:75 | What `TrimStart` keeps is a suffix of the input. Everything it dropped is whitespace, and what it keeps starts with a non-whitespace character. |
| JsText.TrimEndSpec | src/app.js:75 | What `TrimEnd` keeps is a prefix of the input. Everything it dropped is whitespace, and what it keeps ends with a non-whitespace character. |
| JsText.TrimStart | src/app.js:75 | The leading half of `trim`, defined by its body: it drops whitespace from the front; `JsText.TrimStartSpec` carries its facts. |
| JsText.TrimEnd | src/app.js:75 | The trailing half of `trim`, defined by its body: it drops whitespace from the back; `JsText.TrimEndSpec` carries its facts. |
| JsText.Trim | src/app.js:75 | `s.trim()` is empty exactly when `s` is all whitespace. Otherwise it starts and ends with a non-whitespace character. It is never longer than `s`. |
| JsText.TrimSpec | src/app.js:75 | `s.trim()` is the slice of `s` left after dropping an all-whitespace prefix and an all-whitespace suffix. |
| JsText.TrimOfTrimmed | src/app.js:92 | A string with no whitespace at either end is its own trim. |
| JsText.TrimIdempotent | src/app.js:92 | Trimming twice is trimming once. |
| JsText.TrimStartOfPadded | src/app.js:119 | Leading whitespace before a non-whitespace character is exactly what the start trim drops. |
| JsText.TrimEndOfPadded | src/app.js:119 | Trailing whitespace after a non-whitespace character is exactly what the end trim drops. |
| JsText.DigitPrefixSpec | src/app.js:132 | The digit run `parseInt` reads is a prefix of its input, is made only of digits, and stops at the first non-digit. |
| JsText.DigitPrefixOfDigits | src/app.js:132 | When digits are followed by a non-digit, the run `parseInt` reads is exactly those digits. |
| JsText.Decimal | src/app.js:154 | `${n}` is a non-empty string of decimal digits with no leading zero. |
| JsText.DecimalValue | src/app.js:154 | The digits written for `n` denote `n`. |
| JsText.ParseInt | src/app.js:132 | The global `parseInt` without a radix, defined by its body (also used at `src/app.js:369`); `JsText.ParseDecimal`, `JsText.ParseIntSkipsLeadingWhitespace` and `JsText.ParseNegativeDecimal` carry its facts. |
| JsText.ParseMagnitudeOfDecimal | src/app.js:132 | The unsigned part of `parseInt` reads back a rendered number followed by anything that starts with neither a digit nor `x`/`X` (after `0`, either letter would start a hexadecimal number). |
| JsText.ParseDecimal | src/app.js:132 | `parseInt` reads back a rendered number followed by anything that starts with neither a digit nor `x`/`X`. |
| JsText.ParseIntSkipsLeadingWhitespace | src/app.js:132 | Whitespace in front of any typed text does not change what `parseInt` reads. |
| JsText.TrimStartOfWhitespace | src/app.js:132 | Whitespace in front of any text is dropped by the start trim together with the text's own leading whitespace. |
| JsText.ParseNegativeDecimal | src/app.js:132-133 | A minus sign in front of a rendered number makes `parseInt` read its negation. |
| Prompts.SamplesPrompt | src/app.js:83-92 | The samples template, defined by its body; `Prompts.SamplesPromptLayout` and `Prompts.SamplesPromptDeterminesSamples` carry its facts. |
| Prompts.SamplesPromptLayout | src/app.js:83-92 | The samples prompt opens with the request for 50 variations, continues with the mutation techniques and the `Samples:` heading, and ends with the trimmed samples, verbatim. |
| Prompts.SamplesPromptDeterminesSamples | src/app.js:83-92 | Two sample texts give the same prompt if and only if they trim to the same text. |
| Prompts.FieldText | src/app.js:119-121 | A target field as shown in the prompt is never empty. It is the trimmed field when that is non-empty, and `N/A` when the field is all whitespace. |
| Prompts.TargetPrompt | src/app.js:111-121 | The target template, defined by its body; `Prompts.FieldText`, the three `Prompts.TargetPromptOnly*` lemmas and `Prompts.TypedNotAvailableLooksEmpty` carry its facts. |
| Prompts.TargetPromptOnlyManufacturer | src/app.js:111-121 | With only the manufacturer given, the prompt holds the trimmed manufacturer, and `N/A` for the model and the usernames. |
| Prompts.TargetPromptOnlyModel | src/app.js:111-121 | With only the model given, the prompt holds the trimmed model, and `N/A` for the other two fields. |
| Prompts.TargetPromptOnlyUsernames | src/app.js:111-121 | With only usernames given, the prompt holds the trimmed usernames, and `N/A` for the other two fields. |
| Prompts.FieldTextOfTypedMarker | src/app.js:119 | `N/A` typed with any whitespace before it and any (possibly different) whitespace after it shows as `N/A`. |
| Prompts.TypedNotAvailableLooksEmpty | src/app.js:119-121 | A manufacturer typed as `N/A`, with any whitespace before and after it (the two sides may differ), gives the same prompt as an empty one. |
| Prompts.FieldTextOfTrimmed | src/app.js:119-121 | A field with non-whitespace ends appears in the prompt exactly as typed. |
| Prompts.TargetPromptAmbiguous | src/app.js:111-121 | Unlike the other two prompts, the target prompt does not determine its fields: a manufacturer `a`, newline, `Model: b` with model `c` gives the same prompt as manufacturer `a` with model `b`, newline, `Model: c`. |
| Prompts.TargetDetailsAmbiguous | src/app.js:119-121 | The details lines of those two splits are the same text. |
| Prompts.CharTypeDescription | src/app.js:145-152 | `mixed`, `characters` and `numbers` map to their three fixed phrases. Any other value maps to the empty phrase, and only other values do. |
| Prompts.CharTypeDescriptionInjective | src/app.js:145-152 | The three character types get three different phrases. |
| Prompts.LengthPrompt | src/app.js:154-157 | The length template, defined by its body; `Prompts.LengthPromptLayout`, `Prompts.LengthPromptStatesCount`, `Prompts.LengthPromptStatesLength` and `Prompts.LengthPromptInjective` carry its facts. |
| Prompts.LengthPromptLayout | src/app.js:154-157 | The length prompt comes apart into its fixed pieces: the count, the length, the phrase and the closing lines. |
| Prompts.LengthPromptStatesCount | src/app.js:154 | Reading the number right after "Generate a list of " gives back the count. |
| Prompts.LengthPromptStatesLength | src/app.js:154 | Reading the number right after "each exactly " gives back the parsed password length. |
| Prompts.LengthPromptInjective | src/app.js:154-157 | Equal length prompts have equal counts, equal lengths and equal character-type phrases. |
| GeminiApi.IsOk | src/app.js:52 | `response.ok`, defined by its body: the status is in 200-299; `GeminiApi.Interpret` states what each side of it leads to. |
| GeminiApi.FirstPartText | src/app.js:59-65 | On an ok body, the first part's text is returned if and only if `candidates` is non-empty, the first candidate has `content`, and its `parts` is non-empty. Otherwise the failure is "Unexpected API response structure or no content generated." |
| GeminiApi.ApiErrorText | src/app.js:54 | A non-ok status gives `API error: <status> - <message>`. When the message is missing or empty, it reads `Unknown error` instead. |
| GeminiApi.ApiErrorTextStatesStatus | src/app.js:54 | Reading the number after "API error: " gives back the HTTP status. |
| GeminiApi.Interpret | src/app.js:52-65 | The call succeeds if and only if the fetch answered with a 2xx status and a JSON body of the accepted shape. A rejection fails with its own message, and an unparsable body with the parse error. A non-ok JSON body fails with the API error text; when it has no `error` member, it fails with the engine's TypeError message. |
| GeminiApi.ErrorAfterCall | src/app.js:38-69 | After a call, the error slot is empty if and only if the call succeeded. Otherwise it is `Failed to generate: ` followed by the failure's message. |
| GeminiApi.Reply | src/app.js:62-69 | The call returns the first part's text on success and null after a failure. |
| GeminiApi.IsTruthy | src/app.js:95 | `if (result)` (also at `src/app.js:124` and `:160`), defined by its body: a non-null, non-empty reply; `PasswordApp.ResultSlot` and `GeminiApi.TruthyReplyComesFromFirstPart` carry its facts. |
| GeminiApi.TruthyReplyComesFromFirstPart | src/app.js:59-62 | A truthy reply comes only from an ok response of the accepted shape. It is that response's first part's text, and it leaves the error slot empty. |
| GeminiApi.ApiErrorShown | src/app.js:52-69 | A non-ok status with a non-empty message `m` leaves `Failed to generate: API error: <status> - m` and returns null (an empty message shows `Unknown error`, as `GeminiApi.ApiErrorText` states). |
| GeminiApi.EmptyTextShowsNothing | src/app.js:59-69 | An ok reply of the accepted shape whose first part has an empty or missing text is not truthy and leaves the error slot empty, whatever the other candidates and parts hold. |
| Validation.CheckSamples | src/app.js:75-78 | The samples are rejected if and only if they are all whitespace, with "Please provide some sample passwords." |
| Validation.CheckTarget | src/app.js:103-106 | The target is rejected if and only if all three fields are all whitespace, with the fixed target-information message. |
| Validation.CheckLength | src/app.js:132-140 | The length is checked first: a NaN length, or one outside [6, 30], fails with the length message whatever the count. Only after that does a count outside [1, 200] fail, with the count message. On success the result is the parsed length, in [6, 30]. |
| Validation.TypedLengthAccepted | src/app.js:132-140 | A length typed as digits in [6, 30], with a count in [1, 200], passes with that length. |
| Validation.TypedLengthRejected | src/app.js:132-136 | A length typed as digits outside [6, 30] fails with the length message whatever the count. |
| Validation.TypedNegativeLengthRejected | src/app.js:132-136 | A length typed as a minus sign followed by digits fails with the length message whatever the count. |
| Validation.CountFromInput | src/app.js:369 | The count field reads `parseInt` of the typed text, with 0 for NaN: a NaN count becomes 0, and otherwise the count is the parsed number. |
| Validation.CountFromTypedDigits | src/app.js:369 | A count typed as digits becomes the number they spell. |
| PasswordApp.ResultSlot | src/app.js:94-97 | A mode's result slot is non-empty after a call if and only if the reply is truthy, and then it holds the reply. |
| PasswordApp.ResultAndErrorExclusive | src/app.js:94-97 | After a call, the result slot and the error slot are never both set. Both are empty exactly when the call succeeded with an empty or missing text. |
| PasswordApp.App.constructor | src/app.js:6-34 | Initial state: every text field empty, a count of 10, the `mixed` character type, nothing loading (`Idle`), no error, no call made. |
| PasswordApp.App.SetSamplePasswords | src/app.js:240 | The samples field holds what was typed. |
| PasswordApp.App.SetDeviceManufacturer | src/app.js:284 | The manufacturer field holds what was typed. |
| PasswordApp.App.SetDeviceModel | src/app.js:297 | The model field holds what was typed. |
| PasswordApp.App.SetCommonUsernames | src/app.js:310 | The usernames field holds what was typed. |
| PasswordApp.App.SetPasswordLength | src/app.js:354 | The length field holds the text as typed. |
| PasswordApp.App.SetNumPasswordsToGenerate | src/app.js:369 | The count is `parseInt` of the typed text, or 0 for NaN. |
| PasswordApp.App.SetCharacterType | src/app.js:382 | The character type holds the selected value. |
| PasswordApp.App.CallGeminiApi | src/app.js:37-71 | Exactly one call is logged, with the prompt and the current loading flags. The error slot ends empty on success and prefixed on failure. The return value is the reply, or null. |
| PasswordApp.App.HandleGenerateSamples | src/app.js:74-99 | Blank samples set exactly the samples message, and make no call. Otherwise one call is made with the samples prompt while the samples flag is up. The slot then holds the truthy reply or stays cleared, and the flag ends down. The other modes' slots and flags never change. A handler that starts with no flag up ends with no flag up (`Idle`), so a flag is up only while its call is in flight. |
| PasswordApp.App.RunSamplesCall | src/app.js:80-98 | The samples request after validation: one call with the flag up, the slot cleared and then filled only from a truthy reply, the flag down at the end. |
| PasswordApp.App.HandleGenerateTargetInfo | src/app.js:102-128 | It rejects only when all three fields are blank: exactly the target message, and no call. Otherwise one call is made with the target prompt while the target flag is up, with the same slot and flag discipline. The other modes' slots and flags never change. A handler that starts with no flag up ends with no flag up (`Idle`), so a flag is up only while its call is in flight. |
| PasswordApp.App.RunTargetCall | src/app.js:108-127 | The target request after validation: the same bracket around one call, on the target slots. |
| PasswordApp.App.HandleGenerateByLength | src/app.js:131-164 | The length message comes first, the count message only for a valid length, and neither failure makes a call. Otherwise one call is made with the length prompt built from the count and the parsed length, with the same slot and flag discipline. The other modes' slots and flags never change. A handler that starts with no flag up ends with no flag up (`Idle`), so a flag is up only while its call is in flight. |
| PasswordApp.App.RunLengthCall | src/app.js:142-163 | The by-length request after validation: the same bracket around one call, on the length slots. |
| PasswordApp.OverloadedApiErrorText | src/app.js:54 | Status 500 with message `overloaded` reads `API error: 500 - overloaded`. |
| PasswordApp.OverloadedServerError | src/app.js:52-68 | That reply leaves `Failed to generate: API error: 500 - overloaded` in the error slot. |
| PasswordApp.SamplesServerErrorScenario | src/app.js:74-99 | Samples `password123` against a 500 `overloaded` reply: the error slot holds the full message, the samples slot is empty, the flag is down, and one call was made. |
| PasswordApp.ShortLengthScenario | src/app.js:132-136 | A length of `3` sets exactly the length message, with no call, no loading and no result. |

## Left out

- The network exchange is not modelled: `fetch`, the URL and API key, headers, and
  `JSON.stringify` of the request (`src/app.js:40-50`). The outcome of the request is an
  input, and `response.json()` is part of that input: either a parse error, or the JSON
  members the code reads.
- `generationConfig` is not modelled. Every handler calls `callGeminiAPI` without it.
- `console.error` is left out; it is logging only.
- A `null` body, candidate or part is left out: in the code each of these throws a
  `TypeError`. A missing or `null` `content` or `parts` is falsy and takes the
  unexpected-structure branch, and is modelled as `None`.
- The first part's `text` is a string or missing. A non-string `text` is not modelled.
- When an error body has no `error` member, the engine's `TypeError` text is carried
  as an opaque string. Which string the engine produces is not modelled.
- `parseInt` uses exact integers. The floating-point rounding of numbers with more than
  about 15 digits is not modelled; the guards only test small ranges.
- A typed `-0` parses to 0, not to JavaScript's `-0`. Both are rejected by the same guards.
- The JSX rendering, the tabs, the disabled buttons and the display of the slots
  (`src/app.js:166-419`) are user interface and are not modelled.
- Interleaving of calls in flight in several modes at once, and React's batching of
  state updates, are concurrency and are not modelled. Each handler is one atomic
  method, and every state write takes effect at once.
