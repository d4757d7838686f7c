# Clawra image generation: provider selection and output handling

This project models the decision logic of the Clawra selfie script, which turns a
text prompt into an image through one of several image-generation backends and
hands the image to the `openclaw` messenger. The model covers:

- the environment reads of the provider base class (`getModel`, `getApiKey`);
- the three providers (OpenAI-style, Runware, Fal), each with its credential
  check, the request body it builds and how it normalises the backend's answer
  into provider outputs;
- the provider factory `getProvider`;
- the entry point: `parseArgs`, `handleOutput`, and the steps of `main` from
  argument parsing to removing the temporary file.

The process environment is a `map<string, string>`. Each backend's HTTP answer is
an input record: the `ok` flag, the body text, and the decoded JSON body, whose
optional fields are `Option`s. The file system is a small class holding the
temporary files. `Date.now()`, the messenger's outcome and the outcomes of
writing and removing the temporary file are parameters.
JavaScript truthiness is spelled out: an empty string, `undefined` and the number
0 are falsy wherever the source uses `||` or `!!`.

Modules, one per source file plus two helpers:

- `Wrappers`: `Option` (an `undefined` value) and `Result` (a thrown error).
- `Js`: string truthiness and `||`, a one-character `split`, `join`, and
  `Number.parseInt(s, 10)` as defined in section 19.2.5 of ECMA-262. It also has
  the decimal rendering of a timestamp, with lemmas tying the two together.
- `Base` (`base.ts`), `OpenAI` (`openai.ts`), `Runware` (`runware.ts`), `Fal` (`fal.ts`).
- `Providers` (`index.ts`).
- `ClawraSelfie` (`clawra-selfie.ts`).

The model follows the code. In particular:

- Credentials come from the environment variable alone. There is no
  configuration-file fallback and no skill-id lookup.
- An explicit override accepts only `openai` and `fal`. `runware`, like any other
  value, fails with `Unknown provider: <value>`.
- Without an override, the fallback order is OpenAI, then Fal, then OpenAI again.
  Runware is never selected, so with only the Runware and Fal keys set, Fal is
  chosen (`Providers.FallbackSkipsRunware`).
- A provider output need not hold exactly one of `url` and `b64_json`. OpenAI can
  return both or neither. `handleOutput` prefers the URL and throws on neither.
- The prompt is not checked to be non-empty, and `num_images` is not checked to be
  positive: a non-zero number passes through as it is.

## Model

| member | source | states |
|---|---|---|
| Base.GetModel | clawra-selfie/scripts/providers/base.ts:32-34 | `CLAWRA_IMAGE_MODEL` when set and non-empty, otherwise exactly the default; an empty value counts as unset |
| Base.GetApiKey | clawra-selfie/scripts/providers/base.ts:36-38 | the value of exactly the named variable, unchanged, and nothing when it is unset; nothing else is consulted |
| Base.GetApiKeyIsLocal | clawra-selfie/scripts/providers/base.ts:36-38 | two environments that agree on the named variable give the same key |
| Base.GetModelIsLocal | clawra-selfie/scripts/providers/base.ts:32-34 | two environments that agree on `CLAWRA_IMAGE_MODEL` give the same model |
| OpenAI.IsConfigured | clawra-selfie/scripts/providers/openai.ts:12-14 | configured iff `OPENAI_API_KEY` is set to a non-empty string |
| OpenAI.ConfigRequirements | clawra-selfie/scripts/providers/openai.ts:16-18 | the requirements name `OPENAI_API_KEY`, and the provider is configured exactly when every requirement is set to a non-empty value |
| OpenAI.EffectiveModel | clawra-selfie/scripts/providers/openai.ts:26-27 | the input model if non-empty, else `CLAWRA_IMAGE_MODEL` if non-empty, else `gpt-image-1`; never empty |
| OpenAI.BuildRequestBody | clawra-selfie/scripts/providers/openai.ts:29-41 | the body holds `model`, `prompt` and `n` (`num_images`, or 1 when missing or 0); `response_format = "url"` is present iff the effective model is exactly `dall-e-2`, and no other key is added |
| OpenAI.ResponseFormatOnlyForDallE2 | clawra-selfie/scripts/providers/openai.ts:35-41 | every well-formed body has `response_format` iff the model is `dall-e-2`; with `gpt-image-1` the keys are just `model`, `prompt`, `n` |
| OpenAI.ZeroImagesSendsOne | clawra-selfie/scripts/providers/openai.ts:32 | a missing or zero image count sends `n = 1` |
| OpenAI.MapItem | clawra-selfie/scripts/providers/openai.ts:61-67 | `url`, `b64_json` and `revised_prompt` pass through exactly when they are strings; `mime_type` is the item's string or `image/png` |
| OpenAI.MapItems | clawra-selfie/scripts/providers/openai.ts:61-67 | one output per item, same length, same order |
| OpenAI.Outcome | clawra-selfie/scripts/providers/openai.ts:20-68 | no key fails with `OPENAI_API_KEY not configured`; a non-ok status fails with the body text; a missing or empty `data` fails; otherwise the mapped items, in order, as many as `data` has |
| OpenAI.Generate | clawra-selfie/scripts/providers/openai.ts:20-68 | a request body is built iff the key is set, so no key fails before any request; the body is well formed; the result is `Outcome` |
| OpenAI.NeitherFieldIsPossible | clawra-selfie/scripts/providers/base.ts:12-17 | the output type does not enforce "url or b64_json": an item with neither comes back as an output with neither, typed `image/png` |
| Runware.IsConfigured | clawra-selfie/scripts/providers/runware.ts:25-27 | configured iff `RUNWARE_API_KEY` is set to a non-empty string |
| Runware.ConfigRequirements | clawra-selfie/scripts/providers/runware.ts:29-31 | the requirements name `RUNWARE_API_KEY`, and the provider is configured exactly when every requirement is set to a non-empty value |
| Runware.Dimension | clawra-selfie/scripts/providers/runware.ts:40-46 | a canvas side is always a positive integer |
| Runware.DimensionDefault | clawra-selfie/scripts/providers/runware.ts:40-46 | an unset or empty variable gives 1024 |
| Runware.DimensionDecimal | clawra-selfie/scripts/providers/runware.ts:40-46 | a positive decimal number is used as is, and a non-digit suffix (`768px`) is ignored |
| Runware.DimensionPlus | clawra-selfie/scripts/providers/runware.ts:40-46 | an explicit `+` before a positive decimal (`+768`) is accepted and the number is used |
| Runware.DimensionNegative | clawra-selfie/scripts/providers/runware.ts:40-46 | a `-` followed by a decimal below 2^54-1 (`-5`, `-0`), with or without a non-digit suffix, gives 1024 |
| Runware.DimensionNotANumber | clawra-selfie/scripts/providers/runware.ts:40-46 | text that does not start like a number (`abc`) gives 1024 |
| Runware.Request | clawra-selfie/scripts/providers/runware.ts:33-68 | no key builds no request; otherwise one `imageInference` task with the given UUID, the prompt, the model (`input.model`, else `CLAWRA_IMAGE_MODEL`, else the `runware:101@1` default), positive width and height, `numberResults` = `num_images` or 1, and URL/JPG/sync output |
| Runware.DataUriPayload | clawra-selfie/scripts/providers/runware.ts:99-101 | a payload, when there is one, is non-empty and holds no comma |
| Runware.DataUriPayloadAfterFirstComma | clawra-selfie/scripts/providers/runware.ts:99-101 | the payload of a data URI is the text between the first comma and the next comma or the end |
| Runware.DataUriPayloadMissing | clawra-selfie/scripts/providers/runware.ts:99-101 | a data URI without a comma has no payload |
| Runware.DataUriPayloadEmpty | clawra-selfie/scripts/providers/runware.ts:99-101 | a data URI with nothing between its first comma and the next comma or the end has no payload |
| Runware.ItemOutput | clawra-selfie/scripts/providers/runware.ts:87-110 | a non-empty `imageURL` wins and gives a url-only output; else `imageBase64Data` gives a JPEG payload; else a non-empty data-URI payload gives a JPEG payload; else nothing. Whatever it gives has an image |
| Runware.Normalise | clawra-selfie/scripts/providers/runware.ts:85-111 | no more outputs than results; every output has a non-empty `url` or `b64_json` and is either url-only or a JPEG payload |
| Runware.NormaliseAppend | clawra-selfie/scripts/providers/runware.ts:85-111 | normalising distributes over concatenation, so the results keep their original order |
| Runware.NormaliseDropsOtherTasks | clawra-selfie/scripts/providers/runware.ts:86 | results whose `taskType` is not `imageInference` give no output |
| Runware.NormaliseSources | clawra-selfie/scripts/providers/runware.ts:85-111 | each output is the mapped form of some `imageInference` result of the input |
| Runware.NormaliseSingle | clawra-selfie/scripts/providers/runware.ts:85-111 | a single result gives its mapped output exactly when it is an `imageInference` result whose mapping is not null, and nothing otherwise |
| Runware.NormaliseKeeps | clawra-selfie/scripts/providers/runware.ts:85-111 | every `imageInference` result with an image appears among the outputs, between the outputs of the results before it and those after it |
| Runware.Outcome | clawra-selfie/scripts/providers/runware.ts:33-117 | the failure order: no key, then a non-ok status, then a non-empty `errors` list (its first message, or `unknown error`) even when `data` is present, then a missing or empty `data` (`empty image response`), then no surviving output (`image data missing in response`); otherwise the normalised outputs, at least one |
| Runware.HasErrors | clawra-selfie/scripts/providers/runware.ts:76 | the answer counts as an error exactly when `errors` is present and has at least one entry, so `errors[0]` exists |
| Fal.IsConfigured | clawra-selfie/scripts/providers/fal.ts:11-13 | configured iff `FAL_KEY` is set to a non-empty string |
| Fal.ConfigRequirements | clawra-selfie/scripts/providers/fal.ts:15-17 | the requirements name `FAL_KEY`, and the provider is configured exactly when every requirement is set to a non-empty value |
| Fal.RequestBody | clawra-selfie/scripts/providers/fal.ts:19-34 | no key builds no request; the body carries the prompt and nothing else |
| Fal.RequestIgnoresOptions | clawra-selfie/scripts/providers/fal.ts:31-33 | the model, the image count and the aspect ratio do not change the request |
| Fal.ImageUrl | clawra-selfie/scripts/providers/fal.ts:45 | the URL is non-empty exactly when the first image's URL or the top-level URL is; a non-empty first image URL wins, otherwise the top-level one is taken |
| Fal.Outcome | clawra-selfie/scripts/providers/fal.ts:19-51 | no key or a non-ok status fail; the URL is `images[0].url` when non-empty, else the top-level `url`; neither is an error; otherwise exactly one output with only `url` set |
| Providers.GetProvider | clawra-selfie/scripts/providers/index.ts:9-33 | a non-empty override picks `openai` or `fal` whatever the configuration, and any other value fails with `Unknown provider: <value>` without fallback; with no override: OpenAI if configured, else Fal if configured, else OpenAI; the chosen name is always `openai` or `fal` |
| Providers.Provider.Name | clawra-selfie/scripts/providers/openai.ts:10 | each provider's `name` is `openai`, `runware` or `fal`, and never empty |
| Providers.Provider.IsConfigured | clawra-selfie/scripts/clawra-selfie.ts:97 | `provider.isConfigured()` holds exactly when every one of the provider's requirements is set to a non-empty value |
| Providers.Provider.ConfigRequirements | clawra-selfie/scripts/clawra-selfie.ts:98 | `provider.getConfigRequirements()` lists exactly one non-empty variable name |
| Providers.Provider.Outcome | clawra-selfie/scripts/clawra-selfie.ts:107 | `provider.generate` dispatches to the provider; an unconfigured provider always fails, and a successful answer is never empty |
| Providers.OverrideIgnoresConfiguration | clawra-selfie/scripts/providers/index.ts:14-24 | with the same override, the keys that are set do not change the choice |
| Providers.RunwareOverrideRejected | clawra-selfie/scripts/providers/index.ts:21-22 | an override of `runware` fails with `Unknown provider: runware` |
| Providers.FallbackSkipsRunware | clawra-selfie/scripts/providers/index.ts:30-32 | with no override, no OpenAI key, and both the Runware and Fal keys set, Fal is chosen, never Runware |
| Providers.OutcomeNonEmpty | clawra-selfie/scripts/clawra-selfie.ts:108-110 | a provider's successful result is never empty, so the empty-outputs check in `main` never fires; Fal's first output always has a URL |
| ClawraSelfie.ParseArgs | clawra-selfie/scripts/clawra-selfie.ts:60-91 | fewer than 3 arguments is the usage exit; otherwise prompt, platform, target and caption are the first four arguments by position, and the caption is absent without a fourth |
| ClawraSelfie.ParseArgsIgnoresExtra | clawra-selfie/scripts/clawra-selfie.ts:85-90 | arguments after the fourth change nothing |
| ClawraSelfie.Extension | clawra-selfie/scripts/clawra-selfie.ts:30-31 | the extension is never empty and never holds a `/` |
| ClawraSelfie.ExtensionIsSubtype | clawra-selfie/scripts/clawra-selfie.ts:30-31 | for `type/subtype[/...]`, the extension is `subtype` |
| ClawraSelfie.ExtensionWithoutSubtype | clawra-selfie/scripts/clawra-selfie.ts:30-31 | a media type without `/` gives `png` |
| ClawraSelfie.ExtensionEmptySubtype | clawra-selfie/scripts/clawra-selfie.ts:30-31 | an empty subtype (`image/`, `image//x`) gives `png` |
| ClawraSelfie.ExtensionPng | clawra-selfie/scripts/clawra-selfie.ts:30-31 | `image/png` gives `png` |
| ClawraSelfie.ExtensionJpeg | clawra-selfie/scripts/clawra-selfie.ts:30-31 | `image/jpeg` gives `jpeg` |
| ClawraSelfie.ExtensionExamples | clawra-selfie/scripts/clawra-selfie.ts:30-31 | no media type and `image/png` give `png`; `image/jpeg` gives `jpeg`; `image` gives `png` |
| ClawraSelfie.TempPath | clawra-selfie/scripts/clawra-selfie.ts:32 | the path starts with `/tmp/clawra-`, ends with the extension, and is as long as prefix, timestamp digits, dot and extension together |
| ClawraSelfie.TempPathInjective | clawra-selfie/scripts/clawra-selfie.ts:32 | different timestamps or different extensions give different temporary paths |
| ClawraSelfie.Materialize | clawra-selfie/scripts/clawra-selfie.ts:22-38 | a non-empty `url` is the media, with no cleanup, even when `b64_json` is also set; otherwise a non-empty `b64_json` goes to `/tmp/clawra-<now>.<ext>`, with cleanup; it fails exactly when the output has neither |
| ClawraSelfie.MaterializedTempPath | clawra-selfie/scripts/clawra-selfie.ts:29-34 | a temporary path is used only for an output without a URL but with a payload, and is `/tmp/clawra-<digits>.<ext>` |
| ClawraSelfie.PngPayloadPath | clawra-selfie/scripts/clawra-selfie.ts:29-34 | a PNG payload is written to a path ending in `.png` and needs cleanup |
| ClawraSelfie.FileSystem.WriteFile | clawra-selfie/scripts/clawra-selfie.ts:33 | creates or overwrites exactly one file |
| ClawraSelfie.FileSystem.Unlink | clawra-selfie/scripts/clawra-selfie.ts:122-123 | removes exactly one existing file |
| ClawraSelfie.FileSystem.Exists | clawra-selfie/scripts/clawra-selfie.ts:122 | true exactly when the path is a current file |
| ClawraSelfie.Handled | clawra-selfie/scripts/clawra-selfie.ts:22-38 | a failed file write matters only for a payload without a URL, and then its error is the result; otherwise the result is `Materialize`'s; a temporary file is returned only when the write succeeded |
| ClawraSelfie.HandleOutput | clawra-selfie/scripts/clawra-selfie.ts:22-38 | returns `Handled`'s answer and writes the payload exactly when it returns a temporary file; a URL, a failure or a failed write leaves the files unchanged |
| ClawraSelfie.Caption | clawra-selfie/scripts/clawra-selfie.ts:117 | the caption argument when non-empty, otherwise `Generated with CLAWRA` |
| ClawraSelfie.NotConfiguredMessage | clawra-selfie/scripts/clawra-selfie.ts:99-101 | the message starts with the provider's name, followed by ` provider not configured. Missing: ` and the requirements joined by `, ` |
| ClawraSelfie.Prepare | clawra-selfie/scripts/clawra-selfie.ts:93-117 | too few arguments is the usage exit; then a factory error, an unconfigured provider (`<name> provider not configured. Missing: <requirements>`), a generation error, no outputs (`Provider returned empty outputs`) and a failure to materialise the first output (including a failed write) each become the exit, in that order; otherwise the run is ready exactly when the first output materialises, with a configured provider that is never Runware, the first output, and its media |
| ClawraSelfie.NotConfiguredMessages | clawra-selfie/scripts/clawra-selfie.ts:97-102 | the error is `<name> provider not configured. Missing: <requirements joined by ", ">`, and each provider's requirements are exactly its one key variable (`OPENAI_API_KEY`, `FAL_KEY`, `RUNWARE_API_KEY`) |
| ClawraSelfie.UnconfiguredNamesOpenAIKey | clawra-selfie/scripts/clawra-selfie.ts:97-102 | with no override and neither the OpenAI nor the Fal key set (whatever else is set), the run fails naming `OPENAI_API_KEY` |
| ClawraSelfie.FalRunNeedsNoCleanup | clawra-selfie/scripts/clawra-selfie.ts:113 | a Fal image is always a URL, so a Fal run creates no temporary file |
| ClawraSelfie.SendExit | clawra-selfie/scripts/clawra-selfie.ts:118-120 | a failed send becomes an exit with its error, a successful one no exit |
| ClawraSelfie.Deliver | clawra-selfie/scripts/clawra-selfie.ts:118-126 | the messenger sees the files as they are; afterwards an existing temporary file is removed and the send's outcome is the exit, unless the removal fails, which keeps the file and makes the removal's error the exit; anything else leaves the files unchanged |
| ClawraSelfie.Run | clawra-selfie/scripts/clawra-selfie.ts:93-127 | a failure before the send touches no file and is the exit; otherwise the messenger gets platform, target, caption and media, while the temporary file holds the payload (the recorded files at the send are the old files plus it); afterwards the temporary file is gone and the send's outcome is the exit, unless the removal fails, which keeps the file and makes its error the exit; URL media leave every file as it was |
| Js.ParseIntDecimal | clawra-selfie/scripts/providers/runware.ts:40-44 | `parseInt` reads back a decimal number and stops at the first non-digit |
| Js.ParseIntNegative | clawra-selfie/scripts/providers/runware.ts:40-44 | a leading `-` negates |
| Js.ParseIntSkipsWhiteSpace | clawra-selfie/scripts/providers/runware.ts:40-44 | leading white space is skipped |
| Js.ParseIntNaN | clawra-selfie/scripts/providers/runware.ts:40-44 | text starting with anything but white space, a sign or a digit is NaN |
| Js.ParseInt | clawra-selfie/scripts/providers/runware.ts:40-44 | NaN exactly when no digit follows the leading white space and optional sign; a negative finite result needs a leading `-` after the white space, and an infinite one is negative exactly when the text after its leading white space starts with `-` |
| Js.ParseIntDigits | clawra-selfie/scripts/providers/runware.ts:40-44 | any run of digits, leading zeros included, followed by a non-digit or the end, reads as the value of the digits |
| Js.ParseIntPlusDigits | clawra-selfie/scripts/providers/runware.ts:40-44 | the same after a `+` (`+0768` reads as 768) |
| Js.ParseIntMinusDigits | clawra-selfie/scripts/providers/runware.ts:40-44 | the same after a `-`, negated |
| Js.ParseIntAfterPlus | clawra-selfie/scripts/providers/runware.ts:40-44 | after a `+`, the digit prefix of what follows is read |
| Js.ParseIntAfterMinus | clawra-selfie/scripts/providers/runware.ts:40-44 | after a `-`, the digit prefix of what follows is read and negated |
| Js.Split | clawra-selfie/scripts/clawra-selfie.ts:31 | `split` always gives at least one piece |
| Js.SplitPart | clawra-selfie/scripts/providers/runware.ts:100 | piece 0 always exists, and no piece holds the separator |
| Js.SplitPartsFree | clawra-selfie/scripts/clawra-selfie.ts:31 | no piece of a split holds the separator |
| Js.Join | clawra-selfie/scripts/clawra-selfie.ts:100 | one piece joins to itself; the first piece, followed by the separator when there are more, begins the result |
| Js.SplitSecondPart | clawra-selfie/scripts/providers/runware.ts:100 | `split(sep)[1]` is the piece between the first separator and the next one or the end |
| Js.JoinSplit | clawra-selfie/scripts/clawra-selfie.ts:31 | `split` loses nothing: joining the pieces with the separator gives back the text |
| Js.NatToStringInjective | clawra-selfie/scripts/clawra-selfie.ts:32 | different timestamps render differently |
| Js.NatToString | clawra-selfie/scripts/clawra-selfie.ts:32 | the rendering of a timestamp is non-empty, made of decimal digits only, and without leading zeros |
| Js.NatToStringValue | clawra-selfie/scripts/clawra-selfie.ts:32 | reading the digits back gives the number |

## Left out

- HTTP itself (`fetch`, headers, the authorisation strings) is not modelled. So
  are reading the body with `text()` and `json()`, and a body that is not valid
  JSON. The model starts from the decoded answer.
- Malformed JSON shapes are not modelled: array elements that are `null` or not
  objects (where `item.url` would throw), and a Fal `images` that is an object
  rather than an array.
- `randomUUID()` and `Date.now()` are parameters (`taskUuid`, `now`).
- Runware's request is modelled, but no run reaches it: the factory never selects
  Runware, so `Run` passes the Runware answer only to keep the dispatch complete.
- Decoding base64 (`Buffer.from(..., "base64")`) is not modelled. A temporary file
  holds the payload text itself, so the model does not claim that the decoded
  bytes round-trip.
- ClawraSelfie.HandleOutput: a failed write is taken to leave no file behind. A
  partly written file is not modelled.
- `console.log`, the usage text, `process.exit` and the `[ERROR]` line are not
  modelled; they are shown only as the `Exit` value of a run.
- The messenger (`execFile("openclaw", ...)`) is a `SendRequest` record plus a
  success/failure parameter. The model assumes the messenger does not touch the
  temporary files.
- Promise and async mechanics are not modelled; the flow is strictly sequential.
- `aspect_ratio` is declared but never read, so it is carried and ignored.
- OpenAI.Generate and Run: the OpenAI request body is built, but nothing the model
  computes depends on it, since the network's answer is an input.
- Js.ParseInt: the result is the exact integer. Rounding to a double above 2^53 is
  not modelled, and neither is the sign of `-0`, which is folded into 0 (0 is
  rejected either way). Overflow to Infinity is modelled.
- Js.NatToString renders the `${Date.now()}` timestamp in plain decimal. It does
  not switch to exponent notation at 10^21 and above.
- `num_images` is modelled as an optional integer. Fractional and NaN counts are
  not modelled.
