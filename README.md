# A verified model of the MCP tool server's core

The server exposes three tools over HTTP: a word-frequency counter, a UUID
batch generator and a pass-through to an AI completion API. Each of its POST
routes sits behind a per-tool online/offline gate. This project models the
four pieces of logic behind those routes in Dafny, and proves what they
promise:

- `WordCounter` (`word_counter.dfy`) models `countWordFrequency`. It
  lowercases the text, takes the maximal runs of letters as tokens, and
  tallies them in a loop that updates a map. The letter class and the
  lowercasing are parameters (`isLetter`, `lower`), so every result holds
  for any letter table and any per-character lowercasing. The ASCII
  instances `AsciiIsLetter` and `AsciiLower` are used only by the worked
  examples.
- `UuidGenerator` (`uuid_generator.dfy`) models `generateUuids` with the
  defaults of `GenerateUuidArgs`. The random generator is a parameter
  `draws: nat -> string`: `draws(i)` is what the i-th call of `uuidv4()`
  returns during one call. The canonical 8-4-4-4-12 form and the version 4
  layout follow section 4 and section 5.4 of RFC 9562.
- `ApiRoutes` (`api_routes.dfy`) models the `checkToolStatus` middleware,
  the three route bindings and the status map set at startup.
- `ToolController` (`tool_controller.dfy`) models `handleAiTool` as a pure
  function from the request body, the configuration and the upstream outcome
  to the response, together with the upstream request it sent, if any.
  The upstream outcome is either a reply (status, status text, parsed body)
  or a thrown error message.
- `Wrappers` (`wrappers.dfy`) holds `Option` and `Result`.

Three behaviours of the code are worth stating plainly:

- `generateUuids` does not reject a `count` of zero or less: it returns an empty array.
- `countWordFrequency` returns an empty table for a text with no letters.
- The AI answer is the provider's whole parsed body, passed through unchanged.

Rejecting the first two inputs would be the job of the word-count and UUID
request handlers, and the controller file defines neither of them.

## Model

| member | source | states |
|---|---|---|
| `WordCounter.RunEnd` | src/tools/wordCounter.ts:8 | the letter run that starts at `i` extends to the first non-letter or to the end of the text, and contains letters only |
| `WordCounter.TokensFrom` | src/tools/wordCounter.ts:8 | every token the scan finds is non-empty and is made of letters only |
| `WordCounter.TokensFromSound` | src/tools/wordCounter.ts:8 | every token found from a run boundary is a maximal run: it is not preceded or followed by a letter, so consecutive letters are never split |
| `WordCounter.TokensFromComplete` | src/tools/wordCounter.ts:8 | every maximal run of letters at or after the start position is among the tokens |
| `WordCounter.Lowercase` | src/tools/wordCounter.ts:8 | the lowercased text has the length of the text, and each character is the lowercasing of the character at the same position |
| `WordCounter.Words` | src/tools/wordCounter.ts:8 | every element of `words` is a non-empty run of letters, and `words` is empty (the `null` of `match`) exactly when no character of the text lowercases to a letter |
| `WordCounter.WordFrequencyKeys` | src/tools/wordCounter.ts:8-19 | a string is a key of the result if and only if it is a maximal letter run of the lowercased text; every key is a non-empty string of letters |
| `WordCounter.TokensFromEmpty` | src/tools/wordCounter.ts:8 | the scan finds no token exactly when no letter is left in the text |
| `WordCounter.NoLettersEmptyTable` | src/tools/wordCounter.ts:8-24 | the result is the empty map if and only if the lowercased text has no letter (empty, blank, or only digits and punctuation) |
| `WordCounter.CaseInsensitive` | src/tools/wordCounter.ts:8 | two texts that lowercase character by character to the same text get identical tables |
| `WordCounter.Frequencies` | src/tools/wordCounter.ts:11-20 | the reference table has exactly the tokens as keys, and every value is at least 1 |
| `WordCounter.CountWordFrequency` | src/tools/wordCounter.ts:4-25 | the loop's map has exactly the tokens of the lowercased text as keys, and maps each one to its number of occurrences among the tokens; the loop invariant keeps this true for the first k tokens |
| `WordCounter.FrequenciesSnoc` | src/tools/wordCounter.ts:19 | one more occurrence of a word raises its entry by one, or creates it at 1, and leaves the other entries alone |
| `WordCounter.TotalRemove` | src/tools/wordCounter.ts:16-20 | the sum of a table's values does not depend on the order in which the keys are taken |
| `WordCounter.TotalBump` | src/tools/wordCounter.ts:19 | one increment raises the sum of the values by exactly one |
| `WordCounter.TotalSnoc` | src/tools/wordCounter.ts:16-19 | one more token raises the sum of the table's values by exactly one |
| `WordCounter.TotalFrequencies` | src/tools/wordCounter.ts:16-20 | the values of the reference table sum to the number of tokens |
| `WordCounter.WordFrequencyTotal` | src/tools/wordCounter.ts:8-20 | the counts of a text sum to the number of its tokens |
| `WordCounter.TokensFromSuffix` | src/tools/wordCounter.ts:8 | the scan from a position sees only the text from that position on |
| `WordCounter.TokensFromSplit` | src/tools/wordCounter.ts:8 | a non-letter splits the tokens into those before it and those after it |
| `WordCounter.TokensOfWord` | src/tools/wordCounter.ts:8 | a word on its own is matched as exactly one token, itself |
| `WordCounter.TokensSep` | src/tools/wordCounter.ts:8 | with a non-letter between two texts, the tokens of the whole are the tokens of the first text followed by those of the second, in order and with repetitions |
| `WordCounter.WordsSep` | src/tools/wordCounter.ts:8 | when a separator lowercases to a non-letter, the `words` of `s1`, the separator, then `s2` are the `words` of `s1` followed by those of `s2` |
| `WordCounter.Additivity` | src/tools/wordCounter.ts:8-19 | counting `s1`, a non-letter separator, then `s2` gives the entrywise sum of the counts of `s1` and `s2` |
| `WordCounter.CatTokens` | src/tools/wordCounter.ts:8 | the scan of "cat cat cat" finds three tokens "cat" |
| `WordCounter.CatExample` | src/tools/wordCounter.ts:8-19 | "Cat cat CAT" counts as {cat: 3} |
| `WordCounter.PunctuationTokens` | src/tools/wordCounter.ts:8 | the scan of "a, b. 123" finds "a" and "b" only |
| `WordCounter.PunctuationExample` | src/tools/wordCounter.ts:8-19 | "a, b. 123" counts as {a: 1, b: 1}; neither digits nor punctuation are counted |
| `WordCounter.TallyAsWritten` | src/tools/wordCounter.ts:11-19 | the loop as written on a plain object gives an own property to every word and to nothing else, and each holds a value (its content is examined by the next two rows) |
| `WordCounter.TallyAsWrittenAgrees` | src/tools/wordCounter.ts:11-20 | when no word is inherited by the plain object, the tally as written on that object gives the reference counts |
| `WordCounter.ConstructorTokens` | src/tools/wordCounter.ts:8 | the text "constructor" has the single token "constructor" |
| `WordCounter.ConstructorMiscounted` | src/tools/wordCounter.ts:11-19 | as written, the text "constructor" is tallied to a string instead of the count 1 that the corrected tally gives |
| `UuidGenerator.StripHyphens` | src/tools/uuidGenerator.ts:23 | the raw form contains no hyphen, and every other character occurs in it as often as in the draw |
| `UuidGenerator.GenerateUuids` | src/tools/uuidGenerator.ts:12-28 | the result has max(count, 0) elements, one element when `count` is absent, and none when `count <= 0`; element i comes from the i-th draw; with `format` exactly 'raw' it is that draw without hyphens, otherwise (absent, 'formatted' or any other value) it is the draw unchanged |
| `UuidGenerator.StripHyphensConcat` | src/tools/uuidGenerator.ts:23 | removing hyphens distributes over concatenation |
| `UuidGenerator.StripHyphensNoHyphen` | src/tools/uuidGenerator.ts:23 | a string without hyphens is unchanged by the replace |
| `UuidGenerator.StripGlue` | src/tools/uuidGenerator.ts:23 | appending a hyphen and a hyphen-free piece adds just that piece to the raw form |
| `UuidGenerator.StripFive` | src/tools/uuidGenerator.ts:23 | the raw form of five hyphen-free pieces joined by hyphens is their concatenation |
| `UuidGenerator.CanonicalRoundTrip` | src/tools/uuidGenerator.ts:21-23 | the raw form of a canonical 36-character UUID is 32 hexadecimal digits, and inserting hyphens after digits 8, 12, 16 and 20 gives the formatted form back |
| `UuidGenerator.RawRoundTrip` | src/tools/uuidGenerator.ts:23 | hyphenating 32 hexadecimal digits gives a canonical UUID whose raw form is those digits |
| `UuidGenerator.Version4Raw` | src/tools/uuidGenerator.ts:21-23 | the raw form of a version 4 UUID has the version digit 4 at position 12 and a variant digit 8, 9, a or b at position 16 |
| `UuidGenerator.RawMatchesFormatted` | src/tools/uuidGenerator.ts:19-24 | with the same draws, the raw batch is the formatted batch without hyphens, element by element; when the draws are canonical, hyphenating a raw element gives the formatted element |
| `ApiRoutes.CheckToolStatus` | src/routes/apiRoutes.ts:12-25 | the request passes to the handler if and only if the tool's entry exists and its status is exactly 'online'; any other status, or a missing entry, gives a 503 whose error message contains the tool's name |
| `ApiRoutes.GateReadsOwnEntry` | src/routes/apiRoutes.ts:16-18 | the gate depends only on the gated tool's own entry of the status map |
| `ApiRoutes.RouteTool` | src/routes/apiRoutes.ts:31-39 | a path is bound to a tool if and only if it matches "/" followed by that tool's name under Express's default matching: ASCII case ignored, one trailing slash allowed |
| `ApiRoutes.RouteToolExamples` | src/routes/apiRoutes.ts:31-39 | "/Word-Count" and "/GENERATE-UUID/" reach their tools, while "/ai-tool//", "word-count" and "/word_count" reach none |
| `ApiRoutes.StartupToolStatus` | src/index.ts:22-26 | the startup map has an entry for every tool, and a tool is online in it exactly when it is not the AI tool |
| `ApiRoutes.Dispatch` | src/routes/apiRoutes.ts:29-39 | a request reaches a handler if and only if its path matches one of the three routes and the status of that route's tool is online; a path with no route falls through |
| `ApiRoutes.PostAiTool` | src/routes/apiRoutes.ts:39 | an offline AI tool answers 503 and sends nothing upstream; an online one runs the AI handler |
| `ApiRoutes.StartupGating` | src/index.ts:22-26 | with the startup status map, word counting and UUID generation reach their handlers, while every AI-tool request gets 503 and sends nothing upstream, whatever the body and the key |
| `ToolController.ParsePrompt` | src/controllers/toolcontroller.ts:11-13 | a body passes validation if and only if it is an object whose `prompt` is a string of at least one character, and the parsed prompt is that string; a string prompt fails only when it is empty |
| `ToolController.RequestFor` | src/controllers/toolcontroller.ts:26-38 | the upstream request goes to the configured URL with the configured key and `anthropic-version` 2023-06-01, and carries the fixed model, `max_tokens` 1024 and one user message whose content is the prompt |
| `ToolController.RespondTo` | src/controllers/toolcontroller.ts:40-53 | an ok reply gives 200 with the body passed through as `ai_response`; any other reply gives the upstream status, the error "Erro na API do Claude: " followed by the status text, and the upstream body as `details`; a thrown error gives 500 with its message as `details` |
| `ToolController.HandleAiTool` | src/controllers/toolcontroller.ts:15-54 | an upstream call is made if and only if validation passes and the key is non-empty, and then exactly once; an invalid body gets 400 "Dados inválidos." with its issue; a missing key gets 503; the call carries the single user message with the prompt, the fixed model, `max_tokens` 1024 and `anthropic-version` 2023-06-01; with a call, the response is the mapping of the upstream outcome |
| `ToolController.NoCallNoInfluence` | src/controllers/toolcontroller.ts:16-23 | when no upstream call is made, the upstream outcome cannot change the result |
| `ToolController.ValidationFirst` | src/controllers/toolcontroller.ts:16-19 | an invalid body gets the same 400 whatever the key and the upstream outcome, so validation is decided before the key check |
| `ToolController.BlankPromptAccepted` | src/controllers/toolcontroller.ts:12 | any string prompt of at least one character passes validation, whitespace-only prompts included |
| `ToolController.InvalidPromptRejected` | src/controllers/toolcontroller.ts:16-19 | a body that is not an object, or whose prompt is missing, not a string or empty, gets 400 "Dados inválidos." and no upstream call |

## Left out

- The browser page `public/script.js` is not modelled: it is user interface, not logic.
- `ApiRoutes.RouteTool` sees the path below the `/api` mount, without its query string. Percent-encoded characters are compared as they are written, as Express does.
- The Express wiring in `src/index.ts` is not modelled: static files, the `/health` route (clock and uptime), `/api/status` and `listen`. Only the startup status map is used.
- Environment parsing in `src/config.ts` is not modelled. The configuration is an input, and the key's default `''` is taken as given.
- `src/test.ts` makes no assertions, so nothing is taken from it.
- `handleWordCount` and `handleGenerateUuid` are imported by the router, but the controller file does not define them. `ApiRoutes.Dispatch` therefore stops at "the handler runs" for those two routes.
- The Unicode tables behind `\p{L}` and `toLowerCase` are not modelled. They are parameters, and lowercasing is a per-character map. Special casings that change the length of the text, such as 'İ' becoming two characters, are outside the model, and so is the context-dependent final sigma ('Σ' becomes 'ς' at the end of a word and 'σ' elsewhere).
- `WordCounter.CountWordFrequency` returns the table as a map, which has no order. The source's object keeps its keys in first-seen order, and the JSON response lists them in that order.
- Strings are sequences of characters. The UTF-16 code units that zod's `min(1)` counts are not modelled.
- `UuidGenerator.GenerateUuids` counts only integer values of `count`. A non-integer count (2.5 runs the loop three times), a `null` count or format, and the uniqueness and randomness of the draws are outside the model.
- The HTTP transport is not modelled, and neither is the async machinery of `fetch` and `json()`. Their outcome is an input. A failure of the JSON parse is one of the thrown errors.
- The `Content-Type` header, the logging in the `catch` block, and `statusText` beyond being carried into the error message are not modelled.
- The detail of zod's flattened issue list is not modelled. The 400 response carries one `Issue` value naming why the body failed.
- A status map that was never set (`app.get('toolStatus')` returning `undefined`) would make the gate throw. The model assumes the map set at startup.

## Findings

| source | as written | input that shows it | evidently intended | confidence | as-written member | corrected member |
|---|---|---|---|---|---|---|
| src/tools/wordCounter.ts:11-19 | the tally lives in a plain object, so a word that names an inherited property of `Object.prototype` reads that property's function instead of "nothing yet"; adding 1 to it concatenates strings | the text "constructor": the table is {constructor: "function Object() { [native code] }1"} | {constructor: 1}, a count for every word | high (not executed) | `WordCounter.TallyAsWritten`, exhibited by `WordCounter.ConstructorMiscounted` | `WordCounter.CountWordFrequency` (own entries only, as a prototype-free object or a `Map` would keep them), proved against `WordCounter.Frequencies` |
