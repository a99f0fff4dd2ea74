# create-story request pipeline

A Dafny model of the one endpoint of the story-generation API,
`POST /api/v1/create-story` in `src/app.ts`. The handler reads the request's
story, rejects an incomplete one with 400, renders the characters and the
story fields into a fixed prompt, awaits one completion from the text
generation service, and answers 200 with the generated story or 500 with the
error. Everything is modelled as pure functions over immutable datatypes:

- `Decimal`: how a template literal prints an integral number (the
  1-based ordinal `index + 1` and a character's `age`), with its inverse
  parser.
- `Lines`: `Array.prototype.join`, with a reference splitter as its
  inverse.
- `StorySchema`: `Character`, `Story` and the validation condition.
- `PromptBuilder`: the character line, the character block, the prompt
  template, a parser that reads a character line back, and the prompt
  as a list of lines.
- `Endpoint`: the completion outcome, the `try`/`catch` mapping to a
  response, and the whole handler.

The completion service is a parameter of `Handle` (`upstream: string ->
Completion`), so the model can say which prompt is sent and that a rejected
story sends none. The handler's result is an `Exchange`. It holds the response
and the prompt sent upstream, if any.

Facts about the handler that shape the model:

- There is no "Bad request" check and no "No story data provided" check.
  `req.body.story` is destructured at `src/app.ts:42-43` before any test,
  so a request without a story throws there. `Handle` takes a `Story`,
  which makes the story's presence its precondition.
- A character has only `name` and `age`. Its line is
  `Character <i+1>: <name>, Age: <age>`.
- The error for an empty completion is "No response was returned from
  OpenAI GPT-4". The JSON field carrying it is `error`.

## Model

| member | source | states |
|---|---|---|
| Decimal.NatToString | src/app.ts:63 | a number prints as a non-empty string of digits with no leading zero, and it prints as "0" exactly when it is 0 |
| Decimal.ParseNatToString | src/app.ts:63 | reading a printed number back gives the number |
| Decimal.NatToStringParse | src/app.ts:63 | printing the value of a numeral without a leading zero gives that numeral back, so printing is a bijection onto such numerals |
| Decimal.NatToStringInjective | src/app.ts:63 | different numbers print differently |
| Lines.SplitPieces | src/app.ts:64-65 | the reference splitter: a text splits into exactly one more piece than it has separators, and no piece contains the separator |
| Lines.SplitJoin | src/app.ts:64-65 | joining at least one line with "\n", when no line contains "\n", splits back into the same lines in the same order |
| Lines.JoinSplit | src/app.ts:64-65 | every text is the join of its pieces, so the join puts no separator before the first line or after the last |
| Lines.JoinSeparatorCount | src/app.ts:64-65 | n lines without "\n", joined, contain exactly n - 1 newlines |
| StorySchema.Validate | src/app.ts:50-58 | the story is rejected exactly when the theme, setting or plot point is empty or the character list is empty, and the rejection is always "Incomplete story data provided" |
| StorySchema.ConflictNotValidated | src/app.ts:50-56 | changing the conflict, including to "", never changes the validation verdict |
| PromptBuilder.CharLineRoundTrip | src/app.ts:61-63 | the line for the character at position i reads back as ordinal i + 1, that character's name and its age, for any name |
| PromptBuilder.CharLinesDistinct | src/app.ts:61-63 | lines for different positions always differ |
| PromptBuilder.CharBlockLines | src/app.ts:61-65 | with newline-free names, the block has one line per character, in input order; line i is that character's line, with ordinal i + 1; the block holds exactly \|characters\| - 1 newlines |
| PromptBuilder.PromptAsLines | src/app.ts:68-78 | the prompt is exactly its reference lines joined by "\n": a leading empty line, the intro, an empty line, then the theme, conflict, character block, plot point, setting, an empty line, the closing instruction and the two-space trailer |
| PromptBuilder.PromptSplitsIntoLines | src/app.ts:68-78 | for an accepted story with newline-free fields, splitting the prompt at "\n" gives exactly those reference lines |
| PromptBuilder.PromptLayout | src/app.ts:68-78 | for an accepted story with k characters, the prompt's reference lines (those it splits into, by `PromptSplitsIntoLines`) number k + 10. Line 3 holds the theme, line 4 the conflict, line 5 the indented first character, lines 5 + i the unindented later characters, line k + 5 the plot point, line k + 6 the setting, and line k + 8 the closing instruction |
| Endpoint.Settle | src/app.ts:184-191 | the awaited call ends with a story exactly when the service gave a non-empty text, and that story is the text unchanged. Otherwise it ends with the service's own error message, or "No response was returned from OpenAI GPT-4" for a missing or empty text |
| Endpoint.Respond | src/app.ts:182-197 | the status is 200 exactly when the text is non-empty, and then the body is that text as the story. Every other outcome gets 500 with msg "Error generating story" and, as error, the service's message or the no-response message |
| Endpoint.Handle | src/app.ts:49-197 | status 400 with "Incomplete story data provided" exactly when validation fails, and then no prompt is sent. Otherwise the built prompt is sent and the response is that of the service's answer. The status is always 200, 400 or 500, and a 200 always carries the service's non-empty text |
| Endpoint.RejectedNeverCallsUpstream | src/app.ts:57-58 | for a rejected story the outcome is the same whatever the service would answer; no prompt is sent and the status is 400 |
| Endpoint.AcceptedDependsOnlyOnItsPrompt | src/app.ts:184 | for an accepted story, two services that answer this story's prompt alike give the same outcome |
| Endpoint.EmptyConflictIsSent | src/app.ts:50-72 | an otherwise complete story with an empty conflict still has its prompt built and sent |
| Endpoint.SuccessCarriesText | src/app.ts:187-191 | a non-empty text t gives exactly 200 with story t, and an empty text gives 500 with the no-response error |

Determinism of the prompt needs no lemma. `BuildPrompt` is a Dafny function,
so equal stories always give equal prompts.

## Left out

- Express setup, CORS, JSON body parsing and `app.listen`
  (`src/app.ts:22-24`, `src/app.ts:203-207`): framework plumbing.
- `config.ts`: it only reads the API key and the port from the environment.
- The completion service and the network call (`src/app.ts:26-28`,
  `src/app.ts:96`). They are foreign code. `Completion` stands for what
  `generateStory` settles to: a text, a missing text, or a thrown error with
  its message. The chosen model, `temperature` (a float) and `max_tokens`
  (`src/app.ts:87-93`) are fixed constants with no behaviour here.
- `generateGPTXStory` (`src/app.ts:128-176`): it is never called.
- The `testing` branch (`src/app.ts:178`, `src/app.ts:198-200`): `testing`
  is the constant `false`, so that branch cannot run.
- All `console.log` / `console.error` logging: side effects only.
- A request without `story`: the destructuring at `src/app.ts:42-43`
  throws outside any `try`. Express's own handling of that rejection is not
  part of this model.
- JavaScript values of other types. A string field is a `string` and
  `characters` is a sequence. For `theme`, `setting`, `plotPoint` and
  `characters` an absent value is the same as an empty one, because the
  falsiness test at `src/app.ts:50-56` rejects both alike. Non-string
  truthiness does not arise. An error thrown without a `message` is not
  modelled either.
- A request that omits `conflict`, or a character's `name` or `age`: the
  template prints such a value as the text "undefined"
  (`src/app.ts:63`, `src/app.ts:72`), and the model has no absent value
  for these fields. An empty `conflict` is modelled; an absent one has no
  counterpart.
- PromptBuilder.CharLine: `age` is a `nat`. JavaScript prints a fractional,
  negative or very large (at least 10^21) number differently; that printing
  is not modelled.
- PromptBuilder.PromptSplitsIntoLines: the line-by-line reading assumes no
  field and no character name holds a newline. `PromptAsLines` has no such
  assumption.
