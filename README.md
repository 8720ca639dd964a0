# teams-agent: context-budgeted packing and the sync step, in Dafny

The agent script (`src/index.ts`) summarises a Microsoft Teams chat with a
local language model. It runs once per invocation. It loads
`{summary, lastModifiedDateTime}` from `state.json` and fetches the chat
messages newer than that watermark, newest first. It sizes the prompt
skeleton with the Llama 3 tokenizer and keeps the newest messages that fit
the remaining budget. It puts them back in chronological order, renders
them into a dialog block and sends the prompt. Then it writes the state back.

This project models the decision logic of that run:

- `packer.dfy` (module `Packer`): the greedy packing walk over the fetched
  messages and the in-place reversal.
  - `KeepNewest` is the specification: walk newest first and keep a message
    only while its token length is strictly below what remains.
  - `GreedyCut` is an independent description of the same choice, and the
    two are proved equivalent.
  - `SelectNewest` is the script's loop (push, subtract, break), proved to
    compute `KeepNewest`.
  - `ReverseInPlace` is `Array.prototype.reverse`, proved against `Reversed`.
- `dialog.dfy` (module `Dialog`): rendering each message as
  `displayName: content` and `join('\n\n')`. `PackDialog` is lines 91-108
  as one method.
- `prompt.dfy` (module `Prompt`): the two templates of `formUserPrompt`,
  with their exact text, and the dialog budget
  `MAX_CONTEXT_SZ - tokens(formUserPrompt(''))` with `MAX_CONTEXT_SZ = 2048`.
- `sync.dfy` (module `Sync`): one run as a value-level transition.
  - `Run` takes the state file, the Graph response, the tokenizer and the
    completion call, and gives the `Outcome`.
  - The `Outcome` says how the run ends and which query string was sent.
    It also gives the prompt sent and the state written, if any.
  - The class `Agent` holds the script's two module-level variables. Its
    methods `LoadState` and `Sync` update them step by step, and
    `RunScript` is proved to do what `Run` says.

The tokenizer is a parameter `tokens: string -> nat` throughout. The model's
reply is the value `Replied(content)` or `CallRejected`.

Three behaviours of the code may be unexpected, and the model keeps them as
written:

- The state written pairs the new watermark with the summary as it was
  loaded. The model's reply is only logged; it does not become the next
  summary.
- The watermark written is the newest fetched message's timestamp, however
  many messages were packed. Fetched messages that did not fit are never
  summarised.
- A missing `state.json` and an empty page both end the run with an
  exception. A summariser would be expected to treat them as a fresh start
  and a quiet no-op. Both are listed under Findings, with a corrected run
  beside the as-written one.

## Model

| member | source | states |
|---|---|---|
| `Packer.SumTokens` | src/index.ts:95-98 | the tokens the kept bodies use up: nothing for no message, and never less than any one body's token length |
| `Packer.KeepNewest` | src/index.ts:93-102 | the kept messages are at most as many as were fetched; once anything is kept, their total token length is strictly below the starting budget |
| `Packer.KeepNewestIsPrefix` | src/index.ts:93-102 | the kept messages are exactly the first ones of the newest-first input, in that order |
| `Packer.KeepNewestIsGreedyCut` | src/index.ts:93-102 | each kept message is strictly shorter than the budget left before it, and the first message not kept, if any, is not |
| `Packer.GreedyCutIsKeepNewest` | src/index.ts:93-102 | a cut satisfying that greedy condition is unique and is exactly what the packer keeps (both directions) |
| `Packer.EqualLengthRejected` | src/index.ts:96-101 | a message whose length equals the remaining budget is not kept, and neither is anything after it |
| `Packer.LaterMessagesIgnored` | src/index.ts:99-101 | once a message does not fit, appending any further messages, however short, does not change what is kept |
| `Packer.NonPositiveBudgetKeepsNothing` | src/index.ts:75-98 | a starting budget of zero or less keeps nothing |
| `Packer.SumTokensAppend` | src/index.ts:97-98 | keeping one more message uses up exactly its body's token length |
| `Packer.SelectNewest` | src/index.ts:91-102 | the loop keeps exactly `KeepNewest` of the fetched messages; the kept lengths plus `remainingContextSz` equal the starting budget; `remainingContextSz` is at least 1 once anything is kept |
| `Packer.Reversed` | src/index.ts:106 | the reversed sequence has the same length and holds at position i the element at position n-1-i |
| `Packer.ReversedPermutes` | src/index.ts:106 | reversing keeps the same elements with the same multiplicities |
| `Packer.ReversedFirstLast` | src/index.ts:106 | the first (newest) kept message becomes the last one |
| `Packer.ReverseInPlace` | src/index.ts:106 | reversing the array in place leaves it holding the reverse of its old contents |
| `Dialog.RenderLine` | src/index.ts:107 | a message renders as its display name, `: ` and its body, each verbatim and in that order |
| `Dialog.Lines` | src/index.ts:107 | one rendered line per message, in the same order |
| `Dialog.Join` | src/index.ts:108 | no parts join to the empty string, one part to itself, and more start with the first part verbatim |
| `Dialog.JoinSplit` | src/index.ts:108 | joining splits at any inner boundary into the joins of both sides with the separator between them |
| `Dialog.RenderDialog` | src/index.ts:107-108 | an empty batch renders as the empty string; a single message as `displayName: content` |
| `Dialog.RenderDialogAppend` | src/index.ts:107-108 | two non-empty runs of messages render as their renderings with a blank line between them |
| `Dialog.NewestRenderedLast` | src/index.ts:106-108 | after the reversal the newest kept message is the last line of the dialog, after the older ones |
| `Dialog.PackDialog` | src/index.ts:91-108 | the dialog text is the rendering, oldest first, of exactly the messages `KeepNewest` keeps, and the count used is their number |
| `Prompt.FormUserPrompt` | src/index.ts:43-62 | the continuation template when the summary is non-empty, the first-run template otherwise; either way the dialog text stands verbatim at `DialogSlot(summary)`, followed by a line break only in the continuation template |
| `Prompt.TemplateChoice` | src/index.ts:43-62 | the prompt starts with the continuation instructions and the `SUMMARY` label exactly when the summary is non-empty, and with the first-run instructions exactly when it is empty; the two part at the character after `Please read the ` |
| `Prompt.DialogInsertedInSkeleton` | src/index.ts:43-62 | the prompt is the empty-dialog skeleton built with the same summary, with the dialog text inserted verbatim at a position that depends on the summary alone |
| `Prompt.SummarySectionLayout` | src/index.ts:44-54 | with a summary, the prompt holds `SUMMARY`, the summary verbatim, `DIALOG`, the dialog text verbatim, in that order, and ends with a line break |
| `Prompt.FirstRunLayout` | src/index.ts:55-60 | without a summary, the prompt is the first-run instructions followed by the dialog text and nothing else |
| `Prompt.DialogBudget` | src/index.ts:74-75 | the dialog budget never exceeds the 2048-token window and is positive exactly when the skeleton is shorter than the window |
| `Sync.Load` | src/index.ts:29-41 | loading fails exactly on an unreadable file; a stored state sets both variables; ENOENT sets only the summary, to empty, and leaves the watermark as it was |
| `Sync.Step` | src/index.ts:65-121 | a request is made exactly when the watermark is defined; a prompt is sent only after a request and a non-empty page; the step completes, writing the loaded summary with the newest fetched timestamp, exactly when a non-empty page and a reply came in |
| `Sync.AfterStep` | src/index.ts:89 | the summary never changes; the watermark moves, to the newest fetched message, exactly when it was defined and a non-empty page came in; otherwise nothing moves |
| `Sync.Run` | src/index.ts:26-121 | an unreadable state file ends the run before any request; a request is made exactly when a state file is stored; a written state carries the stored summary |
| `Sync.FetchParameters` | src/index.ts:66 | the query string is empty exactly when the watermark is, and otherwise ends with the watermark |
| `Sync.Agent.constructor` | src/index.ts:26-27 | the watermark starts out undefined; the summary, never read before it is loaded, starts empty |
| `Sync.Agent.LoadState` | src/index.ts:29-41 | a stored state sets both variables; ENOENT sets only the summary, to empty; any other error reports failure and changes nothing |
| `Sync.Agent.Sync` | src/index.ts:65-121 | the step's outcome is `Step` of the variables as they were; afterwards the summary is unchanged and the watermark has moved to the newest fetched message exactly when it was defined and a non-empty page came in, otherwise nothing has changed |
| `Sync.RunScript` | src/index.ts:26-121 | loading and then the step, on fresh variables, give exactly `Run` |
| `Sync.WrittenOnlyOnCompletion` | src/index.ts:79-121 | a state is written exactly when the run completes; that takes a readable state file, a non-empty page and a reply; the state written is the newest fetched timestamp with the loaded summary |
| `Sync.WrittenStateIgnoresPacking` | src/index.ts:89-121 | whatever the tokenizer, and so however many messages fitted, and whatever the reply, the state written is the same |
| `Sync.FailuresWriteNothing` | src/index.ts:29-82 | an unreadable state file ends the run before any request; an error payload ends it before any prompt; neither writes anything |
| `Sync.FilterOnlyWithWatermark` | src/index.ts:66 | with a stored state, the Graph request filters on the watermark exactly when the watermark is non-empty |
| `Sync.PackedBodiesFitBudget` | src/index.ts:74-102 | once anything is packed, the body token lengths plus the skeleton's stay strictly below the window; a skeleton that fills the window leaves no room for any message |
| `Sync.PromptOfRun` | src/index.ts:74-111 | a run that reaches the model sends the prompt built with the loaded summary around the packed, reversed and rendered dialog |
| `Sync.PromptIsMeasuredSkeletonPlusDialog` | src/index.ts:74-111 | the prompt sent is the very skeleton whose token count set the budget, with the packed dialog inserted into it |
| `Sync.MissingStateAborts` | src/index.ts:34-66 | without `state.json` the run fails on the undefined watermark before any request, prompt or write |
| `Sync.EmptyPageAbortsAsWritten` | src/index.ts:85-89 | an empty page makes the run fail on `value[0]`, though nothing is written |
| `Sync.CorrectedFirstRunFetchesAll` | src/index.ts:34-66 | with the correction, a first run without `state.json` sends no filter and, given a reply, writes the newest fetched timestamp |
| `Sync.CorrectedEmptyPageIsNoop` | src/index.ts:85-89 | with the correction, an empty page ends the run successfully and writes nothing |
| `Sync.CorrectionIsConservative` | src/index.ts:29-121 | with a state file present and anything but an empty page, the corrected run and the run as written agree |

## Findings

| source | as written | input that shows it | evidently intended | confidence | as-written member | corrected member |
|---|---|---|---|---|---|---|
| src/index.ts:34-36, 66 | the ENOENT branch sets only `summary`, so `lastModifiedDateTime` stays undefined and `lastModifiedDateTime.length` throws a TypeError | no `state.json` (every first run) | a missing state is the empty state: watermark `''`, full history fetched | high, not executed | `Sync.MissingStateAborts` (on `Sync.Run`) | `Sync.LoadCorrected` in `Sync.RunCorrected`, proved in `Sync.CorrectedFirstRunFetchesAll` |
| src/index.ts:85-89 | after logging "Nothing to do" the script goes on and reads `jsonRetrieved.value[0].lastModifiedDateTime`, which throws a TypeError | a Graph page with `value: []` | end the run successfully with the state untouched | high, not executed | `Sync.EmptyPageAbortsAsWritten` (on `Sync.Run`) | `Sync.RunCorrected`, proved in `Sync.CorrectedEmptyPageIsNoop` and `Sync.CorrectionIsConservative` |

## Left out

- The HTTP GET to Microsoft Graph is not modelled: URL, chat id, headers and access token are network I/O. Only its query string and the parsed response body are values here. A fetch whose promise rejects, or whose body is not JSON, is not modelled.
- The OpenAI-compatible client and `getLlmResponse` are a foreign network call. The reply is an opaque `Replied(content)` or `CallRejected`, and its content is only logged.
- `readFile`, `JSON.parse`, `JSON.stringify` and `writeFile` of `state.json` are file I/O. The file is a value: its contents, ENOENT or another error. A `state.json` whose members are missing or not strings is not modelled. A missing or null `lastModifiedDateTime` would throw at line 66, before the request. A missing or null `summary` would throw at line 74, after the request, when `formUserPrompt('')` reads its `length` at line 44. A value without a `length`, such as a number, reads as an empty summary there, and the run goes on with the first-run template.
- The Llama 3 tokenizer is a third-party library. It is the parameter `tokens`; only its results' being natural numbers is used.
- `console.log`, `console.error`, `process.exit` and environment variables are logging and process control. A failed run is `Aborted` with its reason.
- A Graph message whose `from.user` is null would throw when rendered; `Message` carries the display name directly, so this is not modelled.
- Sync.PackedBodiesFitBudget: the budget bounds only the message bodies, as the script measures them. The `displayName: ` prefixes and the blank lines that rendering adds are not measured, and token counts need not add up over concatenation, so nothing bounds the token length of the prompt actually sent.
- JavaScript strings are UTF-16 code units and Dafny strings are sequences of characters. Only emptiness, concatenation and slicing are used, so the model does not depend on the difference.
