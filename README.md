# Context assembly of the anime.gf chat client, in Dafny

anime.gf is a desktop chat client for role-play with character cards. Before each request to a
language-model provider it assembles a context (`src/renderer/src/lib/context.ts`):

- It renders a system prompt from the character card, the user's persona and a jailbreak text.
- It reserves tokens for that prompt and for the user's latest message. If fewer than 300 tokens
  are left, it refuses.
- It fills the rest of the token limit with the newest messages of the chat, fetched from the
  message store one page of 100 at a time, newest first.
- It puts those messages back into chronological order.
- It normalises them into the strictly alternating user/assistant list that providers accept.

This project models that assembler and proves what it promises.

| file | module | models |
|---|---|---|
| `shared.dfy` | `Shared` | stored messages, provider messages, card and persona records, `Option`/`Result`, reversal |
| `page_query.dfy` | `PageQuery` | `getMessagesStartingFrom` as a pure query: filter `id < cursor`, sort by descending id, take `limit` |
| `provider_messages.dfy` | `ProviderMessages` | `toProviderMessages`: sender mapping, synthetic opener, trailing user turn, merging runs of one role |
| `system_prompt.dfy` | `SystemPrompt` | `getTemplate` and `renderSystemPrompt`: the markdown template as Mustache text, interpolations and sections |
| `context_window.dfy` | `ContextWindow` | `getContext`: prompt rendering, token budget, the paging loop, reversal, normalisation |

Modelling choices:

- **Message store.** The message store is a sequence of `(id, sender, text)` records of one chat.
  Identifiers are distinct (they are the table's key), which `DistinctIds` states.
- **Tokenizer.** The tokenizer is a parameter `tokens: string -> nat`.
- **Window.** `GreedyWindow` states what the paging loop fetches. The window is the k newest
  messages, where k is the first position at which fetching stops (`StopsAt`). A run that
  exactly fills the budget in the middle of a page still accepts the page's following
  0-token messages, as the `for` does.
- **Errors.** The exceptions the source throws are `Failure` values. `PromptError` covers
  `NotImplemented` for `xml` and `InvalidVariant` for any other unknown variant.
  `ContextError.BudgetExceeded` covers the 300-token floor.
- **Ghost results of `GetContext`.** `window` is the accepted messages, newest first. `pages`
  counts the page queries made. Together they state that the budget check comes before any query.
- **Mustache subset.** The markdown template is held as literal text, triple-mustache
  interpolations and sections. A section renders its body exactly when its string is non-empty.
- **Standalone tag lines.** The section tags stand on lines of their own. Each closing tag's line
  is joined to the following empty line by a `\` line continuation in the template literal.
  Mustache drops such standalone lines whole, so the model's template has no text between
  consecutive sections, and the jailbreak follows the last shown block directly.
- **Flat prompt text.** `PromptText` writes the whole prompt out flat, and
  `SystemPrompt.RenderedText` proves that rendering the template gives exactly that string.

`getTemplate` has two distinct errors: `NotImplemented` for the variant "xml" and
`InvalidVariant` for any other variant it does not know.

For the two loops listed under "## Findings", the main model uses the evidently intended
behaviour, and each loop as written is modelled beside it.

## Model

| member | source | states |
|---|---|---|
| Shared.ReverseOfDescending | src/renderer/src/lib/context.ts:81 | reversing the newest-first window yields the same messages, element i being element n-1-i, in strictly ascending id order |
| PageQuery.Below | src/renderer/src/lib/context.ts:148-161 | a message is kept exactly when it is in the chat and its id is below the cursor (every message when there is no cursor) |
| PageQuery.SortDesc | src/renderer/src/lib/context.ts:152 | `ORDER BY id desc` as an insertion sort; no contract of its own: `SortPermutes` and `SortDescending` state that it permutes the chat into strictly newest-first order |
| PageQuery.Take | src/renderer/src/lib/context.ts:153 | `LIMIT n` yields a prefix of at most n messages, the whole list when it is shorter |
| PageQuery.Page | src/renderer/src/lib/context.ts:146-165 | getMessagesStartingFrom as filter, sort and take; no contract of its own: `PageShape` and `PageFromCursor` state what the page holds |
| PageQuery.SortPermutes | src/renderer/src/lib/context.ts:152 | `ORDER BY id desc` yields a permutation of its input with non-increasing ids |
| PageQuery.SortDescending | src/renderer/src/lib/context.ts:152 | with distinct ids the sorted chat is strictly newest first and holds exactly the chat's messages |
| PageQuery.BelowSort | src/renderer/src/lib/context.ts:156-161 | filtering by the cursor and then sorting equals sorting and then filtering |
| PageQuery.BelowCursorAfter | src/renderer/src/lib/context.ts:158 | in a newest-first run, the messages older than its k-th message's id are exactly the ones after position k |
| PageQuery.PageFromCursor | src/renderer/src/lib/context.ts:146-165 | the page asked for with the cursor left by accepting the k newest messages is the next run of at most `limit` messages of the chat, newest first |
| PageQuery.PageShape | src/renderer/src/lib/context.ts:146-165 | a page has at most `limit` messages, all of the chat and older than the cursor, strictly newest first; an eligible message left out is older than every one returned, and then the page is full |
| ProviderMessages.RoleOf | src/renderer/src/lib/context.ts:98 | the role is user exactly when the sender is exactly "user" |
| ProviderMessages.Mapped | src/renderer/src/lib/context.ts:96-101 | one provider message per stored message, in order, with the role of its sender and its text as content |
| ProviderMessages.WithOpener | src/renderer/src/lib/context.ts:103-109 | the fixed user opener is prepended exactly when the list is non-empty and starts with the assistant; otherwise the list is unchanged |
| ProviderMessages.MergeRuns | src/renderer/src/lib/context.ts:117-134 | the merge loop (guard read as `fast < ret.length`) returns `Merged`, the left-to-right collapse of same-role runs into their first position |
| ProviderMessages.Merged | src/renderer/src/lib/context.ts:117-134 | the intended merge as a left-to-right fold; no contract of its own: `MergedShape`, `MergedOfAlternating` and `MergedIdempotent` state its properties |
| ProviderMessages.ToProviderMessages | src/renderer/src/lib/context.ts:90-136 | returns the merge of the mapped history, with the opener when due and the latest user message appended |
| ProviderMessages.ProviderMessagesOf | src/renderer/src/lib/context.ts:90-136 | toProviderMessages as a function; no contract of its own: `ProviderMessagesShape` states its properties |
| ProviderMessages.AppendOrMergeStep | src/renderer/src/lib/context.ts:124-132 | one merge step keeps the list alternating and its first role, ends with the new message's role, grows by at most one and keeps the newline-joined text |
| ProviderMessages.AppendOrMergeText | src/renderer/src/lib/context.ts:126 | joining a message into the last one with a newline keeps the newline-joined text of the list |
| ProviderMessages.MergedShape | src/renderer/src/lib/context.ts:117-134 | the merged list strictly alternates, is no longer than its input, keeps the first and last roles, and joined with newlines reads exactly as the input |
| ProviderMessages.MergedEndsWithLast | src/renderer/src/lib/context.ts:111-134 | the last merged message's content ends with the last input message's content |
| ProviderMessages.MergedOfAlternating | src/renderer/src/lib/context.ts:117-134 | merging leaves an already alternating list unchanged |
| ProviderMessages.MergedIdempotent | src/renderer/src/lib/context.ts:117-134 | merging twice is merging once |
| ProviderMessages.ProviderMessagesShape | src/renderer/src/lib/context.ts:90-136 | the output is non-empty, starts and ends with the user, strictly alternates, is `[user: latest]` for an empty history, its last content ends with the latest message, and no text is lost or reordered |
| ProviderMessages.TrailingUsersMerge | src/renderer/src/lib/context.ts:117-120 | [assistant "Hi", user "Hey", user "Sup"] with latest "Yo" becomes [user opener, assistant "Hi", user "Hey\nSup\nYo"] |
| ProviderMessages.MergeAsWritten | src/renderer/src/lib/context.ts:121-134 | the loop as written, guard `fast <= ret.length`, fails by reading past the end on every non-empty list and returns the empty list for an empty one |
| ProviderMessages.ToProviderMessagesAsWritten | src/renderer/src/lib/context.ts:90-136 | toProviderMessages with the loop as written fails on every input |
| SystemPrompt.GetTemplate | src/renderer/src/lib/context.ts:192-236 | only "markdown" yields a template, the markdown one; "xml" fails as not implemented; every other variant fails as invalid |
| SystemPrompt.RenderSystemPrompt | src/renderer/src/lib/context.ts:173-184 | succeeds exactly for "markdown" and otherwise fails with getTemplate's error; the prompt is `PromptText` of the card, persona, memory and jailbreak, opens with the instruction naming the character and ends with the jailbreak text |
| SystemPrompt.Render | src/renderer/src/lib/context.ts:182 | Mustache rendering of the template tree; no contract of its own: `RenderAppend`, `RenderOptional` and `RenderedText` state what it produces |
| SystemPrompt.RenderedText | src/renderer/src/lib/context.ts:197-233 | the rendered template is the instruction naming character and persona, then heading, value and newline of each block whose field is non-empty, in template order, then the jailbreak text |
| SystemPrompt.OptionalsText | src/renderer/src/lib/context.ts:202-230 | the optional blocks render to the text of exactly the shown ones, in order |
| SystemPrompt.RenderOptional | src/renderer/src/lib/context.ts:202-206 | a guarded block renders its heading, value and newline when its field is non-empty and nothing otherwise |
| SystemPrompt.RenderOptionals | src/renderer/src/lib/context.ts:202-230 | the headings rendered are those of the shown blocks, and the fields shown are their guards, in template order |
| SystemPrompt.MarkdownSections | src/renderer/src/lib/context.ts:197-233 | the prompt shows the character's and persona's names, then exactly the blocks with non-empty fields in the order Character Info, World Info, User Info, Character Memory, Messages Examples, then the jailbreak |
| SystemPrompt.SectionShownIff | src/renderer/src/lib/context.ts:202-230 | a block's heading is in the prompt exactly when its field is non-empty |
| SystemPrompt.PromptFrame | src/renderer/src/lib/context.ts:197-233 | the prompt starts with the instruction naming the character and ends with the jailbreak text |
| ContextWindow.GetContext | src/renderer/src/lib/context.ts:39-88 | a template failure is returned before any page query; the budget error happens exactly when fewer than 300 tokens remain, before any page query; otherwise a context is returned, in which the system prompt is the rendered one, the window is the greedy run of newest messages within the remaining budget (unique by `GreedyWindowUnique`), prompt + latest + window fit the token limit, and the messages are the normalised chronological window |
| ContextWindow.FetchWindow | src/renderer/src/lib/context.ts:60-80 | the accepted messages are the k newest of the chat, newest first, their tokens within the budget, where k is the first point at which fetching stops: the chat is exhausted, a whole number of pages was taken with the budget used up, or the next older message would overflow it; at least one page is asked for when the budget is positive |
| ContextWindow.GreedyWindowUnique | src/renderer/src/lib/context.ts:60-80 | the window fetching yields is determined by the chat, the token counter and the budget |
| ContextWindow.AcceptPage | src/renderer/src/lib/context.ts:70-79 | over one page, messages are accepted in order while they fit, the cursor follows the last accepted one, and an overflow is reported with the message that caused it |
| ContextWindow.AcceptAsWritten | src/renderer/src/lib/context.ts:70-79 | the `for` over one page as written; no contract of its own: `FirstPassTakesFour` and `StuckOnOverflow` state what it does |
| ContextWindow.StepAsWritten | src/renderer/src/lib/context.ts:64-79 | one pass of the `while` as written, fetching from the current cursor; no contract of its own: `StuckOnOverflow` states that it is a no-op once the next message overflows |
| ContextWindow.RunAsWritten | src/renderer/src/lib/context.ts:64-80 | up to n passes of the `while` as written; no contract of its own: `StuckOnOverflow` and `AsWrittenNeverFinishes` state that it does not terminate on the worked example |
| ContextWindow.WindowIsNewestRun | src/renderer/src/lib/context.ts:64-81 | the window is strictly newest first, holds only the chat's messages, every message left out is older than every one taken, and its reverse is in ascending id order |
| ContextWindow.NoCharacterMemory | src/renderer/src/lib/context.ts:40-47 | the prompt getContext renders never contains the Character Memory block |
| ContextWindow.FetchFourOfFive | src/renderer/src/lib/context.ts:60-80 | with 930 tokens of budget and five messages of 200 tokens, exactly four are taken |
| ContextWindow.FirstPassTakesFour | src/renderer/src/lib/context.ts:70-79 | on a page of five 200-token messages and 930 tokens of budget, the `for` as written accepts the first four and stops at the fifth |
| ContextWindow.StuckOnOverflow | src/renderer/src/lib/context.ts:64-80 | once the next message would overflow while budget remains, a pass of the loop as written changes nothing and the loop keeps running after any number of passes |
| ContextWindow.AsWrittenNeverFinishes | src/renderer/src/lib/context.ts:64-80 | with 930 tokens of budget and five 200-token messages, the loop as written is still running after every number of passes |

## Left out

- Branching replies (candidates, prime selection, regenerate, edit, rewind, delete) and any "generation in progress" guard: no code for them is part of this model.
- The `chat_id` filter of the page query: the store modelled is one chat's messages.
- The SQL text, `window.api.sqlite.all` and the async sequencing of the page queries: the query is the pure function `PageQuery.Page`.
- `getTokenizer` and the model name: the token counter is the parameter `tokens`.
- `GetContext`, `FetchWindow`: require distinct message ids, which the message table's key guarantees; with duplicate ids the query's order among equals is not modelled.
- `FetchWindow`: requires a non-negative budget; getContext only enters the loop after the 300-token check.
- Mustache beyond the template's own use: escaping (`{{name}}`), lists, inverted sections, partials and delimiter changes are not modelled; values are looked up by field, not by dotted path.
- The exception message texts: errors are the variants of `PromptError` and `ContextError`.
- `deepFreeze` and the exported `context` object: no behaviour to model.
- The card's `meta` block, `spec` and `spec_version` are carried but never read by the assembler.
- Number width: token counts and ids are unbounded integers; JavaScript doubles are exact far beyond any realistic count.
- The UI (`app.tsx`, `chats.tsx`, `ChatBar.tsx`, `ChatCard.tsx`, `Typing.tsx`) and the Electron main process (`src/main/index.ts`): presentation and I/O.

## Findings

| source | as written | input that shows it | evidently intended | confidence | as-written member | corrected member |
|---|---|---|---|---|---|---|
| src/renderer/src/lib/context.ts:123 | the merge loop runs while `fast <= ret.length`, so at `fast == ret.length` it reads `ret[fast].role` of `undefined` and throws | any call, e.g. no history and latest message "Yo": `ret` is `[user "Yo"]` and the first pass reads `ret[1].role` | loop while `fast < ret.length`, giving the merge of same-role runs | high (not executed) | ProviderMessages.ToProviderMessagesAsWritten | ProviderMessages.MergeRuns |
| src/renderer/src/lib/context.ts:64-79 | `break` at line 74 leaves only the `for`; the `while` asks again from the same cursor, gets the same page, and stops at the same message, for ever | remaining budget 930 and five messages of 200 tokens: four are accepted, then each pass stops at the fifth with 800 < 930 | stop fetching at the first message that would overflow | high (not executed) | ContextWindow.AsWrittenNeverFinishes | ContextWindow.FetchWindow |
