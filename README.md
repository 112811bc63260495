# WhatsApp bots: message handling, contact names, vCards and reconnects

This project is a Dafny model of the decision logic of two small WhatsApp bots built on the Baileys library:

- **The AI bot (`bot/main.js`).** It answers `.ai <question>` with the output of a local `ollama` model. It also remembers a display name for every chat it sees.
- **The contact bot (`bot.js`).** It answers `.vcf` by sending the contact stored in a vCard file.

Every effect on the outside world is modelled as a plain value:

- The Baileys socket, the `ollama` process and the file system are inputs.
- What the handler asks of the transport is an ordered list of actions.

The model is split into modules:

- **`JsStrings`:** the JavaScript string operations the code uses: `trim` with the ECMAScript whitespace set, `startsWith`, `endsWith`, `includes`, `split('@')[0]`, `replace(/[;]/g, ' ')` and ASCII `toLowerCase`.
- **`Messages`:** the shared message record, the `Action`s, and `Truncate`. `Truncate` is how a per-message `try/catch` abandons the rest of a message once the transport call with a given number throws.
- **`Contacts`:** `getContactName`. It is a class holding the process-wide cache as a `map`, and a transport lookup that fails is an absent `Option`.
- **`Ollama`:** how `askAI` classifies the outcome of `ollama run`, and how it escapes the question for the shell command line.
- **`AiBot`:** the `messages.upsert` handler of the AI bot. It is a class whose methods append to an outbox and update the contact cache.
- **`Vcard`:** `readVcardFile` once the file is read: validity, the `FN` regular expression, and the normalisation of the name.
- **`VcfBot`:** `handleMessages` of the contact bot, as a loop proved against a function of the batch.
- **`Connection`:** the close/reconnect decision both bots take on `connection.update`.

A few behaviours of the code deserve notice.

- **`FN` search.** The `FN` name is found at the leftmost position where the WHOLE pattern `/FN[^:]*:([^\n\r]+)/i` matches. If the first colon after an `FN` is followed by a line break or the end of the file, that `FN` does not match and the search goes on to later positions (`Vcard.FnMatchLeftmost`).
- **`.ai` parsing.** `.ai` is matched case-sensitively and as a bare prefix. The question is the text from index 4, so one character after `.ai` is always dropped (`.aihalo` asks `alo`). There is no tokenising on whitespace (`AiBot.AiQuestionAfterPrefix`).
- **Direct-chat names.** The contact's `name` is tried, then its `notify` name, and only then the bare number.
- **Errors in the AI bot.** A failing send is swallowed with nothing sent back to the user, and decryption-error stubs are only skipped.
- **Messages without a chat.** A message with text but no `remoteJid` makes `jid.endsWith` throw a `TypeError`. In the AI bot this happens inside the per-message `try`, so the message is abandoned: no read mark, no name lookup, no reply (`AiBot.Normalize`, reason `NoChat`). In the contact bot it happens outside any `try`, so `handleMessages` rejects and the rest of the batch is never handled, whatever the message's text (`VcfBot.MessageOutcome`). A message without any `key` behaves as one whose key has no chat, is not the bot's own and has no group member, so it is modelled that way.
- **Own messages in the contact bot.** The contact bot does not skip its own messages.
- **Errors in the contact bot.** A failing send is answered with the error's message. If that answer throws as well, the rest of the batch is never handled (`VcfBot.CrashStopsBatch`).

## Model

| member | source | states |
|---|---|---|
| JsStrings.Trim | bot/main.js:68 | `trim` leaves no whitespace at either end, and is empty exactly when the input is all whitespace |
| JsStrings.TrimSlice | bot/main.js:185 | `trim` keeps a contiguous middle slice of its input, with only whitespace cut off on either side |
| JsStrings.TrimAddsNothing | bot.js:39 | trimming brings in no character that was not in its input |
| JsStrings.TrimKeepsTrimmed | bot.js:39 | trimming leaves a string unchanged exactly when it has no whitespace at either end, so trimming twice is trimming once |
| JsStrings.TrimStart | bot/main.js:185 | the leading whitespace is removed and the rest kept as a suffix of the input |
| JsStrings.TrimEnd | bot/main.js:185 | the trailing whitespace is removed and the rest kept as a prefix of the input |
| JsStrings.BeforeAt | bot/main.js:168 | `split('@')[0]` is a prefix without `@`, followed in the input by `@` unless it is the whole input |
| JsStrings.ToLowerAscii | bot.js:134 | lower-casing keeps the length and maps each character on its own |
| JsStrings.SemicolonsToSpaces | bot.js:39 | every `;` becomes a space, every other character is kept in place, and no `;` remains |
| Messages.TextOf | bot.js:126-128 | the text is the plain conversation text if non-empty, else the extended text, and empty only when both are missing |
| Messages.Truncate | bot/main.js:145-226 | a throwing transport call ends the message: what is done is a prefix of the plan; all of it when no call of the plan throws; otherwise exactly the prefix that ends with the throwing call, holding that many transport calls and nothing after it |
| Messages.TruncateWithin | bot/main.js:145-226 | when a call in the first part of a plan throws, the second part is never started |
| Messages.TruncatePast | bot/main.js:145-226 | when no call in the first part of a plan throws, the first part is done whole and the second part is cut at the same throwing call, counted on from there |
| Contacts.SuffixesExclusive | bot/main.js:34-42 | no JID is both a direct-chat JID and a group JID |
| Contacts.ResolveName | bot/main.js:32-49 | a resolved name is empty only for a direct JID with nothing before its `@` |
| Contacts.ResolutionBySuffix | bot/main.js:32-48 | direct JID: name, else notify, else the number, also when the lookup fails; group JID: subject, else "Unknown Group", also on failure; any other JID: "Unknown" with no lookup |
| Contacts.ResolutionUsesOneLookup | bot/main.js:34-49 | the name of a direct chat depends only on the contact lookup, and any other chat's name only on the group lookup |
| Contacts.Remember | bot/main.js:30-51 | after a call the cache holds the JID; a hit leaves the cache unchanged; a miss adds exactly the resolved name; no other entry changes |
| Contacts.RememberIdempotent | bot/main.js:30-52 | a second resolution of the same JID changes nothing, whatever the transport would answer then |
| Contacts.ContactResolver.Resolve | bot/main.js:28-56 | a hit returns the cached name and performs no lookup; a miss performs the one lookup its suffix calls for; afterwards the cache maps the JID to the returned name |
| Contacts.ResolveTwice | bot/main.js:30-52 | two calls for one JID return the identical name, and the second performs no lookup |
| Ollama.AiAnswer | bot/main.js:68-73 | the answer is never empty; non-empty trimmed output is returned, empty output gives "✅ Selesai."; an error containing `timeout` gives the timeout text, else one containing `not found` gives the missing-model text, else the retry text, each as an if-and-only-if |
| Ollama.EscapeQuotes | bot/main.js:64 | the escaped question is longer by the number of quotes, and every quote in it has a backslash before it |
| Ollama.EscapeQuotesRoundTrip | bot/main.js:64 | escaping loses nothing: undoing the backslash-quote pairs gives back the question |
| Ollama.EscapeQuotesSafeWithoutShellSpecials | bot/main.js:63-64 | for a question with no backslash, `$` or backquote, the shell hands `ollama` exactly the question |
| Ollama.QuoteOnlyEscapeBreaksOut | bot/main.js:64 | the questions `\"` and `$(reboot)` do not stay one literal word after the escaping as written |
| Ollama.ShellEscape | bot/main.js:64 | the corrected escaping adds one backslash per shell-special character |
| Ollama.ShellEscapeRoundTrip | bot/main.js:64 | with the corrected escaping the shell hands `ollama` exactly the question, for every question |
| Ollama.ShellEscapeAgreesWhenSafe | bot/main.js:64 | the corrected escaping agrees with the one as written wherever the latter is safe |
| AiBot.Normalize | bot/main.js:147-168 | a message is dropped iff it is the bot's own, a decrypt-error stub, a status broadcast, without text, or with text but no chat (the `TypeError` the `try` swallows); an accepted message carries its chat, the text by priority, group-ness by suffix, the sender (participant else chat) and the number, which is the sender up to its first `@` |
| AiBot.ReplyText | bot/main.js:215-217 | the final reply starts with the Qwen3 header, carries the elapsed time right after the header's opening parenthesis, and ends with the answer |
| AiBot.AiQuestionAfterPrefix | bot/main.js:184-185 | the question of `.ai` plus one character plus a rest is the trimmed rest |
| AiBot.Serve | bot/main.js:187-203 | an empty question gets exactly the usage reply; the question `status` in any case gets exactly a model check and the status reply |
| AiBot.ServeDispatch | bot/main.js:187-217 | the model runs iff the question is neither empty nor `status`; then the series is composing, acknowledgement, one run on the question, one reply ending with the answer; every reply goes to the command's chat |
| AiBot.AiCommand | bot/main.js:184 | the `.ai` branch asks for something exactly when the text starts with `.ai`, case-sensitively |
| AiBot.AiCommandDispatch | bot/main.js:184-217 | text not starting with `.ai` asks for nothing; the model runs iff the text starts with `.ai` and its question is neither empty nor `status` |
| AiBot.Plan | bot/main.js:147-184 | nothing is done for a dropped message, and anything done starts by marking the message read |
| AiBot.PlanDispatch | bot/main.js:147-217 | an accepted message whose text does not start with `.ai` is only marked read; the model runs iff the message is accepted, starts with `.ai`, and its question is neither empty nor `status` |
| AiBot.BatchActionsAppend | bot/main.js:144-226 | handling two batches in turn is handling their concatenation: a message that throws takes nothing from the later ones |
| AiBot.Bot.Call | bot/main.js:181-217 | one awaited transport call: it is recorded, and the rest of the message is dropped when it throws |
| AiBot.Bot.OnMessage | bot/main.js:145-226 | one message's effects are exactly its plan cut at the throwing transport call, and the cache gains the chat's name iff the message passes the filter |
| AiBot.Bot.Respond | bot/main.js:181-217 | after the filter: mark read, then the `.ai` series, cut at the call that throws |
| AiBot.Bot.ServeQuestion | bot/main.js:187-217 | the `.ai` branch asks for the series `Serve` gives, cut at the call that throws |
| AiBot.Bot.OnUpsert | bot/main.js:143-228 | a batch's effects and cache are those of its messages in arrival order |
| Vcard.ColonFrom | bot.js:37 | finds the first colon at or after a position, or reports that there is none |
| Vcard.LineEndFrom | bot.js:37 | finds the first CR or LF at or after a position, or the end |
| Vcard.MatchAtMeaning | bot.js:37 | a match starting at a position captures exactly the value the pattern describes there: `FN` in any case, no colon until the first colon, then the whole non-empty rest of the line |
| Vcard.FnMatchFromLeftmost | bot.js:37 | the search from a position returns the match of the leftmost start that matches, and nothing only when no start matches |
| Vcard.FnMatchLeftmost | bot.js:37-38 | there is no capture iff the pattern matches nowhere; otherwise the capture is described by the pattern at the leftmost matching start |
| Vcard.NormalizeName | bot.js:39 | the normalised name has no `;` and no whitespace at either end, and is empty iff the value held only whitespace and semicolons |
| Vcard.NormalizeNameIdempotent | bot.js:39 | normalising a normalised name changes nothing |
| Vcard.ReadVcard | bot.js:21-53 | a file is accepted iff it exists and contains both `BEGIN:VCARD` and `END:VCARD`; the content is kept unchanged; the name is the normalised `FN` value, or "Kontak" when there is none or it normalises to nothing, and is never empty |
| VcfBot.VcfCommandIff | bot.js:134 | a text is a `.vcf` command iff it starts with `.` and `v`, `c`, `f` in either case, whatever follows |
| VcfBot.PlanIsAllSends | bot.js:141-167 | every step of the `.vcf` reply is a socket send that may throw |
| VcfBot.CommandOutcome | bot.js:137-176 | a `.vcf` command always produces actions, and crashes the handler only when the failure reply throws |
| VcfBot.MessageOutcome | bot.js:124-177 | a message produces actions iff it is not skipped, has a chat and is a `.vcf` command; one that is not skipped but has no chat crashes the handler with no action; otherwise a crash needs the failure reply to throw |
| VcfBot.VcfOutcomes | bot.js:137-176 | no usable file: the help text and never a contact; a file and no throw: the contact, then the confirmation naming it; a throw: the plan up to and including the throwing send and nothing after it, then one failure reply carrying the error, with a crash iff that reply throws; every action goes to the command's chat |
| VcfBot.Outcomes | bot.js:122 | one outcome per message of the batch, the outcome of that message |
| VcfBot.CrashStopsBatch | bot.js:171-176 | once a failure reply throws, no later outcome of the batch is reached |
| VcfBot.CrashEndsBatch | bot.js:122-178 | a batch that crashes at a message has the outcome of its messages up to that one |
| VcfBot.NoCrashConcatenates | bot.js:122-178 | when no message crashes the handler, every message is reached: the batch does the actions of all its messages in order and does not crash |
| VcfBot.CombineAppend | bot.js:122-178 | after a part of the batch that did not crash, the rest is handled as if on its own and appended |
| VcfBot.CaughtErrorsKeepBatchGoing | bot.js:171-176 | when every message has a chat and no failure reply throws, a caught send error stops nothing: the batch does every message's actions in order and does not crash |
| VcfBot.RunCommand | bot.js:137-176 | the sends of the `try` block and the `catch` reply are those of `CommandOutcome` |
| VcfBot.HandleMessage | bot.js:123-177 | the loop body's sends and crash are those of `MessageOutcome` |
| VcfBot.HandleMessages | bot.js:121-179 | the loop's sends and crash are those of `BatchOutcome` |
| Connection.ReconnectDelay | bot/main.js:124-131 | a reconnect, after 5000 ms, is scheduled iff the connection closed with a status code other than `loggedOut` (401), a missing code included |
| Connection.ReconnectsPerClose | bot.js:96-106 | over any series of events every reconnect is 5000 ms, no more reconnects than closes are scheduled, and as many iff no close was a logout |

## Left out

- **Sockets and the world.** The Baileys socket, authentication state, QR codes, event wiring and credential saving are left out. Sends, presence updates, read receipts and lookups are actions and inputs.
- **Running `ollama`.** Running `ollama run` and `ollama list`, and the 180-second timeout, are left out. Their outcomes are inputs (`ExecResult`, `modelReady`).
- **`checkOllama`.** Its `stdout.includes(OLLAMA_MODEL)` is folded into the `modelReady` input.
- **Files.** File-system access is left out. The vCard file's content, or its absence, is an input.
- **Logging and time.** Console output, the vCard preview at start-up and `toLocaleTimeString` are left out.
- **Elapsed time.** The elapsed time `((Date.now() - start) / 1000).toFixed(1)` is floating point and wall clock, so it is an opaque string input.
- **Timing and concurrency.** `setTimeout` timing, the recursive `connectToWhatsApp`, SIGINT handling and interleaving between concurrent `messages.upsert` handlers are left out. A batch is handled sequentially and alone.
- **Outer catch of `getContactName`.** The catch at bot/main.js:53-55 is not modelled: nothing inside its `try` can throw once the lookups catch their own errors.
- **The AI bot's per-message catch.** It only logs, and skips the log for `Bad MAC` errors. The model keeps only its effect: the rest of the message is abandoned.
- **The `loggedOut` value.** `DisconnectReason.loggedOut` is taken as 401, the Baileys library's value. That library is not part of this model.
- **Characters.** One Dafny character stands for one character of the JavaScript string, so `substring(4)` cannot split a surrogate pair here.
- JsStrings.ToLowerAscii: lower-cases ASCII letters only, because JavaScript's full Unicode case mapping is not modelled. This cannot change whether a text starts with `.vcf` or equals `status`, because no other character lower-cases to one of those ASCII letters.
- **`FN` case-insensitivity.** The `FN` of the pattern matches `F` and `N` in their two ASCII cases only, as a case-insensitive JavaScript regular expression without the `u` flag does.
- **A `null` chat or key.** `null` and `undefined` are not told apart: a `remoteJid` or `key` that is `null` is modelled as missing, and both throw at the same place.

## Findings

| source | as written | input that shows it | evidently intended | confidence | as-written member | corrected member |
|---|---|---|---|---|---|---|
| bot/main.js:64 | only `"` is escaped before the question is put in double quotes on an `sh -c` command line | the question `\"` (backslash, quote) becomes `\\"`, whose quote closes the word; the question `$(reboot)` is expanded by the shell | the shell hands `ollama` the question as one literal argument | high, not executed | Ollama.QuoteOnlyEscapeBreaksOut | Ollama.ShellEscapeRoundTrip |
