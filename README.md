# mimic chat session, modelled in Dafny

This project models the core of `mimic`, a terminal chat client for a
hosted chat-completion API.

The centre of the model is the `ChatSession` class of `src/chat-model.ts`:
- a bot's conversation: its messages, the memories it has extracted, and the subscribers it notifies;
- `sendMessage` appends the user's message, and `go` appends an assistant placeholder and sends the prompt;
- the reply then streams into the placeholder chunk by chunk, until `[DONE]` ends loading and `handleResponse` extracts the `<remember>…</remember>` annotations as memories;
- every visible change runs the subscribers and saves the conversation.

The second part is the pure helpers of `src/create.ts`:
- the built-in prompts and their lookup;
- `slugify`;
- the validators for a new bot's name, slug and prompt.

Modules, one per file:

| file | module | contents |
|---|---|---|
| `optional.dfy` | `Optional` | `Option` |
| `text.dfy` | `Text` | the JavaScript string operations the core uses: `split`, `join`, the `trim() !== ""` test, ASCII lower-casing |
| `frames.dfy` | `Frames` | how one line of a chunk is read: strip `data: ` once, recognise `[DONE]`, decode the frame |
| `remember.dfy` | `Remember` | the matching rule of the `<remember>` annotation, case-insensitive, left to right |
| `chat_model.dfy` | `ChatModel` | the records, the system prompt, the prompt sent, observer fan-out, and the pure specification of one line, one chunk, a stream and a whole turn, with their lemmas |
| `chat_session.dfy` | `ChatSessions` | class `ChatSession`, whose fields are updated in place by methods proved against the `ChatModel` functions |
| `create.dfy` | `Create` | the `create` command's pure helpers |

The session's effects on the outside world are recorded in order in a ghost `log` field. There are three kinds:
- a subscriber run;
- a call to `saveConvo`, with the bot's slug and the conversation `{id, messages}` as it stands at the call;
- a completion request, with its messages.

The things a session cannot compute itself are parameters:
- the clock and `uuid()`: a `Stamp` per new record, and the formatted date and time strings;
- the configured user name;
- JSON decoding of one frame: an arbitrary `Decoder`;
- how the API call ends: `Transport`, either a rejection with `err.message` or a stream of chunks;
- which slugs already exist.

On four points a reader might expect a turn to behave otherwise than the code does. The model follows the code.
- A rejected request sets the placeholder's `error` but leaves `loading` true, so the spinner never stops. `ChatModel.FailedReply` and `ChatModel.ExchangeLoading` state this.
- A stream that ends without `[DONE]` also leaves `loading` true.
- "At most one message is loading" is not an invariant of the code, because nothing stops a second `sendMessage` while a reply streams. `ChatModel.ExchangeLoading` proves only what holds: a turn started with nothing loading leaves at most its own placeholder loading, and none once `[DONE]` has arrived.
- The stream handler stays registered after `[DONE]`: it returns from the current chunk only. The model reads every chunk the stream delivers, as the code does.

## Model

| member | source | states |
|---|---|---|
| Text.Split | src/chat-model.ts:148-150 | `split("\n")` yields at least one piece, and no piece contains the separator |
| Text.SplitPiece | src/chat-model.ts:148-150 | a piece without the separator, then the separator, splits off as the first piece |
| Text.SplitWhole | src/chat-model.ts:148-150 | a string without the separator splits into itself alone |
| Text.JoinSplit | src/chat-model.ts:148-150 | joining the pieces of a split with the separator gives back the string |
| Text.SplitJoin | src/chat-model.ts:148-150 | splitting the join of separator-free pieces gives back the pieces |
| Text.Join | src/chat-model.ts:106 | `parts.join(sep)`: no parts give `""`, one part gives itself, and otherwise the result starts with the first part and the separator |
| Text.IsBlank | src/chat-model.ts:151 | `line.trim() === ""`: every character is ECMAScript white space or a line terminator (`Text.IsWhitespace` lists both sets) |
| Text.DropBlank | src/chat-model.ts:151 | `filter(line => line.trim() !== "")` keeps exactly the lines that are not all whitespace, and never adds any |
| Text.DropBlankAppend | src/chat-model.ts:151 | the blank-line filter works line by line, keeping the order |
| Text.LowerChar | src/create.ts:124 | `toLowerCase` on ASCII: a capital becomes its lower-case letter, a character is a lower-case letter afterwards exactly when it was a letter, and ASCII stays ASCII |
| Frames.Lines | src/chat-model.ts:148-151 | every line of a chunk that the handler reads is non-blank and contains no newline |
| Frames.StripDataPrefix | src/chat-model.ts:153 | `replace(/^data: /, "")` removes the prefix when the line starts with it, and otherwise changes nothing |
| Frames.StripOnce | src/chat-model.ts:153 | the prefix is removed once only: a doubled prefix leaves one behind |
| Frames.NoSpaceNoStrip | src/chat-model.ts:153 | `data:` without the following space is not a prefix, so the line is kept whole |
| Frames.DeltaOf | src/chat-model.ts:162 | `content || ""`: a present content is the delta, and an absent one appends nothing |
| Frames.Classify | src/chat-model.ts:153-166 | a line is the end signal exactly when its stripped text is `[DONE]`, and is malformed exactly when it is not the end signal and does not decode. Otherwise it is a delta carrying the decoded frame's content |
| Frames.DoneLines | src/chat-model.ts:153-154 | `data: [DONE]` and a bare `[DONE]` both end the stream |
| Frames.FramedLines | src/chat-model.ts:147-151 | a chunk of frames, each followed by a blank line, is read back as exactly those frames, in order |
| Remember.MatchPrefix | src/chat-model.ts:174 | a match found at the start of the text satisfies the reference rule (opening tag, one or more characters other than `>`, closing tag, tags compared without case) and yields the text between the tags |
| Remember.MatchPrefixComplete | src/chat-model.ts:174 | every match of the reference rule at the start of the text is found, with its content and length |
| Remember.Extract | src/chat-model.ts:174-175 | every extracted memory text is non-empty and contains no `>` |
| Remember.NoMatchAt | src/chat-model.ts:174 | no match starts at a character other than `<` |
| Remember.ExtractPlain | src/chat-model.ts:174-175 | text without `<` yields no memories |
| Remember.ExtractTagged | src/chat-model.ts:174-181 | an annotation in any letter case, after plain text, yields its content first, and scanning resumes after its closing tag |
| Remember.ExtractTwo | src/chat-model.ts:174-181 | two annotations in running text, tags in any letter case, give two memory texts, in order |
| ChatModel.UserMessage | src/chat-model.ts:85-90 | the message `sendMessage` pushes has role `user`, the input as text, the given id and timestamp, and is neither loading nor in error |
| ChatModel.Placeholder | src/chat-model.ts:110-116 | the placeholder has role `assistant`, empty text, the given id and timestamp, is loading and has no error |
| ChatModel.DateClause | src/chat-model.ts:102 | the date clause ends with the formatted date, then `, at `, then the formatted time |
| ChatModel.SystemPrompt | src/chat-model.ts:95-107 | the system prompt starts `You are ` and ends with `.` |
| ChatModel.SystemPromptLayout | src/chat-model.ts:99-106 | the system prompt is the bot's name, its prompt, the date clause and the user's name, joined by `.` and a newline, with a final `.` |
| ChatModel.HasError | src/chat-model.ts:129 | `!!msg.error`: a message is in error only when its error is present and non-empty |
| ChatModel.Kept | src/chat-model.ts:128-129 | `filter(msg => !msg.error)` keeps exactly the messages without a non-empty error, and never adds any |
| ChatModel.KeptAppend | src/chat-model.ts:128-129 | the error filter works message by message, keeping the order |
| ChatModel.TurnOf | src/chat-model.ts:130-133 | `{role: msg.role, content: msg.text}`: the text becomes the content, a user message a user turn, an assistant message an assistant turn, and no message a system turn |
| ChatModel.Prompt | src/chat-model.ts:123-134 | the request has one system turn first, followed by one turn per kept message |
| ChatModel.PromptAppend | src/chat-model.ts:123-134 | a message appended to the conversation appends its turn to the request, unless it carries an error |
| ChatModel.PromptMembers | src/chat-model.ts:128-133 | every message without an error has its turn in the request, and every turn after the first comes from such a message |
| ChatModel.PromptEndsWithPlaceholder | src/chat-model.ts:110-134 | the placeholder is pushed before the request is built, so the request ends with an empty assistant turn |
| ChatModel.Without | src/chat-model.ts:187-189 | unsubscribing keeps exactly the other handlers, and never adds any |
| ChatModel.WithoutAbsent | src/chat-model.ts:187-189 | unsubscribing a handler that is not subscribed changes nothing |
| ChatModel.WithoutIdempotent | src/chat-model.ts:187-189 | unsubscribing twice is the same as unsubscribing once |
| ChatModel.WithoutAppend | src/chat-model.ts:187-189 | unsubscribing keeps the other handlers in order |
| ChatModel.SubscribeThenUnsubscribe | src/chat-model.ts:185-189 | subscribing and then calling the returned closure removes the handler, with every earlier subscription of it |
| ChatModel.Notifications | src/chat-model.ts:193 | `forEach` runs each subscriber once, in list order |
| ChatModel.Fanout | src/chat-model.ts:192-195 | `changed()` runs every subscriber, in list order, and then one save of the conversation under the slug, last |
| ChatModel.FanoutSkips | src/chat-model.ts:192-195 | a handler that is not subscribed is not run |
| ChatModel.NewMemories | src/chat-model.ts:176-181 | one memory per extracted content, with that text and the conversation's id |
| ChatModel.NewMemoriesAppend | src/chat-model.ts:175-181 | the memories are pushed one at a time, in match order |
| ChatModel.Step | src/chat-model.ts:153-166 | one line changes only the placeholder, keeps its id and role, and only adds memories and events |
| ChatModel.ReadLines | src/chat-model.ts:152-167 | the lines of a chunk change only the placeholder, and only add memories and events |
| ChatModel.ReadChunk | src/chat-model.ts:147-168 | one chunk changes only the placeholder, and only adds memories and events |
| ChatModel.ReadStream | src/chat-model.ts:147-168 | a whole stream changes only the placeholder, and only adds memories and events |
| ChatModel.ExpectedTail | src/chat-model.ts:160-166 | the reference view of the placeholder past a malformed line is that of the rest from a message carrying the parse error, and past a delta that of the rest from a message with the delta appended |
| ChatModel.ReadLinesMessage | src/chat-model.ts:152-166 | one chunk appends to the placeholder's text exactly the deltas before the first `[DONE]`, so the old text is a prefix of the new. `loading` becomes false exactly when a `[DONE]` is read. `error` becomes the parse error exactly when some line before it fails to decode |
| ChatModel.StepEvents | src/chat-model.ts:153-166 | a delta and `[DONE]` each run one notification round (every subscriber, then a save of the updated conversation), and a line that fails to decode notifies nobody |
| ChatModel.ReadLinesMemories | src/chat-model.ts:154-157 | memories are added only at `[DONE]`: one per annotation of the final text, after the existing ones |
| ChatModel.ReadLinesStopsAtDone | src/chat-model.ts:152-159 | lines after the first `[DONE]` of a chunk have no effect |
| ChatModel.Reply | src/chat-model.ts:109-170 | `go()` appends exactly one message and keeps the earlier ones, and only adds memories and events |
| ChatModel.Exchange | src/chat-model.ts:84-93 | `sendMessage` appends the user message and then the reply placeholder, keeping the earlier messages |
| ChatModel.ExchangeOpens | src/chat-model.ts:84-118 | the events open, in order: a notification for the user message, a notification for the placeholder, then the request built from both. The placeholder keeps its id and role to the end |
| ChatModel.FailedReply | src/chat-model.ts:141-144 | a rejected request sets the placeholder's error to the rejection message and leaves it loading with empty text. No memory is added. The events are the opening notification round, the request, then one more round of notifications whose save carries the error |
| ChatModel.ReadStreamPlaceholder | src/chat-model.ts:147-168 | over a stream the placeholder keeps its id, role and timestamp, and its text only grows. `loading` is cleared exactly when some chunk carries `[DONE]` |
| ChatModel.ExchangePlaceholder | src/chat-model.ts:110-159 | the turn's placeholder stops loading exactly when the stream delivers `[DONE]`; a rejected request leaves it loading |
| ChatModel.ExchangeLoading | src/chat-model.ts:110-159 | from a conversation with nothing loading, a turn leaves at most its placeholder loading, and nothing loading once `[DONE]` arrives. A rejected request, or a stream that closes without `[DONE]`, leaves the placeholder loading |
| ChatModel.FrameLines | src/chat-model.ts:153-166 | a `data: {…}` line is read as a delta or as malformed, according to its JSON |
| ChatModel.DoneLine | src/chat-model.ts:153-154 | `data: [DONE]` is a line of its own that ends the stream |
| ChatModel.TwoDeltasThenDone | src/chat-model.ts:152-159 | the reference view of two deltas then `[DONE]`: both texts in order, finished, no error |
| ChatModel.DeltaJunkDeltaDone | src/chat-model.ts:152-166 | the reference view of a delta, a malformed line, a delta and `[DONE]`: both texts, finished, with the parse error |
| ChatModel.StreamExample | src/chat-model.ts:147-168 | a chunk of two content frames and `[DONE]`, as the API sends them, gives the placeholder both deltas and stops it loading |
| ChatModel.GarbledStreamExample | src/chat-model.ts:160-166 | an undecodable frame between two good ones records the parse error, but both deltas still arrive |
| ChatSessions.ChatSession.constructor | src/chat-model.ts:28-47 | a new session takes the bot's slug, name and prompt, with a fresh id and empty messages, memories and subscribers |
| ChatSessions.ChatSession.Init | src/chat-model.ts:49-51 | `init()` sets the user's name from the configuration |
| ChatSessions.ChatSession.RestoreConvo | src/chat-model.ts:62-65 | the id and the messages are replaced by the saved conversation's |
| ChatSessions.ChatSession.RestoreMemories | src/chat-model.ts:67-69 | the memories are replaced by the saved ones |
| ChatSessions.ChatSession.Subscribe | src/chat-model.ts:185-186 | the handler joins the end of the subscriber list |
| ChatSessions.ChatSession.Unsubscribe | src/chat-model.ts:187-189 | the closure removes every occurrence of the handler, leaving the others in order |
| ChatSessions.ChatSession.Changed | src/chat-model.ts:192-195 | `changed()` runs every subscriber in order, then saves the current conversation under the slug |
| ChatSessions.ChatSession.HandleResponse | src/chat-model.ts:172-183 | one memory is pushed per annotation of the message's text, in order, after the existing ones |
| ChatSessions.ChatSession.OnLine | src/chat-model.ts:153-166 | one line of the handler has exactly the effect of `ChatModel.Step`, and reports whether it was `[DONE]` |
| ChatSessions.ChatSession.OnData | src/chat-model.ts:147-168 | the handler on one chunk has exactly the effect of `ChatModel.ReadChunk` on the messages, the memories and the log |
| ChatSessions.ChatSession.OnStream | src/chat-model.ts:147-168 | the handler stays registered and reads every chunk in turn, with exactly the effect of `ChatModel.ReadStream` |
| ChatSessions.ChatSession.Open | src/chat-model.ts:110-136 | the opening of `go()` pushes the placeholder, notifies, then sends the request built from every message, the placeholder included |
| ChatSessions.ChatSession.Go | src/chat-model.ts:109-170 | `go()` sends the request for the messages with the placeholder, and its effect on the session is exactly `ChatModel.Reply` |
| ChatSessions.ChatSession.SendMessage | src/chat-model.ts:84-93 | `sendMessage` sends the request for the messages with the user message and the placeholder, and its effect is exactly `ChatModel.Exchange` |
| Create.BuiltinPromptsWellFormed | src/create.ts:11-30 | the three built-in prompts have distinct ids, none of them `custom`, and every system text is longer than five characters |
| Create.Choices | src/create.ts:75-84 | the prompt-type menu is "Custom..." then every built-in, by title and id, in order |
| Create.Find | src/create.ts:88-89 | `find` yields the first built-in with the chosen id, or nothing exactly when no built-in has it |
| Create.DefaultSystem | src/create.ts:88-89 | `find(...)?.system ?? ""`: the default is empty exactly when no built-in has the chosen id, and is otherwise that built-in's system text |
| Create.NameIsValid | src/create.ts:42-44 | the name answer is accepted exactly when it is longer than one character |
| Create.SystemIsValid | src/create.ts:99-101 | the prompt answer is accepted exactly when it is longer than five characters |
| Create.FindDistinct | src/create.ts:11-30 | with distinct ids, looking up an entry's id finds that entry |
| Create.DefaultSystemOfChoices | src/create.ts:75-89 | "Custom..." offers an empty default prompt, and each built-in offers its own system text |
| Create.DefaultSystemAccepted | src/create.ts:88-101 | the offered default passes the prompt validator exactly when a built-in was chosen |
| Create.IsSlugFormat | src/create.ts:59 | `/^[a-z0-9\-]+$/` matches: at least one character, each a lower-case letter, a digit or a dash |
| Create.SlugChar | src/create.ts:124 | each character becomes a slug character, and is a dash exactly when its lower case is neither a letter nor a digit |
| Create.Slugify | src/create.ts:123-125 | `slugify` keeps the length, and its output has only `a-z`, `0-9` and `-` |
| Create.SlugifyCharwise | src/create.ts:123-125 | on ASCII input, capitals are lower-cased, lower-case letters and digits are kept, and every other character becomes `-` |
| Create.SlugifySlug | src/create.ts:124 | a string of slug characters is its own slug |
| Create.SlugifyIdempotent | src/create.ts:123-125 | slugifying twice is slugifying once |
| Create.ValidateSlug | src/create.ts:55-62 | a slug is accepted exactly when it is free and matches `^[a-z0-9-]+$`. A taken slug gets the "already exists" message, and a free slug that does not match gets the format message |
| Create.ShortMessageUnreachable | src/create.ts:59-61 | the "Must be longer" message is never given, since the pattern already requires a character |
| Create.DefaultSlugAccepted | src/create.ts:42-59 | the default slug of an accepted name always matches the pattern, so it is rejected only when taken |

## Left out

- The OpenAI client, the API key and the HTTP request are not modelled. The call's outcome is a parameter: a rejection with `err.message`, or the chunks of the stream. The request's `model` and `stream` options are not recorded.
- JSON parsing is not modelled. A `Decoder` parameter maps a frame's text to its `choices[0].delta.content`, or to nothing when `JSON.parse` or the property access throws.
- The regular-expression engine is not modelled, only the matching rule of the one pattern in `handleResponse`.
- `uuid()`, `new Date()` and `date-fns` formatting are parameters: a `Stamp` per record, and the formatted date and time strings.
- `saveConvo`'s file I/O is recorded as an event in the ghost log rather than performed. `config.ts` is not part of this model.
- The `Saved` event records the conversation handed to `saveConvo` at the call. The source passes the live `messages` array, and the file is written after an `await`, so it holds the conversation as it is when serialised, which can include changes made after the call.
- `searchMemories` and `saveMemories` have empty bodies in the source, and the optional `vector` of a memory is never set. None of the three is modelled.
- Subscribers are opaque handler identities. What a handler does is not modelled, including a handler that throws inside the stream's `try` (which the code would report as a parse error) or one that re-enters the session.
- Concurrency is not modelled. Overlapping turns, chunks interleaved with other calls, and a stream that errors mid-way are not represented. Each turn runs to the end of its stream before anything else happens.
- Aliasing is not modelled. `restoreConvo` shares the caller's array, and `msg` is the object inside `messages`. Both are values here, and the placeholder is reached by its index.
- Lengths count Unicode scalar values rather than UTF-16 code units. Decoding each chunk's bytes as UTF-8 is not modelled; a chunk is a string.
- `src/chat.tsx`, `src/cli.ts`, `src/setup.tsx` and the build configuration are not part of this model.
- `runCreate`'s prompting, `createBot` and its console output are not part of this model. Only its pure helpers are.
- ChatModel.StepEvents: the notifications are stated line by line; no lemma sums them over a whole chunk.
- Create.Slugify: non-ASCII input is folded with the ASCII rule only, so every non-ASCII character becomes `-`. JavaScript's `toLowerCase` can lengthen a string, or map a few non-ASCII characters (KELVIN SIGN) onto ASCII letters. Those cases are not modelled, and `Create.SlugifyCharwise` is stated for ASCII input.
- Create.ValidateSlug: `botExists` is replaced by membership in a set of existing slugs.
