# Chat session state machine of the INGRES groundwater assistant, in Dafny

This project models the core of the assistant's web front-end. That core is the chat page's
session store and send controller. It works over the message and session data model, and the
login form's credential check sits beside it.

The chat page holds three pieces of state:

- an ordered collection of sessions, newest first;
- an active-session pointer;
- one global "awaiting reply" flag.

Here that state is the immutable `Chat.State`, and every handler of the page is a pure
transition over it:

- start-up state;
- active-session lookup with its fallback to the first session;
- `updateActiveSession`;
- sending, split into `SendStart` and `SendResolve`;
- new chat;
- select session;
- change language.

`SendStart` runs up to the gateway call and returns the request it issues, as a `Pending`
record. The record holds the active id captured at send time, the text and the language.
`SendResolve` folds the gateway's `Success(content) | Failure` outcome back into the state.
Because the two are separate, overlapping sends and replies that arrive after the user switched
sessions can be stated (module `ChatProps`).

The model keeps the following behaviours of the page's code, which a reader might not expect:

- Line 60 tests only the log's length. Any log of exactly two messages is replaced by the new
  user message, including a finished user/bot exchange, not just the welcome script
  (`ChatProps.FinishedExchangeIsReplaced`).
- Line 108 moves the active pointer to any id, known or not. An unknown id displays the first
  session. Sends and language changes then reach no session, but the send still raises the flag
  and calls the gateway (`ChatProps.DanglingActiveIdIsSilent`).
- Line 61 rewrites the title whenever it still reads "New Chat", not only on the first message
  (`ChatProps.SentinelTitleRewrittenAgain`).
- Ids are `prefix + Date.now()`. Two sessions created in the same millisecond share an id, and
  updates then reach both (`ChatProps.SameMillisecondSharesId`).

Clock readings are explicit `now: nat` parameters. The gateway is the `Reply` value passed to
`SendResolve`.

## Model

| member | source | states |
|---|---|---|
| Types.ParseRole | types.ts:1-4 | only "user" and "bot" are role values, and each reads back as the role carrying it |
| Types.RoleRoundTrip | types.ts:1-4 | the role enumeration has exactly the two members USER and BOT, each recovered from its string value |
| Types.ParseChartType | types.ts:8 | a chart kind is exactly one of "bar", "pie", "line" |
| Types.ChartTypeRoundTrip | types.ts:8 | each chart kind is recovered from its literal |
| Types.ContentTagDiscriminates | types.ts:6-25 | content is text (no tag), a chart (tag "chart") or an image (tag "image"), and the tag tells the three apart |
| JsString.Trim | ChatPage.tsx:50 | `text.trim()` is the slice of the text with only white space before and after it, empty exactly when every character is ECMAScript white space or a line terminator, and a non-empty result starts and ends with another character |
| JsString.Prefix | ChatPage.tsx:61 | `substring(0, n)` keeps the first n characters, or the whole string when it is shorter |
| JsString.IsBlank | ChatPage.tsx:50 | `!text.trim()` holds exactly when every character of the text is white space or a line terminator |
| JsString.IdFor | ChatPage.tsx:53 | an id built from a timestamp is the prefix followed by the timestamp's decimal rendering |
| JsString.DecimalRoundTrip | ChatPage.tsx:53 | the decimal rendering of a timestamp reads back as that timestamp |
| JsString.IdForInjective | ChatPage.tsx:98 | ids built from the same prefix are equal exactly when built at the same millisecond |
| Chat.FreshSession | ChatPage.tsx:97-102 | a session built at `now` (start-up or new chat) has id `session-<now>`, title "New Chat", the welcome script and language "English" |
| Chat.InitialState | ChatPage.tsx:9-36 | the page starts with one session with id `session-<load time>`, titled "New Chat", in English, holding exactly the two bot welcome messages `init-1` and `init-2`, active, and not awaiting |
| Chat.FindIndex | ChatPage.tsx:39 | finds the first session with the id, or reports that none has it |
| Chat.ActiveSession | ChatPage.tsx:39 | the displayed session is the first with the active id, else the first session, and is absent only for an empty collection |
| Chat.UpdateWhere | ChatPage.tsx:42-46 | the map keeps length and order, rewrites exactly the sessions with the id, and keeps every other one |
| Chat.UpdateActiveSession | ChatPage.tsx:41-47 | only sessions with the active id change; pointer and flag are kept; with no match the state is unchanged |
| Chat.NextLog | ChatPage.tsx:60 | a two-message log, whatever its content, becomes the user message alone; any other log keeps its messages as a prefix and gains the user message last |
| Chat.TruncatedTitle | ChatPage.tsx:61 | a text of at most 30 characters is the title itself; a longer one gives its first 30 characters followed by "..." |
| Chat.UserMessage | ChatPage.tsx:52-56 | the user message of a send is a USER message carrying the untrimmed text under the id `user-<now>` |
| Chat.WithUserMessage | ChatPage.tsx:58-62 | the send updater keeps id and language, applies the log rule, and retitles from the untrimmed text only a "New Chat" session |
| Chat.SendStart | ChatPage.tsx:49-64 | blank text is a no-op with no request; otherwise only the active session changes, the flag is raised, and the request captures the active id, the text and the displayed session's language |
| Chat.BotMessage | ChatPage.tsx:69-86 | a reply becomes a bot message carrying the gateway content, or exactly the apology text on failure |
| Chat.SendResolve | ChatPage.tsx:66-94 | exactly one bot message is appended to the sessions with the id captured at send time, nothing else changes, and the flag is cleared |
| Chat.NewChat | ChatPage.tsx:96-105 | a "New Chat" English session with the welcome script is prepended and made active; the old sessions follow in order |
| Chat.SelectSession | ChatPage.tsx:107-109 | the pointer is set to the id unconditionally; a known id is displayed, an unknown one falls back to the first session |
| Chat.ChangeLanguage | ChatPage.tsx:111-113 | only the language field of the active session changes; every other field and session is kept |
| ChatProps.StepKeepsIds | ChatPage.tsx:41-113 | no transition removes or renames a session; new ones only appear in front |
| ChatProps.StepPreservesWellFormed | ChatPage.tsx:58-105 | every transition keeps the collection non-empty and every log non-empty |
| ChatProps.RunPreservesWellFormed | ChatPage.tsx:34-39 | handling any sequence of events leaves the collection non-empty with its old ids at the end, every log non-empty, and the active session resolving |
| ChatProps.InitialWellFormed | ChatPage.tsx:9-35 | the start-up state is well formed |
| ChatProps.StepLogsOnlyGrow | ChatPage.tsx:58-103 | across any event each log only grows at the end; a two-message log can become one message only on a send, and every other kind of event keeps each old log as a prefix |
| ChatProps.SendLogsOnlyGrow | ChatPage.tsx:58-62 | a send leaves every log a prefix of the new one, except a two-message log replaced by one message |
| ChatProps.ResolveLogsOnlyGrow | ChatPage.tsx:75-90 | a reply only extends logs at the end |
| ChatProps.NewChatLogsUnchanged | ChatPage.tsx:103 | a new chat leaves every old log as it was, one position further down |
| ChatProps.BlankSendIsSilent | ChatPage.tsx:50 | a send of white space only leaves sessions, pointer and flag as they were and issues no request |
| ChatProps.BlankExamples | ChatPage.tsx:50 | "" and "   " are blank, " a " is not |
| ChatProps.VisibleFirstCharIsNotBlank | ChatPage.tsx:50 | a text starting with a non-white-space character is not blank, so line 50's trim test does not return on it |
| ChatProps.TitleExamples | ChatPage.tsx:61 | forty a's give thirty a's and "...", and "short" gives "short" |
| ChatProps.SentinelTitleRewrittenAgain | ChatPage.tsx:61 | a first message "New Chat" keeps the sentinel title, so the next message retitles the session |
| ChatProps.FinishedExchangeIsReplaced | ChatPage.tsx:60-77 | after one question and its answer, the next send discards both |
| ChatProps.DanglingActiveIdIsSilent | ChatPage.tsx:39-113 | with an unknown active id, the first session is displayed and its language sent, but no session gets the message, the reply or a language change |
| ChatProps.ReplyIgnoresActivePointer | ChatPage.tsx:75-94 | where a reply lands does not depend on the pointer at reply time |
| ChatProps.ReplyAfterNewChat | ChatPage.tsx:66-105 | when the new chat's id differs from the sending session's, a reply after a new chat leaves the new chat untouched, appends the bot message to every session with the captured id (one place further down), and keeps every other session |
| ChatProps.ReplyLandsInNewChatOnIdCollision | ChatPage.tsx:94-98 | when the new chat is opened in the same millisecond the sending session was created, the reply lands in the new chat too |
| ChatProps.OverlappingSendsClearFlagEarly | ChatPage.tsx:64-93 | with two sends in flight, the first reply clears the single flag |
| ChatProps.LanguageReachesGateway | ChatPage.tsx:67-113 | when the active id names a session, the next send after a language change carries the new language |
| ChatProps.SameMillisecondSharesId | ChatPage.tsx:96-113 | two chats opened in the same millisecond share an id and a language change rewrites both |
| ChatProps.DistinctMillisecondsDistinctIds | ChatPage.tsx:98 | chats opened at different milliseconds get different ids |
| ChatProps.GroundwaterExchange | ChatPage.tsx:49-94 | on the start-up session a question replaces the welcome script, becomes the title and goes out in English; afterwards the log is exactly the question followed by the answer (or the apology), and the flag is cleared |
| Login.HandleSubmit | LoginPage.tsx:13-26 | an empty field gives the "both" message; a password under 6 characters gives the length message; otherwise login gets exactly the entered values |
| Login.LogInIffAcceptable | LoginPage.tsx:15-25 | login happens exactly for a non-empty username with a password of at least 6 characters, and exactly then the shown error is empty |
| Login.ShownError | LoginPage.tsx:15-25 | after a submit the shown error is the rejection message, or empty after a login |
| Login.SubmitExamples | LoginPage.tsx:15-25 | an empty password gets the "both" message, 5 characters are rejected, 6 accepted, and white space is not trimmed |
| Login.LogInPassesAppGuard | App.tsx:10-16 | whatever the form logs in with passes the application's non-empty guard |

## Left out

- Rendering: the sidebar, header, chat window and input components, the sidebar toggle and all styling are not modelled.
- `console.error` is a logging side effect with no effect on state, so it is not modelled.
- The gateway call is a remote service whose code is not part of this model. It is the `Reply` outcome passed to `SendResolve`, chosen freely by the caller.
- React's state batching, closure capture and re-rendering are replaced by explicit state passing. The closure's captured active id is the `sessionId` of the `Pending` record.
- Async interleaving beyond several pending records in one trace is not analysed.
- `Date.now()` is an explicit `now: nat` parameter. Negative and non-integral clock values are not modelled.
- JavaScript string lengths count UTF-16 code units. Here a string is a sequence of Unicode scalar values. Every length test therefore differs from the page's on text outside the Basic Multilingual Plane, where one character is two code units.
- Login.HandleSubmit: counts password length in characters, not UTF-16 code units. So three emoji (JavaScript length 6) give `Error(TooShort)` here, while the form accepts them.
- Chat.TruncatedTitle: counts in characters, not UTF-16 code units. So twenty emoji (JavaScript length 40) are kept whole here, while the page cuts them to 30 code units plus "...". A title cut in the middle of a surrogate pair is not represented.
- Chart data rows (`any[]`) are opaque `Datum` values. Their fields are never read by the core.
- App.tsx's login toggle, timer and fade are timing and presentation. Only its non-empty guard appears, in `Login.LogInPassesAppGuard`.
- The space-separator set used for trimming is the Unicode one current when the model was written; later Unicode versions may add code points.
