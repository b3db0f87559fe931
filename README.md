# BrainCraft chat-to-diagram core, modelled in Dafny

BrainCraft is a single-page chat application. The user asks an assistant for a
diagram; the backend's `DiagramAgent` sends the request to a language model,
looks for a fenced mermaid block in the reply, and returns the explanation
together with the diagram's code and kind. The page keeps the conversation,
a loading flag and the current diagram; a badge polls the backend's health;
a small logger gates its output on the build mode.

This project models the deterministic part of that system. Every call into
something outside it (the language-model agent, HTTP, the clock) becomes an
argument:

- `wrappers.dfy`: `Option`.
- `text.dfy` (module `Text`): the string operations the core uses. These are
  substring search, prefix tests and Python's `str.strip()` versus
  JavaScript's `trim()`, each with its own whitespace set. The module also
  has ASCII case mapping and Python's `str.replace(old, "")`.
- `mermaid_fence.dfy` (module `MermaidFence`): the pattern
  `` ```mermaid\n([\s\S]*?)\n``` `` that both the backend and the page search
  for. `IsSearchMatch` states the leftmost-start, shortest-body match a regex
  search reports. `FindFence` computes it: the first opener, then the first
  closer that starts after the opener's newline.
- `ai_service.dfy` (module `AiService`): `_extract_mermaid_code` and the
  shaping of the `/chat` answer. The agent's output text, or the text of the
  exception it raised, is the input.
- `page_controller.dfy` (module `PageController`): the page's state as the
  class `Home`. Its send handler is split into the steps of its try, catch
  and finally blocks.
- `chat_interface.dfy` (module `ChatInterface`): the chat form's input, its
  submit guard and its disabled controls.
- `connection_status.dfy` (module `ConnectionStatus`): the three-state
  indicator, its check, and its colour and label.
- `logger.dfy` (module `Logging`): the level-gated logger. The console is a
  sequence of calls kept by the logger.

Three facts about the code that a reader might not expect:
- The chat form rejects blank input (`frontend/components/ChatInterface.tsx:24`).
  The page's send handler appends whatever it is given.
- The page takes the current diagram from a regex over the answer's `response`
  text (`frontend/pages/index.tsx:69-72`), not from the answer's `diagram`
  field. Since the backend removes the block from `response`, an ordinary
  one-block reply leaves the page's diagram unchanged.
- A chat message is its id, content, sender and timestamp; it carries no
  diagram code.

Facts the proofs brought out:
- The match always starts at the first opener in the text (`FindFence`). An
  opener with no closer after it means that no later opener has one either.
- The explanation is not always free of the block. `str.replace` removes the
  copies a left-to-right scan finds, but removing one copy can join the text around it into a new copy.
  `ExplanationMayRepeatBlock` shows a reply whose explanation is exactly the
  block. With a single copy, the explanation is the text before the block
  joined to the text after it, stripped (`ExplanationJoinsSurroundingText`).
- The five diagram keywords start with five different letters. So at most one
  applies, and the order of the `elif` tests does not matter
  (`DetectDiagramKind`).
- Python's `lower()` is modelled as ASCII lowering. For the phrase
  `rate limit` the two agree. Only ASCII capitals lower to the phrase's
  letters. The one other character that lowers to an `i` (U+0130) adds a
  combining dot after it, and no `i` of the phrase is followed by such a dot.

## Model

| member | source | states |
|---|---|---|
| Text.FirstOccurrence | backend/src/services/ai_service.py:102 | the result is the smallest index at or after the start where the pattern occurs; no occurrence lies between the start and the result, or after the start when there is none |
| Text.Trim | backend/src/services/ai_service.py:108 | the stripped text is empty exactly when every character is whitespace; otherwise it starts and ends with a non-whitespace character |
| Text.TrimIsSlice | backend/src/services/ai_service.py:108 | stripping keeps one contiguous slice of the input and drops only whitespace in front of it and after it |
| Text.TrimIdempotent | frontend/components/ChatInterface.tsx:24-25 | trimming an already trimmed text changes nothing |
| Text.LowerKeepsOccurrence | backend/src/services/ai_service.py:223 | lower-casing a text lower-cases each occurrence in place, so a phrase in any letter case is found in the lowered text |
| Text.RemoveFromKeeps | backend/src/services/ai_service.py:127 | `replace` keeps every character in front of the next occurrence unchanged |
| Text.ReplaceAllAbsent | backend/src/services/ai_service.py:127 | removing a text that does not occur returns the input unchanged |
| Text.RemoveFromSkips | backend/src/services/ai_service.py:127 | an occurrence where the scan stands is removed whole and the scan resumes after it |
| MermaidFence.FindFence | backend/src/services/ai_service.py:102-105 | finds nothing exactly when the text has no opener followed by a closer that starts after the opener's newline; otherwise returns the leftmost match with the shortest body |
| MermaidFence.SearchMatchUnique | backend/src/services/ai_service.py:102 | the leftmost-shortest match is unique |
| AiService.DetectDiagramKind | backend/src/services/ai_service.py:111-122 | the kind is sequence, class, er, gantt or pie exactly when the code starts with that kind's keyword; any other code is a flowchart |
| AiService.ExtractMermaidCode | backend/src/services/ai_service.py:97-134 | returns nothing exactly when the text holds no block; otherwise, for the block the search reports: the stripped body, the kind it names, and the text with every copy of the block found by a left-to-right scan removed (overlapping copies once), stripped |
| AiService.ExplanationJoinsSurroundingText | backend/src/services/ai_service.py:126-127 | when the block occurs once, the explanation is the text before it joined to the text after it, stripped |
| AiService.ExplanationMayRepeatBlock | backend/src/services/ai_service.py:127 | for a reply with two copies of a block, removing the copies splices a new one, and the explanation is the whole block |
| AiService.ShapeOutput | backend/src/services/ai_service.py:199-216 | the status is success; with a block, the response is the explanation and the diagram is the block's code and kind; without one, there is no diagram and the response is the agent's output verbatim |
| AiService.ClassifyError | backend/src/services/ai_service.py:220-224 | a message naming `MISTRAL_API_KEY` maps to the API-key text, even if it also mentions a rate limit; otherwise one containing `rate limit` in any case maps to the retry text; otherwise the message is kept |
| AiService.ShapeError | backend/src/services/ai_service.py:226-229 | the error answer is `Error: ` followed by the classified message, with status error and no diagram |
| AiService.Chat | backend/src/services/ai_service.py:188-229 | the status is error exactly when the agent raised; output gets status success and a diagram exactly when it holds a block, and then the response is the explanation and the diagram the block's code and kind, for the block the search reports; output without a block comes back verbatim; an exception gives `Error: ` followed by the classified message and no diagram |
| AiService.RateLimitInAnyCase | backend/src/services/ai_service.py:223 | any capitalisation of `rate limit` in a message without the key marker yields the retry text |
| PageController.CaptureMermaid | frontend/pages/index.tsx:69-70 | the capture fails exactly when the reply holds no block; otherwise it is the body of the block the search reports, not stripped |
| PageController.NextDiagram | frontend/pages/index.tsx:69-72 | the diagram is unchanged when the reply holds no block, and otherwise becomes that block's body |
| PageController.ReplyMessage | frontend/pages/index.tsx:60-83 | the assistant turn carries the reply text, or the fixed apology when the call threw; its id is the clock reading plus one |
| PageController.CaptureAgreesWithBackend | frontend/pages/index.tsx:69-72 | the page's capture succeeds exactly when the backend's extraction does, and the backend's code is the page's capture stripped |
| PageController.Home.constructor | frontend/pages/index.tsx:16-18 | the page starts with no messages, an empty diagram and loading off |
| PageController.Home.ShowWelcome | frontend/pages/index.tsx:90-98 | the mount effect replaces the list with the single welcome message, id 0, from the assistant |
| PageController.Home.BeginSend | frontend/pages/index.tsx:43-52 | loading is on and the user's turn, with exactly the given content, is appended to the old list |
| PageController.Home.ReceiveReply | frontend/pages/index.tsx:60-72 | the reply turn is appended to the old list; the diagram follows `NextDiagram`; loading is untouched |
| PageController.Home.RecordFailure | frontend/pages/index.tsx:74-83 | the apology turn is appended to the old list; the diagram and loading are untouched |
| PageController.Home.Settle | frontend/pages/index.tsx:84-86 | loading is off; the list and diagram are untouched |
| PageController.Home.HandleSendMessage | frontend/pages/index.tsx:41-87 | the list is the old list plus the user turn and exactly one assistant turn; the diagram changes only to a block body from a successful reply; loading ends off on both paths |
| ChatInterface.ControlsFor | frontend/components/ChatInterface.tsx:62-69 | the field is disabled exactly while loading; the button is disabled exactly while loading or when the input is all whitespace |
| ChatInterface.EnabledButtonSends | frontend/components/ChatInterface.tsx:62 | while the button is enabled the trimmed input is non-empty, so submitting sends |
| ChatInterface.ChatForm.constructor | frontend/components/ChatInterface.tsx:20 | the input starts empty |
| ChatInterface.ChatForm.Change | frontend/components/ChatInterface.tsx:56 | the input becomes the typed value |
| ChatInterface.ChatForm.HandleSubmit | frontend/components/ChatInterface.tsx:22-28 | a blank input sends nothing and is left as it is; otherwise the trimmed input is sent once and the input is cleared; a sent text is never blank and has nothing left to trim |
| ConnectionStatus.Settled | frontend/components/ConnectionStatus.tsx:12-16 | a finished check is never checking; it is connected exactly when the health call answered true |
| ConnectionStatus.StatusColor | frontend/components/ConnectionStatus.tsx:30-39 | green exactly when connected, red exactly when disconnected, yellow otherwise |
| ConnectionStatus.StatusText | frontend/components/ConnectionStatus.tsx:41-50 | the label is `Backend Connected` exactly when connected, `Backend Disconnected` exactly when disconnected, and `Checking Connection` exactly while checking; the lookup table is the definition |
| ConnectionStatus.StatusTextDistinguishes | frontend/components/ConnectionStatus.tsx:41-50 | the three labels are different, so the label determines the status |
| ConnectionStatus.SettledShowsVerdict | frontend/components/ConnectionStatus.tsx:30-50 | after any check the badge shows neither the checking colour nor the checking label |
| ConnectionStatus.Indicator.constructor | frontend/components/ConnectionStatus.tsx:6-7 | the indicator starts checking, stamped with the render time |
| ConnectionStatus.Indicator.BeginCheck | frontend/components/ConnectionStatus.tsx:11 | the status is checking before the health call |
| ConnectionStatus.Indicator.FinishCheck | frontend/components/ConnectionStatus.tsx:12-17 | the status is the verdict, disconnected when the call threw, and the stamp is the current time |
| ConnectionStatus.Indicator.CheckConnection | frontend/components/ConnectionStatus.tsx:9-18 | a check leaves a verdict, never checking, and always re-stamps |
| Logging.Styles | frontend/utils/logger.ts:13-18 | every level's styles start with a `color: #` entry, and only errors add a second, `font-weight: bold`; the colours themselves are the lookup table of the definition |
| Logging.LevelTags | frontend/utils/logger.ts:27 | the upper-cased level names are DEBUG, INFO, WARN and ERROR |
| Logging.FormatMessage | frontend/utils/logger.ts:25-29 | the styles returned are those of the level |
| Logging.PrefixShowsLevel | frontend/utils/logger.ts:27 | the character right after `%c[<timestamp>] [` is the first letter of the upper-cased level |
| Logging.TagsDiffer | frontend/utils/logger.ts:27 | different levels have upper-cased names with different first letters |
| Logging.FormatMessageDetermines | frontend/utils/logger.ts:25-29 | for a fixed timestamp and context the formatted line determines the level and the message |
| Logging.ErrorDetail | frontend/utils/logger.ts:76-82 | without an error object nothing is added; with one, `\nError:` and then the stack, or the message when the stack is missing or empty |
| Logging.LogCalls | frontend/utils/logger.ts:31-62 | an error prints exactly one console.error line, after a group and before its end, in every mode; other levels print one line on their own console function in development and nothing otherwise |
| Logging.Logger.constructor | frontend/utils/logger.ts:20-23 | development mode is fixed at construction, on exactly when `NODE_ENV` is `development`; the console is empty |
| Logging.Logger.Log | frontend/utils/logger.ts:31-62 | the console grows by exactly the calls of `LogCalls` |
| Logging.Logger.Debug | frontend/utils/logger.ts:64-66 | the console grows by the debug-level calls of `LogCalls` |
| Logging.Logger.Info | frontend/utils/logger.ts:68-70 | the console grows by the info-level calls of `LogCalls` |
| Logging.Logger.Warn | frontend/utils/logger.ts:72-74 | the console grows by the warn-level calls of `LogCalls` |
| Logging.Logger.Error | frontend/utils/logger.ts:76-82 | the console grows by the error-level calls of `LogCalls`, with the error detail in front of the other arguments |
| Logging.Logger.Group | frontend/utils/logger.ts:84-88 | a group is opened in development only |
| Logging.Logger.GroupEnd | frontend/utils/logger.ts:90-94 | a group is closed in development only |

## Left out

- The language-model plumbing is not modelled: `DiagramAgent.__init__`,
  `_generate_mermaid_diagram`, `_refine_mermaid_diagram` and the agent
  executor's call. They are calls into LangChain and Mistral. `Chat` takes
  the agent's output text, or the text of the exception it raised, as an
  argument.
- The backend's `logger.debug`/`info`/`error` calls are diagnostics only and
  are not modelled.
- src/services/ai_service.py:119-129 and src/services/haystack_agent.py:151-161
  repeat the same error classification, so `AiService.ClassifyError` covers
  them. The rest of those files, src/services/haystack_service.py and
  backend/src/services/audio_service.py are calls into foreign libraries
  (retrieval over float embeddings, speech services).
- The routing, application setup and configuration files are not modelled:
  backend/src/api/routes.py, backend/src/main.py, src/api/routes.py,
  src/main.py, backend/src/config.py and src/utils/logger.py.
- frontend/services/api.ts is a wrapper over an HTTP client. The model keeps
  only what the callers see of it: the outcome of `sendMessage`
  (`SendOutcome`) and of the health check (`HealthOutcome`).
- index.tsx's own connection check (lines 29-39) is not modelled. It sets an
  `isConnected` flag whose only use is a property that the indicator
  component ignores.
- Rendering is not modelled: Mermaid.tsx, DiagramPanel.tsx, ChatMessage.tsx,
  _app.tsx and the JSX of the modelled components.
- Clock and timers are arguments. This covers `Date.now()` ids, `new Date()`
  timestamps, `toISOString()` and the start of each check. Message ids are
  kept as the clock readings, where the page renders them as decimal strings.
  The 30-second polling interval is not modelled.
- Each async handler is one sequential step that takes its outcome as an
  argument. Overlapping sends or checks, and React's batching of state
  updates, are not modelled.
- The logger's extra arguments (`...args: any[]`) are modelled as strings.
  The console is a sequence kept in each logger, where the source writes to
  one global console. The `createLogger` factory (logger.ts:97) only calls
  the constructor.
- Logging.FormatMessage: its contract fixes only the styles. The layout of the
  line is the function's definition, and `FormatMessageDetermines` proves that
  no information is lost in it.
- Python's `str.lower()` is modelled as ASCII lowering. For the one phrase
  the source looks for, it agrees with full Unicode lowering (see above).
