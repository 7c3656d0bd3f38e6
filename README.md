# AWS sales agent: verified model of the conversation engine

This project is a Dafny model of the AWS sales agent. The agent is a chat
assistant that greets a visitor, collects their name and email, answers
product questions from a vector-searched catalogue, and schedules demos. The
model covers the backend's conversation turn engine and the few deterministic
helpers of the browser client. Each source file becomes one module:

- `nodes.dfy` (`Nodes`) is the fixed graph of seven conversation nodes. It has
  the candidate successors, the `consumeNodeResponse` flag and the handler of
  each node, plus the single-pass `${key}` prompt substitution.
- `ai_service.dfy` (`AIService`) holds the analyzer's fallback when the
  completion provider fails. This includes the email-or-name extractor, a
  leftmost, backtracking model of its regular expression. It also holds the
  rewrapping of handler failures into fixed apologies.
- `conversation.dfy` (`Conversation`) is one turn:
  1. look up the node;
  2. analyse the input;
  3. fold the analysis into the session;
  4. run the new node's handler;
  5. choose the outgoing message;
  6. persist the user message before the AI message, and upsert the customer
     once a name and an email are known.
- `sockets.dfy` (`Sockets`) is the registry of live sessions and the ordered
  log of events emitted to each socket.
- `demo_service.dfy` (`DemoService`) checks the tool call, writes a demo
  event, makes an update-only customer write, and returns the confirmation.
- `product_service.dfy` (`ProductService`) fails when the search finds nothing,
  renders the hits into one context block, and rejects an empty answer.
- `stores.dfy` (`Stores`) models the Mongo collections: an append-only message
  log, an append-only event log, and a customer map with upsert and update-only
  writes. Each store can be unreachable, and then every write fails and changes
  nothing.
- `conversation_flow.dfy` (`ConversationFlow`) is the browser's linear flow
  machine:
  - the validators;
  - `processNodeResponse`, which updates a shared `customerData` object in place;
  - the reply parser;
  - the next-node rule.
- `fallback_responses.dfy` (`FallbackResponses`) is the table of canned replies.
- `session_storage.dfy` (`SessionStorage`) is the browser's saved session: one
  local-storage key, merged on save, read back with a default.
- `text.dfy`, `wrappers.dfy` and `types.dfy` hold the ECMAScript string
  operations used (`trim`, `\s`, `includes`, `join`, `toLowerCase`, UTF-16
  `length`), `Option`/`Result`, and the session record.

The large-language-model provider, the vector search and the database are not
modelled as code. They appear as values the caller supplies, in the
`Conversation.Oracles` record and as method parameters. Each store has an
`online` flag that decides whether its writes succeed. The configured name of
the demo event is a constructor parameter of the conversation manager.

Where the design text and the code differ, the model follows the code:

- **A failed save hides the reply.** The design says a failed save does not
  block the reply. In the code, `handleMessage` waits for both saves. When
  either fails, the socket gets only the generic error event, and the session
  keeps its previous state (`Conversation.HandleTurn`,
  `Sockets.WebSocketManager.HandleUserMessage`).
- **Some turns send no reply.** The design says every turn produces a reply.
  In the code, a provider answer without a `suggestedResponse`, at a node
  without a handler, gives the turn no message. The AI message then fails the
  schema's `required` check, and the turn ends in the error event. So a turn
  that succeeds always carries a non-empty message (`Conversation.HandleTurn`).
- **An unknown node can happen.** The design says "invalid node" should never
  happen. In the code it does: at `end_conversation`, a failed analysis has no
  first candidate, so the session's node becomes `undefined`. The next turn
  then fails with `Invalid node` (`Conversation.StuckAfterEnd`).

## Model

| member | source | states |
|---|---|---|
| Nodes.NoPlaceholderUnchanged | sales-agent-backend/src/services/NodeService.ts:21-31 | a template without any `${\w+}` placeholder is returned unchanged, whatever the context |
| Nodes.EmptyContextUnchanged | sales-agent-backend/src/services/NodeService.ts:23-26 | under an empty context every template is returned unchanged |
| Nodes.SubstitutePlaceholder | sales-agent-backend/src/services/NodeService.ts:23-26 | a leading `${key}` becomes `context[key]` when that value is non-empty and stays verbatim otherwise; the rest is substituted independently |
| Nodes.SinglePassExample | sales-agent-backend/src/services/NodeService.ts:23-26 | an illustration of the single pass that `SubstitutePlaceholder` states in general: `${a}` with `a = "${b}"` yields the literal `${b}` |
| Nodes.PlaceholderLength | sales-agent-backend/src/services/NodeService.ts:24 | a placeholder is recognised at the head of a string exactly when `${`, one or more word characters and `}` stand there |
| Nodes.LookupRegistered | sales-agent-backend/src/services/NodeService.ts:79-190 | exactly the seven registered ids find a node, and each node is stored under its own id |
| Nodes.GraphClosed | sales-agent-backend/src/services/NodeService.ts:79-183 | every candidate successor of every node is a registered node |
| Nodes.OnlyEndIsTerminal | sales-agent-backend/src/services/NodeService.ts:174-182 | `end_conversation` is the only node with no candidate successors |
| Nodes.HandlerTable | sales-agent-backend/src/services/NodeService.ts:138-172 | only the Q&A node (with `consumeNodeResponse`) and the demo node (without it) have handlers |
| Nodes.NodeService.constructor | sales-agent-backend/src/services/NodeService.ts:76-186 | the seven `set` calls build exactly the node table |
| Nodes.NodeService.GetNode | sales-agent-backend/src/services/NodeService.ts:188-190 | finds a node exactly for a registered id, and that node carries the id |
| AIService.EmailFrom | sales-agent-backend/src/services/AIService.ts:20-21 | the returned match is the leftmost position where the pattern matches, and none is returned only when it matches nowhere |
| AIService.LastTld | sales-agent-backend/src/services/AIService.ts:20 | the greedy domain part backs off to the last dot followed by two letters, no later such dot exists, and none is found when there is none |
| AIService.MatchAtSound | sales-agent-backend/src/services/AIService.ts:20 | what the pattern matches from a position is an email-shaped `local@domain.tld` slice |
| AIService.MatchAtComplete | sales-agent-backend/src/services/AIService.ts:20 | wherever an email-shaped slice starts, the pattern matches there |
| AIService.MatchAtLongest | sales-agent-backend/src/services/AIService.ts:20 | the match from a position reaches at least as far as any email-shaped slice starting there, because the domain run backs off only to the last usable dot |
| AIService.FirstEmailCorrect | sales-agent-backend/src/services/AIService.ts:20-21 | an email is found exactly when the message has an email-shaped slice; it is email-shaped, no such slice starts earlier, and none starting at the same index is longer, which fixes the value `match` returns |
| AIService.ExtractedFields | sales-agent-backend/src/services/AIService.ts:16-30 | the extractor yields exactly `{email}` when an email-shaped slice exists, holding the leftmost and then longest one, exactly `{name: trimmed message}` for other non-blank messages, nothing for blank ones, never both keys |
| AIService.FallbackNeverStalls | sales-agent-backend/src/services/AIService.ts:56-68 | on any provider error the analysis picks the first candidate (none for an empty list), has confidence 0.5, the extracted fields and a non-empty apology |
| AIService.ProviderAnswerPassedThrough | sales-agent-backend/src/services/AIService.ts:46-55 | a provider answer is returned as it is |
| AIService.RewrapDemoError | sales-agent-backend/src/services/AIService.ts:77-89 | the demo handler either returns its value or fails with the fixed demo apology |
| AIService.RewrapProductError | sales-agent-backend/src/services/AIService.ts:97-109 | the product handler either returns its value or fails with the fixed product apology |
| Conversation.UpdateSessionWithAnalysis | sales-agent-backend/src/services/ConversationManager.ts:47-69 | the id is kept, extracted fields override the context and no key is lost, the node becomes the analyzer's choice unchecked, and the transcript gains `User: input` and `AI: suggestion-or-empty` after the unchanged earlier lines |
| Conversation.SelectMessage | sales-agent-backend/src/services/ConversationManager.ts:162-180 | the suggestion when the new node has no handler; the fixed apology when the handler fails; the handler's result on a consuming node; otherwise the suggestion if non-empty, else the handler's result |
| Conversation.HandlerOutcome | sales-agent-backend/src/services/ConversationManager.ts:71-109 | the product handler's result is the rewrapped product answer; the demo handler confirms exactly when its checks pass and both writes succeed; failures are only the two fixed apologies |
| Conversation.ProcessTurn | sales-agent-backend/src/services/ConversationManager.ts:133-186 | a turn fails, with `Invalid node`, exactly when the current node is not registered; otherwise it keeps the id, the context keys and the transcript prefix, and adds two lines |
| Conversation.EventsAfterTurn | sales-agent-backend/src/providers/together/demo-service.ts:53-62 | a turn adds at most the one demo event, exactly when it moved to the demo node, the tool call passed the checks and the event was accepted |
| Conversation.RecordsAfterTurn | sales-agent-backend/src/providers/together/demo-service.ts:63 | a turn's handler never creates or removes a customer record, and only a turn that moved to the demo node changes one |
| Conversation.SavedMessages | sales-agent-backend/src/services/ConversationManager.ts:111-131 | the user's message is stored first, and the AI's only after it and only when both are accepted by the schema |
| Conversation.CustomerFields | sales-agent-backend/src/services/ConversationManager.ts:189-206 | the saved customer holds name, email and, when known, the product interest, as the context has them |
| Conversation.HandleTurn | sales-agent-backend/src/services/ConversationManager.ts:223-248 | a handled message succeeds exactly when the turn succeeds, the messages store is reachable, the session id, the input and the reply are non-empty, and a session with name and email finds the customers store reachable; it then returns the turn's result, with a non-empty message |
| Conversation.MessagesAfterHandle | sales-agent-backend/src/services/ConversationManager.ts:118-128 | a handled message only appends to the message log, at most two entries, none when the turn fails; a successful one appends the user's input and then the reply |
| Conversation.RecordsAfterHandle | sales-agent-backend/src/services/ConversationManager.ts:200-206 | a handled message keeps every customer record, creates at most the session's own, and changes no other session's record; a failed turn changes nothing |
| Conversation.ReplayGrows | sales-agent-backend/src/services/ConversationManager.ts:52-61 | over any run of turns the id is kept, no context key is lost, earlier transcript lines stay as a prefix and each turn adds two lines, its user line first |
| Conversation.InvalidNodeFailsFirst | sales-agent-backend/src/services/ConversationManager.ts:140-148 | an unregistered or missing node fails the turn with `Invalid node` whatever the analyzer and handlers would answer |
| Conversation.FallbackStaysInGraph | sales-agent-backend/src/services/AIService.ts:61-62 | at any node but the last, a failed analysis moves the session to the node's first candidate, which is registered |
| Conversation.StuckAfterEnd | sales-agent-backend/src/services/ConversationManager.ts:140-160 | at `end_conversation` a failed analysis leaves no node, and the next turn fails with `Invalid node` |
| Conversation.UncheckedJump | sales-agent-backend/src/services/ConversationManager.ts:55 | the analyzer's choice is taken even when it is not a candidate: `welcome` can move straight to `end_conversation` |
| Conversation.HistoryKeepsSuggestion | sales-agent-backend/src/services/ConversationManager.ts:59-175 | on the Q&A node the user gets the handler's answer while the transcript records the analyzer's suggestion |
| Conversation.HandlerFailureIsApology | sales-agent-backend/src/services/ConversationManager.ts:165-185 | a failing handler still yields the updated session, with the fixed apology as the message |
| Conversation.ConversationManager.constructor | sales-agent-backend/src/services/ConversationManager.ts:12-15 | the manager owns a node service holding the seven-node graph and the given stores |
| Conversation.ConversationManager.ExecuteHandler | sales-agent-backend/src/services/ConversationManager.ts:71-109 | runs the node's handler: the product handler writes nothing, and the demo handler writes as the demo service does |
| Conversation.ConversationManager.ProcessUserInput | sales-agent-backend/src/services/ConversationManager.ts:133-186 | returns the turn the pure definition gives, and changes the event log and customer records exactly as that turn's handler does |
| Conversation.ConversationManager.SaveMessages | sales-agent-backend/src/services/ConversationManager.ts:111-131 | appends the user message and then the AI message; the AI message is not attempted after a failed user message |
| Conversation.ConversationManager.SaveCustomerIfComplete | sales-agent-backend/src/services/ConversationManager.ts:188-221 | without a non-empty name and email nothing is written; with them the customer is upserted, and a store failure is reported |
| Conversation.ConversationManager.HandleMessage | sales-agent-backend/src/services/ConversationManager.ts:223-248 | runs the turn, then both saves; the event log, message log and customer records change exactly as `EventsAfterTurn`, `MessagesAfterHandle` and `RecordsAfterHandle` say, and it succeeds exactly when `HandleTurn` does, with its result |
| Sockets.WelcomeTextIsTemplate | sales-agent-backend/src/websocket/WebSocketManager.ts:38-40 | the greeting is the welcome node's template itself, non-empty |
| Sockets.NewSession | sales-agent-backend/src/websocket/WebSocketManager.ts:31-42 | a new session has an empty context, is at `welcome`, and its transcript is exactly the greeting line |
| Sockets.WebSocketManager.constructor | sales-agent-backend/src/websocket/WebSocketManager.ts:22-23 | the registry starts empty and nothing has been emitted |
| Sockets.WebSocketManager.CreateNewSession | sales-agent-backend/src/websocket/WebSocketManager.ts:27-49 | saves the greeting as an AI message and only then registers the session; a failed save registers nothing |
| Sockets.WebSocketManager.Connect | sales-agent-backend/src/websocket/WebSocketManager.ts:117-143 | on connection the greeting is appended to the message log, the session is registered, and `connected` is emitted before the greeting; when the greeting cannot be saved nothing is stored, registered or emitted |
| Sockets.WebSocketManager.EmitMessage | sales-agent-backend/src/websocket/WebSocketManager.ts:103-110 | appends one `message` event for the session |
| Sockets.WebSocketManager.HandleError | sales-agent-backend/src/websocket/WebSocketManager.ts:91-101 | appends one `error` event with the generic text |
| Sockets.WebSocketManager.HandleUserMessage | sales-agent-backend/src/websocket/WebSocketManager.ts:63-89 | an unknown session or a failed turn emits one error event and leaves the registry; a successful turn replaces the session's entry and emits its message; for a known session the message log, event log and customer records change as `handleMessage` specifies; every entry stays keyed by its own id and opens with the greeting |
| Sockets.WebSocketManager.HandleDisconnect | sales-agent-backend/src/websocket/WebSocketManager.ts:112-115 | removes exactly that session id |
| Sockets.DisconnectKeepsOthers | sales-agent-backend/src/websocket/WebSocketManager.ts:114 | every other registered session is kept as it was |
| DemoService.ToolArguments | sales-agent-backend/src/providers/together/demo-service.ts:17-42 | the arguments are accepted exactly when the call settled, a tool call exists, its arguments parse and its name is `schedule_demo`; a parse error is reported before a wrong name |
| DemoService.ScheduleDemo | sales-agent-backend/src/providers/together/demo-service.ts:11-66 | a rejected call writes nothing; otherwise one event with the arguments and the session's transcript and node is appended if accepted, the customer is updated without upsert, and the confirmation is returned only when both writes succeeded |
| DemoService.DemoNeverCreatesCustomer | sales-agent-backend/src/repositories/Customer.ts:29-36 | scheduling a demo for a session without a customer record leaves the records as they were |
| ProductService.Entry | sales-agent-backend/src/providers/together/product-service.ts:75-82 | every entry begins with `Product: ` |
| ProductService.Entries | sales-agent-backend/src/providers/together/product-service.ts:70-82 | one entry per hit, in search order |
| ProductService.ProductInfoSplit | sales-agent-backend/src/providers/together/product-service.ts:75-82 | the block keeps the search order: the first hits' block, a blank line, then the rest |
| ProductService.ProductInfoStartsWithFirst | sales-agent-backend/src/providers/together/product-service.ts:75-82 | a block with hits starts with the first hit's entry and is never empty |
| ProductService.GetProductDetails | sales-agent-backend/src/providers/together/product-service.ts:17-64 | a search error is passed on, no hits fail with `No matching embeddings found`, and the answer is returned exactly when the completion over the rendered hits is non-empty |
| Stores.SchemaFields | sales-agent-backend/src/models/Customer.ts:4-12 | only the schema's paths of a written record are kept |
| Stores.UpsertWrites | sales-agent-backend/src/repositories/Customer.ts:16-27 | an upsert always leaves a record under the key with the written fields and the earlier ones they do not override; other records are untouched |
| Stores.UpdateNeverCreates | sales-agent-backend/src/repositories/Customer.ts:29-36 | an update never creates a record, and on an existing one it writes like the upsert |
| Stores.MessageLog.Create | sales-agent-backend/src/models/Message.ts:4-11 | a message is appended exactly when the store is reachable and the session id and text are non-empty |
| Stores.CustomerStore.Save | sales-agent-backend/src/repositories/Customer.ts:16-27 | upserts when reachable, changes nothing otherwise |
| Stores.CustomerStore.Update | sales-agent-backend/src/repositories/Customer.ts:29-36 | updates without upsert when reachable, changes nothing otherwise |
| Stores.EventLog.Create | sales-agent-backend/src/models/Event.ts:4-11 | an event is appended exactly when the store is reachable and it has a session id and a name |
| ConversationFlow.TypeNameInjective | sales-agent-frontend/lib/conversation-flow.ts:2-9 | distinct node types have distinct names |
| ConversationFlow.EmailCheckMatchesPattern | sales-agent-frontend/lib/conversation-flow.ts:32-35 | the email check accepts exactly the strings of the form `l@d1.d2` with three runs free of `@` and whitespace |
| ConversationFlow.EmailCheckSound | sales-agent-frontend/lib/conversation-flow.ts:33 | every accepted string has the pattern's shape |
| ConversationFlow.EmailCheckComplete | sales-agent-frontend/lib/conversation-flow.ts:33 | every string of the pattern's shape is accepted |
| ConversationFlow.Validate | sales-agent-frontend/lib/conversation-flow.ts:31-48 | the name rule accepts exactly inputs of at least two UTF-16 units, the email rule exactly the pattern, and rejections carry the source's messages |
| ConversationFlow.OnlyNameAndEmailValidate | sales-agent-frontend/lib/conversation-flow.ts:51-59 | in the initial flow only the name and email nodes can reject input; the demo date is never validated |
| ConversationFlow.Filter | sales-agent-frontend/lib/conversation-flow.ts:108-109 | keeps exactly the products the text contains |
| ConversationFlow.FilterAppend | sales-agent-frontend/lib/conversation-flow.ts:109 | filtering keeps the catalogue order |
| ConversationFlow.ProductInterests | sales-agent-frontend/lib/conversation-flow.ts:106-111 | the products named case-insensitively in the input, or nothing when none is named |
| ConversationFlow.Capture | sales-agent-frontend/lib/conversation-flow.ts:99-117 | accepting input sets only the field the node type collects |
| ConversationFlow.InitialState | sales-agent-frontend/lib/conversation-flow.ts:62-72 | no current node, nothing completed, the whole flow pending, nothing captured |
| ConversationFlow.ProcessNodeResponse | sales-agent-frontend/lib/conversation-flow.ts:75-131 | without a current node nothing changes; a rejected input leaves the state with the error on the node; an accepted one captures its field through the shared object, completes the node and advances the queue; the route of completed, current and pending nodes is preserved |
| ConversationFlow.ApologyWins | sales-agent-frontend/lib/conversation-flow.ts:137-144 | a reply with an apology marker names no node, whatever tags it holds |
| ConversationFlow.ParseNode | sales-agent-frontend/lib/conversation-flow.ts:134-190 | every recognised node is one of the nodes a tag can announce |
| ConversationFlow.FirstTagWins | sales-agent-frontend/lib/conversation-flow.ts:147-159 | otherwise the first tag of the fixed order present in the reply decides the node |
| ConversationFlow.FirstPhraseWins | sales-agent-frontend/lib/conversation-flow.ts:161-182 | with no apology marker and no tag, the first phrase group of the fixed order found in the lowercased reply decides the node |
| ConversationFlow.NoNodeExactly | sales-agent-frontend/lib/conversation-flow.ts:134-185 | no node is recognised exactly when the reply has an apology marker, or has neither a tag nor any phrase |
| ConversationFlow.ParsedNodeInFlow | sales-agent-frontend/lib/conversation-flow.ts:134-190 | a recognised node is a node of the initial flow other than the welcome node |
| ConversationFlow.NextNodeFollowsFlow | sales-agent-frontend/lib/conversation-flow.ts:193-225 | from no node to `welcome`, then along the flow up to Q&A whatever the input; the demo node leads to the end and the end back to `welcome` |
| ConversationFlow.QALeavesOnlyForDemo | sales-agent-frontend/lib/conversation-flow.ts:210-220 | the Q&A node moves to the demo exactly when the lowercased input mentions a demo, a schedule or an appointment, and otherwise stays |
| FallbackResponses.GetFallbackResponse | sales-agent-frontend/lib/fallback-responses.ts:34-56 | every node type gets its reply, the Q&A node its product's reply or the generic one, anything else the apology; never empty |
| FallbackResponses.InheritedKeyLeaks | sales-agent-frontend/lib/fallback-responses.ts:45-48 | as written, the product id `toString` yields a non-string |
| FallbackResponses.CorrectionOnlyChangesInheritedKeys | sales-agent-frontend/lib/fallback-responses.ts:44-50 | the corrected lookup agrees with the code as written except for inherited property names on the Q&A node |
| FallbackResponses.EndGetsApology | sales-agent-frontend/lib/fallback-responses.ts:53-54 | `end_conversation` gets the apology |
| SessionStorage.Merge | sales-agent-frontend/lib/session-service.ts:37-42 | given fields win, absent ones keep their value, the timestamp is always the fresh one |
| SessionStorage.EmptyPatchOnlyStamps | sales-agent-frontend/lib/session-service.ts:37-42 | a patch without fields only renews the timestamp |
| SessionStorage.PatchTimestampIgnored | sales-agent-frontend/lib/session-service.ts:41 | a timestamp supplied in the patch is ignored |
| SessionStorage.Jsonify | sales-agent-frontend/lib/session-service.ts:44 | a record read back keeps every field except the validators of the flow's nodes and of the chat messages' nodes; a message whose node has no validator reads back unchanged |
| SessionStorage.RestoredMessageNodeAcceptsAll | sales-agent-frontend/lib/session-service.ts:44 | a chat message's node read back no longer rejects any input |
| SessionStorage.JsonifyIdempotent | sales-agent-frontend/lib/session-service.ts:44 | a second round trip changes nothing |
| SessionStorage.RestoredFlowLosesValidation | sales-agent-frontend/lib/session-service.ts:44 | a restored initial flow no longer rejects any input, although the in-memory one rejects a one-letter name |
| SessionStorage.SessionService.Current | sales-agent-frontend/lib/session-service.ts:51-60 | the stored record, or the default when nothing is stored, the stored text is empty or not JSON, or storage is unusable |
| SessionStorage.SessionService.Present | sales-agent-frontend/lib/session-service.ts:75-77 | throws when storage is unusable, otherwise whether a non-empty value is stored |
| SessionStorage.SessionService.GetSession | sales-agent-frontend/lib/session-service.ts:51-63 | returns the current record |
| SessionStorage.SessionService.SaveSession | sales-agent-frontend/lib/session-service.ts:35-48 | a successful write stores the merged record as JSON renders it, after which the session is present and reads back as that record; a failure is swallowed and changes nothing |
| SessionStorage.SessionService.UpdateSession | sales-agent-frontend/lib/session-service.ts:80-82 | behaves as the save |
| SessionStorage.SessionService.ClearSession | sales-agent-frontend/lib/session-service.ts:66-72 | afterwards no session is present and reading yields the default; a failure is swallowed |
| SessionStorage.SessionService.HasSession | sales-agent-frontend/lib/session-service.ts:75-77 | answers as the storage state says, and fails when storage is unusable |
| Text.Trim | sales-agent-backend/src/services/AIService.ts:25-26 | the result is the input without leading and trailing whitespace, and is empty exactly for all-whitespace input |
| Text.ContainsAt | sales-agent-frontend/lib/conversation-flow.ts:138-140 | `includes` holds exactly when the text occurs at some position |
| Text.JoinSplit | sales-agent-backend/src/providers/together/product-service.ts:82 | a join splits at any inner boundary into the joins of both sides around one separator |
| Text.ToLower | sales-agent-frontend/lib/conversation-flow.ts:109 | lowercasing keeps the length and maps each character on its own; ASCII capitals and the Kelvin sign become ASCII lower-case letters |
| Text.Utf16Length | sales-agent-frontend/lib/conversation-flow.ts:37 | the UTF-16 length lies between the code-point count and twice it |

## Left out

- Transport, timers and UI are left out: the Socket.IO transport, client reconnection, toasts and React components. The server's emitted events are kept as an ordered log.
- The model calls no large-language-model or vector-search client. Their answers are inputs of each turn (`Conversation.Oracles`), and prompt texts and the tool schema are not modelled.
- The lazily created provider singleton in `AIService.ts` is left out: an error while creating it ends up in the same fallback or rewrap as any provider error.
- The Mongoose connection, timestamps and query reads are left out. The repositories' read functions are not used by the engine.
- `getWelcomeNode` and `getNodes` are not separate members. The welcome lookup is inside `Sockets.WebSocketManager.CreateNewSession`.
- Context and argument values are strings. A non-string value that the provider puts into `userInputs` or the tool arguments, such as an array `productInterest`, is not modelled. Neither is a tool-argument text that parses to something other than an object.
- Looking up context keys that `Object.prototype` provides (`${constructor}`) is not modelled. The context is a plain map.
- Inbound socket payloads that are objects rather than text are not modelled.
- The `message` event's ISO timestamp and the session id generator are not modelled. Session ids are inputs.
- Concurrency is not modelled. The writes started together by `Promise.all` run in sequence, and both are attempted. A turn still in flight when its socket disconnects can re-register the session, and that interleaving is not modelled.
- `Text.ToLower`: folds only the characters whose lower case is an ASCII letter: `A`-`Z` and the Kelvin sign U+212A. Every keyword the code looks for is ASCII. The other exception is U+0130, which lowercases to `i` followed by U+0307, and no keyword ends in `i`. So leaving U+0130 and every other non-ASCII character unchanged gives the same answer to each `includes` test the code makes, but not the same string or length.
- `Text.IsWhitespace`: strings are sequences of code points, so lone surrogates are not represented.
- `ConversationFlow.Validate`: the date rule takes the clock's verdict as a parameter (`dateIsFuture`). `new Date` never throws, so the `catch` branch of `validators.date` is not modelled.
- `DemoService.ScheduleDemo`: when both writes fail, the contract does not say which error is reported. With concurrent writes that depends on timing.
- `Conversation.HandleTurn`: on a failed save the error text is a placeholder. The socket layer replaces every error with its generic text.
- `Conversation.ConversationManager.HandleMessage`: states success and failure but not which store's error text is returned.
- `Stores.MessageLog.Create`: the error texts are not Mongoose's validation messages.
- `ProductService.GetProductDetails`: the bound of three hits is the search service's `topK` default. The model takes whatever hits the search returns and renders one entry per hit.
- `SessionStorage.ChatMessage`: message metadata is modelled as string values only. A non-string metadata value goes through `JSON.stringify` by the general JSON rules, which are not modelled.
- `SessionStorage.SessionService.Current`: stored text that parses as JSON but is not a session record (`{}`, `42`, `null`) is not represented. The code returns the parsed value unchecked, and the next save spreads it into the merged record.
- `Conversation.ProcessTurn`: a provider answer that parses to `null` is not represented. The code then throws a `TypeError` when it reads `analysis.nextNodeId`, and the turn fails, so the model's claim that only an unknown node fails a turn does not cover that input.
- `SessionStorage.SessionService.SaveSession`: a patch that gives a field the value `undefined` is not modelled.
- The shared `initialConversationState` object is not modelled. The real default record refers to that object, while the model's default is a value.
- The batch loader script that seeds the product index is not part of this model.

## Findings

| source | as written | input that shows it | evidently intended | confidence | as-written member | corrected member |
|---|---|---|---|---|---|---|
| sales-agent-frontend/lib/fallback-responses.ts:45-48 | `productId in table` is also true for property names every object inherits, and the read then returns that inherited function or object | node type `question_and_answer_node_for_product_details` with product id `toString` returns `Object.prototype.toString`, not a string | only the five own product ids select a product reply; any other id gets the generic Q&A reply, so the result is always a non-empty string | medium, not executed | FallbackResponses.InheritedKeyLeaks | FallbackResponses.GetFallbackResponse |
