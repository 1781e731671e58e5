# watch-bot, modelled in Dafny

watch-bot is a voice assistant that watches cameras for you. A user talks to
a conversational agent (Gemini over WebRTC) through a front device: a WHIP
peer, or an Alexa skill. The agent can list the sensors, which are Nest,
Ring and WHIP cameras. It can set a task on a sensor, list the running tasks
and abort one. A task is a second, observing agent. It watches the sensor's
video and audio, is reminded of the task every two seconds, and calls
`complete` when the task is done. The session then reports the result back
to the conversational agent. A signalling service exposes a session per user
behind a JSON-RPC 2.0 method, `offer`, over a websocket. The Alexa skill
handlers answer the Smart Home directives. One edition posts the offer to the
service's `/offer` endpoint. The Cloud Run edition calls `front_call` over
JSON-RPC, after looking up the user's Amazon profile.

The model covers these parts, one module each:

- the JSON-RPC engine's server (`JsonRpcServer`) and client (`JsonRpcClient`);
- the prompts and tool declarations (`Prompt`);
- the realtime agent (`LlmAgent`), with the abstract base and the Gemini
  subclass merged into one class;
- a task's observing agent (`MultiModal`);
- the core session (`CoreSession`);
- the core and service message schemas (`CoreSchema`, `ServiceSchema`);
- the service's entry point and session factory (`ServiceMain`, `SessionFactory`);
- the local microphone's framing (`Mic`);
- both Alexa handlers (`AlexaLambda`, `AlexaCloudRun`).

`JsValues` gives JavaScript values: `undefined`, `null`, booleans, integers,
strings, arrays and objects. It also gives the few operators the code relies
on: truthiness, `??`, property reads and `in`. `Accessory` gives the sensor
devices as the session sees them.

Parts that work by mutating objects are classes whose methods state the
whole new state: the RPC server's registry, the RPC client, the agents, the
session, the service, the microphone chunker and the Alexa header object.
The logic around them is pure functions. The methods are tied to those
functions, and the lemmas are about the functions. Some things are
parameters rather than code:

- unique ids and clock readings;
- whether starting an agent succeeds;
- the setup of Nest, Ring and WHIP devices;
- a front device's answer to an offer;
- the Amazon profile lookup, `JSON.parse` and the outgoing RPC call;
- the HTTP post to the service.

A handler of the JSON-RPC server is a function from the application's state
and the request's `params` to a new state and an outcome (returned or
threw). A batch runs its entries left to right, threading that state.

## Model

| member | source | states |
|---|---|---|
| JsonRpcServer.Server.RegisterMethod | packages/json-rpc/src/index.ts:47-52 | a name already registered fails with "Method <name> is already registered" and leaves the table as it was; otherwise the handler is added under the name |
| JsonRpcServer.ErrorCodeTellsCase | packages/json-rpc/src/index.ts:82-147 | the code of an error response tells which check failed: -32600 exactly for a request (not null or undefined) failing the envelope check, -32601 exactly for an unknown method, -32000 exactly for a handler that threw an error (one that throws null or undefined gets no response). No other code is used |
| JsonRpcServer.HandleSingleRequest | packages/json-rpc/src/index.ts:82-117 | one request throws exactly when it is null or undefined, or when its registered handler throws (or rejects with) null or undefined, since the catch block then reads `message` of it. Every response carries its `id ?? null`. It goes unanswered only when it is a valid notification. Only a handler that ran can change the state |
| JsonRpcServer.EnvelopeCheck | packages/json-rpc/src/index.ts:119-130 | only objects pass the envelope check. An object passes exactly when `jsonrpc` is "2.0", `method` is a string, and an `id` key, if present, holds a string, a number or null |
| JsonRpcServer.HandleRequest | packages/json-rpc/src/index.ts:59-80 | a single request is never answered by an array and a non-empty batch never by a single object. An array reply is never empty. The empty batch is answered by one object with a null id and changes nothing |
| JsonRpcServer.SingleRequestCases | packages/json-rpc/src/index.ts:82-117 | handling throws exactly for a null or undefined request and for a handler that throws null or undefined. An invalid request gets -32600 with the request as data. An unknown method gets -32601. A handler throwing any other value gets -32000 with its message (or "Server error") and data, even for a notification. A returning handler is answered with its result iff the id is neither null nor undefined. The state is the handler's |
| JsonRpcServer.ResponseEchoesId | packages/json-rpc/src/index.ts:85-116 | every response carries the request's `id ?? null` |
| JsonRpcServer.EmptyBatch | packages/json-rpc/src/index.ts:62-71 | an empty batch is answered by one -32600 "Invalid Request: empty batch" error with a null id, not by an array |
| JsonRpcServer.RunAllPointwise | packages/json-rpc/src/index.ts:72-73 | answer i of a batch is what entry i gets on its own, in the state the entries before it left |
| JsonRpcServer.Responses | packages/json-rpc/src/index.ts:75 | a response is kept exactly when it was some entry's answer; the notifications' missing answers and the crashes are dropped |
| JsonRpcServer.ResponsesAppend | packages/json-rpc/src/index.ts:75 | the filter keeps order: the responses of a sequence of answers are those of its first part followed by those of the rest. A single response is kept, and a silent or crashed answer is dropped |
| JsonRpcServer.RunAllAnswersCalls | packages/json-rpc/src/index.ts:72-76 | for entries naming registered methods whose handlers never throw: nothing crashes, and the responses carry exactly the ids of the non-notification entries, in input order |
| JsonRpcServer.BatchOfCalls | packages/json-rpc/src/index.ts:62-79 | such a batch is answered by an array of its calls' responses in order, or by nothing iff every entry is a notification |
| JsonRpcServer.BatchReply | packages/json-rpc/src/index.ts:62-79 | any non-empty batch rejects exactly when some entry is null or undefined, or has its handler, in the state the entries before it left, throw null or undefined. Otherwise the reply is the entries' own responses in input order, or nothing when there are none. The state is the one the entries left |
| JsonRpcServer.NullEntryAnswersCrash | packages/json-rpc/src/index.ts:85-91 | a null entry makes its own handling throw (reading `id` of null) |
| JsonRpcServer.NullEntryCrashesBatch | packages/json-rpc/src/index.ts:72-73 | one null entry makes the whole batch reject |
| JsonRpcClient.Client.constructor | packages/json-rpc/src/index.ts:168-186 | the id counter starts at 1; nothing is pending, settled or sent |
| JsonRpcClient.Client.Call | packages/json-rpc/src/index.ts:222-240 | a call takes the counter's value as its id, bumps the counter, registers the id as pending (it was not before) and sends a request with that id. When `send` throws, nothing is sent, the call's promise rejects and the id stays pending |
| JsonRpcClient.Client.Notify | packages/json-rpc/src/index.ts:247-254 | a notification is sent without an id; counter and pending table are untouched. When `send` throws, nothing is sent and the exception reaches the caller |
| JsonRpcClient.Client.HandleResponse | packages/json-rpc/src/index.ts:206-214 | a null or undefined response throws and changes nothing. A response whose id is pending settles that call (resolve on a `result` key, else reject with `error`) and removes it. Any other response is ignored |
| JsonRpcClient.Settle | packages/json-rpc/src/index.ts:206-214 | a response whose numeric id is pending removes that id and appends its settlement (resolve on a `result` key, else reject with `error`). A response never adds a pending id, and when it removes one, that id is its own. Any other response changes nothing |
| JsonRpcClient.SettleAll | packages/json-rpc/src/index.ts:188-214 | handling the entries of a message throws exactly when one of them is null or undefined. The pending set only shrinks and earlier settlements are kept |
| JsonRpcClient.Client.OnMessage | packages/json-rpc/src/index.ts:188-204 | text that is not JSON is dropped. An array is handled entry by entry, stopping at the first entry that throws. Anything else is handled as one response |
| JsonRpcClient.SettleAllOnce | packages/json-rpc/src/index.ts:206-214 | delivering responses only removes pending ids. Each removed id gets exactly one new settlement, and no id is settled twice |
| JsonRpcClient.PendingResponseSettles | packages/json-rpc/src/index.ts:196-214 | when entry k of a message carries a pending id, and no entry before it is null or undefined or carries that id, delivering the message removes the id from the pending table and settles the call as entry k says |
| JsonRpcClient.DuplicateResponseIgnored | packages/json-rpc/src/index.ts:209-212 | a second response with the same id changes nothing |
| JsonRpcClient.ForeignResponseIgnored | packages/json-rpc/src/index.ts:207-210 | a response whose id is null, absent or not pending changes nothing |
| JsonRpcClient.MessagesAreValidRequests | packages/json-rpc/src/index.ts:224-229 | what the client sends passes the server's envelope check; a call is answered under its own id and a notification has no id key |
| Prompt.WatchTask | packages/core/src/prompt.ts:96-98 | the reminder text is the fixed instruction, a newline, then the task |
| Prompt.DeclarationNames | packages/core/src/prompt.ts:15-62 | one name per declaration, in order |
| Prompt.FrontDeclarationTable | packages/core/src/prompt.ts:15-62 | the conversational agent is offered device_list, set_task, task_list and abort_task, in that order. set_task requires task and device; abort_task requires id. Every required argument is a declared property |
| Prompt.MultimodalDeclarationTable | packages/core/src/prompt.ts:74-95 | the observing agent is offered complete (requiring result) and get_time. Every required argument is a declared property |
| Prompt.CompleteTaskEndsWithReport | packages/core/src/prompt.ts:63-66 | the completion report ends with the labelled task line and the labelled result line |
| Prompt.SystemInstructionListsDevices | packages/core/src/prompt.ts:4-14 | the device names sit comma-joined between `[` and `]`, and split back into the names when none contains a comma |
| Prompt.WatchTaskInjective | packages/core/src/prompt.ts:96-98 | the reminder text determines the task |
| Prompt.SplitJoin | packages/core/src/prompt.ts:8 | comma-joining comma-free names and splitting at the commas gives the names back |
| LlmAgent.Fanout | packages/core/src/llm/gemini.ts:61-73 | each present member of a data-channel message is emitted once: streaming text before complete text before the tool call |
| LlmAgent.ChannelEvents | packages/core/src/llm/gemini.ts:54-76 | binary data and text that fails to parse emit nothing |
| LlmAgent.LLMAgent.constructor | packages/core/src/llm/base.ts:17-37 | a new agent is unmuted, never unmuted before, and has no task, start time or reminder |
| LlmAgent.LLMAgent.Start | packages/core/src/llm/gemini.ts:82-95 | start succeeds iff creating the proxy and the offer/answer exchange both succeed; a failed exchange leaves the proxy created |
| LlmAgent.LLMAgent.SendAudio | packages/core/src/llm/base.ts:41-44 | the packet's payload is written to the outgoing audio track |
| LlmAgent.LLMAgent.SendVideo | packages/core/src/llm/base.ts:46-48 | the packet is written to the outgoing video track |
| LlmAgent.LLMAgent.SendCompleteText | packages/core/src/llm/gemini.ts:97-102 | a `completeText` message is sent on the data channel |
| LlmAgent.LLMAgent.SendToolCallResponse | packages/core/src/llm/gemini.ts:104-109 | a tool response under the call id is sent on the data channel |
| LlmAgent.LLMAgent.StopTask | packages/core/src/llm/base.ts:70-75 | task, start time and reminder are cleared |
| LlmAgent.LLMAgent.UpdateTask | packages/core/src/llm/base.ts:57-68 | the previous task is stopped; the new one is set with its start time, sent at once, and its reminder armed |
| LlmAgent.LLMAgent.ReminderTick | packages/core/src/llm/base.ts:63-67 | an armed reminder resends a non-empty task and sends nothing otherwise |
| LlmAgent.LLMAgent.ReceiveAudio | packages/core/src/llm/gemini.ts:36-47 | received agent audio mutes the input when it was never unmuted or the unmute is over 2000 ms old; the packet is re-emitted either way |
| LlmAgent.LLMAgent.ReceiveChannelData | packages/core/src/llm/gemini.ts:54-76 | the events are the message's fan-out; an empty complete text unmutes the input at the current time |
| LlmAgent.LLMAgent.Close | packages/core/src/llm/gemini.ts:111-115 | closing throws iff the proxy was never created, changing nothing; otherwise the task is stopped and the agent closed |
| LlmAgent.UnmuteWindow | packages/core/src/llm/gemini.ts:39-45 | after an empty complete text unmutes at u, received audio re-mutes exactly when more than 2000 ms have passed since u |
| LlmAgent.AudioOnlyMutes | packages/core/src/llm/gemini.ts:39-45 | received audio never unmutes and never moves the unmute time |
| LlmAgent.NonEmptyCompleteText | packages/core/src/llm/gemini.ts:64-70 | a non-empty complete text leaves the mute state alone but is still emitted |
| LlmAgent.StopIdempotent | packages/core/src/llm/base.ts:70-75 | stopping twice is stopping once, and a stopped agent's reminder sends nothing |
| LlmAgent.UpdateReplaces | packages/core/src/llm/base.ts:57-68 | an update replaces any task, sends the new one once, and the reminder then resends exactly it (when non-empty) |
| LlmAgent.RunTaskOpsSendsOnlySetTasks | packages/core/src/llm/base.ts:57-75 | over any run of updates, stops and reminder firings, task, start time and reminder exist together or not at all. Every text sent, and the current task, was set by an update of the run |
| LlmAgent.RunFromSetTask | packages/core/src/llm/base.ts:57-75 | the same, from a state that already holds a task |
| MultiModal.ElapsedReply | packages/core/src/llm/multimodal/gemini.ts:61-73 | get_time answers the whole seconds elapsed since the task started, rounded down; null when no task has started |
| MultiModal.ToolCallEffects | packages/core/src/llm/multimodal/gemini.ts:33-75 | only complete and get_time have effects. The first effect is the one reply, under the call's id, and no later effect replies. The agent is closed exactly when the task is stopped |
| MultiModal.MultiModalLLM.constructor | packages/core/src/llm/multimodal/gemini.ts:15-32 | the observing agent gets the multimodal system instruction and the complete/get_time declarations, and starts without a task |
| MultiModal.MultiModalLLM.Start | packages/core/src/llm/multimodal/gemini.ts:90-95 | the agent is started; the one-shot image handler is subscribed only when the start succeeded |
| MultiModal.MultiModalLLM.OnImageSent | packages/core/src/llm/multimodal/gemini.ts:92-94 | the first image sets the task's reminder text as the agent's task and sends it; later images do nothing |
| MultiModal.MultiModalLLM.HandleToolCall | packages/core/src/llm/multimodal/gemini.ts:33-75 | the effects of the call are applied: one reply, the task stopped, a 5000 ms recording asked for, and the agent closed when complete finds a task. Unknown tools do nothing |
| MultiModal.MultiModalLLM.OnDeviceAudio | packages/core/src/llm/multimodal/gemini.ts:82-84 | device audio is forwarded to the agent |
| MultiModal.MultiModalLLM.OnDeviceVideo | packages/core/src/llm/multimodal/gemini.ts:85-87 | device video is forwarded to the agent |
| MultiModal.MultiModalLLM.Close | packages/core/src/llm/multimodal/gemini.ts:97-99 | closing closes the agent, throwing when its proxy was never created |
| MultiModal.CompleteAcknowledgedFirst | packages/core/src/llm/multimodal/gemini.ts:38-45 | every complete call is answered `{ok: true}` under its id, before any other effect and only once |
| MultiModal.CompleteSequence | packages/core/src/llm/multimodal/gemini.ts:37-59 | without a task, complete only replies. With one, it stops the task, asks for a 5000 ms recording, reports the task with the call's result and closes, in that order |
| MultiModal.OnlyCompleteCompletes | packages/core/src/llm/multimodal/gemini.ts:36-74 | only complete reports a completion; get_time only replies; other tools do nothing |
| MultiModal.ReportedTaskIsReminderText | packages/core/src/llm/multimodal/gemini.ts:47-57 | the task reported on completion is the agent's reminder text, which embeds the description rather than being it |
| CoreSession.TaskCompletesAtMostOnce | packages/core/src/session.ts:180-190 | every task a session created has been started at most once, so it reports at most one completion and the `once` subscription fires at most once |
| MultiModal.AtMostOneCompletion | packages/core/src/llm/multimodal/gemini.ts:47-58 | an observing agent started once reports at most one completion |
| Accessory.WhipSensor | packages/core/src/accessory/whip.ts:21-26 | a WHIP sensor is named "WHIP_" followed by its id |
| Accessory.WhipNamesDistinct | packages/core/src/accessory/whip.ts:25 | distinct WHIP ids give distinct sensor names |
| CoreSession.SensorNames | packages/core/src/session.ts:49 | the sensor names, in list order |
| CoreSession.DeviceListReply | packages/core/src/session.ts:195-205 | the device_list reply is `{devices}` holding the sensor names in list order |
| CoreSession.Descriptions | packages/core/src/session.ts:219 | one task description per task, in list order |
| CoreSession.TaskListReply | packages/core/src/session.ts:94-102 | the task_list reply is `{list}` holding the task descriptions in list order, without ids |
| CoreSession.FindSensor | packages/core/src/session.ts:211 | the first sensor named exactly the given name, or none when no sensor has it |
| CoreSession.FindTask | packages/core/src/session.ts:223 | the first task whose id or description equals the key, or none when no task matches |
| CoreSession.WithoutId | packages/core/src/session.ts:227 | exactly the tasks whose id differs from the key are kept |
| CoreSession.AddResponses | packages/core/src/session.ts:169 | one `{sensorId, negotiation}` per new sensor, in order |
| CoreSession.Session.constructor | packages/core/src/session.ts:36-46 | the id is the given one or a generated one; the sensors are the given ones or none |
| CoreSession.Session.Init | packages/core/src/session.ts:48-58 | the conversational agent is created, told the current sensor names and the four tools, and started |
| CoreSession.Session.SetFrontDevice | packages/core/src/session.ts:137-153 | "whip" and "alexa" bind a new front device of that kind; any other name throws "Unknown front device: <name>" and binds nothing |
| CoreSession.Session.OnFrontDeviceAudio | packages/core/src/session.ts:149-151 | a front device's audio goes to the conversational agent, and throws before that agent exists |
| CoreSession.Session.OnFrontAgentAudio | packages/core/src/session.ts:124-128 | agent audio reaches the front device only while one is bound |
| CoreSession.Session.OnFrontCompleteText | packages/core/src/session.ts:129-133 | any complete text of the conversational agent unmutes its input at the current time |
| CoreSession.Session.AddSensor | packages/core/src/session.ts:155-170 | the set-up sensors are appended and answered with their ids and negotiations; a failed setup adds nothing |
| CoreSession.Session.ReplyDeviceList | packages/core/src/session.ts:64-69 | device_list is answered with the sensor names |
| CoreSession.Session.ReplyTaskList | packages/core/src/session.ts:94-102 | task_list is answered with the task descriptions |
| CoreSession.Session.SetTask | packages/core/src/session.ts:70-93 | set_task on an unknown device answers `{ok: false}` and creates nothing. Otherwise a new task for the first sensor with that name is listed before its agent starts. The reply is `{id}` when the start succeeds, else `{ok: false}`. The new agent's proxy and image handler reflect the start. It has been started once and has no completion, no recording, no task, nothing sent, and is not closed |
| CoreSession.Session.AbortTask | packages/core/src/session.ts:103-121 | abort_task closes the first task whose id or description is the key, drops the tasks whose id is the key, and answers `{ok: true}` unless closing threw. No match answers `{ok: false}`. The closed task's outbox, mute state, media, proxy flag, recordings and image handler are unchanged, and so is every other task's agent |
| CoreSession.Session.HandleFrontToolCall | packages/core/src/session.ts:60-122 | the four tool names dispatch to their cases, with each case's full effect: the new task and its agent in their starting state for set_task, and for abort_task the matched agent closed, or its task kept when closing threw, with its outbox, mute state, media, proxy flag, recordings and image handler unchanged. Any other name does nothing. Every task agent the call does not act on is unchanged |
| CoreSession.Session.OnTaskToolCall | packages/core/src/session.ts:180-190 | the task's agent handles the call as its own tool-call handler does: reply, stop, recording and close. A completion is reported to the conversational agent and drops the task from the list. Other calls leave both alone. Front device, front audio, the other tasks and the conversational agent's state (task, mute state, closed and proxy flags, media sent, system instruction) are unchanged |
| CoreSession.DeclaredToolsAreDispatched | packages/core/src/session.ts:63-121 | the tools the conversational agent is offered are exactly the ones the session dispatches |
| CoreSession.AbortByIdRemoves | packages/core/src/session.ts:222-229 | aborting by id leaves no task with that id |
| CoreSession.AbortByDescriptionKeepsTask | packages/core/src/session.ts:223-227 | aborting by description keeps the closed task listed, because the list is filtered by id only |
| CoreSession.WithoutIdKeepsOrder | packages/core/src/session.ts:227 | the kept tasks keep their order |
| CoreSession.SensorSetupPriority | packages/core/src/session.ts:155-167 | Nest credentials (when truthy) win over Ring, which win over WHIP. Only the first WHIP credential is used and an empty list throws. No credentials throws "sensor not found" |
| CoreSchema.WhipCredentialJson | packages/core/src/schema.ts:14-17 | a WHIP credential written as JSON satisfies the schema |
| CoreSchema.WhipCredentialOf | packages/core/src/schema.ts:14-18 | a valid credential value decodes to its id and offer |
| CoreSchema.SensorAddResponseJson | packages/core/src/schema.ts:34-37 | a sensor-add response written as JSON satisfies the schema and carries its id and negotiation |
| CoreSchema.FrontDeviceNamesAgree | packages/core/src/schema.ts:20-23 | the schema's front device names are exactly the names the session binds |
| CoreSchema.WhipCredentialRoundTrip | packages/core/src/schema.ts:14-17 | decoding an encoded WHIP credential gives it back |
| CoreSchema.ExtraKeysAllowed | packages/core/src/schema.ts:3-17 | extra keys do not make a credential invalid |
| CoreSchema.NestCredentialsAreRingShaped | packages/core/src/schema.ts:3-12 | Nest credentials also pass as Ring credentials, not the reverse |
| CoreSchema.NegotiationPayloadNulls | packages/core/src/schema.ts:26-31 | an empty payload is valid; null is allowed for the index, media id and fragment but not for the candidate |
| CoreSchema.AddResponsesConform | packages/core/src/schema.ts:34-37 | what addSensor returns is a list of valid sensor-add responses, one per new sensor |
| ServiceSchema.WhipCredentials | packages/service/src/schema.ts:13 | a valid WHIP credential list decodes entry by entry, keeping ids and offers |
| ServiceSchema.MinimalFrontCall | packages/service/src/schema.ts:16-24 | a front call needs userId, offer, sensors and a known front device; name, email, token and every sensor group may be left out |
| ServiceSchema.NegotiationsNeedUserAndPayload | packages/service/src/schema.ts:36-64 | the negotiations and the sensor add need userId. A payload of type any must be present, even when it is undefined |
| ServiceSchema.FirstWhipCredential | packages/service/src/schema.ts:13 | the credential addSensor uses is the list's first entry decoded |
| ServiceMain.SessionFor | packages/service/src/main.ts:56-68 | the session stored under userId, or else a new one with id `userId ?? randomUUID()` and the call's accessories and front device |
| ServiceMain.Offer | packages/service/src/main.ts:45-73 | null or undefined parameters throw and change nothing. Otherwise the answer is the serving session's answer to the offer. Sessions are never removed, at most the serving session's id is added, and at most one random id is drawn |
| ServiceMain.Service.constructor | packages/service/src/main.ts:40-74 | the service registers `offer` and nothing else, on an empty registry |
| ServiceMain.Service.OnMessage | packages/service/src/main.ts:78-91 | the message is screened as the listener does. Text that is not JSON, and an object with an `error` key, get the parse error. A primitive makes the listener throw, so nothing is sent. Anything else is dispatched, and its result is sent when it is a response or an array, and nothing when handling rejected or yielded nothing |
| ServiceMain.Screen | packages/service/src/main.ts:80-84 | a message is dispatched exactly when it parsed to an array or an object without an `error` key. It is dropped exactly when it parsed to a primitive or null |
| ServiceMain.IntendedScreen | packages/json-rpc/src/index.ts:257-269 | only text that is not JSON gets the parse error; every parsed value is dispatched |
| ServiceMain.ScreenDisagreement | packages/service/src/main.ts:80-84 | the written screening differs from the intended one exactly on primitives and on values with an `error` key |
| ServiceMain.ErrorKeyMistakenForParseFailure | packages/service/src/main.ts:81-83 | a valid `offer` call carrying an `error` member is answered with the parse error instead of being dispatched |
| ServiceMain.PrimitiveGetsNoAnswer | packages/service/src/main.ts:80-84 | the JSON text `5` gets no answer, where the server would answer "Invalid Request" |
| ServiceMain.OfferWithoutParams | packages/service/src/main.ts:45-55 | null or undefined parameters make offer throw and change nothing |
| ServiceMain.OfferAnswersAndRegisters | packages/service/src/main.ts:56-72 | every offer is answered by the serving session's front device, and that session is stored under its id whatever the answer |
| ServiceMain.OfferKeepsKeyed | packages/service/src/main.ts:69 | the registry stays keyed by session id |
| ServiceMain.RepeatedUserKeepsRegistry | packages/service/src/main.ts:56-69 | a known userId leaves the registry as it was |
| ServiceMain.NewUserAddsSession | packages/service/src/main.ts:56-69 | a new userId adds exactly one session, under that id |
| ServiceMain.AnonymousOfferDrawsId | packages/service/src/main.ts:56-69 | without a userId every call makes a new session under a freshly drawn id |
| ServiceMain.OnlyOfferIsServed | packages/service/src/main.ts:42-44 | any other method is answered "Method not found" and leaves the registry alone |
| SessionFactory.GroupDevices | packages/service/src/domain/session.ts:43-71 | an absent group or a rejected setup contributes no devices; a fulfilled one contributes its devices |
| SessionFactory.CreateSession | packages/service/src/domain/session.ts:18-40 | a new session under the id, without sensors or tasks, bound to the front device iff one is named. An unknown name throws |
| SessionFactory.CompleteSetup | packages/service/src/domain/session.ts:73-76 | the gathered devices are appended in order, and only then is the conversational agent created, told every sensor name, and started |
| SessionFactory.GatherOrder | packages/service/src/domain/session.ts:43-71 | the gathered devices are the Nest devices followed by the Ring devices |
| SessionFactory.WhipIgnored | packages/service/src/domain/session.ts:31 | WHIP credentials play no part in what the factory gathers |
| SessionFactory.GatheredFromFulfilledGroups | packages/service/src/domain/session.ts:63-71 | every gathered device comes from a group that was given and fulfilled |
| Mic.MicChunker.constructor | packages/core/src/front/local/mic.ts:23 | the buffer starts empty |
| Mic.MicChunker.OnData | packages/core/src/front/local/mic.ts:24-33 | the chunk is appended and every complete frame is cut from the front, in order. What stays buffered is shorter than a frame, and the frames plus the buffer are every byte captured |
| Mic.FrameSizeValue | packages/core/src/front/local/mic.ts:6-12 | a frame is 960 samples of 4 bytes, 3840 bytes |
| Mic.FramesSplit | packages/core/src/front/local/mic.ts:27-32 | the frames followed by the remainder give back the input; the remainder is shorter than a frame |
| Mic.FramesAreWhole | packages/core/src/front/local/mic.ts:27-32 | every frame is exactly 3840 bytes, and as many as fit are cut |
| Mic.FramingAppends | packages/core/src/front/local/mic.ts:24-33 | framing after earlier frames keeps every byte, in order |
| Mic.ChunkingIsSeamless | packages/core/src/front/local/mic.ts:24-33 | two chunks fed one after the other are framed as if fed at once |
| AlexaLambda.Header.Rename | packages/alexa-lamda/src/index.ts:45-46 | renaming changes only the header's name |
| AlexaLambda.RouteOf | packages/alexa-lamda/src/index.ts:6-40 | each handler is reached iff the namespace and name are its pair |
| AlexaLambda.ConnectedAnswerDeterminedBy | packages/alexa-lamda/src/index.ts:126-140 | the SessionConnected answer depends on the directive only through its endpoint, whether it has a payload, and the payload's session id, which it echoes. Nothing is posted |
| AlexaLambda.InitiateAnswerDeterminedBy | packages/alexa-lamda/src/index.ts:88-124 | the Initiate answer depends on the directive only through its endpoint, the offer's SDP and the session id. It depends on the service only through the response to that one posted body. It throws exactly when there is no offer |
| AlexaLambda.HandleAuthorization | packages/alexa-lamda/src/index.ts:42-53 | AcceptGrant renames the request's own header to "AcceptGrant.Response" and answers with it |
| AlexaLambda.HandleDiscovery | packages/alexa-lamda/src/index.ts:55-86 | Discover renames the request's own header to "Discover.Response" and answers with the endpoint list |
| AlexaLambda.Handle | packages/alexa-lamda/src/index.ts:6-40 | each directive reaches its handler; any other finishes without answering and leaves the header alone |
| AlexaLambda.OnlyFourDirectives | packages/alexa-lamda/src/index.ts:6-40 | exactly four (namespace, name) pairs are answered |
| AlexaLambda.DiscoveryPayloadShape | packages/alexa-lamda/src/index.ts:57-82 | discovery reports one endpoint, "sample-chatgpt02", with one capability: the RTC session controller, version 3, full duplex |
| AlexaLambda.CopiedHeadersKeepIdentity | packages/alexa-lamda/src/index.ts:108-114 | the copied headers differ from the request's only in their name |
| AlexaCloudRun.FromEnvConsultsParserOnlyWhenSet | packages/alexa-lamda/src/for_cloudrun_edition.ts:123-124 | an unset or empty setting gives the same value whatever the parser, and cannot fail. A set one depends only on how its text parses |
| AlexaCloudRun.InitiateAnswer | packages/alexa-lamda/src/for_cloudrun_edition.ts:91-152 | the Initiate directive is always answered or throws. A success is an SDP answer under a copy of the request header named "AnswerGeneratedForSession", with the endpoint echoed. A missing endpoint, payload or offer throws |
| AlexaCloudRun.FrontCallParams | packages/alexa-lamda/src/for_cloudrun_edition.ts:121-131 | front_call gets the profile's user id, email and name, the offer's SDP, the "alexa" front device and the environment's Nest and Ring credentials, without a token |
| AlexaCloudRun.Handle | packages/alexa-lamda/src/for_cloudrun_edition.ts:9-43 | the same routing as the first edition, with this edition's Initiate answer |
| AlexaCloudRun.ProfileFailureThrows | packages/alexa-lamda/src/for_cloudrun_edition.ts:105-109 | a failed profile lookup throws "Failed to get user profile: <status>" without calling the service |
| AlexaCloudRun.AnswerComesFromFrontCall | packages/alexa-lamda/src/for_cloudrun_edition.ts:132-151 | a successful answer carries the `answer` field of the front_call result, under a copied header, with the endpoint echoed |
| AlexaCloudRun.FrontCallConforms | packages/alexa-lamda/src/for_cloudrun_edition.ts:121-131 | the parameters satisfy the service's front-call schema when the profile and offer are well-formed |
| AlexaCloudRun.FrontCallNeedsUserId | packages/alexa-lamda/src/for_cloudrun_edition.ts:126 | a profile without a string user id gives parameters the schema refuses |

## Left out

- Media: Opus encoding, RTP packetising and the WebRTC peer connections are left out. A packet is only its payload, and a frame of the microphone is handed on as bytes.
- Device adapters: the Nest, Ring and WHIP adapters, the front devices' offer handling, and the Gemini proxy are left out. They are outcomes passed in as parameters.
- Concurrency: asynchronous interleaving is left out. Every handler runs to completion in the order its events arrive. A batch's entries are handled left to right, which is the order in which the source starts them.
- Numbers: JavaScript numbers are integers here. Fractional ids, fractional clock readings and NaN beyond the `get_time` null are not modelled.
- JSON: parsing is a parameter or an `Option` (`None` when the text is not JSON), and `JSON.stringify` is not modelled. In particular, keys holding `undefined` are not dropped from what is sent.
- Error texts: the messages of runtime `TypeError`s (a property read of undefined, a failed destructuring) are fixed strings. They are not the engine's exact wording.
- JsonRpcClient.Client.Call: a response that arrives later for a call whose `send` threw is still recorded as a settlement, although the promise it would settle has already rejected. A `JSON.stringify` that throws is not modelled.
- Logging, the websocket's open event, the microphone's start and stop, and the data channel's `send` failures (which the source swallows) are left out.
- LlmAgent.LLMAgent.ReminderTick: the 2000 ms interval timer is an explicit method the caller invokes, not a clock.
- The agent's base class and its Gemini subclass are one class. The agent's `onStreamingText` and `onVideo` events are returned from `ReceiveChannelData`, or left to the caller, rather than subscribed to.
- CoreSession.Session.OnTaskToolCall: the list filter that the source subscribes with `once` is applied on every completion. Every task a session creates is started once and completes at most once (`CoreSession.TaskCompletesAtMostOnce`), so the two agree.
- CoreSession.Session.SetTask: a second start of an observing agent, and the image handler firing again after it, are not modelled.
- Tool arguments are a map from names to strings; a non-string argument is not modelled.
- ServiceMain.Offer: the registry keeps each session's creation arguments rather than a core session. The `createSession` that `main.ts` calls comes from the service's `import/core.js` module, which is not part of this model, so a failure of that factory is not modelled.
- SessionFactory.CompleteSetup: a rejection of the conversational agent's start inside the detached setup is reported as `ok == false` instead of an unhandled rejection.
- The first Alexa edition's HTTP post cannot fail here (no network errors). It always yields a response text.
- AlexaCloudRun.InitiateAnswer: the profile's JSON being `null`, and a non-object RPC result, are reduced to "throws" or to reading `answer` as undefined.

## Findings

| source | as written | input that shows it | evidently intended | confidence | as-written member | corrected member |
|---|---|---|---|---|---|---|
| packages/service/src/main.ts:80-84 | the socket listener tests `"error" in request` on the value `tryWith` returns, which is the parsed message itself when parsing succeeds | `{"jsonrpc":"2.0","method":"offer","params":{"offer":"x"},"id":1,"error":0}` is answered with the parse error; the text `5` makes `in` throw, so nothing is sent | only a `JSON.parse` failure gets the parse error, and every parsed value goes to the server | high (not executed) | ServiceMain.ErrorKeyMistakenForParseFailure | ServiceMain.IntendedScreen |

The service class keeps the screening as written (`ServiceMain.Screen`), since it models
the deployed listener. `ServiceMain.ScreenDisagreement` states where the two
screenings differ, and `ServiceMain.PrimitiveGetsNoAnswer` shows the second input.
That `TypeError` is thrown inside the asynchronous message listener, so it becomes an
unhandled promise rejection; under Node's default handling of unhandled rejections this
would end the service process, not only drop the message (not executed).
