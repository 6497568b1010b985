# WhatsApp push-channel orchestrator, modelled in Dafny

This project models the two functions that deliver a conversation turn of a Typebot flow over
the WhatsApp socket channel, and proves properties of that model:

- `executeWhatsappFlow` plays one turn. It checks that the session has a WhatsApp client id and
  phone. It runs the client-side actions meant for before any message; an action that expects
  a dedicated reply re-enters the flow engine and restarts the turn on its answer. It sends
  each bubble in order, swallowing send failures other than TRPC errors, and after each
  delivered bubble it runs the actions keyed to that bubble. Finally it sends the input-prompt
  fragments, each after a pacing delay: 5000 ms after a media bubble, otherwise the typing
  estimate.
- `multipleWhatsappFlow` plays the first turn. Then, while the session sits on a WhatsApp
  integration block with options, it calls the engine again, saves each new state, and plays
  that state's turn. It stops when the first returned message repeats one of the caller's
  messages, when the flow has ended, or when a block comes round a second time.

## How the model is built

- **Collaborators.** The engine (`continueBotFlow`), the socket send, the database save, the
  two converters and `computeTypingDuration` are not part of this model. They are fields of an
  `Env` value (`whatsapp_types.dfy`).
  - The engine is a function of its reply, state and flag.
  - The send and the save also receive their position in the trace. A later attempt can fail
    where an earlier one succeeded.
- **Trace.** Each run records what it does to the outside world as a sequence of `Event`s:
  - `EngineCall(reply, state, multipleIntegration)`;
  - `Save(...)`, with the five arguments of `saveStateToDatabase`;
  - `Delay(ms)`, for a timer that really waits;
  - `Send(clientId, phone, message, result)`.
- **Outcome.** A run ends `Completed`, `Failed(fault)` or `Unfinished`.
  - `Failed(fault)` stands for the exception the source lets escape.
  - `Unfinished` means the restart bound ran out; see "Left out".
- **Specification functions against methods.** Each source function has a specification
  function over values and an imperative method with the source's loops.
  - For `executeWhatsappFlow`: the functions `RunActions`, `SendBubbles`, `SendPrompt`,
    `Pass` and `Turn` (`execute_whatsapp_flow.dfy`).
  - For `multipleWhatsappFlow`: the functions `Iterate`, `Continue` and `MultipleFlow`
    (`multiple_whatsapp_flow.dfy`).
  - Each method's postcondition says that its trace and outcome are those of its function.
  - The properties are lemmas about the functions (`turn_properties.dfy`,
    `pass_properties.dfy`, `flow_properties.dfy`).
- **Termination.** Without an assumption about the engine, the auto-continuation loop need not
  terminate. The model therefore takes a ghost parameter `blockIds`, the finite set of block
  ids the engine can move a session to (`EngineStaysWithin`). The loop's measure is the number
  of ids in `blockIds` that are not yet visited.

Points where the code's behaviour may be unexpected, and which the model follows exactly:

- The duplicate guard compares the first returned message id with the caller's original
  `messages` only (multipleWhatsappFlow.ts:56). Messages sent by earlier iterations of the same
  call are not compared.
- The loop continues on the block's type and options alone (multipleWhatsappFlow.ts:38). Whether
  the engine returned an input plays no part in it.
- Each engine call in the loop passes the caller's `message` again (line 46), not an empty
  reply.
- A state is saved only when the engine returned one (line 58).
- The media check before a prompt fragment looks at the last delivered *bubble*. Prompt sends
  never join `sentMessages` (executeWhatsappFlow.ts:104-106).
- A delay of 0 is not waited for (line 113).
- A reply that an action asks for is re-entered with `replyToSend`, and that is always
  undefined (lines 51, 143). The model records `EngineCall(None, state, false)`.

## Model

Source paths are relative to the repository root.

| member | source | states |
|---|---|---|
| `ExecuteWhatsappFlow.GetTypingDuration` | packages/bot-engine/whatsapp/WhatsappComponentFlow/executeWhatsappFlow.ts:148-172 | no estimate exactly for audio, video, image and an interactive message without text; text is estimated from `body`; an interactive message with text from `interactive.body.text`, or from `''` when that is absent |
| `ExecuteWhatsappFlow.PromptDelay` | packages/bot-engine/whatsapp/WhatsappComponentFlow/executeWhatsappFlow.ts:104-112 | 5000 ms when the last delivered bubble is audio, video or image, otherwise the fragment's typing estimate; no delay only when the last bubble is not media and the fragment is media or interactive |
| `ExecuteWhatsappFlow.ExecuteClientSideAction` | packages/bot-engine/whatsapp/WhatsappComponentFlow/executeWhatsappFlow.ts:132-146 | a result exactly for a `wait` action that expects a dedicated reply, always with an undefined `replyToSend`; a `wait` sleeps `secondsToWaitFor * 1000` ms, any other action does nothing |
| `ExecuteWhatsappFlow.ExecuteActions` | packages/bot-engine/whatsapp/WhatsappComponentFlow/executeWhatsappFlow.ts:47-59 | the `for` loop over actions records the trace and stop of `RunActions`: each action in turn, ending at the first one that asks for a reply |
| `ExecuteWhatsappFlow.ExecuteBubble` | packages/bot-engine/whatsapp/WhatsappComponentFlow/executeWhatsappFlow.ts:62-96 | one bubble with its `try`/`catch` behaves as `SendBubble`: skip, send, log on success, keyed actions, swallow or rethrow |
| `ExecuteWhatsappFlow.ExecuteBubbles` | packages/bot-engine/whatsapp/WhatsappComponentFlow/executeWhatsappFlow.ts:61-97 | the bubble loop's trace, `sentMessages` and stop are those of `SendBubbles` from the first bubble with an empty log |
| `ExecuteWhatsappFlow.ExecutePrompt` | packages/bot-engine/whatsapp/WhatsappComponentFlow/executeWhatsappFlow.ts:99-129 | the prompt loop's trace is `SendPrompt` from the first fragment |
| `ExecuteWhatsappFlow.ExecutePass` | packages/bot-engine/whatsapp/WhatsappComponentFlow/executeWhatsappFlow.ts:32-129 | one pass of the turn (identity checks, then the three loops) records the trace and outcome of `Pass` |
| `ExecuteWhatsappFlow.ExecuteWhatsappFlow` | packages/bot-engine/whatsapp/WhatsappComponentFlow/executeWhatsappFlow.ts:26-130 | the turn, with its tail-recursive restarts, records the trace and outcome of `Turn` |
| `TurnProperties.RunActionsShape` | packages/bot-engine/whatsapp/WhatsappComponentFlow/executeWhatsappFlow.ts:47-59 | the actions only wait; they stop exactly when some action asks for a reply, and then the last event is one engine call with no reply on the current state, and the stop is what that call answered; which waits run is stated by `TurnProperties.RunActionsUpToFirstAsking` |
| `TurnProperties.RunActionsUpToFirstAsking` | packages/bot-engine/whatsapp/WhatsappComponentFlow/executeWhatsappFlow.ts:47-59 | the loop's trace is the waits of the actions from the start through the first one asking for a reply, in order, followed by one engine call with no reply on the current state; with no action asking, the waits of all of them and no call |
| `TurnProperties.ActionsKeyedToSpec` | packages/bot-engine/whatsapp/WhatsappComponentFlow/executeWhatsappFlow.ts:42-45 | an action is kept exactly when it is among those given and its `lastBubbleBlockId` equals the key, and no more actions than were given are kept |
| `TurnProperties.ActionsKeyedToFilters` | packages/bot-engine/whatsapp/WhatsappComponentFlow/executeWhatsappFlow.ts:42-45 | the filter distributes over concatenation and keeps a single action exactly when it is keyed to the key, so the result is the subsequence of the given actions keyed to the key, in their order and with duplicates |
| `TurnProperties.AfterActionsAreTurnEvents` | packages/bot-engine/whatsapp/WhatsappComponentFlow/executeWhatsappFlow.ts:72-88 | the actions after a delivered bubble only wait, or re-enter once, and send nothing |
| `TurnProperties.BubbleAttempts` | packages/bot-engine/whatsapp/WhatsappComponentFlow/executeWhatsappFlow.ts:61-67 | one bubble attempts its own wire form and nothing else, and nothing when it has none |
| `TurnProperties.BubbleDelivers` | packages/bot-engine/whatsapp/WhatsappComponentFlow/executeWhatsappFlow.ts:65-71 | one bubble joins `sentMessages` exactly when its send was accepted |
| `TurnProperties.BubbleStopsDeliberately` | packages/bot-engine/whatsapp/WhatsappComponentFlow/executeWhatsappFlow.ts:62-96 | one bubble stops the loop exactly when its send is rejected with a TRPC error, or when it was delivered and one of its keyed actions asks for a reply whose re-entry is answered (a restart) or throws a TRPC error; every stop is such a restart or TRPC failure |
| `TurnProperties.BubbleRejected` | packages/bot-engine/whatsapp/WhatsappComponentFlow/executeWhatsappFlow.ts:65-96 | a rejected send is the bubble's only event and is not logged, so none of its keyed actions run; a TRPC rejection fails the pass with that send error, any other rejection is swallowed |
| `TurnProperties.BubbleFailureSwallowed` | packages/bot-engine/whatsapp/WhatsappComponentFlow/executeWhatsappFlow.ts:80-96 | a rejection other than a TRPC error, or a non-TRPC error from the re-entry of a delivered bubble's actions, does not stop the loop: the next bubble's loop follows |
| `TurnProperties.BubblesAreTurnEvents` | packages/bot-engine/whatsapp/WhatsappComponentFlow/executeWhatsappFlow.ts:61-97 | the bubble loop saves nothing and makes no continuation call, and every send goes to the session's client id and phone |
| `TurnProperties.BubblesSentLog` | packages/bot-engine/whatsapp/WhatsappComponentFlow/executeWhatsappFlow.ts:65-71 | `sentMessages` is exactly the accepted sends of the loop, in order |
| `TurnProperties.BubblesInOrder` | packages/bot-engine/whatsapp/WhatsappComponentFlow/executeWhatsappFlow.ts:61-63 | the attempted sends are a prefix of the convertible bubbles in list order; unconvertible ones are skipped |
| `TurnProperties.BubblesAllAttempted` | packages/bot-engine/whatsapp/WhatsappComponentFlow/executeWhatsappFlow.ts:61-97 | a loop that was not stopped attempted every convertible bubble, in order |
| `TurnProperties.BubbleEndsAtTrpcRejection` | packages/bot-engine/whatsapp/WhatsappComponentFlow/executeWhatsappFlow.ts:65-96 | within one bubble, a send rejected with a TRPC error is the last event, and the bubble stops the loop with that send's error |
| `TurnProperties.BubblesEndAtTrpcRejection` | packages/bot-engine/whatsapp/WhatsappComponentFlow/executeWhatsappFlow.ts:61-97 | the bubble loop sends and waits for nothing after a send rejected with a TRPC error: that send is the loop's last event, and the loop stops with its error |
| `TurnProperties.BubbleEndsAtReentry` | packages/bot-engine/whatsapp/WhatsappComponentFlow/executeWhatsappFlow.ts:72-88 | within one bubble, a restart or an engine error from the keyed actions of the delivered bubble comes from the engine call with no reply on the current state, which is the bubble's last event, and that call's answer is the stop |
| `TurnProperties.BubblesEndAtReentry` | packages/bot-engine/whatsapp/WhatsappComponentFlow/executeWhatsappFlow.ts:61-97 | the bubble loop stops at a re-entry of the engine only at its end: the last event is the engine call with no reply on the current state, the last send before it delivered the bubble whose keyed actions made it, nothing is sent in between, and the loop stops with the engine's answer |
| `TurnProperties.BubblesStopDeliberately` | packages/bot-engine/whatsapp/WhatsappComponentFlow/executeWhatsappFlow.ts:89-96 | the bubble loop stops early only for a restart, an engine error or a rethrown TRPC error |
| `TurnProperties.BubblesContinuePastFailures` | packages/bot-engine/whatsapp/WhatsappComponentFlow/executeWhatsappFlow.ts:89-96 | without TRPC rejections and without keyed actions asking for a reply, failed sends never stop the loop |
| `TurnProperties.PromptFragmentPaced` | packages/bot-engine/whatsapp/WhatsappComponentFlow/executeWhatsappFlow.ts:103-120 | one fragment waits for its delay only when that delay is non-zero, then sends to the session's recipient |
| `TurnProperties.PromptSendsAll` | packages/bot-engine/whatsapp/WhatsappComponentFlow/executeWhatsappFlow.ts:99-128 | every defined fragment is attempted, in order, whatever the socket answers, TRPC errors included |
| `TurnProperties.PromptPaced` | packages/bot-engine/whatsapp/WhatsappComponentFlow/executeWhatsappFlow.ts:104-114 | every prompt send follows exactly the delay `PromptDelay` gives against the same last delivered bubble |
| `PassProperties.TurnConfigErrors` | packages/bot-engine/whatsapp/WhatsappComponentFlow/executeWhatsappFlow.ts:32-36 | a missing or empty client id, then a missing or empty phone, fails the turn with an empty trace |
| `PassProperties.BeforeActions` | packages/bot-engine/whatsapp/WhatsappComponentFlow/executeWhatsappFlow.ts:42-59 | the before-message actions send nothing; they stop exactly when one asks for a reply, with a re-entry on the current state |
| `PassProperties.RestartBeforeBubbles` | packages/bot-engine/whatsapp/WhatsappComponentFlow/executeWhatsappFlow.ts:47-58 | when a before-message action asks for a reply, the pass sends none of its messages, waits, makes one engine call on the current state and restarts on its answer |
| `PassProperties.PassEvents` | packages/bot-engine/whatsapp/WhatsappComponentFlow/executeWhatsappFlow.ts:26-130 | a pass saves nothing, makes no continuation call, and sends only to the session's client id and phone |
| `PassProperties.PassDoneAttempts` | packages/bot-engine/whatsapp/WhatsappComponentFlow/executeWhatsappFlow.ts:61-129 | a finished pass had an identity and attempted every convertible bubble and then every defined prompt fragment, in that order |
| `PassProperties.PassStoppedAttempts` | packages/bot-engine/whatsapp/WhatsappComponentFlow/executeWhatsappFlow.ts:42-97 | a pass that stopped early attempted a prefix of its bubbles and no prompt fragment; no event of the pass follows a send rejected with a TRPC error, and the pass fails with that send's error; a pass stopped by a restart or an engine error ends with the engine call, with no reply, on its state, made, unless the pass sent nothing, by the actions keyed to the last bubble it delivered, and that call's answer is the outcome |
| `PassProperties.PassFaults` | packages/bot-engine/whatsapp/WhatsappComponentFlow/executeWhatsappFlow.ts:89-96 | a pass fails only with a configuration fault, an engine error or a rethrown TRPC error |
| `PassProperties.TurnEvents` | packages/bot-engine/whatsapp/WhatsappComponentFlow/executeWhatsappFlow.ts:53-58 | across its restarts a turn saves nothing and makes no continuation call |
| `PassProperties.TurnFaults` | packages/bot-engine/whatsapp/WhatsappComponentFlow/executeWhatsappFlow.ts:82-96 | across its restarts a turn fails only for the reasons a pass can |
| `PassProperties.TurnCompletedHasIdentity` | packages/bot-engine/whatsapp/WhatsappComponentFlow/executeWhatsappFlow.ts:32-36 | a turn that completes started from a state with a client id and a phone |
| `WhatsappTypes.GetBlockById` | packages/bot-engine/whatsapp/WhatsappComponentFlow/multipleWhatsappFlow.ts:31-34 | a found block has the requested id and belongs to the active flow graph; nothing is found exactly when no block of that graph has the id |
| `MultipleWhatsappFlow.ExecuteIteration` | packages/bot-engine/whatsapp/WhatsappComponentFlow/multipleWhatsappFlow.ts:39-85 | one pass of the `while` body (call, guard, save, turn, next block) records the trace and end of `Iterate` |
| `MultipleWhatsappFlow.ExecuteLoop` | packages/bot-engine/whatsapp/WhatsappComponentFlow/multipleWhatsappFlow.ts:36-86 | the `while` loop records the trace and outcome of `Continue` |
| `MultipleWhatsappFlow.MultipleWhatsappFlow` | packages/bot-engine/whatsapp/WhatsappComponentFlow/multipleWhatsappFlow.ts:14-87 | the whole function records the trace and outcome of `MultipleFlow` |
| `MultipleWhatsappFlow.IterateGoesToNewBlock` | packages/bot-engine/whatsapp/WhatsappComponentFlow/multipleWhatsappFlow.ts:77-85 | an iteration that goes on moves to a block not yet visited whose id the engine can report, and the session sits on that block |
| `MultipleWhatsappFlow.VisitShrinks` | packages/bot-engine/whatsapp/WhatsappComponentFlow/multipleWhatsappFlow.ts:78-85 | pushing a new id onto `blocksNotRepeat` leaves fewer ids to visit, which is the loop's termination measure |
| `FlowProperties.IterateHalts` | packages/bot-engine/whatsapp/WhatsappComponentFlow/multipleWhatsappFlow.ts:46-56 | an answer that threw, is empty or repeats one of the caller's messages stops the loop with the call as the iteration's only event (no save, no send); an engine error propagates as the outcome, an empty answer is the `NoMessages` error, and a repeated first message is a normal return |
| `FlowProperties.IterateAfterSave` | packages/bot-engine/whatsapp/WhatsappComponentFlow/multipleWhatsappFlow.ts:58-85 | past the guard with a new state: a failed save fails the call right after the save; a failed turn ends it with the turn's outcome; after a completed turn, no current block or a visited one is a normal return, a block missing from the flow graph is an error, and otherwise the loop goes on |
| `FlowProperties.IterateWithoutState` | packages/bot-engine/whatsapp/WhatsappComponentFlow/multipleWhatsappFlow.ts:58-75 | an answer without a new state saves nothing, and its turn fails with the configuration error before doing anything |
| `FlowProperties.IterateSaves` | packages/bot-engine/whatsapp/WhatsappComponentFlow/multipleWhatsappFlow.ts:58-75 | an answer past the guard with a new state is saved right after the call, and everything after the save is that state's turn |
| `FlowProperties.IterateGoes` | packages/bot-engine/whatsapp/WhatsappComponentFlow/multipleWhatsappFlow.ts:53-85 | an iteration that goes on passed the guard, saved the answer's state, and moves to that state and its unvisited current block |
| `FlowProperties.IterationCalls` | packages/bot-engine/whatsapp/WhatsappComponentFlow/multipleWhatsappFlow.ts:46-51 | each iteration makes exactly one continuation call, with the caller's message and the current state under the caller's session id |
| `FlowProperties.ContinueSaves` | packages/bot-engine/whatsapp/WhatsappComponentFlow/multipleWhatsappFlow.ts:38-86 | in the loop's trace every new state is saved right after its call, the guards end the trace at the call, and every save follows a call |
| `FlowProperties.ContinueChained` | packages/bot-engine/whatsapp/WhatsappComponentFlow/multipleWhatsappFlow.ts:46-53 | the loop makes calls exactly when its block passes the loop condition; the first is on the current state, and each later one on the state the previous answer returned |
| `FlowProperties.ContinueIterates` | packages/bot-engine/whatsapp/WhatsappComponentFlow/multipleWhatsappFlow.ts:38-86 | the loop entered at a block that passes its condition is a run of iterations, one continuation call each; an iteration is followed by another exactly when it goes on to a block that passes the condition, each starts on the state and visited ids the previous one left, and the loop ends with the last iteration's outcome, or normally when that one moved to a block off the condition |
| `FlowProperties.ContinueGuarded` | packages/bot-engine/whatsapp/WhatsappComponentFlow/multipleWhatsappFlow.ts:38 | every call of the loop is made while the session sits on a WhatsApp integration block with options |
| `FlowProperties.ContinueDistinct` | packages/bot-engine/whatsapp/WhatsappComponentFlow/multipleWhatsappFlow.ts:77-85 | the loop's calls are made at pairwise different blocks, the later ones outside `blocksNotRepeat` |
| `FlowProperties.ContinueBounded` | packages/bot-engine/whatsapp/WhatsappComponentFlow/multipleWhatsappFlow.ts:78-85 | the loop makes at most one call more than there are reportable ids it has not visited |
| `FlowProperties.ContinueEndsOffIntegration` | packages/bot-engine/whatsapp/WhatsappComponentFlow/multipleWhatsappFlow.ts:38 | at a block that is not a WhatsApp integration with options the loop ends normally, with no event |
| `FlowProperties.FlowEndsBeforeLoop` | packages/bot-engine/whatsapp/WhatsappComponentFlow/multipleWhatsappFlow.ts:22-38 | a failed first turn ends the flow with its outcome; after a completed one, no current block, or a block that is not a WhatsApp integration with options, is a normal return, and a block missing from the flow graph is the `BlockNotFound` error |
| `FlowProperties.FirstTurnComesFirst` | packages/bot-engine/whatsapp/WhatsappComponentFlow/multipleWhatsappFlow.ts:22-29 | the first turn, on the caller's messages, input and actions, starts the trace and makes no continuation call; when it fails or there is no current block it is all that happens, with its outcome |
| `FlowProperties.FlowCallsChained` | packages/bot-engine/whatsapp/WhatsappComponentFlow/multipleWhatsappFlow.ts:38-53 | there are continuation calls exactly when the first turn completed at a WhatsApp integration block; the first is on the caller's state, each later one on the state the previous answer returned, all with the caller's message and session id |
| `FlowProperties.FlowIterates` | packages/bot-engine/whatsapp/WhatsappComponentFlow/multipleWhatsappFlow.ts:22-86 | after a first turn that completed at a WhatsApp integration block with options, the flow is that turn followed by the run of the loop's iterations from the caller's state with only that block visited, each going on exactly when it is not the last |
| `FlowProperties.FlowCallsGuarded` | packages/bot-engine/whatsapp/WhatsappComponentFlow/multipleWhatsappFlow.ts:31-38 | every continuation call is made at a WhatsApp integration block with options |
| `FlowProperties.FlowCallsDistinctAndBounded` | packages/bot-engine/whatsapp/WhatsappComponentFlow/multipleWhatsappFlow.ts:77-85 | no two continuation calls are made at the same block, and there are at most one more of them than reportable block ids, so the loop terminates |
| `FlowProperties.FlowSavesBeforeDispatch` | packages/bot-engine/whatsapp/WhatsappComponentFlow/multipleWhatsappFlow.ts:55-75 | every new state is saved right after its call, before its turn sends anything; an answer that threw, is empty, repeats a caller's message or has no state ends the flow at its call; every save follows a call |

## Left out

- The collaborators are not part of this model: `continueBotFlow`, `sendSocketWhatsappMessage`,
  `saveStateToDatabase`, the two converters and `computeTypingDuration`. They are oracle fields
  of `Env`, and nothing is claimed about their internals.
- `getBlockById` is not an oracle. It is `WhatsappTypes.GetBlockById`, a first-match lookup over
  the blocks of the first queued flow, with that flow's groups flattened into one sequence of
  blocks. The group structure itself is left out.
- Real time is left out. `setTimeout` becomes a `Delay(ms)` event, and the `startTime` taken
  from `Date.now()` is not passed to the engine.
- Logging is left out: `console.log`, the HTTP status log and `Sentry.captureException`. They
  only produce diagnostics.
- Engine answers that change between two identical calls are left out. The engine is a function
  of its reply, state and flag, so two re-entries on the same state in one pass always get the same
  answer. This happens with the keyed actions of two bubbles (executeWhatsappFlow.ts:80-88). A
  transient engine error followed by a success is therefore not modelled.
- Promises and concurrency are left out. Every `await` is a sequential step, and sessions are
  serialised by the callers.
- The send's `sessionId` and `state` arguments are not recorded in a `Send` event. Neither is
  its one-element `phones` list: the event holds the phone itself.
- An absent `clientSideActions` is modelled as an empty sequence, which is what `?? []` reads
  it as. `secondsToWaitFor` is a natural number, so fractional and negative waits are left out.
- `getBlockById` on an empty `typebotsQueue`, or for an id that is not in the graph, is the
  fault `BlockNotFound`. The source would throw from the lookup or from reading `.block`.
- `ExecuteWhatsappFlow.ExecuteWhatsappFlow`: the restart recursion is bounded by `fuel`, and a
  turn that exhausts it ends `Unfinished`. The source recurses without bound, so its
  termination is not claimed.
- `MultipleWhatsappFlow.MultipleWhatsappFlow`: requires `EngineStaysWithin(env, blockIds)`.
  This says every block id the engine reports lies in one finite set. The source makes no such
  assumption, and without it its loop need not terminate.
- The React and Solid views, the credentials modal, the credentials query and the type and
  schema files are not part of this model. They are UI, network or declarations, and are not
  the orchestrator.
