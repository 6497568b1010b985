/**
 * Auto-continuation over the WhatsApp socket channel: after the first turn, while the session
 * sits on a WhatsApp integration block with options, ask the flow engine to continue, persist
 * the state it answers with, and run that state's turn. The loop stops on a first message the
 * caller already had, when the flow ends, or when it comes back to a block it already visited.
 *
 * The loop is specified by `Continue`, one call per iteration (`Iterate`), and the method
 * `MultipleWhatsappFlow` is proved equal to it.
 */
module MultipleWhatsappFlow {
  import opened Wrappers
  import opened WhatsappTypes
  import opened Traces
  import opened ExecuteWhatsappFlow
  import opened PassProperties

  /** `block?.type === WHATSAPP && block?.options`: the loop's condition. */
  predicate ContinuesAt(block: Block) {
    block.blockType.WhatsappIntegration? && block.options.Some?
  }

  /** The session sits, by a truthy `currentBlockId`, on `block` of its active flow graph. */
  predicate AtBlock(state: SessionState, block: Block) {
    Truthy(state.currentBlockId) && GetBlockById(state.currentBlockId.value, state.typebotsQueue) == Some(block)
  }

  /** Some message of the caller's original list has id `id`. */
  predicate AmongInitial(initial: seq<Message>, id: string) {
    exists k :: 0 <= k < |initial| && initial[k].id == id
  }

  function Seen(visited: seq<BlockId>): set<BlockId> {
    set b | b in visited
  }

  /** The block id the engine's answer moves the session to, if any. */
  function ReportedBlockId(answer: EngineResult): Option<BlockId> {
    if answer.Answered? && answer.response.newSessionState.Some? then answer.response.newSessionState.value.currentBlockId
    else None
  }

  predicate ReportedWithin(answer: EngineResult, blockIds: set<BlockId>) {
    ReportedBlockId(answer).Some? ==> ReportedBlockId(answer).value in blockIds
  }

  /**
   * In auto-continuation mode the engine only moves the session to block ids from the finite
   * set `blockIds`. The loop terminates under this assumption, and not without it.
   */
  ghost predicate EngineStaysWithin(env: Env, blockIds: set<BlockId>) {
    forall message: Option<string>, state: SessionState :: ReportedWithin(env.continueBotFlow(message, state, true), blockIds)
  }

  /** The engine call of one iteration: the same `message`, the current state under the caller's session id. */
  function ContinuationCall(message: Option<string>, current: SessionState, sessionId: string): Event {
    EngineCall(message, current.(sessionId := Some(sessionId)), true)
  }

  /** The state the loop moves to next, and the block it found for it. */
  datatype Hop = Hop(state: SessionState, block: Block)

  /** How one iteration ends: the whole call stops, or the loop goes on at `hop`. */
  datatype IterationEnd = Stop(events: seq<Event>, outcome: Outcome) | Go(events: seq<Event>, hop: Hop)

  function Prepend(prefix: seq<Event>, r: IterationEnd): IterationEnd {
    match r
    case Stop(events, outcome) => Stop(prefix + events, outcome)
    case Go(events, hop) => Go(prefix + events, hop)
  }

  /** The save event of an answer that carries a new state. */
  function SaveEvents(sessionId: string, response: ChatResponse): seq<Event> {
    if response.newSessionState.None? then []
    else [Save(sessionId, response.newSessionState.value, response.input, response.logs,
               response.clientSideActions, response.visitedEdges)]
  }

  /**
   * What follows an engine answer that passed the duplicate guard: save its state (at trace
   * position `base`), run its turn, then look for the next block unless the flow ended or the
   * block was already visited.
   */
  function Dispatch(env: Env, sessionId: string, response: ChatResponse, visited: seq<BlockId>,
                    base: nat, fuel: nat): IterationEnd
  {
    var saving := SaveEvents(sessionId, response);
    var failure := if response.newSessionState.None? then None
                   else env.saveStateToDatabase(base, sessionId, response.newSessionState.value);
    if failure.Some? then Stop(saving, Failed(SaveFailed(failure.value)))
    else
      var turn := Turn(env, PropsOf(response), base + |saving|, fuel);
      var events := saving + turn.events;
      if !turn.outcome.Completed? then Stop(events, turn.outcome)
      else
        TurnCompletedHasIdentity(env, PropsOf(response), base + |saving|, fuel);
        var next := response.newSessionState.value;
        if !Truthy(next.currentBlockId) || next.currentBlockId.value in visited then Stop(events, Completed)
        else
          match GetBlockById(next.currentBlockId.value, next.typebotsQueue)
          case None => Stop(events, Failed(BlockNotFound(next.currentBlockId.value)))
          case Some(block) => Go(events, Hop(next, block))
  }

  /** One iteration of the `while` loop, from the engine call at trace position `base`. */
  function Iterate(env: Env, sessionId: string, message: Option<string>, initial: seq<Message>,
                   current: SessionState, visited: seq<BlockId>, base: nat, fuel: nat): IterationEnd
  {
    var call := ContinuationCall(message, current, sessionId);
    match env.continueBotFlow(message, call.state, true)
    case Threw(error) => Stop([call], Failed(EngineFailed(error)))
    case Answered(response) =>
      if |response.messages| == 0 then Stop([call], Failed(NoMessages))
      else if AmongInitial(initial, response.messages[0].id) then Stop([call], Completed)
      else Prepend([call], Dispatch(env, sessionId, response, visited, base + 1, fuel))
  }

  datatype FlowEnd = FlowEnd(events: seq<Event>, outcome: Outcome)

  function Behind(prefix: seq<Event>, r: FlowEnd): FlowEnd {
    FlowEnd(prefix + r.events, r.outcome)
  }

  /** The loop from the session `current` on `block`, having visited `visited`. */
  function Continue(env: Env, sessionId: string, message: Option<string>, initial: seq<Message>,
                    current: SessionState, block: Block, visited: seq<BlockId>, base: nat, fuel: nat,
                    ghost blockIds: set<BlockId>): FlowEnd
    requires EngineStaysWithin(env, blockIds)
    decreases |blockIds - Seen(visited)|, 1
  {
    if !ContinuesAt(block) then FlowEnd([], Completed)
    else
      var step := Iterate(env, sessionId, message, initial, current, visited, base, fuel);
      ContinueAfter(env, sessionId, message, initial, current, visited, base, fuel, blockIds, step)
  }

  /** The rest of the loop once the iteration from `current` has given `step`. */
  function ContinueAfter(env: Env, sessionId: string, message: Option<string>, initial: seq<Message>,
                         current: SessionState, visited: seq<BlockId>, base: nat, fuel: nat,
                         ghost blockIds: set<BlockId>, step: IterationEnd): FlowEnd
    requires EngineStaysWithin(env, blockIds)
    requires step == Iterate(env, sessionId, message, initial, current, visited, base, fuel)
    decreases |blockIds - Seen(visited)|, 0
  {
    match step
    case Stop(events, outcome) => FlowEnd(events, outcome)
    case Go(events, hop) =>
      IterateGoesToNewBlock(env, sessionId, message, initial, current, visited, base, fuel, blockIds);
      VisitShrinks(blockIds, visited, hop.block.id);
      Behind(events, Continue(env, sessionId, message, initial, hop.state, hop.block, visited + [hop.block.id],
                              base + |events|, fuel, blockIds))
  }

  /** `multipleWhatsappFlow`: the first turn, then the loop from the block the session sits on. */
  function MultipleFlow(env: Env, sessionId: string, message: Option<string>, state: SessionState,
                        messages: seq<Message>, input: Option<Input>, clientSideActions: seq<ClientSideAction>,
                        fuel: nat, ghost blockIds: set<BlockId>): FlowEnd
    requires EngineStaysWithin(env, blockIds)
  {
    var first := Turn(env, TurnProps(Some(state), messages, input, clientSideActions), 0, fuel);
    if !first.outcome.Completed? then FlowEnd(first.events, first.outcome)
    else if !Truthy(state.currentBlockId) then FlowEnd(first.events, Completed)
    else
      match GetBlockById(state.currentBlockId.value, state.typebotsQueue)
      case None => FlowEnd(first.events, Failed(BlockNotFound(state.currentBlockId.value)))
      case Some(block) =>
        Behind(first.events, Continue(env, sessionId, message, messages, state, block, [block.id],
                                      |first.events|, fuel, blockIds))
  }

  // ---------------------------------------------------------------------------------------
  // Termination
  // ---------------------------------------------------------------------------------------

  /** An iteration that goes on found a block it had not visited, with an id from `blockIds`. */
  lemma IterateGoesToNewBlock(env: Env, sessionId: string, message: Option<string>, initial: seq<Message>,
                              current: SessionState, visited: seq<BlockId>, base: nat, fuel: nat,
                              blockIds: set<BlockId>)
    requires EngineStaysWithin(env, blockIds)
    requires Iterate(env, sessionId, message, initial, current, visited, base, fuel).Go?
    ensures var hop := Iterate(env, sessionId, message, initial, current, visited, base, fuel).hop;
            hop.block.id !in visited && hop.block.id in blockIds && AtBlock(hop.state, hop.block)
  {
    var call := ContinuationCall(message, current, sessionId);
    var answer := env.continueBotFlow(message, call.state, true);
    assert ReportedWithin(answer, blockIds);
    var d := Dispatch(env, sessionId, answer.response, visited, base + 1, fuel);
    assert Iterate(env, sessionId, message, initial, current, visited, base, fuel) == Prepend([call], d);
    DispatchGoesToNewBlock(env, sessionId, answer.response, visited, base + 1, fuel);
  }

  /** A dispatch that goes on moves to the answer's state and to a block it had not visited. */
  lemma DispatchGoesToNewBlock(env: Env, sessionId: string, response: ChatResponse, visited: seq<BlockId>,
                               base: nat, fuel: nat)
    requires Dispatch(env, sessionId, response, visited, base, fuel).Go?
    ensures var hop := Dispatch(env, sessionId, response, visited, base, fuel).hop;
            && response.newSessionState == Some(hop.state) && hop.block.id !in visited && AtBlock(hop.state, hop.block)
            && hop.state.currentBlockId == Some(hop.block.id)
  {
    var saving := SaveEvents(sessionId, response);
    var turn := Turn(env, PropsOf(response), base + |saving|, fuel);
    TurnCompletedHasIdentity(env, PropsOf(response), base + |saving|, fuel);
    var next := response.newSessionState.value;
    var found := GetBlockById(next.currentBlockId.value, next.typebotsQueue);
    assert Dispatch(env, sessionId, response, visited, base, fuel) == Go(saving + turn.events, Hop(next, found.value));
  }

  /** Visiting a new id from `blockIds` leaves fewer of them to visit. */
  lemma VisitShrinks(blockIds: set<BlockId>, visited: seq<BlockId>, id: BlockId)
    requires id in blockIds && id !in visited
    ensures |blockIds - Seen(visited + [id])| < |blockIds - Seen(visited)|
  {
    var left := blockIds - Seen(visited);
    assert Seen(visited + [id]) == Seen(visited) + {id};
    assert blockIds - Seen(visited + [id]) == left - {id};
    assert left == (left - {id}) + {id};
  }

  // ---------------------------------------------------------------------------------------
  // Methods
  // ---------------------------------------------------------------------------------------

  /** The body of the `while` loop, from the engine call at trace position `base` to the next block. */
  method ExecuteIteration(env: Env, sessionId: string, message: Option<string>, initial: seq<Message>,
                          current: SessionState, visited: seq<BlockId>, base: nat, fuel: nat)
    returns (r: IterationEnd)
    ensures r == Iterate(env, sessionId, message, initial, current, visited, base, fuel)
  {
    var asked := current.(sessionId := Some(sessionId));
    var call := EngineCall(message, asked, true);
    var answer := env.continueBotFlow(message, asked, true);
    if answer.Threw? {
      return Stop([call], Failed(EngineFailed(answer.error)));
    }
    var response := answer.response;
    if |response.messages| == 0 {
      return Stop([call], Failed(NoMessages));
    }
    var firstMessageId := response.messages[0].id;
    if AmongInitial(initial, firstMessageId) {
      return Stop([call], Completed);
    }
    ghost var dispatch := Dispatch(env, sessionId, response, visited, base + 1, fuel);
    assert Iterate(env, sessionId, message, initial, current, visited, base, fuel) == Prepend([call], dispatch);
    var saving := [];
    if response.newSessionState.Some? {
      saving := [Save(sessionId, response.newSessionState.value, response.input, response.logs,
                      response.clientSideActions, response.visitedEdges)];
      var failure := env.saveStateToDatabase(base + 1, sessionId, response.newSessionState.value);
      if failure.Some? {
        return Stop([call] + saving, Failed(SaveFailed(failure.value)));
      }
    }
    assert saving == SaveEvents(sessionId, response);
    var turnEvents, turnOutcome := ExecuteWhatsappFlow.ExecuteWhatsappFlow(env, PropsOf(response), base + 1 + |saving|, fuel);
    var events := [call] + (saving + turnEvents);
    if !turnOutcome.Completed? {
      return Stop(events, turnOutcome);
    }
    TurnCompletedHasIdentity(env, PropsOf(response), base + 1 + |saving|, fuel);
    var next := response.newSessionState.value;
    if !Truthy(next.currentBlockId) || next.currentBlockId.value in visited {
      return Stop(events, Completed);
    }
    var found := GetBlockById(next.currentBlockId.value, next.typebotsQueue);
    if found.None? {
      return Stop(events, Failed(BlockNotFound(next.currentBlockId.value)));
    }
    return Go(events, Hop(next, found.value));
  }

  /** Unfolding step: the loop at an iteration that stops the call. */
  lemma ContinueStops(env: Env, sessionId: string, message: Option<string>, initial: seq<Message>,
                      current: SessionState, block: Block, visited: seq<BlockId>, base: nat, fuel: nat,
                      blockIds: set<BlockId>, events: seq<Event>, outcome: Outcome)
    requires EngineStaysWithin(env, blockIds) && ContinuesAt(block)
    requires Iterate(env, sessionId, message, initial, current, visited, base, fuel) == Stop(events, outcome)
    ensures Continue(env, sessionId, message, initial, current, block, visited, base, fuel, blockIds) == FlowEnd(events, outcome)
  {
  }

  /** Unfolding step: the loop past an iteration that goes on. */
  lemma ContinueGoesOn(env: Env, sessionId: string, message: Option<string>, initial: seq<Message>,
                       current: SessionState, block: Block, visited: seq<BlockId>, base: nat, fuel: nat,
                       blockIds: set<BlockId>, events: seq<Event>, hop: Hop)
    requires EngineStaysWithin(env, blockIds) && ContinuesAt(block)
    requires Iterate(env, sessionId, message, initial, current, visited, base, fuel) == Go(events, hop)
    ensures Continue(env, sessionId, message, initial, current, block, visited, base, fuel, blockIds)
            == Behind(events, Continue(env, sessionId, message, initial, hop.state, hop.block, visited + [hop.block.id],
                                       base + |events|, fuel, blockIds))
  {
  }

  /** Proof step: `Behind` re-associates over a concatenated prefix. */
  lemma BehindBehind(prefix: seq<Event>, step: seq<Event>, rest: FlowEnd)
    ensures Behind(prefix, Behind(step, rest)) == Behind(prefix + step, rest)
  {
    assert prefix + (step + rest.events) == (prefix + step) + rest.events;
  }

  /** Proof step: after an iteration that goes on, the rest of the flow is the rest of the loop, one block further. */
  lemma ContinueAdvances(env: Env, sessionId: string, message: Option<string>, initial: seq<Message>,
                         current: SessionState, block: Block, visited: seq<BlockId>, at: nat, fuel: nat,
                         blockIds: set<BlockId>, prefix: seq<Event>, total: FlowEnd, events: seq<Event>, hop: Hop)
    requires EngineStaysWithin(env, blockIds) && ContinuesAt(block)
    requires total == Behind(prefix, Continue(env, sessionId, message, initial, current, block, visited, at, fuel, blockIds))
    requires Iterate(env, sessionId, message, initial, current, visited, at, fuel) == Go(events, hop)
    ensures total == Behind(prefix + events, Continue(env, sessionId, message, initial, hop.state, hop.block,
                                                      visited + [hop.block.id], at + |events|, fuel, blockIds))
    ensures |blockIds - Seen(visited + [hop.block.id])| < |blockIds - Seen(visited)|
  {
    ContinueGoesOn(env, sessionId, message, initial, current, block, visited, at, fuel, blockIds, events, hop);
    IterateGoesToNewBlock(env, sessionId, message, initial, current, visited, at, fuel, blockIds);
    VisitShrinks(blockIds, visited, hop.block.id);
    BehindBehind(prefix, events, Continue(env, sessionId, message, initial, hop.state, hop.block,
                                          visited + [hop.block.id], at + |events|, fuel, blockIds));
  }

  /** Proof step: an iteration that stops ends the flow. */
  lemma ContinueHalts(env: Env, sessionId: string, message: Option<string>, initial: seq<Message>,
                      current: SessionState, block: Block, visited: seq<BlockId>, at: nat, fuel: nat,
                      blockIds: set<BlockId>, prefix: seq<Event>, total: FlowEnd, events: seq<Event>, outcome: Outcome)
    requires EngineStaysWithin(env, blockIds) && ContinuesAt(block)
    requires total == Behind(prefix, Continue(env, sessionId, message, initial, current, block, visited, at, fuel, blockIds))
    requires Iterate(env, sessionId, message, initial, current, visited, at, fuel) == Stop(events, outcome)
    ensures total == FlowEnd(prefix + events, outcome)
  {
    ContinueStops(env, sessionId, message, initial, current, block, visited, at, fuel, blockIds, events, outcome);
  }

  /** Proof step: a block that is not a WhatsApp integration ends the loop. */
  lemma ContinueLeaves(env: Env, sessionId: string, message: Option<string>, initial: seq<Message>,
                       current: SessionState, block: Block, visited: seq<BlockId>, at: nat, fuel: nat,
                       blockIds: set<BlockId>, prefix: seq<Event>, total: FlowEnd)
    requires EngineStaysWithin(env, blockIds) && !ContinuesAt(block)
    requires total == Behind(prefix, Continue(env, sessionId, message, initial, current, block, visited, at, fuel, blockIds))
    ensures total == FlowEnd(prefix, Completed)
  {
    assert prefix + [] == prefix;
  }

  /** Unfolding step: after a completed first turn at a known block, the flow is the first turn followed by the loop. */
  lemma MultipleFlowEnters(env: Env, sessionId: string, message: Option<string>, state: SessionState,
                           messages: seq<Message>, input: Option<Input>, clientSideActions: seq<ClientSideAction>,
                           fuel: nat, blockIds: set<BlockId>, first: TurnEnd, block: Block)
    requires EngineStaysWithin(env, blockIds)
    requires first == Turn(env, TurnProps(Some(state), messages, input, clientSideActions), 0, fuel)
    requires first.outcome.Completed? && Truthy(state.currentBlockId)
    requires GetBlockById(state.currentBlockId.value, state.typebotsQueue) == Some(block)
    ensures MultipleFlow(env, sessionId, message, state, messages, input, clientSideActions, fuel, blockIds)
            == Behind(first.events, Continue(env, sessionId, message, messages, state, block, [block.id],
                                             |first.events|, fuel, blockIds))
  {
  }

  /** The `while` loop of `multipleWhatsappFlow`, from `block` on, its trace starting at position `at`. */
  method ExecuteLoop(env: Env, sessionId: string, message: Option<string>, initial: seq<Message>,
                     current: SessionState, block: Block, visited: seq<BlockId>, at: nat, fuel: nat,
                     ghost blockIds: set<BlockId>)
    returns (events: seq<Event>, outcome: Outcome)
    requires EngineStaysWithin(env, blockIds)
    ensures FlowEnd(events, outcome) == Continue(env, sessionId, message, initial, current, block, visited, at, fuel, blockIds)
  {
    var current, block, visited := current, block, visited;
    var position: nat := at;
    events := [];
    ghost var total := Continue(env, sessionId, message, initial, current, block, visited, at, fuel, blockIds);
    assert total == Behind(events, total);
    while ContinuesAt(block)
      invariant total == Behind(events, Continue(env, sessionId, message, initial, current, block, visited, position, fuel, blockIds))
      decreases |blockIds - Seen(visited)|
    {
      var step := ExecuteIteration(env, sessionId, message, initial, current, visited, position, fuel);
      if step.Stop? {
        ContinueHalts(env, sessionId, message, initial, current, block, visited, position, fuel, blockIds,
                      events, total, step.events, step.outcome);
        return events + step.events, step.outcome;
      }
      var stepEvents, hop := step.events, step.hop;
      ContinueAdvances(env, sessionId, message, initial, current, block, visited, position, fuel, blockIds,
                       events, total, stepEvents, hop);
      events, position := events + stepEvents, position + |stepEvents|;
      current, block, visited := hop.state, hop.block, visited + [hop.block.id];
    }
    ContinueLeaves(env, sessionId, message, initial, current, block, visited, position, fuel, blockIds, events, total);
    outcome := Completed;
  }

  /**
   * `multipleWhatsappFlow`. `fuel` bounds the restarts of each turn; `blockIds` is the finite
   * set of block ids the engine can move the session to, and exists only for the proof.
   */
  method MultipleWhatsappFlow(env: Env, sessionId: string, message: Option<string>, state: SessionState,
                              messages: seq<Message>, input: Option<Input>, clientSideActions: seq<ClientSideAction>,
                              fuel: nat, ghost blockIds: set<BlockId>)
    returns (events: seq<Event>, outcome: Outcome)
    requires EngineStaysWithin(env, blockIds)
    ensures FlowEnd(events, outcome) == MultipleFlow(env, sessionId, message, state, messages, input, clientSideActions, fuel, blockIds)
  {
    events, outcome := ExecuteWhatsappFlow.ExecuteWhatsappFlow(env, TurnProps(Some(state), messages, input, clientSideActions), 0, fuel);
    if !outcome.Completed? || !Truthy(state.currentBlockId) {
      return;
    }
    var found := GetBlockById(state.currentBlockId.value, state.typebotsQueue);
    if found.None? {
      return events, Failed(BlockNotFound(state.currentBlockId.value));
    }
    MultipleFlowEnters(env, sessionId, message, state, messages, input, clientSideActions, fuel, blockIds,
                       TurnEnd(events, outcome), found.value);
    var rest, last := ExecuteLoop(env, sessionId, message, messages, state, found.value, [found.value.id], |events|, fuel, blockIds);
    events, outcome := events + rest, last;
  }
}
