/**
 * Properties of `multipleWhatsappFlow`: the first turn comes first, the continuation calls form
 * a chain through the states the engine returns, each is made at a WhatsApp integration block
 * and at a block no earlier call was made at, every new state is saved before its turn, and
 * the number of calls is bounded by the number of block ids.
 */
module FlowProperties {
  import opened Wrappers
  import opened WhatsappTypes
  import opened Traces
  import opened ExecuteWhatsappFlow
  import opened PassProperties
  import opened MultipleWhatsappFlow

  /** The engine's answer to a recorded engine call. */
  function Answer(env: Env, call: Event): EngineResult
    requires call.EngineCall?
  {
    env.continueBotFlow(call.reply, call.state, call.multipleIntegration)
  }

  /** The answer ends the loop before anything is saved: it threw, was empty, or repeats an original message. */
  predicate Halts(initial: seq<Message>, answer: EngineResult) {
    answer.Threw? || |answer.response.messages| == 0 || AmongInitial(initial, answer.response.messages[0].id)
  }

  /**
   * What follows the continuation call at index `k` of `t`: an answer that halts, or that has no
   * state to run a turn on, ends the trace; any other answer's state is saved right away.
   */
  predicate Dispatched(env: Env, sessionId: string, initial: seq<Message>, t: seq<Event>, k: int)
    requires 0 <= k < |t| && t[k].EngineCall?
  {
    var answer := Answer(env, t[k]);
    if Halts(initial, answer) || answer.response.newSessionState.None? then k == |t| - 1
    else k + 1 < |t| && [t[k + 1]] == SaveEvents(sessionId, answer.response)
  }

  /** Every continuation call is dispatched as above, and every save follows a continuation call. */
  predicate SavedBeforeDispatch(env: Env, sessionId: string, initial: seq<Message>, t: seq<Event>) {
    && (forall k :: 0 <= k < |t| && IsContinuationCall(t[k]) ==> Dispatched(env, sessionId, initial, t, k))
    && (forall k :: 0 <= k < |t| && t[k].Save? ==> 0 < k && IsContinuationCall(t[k - 1]))
  }

  // ---------------------------------------------------------------------------------------
  // One iteration
  // ---------------------------------------------------------------------------------------

  /** Without a new state there is nothing to save, and the turn fails before doing anything. */
  lemma DispatchWithoutState(env: Env, sessionId: string, response: ChatResponse, visited: seq<BlockId>,
                             base: nat, fuel: nat)
    requires response.newSessionState.None?
    ensures Dispatch(env, sessionId, response, visited, base, fuel) == Stop([], Failed(ComponentNotConfigured))
  {
    TurnConfigErrors(env, PropsOf(response), base, fuel);
    assert SaveEvents(sessionId, response) == [];
  }

  /** With a new state, the dispatch saves it first and then records only turn events. */
  lemma DispatchWithState(env: Env, sessionId: string, response: ChatResponse, visited: seq<BlockId>,
                          base: nat, fuel: nat)
    requires response.newSessionState.Some?
    ensures var d := Dispatch(env, sessionId, response, visited, base, fuel);
            |d.events| >= 1 && [d.events[0]] == SaveEvents(sessionId, response) && AllTurnEvents(d.events[1..])
  {
    var saving := SaveEvents(sessionId, response);
    var turn := Turn(env, PropsOf(response), base + |saving|, fuel);
    TurnEvents(env, PropsOf(response), base + |saving|, fuel);
    var d := Dispatch(env, sessionId, response, visited, base, fuel);
    assert d.events == saving || d.events == saving + turn.events;
    assert d.events[1..] == [] || d.events[1..] == turn.events;
  }

  /**
   * An answer that halts leaves the call as the iteration's only event. An engine error
   * propagates, an answer without messages is an error (reading `messages[0].id` throws), and a
   * first message the caller already had is a normal return.
   */
  lemma IterateHalts(env: Env, sessionId: string, message: Option<string>, initial: seq<Message>,
                     current: SessionState, visited: seq<BlockId>, base: nat, fuel: nat)
    requires Halts(initial, Answer(env, ContinuationCall(message, current, sessionId)))
    ensures var r := Iterate(env, sessionId, message, initial, current, visited, base, fuel);
            r.Stop? && r.events == [ContinuationCall(message, current, sessionId)]
    ensures var answer := Answer(env, ContinuationCall(message, current, sessionId));
            var r := Iterate(env, sessionId, message, initial, current, visited, base, fuel);
            && (answer.Threw? ==> r.outcome == Failed(EngineFailed(answer.error)))
            && (answer.Answered? && |answer.response.messages| == 0 ==> r.outcome == Failed(NoMessages))
            && (answer.Answered? && |answer.response.messages| > 0 ==> r.outcome == Completed)
  {
  }

  /**
   * How an iteration past the guard with a new state ends: a failed save is an error right
   * after the save; a turn that does not complete ends the call with the turn's outcome; a
   * completed turn whose state has no current block, or one already visited, is a normal
   * return; a current block missing from the flow graph is an error; otherwise the loop goes on.
   */
  lemma IterateAfterSave(env: Env, sessionId: string, message: Option<string>, initial: seq<Message>,
                         current: SessionState, visited: seq<BlockId>, base: nat, fuel: nat)
    requires var answer := Answer(env, ContinuationCall(message, current, sessionId));
             !Halts(initial, answer) && answer.response.newSessionState.Some?
    ensures var response := Answer(env, ContinuationCall(message, current, sessionId)).response;
            var next := response.newSessionState.value;
            var failure := env.saveStateToDatabase(base + 1, sessionId, next);
            var turn := Turn(env, PropsOf(response), base + 2, fuel);
            var r := Iterate(env, sessionId, message, initial, current, visited, base, fuel);
            && (failure.Some? ==> r == Stop([ContinuationCall(message, current, sessionId)] + SaveEvents(sessionId, response),
                                            Failed(SaveFailed(failure.value))))
            && (failure.None? && !turn.outcome.Completed? ==> r.Stop? && r.outcome == turn.outcome)
            && (failure.None? && turn.outcome.Completed? && (!Truthy(next.currentBlockId) || next.currentBlockId.value in visited)
                ==> r.Stop? && r.outcome == Completed)
            && (failure.None? && turn.outcome.Completed? && Truthy(next.currentBlockId) && next.currentBlockId.value !in visited
                ==> (GetBlockById(next.currentBlockId.value, next.typebotsQueue).None?
                     ==> r.Stop? && r.outcome == Failed(BlockNotFound(next.currentBlockId.value)))
                    && (GetBlockById(next.currentBlockId.value, next.typebotsQueue).Some? ==> r.Go?))
  {
    var call := ContinuationCall(message, current, sessionId);
    var response := Answer(env, call).response;
    assert |SaveEvents(sessionId, response)| == 1;
    assert Iterate(env, sessionId, message, initial, current, visited, base, fuel)
        == Prepend([call], Dispatch(env, sessionId, response, visited, base + 1, fuel));
  }

  lemma IterateWithoutState(env: Env, sessionId: string, message: Option<string>, initial: seq<Message>,
                            current: SessionState, visited: seq<BlockId>, base: nat, fuel: nat)
    requires var answer := Answer(env, ContinuationCall(message, current, sessionId));
             !Halts(initial, answer) && answer.response.newSessionState.None?
    ensures Iterate(env, sessionId, message, initial, current, visited, base, fuel)
            == Stop([ContinuationCall(message, current, sessionId)], Failed(ComponentNotConfigured))
  {
    var answer := Answer(env, ContinuationCall(message, current, sessionId));
    DispatchWithoutState(env, sessionId, answer.response, visited, base + 1, fuel);
  }

  lemma IterateSaves(env: Env, sessionId: string, message: Option<string>, initial: seq<Message>,
                     current: SessionState, visited: seq<BlockId>, base: nat, fuel: nat)
    requires var answer := Answer(env, ContinuationCall(message, current, sessionId));
             !Halts(initial, answer) && answer.response.newSessionState.Some?
    ensures var answer := Answer(env, ContinuationCall(message, current, sessionId));
            var r := Iterate(env, sessionId, message, initial, current, visited, base, fuel);
            && |r.events| >= 2 && r.events[0] == ContinuationCall(message, current, sessionId)
            && [r.events[1]] == SaveEvents(sessionId, answer.response) && AllTurnEvents(r.events[2..])
  {
    var call := ContinuationCall(message, current, sessionId);
    var answer := Answer(env, call);
    var d := Dispatch(env, sessionId, answer.response, visited, base + 1, fuel);
    DispatchWithState(env, sessionId, answer.response, visited, base + 1, fuel);
    var r := Iterate(env, sessionId, message, initial, current, visited, base, fuel);
    assert r == Prepend([call], d);
    assert r.events == [call] + d.events;
    assert r.events[2..] == d.events[1..];
  }

  /** An iteration that goes on got a state from the engine, saved it, and moved to its block. */
  lemma IterateGoes(env: Env, sessionId: string, message: Option<string>, initial: seq<Message>,
                    current: SessionState, visited: seq<BlockId>, base: nat, fuel: nat,
                    events: seq<Event>, hop: Hop)
    requires Iterate(env, sessionId, message, initial, current, visited, base, fuel) == Go(events, hop)
    ensures var answer := Answer(env, ContinuationCall(message, current, sessionId));
            && !Halts(initial, answer) && answer.response.newSessionState == Some(hop.state)
            && hop.state.currentBlockId == Some(hop.block.id) && hop.block.id !in visited
            && AtBlock(hop.state, hop.block)
            && |events| >= 2 && events[0] == ContinuationCall(message, current, sessionId)
            && [events[1]] == SaveEvents(sessionId, answer.response) && AllTurnEvents(events[2..])
  {
    var call := ContinuationCall(message, current, sessionId);
    var answer := Answer(env, call);
    var d := Dispatch(env, sessionId, answer.response, visited, base + 1, fuel);
    assert Iterate(env, sessionId, message, initial, current, visited, base, fuel) == Prepend([call], d);
    DispatchGoesToNewBlock(env, sessionId, answer.response, visited, base + 1, fuel);
    IterateSaves(env, sessionId, message, initial, current, visited, base, fuel);
  }

  /** Every iteration records exactly one continuation call, its own. */
  lemma IterationCalls(env: Env, sessionId: string, message: Option<string>, initial: seq<Message>,
                       current: SessionState, visited: seq<BlockId>, base: nat, fuel: nat)
    ensures ContinuationCalls(Iterate(env, sessionId, message, initial, current, visited, base, fuel).events)
            == [ContinuationCall(message, current, sessionId)]
  {
    var call := ContinuationCall(message, current, sessionId);
    var answer := Answer(env, call);
    var events := Iterate(env, sessionId, message, initial, current, visited, base, fuel).events;
    if Halts(initial, answer) {
      IterateHalts(env, sessionId, message, initial, current, visited, base, fuel);
      SingleCall(call);
    } else if answer.response.newSessionState.None? {
      IterateWithoutState(env, sessionId, message, initial, current, visited, base, fuel);
      SingleCall(call);
    } else {
      IterateSaves(env, sessionId, message, initial, current, visited, base, fuel);
      CallThenSave(events);
    }
  }

  lemma SingleCall(call: Event)
    requires IsContinuationCall(call)
    ensures ContinuationCalls([call]) == [call]
  {
    assert [call][1..] == [];
  }

  lemma CallThenSave(t: seq<Event>)
    requires |t| >= 2 && IsContinuationCall(t[0]) && t[1].Save? && AllTurnEvents(t[2..])
    ensures ContinuationCalls(t) == [t[0]]
  {
    TurnEventsHaveNoContinuationCalls(t[2..]);
    assert t[1..][1..] == t[2..];
    assert ContinuationCalls(t[1..]) == ContinuationCalls(t[2..]);
  }

  // ---------------------------------------------------------------------------------------
  // Save before dispatch
  // ---------------------------------------------------------------------------------------

  /** The events of an iteration that stops are dispatched as `SavedBeforeDispatch` says. */
  lemma StoppedIterationSaved(env: Env, sessionId: string, message: Option<string>, initial: seq<Message>,
                              current: SessionState, visited: seq<BlockId>, base: nat, fuel: nat)
    requires Iterate(env, sessionId, message, initial, current, visited, base, fuel).Stop?
    ensures SavedBeforeDispatch(env, sessionId, initial, Iterate(env, sessionId, message, initial, current, visited, base, fuel).events)
  {
    var call := ContinuationCall(message, current, sessionId);
    var answer := Answer(env, call);
    var t := Iterate(env, sessionId, message, initial, current, visited, base, fuel).events;
    if Halts(initial, answer) {
      IterateHalts(env, sessionId, message, initial, current, visited, base, fuel);
      CallAloneSaved(env, sessionId, initial, t);
    } else if answer.response.newSessionState.None? {
      IterateWithoutState(env, sessionId, message, initial, current, visited, base, fuel);
      CallAloneSaved(env, sessionId, initial, t);
    } else {
      IterateSaves(env, sessionId, message, initial, current, visited, base, fuel);
      SegmentSaved(env, sessionId, initial, t, []);
      assert t + [] == t;
    }
  }

  lemma CallAloneSaved(env: Env, sessionId: string, initial: seq<Message>, t: seq<Event>)
    requires |t| == 1 && IsContinuationCall(t[0])
    requires Halts(initial, Answer(env, t[0])) || Answer(env, t[0]).response.newSessionState.None?
    ensures SavedBeforeDispatch(env, sessionId, initial, t)
  {
  }

  /** An iteration that saved its state, in front of any trace dispatched as `SavedBeforeDispatch` says. */
  lemma SegmentSaved(env: Env, sessionId: string, initial: seq<Message>, segment: seq<Event>, rest: seq<Event>)
    requires |segment| >= 2 && IsContinuationCall(segment[0])
    requires var answer := Answer(env, segment[0]);
             && !Halts(initial, answer) && answer.response.newSessionState.Some?
             && [segment[1]] == SaveEvents(sessionId, answer.response)
    requires AllTurnEvents(segment[2..])
    requires SavedBeforeDispatch(env, sessionId, initial, rest)
    ensures SavedBeforeDispatch(env, sessionId, initial, segment + rest)
  {
    var t := segment + rest;
    assert forall j :: 2 <= j < |segment| ==> TurnEvent(segment[j]) by {
      forall j | 2 <= j < |segment|
        ensures TurnEvent(segment[j])
      {
        assert segment[j] == segment[2..][j - 2];
      }
    }
    forall k | 0 <= k < |t| && IsContinuationCall(t[k])
      ensures Dispatched(env, sessionId, initial, t, k)
    {
      if k >= |segment| {
        assert t[k] == rest[k - |segment|];
        assert Dispatched(env, sessionId, initial, rest, k - |segment|);
        if k + 1 < |t| {
          assert t[k + 1] == rest[k + 1 - |segment|];
        }
      }
    }
    forall k | 0 <= k < |t| && t[k].Save?
      ensures 0 < k && IsContinuationCall(t[k - 1])
    {
      if k >= |segment| {
        assert t[k] == rest[k - |segment|];
        if k - |segment| > 0 {
          assert t[k - 1] == rest[k - 1 - |segment|];
        }
      }
    }
  }

  /** Turn events in front of a trace change nothing about save-before-dispatch. */
  lemma TurnEventsSaved(env: Env, sessionId: string, initial: seq<Message>, first: seq<Event>, rest: seq<Event>)
    requires AllTurnEvents(first)
    requires SavedBeforeDispatch(env, sessionId, initial, rest)
    ensures SavedBeforeDispatch(env, sessionId, initial, first + rest)
  {
    var t := first + rest;
    assert forall j :: 0 <= j < |first| ==> t[j] == first[j];
    forall k | 0 <= k < |t| && IsContinuationCall(t[k])
      ensures Dispatched(env, sessionId, initial, t, k)
    {
      if k >= |first| {
        assert t[k] == rest[k - |first|];
        assert Dispatched(env, sessionId, initial, rest, k - |first|);
        if k + 1 < |t| {
          assert t[k + 1] == rest[k + 1 - |first|];
        }
      }
    }
    forall k | 0 <= k < |t| && t[k].Save?
      ensures 0 < k && IsContinuationCall(t[k - 1])
    {
      if k >= |first| {
        assert t[k] == rest[k - |first|];
        assert t[k - 1] == rest[k - 1 - |first|];
      }
    }
  }

  /** The step of `ContinueSaves` for an iteration that goes on. */
  lemma SavedAcrossHop(env: Env, sessionId: string, message: Option<string>, initial: seq<Message>,
                       current: SessionState, block: Block, visited: seq<BlockId>, base: nat, fuel: nat,
                       blockIds: set<BlockId>, events: seq<Event>, hop: Hop, whole: seq<Event>, rest: seq<Event>)
    requires EngineStaysWithin(env, blockIds) && ContinuesAt(block)
    requires Iterate(env, sessionId, message, initial, current, visited, base, fuel) == Go(events, hop)
    requires whole == Continue(env, sessionId, message, initial, current, block, visited, base, fuel, blockIds).events
    requires rest == Continue(env, sessionId, message, initial, hop.state, hop.block, visited + [hop.block.id],
                              base + |events|, fuel, blockIds).events
    requires SavedBeforeDispatch(env, sessionId, initial, rest)
    ensures SavedBeforeDispatch(env, sessionId, initial, whole)
  {
    ContinueGoesOn(env, sessionId, message, initial, current, block, visited, base, fuel, blockIds, events, hop);
    IterateGoes(env, sessionId, message, initial, current, visited, base, fuel, events, hop);
    SegmentSaved(env, sessionId, initial, events, rest);
  }

  /** Every trace of the loop saves each new state before its turn, and the guards end it. */
  lemma {:induction false} ContinueSaves(env: Env, sessionId: string, message: Option<string>, initial: seq<Message>,
                                         current: SessionState, block: Block, visited: seq<BlockId>, base: nat,
                                         fuel: nat, blockIds: set<BlockId>)
    requires EngineStaysWithin(env, blockIds)
    ensures SavedBeforeDispatch(env, sessionId, initial,
                                Continue(env, sessionId, message, initial, current, block, visited, base, fuel, blockIds).events)
    decreases |blockIds - Seen(visited)|
  {
    if ContinuesAt(block) {
      var step := Iterate(env, sessionId, message, initial, current, visited, base, fuel);
      if step.Stop? {
        ContinueStops(env, sessionId, message, initial, current, block, visited, base, fuel, blockIds, step.events, step.outcome);
        StoppedIterationSaved(env, sessionId, message, initial, current, visited, base, fuel);
      } else {
        var events, hop := step.events, step.hop;
        IterateGoesToNewBlock(env, sessionId, message, initial, current, visited, base, fuel, blockIds);
        VisitShrinks(blockIds, visited, hop.block.id);
        ContinueSaves(env, sessionId, message, initial, hop.state, hop.block, visited + [hop.block.id],
                      base + |events|, fuel, blockIds);
        SavedAcrossHop(env, sessionId, message, initial, current, block, visited, base, fuel, blockIds, events, hop,
                       Continue(env, sessionId, message, initial, current, block, visited, base, fuel, blockIds).events,
                       Continue(env, sessionId, message, initial, hop.state, hop.block, visited + [hop.block.id],
                                base + |events|, fuel, blockIds).events);
      }
    } else {
      assert Continue(env, sessionId, message, initial, current, block, visited, base, fuel, blockIds).events == [];
    }
  }

  // ---------------------------------------------------------------------------------------
  // The continuation calls
  // ---------------------------------------------------------------------------------------

  /** `next` is the call the loop makes after `prev`: the same reply, on the state `prev`'s answer returned. */
  predicate Follows(env: Env, sessionId: string, prev: Event, next: Event) {
    && prev.EngineCall?
    && var answer := Answer(env, prev);
    && answer.Answered? && answer.response.newSessionState.Some?
    && next == EngineCall(prev.reply, answer.response.newSessionState.value.(sessionId := Some(sessionId)), true)
  }

  predicate Chained(env: Env, sessionId: string, calls: seq<Event>) {
    forall k :: 0 <= k < |calls| - 1 ==> Follows(env, sessionId, calls[k], calls[k + 1])
  }

  /** The session sits on a WhatsApp integration block with options, the loop's condition. */
  predicate AtIntegration(state: SessionState) {
    && Truthy(state.currentBlockId)
    && var found := GetBlockById(state.currentBlockId.value, state.typebotsQueue);
    && found.Some? && ContinuesAt(found.value)
  }

  predicate Guarded(calls: seq<Event>) {
    forall k :: 0 <= k < |calls| ==> calls[k].EngineCall? && AtIntegration(calls[k].state)
  }

  /** The block an engine call was made at. */
  function CallBlock(e: Event): Option<BlockId> {
    if e.EngineCall? then e.state.currentBlockId else None
  }

  /** No two calls are made at the same block. */
  predicate DistinctBlocks(calls: seq<Event>) {
    forall i, j :: 0 <= i < j < |calls| ==> CallBlock(calls[i]) != CallBlock(calls[j])
  }

  /** The calls after the first are made at blocks outside `visited`. */
  predicate LaterOutside(calls: seq<Event>, visited: seq<BlockId>) {
    forall k :: 0 < k < |calls| ==> CallBlock(calls[k]).Some? && CallBlock(calls[k]).value !in visited
  }

  /** The calls of an iteration that goes on: its own, then those of the rest of the loop. */
  lemma CallsAcrossHop(env: Env, sessionId: string, message: Option<string>, initial: seq<Message>,
                       current: SessionState, block: Block, visited: seq<BlockId>, base: nat, fuel: nat,
                       blockIds: set<BlockId>, events: seq<Event>, hop: Hop, whole: seq<Event>, rest: seq<Event>)
    requires EngineStaysWithin(env, blockIds) && ContinuesAt(block)
    requires Iterate(env, sessionId, message, initial, current, visited, base, fuel) == Go(events, hop)
    requires whole == ContinuationCalls(Continue(env, sessionId, message, initial, current, block, visited, base, fuel, blockIds).events)
    requires rest == ContinuationCalls(Continue(env, sessionId, message, initial, hop.state, hop.block,
                                                visited + [hop.block.id], base + |events|, fuel, blockIds).events)
    ensures whole == [ContinuationCall(message, current, sessionId)] + rest
  {
    var next := Continue(env, sessionId, message, initial, hop.state, hop.block, visited + [hop.block.id],
                         base + |events|, fuel, blockIds);
    ContinueGoesOn(env, sessionId, message, initial, current, block, visited, base, fuel, blockIds, events, hop);
    ContinuationCallsConcat(events, next.events);
    IterationCalls(env, sessionId, message, initial, current, visited, base, fuel);
  }

  /** The calls of an iteration that stops: its own only. */
  lemma CallsAtStop(env: Env, sessionId: string, message: Option<string>, initial: seq<Message>,
                    current: SessionState, block: Block, visited: seq<BlockId>, base: nat, fuel: nat,
                    blockIds: set<BlockId>, whole: seq<Event>)
    requires EngineStaysWithin(env, blockIds) && ContinuesAt(block)
    requires Iterate(env, sessionId, message, initial, current, visited, base, fuel).Stop?
    requires whole == ContinuationCalls(Continue(env, sessionId, message, initial, current, block, visited, base, fuel, blockIds).events)
    ensures whole == [ContinuationCall(message, current, sessionId)]
  {
    var step := Iterate(env, sessionId, message, initial, current, visited, base, fuel);
    ContinueStops(env, sessionId, message, initial, current, block, visited, base, fuel, blockIds, step.events, step.outcome);
    IterationCalls(env, sessionId, message, initial, current, visited, base, fuel);
  }

  /** The call after an iteration that goes on is made on the state that iteration's answer returned. */
  lemma FollowsAcrossHop(env: Env, sessionId: string, message: Option<string>, initial: seq<Message>,
                         current: SessionState, visited: seq<BlockId>, base: nat, fuel: nat,
                         events: seq<Event>, hop: Hop)
    requires Iterate(env, sessionId, message, initial, current, visited, base, fuel) == Go(events, hop)
    ensures Follows(env, sessionId, ContinuationCall(message, current, sessionId), ContinuationCall(message, hop.state, sessionId))
  {
    IterateGoes(env, sessionId, message, initial, current, visited, base, fuel, events, hop);
  }

  lemma ChainedCons(env: Env, sessionId: string, call: Event, rest: seq<Event>)
    requires Chained(env, sessionId, rest)
    requires rest != [] ==> Follows(env, sessionId, call, rest[0])
    ensures Chained(env, sessionId, [call] + rest)
  {
    var calls := [call] + rest;
    forall k | 0 <= k < |calls| - 1
      ensures Follows(env, sessionId, calls[k], calls[k + 1])
    {
      if k > 0 {
        assert calls[k] == rest[k - 1] && calls[k + 1] == rest[k];
      }
    }
  }

  /**
   * The loop's calls: there are some exactly when the block passes the loop's condition; the
   * first is made on `current`, each later one on the state the previous answer returned.
   */
  lemma {:induction false} ContinueChained(env: Env, sessionId: string, message: Option<string>, initial: seq<Message>,
                                           current: SessionState, block: Block, visited: seq<BlockId>, base: nat,
                                           fuel: nat, blockIds: set<BlockId>)
    requires EngineStaysWithin(env, blockIds)
    ensures var calls := ContinuationCalls(Continue(env, sessionId, message, initial, current, block, visited, base, fuel, blockIds).events);
            && (calls == [] <==> !ContinuesAt(block))
            && (calls != [] ==> calls[0] == ContinuationCall(message, current, sessionId))
            && Chained(env, sessionId, calls)
    decreases |blockIds - Seen(visited)|
  {
    var whole := ContinuationCalls(Continue(env, sessionId, message, initial, current, block, visited, base, fuel, blockIds).events);
    if !ContinuesAt(block) {
      assert Continue(env, sessionId, message, initial, current, block, visited, base, fuel, blockIds).events == [];
    } else {
      var step := Iterate(env, sessionId, message, initial, current, visited, base, fuel);
      if step.Stop? {
        CallsAtStop(env, sessionId, message, initial, current, block, visited, base, fuel, blockIds, whole);
      } else {
        var events, hop := step.events, step.hop;
        IterateGoesToNewBlock(env, sessionId, message, initial, current, visited, base, fuel, blockIds);
        VisitShrinks(blockIds, visited, hop.block.id);
        var rest := ContinuationCalls(Continue(env, sessionId, message, initial, hop.state, hop.block,
                                               visited + [hop.block.id], base + |events|, fuel, blockIds).events);
        ContinueChained(env, sessionId, message, initial, hop.state, hop.block, visited + [hop.block.id],
                        base + |events|, fuel, blockIds);
        CallsAcrossHop(env, sessionId, message, initial, current, block, visited, base, fuel, blockIds, events, hop, whole, rest);
        FollowsAcrossHop(env, sessionId, message, initial, current, visited, base, fuel, events, hop);
        ChainedCons(env, sessionId, ContinuationCall(message, current, sessionId), rest);
      }
    }
  }

  lemma GuardedCons(call: Event, rest: seq<Event>)
    requires call.EngineCall? && AtIntegration(call.state) && Guarded(rest)
    ensures Guarded([call] + rest)
  {
    var calls := [call] + rest;
    forall k | 0 <= k < |calls|
      ensures calls[k].EngineCall? && AtIntegration(calls[k].state)
    {
      if k > 0 {
        assert calls[k] == rest[k - 1];
      }
    }
  }

  /** Every call of the loop is made while the session sits on a WhatsApp integration block. */
  lemma {:induction false} ContinueGuarded(env: Env, sessionId: string, message: Option<string>, initial: seq<Message>,
                                           current: SessionState, block: Block, visited: seq<BlockId>, base: nat,
                                           fuel: nat, blockIds: set<BlockId>)
    requires EngineStaysWithin(env, blockIds) && AtBlock(current, block)
    ensures Guarded(ContinuationCalls(Continue(env, sessionId, message, initial, current, block, visited, base, fuel, blockIds).events))
    decreases |blockIds - Seen(visited)|
  {
    var whole := ContinuationCalls(Continue(env, sessionId, message, initial, current, block, visited, base, fuel, blockIds).events);
    var call := ContinuationCall(message, current, sessionId);
    if !ContinuesAt(block) {
      assert Continue(env, sessionId, message, initial, current, block, visited, base, fuel, blockIds).events == [];
    } else {
      assert AtIntegration(call.state);
      var step := Iterate(env, sessionId, message, initial, current, visited, base, fuel);
      if step.Stop? {
        CallsAtStop(env, sessionId, message, initial, current, block, visited, base, fuel, blockIds, whole);
        GuardedCons(call, []);
      } else {
        var events, hop := step.events, step.hop;
        IterateGoesToNewBlock(env, sessionId, message, initial, current, visited, base, fuel, blockIds);
        VisitShrinks(blockIds, visited, hop.block.id);
        var rest := ContinuationCalls(Continue(env, sessionId, message, initial, hop.state, hop.block,
                                               visited + [hop.block.id], base + |events|, fuel, blockIds).events);
        ContinueGuarded(env, sessionId, message, initial, hop.state, hop.block, visited + [hop.block.id],
                        base + |events|, fuel, blockIds);
        CallsAcrossHop(env, sessionId, message, initial, current, block, visited, base, fuel, blockIds, events, hop, whole, rest);
        GuardedCons(call, rest);
      }
    }
  }

  lemma DistinctCons(call: Event, rest: seq<Event>, id: BlockId, visited: seq<BlockId>, next: BlockId)
    requires CallBlock(call) == Some(id) && id in visited && next !in visited
    requires rest != [] ==> CallBlock(rest[0]) == Some(next)
    requires LaterOutside(rest, visited + [next]) && DistinctBlocks(rest)
    ensures LaterOutside([call] + rest, visited) && DistinctBlocks([call] + rest)
  {
    var calls := [call] + rest;
    forall k | 0 < k < |calls|
      ensures CallBlock(calls[k]).Some? && CallBlock(calls[k]).value !in visited
    {
      assert calls[k] == rest[k - 1];
      if k > 1 {
        assert CallBlock(calls[k]).value !in visited + [next];
      }
    }
    forall i, j | 0 <= i < j < |calls|
      ensures CallBlock(calls[i]) != CallBlock(calls[j])
    {
      if i > 0 {
        assert calls[i] == rest[i - 1] && calls[j] == rest[j - 1];
      }
    }
  }

  /**
   * The loop's calls are made at pairwise distinct blocks, the first at `block`, the later ones
   * at blocks not yet visited.
   */
  lemma {:induction false} ContinueDistinct(env: Env, sessionId: string, message: Option<string>, initial: seq<Message>,
                                            current: SessionState, block: Block, visited: seq<BlockId>, base: nat,
                                            fuel: nat, blockIds: set<BlockId>)
    requires EngineStaysWithin(env, blockIds) && AtBlock(current, block) && block.id in visited
    ensures var calls := ContinuationCalls(Continue(env, sessionId, message, initial, current, block, visited, base, fuel, blockIds).events);
            && (calls != [] ==> CallBlock(calls[0]) == Some(block.id))
            && LaterOutside(calls, visited) && DistinctBlocks(calls)
    decreases |blockIds - Seen(visited)|
  {
    var whole := ContinuationCalls(Continue(env, sessionId, message, initial, current, block, visited, base, fuel, blockIds).events);
    var call := ContinuationCall(message, current, sessionId);
    if !ContinuesAt(block) {
      assert Continue(env, sessionId, message, initial, current, block, visited, base, fuel, blockIds).events == [];
    } else {
      var step := Iterate(env, sessionId, message, initial, current, visited, base, fuel);
      if step.Stop? {
        CallsAtStop(env, sessionId, message, initial, current, block, visited, base, fuel, blockIds, whole);
      } else {
        var events, hop := step.events, step.hop;
        IterateGoesToNewBlock(env, sessionId, message, initial, current, visited, base, fuel, blockIds);
        VisitShrinks(blockIds, visited, hop.block.id);
        var rest := ContinuationCalls(Continue(env, sessionId, message, initial, hop.state, hop.block,
                                               visited + [hop.block.id], base + |events|, fuel, blockIds).events);
        ContinueDistinct(env, sessionId, message, initial, hop.state, hop.block, visited + [hop.block.id],
                         base + |events|, fuel, blockIds);
        CallsAcrossHop(env, sessionId, message, initial, current, block, visited, base, fuel, blockIds, events, hop, whole, rest);
        DistinctCons(call, rest, block.id, visited, hop.block.id);
      }
    }
  }

  /** The loop makes at most one call more than there are block ids it has not visited. */
  lemma {:induction false} ContinueBounded(env: Env, sessionId: string, message: Option<string>, initial: seq<Message>,
                                           current: SessionState, block: Block, visited: seq<BlockId>, base: nat,
                                           fuel: nat, blockIds: set<BlockId>)
    requires EngineStaysWithin(env, blockIds)
    ensures |ContinuationCalls(Continue(env, sessionId, message, initial, current, block, visited, base, fuel, blockIds).events)|
            <= |blockIds - Seen(visited)| + 1
    decreases |blockIds - Seen(visited)|
  {
    var whole := ContinuationCalls(Continue(env, sessionId, message, initial, current, block, visited, base, fuel, blockIds).events);
    if !ContinuesAt(block) {
      assert Continue(env, sessionId, message, initial, current, block, visited, base, fuel, blockIds).events == [];
    } else {
      var step := Iterate(env, sessionId, message, initial, current, visited, base, fuel);
      if step.Stop? {
        CallsAtStop(env, sessionId, message, initial, current, block, visited, base, fuel, blockIds, whole);
      } else {
        var events, hop := step.events, step.hop;
        IterateGoesToNewBlock(env, sessionId, message, initial, current, visited, base, fuel, blockIds);
        VisitShrinks(blockIds, visited, hop.block.id);
        var rest := ContinuationCalls(Continue(env, sessionId, message, initial, hop.state, hop.block,
                                               visited + [hop.block.id], base + |events|, fuel, blockIds).events);
        ContinueBounded(env, sessionId, message, initial, hop.state, hop.block, visited + [hop.block.id],
                        base + |events|, fuel, blockIds);
        CallsAcrossHop(env, sessionId, message, initial, current, block, visited, base, fuel, blockIds, events, hop, whole, rest);
      }
    }
  }

  // ---------------------------------------------------------------------------------------
  // The iterations of the loop
  // ---------------------------------------------------------------------------------------

  /** One iteration of the loop: the session it starts on, the blocks seen before it, its trace position, how it ends. */
  datatype Round = Round(current: SessionState, visited: seq<BlockId>, base: nat, end: IterationEnd)

  /** The round goes on to a block that passes the loop's condition. */
  predicate GoesOn(r: Round) {
    r.end.Go? && ContinuesAt(r.end.hop.block)
  }

  /** `next` starts where `r` went on to: on its new state, with its block seen, after its events. */
  predicate StartsAfter(r: Round, next: Round) {
    && r.end.Go?
    && next.current == r.end.hop.state && next.visited == r.visited + [r.end.hop.block.id]
    && next.base == r.base + |r.end.events|
  }

  /**
   * `rounds` are the iterations of the `while` loop entered on `current`, with `visited` seen, at
   * trace position `base`: each is the iteration `Iterate` gives from its own start, each goes on
   * to a block that passes the loop's condition exactly when it is not the last, and each after
   * the first starts where the one before it went on to.
   */
  predicate IteratesAs(env: Env, sessionId: string, message: Option<string>, initial: seq<Message>, fuel: nat,
                       current: SessionState, visited: seq<BlockId>, base: nat, rounds: seq<Round>)
  {
    && |rounds| > 0
    && rounds[0].current == current && rounds[0].visited == visited && rounds[0].base == base
    && (forall k :: 0 <= k < |rounds| ==>
          rounds[k].end == Iterate(env, sessionId, message, initial, rounds[k].current, rounds[k].visited, rounds[k].base, fuel))
    && (forall k :: 0 <= k < |rounds| ==> (GoesOn(rounds[k]) <==> k + 1 < |rounds|))
    && (forall k :: 0 <= k < |rounds| - 1 ==> StartsAfter(rounds[k], rounds[k + 1]))
  }

  /** The events of the rounds, one round after another. */
  function RoundsEvents(rounds: seq<Round>): seq<Event> {
    if rounds == [] then [] else rounds[0].end.events + RoundsEvents(rounds[1..])
  }

  /** The loop's outcome after its last round: the round's own when it stopped, `Completed` when it went on. */
  function LastOutcome(rounds: seq<Round>): Outcome
    requires |rounds| > 0
  {
    var last := rounds[|rounds| - 1].end;
    if last.Stop? then last.outcome else Completed
  }

  /**
   * `loop` is made of `rounds`: their events one after another, one continuation call per round
   * on the state it starts on, and the outcome after the last one.
   */
  predicate TracesAs(message: Option<string>, sessionId: string, rounds: seq<Round>, loop: FlowEnd) {
    && |rounds| > 0
    && loop.events == RoundsEvents(rounds)
    && loop.outcome == LastOutcome(rounds)
    && var calls := ContinuationCalls(loop.events);
    && |calls| == |rounds|
    && (forall k :: 0 <= k < |rounds| ==> calls[k] == ContinuationCall(message, rounds[k].current, sessionId))
  }

  /** `loop` is the run of the iterations `rounds` of the loop entered on `current`. */
  predicate RunsAs(env: Env, sessionId: string, message: Option<string>, initial: seq<Message>, fuel: nat,
                   current: SessionState, visited: seq<BlockId>, base: nat, rounds: seq<Round>, loop: FlowEnd)
  {
    IteratesAs(env, sessionId, message, initial, fuel, current, visited, base, rounds) && TracesAs(message, sessionId, rounds, loop)
  }

  /**
   * The `while` loop, entered at a block that passes its condition, is a run of iterations that
   * goes on exactly while each iteration moves to a block that passes the condition. It ends with
   * the outcome of the iteration that stopped the call, or normally after an iteration that moved
   * to a block off the condition, and it makes one continuation call per iteration.
   */
  lemma {:induction false} ContinueIterates(env: Env, sessionId: string, message: Option<string>, initial: seq<Message>,
                                            current: SessionState, block: Block, visited: seq<BlockId>, base: nat,
                                            fuel: nat, blockIds: set<BlockId>)
    requires EngineStaysWithin(env, blockIds)
    ensures ContinuesAt(block) ==>
              exists rounds :: RunsAs(env, sessionId, message, initial, fuel, current, visited, base, rounds,
                                      Continue(env, sessionId, message, initial, current, block, visited, base, fuel, blockIds))
    decreases |blockIds - Seen(visited)|
  {
    if ContinuesAt(block) {
      var step := Iterate(env, sessionId, message, initial, current, visited, base, fuel);
      var r := Round(current, visited, base, step);
      if step.Stop? || !ContinuesAt(step.hop.block) {
        RoundsAtLast(env, sessionId, message, initial, current, block, visited, base, fuel, blockIds, r);
      } else {
        var events, hop := step.events, step.hop;
        IterateGoesToNewBlock(env, sessionId, message, initial, current, visited, base, fuel, blockIds);
        VisitShrinks(blockIds, visited, hop.block.id);
        var nextVisited, nextBase := visited + [hop.block.id], base + |events|;
        ContinueIterates(env, sessionId, message, initial, hop.state, hop.block, nextVisited, nextBase, fuel, blockIds);
        RoundsPastHop(env, sessionId, message, initial, current, block, visited, base, fuel, blockIds, events, hop,
                      nextVisited, nextBase);
      }
    }
  }

  /** Proof step: an iteration that stops the call, or moves off the condition, is the loop's only round. */
  lemma RoundsAtLast(env: Env, sessionId: string, message: Option<string>, initial: seq<Message>,
                     current: SessionState, block: Block, visited: seq<BlockId>, base: nat, fuel: nat,
                     blockIds: set<BlockId>, r: Round)
    requires EngineStaysWithin(env, blockIds) && ContinuesAt(block)
    requires r == Round(current, visited, base, Iterate(env, sessionId, message, initial, current, visited, base, fuel))
    requires !GoesOn(r)
    ensures RunsAs(env, sessionId, message, initial, fuel, current, visited, base, [r],
                   Continue(env, sessionId, message, initial, current, block, visited, base, fuel, blockIds))
  {
    var step := r.end;
    var loop := Continue(env, sessionId, message, initial, current, block, visited, base, fuel, blockIds);
    IterationCalls(env, sessionId, message, initial, current, visited, base, fuel);
    assert RoundsEvents([r]) == step.events + RoundsEvents([r][1..]);
    assert [r][1..] == [];
    if step.Stop? {
      ContinueStops(env, sessionId, message, initial, current, block, visited, base, fuel, blockIds, step.events, step.outcome);
    } else {
      var events, hop := step.events, step.hop;
      IterateGoesToNewBlock(env, sessionId, message, initial, current, visited, base, fuel, blockIds);
      VisitShrinks(blockIds, visited, hop.block.id);
      ContinueGoesOn(env, sessionId, message, initial, current, block, visited, base, fuel, blockIds, events, hop);
      ContinueEndsOffIntegration(env, sessionId, message, initial, hop.state, hop.block, visited + [hop.block.id],
                                 base + |events|, fuel, blockIds);
      assert events + [] == events;
    }
  }

  /** Proof step: an iteration that goes on to a block passing the condition, followed by the rounds of the rest. */
  lemma RoundsPastHop(env: Env, sessionId: string, message: Option<string>, initial: seq<Message>,
                      current: SessionState, block: Block, visited: seq<BlockId>, base: nat, fuel: nat,
                      blockIds: set<BlockId>, events: seq<Event>, hop: Hop, nextVisited: seq<BlockId>, nextBase: nat)
    requires EngineStaysWithin(env, blockIds) && ContinuesAt(block) && ContinuesAt(hop.block)
    requires Iterate(env, sessionId, message, initial, current, visited, base, fuel) == Go(events, hop)
    requires nextVisited == visited + [hop.block.id] && nextBase == base + |events|
    requires exists rest :: RunsAs(env, sessionId, message, initial, fuel, hop.state, nextVisited, nextBase, rest,
                                   Continue(env, sessionId, message, initial, hop.state, hop.block, nextVisited,
                                            nextBase, fuel, blockIds))
    ensures exists rounds :: RunsAs(env, sessionId, message, initial, fuel, current, visited, base, rounds,
                                    Continue(env, sessionId, message, initial, current, block, visited, base, fuel, blockIds))
  {
    var r := Round(current, visited, base, Go(events, hop));
    var next := Continue(env, sessionId, message, initial, hop.state, hop.block, nextVisited, nextBase, fuel, blockIds);
    var loop := Continue(env, sessionId, message, initial, current, block, visited, base, fuel, blockIds);
    LoopAcrossHop(env, sessionId, message, initial, current, block, visited, base, fuel, blockIds, events, hop, next, loop);
    RunsCons(env, sessionId, message, initial, fuel, r, hop.state, nextVisited, nextBase, next, loop);
    var rounds :| RunsAs(env, sessionId, message, initial, fuel, r.current, r.visited, r.base, rounds, loop);
    assert RunsAs(env, sessionId, message, initial, fuel, current, visited, base, rounds, loop);
  }

  /** Proof step: a round that goes on, followed by the rounds of the rest of the loop. */
  lemma RunsCons(env: Env, sessionId: string, message: Option<string>, initial: seq<Message>, fuel: nat,
                 r: Round, nextState: SessionState, nextVisited: seq<BlockId>, nextBase: nat, next: FlowEnd, loop: FlowEnd)
    requires r.end == Iterate(env, sessionId, message, initial, r.current, r.visited, r.base, fuel) && GoesOn(r)
    requires nextState == r.end.hop.state && nextVisited == r.visited + [r.end.hop.block.id]
    requires nextBase == r.base + |r.end.events|
    requires exists rest :: RunsAs(env, sessionId, message, initial, fuel, nextState, nextVisited, nextBase, rest, next)
    requires loop.events == r.end.events + next.events && loop.outcome == next.outcome
    requires ContinuationCalls(loop.events) == [ContinuationCall(message, r.current, sessionId)] + ContinuationCalls(next.events)
    ensures exists rounds :: RunsAs(env, sessionId, message, initial, fuel, r.current, r.visited, r.base, rounds, loop)
  {
    var rest :| RunsAs(env, sessionId, message, initial, fuel, nextState, nextVisited, nextBase, rest, next);
    IteratesCons(env, sessionId, message, initial, fuel, r, rest);
    TracesCons(message, sessionId, r, rest, next, loop);
    assert RunsAs(env, sessionId, message, initial, fuel, r.current, r.visited, r.base, [r] + rest, loop);
  }

  /** Proof step: the loop across an iteration that goes on: its events, its outcome and its calls. */
  lemma LoopAcrossHop(env: Env, sessionId: string, message: Option<string>, initial: seq<Message>,
                      current: SessionState, block: Block, visited: seq<BlockId>, base: nat, fuel: nat,
                      blockIds: set<BlockId>, events: seq<Event>, hop: Hop, next: FlowEnd, loop: FlowEnd)
    requires EngineStaysWithin(env, blockIds) && ContinuesAt(block)
    requires Iterate(env, sessionId, message, initial, current, visited, base, fuel) == Go(events, hop)
    requires next == Continue(env, sessionId, message, initial, hop.state, hop.block, visited + [hop.block.id],
                              base + |events|, fuel, blockIds)
    requires loop == Continue(env, sessionId, message, initial, current, block, visited, base, fuel, blockIds)
    ensures loop.events == events + next.events && loop.outcome == next.outcome
    ensures ContinuationCalls(loop.events) == [ContinuationCall(message, current, sessionId)] + ContinuationCalls(next.events)
  {
    ContinueGoesOn(env, sessionId, message, initial, current, block, visited, base, fuel, blockIds, events, hop);
    CallsAcrossHop(env, sessionId, message, initial, current, block, visited, base, fuel, blockIds, events, hop,
                   ContinuationCalls(loop.events), ContinuationCalls(next.events));
  }

  /** Proof step: a round followed by the rounds of the rest of the loop. */
  lemma TracesCons(message: Option<string>, sessionId: string, r: Round, rest: seq<Round>, next: FlowEnd, loop: FlowEnd)
    requires TracesAs(message, sessionId, rest, next)
    requires loop.events == r.end.events + next.events && loop.outcome == next.outcome
    requires ContinuationCalls(loop.events) == [ContinuationCall(message, r.current, sessionId)] + ContinuationCalls(next.events)
    ensures TracesAs(message, sessionId, [r] + rest, loop)
  {
    var rounds := [r] + rest;
    assert rounds[1..] == rest;
    assert rounds[|rounds| - 1] == rest[|rest| - 1];
    CallsCons(message, sessionId, ContinuationCall(message, r.current, sessionId), ContinuationCalls(next.events), r, rest);
  }

  /** Proof step: a round that goes on to where the rest starts, followed by the rest. */
  lemma IteratesCons(env: Env, sessionId: string, message: Option<string>, initial: seq<Message>, fuel: nat,
                     r: Round, rest: seq<Round>)
    requires r.end == Iterate(env, sessionId, message, initial, r.current, r.visited, r.base, fuel) && GoesOn(r)
    requires IteratesAs(env, sessionId, message, initial, fuel, r.end.hop.state, r.visited + [r.end.hop.block.id],
                        r.base + |r.end.events|, rest)
    ensures IteratesAs(env, sessionId, message, initial, fuel, r.current, r.visited, r.base, [r] + rest)
  {
    var rounds := [r] + rest;
    assert forall k :: 0 < k < |rounds| ==> rounds[k] == rest[k - 1];
    assert StartsAfter(rounds[0], rounds[1]);
  }

  /** Proof step: the continuation calls of a round followed by those of the rest. */
  lemma CallsCons(message: Option<string>, sessionId: string, call: Event, later: seq<Event>, r: Round, rest: seq<Round>)
    requires call == ContinuationCall(message, r.current, sessionId)
    requires |later| == |rest| && forall k :: 0 <= k < |rest| ==> later[k] == ContinuationCall(message, rest[k].current, sessionId)
    ensures var calls, rounds := [call] + later, [r] + rest;
            |calls| == |rounds| && forall k :: 0 <= k < |rounds| ==> calls[k] == ContinuationCall(message, rounds[k].current, sessionId)
  {
    var calls, rounds := [call] + later, [r] + rest;
    assert forall k :: 0 < k < |rounds| ==> rounds[k] == rest[k - 1] && calls[k] == later[k - 1];
  }

  // ---------------------------------------------------------------------------------------
  // The whole of `multipleWhatsappFlow`
  // ---------------------------------------------------------------------------------------

  /** A flow that does not reach the loop records the first turn and nothing else. */
  lemma FlowStopsAfterFirstTurn(env: Env, sessionId: string, message: Option<string>, state: SessionState,
                                messages: seq<Message>, input: Option<Input>, clientSideActions: seq<ClientSideAction>,
                                fuel: nat, blockIds: set<BlockId>)
    requires EngineStaysWithin(env, blockIds)
    requires var first := Turn(env, TurnProps(Some(state), messages, input, clientSideActions), 0, fuel);
             || !first.outcome.Completed? || !Truthy(state.currentBlockId)
             || GetBlockById(state.currentBlockId.value, state.typebotsQueue).None?
    ensures MultipleFlow(env, sessionId, message, state, messages, input, clientSideActions, fuel, blockIds).events
            == Turn(env, TurnProps(Some(state), messages, input, clientSideActions), 0, fuel).events
  {
  }

  /**
   * How a flow that never calls the engine again ends: with the first turn's failure; normally
   * when the state has no current block, or when that block is not a WhatsApp integration with
   * options; and with an error when the current block is missing from the flow graph.
   */
  lemma FlowEndsBeforeLoop(env: Env, sessionId: string, message: Option<string>, state: SessionState,
                           messages: seq<Message>, input: Option<Input>, clientSideActions: seq<ClientSideAction>,
                           fuel: nat, blockIds: set<BlockId>)
    requires EngineStaysWithin(env, blockIds)
    ensures var first := Turn(env, TurnProps(Some(state), messages, input, clientSideActions), 0, fuel);
            var flow := MultipleFlow(env, sessionId, message, state, messages, input, clientSideActions, fuel, blockIds);
            && (!first.outcome.Completed? ==> flow == FlowEnd(first.events, first.outcome))
            && (first.outcome.Completed? && !Truthy(state.currentBlockId) ==> flow == FlowEnd(first.events, Completed))
            && (first.outcome.Completed? && Truthy(state.currentBlockId)
                ==> var found := GetBlockById(state.currentBlockId.value, state.typebotsQueue);
                    && (found.None? ==> flow == FlowEnd(first.events, Failed(BlockNotFound(state.currentBlockId.value))))
                    && (found.Some? && !ContinuesAt(found.value) ==> flow == FlowEnd(first.events, Completed)))
  {
    var first := Turn(env, TurnProps(Some(state), messages, input, clientSideActions), 0, fuel);
    assert first.events + [] == first.events;
  }

  /** The loop at a block that is not a WhatsApp integration with options ends normally, doing nothing. */
  lemma ContinueEndsOffIntegration(env: Env, sessionId: string, message: Option<string>, initial: seq<Message>,
                                   current: SessionState, block: Block, visited: seq<BlockId>, base: nat,
                                   fuel: nat, blockIds: set<BlockId>)
    requires EngineStaysWithin(env, blockIds)
    ensures !ContinuesAt(block)
            ==> Continue(env, sessionId, message, initial, current, block, visited, base, fuel, blockIds) == FlowEnd([], Completed)
  {
  }

  /** A flow that reaches the loop records the first turn, then the loop from the state's block. */
  lemma FlowEntersLoop(env: Env, sessionId: string, message: Option<string>, state: SessionState,
                       messages: seq<Message>, input: Option<Input>, clientSideActions: seq<ClientSideAction>,
                       fuel: nat, blockIds: set<BlockId>, block: Block, whole: seq<Event>, rest: seq<Event>)
    requires EngineStaysWithin(env, blockIds)
    requires var first := Turn(env, TurnProps(Some(state), messages, input, clientSideActions), 0, fuel);
             first.outcome.Completed? && AtBlock(state, block)
    requires whole == MultipleFlow(env, sessionId, message, state, messages, input, clientSideActions, fuel, blockIds).events
    requires rest == Continue(env, sessionId, message, messages, state, block, [block.id],
                              |Turn(env, TurnProps(Some(state), messages, input, clientSideActions), 0, fuel).events|,
                              fuel, blockIds).events
    ensures whole == Turn(env, TurnProps(Some(state), messages, input, clientSideActions), 0, fuel).events + rest
    ensures ContinuationCalls(whole) == ContinuationCalls(rest)
  {
    var first := Turn(env, TurnProps(Some(state), messages, input, clientSideActions), 0, fuel);
    MultipleFlowEnters(env, sessionId, message, state, messages, input, clientSideActions, fuel, blockIds, first, block);
    TurnEvents(env, TurnProps(Some(state), messages, input, clientSideActions), 0, fuel);
    TurnEventsHaveNoContinuationCalls(first.events);
    ContinuationCallsConcat(first.events, rest);
  }

  /**
   * The first turn runs first, on the caller's messages, input and actions, and makes no
   * continuation call; when it does not complete, or the state has no current block, it is all
   * that happens.
   */
  lemma FirstTurnComesFirst(env: Env, sessionId: string, message: Option<string>, state: SessionState,
                            messages: seq<Message>, input: Option<Input>, clientSideActions: seq<ClientSideAction>,
                            fuel: nat, blockIds: set<BlockId>)
    requires EngineStaysWithin(env, blockIds)
    ensures var first := Turn(env, TurnProps(Some(state), messages, input, clientSideActions), 0, fuel);
            var flow := MultipleFlow(env, sessionId, message, state, messages, input, clientSideActions, fuel, blockIds);
            && first.events <= flow.events
            && ContinuationCalls(first.events) == []
            && (!first.outcome.Completed? || !Truthy(state.currentBlockId) ==> flow == FlowEnd(first.events, first.outcome))
  {
    var first := Turn(env, TurnProps(Some(state), messages, input, clientSideActions), 0, fuel);
    TurnEvents(env, TurnProps(Some(state), messages, input, clientSideActions), 0, fuel);
    TurnEventsHaveNoContinuationCalls(first.events);
    if !first.outcome.Completed? || !Truthy(state.currentBlockId)
       || GetBlockById(state.currentBlockId.value, state.typebotsQueue).None? {
      FlowStopsAfterFirstTurn(env, sessionId, message, state, messages, input, clientSideActions, fuel, blockIds);
    } else {
      var block := GetBlockById(state.currentBlockId.value, state.typebotsQueue).value;
      var rest := Continue(env, sessionId, message, messages, state, block, [block.id], |first.events|, fuel, blockIds).events;
      FlowEntersLoop(env, sessionId, message, state, messages, input, clientSideActions, fuel, blockIds, block,
                     MultipleFlow(env, sessionId, message, state, messages, input, clientSideActions, fuel, blockIds).events, rest);
    }
  }

  /**
   * The loop makes calls exactly when the first turn completed at a WhatsApp integration block.
   * The first call is on the caller's state, each later one on the state the previous answer
   * returned, all with the caller's message and the session id overridden.
   */
  lemma FlowCallsChained(env: Env, sessionId: string, message: Option<string>, state: SessionState,
                         messages: seq<Message>, input: Option<Input>, clientSideActions: seq<ClientSideAction>,
                         fuel: nat, blockIds: set<BlockId>)
    requires EngineStaysWithin(env, blockIds)
    ensures var first := Turn(env, TurnProps(Some(state), messages, input, clientSideActions), 0, fuel);
            var calls := ContinuationCalls(MultipleFlow(env, sessionId, message, state, messages, input, clientSideActions, fuel, blockIds).events);
            && (calls != [] <==> first.outcome.Completed? && AtIntegration(state))
            && (calls != [] ==> calls[0] == ContinuationCall(message, state, sessionId))
            && Chained(env, sessionId, calls)
  {
    var first := Turn(env, TurnProps(Some(state), messages, input, clientSideActions), 0, fuel);
    var whole := MultipleFlow(env, sessionId, message, state, messages, input, clientSideActions, fuel, blockIds).events;
    if !first.outcome.Completed? || !Truthy(state.currentBlockId)
       || GetBlockById(state.currentBlockId.value, state.typebotsQueue).None? {
      FirstTurnComesFirst(env, sessionId, message, state, messages, input, clientSideActions, fuel, blockIds);
      FlowStopsAfterFirstTurn(env, sessionId, message, state, messages, input, clientSideActions, fuel, blockIds);
    } else {
      var block := GetBlockById(state.currentBlockId.value, state.typebotsQueue).value;
      var rest := Continue(env, sessionId, message, messages, state, block, [block.id], |first.events|, fuel, blockIds).events;
      FlowEntersLoop(env, sessionId, message, state, messages, input, clientSideActions, fuel, blockIds, block, whole, rest);
      ContinueChained(env, sessionId, message, messages, state, block, [block.id], |first.events|, fuel, blockIds);
    }
  }

  /** `flow` is the turn `first` followed by the run of `rounds`, the loop entered on `state` with only `id` seen. */
  predicate FirstThenRounds(env: Env, sessionId: string, message: Option<string>, initial: seq<Message>, fuel: nat,
                            state: SessionState, id: BlockId, first: seq<Event>, rounds: seq<Round>, flow: FlowEnd)
  {
    && first <= flow.events
    && RunsAs(env, sessionId, message, initial, fuel, state, [id], |first|, rounds, FlowEnd(flow.events[|first|..], flow.outcome))
  }

  /**
   * A flow whose first turn completed at a WhatsApp integration block with options is that turn
   * followed by the iterations of the `while` loop: each iteration goes on exactly when it is not
   * the last, and the flow ends with the outcome of the last one, or normally when the last one
   * moved to a block off the loop's condition.
   */
  lemma FlowIterates(env: Env, sessionId: string, message: Option<string>, state: SessionState,
                     messages: seq<Message>, input: Option<Input>, clientSideActions: seq<ClientSideAction>,
                     fuel: nat, blockIds: set<BlockId>)
    requires EngineStaysWithin(env, blockIds)
    ensures var first := Turn(env, TurnProps(Some(state), messages, input, clientSideActions), 0, fuel);
            var flow := MultipleFlow(env, sessionId, message, state, messages, input, clientSideActions, fuel, blockIds);
            first.outcome.Completed? && AtIntegration(state) ==>
              exists rounds :: FirstThenRounds(env, sessionId, message, messages, fuel, state, state.currentBlockId.value,
                                               first.events, rounds, flow)
  {
    var first := Turn(env, TurnProps(Some(state), messages, input, clientSideActions), 0, fuel);
    var flow := MultipleFlow(env, sessionId, message, state, messages, input, clientSideActions, fuel, blockIds);
    if first.outcome.Completed? && AtIntegration(state) {
      var block := GetBlockById(state.currentBlockId.value, state.typebotsQueue).value;
      var loop := Continue(env, sessionId, message, messages, state, block, [block.id], |first.events|, fuel, blockIds);
      MultipleFlowEnters(env, sessionId, message, state, messages, input, clientSideActions, fuel, blockIds, first, block);
      ContinueIterates(env, sessionId, message, messages, state, block, [block.id], |first.events|, fuel, blockIds);
      var rounds :| RunsAs(env, sessionId, message, messages, fuel, state, [block.id], |first.events|, rounds, loop);
      assert flow.events[|first.events|..] == loop.events;
      assert FlowEnd(flow.events[|first.events|..], flow.outcome) == loop;
      assert FirstThenRounds(env, sessionId, message, messages, fuel, state, state.currentBlockId.value, first.events, rounds, flow);
    }
  }

  /** Every continuation call is made while the session sits on a WhatsApp integration block with options. */
  lemma FlowCallsGuarded(env: Env, sessionId: string, message: Option<string>, state: SessionState,
                         messages: seq<Message>, input: Option<Input>, clientSideActions: seq<ClientSideAction>,
                         fuel: nat, blockIds: set<BlockId>)
    requires EngineStaysWithin(env, blockIds)
    ensures Guarded(ContinuationCalls(MultipleFlow(env, sessionId, message, state, messages, input, clientSideActions, fuel, blockIds).events))
  {
    var first := Turn(env, TurnProps(Some(state), messages, input, clientSideActions), 0, fuel);
    var whole := MultipleFlow(env, sessionId, message, state, messages, input, clientSideActions, fuel, blockIds).events;
    if !first.outcome.Completed? || !Truthy(state.currentBlockId)
       || GetBlockById(state.currentBlockId.value, state.typebotsQueue).None? {
      FirstTurnComesFirst(env, sessionId, message, state, messages, input, clientSideActions, fuel, blockIds);
      FlowStopsAfterFirstTurn(env, sessionId, message, state, messages, input, clientSideActions, fuel, blockIds);
    } else {
      var block := GetBlockById(state.currentBlockId.value, state.typebotsQueue).value;
      var rest := Continue(env, sessionId, message, messages, state, block, [block.id], |first.events|, fuel, blockIds).events;
      FlowEntersLoop(env, sessionId, message, state, messages, input, clientSideActions, fuel, blockIds, block, whole, rest);
      ContinueGuarded(env, sessionId, message, messages, state, block, [block.id], |first.events|, fuel, blockIds);
    }
  }

  /**
   * No two continuation calls are made at the same block, and there are at most one more of
   * them than there are block ids the engine can report: the loop terminates.
   */
  lemma FlowCallsDistinctAndBounded(env: Env, sessionId: string, message: Option<string>, state: SessionState,
                                    messages: seq<Message>, input: Option<Input>, clientSideActions: seq<ClientSideAction>,
                                    fuel: nat, blockIds: set<BlockId>)
    requires EngineStaysWithin(env, blockIds)
    ensures var calls := ContinuationCalls(MultipleFlow(env, sessionId, message, state, messages, input, clientSideActions, fuel, blockIds).events);
            DistinctBlocks(calls) && |calls| <= |blockIds| + 1
  {
    var first := Turn(env, TurnProps(Some(state), messages, input, clientSideActions), 0, fuel);
    var whole := MultipleFlow(env, sessionId, message, state, messages, input, clientSideActions, fuel, blockIds).events;
    if !first.outcome.Completed? || !Truthy(state.currentBlockId)
       || GetBlockById(state.currentBlockId.value, state.typebotsQueue).None? {
      FirstTurnComesFirst(env, sessionId, message, state, messages, input, clientSideActions, fuel, blockIds);
      FlowStopsAfterFirstTurn(env, sessionId, message, state, messages, input, clientSideActions, fuel, blockIds);
    } else {
      var block := GetBlockById(state.currentBlockId.value, state.typebotsQueue).value;
      var rest := Continue(env, sessionId, message, messages, state, block, [block.id], |first.events|, fuel, blockIds).events;
      FlowEntersLoop(env, sessionId, message, state, messages, input, clientSideActions, fuel, blockIds, block, whole, rest);
      ContinueDistinct(env, sessionId, message, messages, state, block, [block.id], |first.events|, fuel, blockIds);
      ContinueBounded(env, sessionId, message, messages, state, block, [block.id], |first.events|, fuel, blockIds);
      assert blockIds - Seen([block.id]) <= blockIds;
    }
  }

  /**
   * Every new state the engine returns is saved right after its call, before its turn sends
   * anything; an answer that threw, was empty, repeats one of the caller's messages or has no
   * state ends the flow at its call; and every save follows a continuation call.
   */
  lemma FlowSavesBeforeDispatch(env: Env, sessionId: string, message: Option<string>, state: SessionState,
                                messages: seq<Message>, input: Option<Input>, clientSideActions: seq<ClientSideAction>,
                                fuel: nat, blockIds: set<BlockId>)
    requires EngineStaysWithin(env, blockIds)
    ensures SavedBeforeDispatch(env, sessionId, messages,
                                MultipleFlow(env, sessionId, message, state, messages, input, clientSideActions, fuel, blockIds).events)
  {
    var first := Turn(env, TurnProps(Some(state), messages, input, clientSideActions), 0, fuel);
    var whole := MultipleFlow(env, sessionId, message, state, messages, input, clientSideActions, fuel, blockIds).events;
    TurnEvents(env, TurnProps(Some(state), messages, input, clientSideActions), 0, fuel);
    if !first.outcome.Completed? || !Truthy(state.currentBlockId)
       || GetBlockById(state.currentBlockId.value, state.typebotsQueue).None? {
      FlowStopsAfterFirstTurn(env, sessionId, message, state, messages, input, clientSideActions, fuel, blockIds);
      TurnEventsSaved(env, sessionId, messages, first.events, []);
      assert first.events + [] == first.events;
    } else {
      var block := GetBlockById(state.currentBlockId.value, state.typebotsQueue).value;
      var rest := Continue(env, sessionId, message, messages, state, block, [block.id], |first.events|, fuel, blockIds).events;
      FlowEntersLoop(env, sessionId, message, state, messages, input, clientSideActions, fuel, blockIds, block, whole, rest);
      ContinueSaves(env, sessionId, message, messages, state, block, [block.id], |first.events|, fuel, blockIds);
      TurnEventsSaved(env, sessionId, messages, first.events, rest);
    }
  }
}
