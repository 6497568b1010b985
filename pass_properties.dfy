/**
 * What a whole pass and a whole turn of `executeWhatsappFlow` guarantee: the identity checks
 * come first, a restart before the bubbles sends nothing, a finished pass attempted every
 * bubble and every prompt fragment, and a turn fails only for the reasons the source rethrows.
 */
module PassProperties {
  import opened Wrappers
  import opened WhatsappTypes
  import opened Traces
  import opened ExecuteWhatsappFlow
  import opened TurnProperties

  /** The faults a turn can end with: configuration, an engine error, or a rethrown TRPC send error. */
  predicate TurnFault(fault: Fault) {
    || fault.ComponentNotConfigured?
    || fault.PhoneNotConfigured?
    || fault.EngineFailed?
    || (fault.SendFailed? && fault.error.TrpcError?)
  }

  /** A session without a client id, or without a phone, fails before anything happens. */
  lemma TurnConfigErrors(env: Env, props: TurnProps, base: nat, fuel: nat)
    ensures !Truthy(ClientIdOf(props.state)) ==>
              Turn(env, props, base, fuel) == TurnEnd([], Failed(ComponentNotConfigured))
    ensures Truthy(ClientIdOf(props.state)) && !Truthy(PhoneOf(props.state)) ==>
              Turn(env, props, base, fuel) == TurnEnd([], Failed(PhoneNotConfigured))
  {
  }

  /** The actions before any message, when none asks for a reply, leave only delays. */
  lemma BeforeActions(env: Env, props: TurnProps)
    requires HasChannelIdentity(props.state)
    ensures var before := RunActions(env, props.state.value, ActionsKeyedTo(props.clientSideActions, None), 0);
            && ActionEvents(before.events, props.state.value, before.stop.Some?)
            && (before.stop.None? <==> NoneExpectsReply(ActionsKeyedTo(props.clientSideActions, None), 0))
            && (before.stop.Some? ==> before.stop.value == Reentry(env, props.state.value))
            && AllTurnEvents(before.events) && NoSends(before.events)
            && Addressed(before.events, ClientIdOf(props.state).value, PhoneOf(props.state).value)
            && Attempts(before.events) == []
  {
    var before := RunActions(env, props.state.value, ActionsKeyedTo(props.clientSideActions, None), 0);
    RunActionsShape(env, props.state.value, ActionsKeyedTo(props.clientSideActions, None), 0);
    ActionEventsAreTurnEvents(before.events, props.state.value, before.stop.Some?,
                              ClientIdOf(props.state).value, PhoneOf(props.state).value);
  }

  /**
   * When an action before any message asks for a reply, the pass sends nothing and ends with
   * exactly one engine call, on the current state and with no reply, whose answer restarts it.
   */
  lemma RestartBeforeBubbles(env: Env, props: TurnProps, base: nat)
    requires HasChannelIdentity(props.state)
    requires !NoneExpectsReply(ActionsKeyedTo(props.clientSideActions, None), 0)
    ensures var pass := Pass(env, props, base);
            && NoSends(pass.events) && |pass.events| > 0
            && pass.events[|pass.events| - 1] == EngineCall(None, props.state.value, false)
            && (forall k :: 0 <= k < |pass.events| - 1 ==> pass.events[k].Delay?)
            && pass.outcome == Reentry(env, props.state.value)
  {
    BeforeActions(env, props);
  }

  /** Unfolding step: a pass that an action before any message stops. */
  lemma PassStopsBefore(env: Env, props: TurnProps, base: nat)
    requires HasChannelIdentity(props.state) && BeforeOf(env, props).stop.Some?
    ensures Pass(env, props, base) == PassEnd(BeforeOf(env, props).events, BeforeOf(env, props).stop.value)
  {
  }

  /** Unfolding step: a pass that its bubble loop stops. */
  lemma PassStopsInBubbles(env: Env, props: TurnProps, base: nat)
    requires HasChannelIdentity(props.state) && BeforeOf(env, props).stop.None?
    requires BubblesOf(env, props, base).stop.Some?
    ensures Pass(env, props, base)
            == PassEnd(BeforeOf(env, props).events + BubblesOf(env, props, base).events, BubblesOf(env, props, base).stop.value)
  {
  }

  /** Unfolding step: a pass that reaches its prompt. */
  lemma PassReachesPrompt(env: Env, props: TurnProps, base: nat)
    requires HasChannelIdentity(props.state) && BeforeOf(env, props).stop.None?
    requires BubblesOf(env, props, base).stop.None?
    ensures Pass(env, props, base)
            == PassEnd(BeforeOf(env, props).events + BubblesOf(env, props, base).events + PromptOf(env, props, base), PassDone)
  {
  }

  /** Turn events addressed to one recipient stay so across the three phases of a pass. */
  lemma PhasesKeepTurnEvents(before: seq<Event>, bubbles: seq<Event>, prompt: seq<Event>, clientId: string, phone: string)
    requires AllTurnEvents(before) && AllTurnEvents(bubbles) && AllTurnEvents(prompt)
    requires Addressed(before, clientId, phone) && Addressed(bubbles, clientId, phone) && Addressed(prompt, clientId, phone)
    ensures AllTurnEvents(before + bubbles) && Addressed(before + bubbles, clientId, phone)
    ensures AllTurnEvents(before + bubbles + prompt) && Addressed(before + bubbles + prompt, clientId, phone)
  {
    ConcatKeepsTurnEvents(before, bubbles, clientId, phone);
    ConcatKeepsTurnEvents(before + bubbles, prompt, clientId, phone);
  }

  /** The attempts of a pass are those of its bubbles, then those of its prompt. */
  lemma PhasesAttempts(before: seq<Event>, bubbles: seq<Event>, prompt: seq<Event>,
                       bubbleWires: seq<WireMessage>, promptWires: seq<WireMessage>)
    requires Attempts(before) == [] && Attempts(bubbles) == bubbleWires && Attempts(prompt) == promptWires
    ensures Attempts(before + bubbles) == bubbleWires
    ensures Attempts(before + bubbles + prompt) == bubbleWires + promptWires
  {
    AttemptsConcat(before, bubbles);
    AttemptsConcat(before + bubbles, prompt);
  }

  /** The actions before any message attempt no send and stop only to re-enter the engine. */
  lemma BeforeFacts(env: Env, props: TurnProps)
    requires HasChannelIdentity(props.state)
    ensures AllTurnEvents(BeforeOf(env, props).events)
    ensures Addressed(BeforeOf(env, props).events, ContextOf(props).clientId, ContextOf(props).phone)
    ensures Attempts(BeforeOf(env, props).events) == []
    ensures BeforeOf(env, props).stop.Some? ==> BeforeOf(env, props).stop.value == Reentry(env, props.state.value)
  {
    BeforeActions(env, props);
  }

  /** The bubble loop's events are turn events addressed to the recipient. */
  lemma BubblesEvents(env: Env, props: TurnProps, base: nat)
    requires HasChannelIdentity(props.state)
    ensures AllTurnEvents(BubblesOf(env, props, base).events)
    ensures Addressed(BubblesOf(env, props, base).events, ContextOf(props).clientId, ContextOf(props).phone)
  {
    BubblesAreTurnEvents(env, ContextOf(props), 0, base + |BeforeOf(env, props).events|, []);
  }

  /** The bubble loop attempts its convertible bubbles in order, all of them unless it stops. */
  lemma BubblesAttempts(env: Env, props: TurnProps, base: nat)
    requires HasChannelIdentity(props.state)
    ensures Attempts(BubblesOf(env, props, base).events) <= ConvertedFrom(env, props.messages, 0)
    ensures BubblesOf(env, props, base).stop.None? ==>
              Attempts(BubblesOf(env, props, base).events) == ConvertedFrom(env, props.messages, 0)
  {
    BubblesInOrder(env, ContextOf(props), 0, base + |BeforeOf(env, props).events|, []);
    BubblesAllAttempted(env, ContextOf(props), 0, base + |BeforeOf(env, props).events|, []);
  }

  lemma BubblesStop(env: Env, props: TurnProps, base: nat)
    requires HasChannelIdentity(props.state)
    ensures BubblesOf(env, props, base).stop.Some? ==> Deliberate(BubblesOf(env, props, base).stop.value)
  {
    BubblesStopDeliberately(env, ContextOf(props), 0, base + |BeforeOf(env, props).events|, []);
  }

  /** The prompt's events are turn events addressed to the recipient, one attempt per fragment. */
  lemma PromptFacts(env: Env, props: TurnProps, base: nat)
    requires HasChannelIdentity(props.state)
    ensures AllTurnEvents(PromptOf(env, props, base))
    ensures Addressed(PromptOf(env, props, base), ContextOf(props).clientId, ContextOf(props).phone)
    ensures Attempts(PromptOf(env, props, base)) == DefinedFrom(PromptFragments(env, props.input), 0)
  {
    var bubbles := BubblesOf(env, props, base);
    PromptSendsAll(env, ContextOf(props), PromptFragments(env, props.input), 0,
                   base + |BeforeOf(env, props).events| + |bubbles.events|, bubbles.sent);
  }

  lemma PassEventsInBubbles(env: Env, props: TurnProps, base: nat)
    requires HasChannelIdentity(props.state) && BeforeOf(env, props).stop.None?
    requires BubblesOf(env, props, base).stop.Some?
    ensures AllTurnEvents(Pass(env, props, base).events)
    ensures Addressed(Pass(env, props, base).events, ContextOf(props).clientId, ContextOf(props).phone)
  {
    BeforeFacts(env, props);
    BubblesEvents(env, props, base);
    ConcatKeepsTurnEvents(BeforeOf(env, props).events, BubblesOf(env, props, base).events,
                          ContextOf(props).clientId, ContextOf(props).phone);
    PassStopsInBubbles(env, props, base);
  }

  lemma PassEventsWithPrompt(env: Env, props: TurnProps, base: nat)
    requires HasChannelIdentity(props.state) && BeforeOf(env, props).stop.None?
    requires BubblesOf(env, props, base).stop.None?
    ensures AllTurnEvents(Pass(env, props, base).events)
    ensures Addressed(Pass(env, props, base).events, ContextOf(props).clientId, ContextOf(props).phone)
  {
    BeforeFacts(env, props);
    BubblesEvents(env, props, base);
    PromptFacts(env, props, base);
    PhasesKeepTurnEvents(BeforeOf(env, props).events, BubblesOf(env, props, base).events, PromptOf(env, props, base),
                         ContextOf(props).clientId, ContextOf(props).phone);
    PassReachesPrompt(env, props, base);
  }

  /** Every event of a pass is a turn event, and every send goes to the session's recipient. */
  lemma PassEvents(env: Env, props: TurnProps, base: nat)
    ensures AllTurnEvents(Pass(env, props, base).events)
    ensures HasChannelIdentity(props.state) ==>
              Addressed(Pass(env, props, base).events, ClientIdOf(props.state).value, PhoneOf(props.state).value)
  {
    if HasChannelIdentity(props.state) {
      if BeforeOf(env, props).stop.Some? {
        BeforeFacts(env, props);
        PassStopsBefore(env, props, base);
      } else if BubblesOf(env, props, base).stop.Some? {
        PassEventsInBubbles(env, props, base);
      } else {
        PassEventsWithPrompt(env, props, base);
      }
    }
  }

  /** A pass finishes only after its actions before any message and its bubble loop ran to their ends. */
  lemma DoneReachedPrompt(env: Env, props: TurnProps, base: nat)
    requires Pass(env, props, base).outcome.PassDone?
    ensures HasChannelIdentity(props.state)
    ensures BeforeOf(env, props).stop.None? && BubblesOf(env, props, base).stop.None?
  {
    if BeforeOf(env, props).stop.Some? {
      BeforeFacts(env, props);
      PassStopsBefore(env, props, base);
    } else if BubblesOf(env, props, base).stop.Some? {
      BubblesStop(env, props, base);
      PassStopsInBubbles(env, props, base);
    }
  }

  lemma PassAttemptsWithPrompt(env: Env, props: TurnProps, base: nat)
    requires HasChannelIdentity(props.state) && BeforeOf(env, props).stop.None?
    requires BubblesOf(env, props, base).stop.None?
    ensures Attempts(Pass(env, props, base).events)
            == ConvertedFrom(env, props.messages, 0) + DefinedFrom(PromptFragments(env, props.input), 0)
  {
    BeforeFacts(env, props);
    BubblesAttempts(env, props, base);
    PromptFacts(env, props, base);
    PhasesAttempts(BeforeOf(env, props).events, BubblesOf(env, props, base).events, PromptOf(env, props, base),
                   ConvertedFrom(env, props.messages, 0), DefinedFrom(PromptFragments(env, props.input), 0));
    PassReachesPrompt(env, props, base);
  }

  /** A finished pass attempted every bubble with a wire form, then every prompt fragment, in order. */
  lemma PassDoneAttempts(env: Env, props: TurnProps, base: nat)
    requires Pass(env, props, base).outcome.PassDone?
    ensures HasChannelIdentity(props.state)
    ensures Attempts(Pass(env, props, base).events)
            == ConvertedFrom(env, props.messages, 0) + DefinedFrom(PromptFragments(env, props.input), 0)
  {
    DoneReachedPrompt(env, props, base);
    PassAttemptsWithPrompt(env, props, base);
  }

  lemma PassAttemptsInBubbles(env: Env, props: TurnProps, base: nat)
    requires HasChannelIdentity(props.state) && BeforeOf(env, props).stop.None?
    requires BubblesOf(env, props, base).stop.Some?
    ensures Attempts(Pass(env, props, base).events) <= ConvertedFrom(env, props.messages, 0)
  {
    BeforeFacts(env, props);
    BubblesAttempts(env, props, base);
    PhasesAttempts(BeforeOf(env, props).events, BubblesOf(env, props, base).events, [],
                   Attempts(BubblesOf(env, props, base).events), []);
    PassStopsInBubbles(env, props, base);
  }

  /**
   * A pass that stopped to re-enter the engine ends with that engine call, with no reply on the
   * current state, and with its answer; it sent nothing, or its last send delivered the bubble
   * whose keyed actions made the call.
   */
  predicate EndsAtItsReentry(env: Env, props: TurnProps, pass: PassEnd) {
    ReentryStop(Some(pass.outcome)) ==>
      && HasChannelIdentity(props.state) && pass.outcome == Reentry(env, props.state.value)
      && |pass.events| > 0 && pass.events[|pass.events| - 1] == EngineCall(None, props.state.value, false)
      && (NoSends(pass.events) || EndsAtReentry(env, ContextOf(props), 0, pass.events))
  }

  /** Proof step: the re-entry of an action before any message. */
  lemma ReentryBefore(env: Env, props: TurnProps, base: nat)
    requires HasChannelIdentity(props.state) && BeforeOf(env, props).stop.Some?
    ensures EndsAtItsReentry(env, props, Pass(env, props, base))
  {
    BeforeActions(env, props);
    PassStopsBefore(env, props, base);
  }

  /** Proof step: a TRPC rejection in the bubble loop ends the pass. */
  lemma RejectionInBubbles(env: Env, props: TurnProps, base: nat)
    requires HasChannelIdentity(props.state) && BeforeOf(env, props).stop.None?
    requires BubblesOf(env, props, base).stop.Some?
    ensures EndsAtTrpcRejection(Pass(env, props, base).events, Some(Pass(env, props, base).outcome))
  {
    var before, bubbles := BeforeOf(env, props), BubblesOf(env, props, base);
    BeforeActions(env, props);
    BubblesEndAtTrpcRejection(env, ContextOf(props), 0, base + |before.events|, []);
    RejectionEndsConcat(before.events, bubbles.events, bubbles.stop);
    PassStopsInBubbles(env, props, base);
  }

  /** Proof step: the re-entry of the keyed actions of a bubble. */
  lemma ReentryInBubbles(env: Env, props: TurnProps, base: nat)
    requires HasChannelIdentity(props.state) && BeforeOf(env, props).stop.None?
    requires BubblesOf(env, props, base).stop.Some?
    ensures EndsAtItsReentry(env, props, Pass(env, props, base))
  {
    var before, bubbles := BeforeOf(env, props), BubblesOf(env, props, base);
    BubblesEndAtReentry(env, ContextOf(props), 0, base + |before.events|, []);
    if ReentryStop(bubbles.stop) {
      ReentryEndsConcat(env, ContextOf(props), 0, 0, before.events, bubbles.events);
    }
    PassStopsInBubbles(env, props, base);
  }

  /**
   * A pass that did not finish attempted a prefix of its bubbles and no prompt fragment, and it
   * ends where it stopped. Nothing at all follows a send rejected with a TRPC error: it is the
   * pass's last event, and the pass fails with its error. A pass that stopped to re-enter the
   * engine ends at that re-entry (`EndsAtItsReentry`).
   */
  lemma PassStoppedAttempts(env: Env, props: TurnProps, base: nat)
    requires !Pass(env, props, base).outcome.PassDone?
    ensures Attempts(Pass(env, props, base).events) <= ConvertedFrom(env, props.messages, 0)
    ensures EndsAtTrpcRejection(Pass(env, props, base).events, Some(Pass(env, props, base).outcome))
    ensures EndsAtItsReentry(env, props, Pass(env, props, base))
  {
    if HasChannelIdentity(props.state) {
      if BeforeOf(env, props).stop.Some? {
        BeforeActions(env, props);
        BeforeFacts(env, props);
        PassStopsBefore(env, props, base);
        ReentryBefore(env, props, base);
      } else if BubblesOf(env, props, base).stop.Some? {
        PassAttemptsInBubbles(env, props, base);
        RejectionInBubbles(env, props, base);
        ReentryInBubbles(env, props, base);
      } else {
        PassReachesPrompt(env, props, base);
      }
    }
  }

  /** A pass fails only for the reasons the source lets escape. */
  lemma PassFaults(env: Env, props: TurnProps, base: nat)
    ensures Pass(env, props, base).outcome.PassFailed? ==> TurnFault(Pass(env, props, base).outcome.fault)
  {
    if HasChannelIdentity(props.state) {
      if BeforeOf(env, props).stop.Some? {
        BeforeFacts(env, props);
        PassStopsBefore(env, props, base);
      } else if BubblesOf(env, props, base).stop.Some? {
        BubblesStop(env, props, base);
        PassStopsInBubbles(env, props, base);
      } else {
        PassReachesPrompt(env, props, base);
      }
    }
  }

  /** The rest of a turn after a pass of turn events holds only turn events. */
  lemma {:induction false} TurnAfterEvents(env: Env, pass: PassEnd, base: nat, fuel: nat)
    requires AllTurnEvents(pass.events)
    decreases fuel
    ensures AllTurnEvents(TurnAfter(env, pass, base, fuel).events)
  {
    if pass.outcome.PassRestart? && fuel > 0 {
      var props := PropsOf(pass.outcome.response);
      var next := Pass(env, props, base + |pass.events|);
      PassEvents(env, props, base + |pass.events|);
      TurnAfterEvents(env, next, base + |pass.events|, fuel - 1);
      TurnEventsConcat(pass.events, TurnAfter(env, next, base + |pass.events|, fuel - 1).events);
    }
  }

  /** Every event of a turn, across its restarts, is a turn event. */
  lemma TurnEvents(env: Env, props: TurnProps, base: nat, fuel: nat)
    ensures AllTurnEvents(Turn(env, props, base, fuel).events)
  {
    PassEvents(env, props, base);
    TurnAfterEvents(env, Pass(env, props, base), base, fuel);
  }

  /** The rest of a turn after a pass fails only for the reasons the source lets escape. */
  lemma {:induction false} TurnAfterFaults(env: Env, pass: PassEnd, base: nat, fuel: nat)
    requires pass.outcome.PassFailed? ==> TurnFault(pass.outcome.fault)
    decreases fuel
    ensures TurnAfter(env, pass, base, fuel).outcome.Failed? ==> TurnFault(TurnAfter(env, pass, base, fuel).outcome.fault)
  {
    if pass.outcome.PassRestart? && fuel > 0 {
      var props := PropsOf(pass.outcome.response);
      PassFaults(env, props, base + |pass.events|);
      TurnAfterFaults(env, Pass(env, props, base + |pass.events|), base + |pass.events|, fuel - 1);
    }
  }

  /** A turn fails only with a configuration fault, an engine error or a rethrown TRPC send error. */
  lemma TurnFaults(env: Env, props: TurnProps, base: nat, fuel: nat)
    ensures Turn(env, props, base, fuel).outcome.Failed? ==> TurnFault(Turn(env, props, base, fuel).outcome.fault)
  {
    PassFaults(env, props, base);
    TurnAfterFaults(env, Pass(env, props, base), base, fuel);
  }

  /** A turn that completes started from a session with a channel identity. */
  lemma TurnCompletedHasIdentity(env: Env, props: TurnProps, base: nat, fuel: nat)
    ensures Turn(env, props, base, fuel).outcome.Completed? ==> HasChannelIdentity(props.state)
  {
    if !HasChannelIdentity(props.state) {
      var pass := Pass(env, props, base);
      assert pass.outcome.PassFailed?;
      assert Turn(env, props, base, fuel) == TurnAfter(env, pass, base, fuel);
    }
  }
}
