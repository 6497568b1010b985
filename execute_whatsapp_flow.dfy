/**
 * One turn of conversation over the WhatsApp socket channel: check the channel identity, run
 * the client-side actions due before any message, send the bubbles in order with the actions
 * keyed to each, then send the input prompt with pacing delays. A client-side action that
 * expects a dedicated reply re-enters the flow engine and restarts the turn on its answer.
 *
 * Each loop of the turn is a method proved equal to a recursive specification function; the
 * functions' contracts state what the turn guarantees.
 */
module ExecuteWhatsappFlow {
  import opened Wrappers
  import opened WhatsappTypes
  import opened Traces

  /** Pause, in milliseconds, before an input prompt that follows a media bubble. */
  const MessageAfterMediaTimeout: nat := 5000

  /** JavaScript truthiness of an optional string: present and not empty. */
  predicate Truthy(s: Option<string>) {
    s.Some? && s.value != ""
  }

  function ClientIdOf(state: Option<SessionState>): Option<string> {
    if state.Some? && state.value.whatsappComponent.Some? then state.value.whatsappComponent.value.clientId
    else None
  }

  function PhoneOf(state: Option<SessionState>): Option<string> {
    if state.Some? && state.value.whatsappComponent.Some? then state.value.whatsappComponent.value.phone
    else None
  }

  /** The channel identity a turn needs before it does anything. */
  predicate HasChannelIdentity(state: Option<SessionState>) {
    Truthy(ClientIdOf(state)) && Truthy(PhoneOf(state))
  }

  // ---------------------------------------------------------------------------------------
  // Pacing
  // ---------------------------------------------------------------------------------------

  predicate IsMedia(message: WireMessage) {
    message.AudioMessage? || message.VideoMessage? || message.ImageMessage?
  }

  /** `interactive.text` is present and not empty. */
  predicate HasInteractiveText(message: WireMessage)
    requires message.InteractiveMessage?
  {
    message.interactive.Some? && Truthy(message.interactive.value.text)
  }

  /** `interactive.body.text`, or the empty string when it is absent. */
  function InteractiveBodyText(interactive: Interactive): string {
    if interactive.body.Some? && interactive.body.value.text.Some? then interactive.body.value.text.value else ""
  }

  /** The typing delay for one wire message: none for media or an interactive without text. */
  function GetTypingDuration(env: Env, message: WireMessage, typingEmulation: Option<TypingEmulation>): (r: Option<nat>)
    ensures r.None? <==> IsMedia(message) || (message.InteractiveMessage? && !HasInteractiveText(message))
    ensures message.TextMessage? ==> r == Some(env.computeTypingDuration(message.body, typingEmulation))
    ensures message.InteractiveMessage? && r.Some? ==>
              r == Some(env.computeTypingDuration(InteractiveBodyText(message.interactive.value), typingEmulation))
  {
    match message
    case TextMessage(body) => Some(env.computeTypingDuration(body, typingEmulation))
    case InteractiveMessage(interactive) =>
      if interactive.None? || !Truthy(interactive.value.text) then None
      else Some(env.computeTypingDuration(InteractiveBodyText(interactive.value), typingEmulation))
    case AudioMessage(_) => None
    case VideoMessage(_) => None
    case ImageMessage(_) => None
  }

  predicate LastSentIsMedia(sent: seq<WireMessage>) {
    |sent| > 0 && IsMedia(sent[|sent| - 1])
  }

  /** The delay before an input-prompt fragment, given the bubbles this turn delivered. */
  function PromptDelay(env: Env, sent: seq<WireMessage>, message: WireMessage,
                       typingEmulation: Option<TypingEmulation>): (r: Option<nat>)
    ensures LastSentIsMedia(sent) ==> r == Some(MessageAfterMediaTimeout)
    ensures !LastSentIsMedia(sent) ==> r == GetTypingDuration(env, message, typingEmulation)
    ensures r.None? ==> !LastSentIsMedia(sent) && (IsMedia(message) || message.InteractiveMessage?)
  {
    if LastSentIsMedia(sent) then Some(MessageAfterMediaTimeout)
    else GetTypingDuration(env, message, typingEmulation)
  }

  /** A delay is waited for only when it is a non-zero number. */
  predicate Waits(delay: Option<nat>) {
    delay.Some? && delay.value != 0
  }

  function PacingEvents(delay: Option<nat>): seq<Event> {
    if Waits(delay) then [Delay(delay.value)] else []
  }

  // ---------------------------------------------------------------------------------------
  // Client-side actions
  // ---------------------------------------------------------------------------------------

  datatype DedicatedReply = DedicatedReply(replyToSend: Option<string>)

  /** The delay an action caused and, when it asks for one, the reply to re-enter with. */
  datatype ActionRun = ActionRun(events: seq<Event>, reply: Option<DedicatedReply>)

  function ExecuteClientSideAction(action: ClientSideAction): (r: ActionRun)
    ensures r.reply.Some? <==> action.kind.Wait? && action.expectsDedicatedReply
    ensures r.reply.Some? ==> r.reply.value.replyToSend.None?
    ensures action.kind.Wait? ==> r.events == [Delay(action.kind.secondsToWaitFor * 1000)]
    ensures !action.kind.Wait? ==> r.events == []
  {
    match action.kind
    case Wait(seconds) =>
      ActionRun([Delay(seconds * 1000)], if action.expectsDedicatedReply then Some(DedicatedReply(None)) else None)
    case OtherAction(_) => ActionRun([], None)
  }

  predicate ExpectsReply(action: ClientSideAction) {
    ExecuteClientSideAction(action).reply.Some?
  }

  /** The actions whose `lastBubbleBlockId` equals `key`, in their order (`None`: before any message). */
  function ActionsKeyedTo(actions: seq<ClientSideAction>, key: Option<string>): (r: seq<ClientSideAction>)
  {
    if actions == [] then []
    else
      var rest := ActionsKeyedTo(actions[1..], key);
      assert forall a :: a in actions <==> a == actions[0] || a in actions[1..];
      (if actions[0].lastBubbleBlockId == key then [actions[0]] else []) + rest
  }

  // ---------------------------------------------------------------------------------------
  // Specification of one pass of the turn
  // ---------------------------------------------------------------------------------------

  datatype PassOutcome = PassDone | PassFailed(fault: Fault) | PassRestart(response: ChatResponse)

  /** What re-entering the engine with no reply on `state` leads to. */
  function Reentry(env: Env, state: SessionState): PassOutcome {
    match env.continueBotFlow(None, state, false)
    case Answered(response) => PassRestart(response)
    case Threw(error) => PassFailed(EngineFailed(error))
  }

  /** Only delays, and when the actions re-entered, one final engine call with `state` and no reply. */
  predicate ActionEvents(t: seq<Event>, state: SessionState, reentered: bool) {
    && (forall k :: 0 <= k < |t| ==> t[k].Delay? || (reentered && k == |t| - 1))
    && (reentered ==> |t| > 0 && t[|t| - 1] == EngineCall(None, state, false))
  }

  lemma ActionEventsAreTurnEvents(t: seq<Event>, state: SessionState, reentered: bool, clientId: string, phone: string)
    requires ActionEvents(t, state, reentered)
    ensures AllTurnEvents(t) && NoSends(t) && Addressed(t, clientId, phone)
    ensures Attempts(t) == [] && Delivered(t) == []
  {
    NoSendsViews(t);
  }

  predicate NoneExpectsReply(actions: seq<ClientSideAction>, i: nat) {
    forall k :: i <= k < |actions| ==> !ExpectsReply(actions[k])
  }

  datatype ActionsEnd = ActionsEnd(events: seq<Event>, stop: Option<PassOutcome>)

  /** Runs `actions[i..]` in order; the first one that expects a reply re-enters the engine and stops. */
  function RunActions(env: Env, state: SessionState, actions: seq<ClientSideAction>, i: nat): ActionsEnd
    requires i <= |actions|
    decreases |actions| - i
  {
    if i == |actions| then ActionsEnd([], None)
    else
      var run := ExecuteClientSideAction(actions[i]);
      if run.reply.Some? then
        ActionsEnd(run.events + [EngineCall(run.reply.value.replyToSend, state, false)], Some(Reentry(env, state)))
      else
        var rest := RunActions(env, state, actions, i + 1);
        ActionsEnd(run.events + rest.events, rest.stop)
  }

  function After(prefix: seq<Event>, r: ActionsEnd): ActionsEnd {
    ActionsEnd(prefix + r.events, r.stop)
  }

  /** Unfolding step: the action loop at an action that asks for a reply. */
  lemma RunActionsStops(env: Env, state: SessionState, actions: seq<ClientSideAction>, i: nat, run: ActionRun)
    requires i < |actions| && run == ExecuteClientSideAction(actions[i]) && run.reply.Some?
    ensures RunActions(env, state, actions, i)
            == ActionsEnd(run.events + [EngineCall(run.reply.value.replyToSend, state, false)], Some(Reentry(env, state)))
  {
  }

  /** Unfolding step: the action loop past an action that does not ask for a reply. */
  lemma RunActionsGoesOn(env: Env, state: SessionState, actions: seq<ClientSideAction>, i: nat, run: ActionRun)
    requires i < |actions| && run == ExecuteClientSideAction(actions[i]) && run.reply.None?
    ensures RunActions(env, state, actions, i) == After(run.events, RunActions(env, state, actions, i + 1))
  {
  }

  /** Proof step: `After` re-associates over a concatenated prefix. */
  lemma AfterAfter(prefix: seq<Event>, step: seq<Event>, rest: ActionsEnd)
    ensures After(prefix, After(step, rest)) == After(prefix + step, rest)
  {
    assert prefix + (step + rest.events) == (prefix + step) + rest.events;
  }

  /** What a turn knows while it sends: the session, its identity, the bubbles and the actions. */
  datatype Ctx = Ctx(state: SessionState, clientId: string, phone: string,
                     messages: seq<Message>, actions: seq<ClientSideAction>)

  /** The wire messages of `messages[i..]` that have a WhatsApp form, in order. */
  function ConvertedFrom(env: Env, messages: seq<Message>, i: nat): seq<WireMessage>
    requires i <= |messages|
    decreases |messages| - i
  {
    if i == |messages| then []
    else
      (match env.convertMessageToWhatsappComponent(messages[i]) case None => [] case Some(w) => [w])
      + ConvertedFrom(env, messages, i + 1)
  }

  /** The defined fragments of `fragments[i..]`, in order. */
  function DefinedFrom(fragments: seq<Option<WireMessage>>, i: nat): seq<WireMessage>
    requires i <= |fragments|
    decreases |fragments| - i
  {
    if i == |fragments| then []
    else (if fragments[i].Some? then [fragments[i].value] else []) + DefinedFrom(fragments, i + 1)
  }

  /** An exception out of a bubble's actions that the bubble loop's `catch` swallows. */
  predicate Swallowed(stop: Option<PassOutcome>) {
    stop.None? || (stop.value.PassFailed? && stop.value.fault.EngineFailed? && !stop.value.fault.error.TrpcError?)
  }

  /** The reasons the bubble loop may stop early: a restart, or a rethrown TRPC error. */
  predicate Deliberate(outcome: PassOutcome) {
    outcome.PassRestart?
    || (outcome.PassFailed? && (outcome.fault.SendFailed? || outcome.fault.EngineFailed?)
        && outcome.fault.error.TrpcError?)
  }

  datatype BubblesEnd = BubblesEnd(events: seq<Event>, sent: seq<WireMessage>, stop: Option<PassOutcome>)

  function Then(prefix: seq<Event>, r: BubblesEnd): BubblesEnd {
    BubblesEnd(prefix + r.events, r.sent, r.stop)
  }

  /**
   * The `try` block of one bubble, `ctx.messages[i]`: convert it, send it, and once it is
   * delivered run the actions keyed to it. `stop` is set when the `catch` rethrows or an action
   * restarts the turn; `base` is the trace position of the first event.
   */
  function SendBubble(env: Env, ctx: Ctx, i: nat, base: nat, sent: seq<WireMessage>): BubblesEnd
    requires i < |ctx.messages|
  {
    var message := ctx.messages[i];
    match env.convertMessageToWhatsappComponent(message)
    case None => BubblesEnd([], sent, None)
    case Some(wire) =>
      var result := env.sendSocketWhatsappMessage(base, ctx.clientId, ctx.phone, wire);
      var attempt := [Send(ctx.clientId, ctx.phone, wire, result)];
      if result.Rejected? then
        BubblesEnd(attempt, sent, if result.error.TrpcError? then Some(PassFailed(SendFailed(result.error))) else None)
      else
        var after := RunActions(env, ctx.state, ActionsKeyedTo(ctx.actions, Some(message.id)), 0);
        BubblesEnd(attempt + after.events, sent + [wire], if Swallowed(after.stop) then None else after.stop)
  }

  /**
   * Sends `ctx.messages[i..]`; `base` is the trace position of the first event and `sent` the
   * bubbles delivered so far (`sentMessages`).
   */
  function SendBubbles(env: Env, ctx: Ctx, i: nat, base: nat, sent: seq<WireMessage>): BubblesEnd
    requires i <= |ctx.messages|
    decreases |ctx.messages| - i
  {
    if i == |ctx.messages| then BubblesEnd([], sent, None)
    else
      var step := SendBubble(env, ctx, i, base, sent);
      if step.stop.Some? then step
      else Then(step.events, SendBubbles(env, ctx, i + 1, base + |step.events|, step.sent))
  }

  /** Unfolding step: the bubble loop at a bubble that stops it. */
  lemma SendBubblesStops(env: Env, ctx: Ctx, i: nat, base: nat, sent: seq<WireMessage>)
    requires i < |ctx.messages|
    requires SendBubble(env, ctx, i, base, sent).stop.Some?
    ensures SendBubbles(env, ctx, i, base, sent) == SendBubble(env, ctx, i, base, sent)
  {
  }

  /** Unfolding step: the bubble loop past a bubble that does not stop it. */
  lemma SendBubblesContinues(env: Env, ctx: Ctx, i: nat, base: nat, sent: seq<WireMessage>)
    requires i < |ctx.messages|
    requires SendBubble(env, ctx, i, base, sent).stop.None?
    ensures var step := SendBubble(env, ctx, i, base, sent);
            var all := SendBubbles(env, ctx, i, base, sent);
            var rest := SendBubbles(env, ctx, i + 1, base + |step.events|, step.sent);
            all.events == step.events + rest.events && all.sent == rest.sent && all.stop == rest.stop
  {
  }

  /** Unfolding step: the bubble loop past a bubble that does not stop it, with the step given by its value. */
  lemma SendBubblesGoesOn(env: Env, ctx: Ctx, i: nat, base: nat, sent: seq<WireMessage>,
                          stepEvents: seq<Event>, stepSent: seq<WireMessage>)
    requires i < |ctx.messages|
    requires BubblesEnd(stepEvents, stepSent, None) == SendBubble(env, ctx, i, base, sent)
    ensures SendBubbles(env, ctx, i, base, sent) == Then(stepEvents, SendBubbles(env, ctx, i + 1, base + |stepEvents|, stepSent))
  {
  }

  /** Proof step: `Then` re-associates over a concatenated prefix. */
  lemma ThenThen(prefix: seq<Event>, step: seq<Event>, rest: BubblesEnd)
    ensures Then(prefix, Then(step, rest)) == Then(prefix + step, rest)
  {
    assert prefix + (step + rest.events) == (prefix + step) + rest.events;
  }

  /** Sends `fragments[i..]` of the input prompt, each after its pacing delay; failures are ignored. */
  function SendPrompt(env: Env, ctx: Ctx, fragments: seq<Option<WireMessage>>, i: nat, base: nat,
                      sent: seq<WireMessage>): seq<Event>
    requires i <= |fragments|
    decreases |fragments| - i
  {
    if i == |fragments| then []
    else
      match fragments[i]
      case None => SendPrompt(env, ctx, fragments, i + 1, base, sent)
      case Some(wire) =>
        var pause := PacingEvents(PromptDelay(env, sent, wire, ctx.state.typingEmulation));
        var result := env.sendSocketWhatsappMessage(base + |pause|, ctx.clientId, ctx.phone, wire);
        var events := pause + [Send(ctx.clientId, ctx.phone, wire, result)];
        events + SendPrompt(env, ctx, fragments, i + 1, base + |events|, sent)
  }

  /** Unfolding step: the prompt loop at a fragment without a wire form. */
  lemma SendPromptSkips(env: Env, ctx: Ctx, fragments: seq<Option<WireMessage>>, i: nat, base: nat, sent: seq<WireMessage>)
    requires i < |fragments| && fragments[i].None?
    ensures SendPrompt(env, ctx, fragments, i, base, sent) == SendPrompt(env, ctx, fragments, i + 1, base, sent)
  {
  }

  /** Unfolding step: the prompt loop at a fragment with a wire form. */
  lemma SendPromptSends(env: Env, ctx: Ctx, fragments: seq<Option<WireMessage>>, i: nat, base: nat,
                        sent: seq<WireMessage>, pause: seq<Event>, result: SendResult)
    requires i < |fragments| && fragments[i].Some?
    requires pause == PacingEvents(PromptDelay(env, sent, fragments[i].value, ctx.state.typingEmulation))
    requires result == env.sendSocketWhatsappMessage(base + |pause|, ctx.clientId, ctx.phone, fragments[i].value)
    ensures var events := pause + [Send(ctx.clientId, ctx.phone, fragments[i].value, result)];
            SendPrompt(env, ctx, fragments, i, base, sent) == events + SendPrompt(env, ctx, fragments, i + 1, base + |events|, sent)
  {
  }

  /** The arguments of `executeWhatsappFlow`; the state may be missing after a re-entry. */
  datatype TurnProps = TurnProps(state: Option<SessionState>, messages: seq<Message>, input: Option<Input>,
                                 clientSideActions: seq<ClientSideAction>)

  function ContextOf(props: TurnProps): Ctx
    requires HasChannelIdentity(props.state)
  {
    Ctx(props.state.value, ClientIdOf(props.state).value, PhoneOf(props.state).value,
        props.messages, props.clientSideActions)
  }

  function PromptFragments(env: Env, input: Option<Input>): seq<Option<WireMessage>> {
    if input.None? then [] else env.convertInputToWhatsAppComponent(input.value)
  }

  datatype PassEnd = PassEnd(events: seq<Event>, outcome: PassOutcome)

  /** The actions before any message, in a session with a channel identity. */
  function BeforeOf(env: Env, props: TurnProps): ActionsEnd
    requires HasChannelIdentity(props.state)
  {
    RunActions(env, props.state.value, ActionsKeyedTo(props.clientSideActions, None), 0)
  }

  /** The bubble loop of a pass whose actions before any message did not stop it. */
  function BubblesOf(env: Env, props: TurnProps, base: nat): BubblesEnd
    requires HasChannelIdentity(props.state)
  {
    SendBubbles(env, ContextOf(props), 0, base + |BeforeOf(env, props).events|, [])
  }

  /** The prompt of a pass whose bubble loop ran to its end. */
  function PromptOf(env: Env, props: TurnProps, base: nat): seq<Event>
    requires HasChannelIdentity(props.state)
  {
    var bubbles := BubblesOf(env, props, base);
    SendPrompt(env, ContextOf(props), PromptFragments(env, props.input), 0,
               base + |BeforeOf(env, props).events| + |bubbles.events|, bubbles.sent)
  }

  /** One pass of `executeWhatsappFlow`, up to its end or to the restart it asks for. */
  function Pass(env: Env, props: TurnProps, base: nat): PassEnd {
    if !Truthy(ClientIdOf(props.state)) then PassEnd([], PassFailed(ComponentNotConfigured))
    else if !Truthy(PhoneOf(props.state)) then PassEnd([], PassFailed(PhoneNotConfigured))
    else
      var before := BeforeOf(env, props);
      if before.stop.Some? then PassEnd(before.events, before.stop.value)
      else
        var bubbles := BubblesOf(env, props, base);
        if bubbles.stop.Some? then PassEnd(before.events + bubbles.events, bubbles.stop.value)
        else PassEnd(before.events + bubbles.events + PromptOf(env, props, base), PassDone)
  }

  /** The turn the engine's answer starts. */
  function PropsOf(response: ChatResponse): TurnProps {
    TurnProps(response.newSessionState, response.messages, response.input, response.clientSideActions)
  }

  datatype TurnEnd = TurnEnd(events: seq<Event>, outcome: Outcome)

  /** `executeWhatsappFlow`, following at most `fuel` restarts. */
  function Turn(env: Env, props: TurnProps, base: nat, fuel: nat): TurnEnd
    decreases fuel, 1
  {
    TurnAfter(env, Pass(env, props, base), base, fuel)
  }

  /** The rest of a turn whose first pass, starting at trace position `base`, ended with `pass`. */
  function TurnAfter(env: Env, pass: PassEnd, base: nat, fuel: nat): TurnEnd
    decreases fuel, 0
  {
    match pass.outcome
    case PassDone => TurnEnd(pass.events, Completed)
    case PassFailed(fault) => TurnEnd(pass.events, Failed(fault))
    case PassRestart(response) =>
      if fuel == 0 then TurnEnd(pass.events, Unfinished)
      else
        var rest := Turn(env, PropsOf(response), base + |pass.events|, fuel - 1);
        TurnEnd(pass.events + rest.events, rest.outcome)
  }

  // ---------------------------------------------------------------------------------------
  // Methods
  // ---------------------------------------------------------------------------------------

  /** The `for` loop over client-side actions, shared by the before-messages and after-bubble phases. */
  method ExecuteActions(env: Env, state: SessionState, actions: seq<ClientSideAction>)
    returns (events: seq<Event>, stop: Option<PassOutcome>)
    ensures ActionsEnd(events, stop) == RunActions(env, state, actions, 0)
  {
    ghost var total := RunActions(env, state, actions, 0);
    events, stop := [], None;
    var i := 0;
    while i < |actions|
      invariant 0 <= i <= |actions|
      invariant total == After(events, RunActions(env, state, actions, i))
    {
      var run := ExecuteClientSideAction(actions[i]);
      if run.reply.Some? {
        RunActionsStops(env, state, actions, i, run);
        var reply := run.reply.value.replyToSend;
        events := events + (run.events + [EngineCall(reply, state, false)]);
        stop := Some(Reentry(env, state));
        return;
      }
      RunActionsGoesOn(env, state, actions, i, run);
      AfterAfter(events, run.events, RunActions(env, state, actions, i + 1));
      events := events + run.events;
      i := i + 1;
    }
  }

  /** The body of the bubble loop: one bubble and its `catch`. */
  method ExecuteBubble(env: Env, ctx: Ctx, i: nat, base: nat, sent: seq<WireMessage>)
    returns (events: seq<Event>, newSent: seq<WireMessage>, stop: Option<PassOutcome>)
    requires i < |ctx.messages|
    ensures BubblesEnd(events, newSent, stop) == SendBubble(env, ctx, i, base, sent)
  {
    var message := ctx.messages[i];
    events, newSent, stop := [], sent, None;
    var converted := env.convertMessageToWhatsappComponent(message);
    if converted.None? {
      return;
    }
    var wire := converted.value;
    var result := env.sendSocketWhatsappMessage(base, ctx.clientId, ctx.phone, wire);
    events := [Send(ctx.clientId, ctx.phone, wire, result)];
    if result.Rejected? {
      if result.error.TrpcError? {
        stop := Some(PassFailed(SendFailed(result.error)));
      }
      return;
    }
    newSent := sent + [wire];
    var afterEvents, afterStop := ExecuteActions(env, ctx.state, ActionsKeyedTo(ctx.actions, Some(message.id)));
    events := events + afterEvents;
    if !Swallowed(afterStop) {
      stop := afterStop;
    }
  }

  /** The `for` loop over the bubbles. */
  method ExecuteBubbles(env: Env, ctx: Ctx, base: nat) returns (events: seq<Event>, sent: seq<WireMessage>, stop: Option<PassOutcome>)
    ensures BubblesEnd(events, sent, stop) == SendBubbles(env, ctx, 0, base, [])
  {
    ghost var total := SendBubbles(env, ctx, 0, base, []);
    events, sent, stop := [], [], None;
    var i := 0;
    var at := base;
    while i < |ctx.messages|
      invariant 0 <= i <= |ctx.messages|
      invariant at == base + |events|
      invariant total == Then(events, SendBubbles(env, ctx, i, at, sent))
    {
      var stepEvents, stepSent, stepStop := ExecuteBubble(env, ctx, i, at, sent);
      if stepStop.Some? {
        SendBubblesStops(env, ctx, i, at, sent);
        events, sent, stop := events + stepEvents, stepSent, stepStop;
        return;
      }
      SendBubblesGoesOn(env, ctx, i, at, sent, stepEvents, stepSent);
      ThenThen(events, stepEvents, SendBubbles(env, ctx, i + 1, at + |stepEvents|, stepSent));
      events, sent := events + stepEvents, stepSent;
      at := at + |stepEvents|;
      i := i + 1;
    }
  }

  /** The `for` loop over the input prompt's fragments. */
  method ExecutePrompt(env: Env, ctx: Ctx, fragments: seq<Option<WireMessage>>, base: nat, sent: seq<WireMessage>)
    returns (events: seq<Event>)
    ensures events == SendPrompt(env, ctx, fragments, 0, base, sent)
  {
    events := [];
    var i := 0;
    while i < |fragments|
      invariant 0 <= i <= |fragments|
      invariant SendPrompt(env, ctx, fragments, 0, base, sent) ==
                events + SendPrompt(env, ctx, fragments, i, base + |events|, sent)
    {
      if fragments[i].None? {
        SendPromptSkips(env, ctx, fragments, i, base + |events|, sent);
      } else {
        var wire := fragments[i].value;
        var delay := PromptDelay(env, sent, wire, ctx.state.typingEmulation);
        var pause := [];
        if Waits(delay) {
          pause := [Delay(delay.value)];
        }
        var result := env.sendSocketWhatsappMessage(base + |events| + |pause|, ctx.clientId, ctx.phone, wire);
        var step := pause + [Send(ctx.clientId, ctx.phone, wire, result)];
        SendPromptSends(env, ctx, fragments, i, base + |events|, sent, pause, result);
        assert events + (step + SendPrompt(env, ctx, fragments, i + 1, base + |events| + |step|, sent))
            == (events + step) + SendPrompt(env, ctx, fragments, i + 1, base + |events| + |step|, sent);
        events := events + step;
      }
      i := i + 1;
    }
  }

  /** One pass of `executeWhatsappFlow`: the identity checks and the three loops. */
  method ExecutePass(env: Env, props: TurnProps, base: nat) returns (events: seq<Event>, outcome: PassOutcome)
    ensures PassEnd(events, outcome) == Pass(env, props, base)
  {
    if !Truthy(ClientIdOf(props.state)) {
      return [], PassFailed(ComponentNotConfigured);
    }
    if !Truthy(PhoneOf(props.state)) {
      return [], PassFailed(PhoneNotConfigured);
    }
    var ctx := ContextOf(props);
    var beforeStop;
    events, beforeStop := ExecuteActions(env, ctx.state, ActionsKeyedTo(props.clientSideActions, None));
    assert events == BeforeOf(env, props).events && beforeStop == BeforeOf(env, props).stop;
    if beforeStop.Some? {
      return events, beforeStop.value;
    }
    var bubbleEvents, sent, bubbleStop := ExecuteBubbles(env, ctx, base + |events|);
    assert bubbleEvents == BubblesOf(env, props, base).events && bubbleStop == BubblesOf(env, props, base).stop;
    if bubbleStop.Some? {
      return events + bubbleEvents, bubbleStop.value;
    }
    assert sent == BubblesOf(env, props, base).sent;
    var promptEvents := ExecutePrompt(env, ctx, PromptFragments(env, props.input), base + |events| + |bubbleEvents|, sent);
    assert promptEvents == PromptOf(env, props, base);
    events := events + bubbleEvents + promptEvents;
    outcome := PassDone;
  }

  /** `executeWhatsappFlow`: a pass, and on a restart the recursive turn on the engine's answer. */
  method ExecuteWhatsappFlow(env: Env, props: TurnProps, base: nat, fuel: nat)
    returns (events: seq<Event>, outcome: Outcome)
    decreases fuel
    ensures TurnEnd(events, outcome) == Turn(env, props, base, fuel)
  {
    ghost var pass := Pass(env, props, base);
    var passOutcome;
    events, passOutcome := ExecutePass(env, props, base);
    assert pass == PassEnd(events, passOutcome);
    match passOutcome {
      case PassDone => outcome := Completed;
      case PassFailed(fault) => outcome := Failed(fault);
      case PassRestart(response) =>
        if fuel == 0 {
          outcome := Unfinished;
        } else {
          var more;
          more, outcome := ExecuteWhatsappFlow(env, PropsOf(response), base + |events|, fuel - 1);
          events := events + more;
        }
    }
  }
}
