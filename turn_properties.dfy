/**
 * What one turn of `executeWhatsappFlow` guarantees, proved about its specification functions:
 * the order of the bubbles, the log of delivered bubbles, the reasons a turn stops early, the
 * pacing of the input prompt and the restart before any bubble.
 */
module TurnProperties {
  import opened Wrappers
  import opened WhatsappTypes
  import opened Traces
  import opened ExecuteWhatsappFlow

  /**
   * Client-side actions only wait; when one expects a reply, exactly one engine call follows,
   * with no reply and the current state, and nothing after it runs.
   */
  lemma {:induction false} RunActionsShape(env: Env, state: SessionState, actions: seq<ClientSideAction>, i: nat)
    requires i <= |actions|
    decreases |actions| - i
    ensures ActionEvents(RunActions(env, state, actions, i).events, state, RunActions(env, state, actions, i).stop.Some?)
    ensures RunActions(env, state, actions, i).stop.None? <==> NoneExpectsReply(actions, i)
    ensures RunActions(env, state, actions, i).stop.Some? ==> RunActions(env, state, actions, i).stop.value == Reentry(env, state)
  {
    if i < |actions| {
      var run := ExecuteClientSideAction(actions[i]);
      if run.reply.None? {
        RunActionsShape(env, state, actions, i + 1);
        var rest := RunActions(env, state, actions, i + 1);
        var t := run.events + rest.events;
        assert |run.events| <= 1 && (|run.events| == 1 ==> run.events[0].Delay?);
        forall k | 0 <= k < |t| ensures t[k].Delay? || (rest.stop.Some? && k == |t| - 1) {
          if k >= |run.events| { assert t[k] == rest.events[k - |run.events|]; }
        }
        if rest.stop.Some? { assert t[|t| - 1] == rest.events[|rest.events| - 1]; }
      }
    }
  }

  /** The index of the first action from `i` on that asks for a reply, or `|actions|` when none does. */
  function FirstAsking(actions: seq<ClientSideAction>, i: nat): (j: nat)
    requires i <= |actions|
    decreases |actions| - i
    ensures i <= j <= |actions|
    ensures forall k :: i <= k < j ==> !ExpectsReply(actions[k])
    ensures j < |actions| ==> ExpectsReply(actions[j])
  {
    if i == |actions| || ExpectsReply(actions[i]) then i else FirstAsking(actions, i + 1)
  }

  /** The waits of `actions[i..j]`, in order. */
  function WaitsOf(actions: seq<ClientSideAction>, i: nat, j: nat): seq<Event>
    requires i <= j <= |actions|
    decreases j - i
  {
    if i == j then [] else ExecuteClientSideAction(actions[i]).events + WaitsOf(actions, i + 1, j)
  }

  /**
   * The action loop runs the waits of exactly the actions up to and including the first one
   * that asks for a reply, then re-enters the engine once; with none asking, it runs them all.
   */
  lemma {:induction false} RunActionsUpToFirstAsking(env: Env, state: SessionState, actions: seq<ClientSideAction>, i: nat)
    requires i <= |actions|
    decreases |actions| - i
    ensures var j := FirstAsking(actions, i);
            RunActions(env, state, actions, i).events
            == if j < |actions| then WaitsOf(actions, i, j + 1) + [EngineCall(None, state, false)] else WaitsOf(actions, i, j)
  {
    if i < |actions| {
      var run := ExecuteClientSideAction(actions[i]);
      if run.reply.Some? {
        assert WaitsOf(actions, i, i + 1) == run.events + WaitsOf(actions, i + 1, i + 1);
        assert run.events + [] == run.events;
      } else {
        RunActionsUpToFirstAsking(env, state, actions, i + 1);
        var j := FirstAsking(actions, i + 1);
        assert FirstAsking(actions, i) == j;
        var call := [EngineCall(None, state, false)];
        if j < |actions| {
          assert WaitsOf(actions, i, j + 1) == run.events + WaitsOf(actions, i + 1, j + 1);
          assert run.events + (WaitsOf(actions, i + 1, j + 1) + call) == (run.events + WaitsOf(actions, i + 1, j + 1)) + call;
        } else {
          assert WaitsOf(actions, i, j) == run.events + WaitsOf(actions, i + 1, j);
        }
      }
    }
  }

  /** `ActionsKeyedTo` keeps exactly the actions keyed to `key`, and no more than it was given. */
  lemma {:induction false} ActionsKeyedToSpec(actions: seq<ClientSideAction>, key: Option<string>)
    ensures forall a :: a in ActionsKeyedTo(actions, key) <==> a in actions && a.lastBubbleBlockId == key
    ensures |ActionsKeyedTo(actions, key)| <= |actions|
  {
    if actions != [] {
      ActionsKeyedToSpec(actions[1..], key);
      assert actions == [actions[0]] + actions[1..];
    }
  }

  /**
   * `ActionsKeyedTo` is the order-preserving filter: it distributes over concatenation and keeps
   * a single action exactly when that action is keyed to `key`. Together these fix it as the
   * subsequence of `actions` keyed to `key`, duplicates included.
   */
  lemma ActionsKeyedToFilters(a: seq<ClientSideAction>, b: seq<ClientSideAction>, key: Option<string>)
    ensures ActionsKeyedTo(a + b, key) == ActionsKeyedTo(a, key) + ActionsKeyedTo(b, key)
    ensures |a| == 1 ==> ActionsKeyedTo(a, key) == (if a[0].lastBubbleBlockId == key then a else [])
  {
    KeyedConcat(a, b, key);
    if |a| == 1 {
      KeepsHead(a, key);
      assert a[1..] == [];
    }
  }

  /** Proof step: the filter distributes over concatenation, by induction on `a`. */
  lemma {:induction false} KeyedConcat(a: seq<ClientSideAction>, b: seq<ClientSideAction>, key: Option<string>)
    ensures ActionsKeyedTo(a + b, key) == ActionsKeyedTo(a, key) + ActionsKeyedTo(b, key)
  {
    if a == [] {
      assert a + b == b;
    } else {
      var ab := a + b;
      assert ab != [] && ab[0] == a[0] && ab[1..] == a[1..] + b;
      KeyedConcat(a[1..], b, key);
      KeepsHead(a, key);
      KeepsHead(ab, key);
      var head := if a[0].lastBubbleBlockId == key then [a[0]] else [];
      var left, right := ActionsKeyedTo(a[1..], key), ActionsKeyedTo(b, key);
      assert head + (left + right) == (head + left) + right;
    }
  }

  /** Proof step: the filter decides the first action, then filters the rest. */
  lemma KeepsHead(a: seq<ClientSideAction>, key: Option<string>)
    requires a != []
    ensures ActionsKeyedTo(a, key) == (if a[0].lastBubbleBlockId == key then [a[0]] else []) + ActionsKeyedTo(a[1..], key)
  {
  }

  /** The actions run after a delivered bubble leave only turn events behind. */
  lemma AfterActionsAreTurnEvents(env: Env, ctx: Ctx, message: Message)
    ensures ActionEvents(RunActions(env, ctx.state, ActionsKeyedTo(ctx.actions, Some(message.id)), 0).events,
                         ctx.state, RunActions(env, ctx.state, ActionsKeyedTo(ctx.actions, Some(message.id)), 0).stop.Some?)
    ensures var t := RunActions(env, ctx.state, ActionsKeyedTo(ctx.actions, Some(message.id)), 0).events;
            AllTurnEvents(t) && Addressed(t, ctx.clientId, ctx.phone) && Attempts(t) == [] && Delivered(t) == []
  {
    var keyed := ActionsKeyedTo(ctx.actions, Some(message.id));
    var after := RunActions(env, ctx.state, keyed, 0);
    RunActionsShape(env, ctx.state, keyed, 0);
    ActionEventsAreTurnEvents(after.events, ctx.state, after.stop.Some?, ctx.clientId, ctx.phone);
  }

  /** One bubble emits only turn events, addressed to the session's recipient. */
  lemma BubbleIsTurnEvents(env: Env, ctx: Ctx, i: nat, base: nat, sent: seq<WireMessage>)
    requires i < |ctx.messages|
    ensures AllTurnEvents(SendBubble(env, ctx, i, base, sent).events)
    ensures Addressed(SendBubble(env, ctx, i, base, sent).events, ctx.clientId, ctx.phone)
  {
    var message := ctx.messages[i];
    if env.convertMessageToWhatsappComponent(message).Some? {
      var wire := env.convertMessageToWhatsappComponent(message).value;
      var result := env.sendSocketWhatsappMessage(base, ctx.clientId, ctx.phone, wire);
      if result.Accepted? {
        var after := RunActions(env, ctx.state, ActionsKeyedTo(ctx.actions, Some(message.id)), 0);
        AfterActionsAreTurnEvents(env, ctx, message);
        ConcatKeepsTurnEvents([Send(ctx.clientId, ctx.phone, wire, result)], after.events, ctx.clientId, ctx.phone);
      }
    }
  }

  /** One bubble attempts its own wire form, if it has one. */
  lemma BubbleAttempts(env: Env, ctx: Ctx, i: nat, base: nat, sent: seq<WireMessage>)
    requires i < |ctx.messages|
    ensures Attempts(SendBubble(env, ctx, i, base, sent).events) + ConvertedFrom(env, ctx.messages, i + 1)
            == ConvertedFrom(env, ctx.messages, i)
  {
    var message := ctx.messages[i];
    if env.convertMessageToWhatsappComponent(message).Some? {
      var wire := env.convertMessageToWhatsappComponent(message).value;
      var result := env.sendSocketWhatsappMessage(base, ctx.clientId, ctx.phone, wire);
      var attempt := [Send(ctx.clientId, ctx.phone, wire, result)];
      assert Attempts(attempt) == [wire] by { assert attempt[1..] == []; }
      if result.Accepted? {
        var after := RunActions(env, ctx.state, ActionsKeyedTo(ctx.actions, Some(message.id)), 0);
        AfterActionsAreTurnEvents(env, ctx, message);
        AttemptsConcat(attempt, after.events);
      }
    }
  }

  /** One bubble joins `sentMessages` exactly when the socket accepted it. */
  lemma BubbleDelivers(env: Env, ctx: Ctx, i: nat, base: nat, sent: seq<WireMessage>)
    requires i < |ctx.messages|
    ensures SendBubble(env, ctx, i, base, sent).sent == sent + Delivered(SendBubble(env, ctx, i, base, sent).events)
  {
    var message := ctx.messages[i];
    if env.convertMessageToWhatsappComponent(message).Some? {
      var wire := env.convertMessageToWhatsappComponent(message).value;
      var result := env.sendSocketWhatsappMessage(base, ctx.clientId, ctx.phone, wire);
      var attempt := [Send(ctx.clientId, ctx.phone, wire, result)];
      assert Delivered(attempt) == (if result.Accepted? then [wire] else []) by { assert attempt[1..] == []; }
      if result.Accepted? {
        var after := RunActions(env, ctx.state, ActionsKeyedTo(ctx.actions, Some(message.id)), 0);
        AfterActionsAreTurnEvents(env, ctx, message);
        DeliveredConcat(attempt, after.events);
      }
    }
  }

  /**
   * The keyed actions of a delivered bubble end the loop: one of them asks for a reply, and the
   * re-entry it causes is answered (a restart) or throws a TRPC error (rethrown by the `catch`).
   */
  predicate ReentryStops(env: Env, state: SessionState, keyed: seq<ClientSideAction>) {
    && !NoneExpectsReply(keyed, 0)
    && (env.continueBotFlow(None, state, false).Answered? || env.continueBotFlow(None, state, false).error.TrpcError?)
  }

  /** When the bubble `ctx.messages[i]` ends the loop, in terms of the socket's and the engine's answers. */
  predicate BubbleStops(env: Env, ctx: Ctx, i: nat, base: nat)
    requires i < |ctx.messages|
  {
    var message := ctx.messages[i];
    match env.convertMessageToWhatsappComponent(message)
    case None => false
    case Some(wire) =>
      var result := env.sendSocketWhatsappMessage(base, ctx.clientId, ctx.phone, wire);
      if result.Rejected? then result.error.TrpcError?
      else ReentryStops(env, ctx.state, ActionsKeyedTo(ctx.actions, Some(message.id)))
  }

  /**
   * One bubble stops the loop exactly when its send is rejected with a TRPC error, or when it
   * was delivered and its keyed actions restart the turn or rethrow a TRPC error from the
   * engine; it stops only for a deliberate reason.
   */
  lemma BubbleStopsDeliberately(env: Env, ctx: Ctx, i: nat, base: nat, sent: seq<WireMessage>)
    requires i < |ctx.messages|
    ensures SendBubble(env, ctx, i, base, sent).stop.Some? <==> BubbleStops(env, ctx, i, base)
    ensures SendBubble(env, ctx, i, base, sent).stop.Some? ==> Deliberate(SendBubble(env, ctx, i, base, sent).stop.value)
  {
    var message := ctx.messages[i];
    RunActionsShape(env, ctx.state, ActionsKeyedTo(ctx.actions, Some(message.id)), 0);
  }

  /**
   * A rejected send is the bubble's only event: it joins no log and runs none of the bubble's
   * keyed actions. A TRPC rejection is rethrown as the pass's failure; any other is swallowed.
   */
  lemma BubbleRejected(env: Env, ctx: Ctx, i: nat, base: nat, sent: seq<WireMessage>, wire: WireMessage, error: Exception)
    requires i < |ctx.messages|
    requires env.convertMessageToWhatsappComponent(ctx.messages[i]) == Some(wire)
    requires env.sendSocketWhatsappMessage(base, ctx.clientId, ctx.phone, wire) == Rejected(error)
    ensures SendBubble(env, ctx, i, base, sent).events == [Send(ctx.clientId, ctx.phone, wire, Rejected(error))]
    ensures SendBubble(env, ctx, i, base, sent).sent == sent
    ensures error.TrpcError? ==> SendBubble(env, ctx, i, base, sent).stop == Some(PassFailed(SendFailed(error)))
    ensures !error.TrpcError? ==> SendBubble(env, ctx, i, base, sent).stop.None?
  {
  }

  /**
   * A failure the bubble's `catch` swallows—a rejection other than a TRPC error, or a non-TRPC
   * error from the engine re-entered by its keyed actions—does not end the loop: the next
   * bubble is still attempted.
   */
  lemma BubbleFailureSwallowed(env: Env, ctx: Ctx, i: nat, base: nat, sent: seq<WireMessage>, wire: WireMessage)
    requires i < |ctx.messages|
    requires env.convertMessageToWhatsappComponent(ctx.messages[i]) == Some(wire)
    requires var result := env.sendSocketWhatsappMessage(base, ctx.clientId, ctx.phone, wire);
             var reentry := env.continueBotFlow(None, ctx.state, false);
             || (result.Rejected? && !result.error.TrpcError?)
             || (result.Accepted? && reentry.Threw? && !reentry.error.TrpcError?)
    ensures var step := SendBubble(env, ctx, i, base, sent);
            var all := SendBubbles(env, ctx, i, base, sent);
            var rest := SendBubbles(env, ctx, i + 1, base + |step.events|, step.sent);
            && step.stop.None?
            && all.events == step.events + rest.events && all.sent == rest.sent && all.stop == rest.stop
  {
    BubbleStopsDeliberately(env, ctx, i, base, sent);
    SendBubblesContinues(env, ctx, i, base, sent);
  }

  /** A send the socket rejected with a TRPC error. */
  predicate TrpcRejection(e: Event) {
    e.Send? && e.result.Rejected? && e.result.error.TrpcError?
  }

  /** Nothing follows a TRPC rejection in `t`, and `stop` is the failure that rejection rethrows. */
  predicate EndsAtTrpcRejection(t: seq<Event>, stop: Option<PassOutcome>) {
    forall k :: 0 <= k < |t| && TrpcRejection(t[k]) ==> k == |t| - 1 && stop == Some(PassFailed(SendFailed(t[k].result.error)))
  }

  /** Within one bubble, a TRPC rejection is the last event and stops the loop with its error. */
  lemma BubbleEndsAtTrpcRejection(env: Env, ctx: Ctx, i: nat, base: nat, sent: seq<WireMessage>)
    requires i < |ctx.messages|
    ensures EndsAtTrpcRejection(SendBubble(env, ctx, i, base, sent).events, SendBubble(env, ctx, i, base, sent).stop)
  {
    var message := ctx.messages[i];
    if env.convertMessageToWhatsappComponent(message).Some? {
      var wire := env.convertMessageToWhatsappComponent(message).value;
      var result := env.sendSocketWhatsappMessage(base, ctx.clientId, ctx.phone, wire);
      if result.Accepted? {
        var keyed := ActionsKeyedTo(ctx.actions, Some(message.id));
        var after := RunActions(env, ctx.state, keyed, 0);
        RunActionsShape(env, ctx.state, keyed, 0);
        var t := [Send(ctx.clientId, ctx.phone, wire, result)] + after.events;
        assert SendBubble(env, ctx, i, base, sent).events == t;
        forall k | 0 <= k < |t| ensures !TrpcRejection(t[k]) {
          if k > 0 { assert t[k] == after.events[k - 1]; }
        }
      }
    }
  }

  /**
   * The bubble loop sends nothing after a send rejected with a TRPC error: that send is the
   * loop's last event, and the loop stops with that send's error.
   */
  lemma {:induction false} BubblesEndAtTrpcRejection(env: Env, ctx: Ctx, i: nat, base: nat, sent: seq<WireMessage>)
    requires i <= |ctx.messages|
    decreases |ctx.messages| - i
    ensures EndsAtTrpcRejection(SendBubbles(env, ctx, i, base, sent).events, SendBubbles(env, ctx, i, base, sent).stop)
  {
    if i < |ctx.messages| {
      var step := SendBubble(env, ctx, i, base, sent);
      if step.stop.Some? {
        BubbleEndsAtTrpcRejection(env, ctx, i, base, sent);
        SendBubblesStops(env, ctx, i, base, sent);
      } else {
        var stepEvents, stepSent := step.events, step.sent;
        BubblesEndAtTrpcRejection(env, ctx, i + 1, base + |stepEvents|, stepSent);
        RejectionEndsPastStep(env, ctx, i, base, sent, stepEvents, stepSent);
      }
    }
  }

  /** Proof step: a bubble that does not stop the loop holds no TRPC rejection, so the rest decides. */
  lemma RejectionEndsPastStep(env: Env, ctx: Ctx, i: nat, base: nat, sent: seq<WireMessage>,
                              stepEvents: seq<Event>, stepSent: seq<WireMessage>)
    requires i < |ctx.messages| && SendBubble(env, ctx, i, base, sent) == BubblesEnd(stepEvents, stepSent, None)
    requires var rest := SendBubbles(env, ctx, i + 1, base + |stepEvents|, stepSent);
             EndsAtTrpcRejection(rest.events, rest.stop)
    ensures EndsAtTrpcRejection(SendBubbles(env, ctx, i, base, sent).events, SendBubbles(env, ctx, i, base, sent).stop)
  {
    BubbleEndsAtTrpcRejection(env, ctx, i, base, sent);
    SendBubblesContinues(env, ctx, i, base, sent);
    var rest := SendBubbles(env, ctx, i + 1, base + |stepEvents|, stepSent);
    RejectionEndsConcat(stepEvents, rest.events, rest.stop);
  }

  /** A prefix with no TRPC rejection keeps a trace that ends at its TRPC rejection so. */
  lemma RejectionEndsConcat(a: seq<Event>, b: seq<Event>, stop: Option<PassOutcome>)
    requires forall k :: 0 <= k < |a| ==> !TrpcRejection(a[k])
    requires EndsAtTrpcRejection(b, stop)
    ensures EndsAtTrpcRejection(a + b, stop)
  {
    assert forall k :: 0 <= k < |a| ==> (a + b)[k] == a[k];
    assert forall k :: |a| <= k < |a + b| ==> (a + b)[k] == b[k - |a|];
  }

  /** A stop that comes from re-entering the engine: the restart it answered, or the error it threw. */
  predicate ReentryStop(stop: Option<PassOutcome>) {
    stop.Some? && (stop.value.PassRestart? || (stop.value.PassFailed? && stop.value.fault.EngineFailed?))
  }

  /**
   * `t[j]` delivered the bubble `ctx.messages[k]`, and what follows it in `t` is the whole trace
   * of the actions keyed to that bubble: they send nothing, and one of them re-entered the engine.
   */
  predicate ReenteredAfter(env: Env, ctx: Ctx, k: nat, t: seq<Event>, j: nat)
    requires k < |ctx.messages| && j < |t|
  {
    var keyed := RunActions(env, ctx.state, ActionsKeyedTo(ctx.actions, Some(ctx.messages[k].id)), 0);
    && t[j].Send? && t[j].result.Accepted?
    && env.convertMessageToWhatsappComponent(ctx.messages[k]) == Some(t[j].message)
    && t[j + 1..] == keyed.events && keyed.stop.Some? && NoSends(t[j + 1..])
  }

  /**
   * `t` ends with the engine call, with no reply on `ctx.state`, of the keyed actions of a
   * bubble of `ctx.messages[i..]` whose delivery is the last send of `t`.
   */
  predicate EndsAtReentry(env: Env, ctx: Ctx, i: nat, t: seq<Event>) {
    && |t| > 0 && t[|t| - 1] == EngineCall(None, ctx.state, false)
    && exists j: nat, k :: j < |t| && i <= k < |ctx.messages| && ReenteredAfter(env, ctx, k, t, j)
  }

  /** Within one bubble, a stop from re-entering the engine comes at the end of that bubble's keyed actions. */
  lemma BubbleEndsAtReentry(env: Env, ctx: Ctx, i: nat, base: nat, sent: seq<WireMessage>)
    requires i < |ctx.messages|
    ensures var step := SendBubble(env, ctx, i, base, sent);
            ReentryStop(step.stop) ==> step.stop == Some(Reentry(env, ctx.state)) && EndsAtReentry(env, ctx, i, step.events)
  {
    var message := ctx.messages[i];
    var step := SendBubble(env, ctx, i, base, sent);
    if ReentryStop(step.stop) {
      var wire := env.convertMessageToWhatsappComponent(message).value;
      var result := env.sendSocketWhatsappMessage(base, ctx.clientId, ctx.phone, wire);
      var keyed := ActionsKeyedTo(ctx.actions, Some(message.id));
      var after := RunActions(env, ctx.state, keyed, 0);
      RunActionsShape(env, ctx.state, keyed, 0);
      ActionEventsAreTurnEvents(after.events, ctx.state, true, ctx.clientId, ctx.phone);
      var t := [Send(ctx.clientId, ctx.phone, wire, result)] + after.events;
      assert step.events == t;
      assert t[1..] == after.events;
      assert t[|t| - 1] == after.events[|after.events| - 1];
      assert ReenteredAfter(env, ctx, i, t, 0);
    }
  }

  /**
   * The bubble loop stops at a re-entry of the engine only at the end: its last event is that
   * engine call, the last send before it delivered the bubble whose keyed actions made it, and
   * the loop stops with what the engine answered.
   */
  lemma {:induction false} BubblesEndAtReentry(env: Env, ctx: Ctx, i: nat, base: nat, sent: seq<WireMessage>)
    requires i <= |ctx.messages|
    decreases |ctx.messages| - i
    ensures var all := SendBubbles(env, ctx, i, base, sent);
            ReentryStop(all.stop) ==> all.stop == Some(Reentry(env, ctx.state)) && EndsAtReentry(env, ctx, i, all.events)
  {
    if i < |ctx.messages| {
      var step := SendBubble(env, ctx, i, base, sent);
      if step.stop.Some? {
        BubbleEndsAtReentry(env, ctx, i, base, sent);
        SendBubblesStops(env, ctx, i, base, sent);
      } else {
        var stepEvents, stepSent := step.events, step.sent;
        BubblesEndAtReentry(env, ctx, i + 1, base + |stepEvents|, stepSent);
        ReentryEndsPastStep(env, ctx, i, base, sent, stepEvents, stepSent);
      }
    }
  }

  /** Proof step: a bubble that does not stop the loop leaves the rest of the loop to decide. */
  lemma ReentryEndsPastStep(env: Env, ctx: Ctx, i: nat, base: nat, sent: seq<WireMessage>,
                            stepEvents: seq<Event>, stepSent: seq<WireMessage>)
    requires i < |ctx.messages| && SendBubble(env, ctx, i, base, sent) == BubblesEnd(stepEvents, stepSent, None)
    requires var rest := SendBubbles(env, ctx, i + 1, base + |stepEvents|, stepSent);
             ReentryStop(rest.stop) ==> rest.stop == Some(Reentry(env, ctx.state)) && EndsAtReentry(env, ctx, i + 1, rest.events)
    ensures var all := SendBubbles(env, ctx, i, base, sent);
            ReentryStop(all.stop) ==> all.stop == Some(Reentry(env, ctx.state)) && EndsAtReentry(env, ctx, i, all.events)
  {
    SendBubblesContinues(env, ctx, i, base, sent);
    var rest := SendBubbles(env, ctx, i + 1, base + |stepEvents|, stepSent);
    if ReentryStop(rest.stop) {
      ReentryEndsConcat(env, ctx, i, i + 1, stepEvents, rest.events);
    }
  }

  /** A trace that ends at a re-entry after a bubble of `ctx.messages[i'..]` still does so behind any prefix. */
  lemma ReentryEndsConcat(env: Env, ctx: Ctx, i: nat, i': nat, a: seq<Event>, b: seq<Event>)
    requires i <= i' && EndsAtReentry(env, ctx, i', b)
    ensures EndsAtReentry(env, ctx, i, a + b)
  {
    var j: nat, k :| j < |b| && i' <= k < |ctx.messages| && ReenteredAfter(env, ctx, k, b, j);
    var t := a + b;
    assert t[|a| + j] == b[j];
    assert t[|a| + j + 1..] == b[j + 1..];
    assert t[|t| - 1] == b[|b| - 1];
    assert ReenteredAfter(env, ctx, k, t, |a| + j);
  }

  /** The `sentMessages` log composes over a step and the rest of the loop. */
  lemma SentLogComposes(sent: seq<WireMessage>, head: BubblesEnd, rest: BubblesEnd, all: BubblesEnd)
    requires head.sent == sent + Delivered(head.events)
    requires rest.sent == head.sent + Delivered(rest.events)
    requires all.events == head.events + rest.events && all.sent == rest.sent
    ensures all.sent == sent + Delivered(all.events)
  {
    DeliveredConcat(head.events, rest.events);
    assert (sent + Delivered(head.events)) + Delivered(rest.events)
        == sent + (Delivered(head.events) + Delivered(rest.events));
  }

  /** A loop's attempts stay a prefix of what it was given when a step's are followed by a prefix of the rest. */
  lemma AttemptsPrefixCompose(head: BubblesEnd, rest: BubblesEnd, all: BubblesEnd, later: seq<WireMessage>, from: seq<WireMessage>)
    requires Attempts(head.events) + later == from
    requires Attempts(rest.events) <= later
    requires all.events == head.events + rest.events
    ensures Attempts(all.events) <= from
  {
    AttemptsConcat(head.events, rest.events);
    var mine := Attempts(head.events);
    assert mine + Attempts(rest.events) <= mine + later;
  }

  /** A loop's attempts are all it was given when a step's are followed by all the rest. */
  lemma AttemptsCompose(head: BubblesEnd, rest: BubblesEnd, all: BubblesEnd, later: seq<WireMessage>, from: seq<WireMessage>)
    requires Attempts(head.events) + later == from
    requires Attempts(rest.events) == later
    requires all.events == head.events + rest.events
    ensures Attempts(all.events) == from
  {
    AttemptsConcat(head.events, rest.events);
  }

  /** Every event of the bubble loop is a turn event, and every send goes to the session's recipient. */
  lemma {:induction false} BubblesAreTurnEvents(env: Env, ctx: Ctx, i: nat, base: nat, sent: seq<WireMessage>)
    requires i <= |ctx.messages|
    decreases |ctx.messages| - i
    ensures AllTurnEvents(SendBubbles(env, ctx, i, base, sent).events)
    ensures Addressed(SendBubbles(env, ctx, i, base, sent).events, ctx.clientId, ctx.phone)
  {
    if i < |ctx.messages| {
      var step := SendBubble(env, ctx, i, base, sent);
      var all := SendBubbles(env, ctx, i, base, sent);
      BubbleIsTurnEvents(env, ctx, i, base, sent);
      if step.stop.Some? {
        SendBubblesStops(env, ctx, i, base, sent);
      } else {
        SendBubblesContinues(env, ctx, i, base, sent);
        var rest := SendBubbles(env, ctx, i + 1, base + |step.events|, step.sent);
        BubblesAreTurnEvents(env, ctx, i + 1, base + |step.events|, step.sent);
        ConcatKeepsTurnEvents(step.events, rest.events, ctx.clientId, ctx.phone);
      }
    }
  }

  /** A bubble joins `sentMessages` exactly when the socket accepted it. */
  lemma {:induction false} BubblesSentLog(env: Env, ctx: Ctx, i: nat, base: nat, sent: seq<WireMessage>)
    requires i <= |ctx.messages|
    decreases |ctx.messages| - i
    ensures SendBubbles(env, ctx, i, base, sent).sent == sent + Delivered(SendBubbles(env, ctx, i, base, sent).events)
  {
    if i < |ctx.messages| {
      var step := SendBubble(env, ctx, i, base, sent);
      if step.stop.Some? {
        BubbleDelivers(env, ctx, i, base, sent);
        SendBubblesStops(env, ctx, i, base, sent);
      } else {
        var stepEvents, stepSent := step.events, step.sent;
        BubblesSentLog(env, ctx, i + 1, base + |stepEvents|, stepSent);
        SentLogPastStep(env, ctx, i, base, sent, stepEvents, stepSent);
      }
    }
  }

  /** Proof step: a bubble that does not stop the loop, followed by a loop whose log is its deliveries. */
  lemma SentLogPastStep(env: Env, ctx: Ctx, i: nat, base: nat, sent: seq<WireMessage>,
                        stepEvents: seq<Event>, stepSent: seq<WireMessage>)
    requires i < |ctx.messages| && SendBubble(env, ctx, i, base, sent) == BubblesEnd(stepEvents, stepSent, None)
    requires var rest := SendBubbles(env, ctx, i + 1, base + |stepEvents|, stepSent);
             rest.sent == stepSent + Delivered(rest.events)
    ensures SendBubbles(env, ctx, i, base, sent).sent == sent + Delivered(SendBubbles(env, ctx, i, base, sent).events)
  {
    BubbleDelivers(env, ctx, i, base, sent);
    SendBubblesContinues(env, ctx, i, base, sent);
    SentLogComposes(sent, BubblesEnd(stepEvents, stepSent, None), SendBubbles(env, ctx, i + 1, base + |stepEvents|, stepSent),
                    SendBubbles(env, ctx, i, base, sent));
  }

  /** Bubbles are attempted in list order, and those without a WhatsApp form are skipped. */
  lemma {:induction false} BubblesInOrder(env: Env, ctx: Ctx, i: nat, base: nat, sent: seq<WireMessage>)
    requires i <= |ctx.messages|
    decreases |ctx.messages| - i
    ensures Attempts(SendBubbles(env, ctx, i, base, sent).events) <= ConvertedFrom(env, ctx.messages, i)
  {
    if i < |ctx.messages| {
      var step := SendBubble(env, ctx, i, base, sent);
      if step.stop.Some? {
        InOrderAtStop(env, ctx, i, base, sent);
      } else {
        var stepEvents, stepSent := step.events, step.sent;
        BubblesInOrder(env, ctx, i + 1, base + |stepEvents|, stepSent);
        InOrderPastStep(env, ctx, i, base, sent, stepEvents, stepSent);
      }
    }
  }

  /** Proof step: a bubble that stops the loop attempted a prefix of what was left. */
  lemma InOrderAtStop(env: Env, ctx: Ctx, i: nat, base: nat, sent: seq<WireMessage>)
    requires i < |ctx.messages| && SendBubble(env, ctx, i, base, sent).stop.Some?
    ensures Attempts(SendBubbles(env, ctx, i, base, sent).events) <= ConvertedFrom(env, ctx.messages, i)
  {
    BubbleAttempts(env, ctx, i, base, sent);
    SendBubblesStops(env, ctx, i, base, sent);
  }

  /** Proof step: a bubble that does not stop the loop, followed by a loop that attempts in order. */
  lemma InOrderPastStep(env: Env, ctx: Ctx, i: nat, base: nat, sent: seq<WireMessage>,
                        stepEvents: seq<Event>, stepSent: seq<WireMessage>)
    requires i < |ctx.messages| && SendBubble(env, ctx, i, base, sent) == BubblesEnd(stepEvents, stepSent, None)
    requires Attempts(SendBubbles(env, ctx, i + 1, base + |stepEvents|, stepSent).events) <= ConvertedFrom(env, ctx.messages, i + 1)
    ensures Attempts(SendBubbles(env, ctx, i, base, sent).events) <= ConvertedFrom(env, ctx.messages, i)
  {
    BubbleAttempts(env, ctx, i, base, sent);
    SendBubblesContinues(env, ctx, i, base, sent);
    AttemptsPrefixCompose(BubblesEnd(stepEvents, stepSent, None), SendBubbles(env, ctx, i + 1, base + |stepEvents|, stepSent),
                          SendBubbles(env, ctx, i, base, sent),
                          ConvertedFrom(env, ctx.messages, i + 1), ConvertedFrom(env, ctx.messages, i));
  }


  /** Unless the loop stopped early, every bubble with a WhatsApp form was attempted. */
  lemma {:induction false} BubblesAllAttempted(env: Env, ctx: Ctx, i: nat, base: nat, sent: seq<WireMessage>)
    requires i <= |ctx.messages|
    decreases |ctx.messages| - i
    ensures SendBubbles(env, ctx, i, base, sent).stop.None? ==>
              Attempts(SendBubbles(env, ctx, i, base, sent).events) == ConvertedFrom(env, ctx.messages, i)
  {
    if i < |ctx.messages| {
      var step := SendBubble(env, ctx, i, base, sent);
      if step.stop.Some? {
        SendBubblesStops(env, ctx, i, base, sent);
      } else {
        BubbleAttempts(env, ctx, i, base, sent);
        SendBubblesContinues(env, ctx, i, base, sent);
        var rest := SendBubbles(env, ctx, i + 1, base + |step.events|, step.sent);
        BubblesAllAttempted(env, ctx, i + 1, base + |step.events|, step.sent);
        if rest.stop.None? {
          AttemptsCompose(step, rest, SendBubbles(env, ctx, i, base, sent),
                          ConvertedFrom(env, ctx.messages, i + 1), ConvertedFrom(env, ctx.messages, i));
        }
      }
    }
  }

  /** The bubble loop stops early only for a restart or a rethrown TRPC error. */
  lemma {:induction false} BubblesStopDeliberately(env: Env, ctx: Ctx, i: nat, base: nat, sent: seq<WireMessage>)
    requires i <= |ctx.messages|
    decreases |ctx.messages| - i
    ensures SendBubbles(env, ctx, i, base, sent).stop.Some? ==> Deliberate(SendBubbles(env, ctx, i, base, sent).stop.value)
  {
    if i < |ctx.messages| {
      var step := SendBubble(env, ctx, i, base, sent);
      BubbleStopsDeliberately(env, ctx, i, base, sent);
      if step.stop.Some? {
        SendBubblesStops(env, ctx, i, base, sent);
      } else {
        SendBubblesContinues(env, ctx, i, base, sent);
        BubblesStopDeliberately(env, ctx, i + 1, base + |step.events|, step.sent);
      }
    }
  }

  /** A bubble loop in which no send is rejected with a TRPC error. */
  predicate TrpcRejected(env: Env, n: nat, ctx: Ctx, wire: WireMessage) {
    var result := env.sendSocketWhatsappMessage(n, ctx.clientId, ctx.phone, wire);
    result.Rejected? && result.error.TrpcError?
  }

  predicate NoActionAfterAsksForReply(ctx: Ctx, i: nat)
    requires i <= |ctx.messages|
  {
    forall k :: i <= k < |ctx.messages| ==> NoneExpectsReply(ActionsKeyedTo(ctx.actions, Some(ctx.messages[k].id)), 0)
  }

  /**
   * A failed send does not end the bubble loop: without TRPC rejections and without actions
   * that ask for a reply, the loop runs to the end (and so attempts every convertible bubble).
   */
  lemma {:induction false} BubblesContinuePastFailures(env: Env, ctx: Ctx, i: nat, base: nat, sent: seq<WireMessage>)
    requires i <= |ctx.messages|
    requires forall n: nat, wire :: !TrpcRejected(env, n, ctx, wire)
    requires NoActionAfterAsksForReply(ctx, i)
    decreases |ctx.messages| - i
    ensures SendBubbles(env, ctx, i, base, sent).stop.None?
  {
    if i < |ctx.messages| {
      var message := ctx.messages[i];
      var step := SendBubble(env, ctx, i, base, sent);
      RunActionsShape(env, ctx.state, ActionsKeyedTo(ctx.actions, Some(message.id)), 0);
      if env.convertMessageToWhatsappComponent(message).Some? {
        assert !TrpcRejected(env, base, ctx, env.convertMessageToWhatsappComponent(message).value);
      }
      assert step.stop.None?;
      SendBubblesContinues(env, ctx, i, base, sent);
      BubblesContinuePastFailures(env, ctx, i + 1, base + |step.events|, step.sent);
    }
  }

  // ---------------------------------------------------------------------------------------
  // The input prompt
  // ---------------------------------------------------------------------------------------

  /**
   * Pacing of a prompt trace: every send is preceded by a delay exactly when its pacing rule
   * gives a non-zero number, and that delay is the rule's value.
   */
  predicate Paced(env: Env, sent: seq<WireMessage>, typingEmulation: Option<TypingEmulation>, t: seq<Event>)
    decreases |t|
  {
    if t == [] then true
    else if t[0].Delay? then
      && |t| >= 2 && t[1].Send? && t[0].ms != 0
      && PromptDelay(env, sent, t[1].message, typingEmulation) == Some(t[0].ms)
      && Paced(env, sent, typingEmulation, t[2..])
    else
      && t[0].Send? && !Waits(PromptDelay(env, sent, t[0].message, typingEmulation))
      && Paced(env, sent, typingEmulation, t[1..])
  }

  lemma {:induction false} PacedConcat(env: Env, sent: seq<WireMessage>, te: Option<TypingEmulation>, a: seq<Event>, b: seq<Event>)
    requires Paced(env, sent, te, a) && Paced(env, sent, te, b)
    decreases |a|
    ensures Paced(env, sent, te, a + b)
  {
    if a == [] {
      assert a + b == b;
    } else if a[0].Delay? {
      assert (a + b)[2..] == a[2..] + b;
      PacedConcat(env, sent, te, a[2..], b);
    } else {
      assert (a + b)[1..] == a[1..] + b;
      PacedConcat(env, sent, te, a[1..], b);
    }
  }

  /** One prompt fragment: its optional delay, then its send. */
  lemma PromptFragmentPaced(env: Env, ctx: Ctx, sent: seq<WireMessage>, wire: WireMessage, result: SendResult)
    ensures var events := PacingEvents(PromptDelay(env, sent, wire, ctx.state.typingEmulation))
                          + [Send(ctx.clientId, ctx.phone, wire, result)];
            && Paced(env, sent, ctx.state.typingEmulation, events)
            && AllTurnEvents(events) && Addressed(events, ctx.clientId, ctx.phone)
            && Attempts(events) == [wire]
  {
    var delay := PromptDelay(env, sent, wire, ctx.state.typingEmulation);
    var send := [Send(ctx.clientId, ctx.phone, wire, result)];
    var events := PacingEvents(delay) + send;
    assert send[1..] == [];
    if Waits(delay) {
      assert events[2..] == [];
      assert events[1..] == send;
      assert Attempts(send) == [wire];
    } else {
      assert events == send;
    }
  }

  /** Every prompt fragment with a wire form is attempted, in order, whatever the socket answers. */
  lemma {:induction false} PromptSendsAll(env: Env, ctx: Ctx, fragments: seq<Option<WireMessage>>, i: nat, base: nat,
                                          sent: seq<WireMessage>)
    requires i <= |fragments|
    decreases |fragments| - i
    ensures Attempts(SendPrompt(env, ctx, fragments, i, base, sent)) == DefinedFrom(fragments, i)
    ensures AllTurnEvents(SendPrompt(env, ctx, fragments, i, base, sent))
    ensures Addressed(SendPrompt(env, ctx, fragments, i, base, sent), ctx.clientId, ctx.phone)
  {
    if i < |fragments| {
      match fragments[i]
      case None => PromptSendsAll(env, ctx, fragments, i + 1, base, sent);
      case Some(wire) =>
        var pause := PacingEvents(PromptDelay(env, sent, wire, ctx.state.typingEmulation));
        var result := env.sendSocketWhatsappMessage(base + |pause|, ctx.clientId, ctx.phone, wire);
        var events := pause + [Send(ctx.clientId, ctx.phone, wire, result)];
        var rest := SendPrompt(env, ctx, fragments, i + 1, base + |events|, sent);
        PromptFragmentPaced(env, ctx, sent, wire, result);
        PromptSendsAll(env, ctx, fragments, i + 1, base + |events|, sent);
        AttemptsConcat(events, rest);
        ConcatKeepsTurnEvents(events, rest, ctx.clientId, ctx.phone);
    }
  }

  /** The prompt is paced fragment by fragment, all against the same last delivered bubble. */
  lemma {:induction false} PromptPaced(env: Env, ctx: Ctx, fragments: seq<Option<WireMessage>>, i: nat, base: nat,
                                       sent: seq<WireMessage>)
    requires i <= |fragments|
    decreases |fragments| - i
    ensures Paced(env, sent, ctx.state.typingEmulation, SendPrompt(env, ctx, fragments, i, base, sent))
  {
    if i < |fragments| {
      match fragments[i]
      case None => PromptPaced(env, ctx, fragments, i + 1, base, sent);
      case Some(wire) =>
        var pause := PacingEvents(PromptDelay(env, sent, wire, ctx.state.typingEmulation));
        var result := env.sendSocketWhatsappMessage(base + |pause|, ctx.clientId, ctx.phone, wire);
        var events := pause + [Send(ctx.clientId, ctx.phone, wire, result)];
        PromptFragmentPaced(env, ctx, sent, wire, result);
        PromptPaced(env, ctx, fragments, i + 1, base + |events|, sent);
        PacedConcat(env, sent, ctx.state.typingEmulation, events, SendPrompt(env, ctx, fragments, i + 1, base + |events|, sent));
    }
  }
}
