/** Views of an event trace: what was attempted, what was delivered, which calls continued the flow. */
module Traces {
  import opened WhatsappTypes

  /** An engine call made by the auto-continuation loop (not by a turn's re-entry). */
  predicate IsContinuationCall(e: Event) {
    e.EngineCall? && e.multipleIntegration
  }

  /** Events a single turn may cause: no saves and no auto-continuation calls. */
  predicate TurnEvent(e: Event) {
    !e.Save? && !IsContinuationCall(e)
  }

  predicate AllTurnEvents(t: seq<Event>) {
    forall k :: 0 <= k < |t| ==> TurnEvent(t[k])
  }

  predicate NoSends(t: seq<Event>) {
    forall k :: 0 <= k < |t| ==> !t[k].Send?
  }

  predicate AllDelays(t: seq<Event>) {
    forall k :: 0 <= k < |t| ==> t[k].Delay?
  }

  /** Every send goes from `clientId` to `phone`. */
  predicate Addressed(t: seq<Event>, clientId: string, phone: string) {
    forall k :: 0 <= k < |t| && t[k].Send? ==> t[k].clientId == clientId && t[k].phone == phone
  }

  /** The wire messages of every send attempt, in order. */
  function Attempts(t: seq<Event>): seq<WireMessage> {
    if t == [] then [] else (if t[0].Send? then [t[0].message] else []) + Attempts(t[1..])
  }

  /** The wire messages whose send the socket accepted, in order. */
  function Delivered(t: seq<Event>): seq<WireMessage> {
    if t == [] then []
    else (if t[0].Send? && t[0].result.Accepted? then [t[0].message] else []) + Delivered(t[1..])
  }

  /** The auto-continuation engine calls, in order. */
  function ContinuationCalls(t: seq<Event>): seq<Event> {
    if t == [] then [] else (if IsContinuationCall(t[0]) then [t[0]] else []) + ContinuationCalls(t[1..])
  }

  lemma {:induction false} AttemptsConcat(a: seq<Event>, b: seq<Event>)
    ensures Attempts(a + b) == Attempts(a) + Attempts(b)
  {
    if a == [] {
      assert a + b == b;
    } else {
      var head := if a[0].Send? then [a[0].message] else [];
      assert (a + b)[0] == a[0] && (a + b)[1..] == a[1..] + b;
      AttemptsConcat(a[1..], b);
      calc {
        Attempts(a + b);
        head + Attempts(a[1..] + b);
        head + (Attempts(a[1..]) + Attempts(b));
        (head + Attempts(a[1..])) + Attempts(b);
      }
    }
  }

  lemma {:induction false} DeliveredConcat(a: seq<Event>, b: seq<Event>)
    ensures Delivered(a + b) == Delivered(a) + Delivered(b)
  {
    if a == [] {
      assert a + b == b;
    } else {
      var head := if a[0].Send? && a[0].result.Accepted? then [a[0].message] else [];
      assert (a + b)[0] == a[0] && (a + b)[1..] == a[1..] + b;
      DeliveredConcat(a[1..], b);
      calc {
        Delivered(a + b);
        head + Delivered(a[1..] + b);
        head + (Delivered(a[1..]) + Delivered(b));
        (head + Delivered(a[1..])) + Delivered(b);
      }
    }
  }

  lemma {:induction false} ContinuationCallsConcat(a: seq<Event>, b: seq<Event>)
    ensures ContinuationCalls(a + b) == ContinuationCalls(a) + ContinuationCalls(b)
  {
    if a == [] {
      assert a + b == b;
    } else {
      var head := if IsContinuationCall(a[0]) then [a[0]] else [];
      assert (a + b)[0] == a[0] && (a + b)[1..] == a[1..] + b;
      ContinuationCallsConcat(a[1..], b);
      calc {
        ContinuationCalls(a + b);
        head + ContinuationCalls(a[1..] + b);
        head + (ContinuationCalls(a[1..]) + ContinuationCalls(b));
        (head + ContinuationCalls(a[1..])) + ContinuationCalls(b);
      }
    }
  }

  lemma {:induction false} NoSendsViews(t: seq<Event>)
    requires NoSends(t)
    ensures Attempts(t) == [] && Delivered(t) == []
  {
    if t != [] {
      assert NoSends(t[1..]) by {
        forall k | 0 <= k < |t[1..]| ensures !t[1..][k].Send? { assert t[1..][k] == t[k + 1]; }
      }
      NoSendsViews(t[1..]);
    }
  }

  lemma {:induction false} TurnEventsHaveNoContinuationCalls(t: seq<Event>)
    requires AllTurnEvents(t)
    ensures ContinuationCalls(t) == []
  {
    if t != [] {
      assert AllTurnEvents(t[1..]) by {
        forall k | 0 <= k < |t[1..]| ensures TurnEvent(t[1..][k]) { assert t[1..][k] == t[k + 1]; }
      }
      TurnEventsHaveNoContinuationCalls(t[1..]);
    }
  }

  /** A trace made of two addressed traces of turn events is one too. */
  lemma ConcatKeepsTurnEvents(a: seq<Event>, b: seq<Event>, clientId: string, phone: string)
    requires AllTurnEvents(a) && AllTurnEvents(b)
    requires Addressed(a, clientId, phone) && Addressed(b, clientId, phone)
    ensures AllTurnEvents(a + b) && Addressed(a + b, clientId, phone)
  {
    forall k | 0 <= k < |a + b|
      ensures TurnEvent((a + b)[k])
      ensures (a + b)[k].Send? ==> (a + b)[k].clientId == clientId && (a + b)[k].phone == phone
    {
      if k < |a| { assert (a + b)[k] == a[k]; } else { assert (a + b)[k] == b[k - |a|]; }
    }
  }

  lemma TurnEventsConcat(a: seq<Event>, b: seq<Event>)
    requires AllTurnEvents(a) && AllTurnEvents(b)
    ensures AllTurnEvents(a + b)
  {
    forall k | 0 <= k < |a + b| ensures TurnEvent((a + b)[k]) {
      if k < |a| { assert (a + b)[k] == a[k]; } else { assert (a + b)[k] == b[k - |a|]; }
    }
  }

}
