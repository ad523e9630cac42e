/** Routed calls: what the provider charged is recorded with the host, or carried by a usage-recording error,
    or both, or neither, and every dispatched call emits one telemetry event. */
module OstiariUsage {

  type Cost = c: real | c >= 0.0

  datatype Outcome =
    | ProviderFailed
    | Succeeded(cost: Cost)
    | AccountingFailed(cost: Cost, landed: bool)   // the error carries the result
    | Dropped(cost: Cost, landed: bool)            // cancelled while emitting: that error is not raised

  datatype Call =
    | Dispatched                     // waiting for the provider
    | Recording(cost: Cost)          // waiting for the host to record usage
    | Emitting(outcome: Outcome)     // waiting for the telemetry sink
    | Finished(outcome: Outcome)

  /** What the host made of a record: it may raise, or be cancelled, after it took effect. */
  datatype Fate = Answered | Raised(landed: bool)

  datatype Emission = Delivered | SinkError | Cancelled

  /** What happens next to one of the calls in flight. */
  datatype Event =
    | Route
    | ProviderRaised(id: nat) | ProviderReturned(id: nat, cost: Cost)
    | Recorded(id: nat, fate: Fate)
    | EmissionEnded(id: nat, e: Emission)

  // ----- the calls after a course of events -----

  /** An event happens only to a call that is waiting for it. */
  predicate Awaited(calls: seq<Call>, event: Event) {
    match event
    case Route => true
    case ProviderRaised(id) => id < |calls| && calls[id].Dispatched?
    case ProviderReturned(id, _) => id < |calls| && calls[id].Dispatched?
    case Recorded(id, _) => id < |calls| && calls[id].Recording?
    case EmissionEnded(id, _) => id < |calls| && calls[id].Emitting?
  }

  function Accounted(cost: Cost, fate: Fate): Outcome {
    if fate.Answered? then Succeeded(cost) else AccountingFailed(cost, fate.landed)
  }

  /** A sink error is only logged; a cancellation replaces whatever the call was about to do. */
  function Ended(outcome: Outcome, e: Emission): Outcome {
    if outcome.AccountingFailed? && e.Cancelled? then Dropped(outcome.cost, outcome.landed) else outcome
  }

  /** An event that nobody awaits is ignored, so that the calls are defined after any events. */
  function After(calls: seq<Call>, event: Event): seq<Call> {
    if !Awaited(calls, event) then calls
    else match event
    case Route => calls + [Dispatched]
    case ProviderRaised(id) => calls[id := Emitting(ProviderFailed)]
    case ProviderReturned(id, cost) => calls[id := Recording(cost)]
    case Recorded(id, fate) => calls[id := Emitting(Accounted(calls[id].cost, fate))]
    case EmissionEnded(id, e) => calls[id := Finished(Ended(calls[id].outcome, e))]
  }

  function Earlier(events: seq<Event>): seq<Event>
    requires events != []
  {
    events[..|events| - 1]
  }

  function Calls(events: seq<Event>): seq<Call> {
    if events == [] then [] else After(Calls(Earlier(events)), events[|events| - 1])
  }

  /** From an empty routing, any number of calls interleaved in any way. */
  predicate Possible(events: seq<Event>) {
    events == [] || (Possible(Earlier(events)) && Awaited(Calls(Earlier(events)), events[|events| - 1]))
  }

  predicate AllFinished(calls: seq<Call>) {
    forall i | 0 <= i < |calls| :: calls[i].Finished?
  }

  // ----- where a call's cost is -----

  function Charge(c: Call): Cost {
    match c
    case Recording(cost) => cost
    case Emitting(outcome) => if outcome.ProviderFailed? then 0.0 else outcome.cost
    case Finished(outcome) => if outcome.ProviderFailed? then 0.0 else outcome.cost
    case Dispatched => 0.0
  }

  predicate Landed(outcome: Outcome) {
    outcome.Succeeded? || (!outcome.ProviderFailed? && outcome.landed)
  }

  /** In the host's usage ledger. */
  function InLedger(c: Call): Cost {
    if (c.Emitting? || c.Finished?) && Landed(c.outcome) then c.outcome.cost else 0.0
  }

  /** In a usage-recording error that was raised. */
  function InError(c: Call): Cost {
    if c.Finished? && c.outcome.AccountingFailed? then c.outcome.cost else 0.0
  }

  /** Counted once more than charged. */
  function Doubled(c: Call): Cost {
    if c.Finished? && c.outcome.AccountingFailed? && c.outcome.landed then c.outcome.cost else 0.0
  }

  /** Charged and not counted. */
  function Lost(c: Call): Cost {
    if c.Finished? && c.outcome.Dropped? && !c.outcome.landed then c.outcome.cost else 0.0
  }

  function Sum(calls: seq<Call>, f: Call -> Cost): Cost {
    if calls == [] then 0.0 else Sum(calls[..|calls| - 1], f) + f(calls[|calls| - 1])
  }

  lemma {:induction false} SumAfterChange(calls: seq<Call>, i: nat, c: Call, f: Call -> Cost)
    requires i < |calls|
    ensures Sum(calls[i := c], f) == Sum(calls, f) - f(calls[i]) + f(c)
    decreases |calls|
  {
    var rest := calls[..|calls| - 1];
    if i == |calls| - 1 {
      assert calls[i := c][..|calls| - 1] == rest;
    } else {
      assert calls[i := c][..|calls| - 1] == rest[i := c];
      SumAfterChange(rest, i, c, f);
    }
  }

  /** Over finished calls, the ledger and the errors hold the charges, and what is doubled, less what is
      lost. */
  lemma {:induction false} ChargesAddUp(calls: seq<Call>)
    requires AllFinished(calls)
    ensures Sum(calls, InLedger) + Sum(calls, InError) + Sum(calls, Lost) == Sum(calls, Charge) + Sum(calls, Doubled)
    decreases |calls|
  {
    if calls != [] {
      ChargesAddUp(calls[..|calls| - 1]);
    }
  }

  // ----- which calls are not counted exactly once -----

  predicate About(event: Event, i: nat) {
    !event.Route? && event.id == i
  }

  /** The events of one call, in order. */
  function Of(events: seq<Event>, i: nat): seq<Event> {
    if events == [] then []
    else Of(Earlier(events), i) + if About(events[|events| - 1], i) then [events[|events| - 1]] else []
  }

  /** Charged something, whose record took effect and raised, and not cancelled while telling the sink. */
  predicate CountedTwice(own: seq<Event>, i: nat) {
    && |own| == 3
    && own[0].ProviderReturned? && own[0].cost > 0.0
    && own[1] == Recorded(i, Raised(true))
    && own[2] != EmissionEnded(i, Cancelled)
  }

  /** Charged something, whose record raised without taking effect, and cancelled while telling the sink. */
  predicate NotCounted(own: seq<Event>, i: nat) {
    && |own| == 3
    && own[0].ProviderReturned? && own[0].cost > 0.0
    && own[1] == Recorded(i, Raised(false))
    && own[2] == EmissionEnded(i, Cancelled)
  }

  /** These events of a call lead to this state. */
  predicate Explains(own: seq<Event>, i: nat, c: Call) {
    match c
    case Dispatched => own == []
    case Recording(cost) => own == [ProviderReturned(i, cost)]
    case Emitting(ProviderFailed) => own == [ProviderRaised(i)]
    case Emitting(Succeeded(cost)) => own == [ProviderReturned(i, cost), Recorded(i, Answered)]
    case Emitting(AccountingFailed(cost, landed)) =>
      own == [ProviderReturned(i, cost), Recorded(i, Raised(landed))]
    case Emitting(Dropped(_, _)) => false
    case Finished(ProviderFailed) => |own| == 2 && own[0] == ProviderRaised(i)
    case Finished(Succeeded(cost)) => |own| == 3 && own[..2] == [ProviderReturned(i, cost), Recorded(i, Answered)]
    case Finished(AccountingFailed(cost, landed)) =>
      && |own| == 3 && own[..2] == [ProviderReturned(i, cost), Recorded(i, Raised(landed))]
      && own[2] != EmissionEnded(i, Cancelled)
    case Finished(Dropped(cost, landed)) =>
      own == [ProviderReturned(i, cost), Recorded(i, Raised(landed)), EmissionEnded(i, Cancelled)]
  }

  lemma {:induction false} NothingYet(events: seq<Event>, i: nat)
    requires Possible(events) && i >= |Calls(events)|
    ensures Of(events, i) == []
    decreases |events|
  {
    if events != [] {
      NothingYet(Earlier(events), i);
    }
  }

  lemma {:induction false} EventsExplain(events: seq<Event>, i: nat)
    requires Possible(events) && i < |Calls(events)|
    ensures Explains(Of(events, i), i, Calls(events)[i])
    decreases |events|
  {
    var before := Calls(Earlier(events));
    if i < |before| {
      EventsExplain(Earlier(events), i);
    } else {
      NothingYet(Earlier(events), i);
    }
  }

  /** How often the charge of a finished call is counted depends on two things: whether its record took
      effect, and whether an error carries it. */
  lemma CountedOnce(events: seq<Event>, i: nat)
    requires Possible(events) && i < |Calls(events)| && Calls(events)[i].Finished?
    ensures var c, own := Calls(events)[i], Of(events, i);
            && (InLedger(c) + InError(c) == Charge(c) <==> !CountedTwice(own, i) && !NotCounted(own, i))
            && Doubled(c) == (if CountedTwice(own, i) then Charge(c) else 0.0)
            && Lost(c) == (if NotCounted(own, i) then Charge(c) else 0.0)
  {
    EventsExplain(events, i);
  }

  /** What was charged for the first so many calls that have this said of their events. */
  function ChargedFor(events: seq<Event>, n: nat, said: (seq<Event>, nat) -> bool): Cost
    requires n <= |Calls(events)|
  {
    if n == 0 then 0.0
    else
      ChargedFor(events, n - 1, said) + if said(Of(events, n - 1), n - 1) then Charge(Calls(events)[n - 1]) else 0.0
  }

  lemma {:induction false} Differences(events: seq<Event>, n: nat)
    requires Possible(events) && AllFinished(Calls(events)) && n <= |Calls(events)|
    ensures Sum(Calls(events)[..n], Doubled) == ChargedFor(events, n, CountedTwice)
    ensures Sum(Calls(events)[..n], Lost) == ChargedFor(events, n, NotCounted)
  {
    var calls := Calls(events)[..n];
    if n > 0 {
      assert calls[..n - 1] == Calls(events)[..n - 1];
      Differences(events, n - 1);
      CountedOnce(events, n - 1);
    }
  }

  /** Once every call has finished, what is recorded and carried differs from what was charged by exactly the
      charges of the calls counted twice and of those not counted. */
  lemma BooksBalance(events: seq<Event>)
    requires Possible(events) && AllFinished(Calls(events))
    ensures var calls := Calls(events);
            Sum(calls, InLedger) + Sum(calls, InError) + ChargedFor(events, |calls|, NotCounted)
            == Sum(calls, Charge) + ChargedFor(events, |calls|, CountedTwice)
  {
    ChargesAddUp(Calls(events));
    Differences(events, |Calls(events)|);
    assert Calls(events)[..|Calls(events)|] == Calls(events);
  }

  lemma {:induction false} ChargedForSome(events: seq<Event>, n: nat, said: (seq<Event>, nat) -> bool)
    requires n <= |Calls(events)|
    requires forall i | 0 <= i < n :: said(Of(events, i), i) ==> Charge(Calls(events)[i]) > 0.0
    ensures ChargedFor(events, n, said) > 0.0 <==> exists i :: 0 <= i < n && said(Of(events, i), i)
  {
    if n > 0 {
      ChargedForSome(events, n - 1, said);
      var last := n - 1;
      if said(Of(events, last), last) {
        assert Charge(Calls(events)[last]) > 0.0;
        assert exists i :: 0 <= i < n && said(Of(events, i), i);
      }
    }
  }

  /** There is either difference exactly if there is such a call. */
  lemma DifferencesHaveCalls(events: seq<Event>)
    requires Possible(events) && AllFinished(Calls(events))
    ensures var n := |Calls(events)|;
            && (ChargedFor(events, n, CountedTwice) > 0.0 <==> exists i :: 0 <= i < n && CountedTwice(Of(events, i), i))
            && (ChargedFor(events, n, NotCounted) > 0.0 <==> exists i :: 0 <= i < n && NotCounted(Of(events, i), i))
  {
    var n := |Calls(events)|;
    forall i | 0 <= i < n
      ensures CountedTwice(Of(events, i), i) || NotCounted(Of(events, i), i) ==> Charge(Calls(events)[i]) > 0.0
    {
      EventsExplain(events, i);
    }
    ChargedForSome(events, n, CountedTwice);
    ChargedForSome(events, n, NotCounted);
  }

  /** The events of one call by itself. */
  function OneCall(id: nat, cost: Cost, fate: Fate, e: Emission): seq<Event> {
    [Route, ProviderReturned(id, cost), Recorded(id, fate), EmissionEnded(id, e)]
  }

  lemma OneMoreCall(events: seq<Event>, cost: Cost, fate: Fate, e: Emission)
    requires Possible(events)
    ensures var id := |Calls(events)|;
            && Possible(events + OneCall(id, cost, fate, e))
            && Calls(events + OneCall(id, cost, fate, e)) == Calls(events) + [Finished(Ended(Accounted(cost, fate), e))]
  {
    var id, calls := |Calls(events)|, Calls(events);
    var e1 := events + [Route];
    var e2 := e1 + [ProviderReturned(id, cost)];
    var e3 := e2 + [Recorded(id, fate)];
    var e4 := e3 + [EmissionEnded(id, e)];
    assert e4 == events + OneCall(id, cost, fate, e);
    assert Earlier(e1) == events && Earlier(e2) == e1 && Earlier(e3) == e2 && Earlier(e4) == e3;
    assert Possible(e1) && Calls(e1) == calls + [Dispatched];
    assert Possible(e2) && Calls(e2) == calls + [Recording(cost)];
    assert Possible(e3) && Calls(e3) == calls + [Emitting(Accounted(cost, fate))];
  }

  lemma OneCallEnds(cost: Cost, fate: Fate, e: Emission)
    ensures var events := OneCall(0, cost, fate, e); var c := Finished(Ended(Accounted(cost, fate), e));
            && Possible(events) && Calls(events) == [c] && AllFinished(Calls(events))
            && Sum([c], Charge) == Charge(c) && Sum([c], InLedger) == InLedger(c) && Sum([c], InError) == InError(c)
  {
    OneMoreCall([], cost, fate, e);
    assert [] + OneCall(0, cost, fate, e) == OneCall(0, cost, fate, e);
    var calls := [Finished(Ended(Accounted(cost, fate), e))];
    assert calls[..0] == [];
  }

  /** The shortest run that loses a cost. */
  lemma OneCallLoses(cost: Cost)
    requires cost > 0.0
    ensures var events := OneCall(0, cost, Raised(false), Cancelled);
            && Possible(events) && AllFinished(Calls(events))
            && Sum(Calls(events), Charge) == cost
            && Sum(Calls(events), InLedger) + Sum(Calls(events), InError) == 0.0
  {
    OneCallEnds(cost, Raised(false), Cancelled);
  }

  /** The shortest run that counts a cost twice: a record that takes effect and then raises. */
  lemma OneCallDoubles(cost: Cost)
    requires cost > 0.0
    ensures var events := OneCall(0, cost, Raised(true), Delivered);
            && Possible(events) && AllFinished(Calls(events))
            && Sum(Calls(events), Charge) == cost
            && Sum(Calls(events), InLedger) == cost && Sum(Calls(events), InError) == cost
  {
    OneCallEnds(cost, Raised(true), Delivered);
  }

  /** Totals that balance say nothing of single calls: one counted twice hides one that is not counted. */
  lemma BalanceHides(cost: Cost)
    requires cost > 0.0
    ensures var events := OneCall(0, cost, Raised(true), Delivered) + OneCall(1, cost, Raised(false), Cancelled);
            && Possible(events) && AllFinished(Calls(events)) && |Calls(events)| == 2
            && Sum(Calls(events), InLedger) + Sum(Calls(events), InError) == Sum(Calls(events), Charge)
            && InLedger(Calls(events)[0]) + InError(Calls(events)[0]) == 2.0 * cost
            && InLedger(Calls(events)[1]) + InError(Calls(events)[1]) == 0.0
  {
    OneCallEnds(cost, Raised(true), Delivered);
    OneMoreCall(OneCall(0, cost, Raised(true), Delivered), cost, Raised(false), Cancelled);
    var calls := [Finished(AccountingFailed(cost, true)), Finished(Dropped(cost, false))];
    assert calls[..1] == [Finished(AccountingFailed(cost, true))];
  }

  // ----- the calls as the adapter makes them -----

  predicate Emitted(c: Call) {
    c.Emitting? || c.Finished?
  }

  class Routing {
    var calls: seq<Call>
    var recorded: real           // the host's usage ledger
    var telemetry: seq<nat>      // the calls whose event was handed to the sink, in order
    ghost var charged: real      // by the provider
    ghost var carried: real      // by usage-recording errors that were raised

    constructor ()
      ensures Valid() && calls == [] && telemetry == []
    {
      calls, recorded, telemetry := [], 0.0, [];
      charged, carried := 0.0, 0.0;
    }

    /** Every amount is the sum over the calls it stems from, and every call that got so far has emitted
        once. */
    ghost predicate Valid()
      reads this
    {
      && charged == Sum(calls, Charge) && recorded == Sum(calls, InLedger) && carried == Sum(calls, InError)
      && EmittedOnce()
    }

    ghost predicate EmittedOnce()
      reads this
    {
      && (forall i | 0 <= i < |calls| :: multiset(telemetry)[i] == if Emitted(calls[i]) then 1 else 0)
      && (forall i | i in telemetry :: i < |calls|)
    }

    method Dispatch() returns (id: nat)
      requires Valid()
      modifies this`calls
      ensures Valid() && id == |old(calls)| && calls == After(old(calls), Route)
    {
      id := |calls|;
      assert id !in telemetry;
      calls := calls + [Dispatched];
      assert calls[..|calls| - 1] == old(calls);
    }

    /** The sums after one call has moved on. */
    lemma Moved(id: nat, c: Call)
      requires id < |calls|
      ensures Sum(calls[id := c], Charge) == Sum(calls, Charge) - Charge(calls[id]) + Charge(c)
      ensures Sum(calls[id := c], InLedger) == Sum(calls, InLedger) - InLedger(calls[id]) + InLedger(c)
      ensures Sum(calls[id := c], InError) == Sum(calls, InError) - InError(calls[id]) + InError(c)
    {
      SumAfterChange(calls, id, c, Charge);
      SumAfterChange(calls, id, c, InLedger);
      SumAfterChange(calls, id, c, InError);
    }

    method Emit(id: nat, outcome: Outcome)
      requires id < |calls| && !Emitted(calls[id]) && EmittedOnce()
      modifies this`calls, this`telemetry
      ensures calls == old(calls)[id := Emitting(outcome)] && telemetry == old(telemetry) + [id]
      ensures EmittedOnce()
    {
      calls := calls[id := Emitting(outcome)];
      telemetry := telemetry + [id];
    }

    method ProviderRaises(id: nat)
      requires Valid() && Awaited(calls, ProviderRaised(id))
      modifies this`calls, this`telemetry
      ensures Valid() && calls == After(old(calls), ProviderRaised(id))
      ensures telemetry == old(telemetry) + [id]
    {
      Moved(id, Emitting(ProviderFailed));
      Emit(id, ProviderFailed);
    }

    method ProviderReturns(id: nat, cost: Cost)
      requires Valid() && Awaited(calls, ProviderReturned(id, cost))
      modifies this`calls, this`charged
      ensures Valid() && calls == After(old(calls), ProviderReturned(id, cost)) && charged == old(charged) + cost
    {
      Moved(id, Recording(cost));
      calls := calls[id := Recording(cost)];
      charged := charged + cost;
    }

    /** Usage recording returned, or raised anything at all, cancellation included, before or after it took
        effect. */
    method RecordReturns(id: nat, fate: Fate)
      requires Valid() && Awaited(calls, Recorded(id, fate))
      modifies this`calls, this`telemetry, this`recorded
      ensures Valid() && telemetry == old(telemetry) + [id] && calls == After(old(calls), Recorded(id, fate))
      ensures recorded == old(recorded) + (if fate == Raised(false) then 0.0 else old(calls)[id].cost)
    {
      var cost := calls[id].cost;
      Moved(id, Emitting(Accounted(cost, fate)));
      if fate.Answered? || fate.landed {
        recorded := recorded + cost;
      }
      if fate.Answered? {
        Emit(id, Succeeded(cost));
      } else {
        Emit(id, AccountingFailed(cost, fate.landed));
      }
    }

    /** After a failed accounting the error is raised, unless a cancellation takes its place. */
    method EmitReturns(id: nat, e: Emission)
      requires Valid() && Awaited(calls, EmissionEnded(id, e))
      modifies this`calls, this`carried
      ensures Valid() && calls == After(old(calls), EmissionEnded(id, e))
      ensures var outcome := old(calls)[id].outcome;
              carried == old(carried) + (if outcome.AccountingFailed? && !e.Cancelled? then outcome.cost else 0.0)
    {
      var outcome := calls[id].outcome;
      if outcome.AccountingFailed? {
        if e.Cancelled? {
          outcome := Dropped(outcome.cost, outcome.landed);
        } else {
          carried := carried + outcome.cost;
        }
      }
      Moved(id, Finished(outcome));
      calls := calls[id := Finished(outcome)];
    }
  }

  /** Any number of calls, interleaved in any way: when all have finished, each has emitted once, and is
      counted once exactly if it is neither counted twice nor not at all; the totals differ by the charges of
      those that are. */
  method Interleave(events: seq<Event>) returns (r: Routing)
    requires Possible(events)
    ensures r.Valid() && r.calls == Calls(events)
    ensures AllFinished(r.calls) ==>
              && r.recorded + r.carried + ChargedFor(events, |r.calls|, NotCounted)
                 == r.charged + ChargedFor(events, |r.calls|, CountedTwice)
              && (forall i | 0 <= i < |r.calls| ::
                    InLedger(r.calls[i]) + InError(r.calls[i]) == Charge(r.calls[i])
                    <==> !CountedTwice(Of(events, i), i) && !NotCounted(Of(events, i), i))
              && (forall i | 0 <= i < |r.calls| :: multiset(r.telemetry)[i] == 1)
  {
    r := new Routing();
    PossibleSoFar(events, 0);
    for n := 0 to |events|
      invariant r.Valid() && fresh(r)
      invariant Possible(events[..n]) && r.calls == Calls(events[..n])
    {
      PossibleSoFar(events, n + 1);
      assert Earlier(events[..n + 1]) == events[..n];
      match events[n] {
        case Route => var _ := r.Dispatch();
        case ProviderRaised(id) => r.ProviderRaises(id);
        case ProviderReturned(id, cost) => r.ProviderReturns(id, cost);
        case Recorded(id, fate) => r.RecordReturns(id, fate);
        case EmissionEnded(id, e) => r.EmitReturns(id, e);
      }
    }
    assert events[..|events|] == events;
    if AllFinished(r.calls) {
      BooksBalance(events);
      forall i | 0 <= i < |r.calls|
        ensures InLedger(r.calls[i]) + InError(r.calls[i]) == Charge(r.calls[i])
                <==> !CountedTwice(Of(events, i), i) && !NotCounted(Of(events, i), i)
      {
        CountedOnce(events, i);
      }
    }
  }

  lemma {:induction false} PossibleSoFar(events: seq<Event>, n: nat)
    requires Possible(events) && n <= |events|
    ensures Possible(events[..n])
    decreases |events|
  {
    if n == |events| {
      assert events[..n] == events;
    } else {
      PossibleSoFar(Earlier(events), n);
      assert Earlier(events)[..n] == events[..n];
    }
  }
}
