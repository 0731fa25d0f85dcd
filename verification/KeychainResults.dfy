/**
 Which result every operation of the keychain broker gets, over every interleaving: what a native job reported in
 time, and otherwise the reason for which the broker gave the operation up.
 */
module KeychainResults {
  import opened Options
  import G = KeychainGate
  import opened KeychainBroker

  /** The broker after the first `i` events. */
  function After(maximum: int, events: seq<Event>, i: nat): (b: Broker)
    requires i <= |events|
    ensures InRange(b)
  {
    Run(Initial(maximum), events[..i])
  }

  lemma {:induction false} RunLast(b: Broker, events: seq<Event>, e: Event)
    requires InRange(b)
    ensures Run(b, events + [e]) == Step(Run(b, events), e)
    decreases |events|
  {
    hide Step;
    if events == [] {
      assert [e][1..] == [];
    } else {
      assert (events + [e])[1..] == events[1..] + [e];
      RunLast(Step(b, events[0]), events[1..], e);
    }
  }

  lemma {:induction false} RunOn(b: Broker, before: seq<Event>, after: seq<Event>)
    requires InRange(b)
    ensures Run(b, before + after) == Run(Run(b, before), after)
    decreases |before|
  {
    hide Step;
    if before == [] {
      assert before + after == after;
    } else {
      assert (before + after)[1..] == before[1..] + after;
      RunOn(Step(b, before[0]), before[1..], after);
    }
  }

  lemma Reach(maximum: int, events: seq<Event>) returns (issued: nat)
    requires maximum < G.ID_COUNT
    ensures Inv(Run(Initial(maximum), events), issued)
  {
    issued := RunInv(Initial(maximum), events, 0);
  }

  /** Event `i` is the report, with this status, of the native job of `h`, and `h` has not been cancelled. */
  predicate ReportedAt(maximum: int, events: seq<Event>, i: nat, h: Handle, status: Status) {
    && i < |events| && events[i].FinishEvent? && events[i].handle == h && events[i].status == status
    && var b := After(maximum, events, i);
       h in b.running && h < |b.ops| && !b.ops[h].cancelled
  }

  ghost predicate Reported(maximum: int, events: seq<Event>, h: Handle, status: Status) {
    exists i: nat :: ReportedAt(maximum, events, i, h, status)
  }

  ghost predicate HasResult(b: Broker, h: Handle, status: Status) {
    h < |b.ops| && b.ops[h].result == Some(status)
  }

  lemma ReportedEarlier(maximum: int, events: seq<Event>, h: Handle, status: Status)
    requires events != []
    ensures var n := |events| - 1;
      Reported(maximum, events, h, status)
      <==> Reported(maximum, events[..n], h, status) || ReportedAt(maximum, events, n, h, status)
  {
    hide Run, Initial;
    var n := |events| - 1;
    forall i: nat | i < n
      ensures ReportedAt(maximum, events, i, h, status) <==> ReportedAt(maximum, events[..n], i, h, status)
    {
      assert events[..n][..i] == events[..i];
    }
    if i: nat :| ReportedAt(maximum, events, i, h, status) && i < n {
      assert ReportedAt(maximum, events[..n], i, h, status);
    }
    if i: nat :| ReportedAt(maximum, events[..n], i, h, status) {
      assert ReportedAt(maximum, events, i, h, status);
    }
  }

  /** One step: a native result is new exactly if the step is the report that gives it. */
  lemma StepReports(b: Broker, e: Event, h: Handle, status: NativeStatus, issued: nat)
    requires Inv(b, issued) && InRange(b)
    ensures HasResult(Step(b, e), h, status)
      <==> || HasResult(b, h, status)
           || (&& e.FinishEvent? && e.handle == h && e.status == status
               && h in b.running && h < |b.ops| && !b.ops[h].cancelled)
  {
    hide Step, Inv;
    StepResults(b, e, issued);
    OpenHasNoResult(b, issued);
    if h in b.running { ReporterIsNotWaiting(b, h, issued); }
  }

  /**
   Over every run: an operation has a result of the key store itself exactly if its own native job reported just
   that before the operation was cancelled. Every other result was given by the broker.
   */
  lemma {:induction false} NativeResultIff(maximum: int, events: seq<Event>, h: Handle, status: NativeStatus)
    requires maximum < G.ID_COUNT
    ensures HasResult(Run(Initial(maximum), events), h, status) <==> Reported(maximum, events, h, status)
    decreases |events|
  {
    if events == [] {
    } else {
      hide Run, Inv, Step, Reported;
      var n := |events| - 1;
      var b, e := After(maximum, events, n), events[n];
      assert events == events[..n] + [e];
      var issued := Reach(maximum, events[..n]);
      NativeResultIff(maximum, events[..n], h, status);
      RunLast(Initial(maximum), events[..n], e);
      ReportedEarlier(maximum, events, h, status);
      StepReports(b, e, h, status, issued);
    }
  }

  // ------------------------------------------------------------------ results for good

  /** What a step gives, it gives for good. */
  lemma ResultKept(maximum: int, before: seq<Event>, e: Event, after: seq<Event>)
    requires maximum < G.ID_COUNT
    ensures var b := Run(Initial(maximum), before);
      var next, end := Step(b, e), Run(Step(b, e), after);
      && GivesResults(b, e, next) && |next.ops| <= |end.ops|
      && forall h :: 0 <= h < |next.ops| && next.ops[h].result.Some? ==> end.ops[h].result == next.ops[h].result
  {
    hide Run, Step, Inv, GivesResults;
    var issued := Reach(maximum, before);
    var b := Run(Initial(maximum), before);
    StepResults(b, e, issued);
    var issued' := StepInv(b, e, issued);
    RunExtends(Step(b, e), after, issued');
    ResultMeansFinished(Step(b, e), issued');
  }

  lemma ResultMeansFinished(b: Broker, issued: nat)
    requires Inv(b, issued)
    ensures forall h :: 0 <= h < |b.ops| && b.ops[h].result.Some? ==> b.ops[h].finished
    ensures forall h :: 0 <= h < |b.ops| && !b.ops[h].finished ==> b.ops[h].result == None
  {
  }

  /** The gate knows of a shutdown exactly if there was one. */
  lemma {:induction false} ShutdownSeen(b: Broker, events: seq<Event>)
    requires InRange(b)
    ensures Run(b, events).gate.shuttingDown <==> b.gate.shuttingDown || ShutdownEvent in events
    decreases |events|
  {
    hide Step;
    if events != [] {
      StepShuts(b, events[0]);
      ShutdownSeen(Step(b, events[0]), events[1..]);
      assert ShutdownEvent in events <==> events[0] == ShutdownEvent || ShutdownEvent in events[1..];
    }
  }

  lemma StepShuts(b: Broker, e: Event)
    requires InRange(b)
    ensures Step(b, e).gate.shuttingDown <==> b.gate.shuttingDown || e == ShutdownEvent
  {
    hide FailAll, Unfinished, G.NextId, Remove;
    match e
    case ExecuteEvent(_, _) =>
    case ExpireEvent(_) =>
    case StartEvent(_) =>
    case LaunchEvent(_) =>
    case FinishEvent(_, _, _) =>
    case ShutdownEvent =>
  }

  /**
   The first shutdown, in every interleaving: whatever was still open then ends with the broker shutting down, in
   every continuation, whatever is reported later; whatever was finished keeps its result; nothing is added.
   */
  lemma FirstShutdownEnds(maximum: int, before: seq<Event>, after: seq<Event>)
    requires maximum < G.ID_COUNT && ShutdownEvent !in before
    ensures var b, end := Run(Initial(maximum), before), Run(Initial(maximum), before + [ShutdownEvent] + after);
      && |end.ops| == |b.ops|
      && forall h :: 0 <= h < |b.ops| ==>
           end.ops[h].result == if b.ops[h].finished then b.ops[h].result else Some(BrokerShuttingDown)
  {
    hide Run, Step, Inv, Extends;
    ShutdownSeen(Initial(maximum), before);
    var start, b := Initial(maximum), Run(Initial(maximum), before);
    RunLast(start, before, ShutdownEvent);
    RunOn(start, before + [ShutdownEvent], after);
    ResultKept(maximum, before, ShutdownEvent, after);
    var issued := Reach(maximum, before);
    ResultsOfFinished(b, issued);
    ShutdownCloses(b, issued);
    ClosedForGood(maximum, before + [ShutdownEvent], after);
  }

  lemma ShutdownCloses(b: Broker, issued: nat)
    requires Inv(b, issued)
    ensures Step(b, ShutdownEvent).gate.failedClosed && |Step(b, ShutdownEvent).ops| == |b.ops|
  {
    hide G.GateInv, G.IdOf, Records, QueueMirror, ActiveMirror, FailAll, Unfinished, PendingOpen, OneOutstanding;
    if b.gate.shuttingDown { ShutStaysShut(b, issued); }
  }

  lemma ShutStaysShut(b: Broker, issued: nat)
    requires Inv(b, issued) && b.gate.shuttingDown
    ensures b.gate.failedClosed
  {
    ShutMeansClosed(b.gate, issued);
  }

  lemma ResultsOfFinished(b: Broker, issued: nat)
    requires Inv(b, issued)
    ensures forall h :: 0 <= h < |b.ops| && b.ops[h].finished ==> b.ops[h].result.Some?
  {
  }

  /**
   A start call that cannot be posted, in every interleaving. For a caller that finds the broker idle: it gets the
   failed dispatch, in every continuation.
   */
  lemma DispatchFailsIdle(maximum: int, before: seq<Event>, after: seq<Event>)
    requires maximum < G.ID_COUNT
    ensures var b, h := Run(Initial(maximum), before), |Run(Initial(maximum), before).ops|;
      b.active.None? && !b.gate.failedClosed ==>
        var end := Run(Initial(maximum), before + [ExecuteEvent(false, false)] + after);
        h < |end.ops| && end.ops[h].result == Some(DispatchFailed)
  {
    hide Run, Step, Inv, Extends;
    var e := ExecuteEvent(false, false);
    var b := Run(Initial(maximum), before);
    RunLast(Initial(maximum), before, e);
    RunOn(Initial(maximum), before + [e], after);
    ResultKept(maximum, before, e, after);
    var issued := Reach(maximum, before);
    if b.active.None? && !b.gate.failedClosed { IdleAdmits(b, issued); }
  }

  lemma IdleAdmits(b: Broker, issued: nat)
    requires Inv(b, issued) && b.active.None? && !b.gate.failedClosed
    ensures |Step(b, ExecuteEvent(false, false)).ops| == |b.ops| + 1
  {
    hide G.NextId, FailAll, Unfinished, Records, QueueMirror, PendingOpen, OneOutstanding;
  }

  /**
   For the operation a report makes room for: it gets the failed dispatch, the operations behind it a closed broker,
   and the operation that reported keeps what it has, or else gets what its job said.
   */
  lemma DispatchFailsNext(maximum: int, before: seq<Event>, h: Handle, status: NativeStatus, after: seq<Event>)
    requires maximum < G.ID_COUNT
    ensures var b := Run(Initial(maximum), before);
      h in b.running && b.pending != [] ==>
        var end := Run(Initial(maximum), before + [FinishEvent(h, status, false)] + after);
        && h < |b.ops| <= |end.ops| && h !in b.pending
        && end.ops[h].result == (if b.ops[h].finished then b.ops[h].result else Some(status))
        && forall x :: x in b.pending ==>
             x < |b.ops| && end.ops[x].result == Some(if x == b.pending[0] then DispatchFailed else BrokerFailedClosed)
  {
    hide Run, Step, Inv, Extends;
    var e := FinishEvent(h, status, false);
    var b := Run(Initial(maximum), before);
    RunLast(Initial(maximum), before, e);
    RunOn(Initial(maximum), before + [e], after);
    ResultKept(maximum, before, e, after);
    var issued := Reach(maximum, before);
    if h in b.running { QueueIsOpen(b, h, issued); }
    ResultsOfFinished(b, issued);
  }

  lemma QueueIsOpen(b: Broker, h: Handle, issued: nat)
    requires Inv(b, issued) && h in b.running
    ensures h < |b.ops| && h !in b.pending && forall x :: x in b.pending ==> x < |b.ops| && !b.ops[x].finished
  {
    OnlyActiveOutstanding(b, h);
  }

  /** A call made on the worker thread itself: everyone waiting gets a closed broker, in every continuation. */
  lemma WorkerCallEnds(maximum: int, before: seq<Event>, dispatchOk: bool, after: seq<Event>)
    requires maximum < G.ID_COUNT
    ensures var b, end := Run(Initial(maximum), before),
                          Run(Initial(maximum), before + [ExecuteEvent(true, dispatchOk)] + after);
      forall x :: x in b.pending ==> x < |b.ops| <= |end.ops| && end.ops[x].result == Some(BrokerFailedClosed)
  {
    hide Run, Step, Inv, Extends;
    var e := ExecuteEvent(true, dispatchOk);
    var b := Run(Initial(maximum), before);
    RunLast(Initial(maximum), before, e);
    RunOn(Initial(maximum), before + [e], after);
    ResultKept(maximum, before, e, after);
    var issued := Reach(maximum, before);
    WaitingIsOpen(b, issued);
  }

  lemma WaitingIsOpen(b: Broker, issued: nat)
    requires Inv(b, issued)
    ensures forall x :: x in b.pending ==> x < |b.ops| && !b.ops[x].finished
  {
  }

  // ---------------------------------------------------------- admission, turn and closing

  /**
   Over every run: a caller is admitted exactly if the broker is open and idle, or its queue has room. An admitted
   caller becomes active at once if the broker is idle and its start call can be posted, and else waits at the end
   of the queue; a refused one changes nothing.
   */
  lemma AdmittedIff(maximum: int, before: seq<Event>, dispatchOk: bool)
    requires maximum < G.ID_COUNT
    ensures var b := Run(Initial(maximum), before);
      var next, h := Step(b, ExecuteEvent(false, dispatchOk)), |b.ops|;
      && (|next.ops| == h + 1 <==> !b.gate.failedClosed && (b.active.None? || |b.pending| < maximum))
      && (|next.ops| != h + 1 ==> next == b)
      && (|next.ops| == h + 1 && b.active.Some? ==>
            next.active == b.active && next.pending == b.pending + [h] && next.queued == b.queued)
      && (|next.ops| == h + 1 && b.active.None? ==>
            && next.pending == [] && next.active == (if dispatchOk then Some(h) else None)
            && next.queued == (if dispatchOk then [h] else []))
  {
    hide Run, Inv, Step;
    var issued := Reach(maximum, before);
    MaximumKept(Initial(maximum), before);
    AdmitsIff(Run(Initial(maximum), before), dispatchOk, issued);
  }

  lemma AdmitsIff(b: Broker, dispatchOk: bool, issued: nat)
    requires Inv(b, issued)
    ensures var next, h := Step(b, ExecuteEvent(false, dispatchOk)), |b.ops|;
      && (|next.ops| == h + 1 <==> !b.gate.failedClosed && (b.active.None? || |b.pending| < b.gate.maximum))
      && (|next.ops| != h + 1 ==> next == b)
      && (|next.ops| == h + 1 && b.active.Some? ==>
            next.active == b.active && next.pending == b.pending + [h] && next.queued == b.queued)
      && (|next.ops| == h + 1 && b.active.None? ==>
            && next.pending == [] && next.active == (if dispatchOk then Some(h) else None)
            && next.queued == (if dispatchOk then [h] else []))
  {
    hide G.NextId, FailAll, Unfinished, Records, PendingOpen, PromotedInOrder;
    var (gate, admission) := G.Admit(b.gate);
    assert |b.gate.pending| == |b.pending| && (b.gate.active == 0 <==> b.active.None?);
    assert b.gate.shuttingDown ==> b.gate.failedClosed;
    assert admission.status == G.Started ==> b.pending == [] && b.queued == [];
  }

  lemma {:induction false} MaximumKept(b: Broker, events: seq<Event>)
    requires InRange(b)
    ensures Run(b, events).gate.maximum == b.gate.maximum
    decreases |events|
  {
    hide Step;
    if events != [] {
      StepMaximum(b, events[0]);
      MaximumKept(Step(b, events[0]), events[1..]);
    }
  }

  lemma StepMaximum(b: Broker, e: Event)
    requires InRange(b)
    ensures Step(b, e).gate.maximum == b.gate.maximum
  {
    hide FailAll, Unfinished, G.NextId, Remove;
    match e
    case ExecuteEvent(_, _) =>
    case ExpireEvent(_) =>
    case StartEvent(_) =>
    case LaunchEvent(_) =>
    case FinishEvent(_, _, _) =>
    case ShutdownEvent =>
  }

  /** Over every run: a report hands the turn to the head of the queue, and to nobody else. */
  lemma TurnPasses(maximum: int, before: seq<Event>, h: Handle, status: NativeStatus, dispatchOk: bool)
    requires maximum < G.ID_COUNT
    ensures var b := Run(Initial(maximum), before);
      h in b.running ==>
        var next := Step(b, FinishEvent(h, status, dispatchOk));
        && next.running == [] && next.native == b.native
        && (b.pending == [] || !dispatchOk ==> next.active == None && next.queued == [] && next.pending == [])
        && (b.pending != [] && dispatchOk ==>
              && next.active == Some(b.pending[0]) && next.queued == [b.pending[0]] && next.pending == b.pending[1..]
              && next.promoted == b.promoted + [b.pending[0]])
  {
    hide Run, Inv, Step;
    var issued := Reach(maximum, before);
    var b := Run(Initial(maximum), before);
    if h in b.running { PassesTurn(b, h, status, dispatchOk, issued); }
  }

  lemma PassesTurn(b: Broker, h: Handle, status: NativeStatus, dispatchOk: bool, issued: nat)
    requires Inv(b, issued) && h in b.running
    ensures var next := Step(b, FinishEvent(h, status, dispatchOk));
      && next.running == [] && next.native == b.native
      && (b.pending == [] || !dispatchOk ==> next.active == None && next.queued == [] && next.pending == [])
      && (b.pending != [] && dispatchOk ==>
            && next.active == Some(b.pending[0]) && next.queued == [b.pending[0]] && next.pending == b.pending[1..]
            && next.promoted == b.promoted + [b.pending[0]])
  {
    hide Finish, MakeActive;
    FinishIs(b, h, status, dispatchOk, issued);
    OnlyActiveOutstanding(b, h);
    hide Inv, G.Complete;
    assert Remove([h], h, |b.ops|) == [];
    if b.pending != [] {
      Turned(Idle(b, h, status).(pending := b.pending[1..]), b.pending[0], dispatchOk);
    }
  }

  lemma Turned(b: Broker, h: Handle, dispatchOk: bool)
    requires InRange(b) && h < |b.ops|
    ensures var r := MakeActive(b, h, dispatchOk);
      && r.running == b.running && r.native == b.native && r.promoted == b.promoted + [h]
      && r.active == (if dispatchOk then Some(h) else None)
      && r.queued == (if dispatchOk then b.queued + [h] else b.queued)
      && r.pending == (if dispatchOk then b.pending else [])
  {
    hide FailAll, Unfinished, G.Complete;
  }

  /** The events that close the broker, in the state in which they happen. */
  predicate Closes(b: Broker, e: Event) {
    match e
    case ExecuteEvent(onWorker, dispatchOk) => onWorker || (b.active.None? && !dispatchOk)
    case ExpireEvent(h) => h < |b.ops| && !b.ops[h].finished
    case FinishEvent(h, _, dispatchOk) => h in b.running && b.pending != [] && !dispatchOk
    case ShutdownEvent => true
    case _ => false
  }

  lemma StepCloses(b: Broker, e: Event, issued: nat)
    requires Inv(b, issued)
    ensures Step(b, e).gate.failedClosed <==> b.gate.failedClosed || Closes(b, e)
  {
    hide Step;
    match e
    case ExecuteEvent(onWorker, dispatchOk) => ExecuteCloses(b, onWorker, dispatchOk, issued);
    case ExpireEvent(h) => ExpireCloses(b, h, issued);
    case StartEvent(_) => StartKeepsOpen(b, e);
    case LaunchEvent(_) => StartKeepsOpen(b, e);
    case FinishEvent(h, status, dispatchOk) => FinishCloses(b, h, status, dispatchOk, issued);
    case ShutdownEvent => ShutdownCloses(b, issued);
  }

  lemma ExecuteCloses(b: Broker, onWorker: bool, dispatchOk: bool, issued: nat)
    requires Inv(b, issued)
    ensures var e := ExecuteEvent(onWorker, dispatchOk);
      Step(b, e).gate.failedClosed <==> b.gate.failedClosed || Closes(b, e)
  {
    hide G.NextId, FailAll, Unfinished, Records, QueueMirror, PendingOpen, OneOutstanding, PromotedInOrder;
  }

  lemma ExpireCloses(b: Broker, h: Handle, issued: nat)
    requires Inv(b, issued)
    ensures Step(b, ExpireEvent(h)).gate.failedClosed <==> b.gate.failedClosed || Closes(b, ExpireEvent(h))
  {
    hide FailAll, Unfinished, Records, QueueMirror, PendingOpen, OneOutstanding, PromotedInOrder, G.IdOf;
  }

  lemma StartKeepsOpen(b: Broker, e: Event)
    requires InRange(b) && (e.StartEvent? || e.LaunchEvent?)
    ensures Step(b, e).gate.failedClosed == b.gate.failedClosed
  {
  }

  lemma FinishCloses(b: Broker, h: Handle, status: NativeStatus, dispatchOk: bool, issued: nat)
    requires Inv(b, issued)
    ensures var e := FinishEvent(h, status, dispatchOk);
      Step(b, e).gate.failedClosed <==> b.gate.failedClosed || Closes(b, e)
  {
    assert InRange(b);
    hide Inv, Finish, MakeActive, Idle;
    if h in b.running {
      FinishIs(b, h, status, dispatchOk, issued);
      IdleKeepsOpen(b, h, status, issued);
      if b.pending != [] {
        ActivationCloses(Idle(b, h, status).(pending := b.pending[1..]), b.pending[0], dispatchOk);
      }
    } else {
      NoReport(b, h, status, dispatchOk);
    }
  }

  lemma IdleKeepsOpen(b: Broker, h: Handle, status: Status, issued: nat)
    requires Inv(b, issued) && b.active == Some(h)
    ensures Idle(b, h, status).gate.failedClosed == b.gate.failedClosed && |Idle(b, h, status).ops| == |b.ops|
  {
    Completed(b, h, issued);
    hide Inv, G.Complete, Remove;
  }

  lemma ActivationCloses(b: Broker, h: Handle, dispatchOk: bool)
    requires InRange(b) && h < |b.ops|
    ensures MakeActive(b, h, dispatchOk).gate.failedClosed <==> b.gate.failedClosed || !dispatchOk
  {
    hide FailAll, Unfinished;
  }

  /** Event `i` of the run closes the broker. */
  predicate ClosedAt(maximum: int, events: seq<Event>, i: nat) {
    i < |events| && Closes(After(maximum, events, i), events[i])
  }

  ghost predicate EverClosed(maximum: int, events: seq<Event>) {
    exists i: nat :: ClosedAt(maximum, events, i)
  }

  lemma ClosedEarlier(maximum: int, events: seq<Event>)
    requires events != []
    ensures var n := |events| - 1;
      EverClosed(maximum, events) <==> EverClosed(maximum, events[..n]) || ClosedAt(maximum, events, n)
  {
    hide Run, Initial, Closes, After, ClosedAt;
    var n := |events| - 1;
    forall i: nat | i < n
      ensures ClosedAt(maximum, events, i) <==> ClosedAt(maximum, events[..n], i)
    {
      SameAt(maximum, events, i);
    }
    if i: nat :| ClosedAt(maximum, events, i) && i < n {
      assert ClosedAt(maximum, events[..n], i);
    }
    if i: nat :| ClosedAt(maximum, events[..n], i) && i < n {
      assert ClosedAt(maximum, events, i);
    }
    AtMostLength(maximum, events);
    AtMostLength(maximum, events[..n]);
  }

  lemma AtMostLength(maximum: int, events: seq<Event>)
    ensures forall i: nat :: ClosedAt(maximum, events, i) ==> i < |events|
  {
    hide Run, Closes;
  }

  lemma SameAt(maximum: int, events: seq<Event>, i: nat)
    requires i < |events| - 1
    ensures ClosedAt(maximum, events, i) <==> ClosedAt(maximum, events[..|events| - 1], i)
  {
    hide Run, Closes;
    assert events[..|events| - 1][..i] == events[..i];
  }

  /**
   Over every run: the broker is closed exactly if it was called on its own worker thread, a start call could not be
   posted, a deadline passed for an operation still open, or it was shut down.
   */
  lemma {:induction false} ClosedIff(maximum: int, events: seq<Event>)
    requires maximum < G.ID_COUNT
    ensures Run(Initial(maximum), events).gate.failedClosed <==> EverClosed(maximum, events)
    decreases |events|
  {
    if events != [] {
      hide Run, Inv, Step, Closes, EverClosed;
      var n := |events| - 1;
      var b, e := After(maximum, events, n), events[n];
      assert events == events[..n] + [e];
      var issued := Reach(maximum, events[..n]);
      ClosedIff(maximum, events[..n]);
      RunLast(Initial(maximum), events[..n], e);
      StepCloses(b, e, issued);
      ClosedEarlier(maximum, events);
    }
  }
}
