/**
 The admission gate of the keychain broker: one active operation, a bounded queue of waiting ids, and
 a 64-bit id counter that skips zero when it wraps.
 */
module KeychainGate {

  const COUNTER_LIMIT := 0x1_0000_0000_0000_0000
  /** Number of usable ids: every 64-bit value except zero. A capacity is an int, far below it. */
  const ID_COUNT := 0xffff_ffff_ffff_ffff

  datatype AdmissionStatus = Started | Queued | QueueFull | RefusedClosed | RefusedShutdown
  datatype Admission = Admission(status: AdmissionStatus, id: nat)
  datatype Completion = Completion(accepted: bool, next: nat)
  datatype BeginStatus = Accepted | Busy | BeginRefused
  datatype BeginDecision = BeginDecision(status: BeginStatus, id: nat)

  datatype Gate = Gate(
    maximum: nat,
    failedClosed: bool,
    shuttingDown: bool,
    pending: seq<nat>,
    nextId: nat,
    active: nat,
    started: nat)

  function Initial(maximum: int): Gate {
    Gate(if maximum < 0 then 0 else maximum, false, false, [], 0, 0, 0)
  }

  function Increment(counter: nat): nat {
    (counter + 1) % COUNTER_LIMIT
  }

  function NextId(id: nat): nat {
    if Increment(id) == 0 then Increment(0) else Increment(id)
  }

  function Activate(g: Gate, id: nat): Gate {
    g.(active := id, started := Increment(g.started))
  }

  function Admit(g: Gate): (Gate, Admission) {
    if g.shuttingDown then (g, Admission(RefusedShutdown, 0))
    else if g.failedClosed then (g, Admission(RefusedClosed, 0))
    else
      var id := NextId(g.nextId);
      if g.active == 0 then (Activate(g.(nextId := id), id), Admission(Started, id))
      else if |g.pending| >= g.maximum then (g, Admission(QueueFull, 0))
      else (g.(nextId := id, pending := g.pending + [id]), Admission(Queued, id))
  }

  function Complete(g: Gate, id: nat): (Gate, Completion) {
    if id == 0 || id != g.active then (g, Completion(false, 0))
    else if !g.failedClosed && !g.shuttingDown && g.pending != [] then
      (Activate(g.(pending := g.pending[1..]), g.pending[0]), Completion(true, g.pending[0]))
    else (g.(active := 0), Completion(true, 0))
  }

  function Begin(g: Gate): (Gate, BeginDecision) {
    if g.failedClosed || g.shuttingDown then (g, BeginDecision(BeginRefused, 0))
    else if g.active != 0 || g.pending != [] then (g, BeginDecision(Busy, 0))
    else
      var id := NextId(g.nextId);
      (Activate(g.(nextId := id), id), BeginDecision(Accepted, id))
  }

  function Close(g: Gate): Gate {
    g.(failedClosed := true, pending := [])
  }

  function Deadline(g: Gate, id: nat): (Gate, bool) {
    if id == 0 || (id != g.active && id !in g.pending) then (g, false) else (Close(g), true)
  }

  function Shutdown(g: Gate): (Gate, bool) {
    if g.shuttingDown then (g, false) else (Close(g).(shuttingDown := true), true)
  }

  /** The gate object itself. */
  class KeychainBrokerGate {
    const maximumPendingOperations: nat
    var failedClosed: bool
    var shuttingDown: bool
    var pendingOperationIds: seq<nat>
    var nextOperationId: nat
    var activeOperationId: nat
    var startedOperationCount: nat

    ghost function View(): Gate
      reads this
    {
      Gate(maximumPendingOperations, failedClosed, shuttingDown, pendingOperationIds,
           nextOperationId, activeOperationId, startedOperationCount)
    }

    constructor (maximum: int)
      ensures View() == Initial(maximum)
    {
      maximumPendingOperations := if maximum < 0 then 0 else maximum;
      failedClosed, shuttingDown := false, false;
      pendingOperationIds := [];
      nextOperationId, activeOperationId, startedOperationCount := 0, 0, 0;
    }

    method AdmitOperation() returns (decision: Admission)
      modifies this
      ensures (View(), decision) == Admit(old(View()))
      ensures var open := !old(shuttingDown) && !old(failedClosed);
        && (decision.status == Started <==> open && old(activeOperationId) == 0)
        && (decision.status == Queued <==>
              open && old(activeOperationId) != 0 && old(|pendingOperationIds|) < maximumPendingOperations)
        && activeOperationId == (if decision.status == Started then decision.id else old(activeOperationId))
        && pendingOperationIds == old(pendingOperationIds) + (if decision.status == Queued then [decision.id] else [])
    {
      if shuttingDown {
        return Admission(RefusedShutdown, 0);
      }
      if failedClosed {
        return Admission(RefusedClosed, 0);
      }
      if activeOperationId == 0 {
        var id := IssueOperationId();
        activeOperationId := id;
        startedOperationCount := Increment(startedOperationCount);
        return Admission(Started, id);
      }
      if |pendingOperationIds| >= maximumPendingOperations {
        return Admission(QueueFull, 0);
      }
      var id := IssueOperationId();
      pendingOperationIds := pendingOperationIds + [id];
      return Admission(Queued, id);
    }

    method CompleteAndStartNext(id: nat) returns (decision: Completion)
      modifies this
      ensures (View(), decision) == Complete(old(View()), id)
      ensures decision.accepted <==> id != 0 && id == old(activeOperationId)
      ensures decision.accepted ==>
                var goes := !old(failedClosed) && !old(shuttingDown) && old(pendingOperationIds) != [];
                && activeOperationId == decision.next == (if goes then old(pendingOperationIds)[0] else 0)
                && pendingOperationIds == if goes then old(pendingOperationIds)[1..] else old(pendingOperationIds)
      ensures !decision.accepted ==> View() == old(View())
    {
      if id == 0 || id != activeOperationId {
        return Completion(false, 0);
      }
      activeOperationId := 0;
      if !failedClosed && !shuttingDown && pendingOperationIds != [] {
        activeOperationId := pendingOperationIds[0];
        pendingOperationIds := pendingOperationIds[1..];
        startedOperationCount := Increment(startedOperationCount);
      }
      return Completion(true, activeOperationId);
    }

    method BeginOperation() returns (decision: BeginDecision)
      modifies this
      ensures (View(), decision) == Begin(old(View()))
      ensures decision.status == Accepted <==>
                !old(failedClosed) && !old(shuttingDown) && old(activeOperationId) == 0 && old(pendingOperationIds) == []
      ensures if decision.status == Accepted then activeOperationId == decision.id != 0 else View() == old(View())
    {
      if failedClosed || shuttingDown {
        return BeginDecision(BeginRefused, 0);
      }
      if activeOperationId != 0 || pendingOperationIds != [] {
        return BeginDecision(Busy, 0);
      }
      activeOperationId := IssueOperationId();
      startedOperationCount := Increment(startedOperationCount);
      return BeginDecision(Accepted, activeOperationId);
    }

    method DeadlineExceeded(id: nat) returns (known: bool)
      modifies this
      ensures (View(), known) == Deadline(old(View()), id)
      ensures known <==> id != 0 && (id == old(activeOperationId) || id in old(pendingOperationIds))
      ensures if known then failedClosed && pendingOperationIds == [] else View() == old(View())
    {
      if id == 0 || (id != activeOperationId && id !in pendingOperationIds) {
        return false;
      }
      FailClosed();
      return true;
    }

    method FailClosed()
      modifies this
      ensures View() == Close(old(View()))
    {
      failedClosed := true;
      pendingOperationIds := [];
    }

    method BeginShutdown() returns (first: bool)
      modifies this
      ensures (View(), first) == Shutdown(old(View()))
      ensures shuttingDown && (first <==> !old(shuttingDown))
      ensures if first then failedClosed && pendingOperationIds == [] else View() == old(View())
    {
      if shuttingDown {
        return false;
      }
      shuttingDown := true;
      FailClosed();
      return true;
    }

    method IssueOperationId() returns (id: nat)
      modifies this`nextOperationId
      ensures id == nextOperationId == NextId(old(nextOperationId))
    {
      nextOperationId := Increment(nextOperationId);
      if nextOperationId == 0 {
        nextOperationId := Increment(nextOperationId);
      }
      return nextOperationId;
    }
  }

  // -------------------------------------------------------------------- id runs

  /** The id handed out by the n-th issue: the counter walks through all non-zero values in turn. */
  function IdOf(n: nat): nat {
    if n == 0 then 0 else 1 + (n - 1) % ID_COUNT
  }

  lemma NextIdFollows(n: nat)
    ensures NextId(IdOf(n)) == IdOf(n + 1)
  {
  }

  lemma IdsDistinct(i: nat, j: nat)
    requires 0 < i < j < i + ID_COUNT
    ensures IdOf(i) != IdOf(j)
  {
  }

  /**
   After `issued` ids: the queue respects its bound and is empty when nothing is active or the gate
   has failed closed; while the gate is open, the active and waiting ids are the last ones issued.
   */
  ghost predicate GateInv(g: Gate, issued: nat) {
    && g.maximum < ID_COUNT
    && g.nextId == IdOf(issued)
    && |g.pending| <= g.maximum
    && (g.active == 0 ==> g.pending == [])
    && (g.failedClosed ==> g.pending == [])
    && (g.shuttingDown ==> g.failedClosed)
    && (!g.failedClosed && g.active != 0 ==>
          && |g.pending| < issued
          && g.active == IdOf(issued - |g.pending|)
          && forall i :: 0 <= i < |g.pending| ==> g.pending[i] == IdOf(issued - |g.pending| + 1 + i))
  }

  datatype GateEvent =
    AdmitEvent | BeginEvent | CompleteEvent(id: nat) | DeadlineEvent(id: nat) | CloseEvent | ShutdownEvent

  function GateStep(g: Gate, e: GateEvent): Gate {
    match e
    case AdmitEvent => Admit(g).0
    case BeginEvent => Begin(g).0
    case CompleteEvent(id) => Complete(g, id).0
    case DeadlineEvent(id) => Deadline(g, id).0
    case CloseEvent => Close(g)
    case ShutdownEvent => Shutdown(g).0
  }

  function GateRun(g: Gate, events: seq<GateEvent>): Gate {
    if events == [] then g else GateStep(GateRun(g, events[..|events| - 1]), events[|events| - 1])
  }

  /** An id is issued exactly when the counter moves. */
  function IssuedBy(g: Gate, g': Gate): nat {
    if g.nextId == g'.nextId then 0 else 1
  }

  lemma GateStepInv(g: Gate, e: GateEvent, issued: nat)
    requires GateInv(g, issued)
    ensures GateInv(GateStep(g, e), issued + IssuedBy(g, GateStep(g, e)))
  {
    hide IdOf, NextId;
    NextIdFollows(issued);
    CounterMoves(issued);
    match e
    case CompleteEvent(id) =>
      if !g.failedClosed && g.active != 0 && g.pending != [] {
        var base := issued - |g.pending|;
        CounterMoves(base);
        assert forall i :: 0 <= i < |g.pending[1..]| ==> g.pending[1..][i] == g.pending[i + 1] == IdOf(base + 1 + (i + 1));
        assert g.pending[0] == IdOf(base + 1 + 0);
      }
    case _ =>
  }

  lemma CounterMoves(n: nat)
    ensures IdOf(n) != IdOf(n + 1) && IdOf(n + 1) != 0
  {
  }

  /** Whatever happens to the gate, in any order, some issue count explains its state. */
  lemma {:induction false} GateRunInv(maximum: int, events: seq<GateEvent>) returns (issued: nat)
    requires maximum < ID_COUNT
    ensures issued <= |events|
    ensures GateInv(GateRun(Initial(maximum), events), issued)
  {
    if events == [] {
      issued := 0;
    } else {
      var prefix := events[..|events| - 1];
      issued := GateRunInv(maximum, prefix);
      var g := GateRun(Initial(maximum), prefix);
      GateStepInv(g, events[|events| - 1], issued);
      issued := issued + IssuedBy(g, GateStep(g, events[|events| - 1]));
    }
  }

  /** A gate that has failed closed only lets the active operation end: it issues, queues and starts nothing more. */
  lemma {:induction false} ClosedIsInert(g: Gate, events: seq<GateEvent>)
    ensures var r := GateRun(Close(g), events);
      && r.failedClosed && r.pending == [] && r.nextId == g.nextId && r.started == g.started
      && (r.active == g.active || r.active == 0)
  {
    hide NextId, Increment;
    if events != [] { ClosedIsInert(g, events[..|events| - 1]); }
  }

  function LiveIds(g: Gate): seq<nat> {
    if g.active == 0 then g.pending else [g.active] + g.pending
  }

  predicate DistinctNonZero(ids: seq<nat>) {
    && (forall i :: 0 <= i < |ids| ==> ids[i] != 0)
    && (forall i, j :: 0 <= i < j < |ids| ==> ids[i] != ids[j])
  }

  /** Until the gate fails closed, the live ids are non-zero and pairwise distinct, wrap-around included. */
  lemma LiveIdsDistinct(maximum: int, events: seq<GateEvent>)
    requires maximum < ID_COUNT
    ensures var g := GateRun(Initial(maximum), events);
      && |g.pending| <= g.maximum
      && (g.active == 0 ==> g.pending == [])
      && (!g.failedClosed ==> DistinctNonZero(LiveIds(g)))
  {
    hide IdOf;
    var issued := GateRunInv(maximum, events);
    var g := GateRun(Initial(maximum), events);
    if !g.failedClosed && g.active != 0 { RunOfIds(LiveIds(g), issued - |g.pending|); }
  }

  lemma RunOfIds(ids: seq<nat>, base: nat)
    requires 0 < base && |ids| <= ID_COUNT
    requires forall i :: 0 <= i < |ids| ==> ids[i] == IdOf(base + i)
    ensures DistinctNonZero(ids)
  {
    hide IdOf;
    forall i | 0 <= i < |ids|
      ensures ids[i] != 0
    {
      CounterMoves(base + i - 1);
    }
    forall i, j | 0 <= i < j < |ids|
      ensures ids[i] != ids[j]
    {
      IdsDistinct(base + i, base + j);
    }
  }
}
