/**
 The keychain broker: callers, the worker thread and native jobs meet under one mutex. Every critical
 section is one step; steps of different threads interleave freely, and a native job may report late
 or never. Operations are shared records, named here by the order in which they were admitted.
 */
module KeychainBroker {
  import opened Options
  import G = KeychainGate

  type Handle = nat

  datatype Status = Success | EntryNotFound | BackendError | DeadlineExceeded | QueueCapacityExceeded
    | BrokerFailedClosed | BrokerShuttingDown | DispatchFailed

  /** What a native job can report. */
  type NativeStatus = s: Status | s == Success || s == EntryNotFound || s == BackendError witness Success

  datatype Operation = Operation(id: nat, finished: bool, cancelled: bool, result: Option<Status>)

  /**
   `pending` and `active` mirror the gate. `queued` are start calls posted to the worker thread, `checked` are
   start calls that have passed their check and released the mutex, `running` are native jobs. `promoted`
   (operations made active), `native` (native jobs ever started), `written` (result assignments) and
   `surprises` (branches taken on inconsistent state) are histories.
   */
  datatype Broker = Broker(
    gate: G.Gate,
    pending: seq<Handle>,
    active: Option<Handle>,
    ops: seq<Operation>,
    queued: seq<Handle>,
    checked: seq<Handle>,
    running: seq<Handle>,
    promoted: seq<Handle>,
    native: seq<Handle>,
    written: seq<Handle>,
    surprises: nat)

  function Initial(maximum: int): Broker {
    Broker(G.Initial(maximum), [], None, [], [], [], [], [], [], [], 0)
  }

  predicate Below(handles: seq<Handle>, n: nat) {
    forall i :: 0 <= i < |handles| ==> handles[i] < n
  }

  ghost predicate InRange(b: Broker) {
    && Below(b.pending, |b.ops|) && Below(b.queued, |b.ops|)
    && Below(b.checked, |b.ops|) && Below(b.running, |b.ops|)
    && (b.active.Some? ==> b.active.value < |b.ops|)
  }

  // ------------------------------------------------------------------ primitives

  /** Ends an operation on behalf of the broker. */
  function Cancel(b: Broker, h: Handle, status: Status): Broker
    requires h < |b.ops|
  {
    b.(ops := b.ops[h := Failed(b.ops[h], status)],
       written := b.written + [h])
  }

  function Failed(op: Operation, status: Status): Operation {
    op.(finished := true, cancelled := true, result := Some(status))
  }

  function FailAll(ops: seq<Operation>, handles: seq<Handle>, status: Status): (r: seq<Operation>)
    ensures |r| == |ops|
    ensures forall h :: 0 <= h < |ops| ==>
              r[h] == if h in handles && !ops[h].finished then Failed(ops[h], status) else ops[h]
  {
    seq(|ops|, h requires 0 <= h < |ops| =>
      if h in handles && !ops[h].finished then Failed(ops[h], status) else ops[h])
  }

  /** The handles whose operation is still unfinished, each once, in queue order. */
  function Unfinished(ops: seq<Operation>, handles: seq<Handle>): seq<Handle>
    requires Below(handles, |ops|)
  {
    if handles == [] then []
    else
      var n := |handles| - 1;
      var r := Unfinished(ops, handles[..n]);
      if ops[handles[n]].finished || handles[n] in handles[..n] then r else r + [handles[n]]
  }

  lemma {:induction false} UnfinishedMembers(ops: seq<Operation>, handles: seq<Handle>)
    requires Below(handles, |ops|)
    ensures var r := Unfinished(ops, handles);
      && (forall h :: h in r <==> h in handles && !ops[h].finished)
      && Distinct(r)
  {
    if handles != [] {
      var n := |handles| - 1;
      UnfinishedMembers(ops, handles[..n]);
      assert handles == handles[..n] + [handles[n]];
    }
  }

  predicate Distinct(handles: seq<Handle>) {
    forall i, j :: 0 <= i < j < |handles| ==> handles[i] != handles[j]
  }

  /** Every waiting operation that is not finished ends with `status`; the queue is empty afterwards. */
  function FailPending(b: Broker, status: Status): (r: Broker)
    requires InRange(b)
    ensures InRange(r) && |r.ops| == |b.ops|
  {
    b.(pending := [],
       ops := FailAll(b.ops, b.pending, status),
       written := b.written + Unfinished(b.ops, b.pending))
  }

  predicate IsActive(b: Broker, h: Handle)
    requires InRange(b) && h < |b.ops|
  {
    b.active.Some? && b.ops[b.active.value].id == b.ops[h].id
  }

  /** Posting the start call to the worker thread failed. */
  function FailActiveDispatch(b: Broker, h: Handle): (r: Broker)
    requires InRange(b) && h < |b.ops|
    ensures InRange(r) && |r.ops| == |b.ops|
  {
    var closed := b.(gate := G.Complete(G.Close(b.gate), b.ops[h].id).0,
                     active := if IsActive(b, h) then None else b.active);
    FailPending(Cancel(closed, h, DispatchFailed), BrokerFailedClosed)
  }

  function MakeActive(b: Broker, h: Handle, dispatchOk: bool): (r: Broker)
    requires InRange(b) && h < |b.ops|
    ensures InRange(r) && |r.ops| == |b.ops|
  {
    var started := b.(active := Some(h), promoted := b.promoted + [h]);
    if dispatchOk then started.(queued := b.queued + [h]) else FailActiveDispatch(started, h)
  }

  // -------------------------------------------------------------- critical sections

  /** A caller enters: refused, queued, or made active. On the worker thread itself the broker closes. */
  function Execute(b: Broker, onWorker: bool, dispatchOk: bool): (r: Broker)
    requires InRange(b)
    ensures InRange(r)
  {
    if onWorker then FailPending(b.(gate := G.Close(b.gate)), BrokerFailedClosed)
    else
      var (gate, admission) := G.Admit(b.gate);
      if admission.status != G.Started && admission.status != G.Queued then b.(gate := gate)
      else
        var h := |b.ops|;
        var admitted := b.(gate := gate, ops := b.ops + [Operation(admission.id, false, false, None)]);
        if admission.status == G.Queued then admitted.(pending := b.pending + [h])
        else MakeActive(admitted, h, dispatchOk)
  }

  /** The deadline of the caller waiting for `h` has passed. */
  function Expire(b: Broker, h: Handle): (r: Broker)
    requires InRange(b)
    ensures InRange(r)
  {
    if h >= |b.ops| || b.ops[h].finished then b
    else
      var (gate, known) := G.Deadline(b.gate, b.ops[h].id);
      var cancelled := Cancel(b, h, DeadlineExceeded);
      FailPending(cancelled.(gate := if known then gate else G.Close(b.gate),
                             surprises := b.surprises + (if known then 0 else 1)),
                  BrokerFailedClosed)
  }

  /** Drops the first occurrence of `h`. */
  function Remove(handles: seq<Handle>, h: Handle, ghost n: nat): (r: seq<Handle>)
    requires Below(handles, n)
    ensures Below(r, n)
  {
    if handles == [] then []
    else if handles[0] == h then handles[1..]
    else [handles[0]] + Remove(handles[1..], h, n)
  }

  /** A posted start call reaches the worker thread: the check, under the mutex. */
  function Start(b: Broker, h: Handle): (r: Broker)
    requires InRange(b)
    ensures InRange(r)
  {
    if h !in b.queued then b
    else
      var taken := b.(queued := Remove(b.queued, h, |b.ops|));
      if b.ops[h].cancelled || !IsActive(b, h) then
        if IsActive(b, h) then taken.(gate := G.Complete(b.gate, b.ops[h].id).0, active := None)
        else taken.(surprises := b.surprises + 1)
      else taken.(checked := b.checked + [h])
  }

  /** The mutex is released, and the native job of a checked start call starts, whatever happened meanwhile. */
  function Launch(b: Broker, h: Handle): (r: Broker)
    requires InRange(b)
    ensures InRange(r)
  {
    if h !in b.checked then b
    else b.(checked := Remove(b.checked, h, |b.ops|), running := b.running + [h], native := b.native + [h])
  }

  /** The broker right after the job of `h` reported, before the next operation is looked at. */
  function Idle(b: Broker, h: Handle, status: Status): (r: Broker)
    requires InRange(b) && h < |b.ops|
    ensures InRange(r)
  {
    var op := b.ops[h];
    b.(running := Remove(b.running, h, |b.ops|),
       ops := b.ops[h := op.(finished := true, result := if op.cancelled then op.result else Some(status))],
       written := if op.cancelled then b.written else b.written + [h],
       gate := G.Complete(b.gate, op.id).0,
       active := None)
  }

  /** Goes on with the operation the gate has named next, if the broker's own queue agrees. */
  function Advance(b: Broker, completion: G.Completion, dispatchOk: bool): (r: Broker)
    requires InRange(b)
    ensures InRange(r)
  {
    if !completion.accepted || completion.next == 0 then b
    else if b.pending == [] || b.ops[b.pending[0]].id != completion.next then
      FailPending(b.(gate := G.Complete(G.Close(b.gate), completion.next).0, surprises := b.surprises + 1),
                  BrokerFailedClosed)
    else MakeActive(b.(pending := b.pending[1..]), b.pending[0], dispatchOk)
  }

  /** A native job reports, possibly long after its caller gave up. */
  function Finish(b: Broker, h: Handle, status: Status, dispatchOk: bool): (r: Broker)
    requires InRange(b)
    ensures InRange(r)
  {
    if h !in b.running then b
    else if !IsActive(b, h) then b.(running := Remove(b.running, h, |b.ops|), surprises := b.surprises + 1)
    else Advance(Idle(b, h, status), G.Complete(b.gate, b.ops[h].id).1, dispatchOk)
  }

  function Shutdown(b: Broker): (r: Broker)
    requires InRange(b)
    ensures InRange(r)
  {
    var (gate, first) := G.Shutdown(b.gate);
    if !first then b
    else
      var closing := b.(gate := gate);
      FailPending(if b.active.Some? && !b.ops[b.active.value].finished
                  then Cancel(closing, b.active.value, BrokerShuttingDown) else closing,
                  BrokerShuttingDown)
  }

  datatype Event =
    | ExecuteEvent(onWorker: bool, dispatchOk: bool)
    | ExpireEvent(handle: Handle)
    | StartEvent(handle: Handle)
    | LaunchEvent(handle: Handle)
    | FinishEvent(handle: Handle, status: NativeStatus, dispatchOk: bool)
    | ShutdownEvent

  function Step(b: Broker, e: Event): (r: Broker)
    requires InRange(b)
    ensures InRange(r)
  {
    match e
    case ExecuteEvent(onWorker, dispatchOk) => Execute(b, onWorker, dispatchOk)
    case ExpireEvent(h) => Expire(b, h)
    case StartEvent(h) => Start(b, h)
    case LaunchEvent(h) => Launch(b, h)
    case FinishEvent(h, status, dispatchOk) => Finish(b, h, status, dispatchOk)
    case ShutdownEvent => Shutdown(b)
  }

  function Run(b: Broker, events: seq<Event>): (r: Broker)
    requires InRange(b)
    ensures InRange(r)
    decreases |events|
  {
    if events == [] then b else Run(Step(b, events[0]), events[1..])
  }

  // -------------------------------------------------------------------- invariant

  /** The gate names the active operation by its id. */
  ghost predicate ActiveMirror(b: Broker)
    requires InRange(b)
  {
    b.gate.active == (if b.active.None? then 0 else b.ops[b.active.value].id)
    && (b.active.Some? ==> b.gate.active != 0)
  }

  /** Gate queue and broker queue hold the same operations in the same order. */
  ghost predicate QueueMirror(b: Broker)
    requires InRange(b)
  {
    && |b.gate.pending| == |b.pending|
    && forall i :: 0 <= i < |b.pending| ==> b.gate.pending[i] == b.ops[b.pending[i]].id
  }

  /** The active operation has exactly one start call or native job outstanding, nothing else does. */
  ghost predicate OneOutstanding(b: Broker) {
    b.queued + b.checked + b.running == if b.active.Some? then [b.active.value] else []
  }

  /** Operations were made active in admission order, without a gap. */
  ghost predicate PromotedInOrder(b: Broker) {
    && |b.promoted| <= |b.ops|
    && (forall i :: 0 <= i < |b.promoted| ==> b.promoted[i] == i)
    && (b.active.Some? ==> b.active.value == |b.promoted| - 1)
  }

  /** While the gate is open, the queue is everything admitted and not yet promoted. */
  ghost predicate QueueIsTheRest(b: Broker, first: nat) {
    && first + |b.pending| == |b.ops|
    && forall i :: 0 <= i < |b.pending| ==> b.pending[i] == first + i
  }

  /** Results are written once, on completion; only a closed gate cancels; nobody waits in vain. */
  ghost predicate Records(b: Broker) {
    && (forall h :: 0 <= h < |b.ops| && b.ops[h].cancelled ==> b.gate.failedClosed && b.ops[h].finished)
    && (forall h :: 0 <= h < |b.ops| ==>
          && (b.ops[h].finished <==> h in b.written)
          && (b.ops[h].finished <==> b.ops[h].result.Some?))
    && Below(b.written, |b.ops|) && Distinct(b.written) && Distinct(b.pending)
    && (forall h :: 0 <= h < |b.ops| && !b.ops[h].finished ==> b.active == Some(h) || h in b.pending)
    && (b.active.Some? ==> b.active.value !in b.pending)
    && (forall h :: 0 <= h < |b.ops| && b.active == Some(h) && b.ops[h].finished ==> b.ops[h].cancelled)
  }

  ghost predicate PendingOpen(b: Broker) {
    forall h :: h in b.pending && h < |b.ops| ==> !b.ops[h].finished
  }

  ghost predicate Inv(b: Broker, issued: nat) {
    && InRange(b)
    && G.GateInv(b.gate, issued)
    && ActiveMirror(b) && QueueMirror(b)
    && OneOutstanding(b) && PromotedInOrder(b)
    && (!b.gate.failedClosed ==> QueueIsTheRest(b, |b.promoted|))
    && Records(b) && PendingOpen(b)
    && b.surprises == 0
  }

  /** As the invariant, between closing the gate and draining the broker queue. */
  ghost predicate Closing(b: Broker, issued: nat) {
    && InRange(b)
    && G.GateInv(b.gate, issued) && b.gate.failedClosed
    && ActiveMirror(b)
    && OneOutstanding(b) && PromotedInOrder(b)
    && Records(b)
    && b.surprises == 0
  }

  lemma Drained(b: Broker, status: Status, issued: nat)
    requires Closing(b, issued)
    ensures Inv(FailPending(b, status), issued)
  {
    hide Unfinished, FailAll, Records;
    DrainedRecords(b, status);
  }

  lemma DrainedRecords(b: Broker, status: Status)
    requires InRange(b) && b.gate.failedClosed && Records(b)
    ensures Records(FailPending(b, status))
  {
    hide Unfinished, FailAll;
    DrainedWritten(b, status);
    var r := FailPending(b, status);
    assert forall h :: h in b.pending ==> h < |b.ops|;
    assert forall h :: 0 <= h < |b.ops| ==> (r.ops[h].finished <==> b.ops[h].finished || h in b.pending);
  }

  lemma DrainedWritten(b: Broker, status: Status)
    requires InRange(b) && Records(b)
    ensures var written := FailPending(b, status).written;
      && Below(written, |b.ops|) && Distinct(written)
      && (forall h :: 0 <= h < |b.ops| ==> (h in written <==> b.ops[h].finished || h in b.pending))
  {
    hide Unfinished, FailAll;
    var written, ended := FailPending(b, status).written, Unfinished(b.ops, b.pending);
    UnfinishedMembers(b.ops, b.pending);
    assert forall h :: h in b.pending || h in b.written ==> h < |b.ops|;
    DistinctConcat(b.written, ended);
    assert forall h :: h in written <==> h in b.written || h in ended;
    assert forall i :: 0 <= i < |written| ==> written[i] in written;
  }

  lemma DistinctConcat(left: seq<Handle>, right: seq<Handle>)
    requires Distinct(left) && Distinct(right) && forall h :: h in left ==> h !in right
    ensures Distinct(left + right)
  {
    var all := left + right;
    forall i, j | 0 <= i < j < |all|
      ensures all[i] != all[j]
    {
      if i < |left| <= j { assert left[i] in left && right[j - |left|] in right; }
    }
  }

  // --------------------------------------------------------- every step keeps it

  lemma ClosedGate(g: G.Gate, id: nat, issued: nat)
    requires G.GateInv(g, issued)
    ensures G.GateInv(G.Close(g), issued)
    ensures G.GateInv(G.Complete(G.Close(g), id).0, issued)
  {
    G.GateStepInv(g, G.CloseEvent, issued);
    G.GateStepInv(G.Close(g), G.CompleteEvent(id), issued);
  }

  /** An operation about to be made active: the gate already names it, the queue holds the rest. */
  ghost predicate Ready(b: Broker, h: Handle, issued: nat) {
    && InRange(b) && h < |b.ops|
    && G.GateInv(b.gate, issued) && !b.gate.failedClosed
    && b.active.None? && b.gate.active == b.ops[h].id != 0
    && QueueMirror(b)
    && b.queued == [] && b.checked == [] && b.running == []
    && |b.promoted| == h && (forall i :: 0 <= i < h ==> b.promoted[i] == i)
    && QueueIsTheRest(b, h + 1)
    && Records(b.(active := Some(h))) && PendingOpen(b) && !b.ops[h].finished
    && b.surprises == 0
  }

  lemma MadeActive(b: Broker, h: Handle, dispatchOk: bool, issued: nat)
    requires Ready(b, h, issued)
    ensures Inv(MakeActive(b, h, dispatchOk), issued)
  {
    var started := b.(active := Some(h), promoted := b.promoted + [h]);
    if !dispatchOk {
      ClosedGate(b.gate, b.ops[h].id, issued);
      var closed := started.(gate := G.Complete(G.Close(b.gate), b.ops[h].id).0, active := None);
      hide FailPending;
      CancelRecords(closed, h, DispatchFailed);
      Drained(Cancel(closed, h, DispatchFailed), BrokerFailedClosed, issued);
    }
  }

  /** Cancelling an unfinished operation under a closed gate keeps the records straight. */
  lemma CancelRecords(b: Broker, h: Handle, status: Status)
    requires h < |b.ops| && !b.ops[h].finished && b.gate.failedClosed
    requires Records(b.(active := Some(h))) || Records(b)
    requires b.active.None? || Records(b)
    ensures Records(Cancel(b, h, status))
  {
    var r := Cancel(b, h, status);
    DistinctConcat(b.written, [h]);
    assert forall x :: x in r.written <==> x in b.written || x == h;
  }

  lemma ExecuteInv(b: Broker, onWorker: bool, dispatchOk: bool, issued: nat) returns (issued': nat)
    requires Inv(b, issued)
    ensures issued <= issued' <= issued + 1
    ensures Inv(Execute(b, onWorker, dispatchOk), issued')
  {
    hide Inv, FailPending, MakeActive, G.IdOf, G.GateInv;
    var (gate, admission) := G.Admit(b.gate);
    issued' := issued;
    if onWorker {
      WorkerCallInv(b, issued);
    } else if admission.status == G.Started {
      issued' := issued + 1;
      StartedReady(b, issued);
      MadeActive(b.(gate := gate, ops := b.ops + [Operation(admission.id, false, false, None)]),
                 |b.ops|, dispatchOk, issued');
    } else if admission.status == G.Queued {
      issued' := issued + 1;
      QueuedInv(b, issued);
    } else {
      assert b.(gate := gate) == b;
    }
  }

  lemma WorkerCallInv(b: Broker, issued: nat)
    requires Inv(b, issued)
    ensures Inv(FailPending(b.(gate := G.Close(b.gate)), BrokerFailedClosed), issued)
  {
    hide FailPending, G.GateInv;
    ClosedGate(b.gate, 0, issued);
    Drained(b.(gate := G.Close(b.gate)), BrokerFailedClosed, issued);
  }

  lemma StartedReady(b: Broker, issued: nat)
    requires Inv(b, issued) && G.Admit(b.gate).1.status == G.Started
    ensures var (gate, admission) := G.Admit(b.gate);
      Ready(b.(gate := gate, ops := b.ops + [Operation(admission.id, false, false, None)]), |b.ops|, issued + 1)
  {
    hide G.IdOf, G.NextId, Records, PendingOpen;
    var (gate, admission) := G.Admit(b.gate);
    G.GateStepInv(b.gate, G.AdmitEvent, issued);
    G.NextIdFollows(issued);
    G.CounterMoves(issued);
    AdmittedRecords(b, admission.id, gate, false);
  }

  lemma QueuedInv(b: Broker, issued: nat)
    requires Inv(b, issued) && G.Admit(b.gate).1.status == G.Queued
    ensures var (gate, admission) := G.Admit(b.gate);
      Inv(b.(gate := gate, ops := b.ops + [Operation(admission.id, false, false, None)],
             pending := b.pending + [|b.ops|]), issued + 1)
  {
    hide G.GateInv, Records, PendingOpen, QueueMirror, QueueIsTheRest;
    var (gate, admission) := G.Admit(b.gate);
    assert G.GateInv(gate, issued + 1) by {
      G.GateStepInv(b.gate, G.AdmitEvent, issued);
      assert b.gate.nextId == G.IdOf(issued) by { GateCounter(b.gate, issued); }
      G.NextIdFollows(issued);
      G.CounterMoves(issued);
    }
    AdmittedRecords(b, admission.id, gate, true);
    QueuedMirror(b, gate, Operation(admission.id, false, false, None));
  }

  lemma GateCounter(g: G.Gate, issued: nat)
    requires G.GateInv(g, issued)
    ensures g.nextId == G.IdOf(issued)
  {
  }

  lemma QueuedMirror(b: Broker, gate: G.Gate, op: Operation)
    requires InRange(b) && QueueMirror(b) && gate.pending == b.gate.pending + [op.id]
    ensures var r := b.(gate := gate, ops := b.ops + [op], pending := b.pending + [|b.ops|]);
      InRange(r) && QueueMirror(r)
      && (QueueIsTheRest(b, |b.promoted|) ==> QueueIsTheRest(r, |r.promoted|))
  {
  }

  lemma AdmittedRecords(b: Broker, id: nat, gate: G.Gate, wait: bool)
    requires InRange(b) && Records(b) && PendingOpen(b)
    requires b.gate.failedClosed == gate.failedClosed && (!wait ==> b.active.None? && b.pending == [])
    ensures var h := |b.ops|;
      var r := b.(gate := gate, ops := b.ops + [Operation(id, false, false, None)]);
      && (wait ==> Records(r.(pending := b.pending + [h])) && PendingOpen(r.(pending := b.pending + [h])))
      && (!wait ==> Records(r.(active := Some(h))) && PendingOpen(r))
  {
    var h := |b.ops|;
    assert forall x :: x in b.written || x in b.pending ==> x < h;
    DistinctConcat(b.pending, [h]);
    assert forall x :: x in b.pending + [h] <==> x in b.pending || x == h;
  }

  /** Every caller still waiting is known to the gate, so its deadline is never a surprise. */
  lemma WaitingIsKnown(b: Broker, h: Handle, issued: nat)
    requires Inv(b, issued) && h < |b.ops| && !b.ops[h].finished
    ensures G.Deadline(b.gate, b.ops[h].id) == (G.Close(b.gate), true)
  {
    hide G.GateInv, PendingOpen, QueueIsTheRest, PromotedInOrder, OneOutstanding;
    if b.active != Some(h) {
      var i :| 0 <= i < |b.pending| && b.pending[i] == h;
      WaitingId(b.gate, i, issued);
    }
  }

  lemma WaitingId(g: G.Gate, i: nat, issued: nat)
    requires G.GateInv(g, issued) && i < |g.pending|
    ensures g.pending[i] != 0
  {
    hide G.IdOf;
    var k := issued - |g.pending| + i;
    assert g.pending[i] == G.IdOf(k + 1);
    G.CounterMoves(k);
  }

  lemma ExpireInv(b: Broker, h: Handle, issued: nat)
    requires Inv(b, issued)
    ensures Inv(Expire(b, h), issued)
  {
    if h < |b.ops| && !b.ops[h].finished {
      WaitingIsKnown(b, h, issued);
      hide FailPending, Inv, Closing, G.Deadline;
      assert b.surprises == 0 by { assert Inv(b, issued); }
      CancelledClosing(b, h, G.Close(b.gate), DeadlineExceeded, issued);
      Drained(Cancel(b.(gate := G.Close(b.gate)), h, DeadlineExceeded), BrokerFailedClosed, issued);
    }
  }

  lemma CancelledClosing(b: Broker, h: Handle, gate: G.Gate, status: Status, issued: nat)
    requires Inv(b, issued) && h < |b.ops| && !b.ops[h].finished
    requires gate == G.Close(b.gate) || gate == G.Close(b.gate).(shuttingDown := true)
    ensures Closing(Cancel(b.(gate := gate), h, status), issued)
  {
    hide Records, PendingOpen, QueueMirror;
    var closed := b.(gate := gate);
    ClosingRecords(b, gate);
    CancelRecords(closed, h, status);
  }

  /** The records do not mind the gate closing. */
  lemma ClosingRecords(b: Broker, gate: G.Gate)
    requires Records(b) && gate.failedClosed
    ensures Records(b.(gate := gate))
  {
  }

  lemma ShutdownInv(b: Broker, issued: nat)
    requires Inv(b, issued)
    ensures Inv(Shutdown(b), issued)
  {
    if !b.gate.shuttingDown {
      hide FailPending, Records, PendingOpen, QueueMirror;
      var closing := b.(gate := G.Shutdown(b.gate).0);
      ClosingRecords(b, closing.gate);
      if b.active.Some? && !b.ops[b.active.value].finished {
        CancelledClosing(b, b.active.value, closing.gate, BrokerShuttingDown, issued);
        Drained(Cancel(closing, b.active.value, BrokerShuttingDown), BrokerShuttingDown, issued);
      } else {
        Drained(closing, BrokerShuttingDown, issued);
      }
    }
  }

  lemma StartInv(b: Broker, h: Handle, issued: nat)
    requires Inv(b, issued)
    ensures Inv(Start(b, h), issued)
  {
    if h in b.queued {
      OnlyActiveOutstanding(b, h);
      assert Remove(b.queued, h, |b.ops|) == [];
      hide Inv, Remove, G.Complete;
      if b.ops[h].cancelled {
        StoppedInv(b, h, issued);
      } else {
        StageMoved(b, b.(queued := [], checked := [h]), h, issued);
        assert b.checked + [h] == [h];
      }
    }
  }

  lemma LaunchInv(b: Broker, h: Handle, issued: nat)
    requires Inv(b, issued)
    ensures Inv(Launch(b, h), issued)
  {
    if h in b.checked {
      OnlyActiveOutstanding(b, h);
      assert Remove(b.checked, h, |b.ops|) == [];
      hide Inv, Remove;
      StageMoved(b, b.(checked := [], running := [h], native := b.native + [h]), h, issued);
      assert b.running + [h] == [h];
    }
  }

  /** The one outstanding call or job goes on to its next stage. */
  lemma StageMoved(b: Broker, r: Broker, h: Handle, issued: nat)
    requires Inv(b, issued) && b.queued + b.checked + b.running == [h] == r.queued + r.checked + r.running
    requires r == b.(queued := r.queued, checked := r.checked, running := r.running, native := r.native)
    requires Below(r.queued, |b.ops|) && Below(r.checked, |b.ops|) && Below(r.running, |b.ops|)
    ensures Inv(r, issued)
  {
    hide G.GateInv, Records, PendingOpen, QueueMirror, QueueIsTheRest;
    SameBooks(b, r);
  }

  /** Start calls and jobs play no part in the records and the queues. */
  lemma SameBooks(b: Broker, r: Broker)
    requires InRange(b) && InRange(r)
    requires r == b.(queued := r.queued, checked := r.checked, running := r.running, native := r.native)
    ensures Records(b) ==> Records(r)
    ensures PendingOpen(b) ==> PendingOpen(r)
    ensures QueueMirror(b) ==> QueueMirror(r)
    ensures QueueIsTheRest(b, |b.promoted|) ==> QueueIsTheRest(r, |r.promoted|)
  {
  }

  lemma StoppedInv(b: Broker, h: Handle, issued: nat)
    requires Inv(b, issued) && b.queued == [h] && b.checked == [] && b.running == []
    requires b.active == Some(h) && b.ops[h].cancelled
    ensures Inv(b.(queued := [], gate := G.Complete(b.gate, b.ops[h].id).0, active := None), issued)
  {
    hide G.GateInv, G.Complete, Records, PendingOpen, QueueIsTheRest;
    Completed(b, h, issued);
    var r := b.(queued := [], gate := G.Complete(b.gate, b.ops[h].id).0, active := None);
    assert b.gate.failedClosed && b.pending == [] by { CancelledMeansClosed(b, h, issued); }
    assert r.queued + r.checked + r.running == [];
    StoppedRecords(b, h, r);
  }

  lemma CancelledMeansClosed(b: Broker, h: Handle, issued: nat)
    requires Inv(b, issued) && h < |b.ops| && b.ops[h].cancelled
    ensures b.gate.failedClosed && b.pending == []
  {
    assert b.gate.failedClosed;
    ClosedQueue(b, issued);
  }

  lemma StoppedRecords(b: Broker, h: Handle, r: Broker)
    requires Records(b) && b.active == Some(h) && h < |b.ops| && b.ops[h].cancelled && b.pending == []
    requires r == b.(queued := [], gate := r.gate, active := None) && r.gate.failedClosed
    ensures Records(r) && PendingOpen(r)
  {
  }

  /** A start call or a job that is outstanding belongs to the active operation and is the only one. */
  lemma OnlyActiveOutstanding(b: Broker, h: Handle)
    requires OneOutstanding(b) && (h in b.queued || h in b.checked || h in b.running)
    ensures b.active == Some(h)
    ensures h in b.queued ==> b.queued == [h] && b.checked == [] && b.running == []
    ensures h in b.checked ==> b.checked == [h] && b.queued == [] && b.running == []
    ensures h in b.running ==> b.running == [h] && b.queued == [] && b.checked == []
  {
    var all := b.queued + b.checked + b.running;
    assert h in all;
    assert |all| == 1 && all[0] == h;
    assert |b.queued| + |b.checked| + |b.running| == 1;
  }

  lemma IdleRecords(b: Broker, h: Handle, status: Status)
    requires InRange(b) && Records(b) && PendingOpen(b) && b.active == Some(h)
    ensures Records(Idle(b, h, status)) && PendingOpen(Idle(b, h, status))
  {
    var r := Idle(b, h, status);
    if !b.ops[h].cancelled { DistinctConcat(b.written, [h]); }
    assert forall x :: x in r.written <==> x in b.written || x == h;
  }

  /** Completing the active operation: the gate either names the head of the queue or the queue is empty. */
  lemma Completed(b: Broker, h: Handle, issued: nat)
    requires Inv(b, issued) && b.active == Some(h)
    ensures var (gate, completion) := G.Complete(b.gate, b.ops[h].id);
      && G.GateInv(gate, issued) && gate.failedClosed == b.gate.failedClosed && completion.accepted
      && completion.next == gate.active
      && (gate.active == 0 ==> b.pending == [] && gate.pending == [])
      && (gate.active != 0 ==>
            b.pending != [] && !gate.failedClosed && gate.active == b.ops[b.pending[0]].id
            && gate.pending == b.gate.pending[1..])
  {
    hide G.IdOf, Records, PendingOpen;
    G.GateStepInv(b.gate, G.CompleteEvent(b.ops[h].id), issued);
    if !b.gate.failedClosed && b.pending != [] {
      var k := issued - |b.gate.pending|;
      assert b.gate.pending[0] == G.IdOf(k + 1 + 0);
      G.CounterMoves(k);
    }
  }

  lemma NextReady(b: Broker, h: Handle, status: Status, issued: nat)
    requires Inv(b, issued) && b.active == Some(h) && b.running == [h] && b.queued == [] && b.checked == []
    requires G.Complete(b.gate, b.ops[h].id).0.active != 0
    ensures b.pending != [] && Ready(Idle(b, h, status).(pending := b.pending[1..]), b.pending[0], issued)
  {
    hide G.Complete, G.GateInv, Records, PendingOpen;
    var idle := Idle(b, h, status);
    Completed(b, h, issued);
    IdleRecords(b, h, status);
    PoppedRecords(idle);
    ActiveNotPending(b, h);
  }

  lemma ActiveNotPending(b: Broker, h: Handle)
    requires Records(b) && b.active == Some(h)
    ensures forall i :: 0 <= i < |b.pending| ==> b.pending[i] != h
  {
  }

  lemma PoppedRecords(b: Broker)
    requires InRange(b) && Records(b) && PendingOpen(b) && b.active.None? && b.pending != []
    ensures Records(b.(pending := b.pending[1..], active := Some(b.pending[0])))
    ensures PendingOpen(b.(pending := b.pending[1..])) && !b.ops[b.pending[0]].finished
  {
    assert forall x :: x in b.pending <==> x == b.pending[0] || x in b.pending[1..];
  }

  lemma FinishInv(b: Broker, h: Handle, status: Status, dispatchOk: bool, issued: nat)
    requires Inv(b, issued)
    ensures Inv(Finish(b, h, status, dispatchOk), issued)
  {
    hide G.GateInv, G.Complete, FailPending, MakeActive, Records, PendingOpen, QueueMirror, QueueIsTheRest;
    if h in b.running {
      OnlyActiveOutstanding(b, h);
      Completed(b, h, issued);
      var idle := Idle(b, h, status);
      if idle.gate.active != 0 {
        NextReady(b, h, status, issued);
        MadeActive(idle.(pending := b.pending[1..]), b.pending[0], dispatchOk, issued);
      } else {
        IdleInv(b, h, status, issued);
      }
    }
  }

  lemma IdleInv(b: Broker, h: Handle, status: Status, issued: nat)
    requires Inv(b, issued) && b.active == Some(h) && b.running == [h] && b.queued == [] && b.checked == []
    requires G.Complete(b.gate, b.ops[h].id).0.active == 0
    ensures Inv(Idle(b, h, status), issued)
  {
    hide G.GateInv, G.Complete, Records, PendingOpen;
    Completed(b, h, issued);
    IdleRecords(b, h, status);
  }

  // -------------------------------------------------------------------- whole runs

  lemma StepInv(b: Broker, e: Event, issued: nat) returns (issued': nat)
    requires Inv(b, issued)
    ensures Inv(Step(b, e), issued')
  {
    hide Inv, Execute, Expire, Start, Launch, Finish, Shutdown;
    issued' := issued;
    match e
    case ExecuteEvent(onWorker, dispatchOk) => issued' := ExecuteInv(b, onWorker, dispatchOk, issued);
    case ExpireEvent(h) => ExpireInv(b, h, issued);
    case StartEvent(h) => StartInv(b, h, issued);
    case LaunchEvent(h) => LaunchInv(b, h, issued);
    case FinishEvent(h, status, dispatchOk) => FinishInv(b, h, status, dispatchOk, issued);
    case ShutdownEvent => ShutdownInv(b, issued);
  }

  lemma {:induction false} RunInv(b: Broker, events: seq<Event>, issued: nat) returns (issued': nat)
    requires Inv(b, issued)
    ensures Inv(Run(b, events), issued')
    decreases |events|
  {
    hide Step;
    issued' := issued;
    if events != [] {
      issued' := StepInv(b, events[0], issued);
      issued' := RunInv(Step(b, events[0]), events[1..], issued');
    }
  }

  /** What callers, worker thread and native jobs can rely on, however their steps interleave. */
  lemma BrokerSerial(maximum: int, events: seq<Event>)
    requires maximum < G.ID_COUNT
    ensures var b := Run(Initial(maximum), events);
      // one operation at a time, in admission order
      && |b.queued| + |b.checked| + |b.running| == (if b.active.Some? then 1 else 0)
      && (forall i :: 0 <= i < |b.promoted| ==> b.promoted[i] == i)
      && |b.pending| <= b.gate.maximum && (b.active.None? ==> b.pending == [])
      // no inconsistent state is ever met
      && b.surprises == 0
      // a result is written exactly once, and only a closed gate cancels
      && (forall h :: 0 <= h < |b.ops| ==> (b.ops[h].finished <==> h in b.written))
      && Distinct(b.written)
      && (forall h :: 0 <= h < |b.ops| && b.ops[h].cancelled ==> b.gate.failedClosed)
      // nobody waits for an operation the broker has lost
      && (forall h :: 0 <= h < |b.ops| && !b.ops[h].finished ==> b.active == Some(h) || h in b.pending)
  {
    var issued := RunInv(Initial(maximum), events, 0);
    var b := Run(Initial(maximum), events);
    hide Run, G.IdOf;
    assert |b.queued + b.checked + b.running| == if b.active.Some? then 1 else 0;
  }

  /** Later states keep every recorded result, and a closed gate neither reopens nor admits nor promotes. */
  ghost predicate Extends(b: Broker, later: Broker) {
    && |b.ops| <= |later.ops|
    && (forall h :: 0 <= h < |b.ops| ==> later.ops[h].id == b.ops[h].id)
    && (forall h :: 0 <= h < |b.ops| && b.ops[h].finished ==> later.ops[h] == b.ops[h])
    && b.promoted <= later.promoted && b.written <= later.written
    && (b.gate.failedClosed ==>
          && later.gate.failedClosed
          && later.promoted == b.promoted
          && |later.ops| == |b.ops|
          && later.pending == [])
  }

  lemma DrainExtends(b: Broker, next: Broker, status: Status)
    requires InRange(next) && Extends(b, next)
    ensures Extends(b, FailPending(next, status))
  {
    hide Unfinished;
  }

  lemma CancelExtends(b: Broker, next: Broker, h: Handle, status: Status)
    requires InRange(next) && Extends(b, next) && h < |next.ops| && (h < |b.ops| ==> !b.ops[h].finished)
    ensures Extends(b, Cancel(next, h, status))
  {
  }

  lemma MakeActiveExtends(b: Broker, next: Broker, h: Handle, dispatchOk: bool)
    requires InRange(next) && Extends(b, next) && h < |next.ops| && (h < |b.ops| ==> !b.ops[h].finished)
    requires !b.gate.failedClosed
    ensures Extends(b, MakeActive(next, h, dispatchOk))
  {
    hide FailPending, G.Complete;
    var started := next.(active := Some(h), promoted := next.promoted + [h]);
    var closed := started.(gate := G.Complete(G.Close(next.gate), next.ops[h].id).0, active := None);
    CancelExtends(b, closed, h, DispatchFailed);
    DrainExtends(b, Cancel(closed, h, DispatchFailed), BrokerFailedClosed);
  }

  lemma StepExtends(b: Broker, e: Event, issued: nat)
    requires Inv(b, issued)
    ensures Extends(b, Step(b, e))
  {
    hide G.GateInv, Records, PendingOpen, QueueMirror, Execute, Expire, Finish, Shutdown;
    match e
    case ExecuteEvent(onWorker, dispatchOk) => ExecuteExtends(b, onWorker, dispatchOk, issued);
    case ExpireEvent(h) => ExpireExtends(b, h, issued);
    case StartEvent(h) => if b.gate.failedClosed { ClosedQueue(b, issued); }
    case LaunchEvent(h) => if b.gate.failedClosed { ClosedQueue(b, issued); }
    case FinishEvent(h, status, dispatchOk) => FinishExtends(b, h, status, dispatchOk, issued);
    case ShutdownEvent => ShutdownExtends(b, issued);
  }

  lemma ExecuteExtends(b: Broker, onWorker: bool, dispatchOk: bool, issued: nat)
    requires Inv(b, issued)
    ensures Extends(b, Execute(b, onWorker, dispatchOk))
  {
    SelfExtends(b, issued);
    assert InRange(b);
    hide Inv, InRange, FailPending, Extends;
    if onWorker {
      ClosingExtends(b);
      DrainExtends(b, b.(gate := G.Close(b.gate)), BrokerFailedClosed);
    } else {
      AdmitExtends(b, dispatchOk);
    }
  }

  lemma AdmitExtends(b: Broker, dispatchOk: bool)
    requires InRange(b) && Extends(b, b)
    ensures Extends(b, Execute(b, false, dispatchOk))
  {
    hide InRange, MakeActive, G.NextId, Extends;
    var (gate, admission) := G.Admit(b.gate);
    if admission.status == G.Started || admission.status == G.Queued {
      var admitted := b.(gate := gate, ops := b.ops + [Operation(admission.id, false, false, None)]);
      AdmittedInRange(b, gate, admission.id);
      AdmittedExtends(b, gate, admission.id, b.pending);
      AdmittedExtends(b, gate, admission.id, b.pending + [|b.ops|]);
      MakeActiveExtends(b, admitted, |b.ops|, dispatchOk);
    }
  }

  lemma AdmittedInRange(b: Broker, gate: G.Gate, id: nat)
    requires InRange(b)
    ensures InRange(b.(gate := gate, ops := b.ops + [Operation(id, false, false, None)]))
  {
  }

  lemma ClosingExtends(b: Broker)
    requires InRange(b) && Extends(b, b)
    ensures Extends(b, b.(gate := G.Close(b.gate))) && InRange(b.(gate := G.Close(b.gate)))
  {
  }

  lemma AdmittedExtends(b: Broker, gate: G.Gate, id: nat, pending: seq<Handle>)
    requires !b.gate.failedClosed
    ensures Extends(b, b.(gate := gate, ops := b.ops + [Operation(id, false, false, None)], pending := pending))
  {
  }

  lemma ExpireExtends(b: Broker, h: Handle, issued: nat)
    requires Inv(b, issued)
    ensures Extends(b, Expire(b, h))
  {
    if b.gate.failedClosed { ClosedQueue(b, issued); }
    if h < |b.ops| && !b.ops[h].finished {
      WaitingIsKnown(b, h, issued);
      hide FailPending, G.GateInv, Records, PendingOpen, QueueMirror;
      var closed := b.(gate := G.Close(b.gate));
      CancelExtends(b, closed, h, DeadlineExceeded);
      DrainExtends(b, Cancel(closed, h, DeadlineExceeded), BrokerFailedClosed);
    }
  }

  lemma ShutdownExtends(b: Broker, issued: nat)
    requires Inv(b, issued)
    ensures Extends(b, Shutdown(b))
  {
    hide G.GateInv, Records, PendingOpen, QueueMirror, FailPending;
    if b.gate.failedClosed { ClosedQueue(b, issued); }
    var closing := b.(gate := G.Shutdown(b.gate).0);
    DrainExtends(b, closing, BrokerShuttingDown);
    if b.active.Some? && !b.ops[b.active.value].finished {
      CancelExtends(b, closing, b.active.value, BrokerShuttingDown);
      DrainExtends(b, Cancel(closing, b.active.value, BrokerShuttingDown), BrokerShuttingDown);
    }
  }

  lemma FinishExtends(b: Broker, h: Handle, status: Status, dispatchOk: bool, issued: nat)
    requires Inv(b, issued)
    ensures Extends(b, Finish(b, h, status, dispatchOk))
  {
    if h in b.running {
      IdleExtends(b, h, status, issued);
      Completed(b, h, issued);
      if b.pending != [] { HeadOpen(b, issued); }
      hide Inv, G.GateInv, G.Complete, FailPending, MakeActive, Extends;
      var idle := Idle(b, h, status);
      if idle.gate.active != 0 {
        PopExtends(b, idle);
        MakeActiveExtends(b, idle.(pending := b.pending[1..]), b.pending[0], dispatchOk);
      }
    } else {
      SelfExtends(b, issued);
    }
  }

  lemma SelfExtends(b: Broker, issued: nat)
    requires Inv(b, issued)
    ensures Extends(b, b)
  {
    if b.gate.failedClosed { ClosedQueue(b, issued); }
  }

  lemma HeadOpen(b: Broker, issued: nat)
    requires Inv(b, issued) && b.pending != []
    ensures b.pending[0] < |b.ops| && !b.ops[b.pending[0]].finished && !b.gate.failedClosed
  {
    assert b.pending[0] in b.pending;
  }

  lemma IdleExtends(b: Broker, h: Handle, status: Status, issued: nat)
    requires Inv(b, issued) && h in b.running
    ensures b.active == Some(h) && Extends(b, Idle(b, h, status))
  {
    if b.gate.failedClosed { ClosedQueue(b, issued); }
    FinishedIsCancelled(b, h, issued);
    Completed(b, h, issued);
    hide G.GateInv, G.Complete, PendingOpen, QueueMirror, ActiveMirror, OneOutstanding, QueueIsTheRest;
  }

  lemma PopExtends(b: Broker, next: Broker)
    requires Extends(b, next) && next.pending != []
    ensures Extends(b, next.(pending := next.pending[1..]))
  {
  }

  lemma ClosedQueue(b: Broker, issued: nat)
    requires Inv(b, issued) && b.gate.failedClosed
    ensures b.pending == []
  {
  }

  lemma FinishedIsCancelled(b: Broker, h: Handle, issued: nat)
    requires Inv(b, issued) && h in b.running
    ensures b.active == Some(h)
    ensures b.ops[h].finished ==> b.ops[h].cancelled
  {
    OnlyActiveOutstanding(b, h);
  }

  lemma ExtendsTransitive(a: Broker, b: Broker, c: Broker)
    requires Extends(a, b) && Extends(b, c)
    ensures Extends(a, c)
  {
  }

  lemma {:induction false} RunExtends(b: Broker, events: seq<Event>, issued: nat)
    requires Inv(b, issued)
    ensures Extends(b, Run(b, events))
    decreases |events|
  {
    if events == [] {
      if b.gate.failedClosed { ClosedQueue(b, issued); }
    } else {
      hide Step, Extends, G.GateInv, Records, PendingOpen, QueueMirror, ActiveMirror, QueueIsTheRest, PromotedInOrder;
      var issued' := StepInv(b, events[0], issued);
      StepExtends(b, events[0], issued);
      RunExtends(Step(b, events[0]), events[1..], issued');
      ExtendsTransitive(b, Step(b, events[0]), Run(b, events));
    }
  }

  // ------------------------------------------------- native jobs after the gate closed

  /** The active operation's start call has passed its check, or is on its way and will pass it. */
  predicate Startable(b: Broker) {
    && b.active.Some? && b.active.value < |b.ops|
    && (b.checked == [b.active.value] || (b.queued == [b.active.value] && !b.ops[b.active.value].cancelled))
  }

  /** Under a closed gate a step starts the job on its way, or starts none and puts none on its way. */
  predicate NativeStep(b: Broker, r: Broker) {
    if r.native == b.native then Startable(r) ==> Startable(b) && r.active == b.active
    else Startable(b) && r.native == b.native + [b.active.value] && !Startable(r)
  }

  lemma ClosedStepNative(b: Broker, e: Event, issued: nat)
    requires Inv(b, issued) && b.gate.failedClosed
    ensures NativeStep(b, Step(b, e))
  {
    ClosedQueue(b, issued);
    hide G.GateInv, Records, PendingOpen, QueueMirror, QueueIsTheRest, PromotedInOrder, Finish;
    match e
    case ExecuteEvent(onWorker, dispatchOk) => FailNothing(b.ops, BrokerFailedClosed);
    case ExpireEvent(h) => ExpireNative(b, h);
    case StartEvent(h) => StartNative(b, h);
    case LaunchEvent(h) => LaunchNative(b, h);
    case FinishEvent(h, status, dispatchOk) => FinishNative(b, h, status, dispatchOk, issued);
    case ShutdownEvent => ShutdownNative(b);
  }

  lemma ExpireNative(b: Broker, h: Handle)
    requires InRange(b) && b.pending == []
    ensures NativeStep(b, Expire(b, h))
  {
    if h < |b.ops| { FailNothing(b.ops[h := Failed(b.ops[h], DeadlineExceeded)], BrokerFailedClosed); }
  }

  lemma ShutdownNative(b: Broker)
    requires InRange(b) && b.pending == []
    ensures NativeStep(b, Shutdown(b))
  {
    FailNothing(b.ops, BrokerShuttingDown);
    if b.active.Some? {
      var h := b.active.value;
      FailNothing(b.ops[h := Failed(b.ops[h], BrokerShuttingDown)], BrokerShuttingDown);
    }
  }

  lemma StartNative(b: Broker, h: Handle)
    requires InRange(b) && OneOutstanding(b)
    ensures NativeStep(b, Start(b, h))
  {
    hide G.Complete;
    if h in b.queued {
      OnlyActiveOutstanding(b, h);
      assert Remove(b.queued, h, |b.ops|) == [];
    }
  }

  lemma LaunchNative(b: Broker, h: Handle)
    requires InRange(b) && OneOutstanding(b)
    ensures NativeStep(b, Launch(b, h))
  {
    if h in b.checked {
      OnlyActiveOutstanding(b, h);
      assert Remove(b.checked, h, |b.ops|) == [];
      assert b.native + [h] != b.native;
    }
  }

  lemma FinishNative(b: Broker, h: Handle, status: Status, dispatchOk: bool, issued: nat)
    requires Inv(b, issued) && b.gate.failedClosed
    ensures NativeStep(b, Finish(b, h, status, dispatchOk))
  {
    if h in b.running {
      OnlyActiveOutstanding(b, h);
      Completed(b, h, issued);
      hide G.Complete, Remove;
      assert !Startable(b);
    }
  }

  lemma {:induction false} ClosedRunNative(b: Broker, events: seq<Event>, issued: nat)
    requires Inv(b, issued) && b.gate.failedClosed
    ensures var end := Run(b, events);
      end.native == b.native || (Startable(b) && end.native == b.native + [b.active.value] && !Startable(end))
    ensures var end := Run(b, events); end.native == b.native && Startable(end) ==> Startable(b) && end.active == b.active
    decreases |events|
  {
    hide Step, Startable, G.GateInv, Records, PendingOpen, QueueMirror, ActiveMirror, QueueIsTheRest, PromotedInOrder;
    if events != [] {
      ClosedStepNative(b, events[0], issued);
      StepExtends(b, events[0], issued);
      var issued' := StepInv(b, events[0], issued);
      ClosedRunNative(Step(b, events[0]), events[1..], issued');
    }
  }

  /** The start call of `h` is delivered, and its job started if it passes its check. */
  function Delivered(b: Broker, h: Handle): Broker
    requires InRange(b)
  {
    Run(b, [StartEvent(h), LaunchEvent(h)])
  }

  /**
   Once closed, at most one more native job starts in any continuation, and only that of the operation that was
   active at closing, whose start call was then on its way and not cancelled, or had passed its check already. In
   exactly these cases there is a continuation that starts it: the delivery of the call and what follows it.
   */
  lemma NativeAfterClosing(maximum: int, before: seq<Event>, after: seq<Event>)
    requires maximum < G.ID_COUNT
    ensures var b := Run(Initial(maximum), before);
      var end := Run(b, after);
      b.gate.failedClosed ==>
        && (end.native == b.native || (Startable(b) && end.native == b.native + [b.active.value]))
        && (Startable(b) <==> b.active.Some? && Delivered(b, b.active.value).native != b.native)
  {
    var issued := RunInv(Initial(maximum), before, 0);
    var b := Run(Initial(maximum), before);
    hide Run, Inv;
    if b.gate.failedClosed {
      ClosedRunNative(b, after, issued);
      if b.active.Some? { DeliveryStarts(b, issued); }
    }
  }

  lemma DeliveryStarts(b: Broker, issued: nat)
    requires Inv(b, issued) && b.active.Some?
    ensures Startable(b) <==> Delivered(b, b.active.value).native != b.native
  {
    assert InRange(b);
    hide Start, Launch, Inv, InRange;
    var h := b.active.value;
    var events := [StartEvent(h), LaunchEvent(h)];
    assert events[1..] == [LaunchEvent(h)] && [LaunchEvent(h)][1..] == [];
    assert Run(Start(b, h), [LaunchEvent(h)]) == Launch(Start(b, h), h);
    assert Run(b, events) == Launch(Start(b, h), h);
    LaunchAfterStart(b, issued);
  }

  lemma LaunchAfterStart(b: Broker, issued: nat)
    requires Inv(b, issued) && b.active.Some?
    ensures Startable(b) <==> Launch(Start(b, b.active.value), b.active.value).native != b.native
  {
    var h := b.active.value;
    assert OneOutstanding(b);
    hide Inv, G.Complete, Remove, OneOutstanding;
    assert h in b.queued + b.checked + b.running by { Outstanding(b); }
    OnlyActiveOutstanding(b, h);
    if h in b.queued { OneRemoved(h, |b.ops|); }
    assert b.native + [h] != b.native;
  }

  lemma Outstanding(b: Broker)
    requires OneOutstanding(b) && b.active.Some?
    ensures b.active.value in b.queued + b.checked + b.running
  {
  }

  lemma OneRemoved(h: Handle, n: nat)
    requires h < n
    ensures Remove([h], h, n) == []
  {
  }

  lemma Expired(b: Broker, h: Handle, issued: nat)
    requires Inv(b, issued) && h < |b.ops| && !b.ops[h].finished
    ensures var r := Expire(b, h);
      && r.gate.failedClosed && r.promoted == b.promoted && |r.ops| == |b.ops|
      && r.ops[h].finished && r.ops[h].result == Some(DeadlineExceeded)
      && (forall x :: 0 <= x < |r.ops| && x != h && b.active != Some(x) && !b.ops[x].finished ==>
            r.ops[x].finished && r.ops[x].result == Some(BrokerFailedClosed))
  {
    WaitingIsKnown(b, h, issued);
    hide G.GateInv, G.Deadline, QueueMirror, ActiveMirror, QueueIsTheRest, PromotedInOrder, OneOutstanding;
    hide PendingOpen, Unfinished, FailAll;
    assert Expire(b, h).ops == FailAll(b.ops[h := Failed(b.ops[h], DeadlineExceeded)], b.pending, BrokerFailedClosed);
  }

  /**
   A deadline miss is final: its caller gets the deadline, everyone waiting a closed broker, and nothing admitted
   before or offered later is ever made active again. A native job may still start afterwards only for the active
   operation: another one whose start call was on its way, or any whose start call had passed its check.
   */
  lemma DeadlinePoisons(maximum: int, before: seq<Event>, h: Handle, after: seq<Event>)
    requires maximum < G.ID_COUNT
    ensures var b := Run(Initial(maximum), before);
      h < |b.ops| && !b.ops[h].finished ==>
        var end := Run(Expire(b, h), after);
        && end.gate.failedClosed && end.promoted == b.promoted && |end.ops| == |b.ops|
        && end.ops[h].result == Some(DeadlineExceeded)
        && (forall x :: 0 <= x < |end.ops| && x != h && b.active != Some(x) && !b.ops[x].finished ==>
              end.ops[x].result == Some(BrokerFailedClosed))
        && (end.native == b.native
            || (Startable(b) && (b.active != Some(h) || b.checked == [h]) && end.native == b.native + [b.active.value]))
  {
    var issued := RunInv(Initial(maximum), before, 0);
    hide Run, Expire, Inv;
    var b := Run(Initial(maximum), before);
    if h < |b.ops| && !b.ops[h].finished { ExpiredForGood(b, h, after, issued); }
  }

  lemma ExpiredForGood(b: Broker, h: Handle, after: seq<Event>, issued: nat)
    requires InRange(b) && Inv(b, issued) && h < |b.ops| && !b.ops[h].finished
    ensures var end := Run(Expire(b, h), after);
      && end.gate.failedClosed && end.promoted == b.promoted && |end.ops| == |b.ops|
      && end.ops[h].result == Some(DeadlineExceeded)
      && (forall x :: 0 <= x < |end.ops| && x != h && b.active != Some(x) && !b.ops[x].finished ==>
            end.ops[x].result == Some(BrokerFailedClosed))
      && (end.native == b.native
          || (Startable(b) && (b.active != Some(h) || b.checked == [h]) && end.native == b.native + [b.active.value]))
  {
    hide Run, Expire, Inv, Startable;
    Expired(b, h, issued);
    ExpiredStartable(b, h, issued);
    ExpireInv(b, h, issued);
    RunExtends(Expire(b, h), after, issued);
    ClosedRunNative(Expire(b, h), after, issued);
  }

  lemma ExpiredStartable(b: Broker, h: Handle, issued: nat)
    requires Inv(b, issued) && h < |b.ops| && !b.ops[h].finished
    ensures var r := Expire(b, h);
      && r.native == b.native && r.active == b.active
      && (Startable(r) ==> Startable(b) && (b.active != Some(h) || b.checked == [h]))
  {
    hide G.GateInv, G.Deadline, QueueMirror, ActiveMirror, QueueIsTheRest, PromotedInOrder, OneOutstanding;
    hide PendingOpen, Unfinished, FailAll, Records;
    assert Expire(b, h).ops == FailAll(b.ops[h := Failed(b.ops[h], DeadlineExceeded)], b.pending, BrokerFailedClosed);
  }

  /** A failed dispatch and a shutdown close the gate, like a missed deadline does. */
  lemma FailuresClose(b: Broker, h: Handle, issued: nat)
    requires Inv(b, issued)
    ensures Shutdown(b).gate.failedClosed
    ensures h < |b.ops| ==> MakeActive(b, h, false).gate.failedClosed
  {
    hide Records, PendingOpen, QueueMirror, FailAll, Unfinished, G.IdOf;
  }

  /** Once closed, for whatever reason, the broker admits nothing and makes nothing active in any continuation. */
  lemma ClosedForGood(maximum: int, before: seq<Event>, after: seq<Event>)
    requires maximum < G.ID_COUNT
    ensures var b := Run(Initial(maximum), before);
      var end := Run(b, after);
      b.gate.failedClosed ==>
        && end.gate.failedClosed && end.pending == []
        && end.promoted == b.promoted && |end.ops| == |b.ops|
        && (forall h :: 0 <= h < |b.ops| && b.ops[h].finished ==> end.ops[h] == b.ops[h])
  {
    var issued := RunInv(Initial(maximum), before, 0);
    hide Run, Inv;
    RunExtends(Run(Initial(maximum), before), after, issued);
  }

  // ------------------------------------------------------------------ the object

  lemma FailNothing(ops: seq<Operation>, status: Status)
    ensures FailAll(ops, [], status) == ops && Unfinished(ops, []) == []
  {
  }

  lemma Dequeued(taken: seq<Handle>, queue: seq<Handle>)
    requires queue != []
    ensures (taken + [queue[0]]) + queue[1..] == taken + queue
  {
  }

  lemma UnfinishedConcat(ops: seq<Operation>, rest: seq<Handle>, h: Handle)
    requires Below(rest, |ops|) && h < |ops|
    ensures Below(rest + [h], |ops|)
    ensures Unfinished(ops, rest + [h]) ==
            if ops[h].finished || h in rest then Unfinished(ops, rest) else Unfinished(ops, rest) + [h]
  {
    var all := rest + [h];
    assert all[..|all| - 1] == rest && all[|all| - 1] == h;
  }

  lemma FailConcat(ops: seq<Operation>, rest: seq<Handle>, h: Handle, status: Status)
    requires h < |ops|
    ensures var before := FailAll(ops, rest, status);
      && (before[h].finished <==> ops[h].finished || h in rest)
      && FailAll(ops, rest + [h], status) == if before[h].finished then before else before[h := Failed(before[h], status)]
  {
    hide FailAll;
    assert forall x :: x in rest + [h] <==> x in rest || x == h;
  }

  /** The draining loop, on the records it touches: dequeue, and end what is not finished yet. */
  method FailQueue(ops: seq<Operation>, queue: seq<Handle>, status: Status)
    returns (r: seq<Operation>, ghost ended: seq<Handle>)
    requires Below(queue, |ops|)
    ensures r == FailAll(ops, queue, status)
    ensures ended == Unfinished(ops, queue)
  {
    hide FailAll, Unfinished;
    FailNothing(ops, status);
    r, ended := ops, [];
    var pending := queue;
    ghost var drained: seq<Handle> := [];
    while pending != []
      invariant drained + pending == queue && Below(drained, |ops|)
      invariant r == FailAll(ops, drained, status)
      invariant ended == Unfinished(ops, drained)
      decreases |pending|
    {
      var h := pending[0];
      Dequeued(drained, pending);
      assert queue[|drained|] == h;
      FailConcat(ops, drained, h, status);
      UnfinishedConcat(ops, drained, h);
      pending := pending[1..];
      if !r[h].finished {
        r, ended := r[h := Failed(r[h], status)], ended + [h];
      }
      drained := drained + [h];
    }
    assert drained == queue;
  }

  // The same facts about one step, for an object that does not know how many ids it has issued.

  ghost predicate Reached(b: Broker) {
    exists issued: nat :: Inv(b, issued)
  }

  lemma StepValid(b: Broker, e: Event)
    requires Reached(b)
    ensures InRange(b) && Reached(Step(b, e))
  {
    var issued: nat :| Inv(b, issued);
    var issued' := StepInv(b, e, issued);
  }

  lemma ExpiredResult(b: Broker, h: Handle)
    requires Reached(b) && InRange(b) && h < |b.ops|
    ensures var r := Expire(b, h);
      && |r.ops| == |b.ops|
      && if b.ops[h].finished then r == b
         else r.gate.failedClosed && r.pending == [] && r.ops[h].result == Some(DeadlineExceeded)
  {
    var issued: nat :| Inv(b, issued);
    if !b.ops[h].finished { Expired(b, h, issued); }
  }

  lemma StartDecides(b: Broker, h: Handle)
    requires Reached(b) && InRange(b) && h in b.queued
    ensures h < |b.ops|
    ensures Start(b, h).checked == if b.ops[h].cancelled then [] else [h]
    ensures Start(b, h).active == if b.ops[h].cancelled then None else Some(h)
  {
    var issued: nat :| Inv(b, issued);
    OnlyActiveOutstanding(b, h);
    hide G.Complete, G.GateInv, Records;
  }

  lemma LaunchRuns(b: Broker, h: Handle)
    requires Reached(b) && InRange(b) && h in b.checked
    ensures Launch(b, h).running == [h] && Launch(b, h).active == Some(h)
  {
    var issued: nat :| Inv(b, issued);
    OnlyActiveOutstanding(b, h);
  }

  lemma FinishedResult(b: Broker, h: Handle, status: Status, dispatchOk: bool)
    requires Reached(b) && InRange(b) && h in b.running
    ensures var r := Finish(b, h, status, dispatchOk);
      && h < |b.ops| == |r.ops| && r.ops[h].finished
      && r.ops[h].result == if b.ops[h].cancelled then b.ops[h].result else Some(status)
  {
    var issued: nat :| Inv(b, issued);
    OnlyActiveOutstanding(b, h);
    Completed(b, h, issued);
    var idle := Idle(b, h, status);
    if idle.gate.active != 0 {
      NextReady(b, h, status, issued);
      var next := idle.(pending := b.pending[1..]);
      MadeActiveKeeps(next, b.pending[0], dispatchOk, h);
    }
    hide G.Complete, G.GateInv, Records, MakeActive;
  }

  lemma MadeActiveKeeps(b: Broker, h: Handle, dispatchOk: bool, x: Handle)
    requires InRange(b) && h < |b.ops| && x < |b.ops| && b.ops[x].finished && x != h
    ensures var r := MakeActive(b, h, dispatchOk); |r.ops| == |b.ops| && r.ops[x] == b.ops[x]
  {
    hide Unfinished, G.Complete;
  }

  // ------------------------------------------------------------- who gets which result

  /** The result an operation that is still open has after one step, and `None` if it stays open. */
  function ResultOf(b: Broker, e: Event, h: Handle): Option<Status> {
    match e
    case ExecuteEvent(onWorker, dispatchOk) =>
      if onWorker && h in b.pending then Some(BrokerFailedClosed)
      else if h == |b.ops| && b.active.None? && !dispatchOk then Some(DispatchFailed)
      else None
    case ExpireEvent(x) =>
      if x >= |b.ops| || b.ops[x].finished then None
      else if h == x then Some(DeadlineExceeded)
      else if h in b.pending then Some(BrokerFailedClosed)
      else None
    case FinishEvent(x, status, dispatchOk) =>
      if x !in b.running then None
      else if h == x then Some(status)
      else if dispatchOk || h !in b.pending then None
      else if h == b.pending[0] then Some(DispatchFailed)
      else Some(BrokerFailedClosed)
    case ShutdownEvent => if b.gate.shuttingDown then None else Some(BrokerShuttingDown)
    case _ => None
  }

  /** Exactly those results are given, and results already given stay. */
  ghost predicate GivesResults(b: Broker, e: Event, r: Broker) {
    && |b.ops| <= |r.ops| <= |b.ops| + 1
    && (forall h :: 0 <= h < |b.ops| && b.ops[h].finished ==> r.ops[h].result == b.ops[h].result)
    && (forall h :: 0 <= h < |b.ops| && !b.ops[h].finished ==> r.ops[h].result == ResultOf(b, e, h))
    && (|r.ops| > |b.ops| ==> e.ExecuteEvent? && !e.onWorker && r.ops[|b.ops|].result == ResultOf(b, e, |b.ops|))
  }

  lemma StepResults(b: Broker, e: Event, issued: nat)
    requires Inv(b, issued)
    ensures GivesResults(b, e, Step(b, e))
  {
    hide Execute, Expire, Finish, Shutdown, G.GateInv, QueueMirror, ActiveMirror, QueueIsTheRest, PromotedInOrder;
    match e
    case ExecuteEvent(onWorker, dispatchOk) => ExecuteResults(b, onWorker, dispatchOk, issued);
    case ExpireEvent(h) => ExpireResults(b, h, issued);
    case StartEvent(h) =>
    case LaunchEvent(h) =>
    case FinishEvent(h, status, dispatchOk) => FinishResults(b, h, status, dispatchOk, issued);
    case ShutdownEvent => ShutdownResults(b, issued);
  }

  lemma ExecuteResults(b: Broker, onWorker: bool, dispatchOk: bool, issued: nat)
    requires Inv(b, issued)
    ensures GivesResults(b, ExecuteEvent(onWorker, dispatchOk), Execute(b, onWorker, dispatchOk))
  {
    hide G.NextId, QueueIsTheRest, PromotedInOrder, Unfinished, FailAll, OneOutstanding;
    if onWorker {
      hide G.GateInv, QueueMirror, ActiveMirror;
    } else {
      var (gate, admission) := G.Admit(b.gate);
      assert admission.status == G.Started <==> !b.gate.shuttingDown && !b.gate.failedClosed && b.gate.active == 0;
      assert b.gate.active == 0 <==> b.active.None?;
      assert admission.status == G.Started ==> b.pending == [];
      hide G.GateInv, QueueMirror, ActiveMirror, G.Admit, G.Complete;
    }
  }

  lemma ExpireResults(b: Broker, h: Handle, issued: nat)
    requires Inv(b, issued)
    ensures GivesResults(b, ExpireEvent(h), Expire(b, h))
  {
    hide G.GateInv, G.Deadline, QueueMirror, ActiveMirror, QueueIsTheRest, PromotedInOrder, OneOutstanding;
    hide PendingOpen, Unfinished, FailAll;
    if h < |b.ops| && !b.ops[h].finished {
      assert Expire(b, h).ops == FailAll(b.ops[h := Failed(b.ops[h], DeadlineExceeded)], b.pending, BrokerFailedClosed);
    }
  }

  lemma ShutdownResults(b: Broker, issued: nat)
    requires Inv(b, issued)
    ensures GivesResults(b, ShutdownEvent, Shutdown(b))
  {
    hide G.GateInv, QueueMirror, ActiveMirror, QueueIsTheRest, PromotedInOrder, OneOutstanding;
    hide PendingOpen, Unfinished, FailAll;
  }

  /** A report ends its operation and makes the head of the queue active, if there is one. */
  lemma FinishIs(b: Broker, h: Handle, status: Status, dispatchOk: bool, issued: nat)
    requires Inv(b, issued) && h in b.running
    ensures b.active == Some(h) && InRange(b)
    ensures var idle := Idle(b, h, status);
      Finish(b, h, status, dispatchOk)
      == if b.pending == [] then idle else MakeActive(idle.(pending := b.pending[1..]), b.pending[0], dispatchOk)
  {
    OnlyActiveOutstanding(b, h);
    Completed(b, h, issued);
    hide G.GateInv, G.Complete, QueueMirror, ActiveMirror, QueueIsTheRest, PromotedInOrder, OneOutstanding, Records;
    hide MakeActive, Remove, FailPending;
  }

  lemma FinishResults(b: Broker, h: Handle, status: NativeStatus, dispatchOk: bool, issued: nat)
    requires Inv(b, issued)
    ensures GivesResults(b, FinishEvent(h, status, dispatchOk), Finish(b, h, status, dispatchOk))
  {
    hide Finish;
    assert InRange(b) && (h in b.running ==> h < |b.ops|);
    hide Inv, InRange, ResultOf;
    if h in b.running {
      ReportResults(b, h, status, dispatchOk, issued);
      FinishedKeep(b, h, issued);
      OpenHasNoResult(b, issued);
      forall x | 0 <= x < |b.ops| && !b.ops[x].finished
        ensures Finish(b, h, status, dispatchOk).ops[x].result == ResultOf(b, FinishEvent(h, status, dispatchOk), x)
      {
        ReportedResult(b, h, status, dispatchOk, x);
      }
    } else {
      NoReport(b, h, status, dispatchOk);
      SilentResults(b, h, status, dispatchOk, issued);
    }
  }

  lemma ReportedResult(b: Broker, h: Handle, status: NativeStatus, dispatchOk: bool, x: Handle)
    requires h in b.running
    ensures ResultOf(b, FinishEvent(h, status, dispatchOk), x)
         == if x == h then Some(status)
            else if dispatchOk || x !in b.pending then None
            else if x == b.pending[0] then Some(DispatchFailed)
            else Some(BrokerFailedClosed)
  {
  }

  lemma SilentResults(b: Broker, h: Handle, status: NativeStatus, dispatchOk: bool, issued: nat)
    requires Inv(b, issued) && h !in b.running
    ensures GivesResults(b, FinishEvent(h, status, dispatchOk), b)
  {
    OpenHasNoResult(b, issued);
    hide Inv;
  }

  lemma FinishedKeep(b: Broker, h: Handle, issued: nat)
    requires Inv(b, issued) && h in b.running
    ensures forall x :: 0 <= x < |b.ops| && b.ops[x].finished ==> x !in b.pending
  {
    ReporterIsNotWaiting(b, h, issued);
  }

  lemma ReportResults(b: Broker, h: Handle, status: NativeStatus, dispatchOk: bool, issued: nat)
    requires Inv(b, issued) && InRange(b) && h in b.running && h < |b.ops|
    ensures var r := Finish(b, h, status, dispatchOk);
      && |r.ops| == |b.ops| && (forall x :: x in b.pending ==> x < |b.ops|)
      && r.ops[h].result == (if b.ops[h].finished then b.ops[h].result else Some(status))
      && forall x :: 0 <= x < |b.ops| && x != h ==>
           r.ops[x].result == if dispatchOk || x !in b.pending then b.ops[x].result
                              else if x == b.pending[0] then Some(DispatchFailed)
                              else Some(BrokerFailedClosed)
  {
    hide Finish, Inv, MakeActive, Idle;
    FinishIs(b, h, status, dispatchOk, issued);
    ReporterIsNotWaiting(b, h, issued);
    IdleResults(b, h, status);
    if b.pending != [] {
      var head, rest := b.pending[0], b.pending[1..];
      ActivatedResults(Idle(b, h, status).(pending := rest), head, dispatchOk);
      assert forall x :: x in b.pending <==> x == head || x in rest;
    }
  }

  lemma OpenHasNoResult(b: Broker, issued: nat)
    requires Inv(b, issued)
    ensures forall h :: 0 <= h < |b.ops| && !b.ops[h].finished ==> b.ops[h].result == None && !b.ops[h].cancelled
  {
  }

  lemma ReporterIsNotWaiting(b: Broker, h: Handle, issued: nat)
    requires Inv(b, issued) && h in b.running
    ensures h < |b.ops| && h !in b.pending && (b.ops[h].finished <==> b.ops[h].cancelled)
    ensures forall x :: x in b.pending ==> x < |b.ops| && !b.ops[x].finished
  {
    OnlyActiveOutstanding(b, h);
  }

  lemma IdleResults(b: Broker, h: Handle, status: Status)
    requires InRange(b) && h < |b.ops| && (b.ops[h].finished <==> b.ops[h].cancelled)
    ensures var r := Idle(b, h, status);
      && |r.ops| == |b.ops| && r.ops[h].finished
      && r.ops[h].result == (if b.ops[h].finished then b.ops[h].result else Some(status))
      && forall x :: 0 <= x < |b.ops| && x != h ==> r.ops[x] == b.ops[x]
  {
    hide G.Complete, Remove;
  }

  lemma NoReport(b: Broker, h: Handle, status: Status, dispatchOk: bool)
    requires InRange(b) && h !in b.running
    ensures Finish(b, h, status, dispatchOk) == b
  {
  }

  lemma ActivatedResults(b: Broker, h: Handle, dispatchOk: bool)
    requires InRange(b) && h < |b.ops|
    ensures var r := MakeActive(b, h, dispatchOk);
      && |r.ops| == |b.ops|
      && forall x :: 0 <= x < |b.ops| ==>
           r.ops[x].result == if dispatchOk then b.ops[x].result
                              else if x == h then Some(DispatchFailed)
                              else if x in b.pending && !b.ops[x].finished then Some(BrokerFailedClosed)
                              else b.ops[x].result
  {
    hide Unfinished, G.Complete, G.Close;
  }

  lemma GivenResults(b: Broker, e: Event)
    requires Reached(b)
    ensures InRange(b) && GivesResults(b, e, Step(b, e))
  {
    var issued: nat :| Inv(b, issued);
    StepResults(b, e, issued);
  }

  lemma ShutdownEnds(b: Broker)
    requires Reached(b) && InRange(b)
    ensures var r := Shutdown(b);
      && r.gate.failedClosed && r.pending == []
      && (!b.gate.shuttingDown ==> forall x :: 0 <= x < |r.ops| ==> r.ops[x].finished)
  {
    var issued: nat :| Inv(b, issued);
    if b.gate.shuttingDown {
      ShutMeansClosed(b.gate, issued);
      ClosedQueue(b, issued);
    } else {
      hide Shutdown, QueueMirror, G.GateInv, ActiveMirror, OneOutstanding, PromotedInOrder, QueueIsTheRest, PendingOpen;
      EveryoneEnds(b);
    }
  }

  lemma EveryoneEnds(b: Broker)
    requires InRange(b) && !b.gate.shuttingDown
    requires forall h :: 0 <= h < |b.ops| && !b.ops[h].finished ==> b.active == Some(h) || h in b.pending
    ensures var r := Shutdown(b);
      r.gate.failedClosed && r.pending == [] && forall x :: 0 <= x < |r.ops| ==> r.ops[x].finished
  {
    hide Unfinished;
  }

  lemma ShutMeansClosed(g: G.Gate, issued: nat)
    requires G.GateInv(g, issued) && g.shuttingDown
    ensures g.failedClosed
  {
  }

  /** The broker as an object: each method is one critical section. */
  class SharedBroker {
    const gate: G.KeychainBrokerGate
    var pendingOperations: seq<Handle>
    var activeOperation: Option<Handle>
    var operations: seq<Operation>
    var queuedStarts: seq<Handle>
    var checkedStarts: seq<Handle>
    var nativeJobs: seq<Handle>
    ghost var promoted: seq<Handle>
    ghost var native: seq<Handle>
    ghost var written: seq<Handle>
    ghost var surprises: nat

    ghost function View(): Broker
      reads this, gate
    {
      Broker(gate.View(), pendingOperations, activeOperation, operations, queuedStarts, checkedStarts, nativeJobs,
             promoted, native, written, surprises)
    }

    /** The invariant of every interleaving, for some number of ids issued so far. */
    ghost predicate Valid()
      reads this, gate
    {
      Reached(View())
    }

    /** The capacity is a C++ int. */
    constructor (maximum: int)
      requires maximum <= 0x7fff_ffff
      ensures View() == Initial(maximum) && Valid() && fresh(gate)
    {
      gate := new G.KeychainBrokerGate(maximum);
      pendingOperations, activeOperation, operations := [], None, [];
      queuedStarts, checkedStarts, nativeJobs := [], [], [];
      promoted, native, written, surprises := [], [], [], 0;
      new;
      var _ := RunInv(View(), [], 0);
    }

    method FailPendingLocked(status: Status)
      requires InRange(View())
      modifies this
      ensures View() == FailPending(old(View()), status)
    {
      ghost var ended;
      operations, ended := FailQueue(operations, pendingOperations, status);
      pendingOperations, written := [], written + ended;
    }

    method FailActiveDispatchLocked(h: Handle)
      requires InRange(View()) && h < |operations|
      modifies this, gate
      ensures View() == FailActiveDispatch(old(View()), h)
    {
      gate.FailClosed();
      var _ := gate.CompleteAndStartNext(operations[h].id);
      if activeOperation.Some? && operations[activeOperation.value].id == operations[h].id {
        activeOperation := None;
      }
      operations := operations[h := Failed(operations[h], DispatchFailed)];
      written := written + [h];
      FailPendingLocked(BrokerFailedClosed);
    }

    method Activate(h: Handle, dispatchOk: bool)
      requires InRange(View()) && h < |operations|
      modifies this, gate
      ensures View() == MakeActive(old(View()), h, dispatchOk)
    {
      activeOperation := Some(h);
      promoted := promoted + [h];
      if dispatchOk {
        queuedStarts := queuedStarts + [h];
      } else {
        FailActiveDispatchLocked(h);
      }
    }

    /** Entering the broker; a caller that is not refused goes on to wait for the new operation. */
    method Enter(onWorker: bool, dispatchOk: bool) returns (refusal: Option<Status>)
      requires Valid()
      modifies this, gate
      ensures Valid() && View() == Execute(old(View()), onWorker, dispatchOk)
      ensures refusal.None? <==> |operations| == old(|operations|) + 1
      ensures onWorker ==> refusal == Some(DispatchFailed)
      ensures !onWorker && refusal.Some? ==>
                refusal.value == if old(gate.shuttingDown) then BrokerShuttingDown
                                 else if old(gate.failedClosed) then BrokerFailedClosed
                                 else QueueCapacityExceeded
      ensures old(|operations|) <= |operations|
      ensures refusal.None? && |operations| == old(|operations|) + 1 ==>
                operations[old(|operations|)].result
                == if old(activeOperation).None? && !dispatchOk then Some(DispatchFailed) else None
      ensures forall x :: 0 <= x < old(|operations|) && !old(operations)[x].finished ==>
                operations[x].result
                == if onWorker && x in old(pendingOperations) then Some(BrokerFailedClosed) else None
    {
      hide Inv, Execute;
      StepValid(View(), ExecuteEvent(onWorker, dispatchOk));
      GivenResults(View(), ExecuteEvent(onWorker, dispatchOk));
      refusal := Admit(onWorker, dispatchOk);
    }

    method Admit(onWorker: bool, dispatchOk: bool) returns (refusal: Option<Status>)
      requires InRange(View())
      modifies this, gate
      ensures View() == Execute(old(View()), onWorker, dispatchOk)
      ensures refusal.None? <==> |operations| == old(|operations|) + 1
      ensures onWorker ==> refusal == Some(DispatchFailed)
      ensures !onWorker && refusal.Some? ==>
                refusal.value == if old(gate.shuttingDown) then BrokerShuttingDown
                                 else if old(gate.failedClosed) then BrokerFailedClosed
                                 else QueueCapacityExceeded
    {
      if onWorker {
        gate.FailClosed();
        FailPendingLocked(BrokerFailedClosed);
        return Some(DispatchFailed);
      }
      var admission := gate.AdmitOperation();
      match admission.status {
        case QueueFull => return Some(QueueCapacityExceeded);
        case RefusedClosed => return Some(BrokerFailedClosed);
        case RefusedShutdown => return Some(BrokerShuttingDown);
        case _ =>
      }
      var h := |operations|;
      operations := operations + [Operation(admission.id, false, false, None)];
      if admission.status == G.Queued {
        pendingOperations := pendingOperations + [h];
      } else {
        Activate(h, dispatchOk);
      }
      return None;
    }

    /** The waiting caller's deadline has passed; a result that is there is kept, otherwise the broker closes. */
    method DeadlineReached(h: Handle)
      requires Valid() && h < |operations|
      modifies this, gate
      ensures Valid() && View() == Expire(old(View()), h)
      ensures if old(operations[h].finished) then View() == old(View())
              else gate.failedClosed && pendingOperations == [] && operations[h].result == Some(DeadlineExceeded)
    {
      hide Inv, Expire;
      StepValid(View(), ExpireEvent(h));
      ExpiredResult(View(), h);
      Abort(h);
    }

    method Abort(h: Handle)
      requires InRange(View())
      modifies this, gate
      ensures View() == Expire(old(View()), h)
    {
      if h >= |operations| || operations[h].finished {
        return;
      }
      operations := operations[h := Failed(operations[h], DeadlineExceeded)];
      written := written + [h];
      var known := gate.DeadlineExceeded(operations[h].id);
      if !known {
        gate.FailClosed();
        surprises := surprises + 1;
      }
      FailPendingLocked(BrokerFailedClosed);
    }

    /** A start call arrives: it passes its check exactly if the operation is not cancelled, and else makes room. */
    method StartOperation(h: Handle)
      requires Valid() && h in queuedStarts
      modifies this, gate
      ensures Valid() && View() == Start(old(View()), h)
      ensures checkedStarts == if old(operations)[h].cancelled then [] else [h]
      ensures activeOperation == if old(operations)[h].cancelled then None else Some(h)
    {
      hide Inv, Start;
      StepValid(View(), StartEvent(h));
      StartDecides(View(), h);
      Check(h);
    }

    method Check(h: Handle)
      requires InRange(View()) && h in queuedStarts
      modifies this, gate
      ensures View() == Start(old(View()), h)
    {
      queuedStarts := Remove(queuedStarts, h, |operations|);
      var current := activeOperation.Some? && operations[activeOperation.value].id == operations[h].id;
      if operations[h].cancelled || !current {
        if current {
          var _ := gate.CompleteAndStartNext(operations[h].id);
          activeOperation := None;
        } else {
          surprises := surprises + 1;
        }
        return;
      }
      checkedStarts := checkedStarts + [h];
    }

    /** After the mutex is released the native job starts, also if its caller has given up in between. */
    method StartJob(h: Handle)
      requires Valid() && h in checkedStarts
      modifies this
      ensures Valid() && View() == Launch(old(View()), h)
      ensures nativeJobs == [h] && activeOperation == Some(h) && native == old(native) + [h]
    {
      hide Inv;
      StepValid(View(), LaunchEvent(h));
      LaunchRuns(View(), h);
      checkedStarts := Remove(checkedStarts, h, |operations|);
      nativeJobs, native := nativeJobs + [h], native + [h];
    }

    /** A native job reports: its caller gets this status unless it was ended before, and the next one follows. */
    method FinishOperation(h: Handle, status: NativeStatus, dispatchOk: bool)
      requires Valid() && h in nativeJobs
      modifies this, gate
      ensures Valid() && View() == Finish(old(View()), h, status, dispatchOk)
      ensures h < |operations| && operations[h].finished
      ensures operations[h].result == if old(operations)[h].cancelled then old(operations)[h].result else Some(status)
      ensures |operations| == old(|operations|)
      ensures forall x :: 0 <= x < |operations| && x != h && !old(operations)[x].finished ==>
                operations[x].result == if dispatchOk || x !in old(pendingOperations) then None
                                        else if x == old(pendingOperations)[0] then Some(DispatchFailed)
                                        else Some(BrokerFailedClosed)
    {
      hide Inv, Finish;
      StepValid(View(), FinishEvent(h, status, dispatchOk));
      GivenResults(View(), FinishEvent(h, status, dispatchOk));
      FinishedResult(View(), h, status, dispatchOk);
      Report(h, status, dispatchOk);
    }

    method Report(h: Handle, status: Status, dispatchOk: bool)
      requires InRange(View()) && h in nativeJobs
      modifies this, gate
      ensures View() == Finish(old(View()), h, status, dispatchOk)
    {
      hide Advance, Remove, G.Complete;
      nativeJobs := Remove(nativeJobs, h, |operations|);
      if activeOperation.None? || operations[activeOperation.value].id != operations[h].id {
        surprises := surprises + 1;
        return;
      }
      var op := operations[h];
      if !op.cancelled {
        op := op.(result := Some(status));
        written := written + [h];
      }
      operations := operations[h := op.(finished := true)];
      var completion := gate.CompleteAndStartNext(op.id);
      activeOperation := None;
      AdvanceLocked(completion, dispatchOk);
    }

    method AdvanceLocked(completion: G.Completion, dispatchOk: bool)
      requires InRange(View())
      modifies this, gate
      ensures View() == Advance(old(View()), completion, dispatchOk)
    {
      hide FailPending, MakeActive, G.Complete, G.Close;
      if !completion.accepted || completion.next == 0 {
        return;
      }
      if pendingOperations == [] || operations[pendingOperations[0]].id != completion.next {
        gate.FailClosed();
        var _ := gate.CompleteAndStartNext(completion.next);
        surprises := surprises + 1;
        FailPendingLocked(BrokerFailedClosed);
        return;
      }
      var next := pendingOperations[0];
      pendingOperations := pendingOperations[1..];
      Activate(next, dispatchOk);
    }

    /** Whenever it is asked for, the broker is closed afterwards and nobody is left waiting. */
    method BeginShutdown()
      requires Valid()
      modifies this, gate
      ensures Valid() && View() == Shutdown(old(View()))
      ensures gate.failedClosed && pendingOperations == []
      ensures |operations| == old(|operations|)
      ensures !old(gate.shuttingDown) ==> forall x :: 0 <= x < |operations| ==> operations[x].finished
      ensures !old(gate.shuttingDown) ==> forall x :: 0 <= x < |operations| ==>
                operations[x].result == if old(operations)[x].finished then old(operations)[x].result
                                        else Some(BrokerShuttingDown)
    {
      hide Inv, Shutdown;
      StepValid(View(), ShutdownEvent);
      GivenResults(View(), ShutdownEvent);
      ShutdownEnds(View());
      Close();
    }

    method Close()
      requires InRange(View())
      modifies this, gate
      ensures View() == Shutdown(old(View()))
    {
      var first := gate.BeginShutdown();
      if !first {
        return;
      }
      if activeOperation.Some? && !operations[activeOperation.value].finished {
        operations := operations[activeOperation.value := Failed(operations[activeOperation.value], BrokerShuttingDown)];
        written := written + [activeOperation.value];
      }
      FailPendingLocked(BrokerShuttingDown);
    }
  }
}
