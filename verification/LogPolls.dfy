/**
 What one poll of the log uploader does, exactly: whether it stops, sends, confirms or only saves, from what the
 source shows and what the saved cursor says.
 */
module LogPolls {
  import opened Options
  import opened LogUploader

  // ------------------------------------------------------------------- what a poll finds

  predicate Works(u: Uploader) { u.mode == Pending || u.mode == Healthy }

  /** The target is another one than the cursor was kept for. */
  predicate Retargeted(u: Uploader, s: Scan) {
    u.memory.binding != "" && u.memory.binding != s.binding
  }

  /** The cursor the poll starts from: a new target has none. */
  function Cursor(u: Uploader, s: Scan): Durable {
    if Retargeted(u, s) then Durable(0, "", false, false, 0, "", "", s.binding, "") else u.memory.(binding := s.binding)
  }

  predicate Replaced(d: Durable, s: Scan) {
    d.identity != "" && d.identity != s.identity
  }

  /** What the source shows cannot be reconciled with the cursor. */
  predicate Irreconcilable(d: Durable, s: Scan) {
    if Replaced(d, s) then d.awaitingStable || s.size >= d.offset
    else
      || (d.anchor != "" && d.offset <= s.size && s.anchorAt(d.offset) != Some(d.anchor))
      || (d.awaitingStable && (d.fingerprint != s.fingerprint || d.offset > s.size))
  }

  /** A new epoch: the source was replaced, rewritten or truncated, or there was no cursor for it. */
  predicate NewEpoch(d: Durable, s: Scan) {
    Replaced(d, s) || d.fingerprint != s.fingerprint || d.offset > s.size
  }

  /** The poll gets as far as its source. */
  predicate Recognises(u: Uploader, s: Scan) {
    && Works(u) && s.readable && (Retargeted(u, s) ==> s.quarantined)
    && !Irreconcilable(Cursor(u, s), s)
  }

  /** Where it reads from: a new epoch starts at most a mebibyte before the end. */
  function Start(u: Uploader, s: Scan): nat {
    if NewEpoch(Cursor(u, s), s) then (if s.size > 1048576 then s.size - 1048576 else 0) else Cursor(u, s).offset
  }

  /** Where a batch from there ends: at most 15 mebibytes later. */
  function End(u: Uploader, s: Scan): nat {
    if Start(u, s) + 15728640 < s.size then Start(u, s) + 15728640 else s.size
  }

  predicate Awaits(u: Uploader, s: Scan) {
    !NewEpoch(Cursor(u, s), s) && Cursor(u, s).awaitingStable
  }

  /** The chunk would have to be redacted. */
  predicate Redacts(u: Uploader, s: Scan) {
    NewEpoch(Cursor(u, s), s) || Cursor(u, s).redactNext || Cursor(u, s).awaitingStable
  }

  predicate Sends(u: Uploader, s: Scan) {
    Recognises(u, s) && Start(u, s) < s.size && s.anchorAt(End(u, s)).Some?
  }

  /** The source has not moved since the last batch. */
  predicate ConfirmsNow(u: Uploader, s: Scan) {
    Recognises(u, s) && Awaits(u, s) && Start(u, s) == s.size && s.anchorAt(s.size).Some?
  }

  // -------------------------------------------------------------------------- the poll

  lemma CursorIs(u: Uploader, s: Scan)
    ensures Bound(u.memory, s) == Cursor(u, s)
  {
  }

  /** The state after the source was recognised, from the fields. */
  lemma ExaminedIff(d: Durable, s: Scan)
    requires Plausible(s) && Sane(d)
    ensures Examined(d, s).Some? <==> !Irreconcilable(d, s)
    ensures Examined(d, s).Some? ==>
              var e := Examined(d, s).value;
              && e.fingerprint == s.fingerprint && e.identity == s.identity && e.binding == d.binding
              && e.offset == (if NewEpoch(d, s) then Tail(s.size) else d.offset)
              && e.awaitingStable == (!NewEpoch(d, s) && d.awaitingStable)
              && e.redactNext == (NewEpoch(d, s) || d.redactNext)
              && (!NewEpoch(d, s) ==> e == d.(identity := s.identity))
  {
  }

  /**
   A poll sends exactly if it recognises its source, finds something behind its cursor and can read the anchor at
   the end of the batch. The batch starts at the cursor, or near the end of a new epoch, has at most 15 mebibytes,
   and is redacted in a new epoch, after an unconfirmed batch, or where redaction was left over.
   */
  lemma SendsIff(u: Uploader, s: Scan)
    requires Inv(u) && Plausible(s)
    ensures var r := Poll(u, s);
      if Sends(u, s) then
        && |r.sends| == |u.sends| + 1 && r.sends[..|u.sends|] == u.sends
        && var b := r.sends[|u.sends|];
           && b.start == Start(u, s) && b.end == End(u, s) && b.fingerprint == s.fingerprint
           && (b.redacted <==> Redacts(u, s)) && b.accepted == s.accepted
           && (b.recorded <==> s.accepted && !s.saved.NotWritten?)
      else r.sends == u.sends
  {
    hide Examined, Plausible, Inv, Proceed;
    CursorIs(u, s);
    SaneCursor(u, s);
    ExaminedIff(Cursor(u, s), s);
    if Recognises(u, s) { ProceedSends(Bounded(u, s), Examined(Cursor(u, s), s).value, s); }
  }

  /** The uploader once a new target has made it forget its state. */
  function Bounded(u: Uploader, s: Scan): Uploader {
    if Retargeted(u, s) then u.(memory := Cursor(u, s), disk := None) else u
  }

  lemma SaneCursor(u: Uploader, s: Scan)
    requires Inv(u) && Plausible(s)
    ensures Sane(Cursor(u, s))
  {
  }

  lemma ProceedSends(u: Uploader, d: Durable, s: Scan)
    requires d.offset <= s.size && d.fingerprint == s.fingerprint
    ensures var r, end := Proceed(u, d, s), BatchEnd(d, s);
      if d.offset < s.size && s.anchorAt(end).Some? then
        r.sends == u.sends + [Batch(d.offset, end, s.fingerprint, d.redactNext || d.awaitingStable, s.accepted,
                                    (d.offset, s.fingerprint) in u.stable, s.accepted && !s.saved.NotWritten?)]
      else r.sends == u.sends
  {
  }

  /**
   A poll ends healthy, having confirmed the cursor, exactly if the source is where the last batch left it and the
   state can be saved.
   */
  lemma HealthyIff(u: Uploader, s: Scan)
    requires Inv(u) && Plausible(s)
    ensures Poll(u, s).mode == Healthy <==> ConfirmsNow(u, s) && s.saved.Saved?
    ensures Poll(u, s).stable
         == u.stable + (if ConfirmsNow(u, s) && !s.saved.NotWritten? then {(s.size, s.fingerprint)} else {})
  {
    hide Examined, Plausible, Inv;
    CursorIs(u, s);
    SaneCursor(u, s);
    ExaminedIff(Cursor(u, s), s);
  }

  /**
   A working uploader stops exactly if it cannot read its source or set a foreign state aside, cannot reconcile the
   source with its cursor, misses an anchor, is refused, or cannot save; and it never starts again by itself.
   */
  lemma StopsIff(u: Uploader, s: Scan)
    requires Inv(u) && Plausible(s)
    ensures !Works(u) ==> Poll(u, s) == u
    ensures Works(u) ==>
      (Poll(u, s).mode == Error
       <==> || !Recognises(u, s)
            || s.anchorAt(if Start(u, s) < s.size then End(u, s) else s.size).None?
            || (Start(u, s) < s.size && !s.accepted)
            || !s.saved.Saved?)
  {
    hide Examined, Plausible, Inv;
    CursorIs(u, s);
    SaneCursor(u, s);
    ExaminedIff(Cursor(u, s), s);
  }

  /** What is kept in memory after a poll that does not stop is on the disk, and says where and what was read. */
  lemma KeepsCursor(u: Uploader, s: Scan)
    requires Inv(u) && Plausible(s) && Works(u)
    ensures var r := Poll(u, s);
      r.mode != Error ==>
        && r.disk == Some(r.memory) && r.memory.fingerprint == s.fingerprint && r.memory.identity == s.identity
        && r.memory.binding == s.binding && r.memory.highWater >= r.memory.offset
        && r.memory.offset == (if Sends(u, s) then End(u, s) else Start(u, s))
        && s.anchorAt(r.memory.offset) == Some(r.memory.anchor)
        && r.memory.awaitingStable == Sends(u, s)
        && r.memory.redactNext == (if Sends(u, s) then false else NewEpoch(Cursor(u, s), s) || Cursor(u, s).redactNext)
  {
    hide Examined, Plausible, Inv, Proceed, Poll;
    PollInv(u, s);
    PollIs(u, s);
    SaneCursor(u, s);
    ExaminedIff(Cursor(u, s), s);
    SaneMemory(Poll(u, s));
    if Recognises(u, s) { ProceedKeeps(Bounded(u, s), Examined(Cursor(u, s), s).value, s); }
  }

  /** Up to the source: the poll goes on from there, or stops with nothing sent or saved. */
  lemma PollIs(u: Uploader, s: Scan)
    requires Inv(u) && Plausible(s)
    ensures Examined(Cursor(u, s), s).Some? <==> !Irreconcilable(Cursor(u, s), s)
    ensures Recognises(u, s) ==> Poll(u, s) == Proceed(Bounded(u, s), Examined(Cursor(u, s), s).value, s)
    ensures Works(u) && !Recognises(u, s) ==>
              Poll(u, s) == (if s.readable && Retargeted(u, s) && s.quarantined then Bounded(u, s) else u).(mode := Error)
    ensures !Works(u) ==> Poll(u, s) == u
  {
    hide Examined, Plausible, Inv, Proceed;
    CursorIs(u, s);
    SaneCursor(u, s);
    ExaminedIff(Cursor(u, s), s);
  }

  lemma ProceedKeeps(u: Uploader, d: Durable, s: Scan)
    requires d.offset <= s.size && d.fingerprint == s.fingerprint && d.identity == s.identity && d.binding == s.binding
    ensures var r, sends := Proceed(u, d, s), d.offset < s.size && s.anchorAt(BatchEnd(d, s)).Some?;
      r.mode != Error && u.mode != Error ==>
        && r.disk == Some(r.memory) && r.memory.fingerprint == s.fingerprint && r.memory.identity == s.identity
        && r.memory.binding == s.binding
        && r.memory.offset == (if sends then BatchEnd(d, s) else d.offset)
        && s.anchorAt(r.memory.offset) == Some(r.memory.anchor)
        && r.memory.awaitingStable == sends && r.memory.redactNext == (!sends && d.redactNext)
  {
  }

  lemma SaneMemory(u: Uploader)
    requires Inv(u)
    ensures u.memory.offset <= u.memory.highWater
  {
  }

  // ------------------------------------------------------------------------ whole runs

  /** Some poll of the run saw the source with just this size and fingerprint. */
  predicate SawAt(events: seq<Event>, i: nat, size: nat, fingerprint: string) {
    i < |events| && events[i].PollEvent? && events[i].scan.size == size && events[i].scan.fingerprint == fingerprint
  }

  /** The cursor reached the end of a batch sent before, with the fingerprint it was sent with. */
  predicate EndedAt(sends: seq<Batch>, k: nat, end: nat, fingerprint: string) {
    k < |sends| && sends[k].end == end && sends[k].fingerprint == fingerprint && sends[k].recorded
  }

  ghost predicate Witnessed(sends: seq<Batch>, events: seq<Event>, mark: (nat, string)) {
    && (exists i: nat :: SawAt(events, i, mark.0, mark.1))
    && (exists k: nat :: EndedAt(sends, k, mark.0, mark.1))
  }

  /** A cursor that awaits confirmation is the end of a recorded batch. */
  ghost predicate FromBatch(d: Durable, sends: seq<Batch>) {
    d.awaitingStable ==> exists k: nat :: EndedAt(sends, k, d.offset, d.fingerprint)
  }

  ghost predicate Traced(u: Uploader, events: seq<Event>) {
    && FromBatch(u.memory, u.sends) && (u.disk.Some? ==> FromBatch(u.disk.value, u.sends))
    && (forall mark :: mark in u.stable ==> Witnessed(u.sends, events, mark))
  }

  lemma MoreEvents(sends: seq<Batch>, more: seq<Batch>, events: seq<Event>, e: Event, mark: (nat, string))
    requires Witnessed(sends, events, mark) && sends <= more
    ensures Witnessed(more, events + [e], mark)
  {
    var i: nat :| SawAt(events, i, mark.0, mark.1);
    assert (events + [e])[i] == events[i];
    assert SawAt(events + [e], i, mark.0, mark.1);
    var k: nat :| EndedAt(sends, k, mark.0, mark.1);
    assert EndedAt(more, k, mark.0, mark.1);
  }

  lemma MoreSends(d: Durable, sends: seq<Batch>, more: seq<Batch>)
    requires FromBatch(d, sends) && sends <= more
    ensures FromBatch(d, more)
  {
    if d.awaitingStable {
      var k: nat :| EndedAt(sends, k, d.offset, d.fingerprint);
      assert EndedAt(more, k, d.offset, d.fingerprint);
    }
  }

  /** What a poll saves: the cursor it had, or the end of the batch it has just sent and recorded. */
  lemma SavedFrom(u: Uploader, s: Scan)
    requires Inv(u) && Plausible(s)
    ensures var r, n := Poll(u, s), |u.sends|;
      && u.sends <= r.sends
      && (r.memory == u.memory || !r.memory.awaitingStable || EndedAt(r.sends, n, r.memory.offset, r.memory.fingerprint))
      && (r.disk.None? || r.disk == u.disk || !r.disk.value.awaitingStable
          || EndedAt(r.sends, n, r.disk.value.offset, r.disk.value.fingerprint))
  {
    hide Examined, Plausible, Inv, Proceed, Poll;
    PollIs(u, s);
    SaneCursor(u, s);
    ExaminedIff(Cursor(u, s), s);
    if Recognises(u, s) { ProceedSaves(Bounded(u, s), Examined(Cursor(u, s), s).value, s); }
  }

  lemma ProceedSaves(u: Uploader, d: Durable, s: Scan)
    requires d.offset <= s.size && d.fingerprint == s.fingerprint
    ensures var r, n := Proceed(u, d, s), |u.sends|;
      && u.sends <= r.sends
      && (r.memory == u.memory || !r.memory.awaitingStable || EndedAt(r.sends, n, r.memory.offset, r.memory.fingerprint))
      && (r.disk.None? || r.disk == u.disk || !r.disk.value.awaitingStable
          || EndedAt(r.sends, n, r.disk.value.offset, r.disk.value.fingerprint))
  {
  }

  lemma PollTraced(u: Uploader, s: Scan, events: seq<Event>)
    requires Inv(u) && Plausible(s) && Traced(u, events)
    ensures Traced(Poll(u, s), events + [PollEvent(s)])
  {
    hide Poll, Inv, Plausible, Witnessed;
    var r := Poll(u, s);
    SavedFrom(u, s);
    HealthyIff(u, s);
    MoreSends(u.memory, u.sends, r.sends);
    if u.disk.Some? { MoreSends(u.disk.value, u.sends, r.sends); }
    forall mark | mark in r.stable
      ensures Witnessed(r.sends, events + [PollEvent(s)], mark)
    {
      if mark in u.stable {
        MoreEvents(u.sends, r.sends, events, PollEvent(s), mark);
      } else {
        ConfirmWitnessed(u, s, events, r.sends);
      }
    }
  }

  lemma ConfirmWitnessed(u: Uploader, s: Scan, events: seq<Event>, sends: seq<Batch>)
    requires ConfirmsNow(u, s) && FromBatch(u.memory, sends)
    ensures Witnessed(sends, events + [PollEvent(s)], (s.size, s.fingerprint))
  {
    assert SawAt(events + [PollEvent(s)], |events|, s.size, s.fingerprint);
  }

  lemma RestartTraced(u: Uploader, binding: string, events: seq<Event>)
    requires Traced(u, events)
    ensures Traced(Restart(u, binding), events + [RestartEvent(binding)])
  {
    hide Witnessed;
    forall mark | mark in u.stable
      ensures Witnessed(u.sends, events + [RestartEvent(binding)], mark)
    {
      MoreEvents(u.sends, u.sends, events, RestartEvent(binding), mark);
    }
  }

  lemma {:induction false} RunLast(u: Uploader, events: seq<Event>, e: Event)
    ensures Run(u, events + [e]) == Step(Run(u, events), e)
    decreases |events|
  {
    hide Step;
    if events == [] {
      assert [e][1..] == [];
    } else {
      assert (events + [e])[1..] == events[1..] + [e];
      RunLast(Step(u, events[0]), events[1..], e);
    }
  }

  lemma {:induction false} RunTraced(events: seq<Event>)
    requires forall i :: 0 <= i < |events| ==> Possible(events[i])
    ensures Traced(Run(FIRST_START, events), events) && Inv(Run(FIRST_START, events))
    decreases |events|
  {
    RunInv(FIRST_START, events);
    if events != [] {
      var n := |events| - 1;
      var u, e := Run(FIRST_START, events[..n]), events[n];
      assert events == events[..n] + [e];
      RunTraced(events[..n]);
      RunLast(FIRST_START, events[..n], e);
      hide Run, Traced, Poll, Restart, Inv;
      match e
      case PollEvent(s) => PollTraced(u, s, events[..n]);
      case RestartEvent(binding) => RestartTraced(u, binding, events[..n]);
    }
  }

  /**
   In every run, a cursor counts as stable only if a batch was recorded up to it and a look at the source found
   nothing behind that batch, under the same fingerprint.
   */
  lemma StableWasSeen(events: seq<Event>, size: nat, fingerprint: string)
    requires forall i :: 0 <= i < |events| ==> Possible(events[i])
    ensures (size, fingerprint) in Run(FIRST_START, events).stable ==>
              && (exists i: nat :: SawAt(events, i, size, fingerprint))
              && (exists k: nat :: EndedAt(Run(FIRST_START, events).sends, k, size, fingerprint))
  {
    RunTraced(events);
    hide Run;
    if (size, fingerprint) in Run(FIRST_START, events).stable {
      assert Witnessed(Run(FIRST_START, events).sends, events, (size, fingerprint));
    }
  }
}
