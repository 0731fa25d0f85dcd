/**
 The durable cursor of the headless log uploader. A poll looks at the source file, works on a copy of its
 state, and saves it before relying on it. A chunk may be sent as it is only when the uploader can show that
 the source has not been replaced under it; otherwise the chunk is replaced by a redaction mark.
 */
module LogUploader {
  import opened Options

  const MAXIMUM_BATCH := 15 * 1024 * 1024
  const REBIND_TAIL := 1024 * 1024

  /** `sanitizer` is the continuation of the log sanitizer, opaque here. */
  datatype Durable = Durable(
    offset: nat, fingerprint: string, awaitingStable: bool, redactNext: bool, highWater: nat,
    identity: string, anchor: string, binding: string, sanitizer: string)

  const EMPTY := Durable(0, "", false, false, 0, "", "", "", "")

  /** What a poll finds: the source, its anchors, the target binding and the answers it gets. */
  datatype Scan = Scan(
    readable: bool, size: nat, fingerprint: string, identity: string, anchorAt: nat -> Option<string>, binding: string,
    quarantined: bool, nextSanitizer: string, accepted: bool, saved: SaveResult)

  /** A save can fail before or after the file has been replaced. */
  datatype SaveResult = Saved | NotWritten | WrittenButFailed

  datatype Mode = Disabled | Error | Pending | Healthy

  /**
   A batch sent: `confirmed` says whether its start had been saved as stable by then, `recorded` whether it was
   accepted and the cursor behind it reached the disk.
   */
  datatype Batch = Batch(
    start: nat, end: nat, fingerprint: string, redacted: bool, accepted: bool, confirmed: bool, recorded: bool)

  /** `stable` records the cursors saved as confirmed, `sends` the batches sent. */
  datatype Uploader = Uploader(
    mode: Mode, memory: Durable, disk: Option<Durable>, stable: set<(nat, string)>, sends: seq<Batch>)

  // ------------------------------------------------------------------- saved states

  /** The checks a saved state has to pass when it is read back. */
  predicate Readable(d: Durable) {
    && d.offset <= d.highWater
    && |d.fingerprint| <= 128 && |d.identity| <= 512 && |d.anchor| <= 128 && |d.binding| == 64
    && (d.offset > 0 ==> |d.anchor| == 64)
  }

  /** What is true of every scan: digests have 64 characters, and there is no anchor at the start. */
  ghost predicate Plausible(s: Scan) {
    && |s.fingerprint| == 64 && 0 < |s.identity| <= 512 && |s.binding| == 64
    && s.anchorAt(0) == Some("")
    && (forall n: nat :: n > 0 && s.anchorAt(n).Some? ==> |s.anchorAt(n).value| == 64)
  }

  // ------------------------------------------------------------------------- poll

  function Tail(size: nat): nat {
    if size > REBIND_TAIL then size - REBIND_TAIL else 0
  }

  /** Starts a redacted epoch near the end of the source. */
  function Rebound(d: Durable, s: Scan): Durable {
    d.(offset := Tail(s.size), redactNext := true, anchor := "", sanitizer := "")
  }

  function Bound(d: Durable, s: Scan): Durable {
    if d.binding == "" then d.(binding := s.binding)
    else if d.binding != s.binding then EMPTY.(binding := s.binding)
    else d
  }

  /** A replaced source is given up at once while its last batch is unconfirmed, or if it did not shrink. */
  function AfterIdentity(d: Durable, s: Scan): Option<Durable> {
    if d.identity == "" || d.identity == s.identity then Some(d)
    else if d.awaitingStable || s.size >= d.offset then None
    else Some(Rebound(d, s).(fingerprint := "", highWater := s.size))
  }

  predicate AnchorHolds(d: Durable, s: Scan) {
    d.anchor == "" || d.offset > s.size || s.anchorAt(d.offset) == Some(d.anchor)
  }

  function AfterFingerprint(d: Durable, s: Scan): Option<Durable> {
    if d.fingerprint == s.fingerprint then Some(d)
    else if d.fingerprint != "" && d.awaitingStable then None
    else Some(Rebound(d, s).(fingerprint := s.fingerprint, highWater := s.size))
  }

  function AfterTruncation(d: Durable, s: Scan): Option<Durable> {
    if d.offset <= s.size then Some(d)
    else if d.awaitingStable then None
    else Some(Rebound(d, s))
  }

  /** The working state once the source has been recognised, or nothing if the poll has to stop. */
  function Examined(d: Durable, s: Scan): Option<Durable> {
    match AfterIdentity(d, s)
    case None => None
    case Some(d1) =>
      if !AnchorHolds(d1, s) then None
      else
        match AfterFingerprint(d1, s)
        case None => None
        case Some(d2) => AfterTruncation(d2.(identity := s.identity), s)
  }

  /** A source that grew before it was confirmed continues with a redacted chunk. */
  function Resumed(d: Durable, s: Scan): Durable {
    if d.awaitingStable && s.size > d.offset
    then d.(awaitingStable := false, redactNext := true, highWater := s.size, sanitizer := "")
    else d
  }

  predicate Confirms(d: Durable, s: Scan) {
    d.awaitingStable && s.size == d.offset && s.fingerprint == d.fingerprint
  }

  function BatchEnd(d: Durable, s: Scan): nat {
    if d.offset + MAXIMUM_BATCH < s.size then d.offset + MAXIMUM_BATCH else s.size
  }

  function AfterBatch(d: Durable, s: Scan, anchor: string): Durable {
    Durable(BatchEnd(d, s), s.fingerprint, true, false, s.size, s.identity, anchor, s.binding,
            if d.redactNext then "" else s.nextSanitizer)
  }

  function Persist(u: Uploader, d: Durable, saved: SaveResult, mode: Mode): Uploader {
    match saved
    case Saved => u.(disk := Some(d), memory := d, mode := mode)
    case NotWritten => u.(mode := Error)
    case WrittenButFailed => u.(disk := Some(d), mode := Error)
  }

  function Poll(u: Uploader, s: Scan): Uploader {
    if u.mode == Disabled || u.mode == Error then u
    else if !s.readable then u.(mode := Error)
    else
      var changed := u.memory.binding != "" && u.memory.binding != s.binding;
      if changed && !s.quarantined then u.(mode := Error)
      else
        var bound := if changed then u.(memory := Bound(u.memory, s), disk := None) else u;
        match Examined(Bound(u.memory, s), s)
        case None => bound.(mode := Error)
        case Some(d) => Proceed(bound, d, s)
  }

  function Sent(u: Uploader, d: Durable, s: Scan): Batch {
    Batch(d.offset, BatchEnd(d, s), s.fingerprint, d.redactNext, s.accepted, (d.offset, s.fingerprint) in u.stable,
          s.accepted && !s.saved.NotWritten?)
  }

  function Proceed(u: Uploader, d: Durable, s: Scan): Uploader {
    if Confirms(d, s) then
      var anchor := s.anchorAt(d.offset);
      if anchor.None? then u.(mode := Error)
      else
        var confirmed := d.(awaitingStable := false, highWater := s.size, anchor := anchor.value);
        Persist(u.(stable := u.stable + (if s.saved.NotWritten? then {} else {(d.offset, d.fingerprint)})),
                confirmed, s.saved, Healthy)
    else
      var working := Resumed(d, s);
      if working.offset >= s.size then
        var anchor := s.anchorAt(working.offset);
        if anchor.None? then u.(mode := Error)
        else Persist(u, working.(anchor := anchor.value), s.saved, Pending)
      else
        var end := BatchEnd(working, s);
        var anchor := s.anchorAt(end);
        if anchor.None? then u.(mode := Error)
        else
          var sent := u.(sends := u.sends + [Sent(u, working, s)]);
          if !s.accepted then sent.(mode := Error)
          else Persist(sent, AfterBatch(working, s, anchor.value), s.saved, Pending)
  }

  /** Starting up: an unreadable or foreign state is set aside, and the next epoch is a redacted one. */
  function Restart(u: Uploader, binding: string): Uploader {
    if u.disk.None? then u.(memory := EMPTY, mode := Pending)
    else if !Readable(u.disk.value) || u.disk.value.binding != binding
    then u.(memory := EMPTY, disk := None, mode := Pending)
    else u.(memory := u.disk.value, mode := Pending)
  }

  datatype Event = PollEvent(scan: Scan) | RestartEvent(binding: string)

  ghost predicate Possible(e: Event) {
    e.PollEvent? ==> Plausible(e.scan)
  }

  function Step(u: Uploader, e: Event): Uploader {
    match e
    case PollEvent(s) => Poll(u, s)
    case RestartEvent(binding) => Restart(u, binding)
  }

  function Run(u: Uploader, events: seq<Event>): Uploader
    decreases |events|
  {
    if events == [] then u else Run(Step(u, events[0]), events[1..])
  }

  // -------------------------------------------------------------------- invariant

  /** A state in memory: like a saved one, but possibly not bound to a target yet. */
  predicate Sane(d: Durable) {
    && d.offset <= d.highWater
    && |d.fingerprint| <= 128 && |d.identity| <= 512 && |d.anchor| <= 128 && (d.binding == "" || |d.binding| == 64)
    && (d.offset > 0 ==> |d.anchor| == 64 || d.redactNext)
    && (d.identity == "" ==> d.fingerprint == "") && (d.fingerprint == "" ==> !d.awaitingStable)
  }

  /** A cursor from which a chunk may go out as it is was saved as stable under its fingerprint. */
  predicate Earned(d: Durable, stable: set<(nat, string)>) {
    d.fingerprint == "" || d.redactNext || d.awaitingStable || (d.offset, d.fingerprint) in stable
  }

  /** No batch is empty or too long, and one that is not redacted starts at a confirmed cursor. */
  predicate SendsEarned(sends: seq<Batch>) {
    forall i :: 0 <= i < |sends| ==>
      sends[i].start < sends[i].end <= sends[i].start + MAXIMUM_BATCH && (sends[i].redacted || sends[i].confirmed)
  }

  predicate Inv(u: Uploader) {
    && Sane(u.memory) && Earned(u.memory, u.stable)
    && (u.disk.Some? ==> Readable(u.disk.value) && Sane(u.disk.value) && Earned(u.disk.value, u.stable))
    && SendsEarned(u.sends)
  }

  /** The working state after the source was recognised. */
  lemma ExaminedSane(d: Durable, s: Scan, stable: set<(nat, string)>)
    requires Plausible(s) && Sane(d) && Earned(d, stable) && d.binding != ""
    ensures var e := Examined(d, s);
      e.Some? ==>
        && Sane(e.value) && Earned(e.value, stable)
        && e.value.fingerprint == s.fingerprint && e.value.identity == s.identity && e.value.binding == d.binding
        && e.value.offset <= s.size
  {
  }

  lemma PersistInv(u: Uploader, d: Durable, saved: SaveResult, mode: Mode)
    requires Inv(u) && Readable(d) && Sane(d) && Earned(d, u.stable)
    ensures Inv(Persist(u, d, saved, mode))
  {
  }

  lemma ProceedInv(u: Uploader, d: Durable, s: Scan)
    requires Plausible(s) && Inv(u) && Sane(d) && Earned(d, u.stable)
    requires d.fingerprint == s.fingerprint && d.identity == s.identity && d.binding == s.binding && d.offset <= s.size
    ensures Inv(Proceed(u, d, s))
  {
    if Confirms(d, s) {
      var confirmed := u.(stable := u.stable + (if s.saved.NotWritten? then {} else {(d.offset, d.fingerprint)}));
      assert Inv(confirmed);
      ConfirmInv(confirmed, d, s);
    } else {
      var working := Resumed(d, s);
      if working.offset >= s.size {
        var anchor := s.anchorAt(working.offset);
        if anchor.Some? { PersistInv(u, working.(anchor := anchor.value), s.saved, Pending); }
      } else {
        SendInv(u, working, s);
      }
    }
  }

  lemma ConfirmInv(u: Uploader, d: Durable, s: Scan)
    requires Plausible(s) && Inv(u) && Sane(d) && |d.binding| == 64 && d.offset == s.size && s.anchorAt.requires(d.offset)
    requires s.saved.NotWritten? || (d.offset, d.fingerprint) in u.stable
    ensures var anchor := s.anchorAt(d.offset);
      anchor.Some? ==>
        Inv(Persist(u, d.(awaitingStable := false, highWater := s.size, anchor := anchor.value), s.saved, Healthy))
  {
  }

  lemma SendInv(u: Uploader, working: Durable, s: Scan)
    requires Plausible(s) && Inv(u) && Sane(working) && Earned(working, u.stable) && !working.awaitingStable
    requires working.fingerprint == s.fingerprint && working.offset < s.size
    ensures var end := BatchEnd(working, s);
      var sent := u.(sends := u.sends + [Sent(u, working, s)]);
      && Inv(sent)
      && (s.anchorAt(end).Some? ==> Inv(Persist(sent, AfterBatch(working, s, s.anchorAt(end).value), s.saved, Pending)))
  {
  }

  lemma StepInv(u: Uploader, e: Event)
    requires Inv(u) && Possible(e)
    ensures Inv(Step(u, e))
  {
    if e.PollEvent? {
      var s := e.scan;
      var d := Bound(u.memory, s);
      ExaminedSane(d, s, u.stable);
      var changed := u.memory.binding != "" && u.memory.binding != s.binding;
      var bound := if changed then u.(memory := d, disk := None) else u;
      hide Proceed, Examined;
      assert Inv(bound);
      if Examined(d, s).Some? { ProceedInv(bound, Examined(d, s).value, s); }
    }
  }

  lemma PollInv(u: Uploader, s: Scan)
    requires Inv(u) && Plausible(s)
    ensures Inv(Poll(u, s))
  {
    hide Inv, Poll, Plausible;
    StepInv(u, PollEvent(s));
  }

  lemma {:induction false} RunInv(u: Uploader, events: seq<Event>)
    requires Inv(u) && forall i :: 0 <= i < |events| ==> Possible(events[i])
    ensures Inv(Run(u, events))
    decreases |events|
  {
    hide Inv, Step, Possible;
    if events != [] {
      StepInv(u, events[0]);
      RunInv(Step(u, events[0]), events[1..]);
    }
  }

  // --------------------------------------------------------------- main results

  const FIRST_START := Uploader(Pending, EMPTY, None, {}, [])

  /**
   In every run: a chunk goes out as it is only from a cursor that was saved as stable under the fingerprint
   the chunk is sent with, and every state on disk can be read back.
   */
  lemma UnredactedIsEarned(events: seq<Event>)
    requires forall i :: 0 <= i < |events| ==> Possible(events[i])
    ensures var u := Run(FIRST_START, events);
      && SendsEarned(u.sends)
      && (u.disk.Some? ==> Readable(u.disk.value))
  {
    RunInv(FIRST_START, events);
  }

  /** The poll still sees the source its cursor belongs to. */
  predicate SameEpoch(d: Durable, s: Scan) {
    && d.binding == s.binding && d.binding != "" && d.identity == s.identity && d.fingerprint == s.fingerprint
    && d.offset <= s.size
  }

  /** Within an epoch the cursor only ever moves to the end of a batch that was accepted and saved. */
  lemma CursorMovesByBatches(u: Uploader, s: Scan)
    requires SameEpoch(u.memory, s)
    ensures var r := Poll(u, s);
      && SameEpoch(r.memory, s) && (u.mode == Error ==> r == u)
      && (r.sends == u.sends || r.sends == u.sends + [r.sends[|u.sends|]])
      && (|r.sends| > |u.sends| ==>
            && r.sends[|u.sends|].start == u.memory.offset
            && (r.sends[|u.sends|].redacted <==> u.memory.redactNext || u.memory.awaitingStable))
      && (|r.sends| > |u.sends| && r.mode != Error ==> r.sends[|u.sends|].accepted)
      && (r.memory.offset != u.memory.offset ==> r.disk == Some(r.memory) && |r.sends| > |u.sends|)
      && (r.mode != Error && u.mode != Error ==>
            r.memory.offset == if |r.sends| > |u.sends| then r.sends[|u.sends|].end else u.memory.offset)
  {
  }

  /** Batches that cover the source from `from` without gap or overlap; only the last may have failed. */
  predicate Contiguous(batches: seq<Batch>, from: nat) {
    batches != [] ==>
      && batches[0].start == from && (|batches| > 1 ==> batches[0].accepted)
      && Contiguous(batches[1..], batches[0].end)
  }

  function PollAll(u: Uploader, scans: seq<Scan>): Uploader
    decreases |scans|
  {
    if scans == [] then u else PollAll(Poll(u, scans[0]), scans[1..])
  }

  /** A source that only grows, seen by any number of polls without a restart. */
  predicate OneEpoch(d: Durable, scans: seq<Scan>) {
    && (forall i :: 0 <= i < |scans| ==> SameEpoch(d, scans[i]))
    && (forall i, j :: 0 <= i < j < |scans| ==> scans[i].size <= scans[j].size)
  }

  /** However many polls it takes, an epoch is sent once, in order and without gaps. */
  lemma {:induction false} EpochIsContiguous(u: Uploader, scans: seq<Scan>)
    requires OneEpoch(u.memory, scans)
    ensures var r := PollAll(u, scans);
      && u.sends <= r.sends
      && Contiguous(r.sends[|u.sends|..], u.memory.offset)
      && (r.mode != Error && u.mode != Error ==>
            if |r.sends| > |u.sends|
            then r.sends[|r.sends| - 1].accepted && r.memory.offset == r.sends[|r.sends| - 1].end
            else r.memory.offset == u.memory.offset)
    decreases |scans|
  {
    hide Poll, Contiguous, SameEpoch;
    assert u.sends[|u.sends|..] == [];
    NothingContiguous(u.memory.offset);
    if scans != [] {
      var next := Poll(u, scans[0]);
      var r := PollAll(next, scans[1..]);
      CursorMovesByBatches(u, scans[0]);
      if next.mode == Error {
        StoppedForGood(next, scans[1..]);
        assert next.sends[|next.sends|..] == [];
        if |next.sends| > |u.sends| { NothingContiguous(next.sends[|u.sends|].end); }
      } else {
        OneEpochTail(u.memory, next.memory, scans);
        EpochIsContiguous(next, scans[1..]);
      }
      if |next.sends| > |u.sends| {
        ContiguousCons(next.sends[|u.sends|], r.sends[|next.sends|..]);
        assert r.sends[|u.sends|..] == [next.sends[|u.sends|]] + r.sends[|next.sends|..];
      } else {
        assert u.mode != Error && next.mode != Error ==> next.memory.offset == u.memory.offset;
      }
    }
  }

  lemma OneEpochTail(d: Durable, next: Durable, scans: seq<Scan>)
    requires OneEpoch(d, scans) && scans != [] && SameEpoch(next, scans[0])
    ensures OneEpoch(next, scans[1..])
  {
    assert forall i :: 0 <= i < |scans[1..]| ==> scans[1..][i] == scans[i + 1];
  }

  lemma NothingContiguous(from: nat)
    ensures Contiguous([], from)
  {
  }

  lemma ContiguousCons(b: Batch, rest: seq<Batch>)
    requires Contiguous(rest, b.end) && (rest != [] ==> b.accepted)
    ensures Contiguous([b] + rest, b.start)
  {
    assert ([b] + rest)[1..] == rest;
  }

  lemma {:induction false} StoppedForGood(u: Uploader, scans: seq<Scan>)
    ensures u.mode == Error ==> PollAll(u, scans) == u
    decreases |scans|
  {
    if scans != [] && u.mode == Error { StoppedForGood(u, scans[1..]); }
  }

  // ----------------------------------------------------------- an epoch with restarts

  /** Each batch starts where the one before it ended if that one was recorded, and where it started if not. */
  predicate Chained(batches: seq<Batch>, from: nat) {
    batches != [] ==> batches[0].start == from && Chained(batches[1..], Behind(batches[0]))
  }

  function Behind(b: Batch): nat {
    if b.recorded then b.end else b.start
  }

  /** The memory follows the disk unless the uploader has stopped. */
  predicate Synchronized(u: Uploader) {
    u.disk.Some? && (u.mode == Error || u.disk == Some(u.memory))
  }

  /** A source that only grows, seen by polls and restarts in any order, still bound to the same target. */
  predicate EpochEvents(d: Durable, events: seq<Event>) {
    && (forall i :: 0 <= i < |events| ==> InEpoch(d, events[i]))
    && (forall i, j :: 0 <= i < j < |events| && events[i].PollEvent? && events[j].PollEvent? ==>
          events[i].scan.size <= events[j].scan.size)
  }

  predicate InEpoch(d: Durable, e: Event) {
    match e
    case PollEvent(s) => SameEpoch(d, s)
    case RestartEvent(binding) => binding == d.binding
  }

  /** One poll, seen from the disk: it sends at most one batch, from the saved cursor, which ends up behind it. */
  lemma PollOnDisk(u: Uploader, s: Scan)
    requires Synchronized(u) && SameEpoch(u.disk.value, s)
    ensures var r := Poll(u, s);
      && Synchronized(r) && SameEpoch(r.disk.value, s)
      && if r.sends == u.sends then r.disk.value.offset == u.disk.value.offset
         else && |r.sends| == |u.sends| + 1 && r.sends == u.sends + [r.sends[|u.sends|]]
              && r.sends[|u.sends|].start == u.disk.value.offset && r.disk.value.offset == Behind(r.sends[|u.sends|])
  {
  }

  lemma RestartOnDisk(u: Uploader, binding: string)
    requires Synchronized(u) && Inv(u) && u.disk.value.binding == binding
    ensures var r := Restart(u, binding); Synchronized(r) && r.disk == u.disk && r.sends == u.sends
  {
  }

  lemma EpochTail(d: Durable, next: Durable, events: seq<Event>)
    requires EpochEvents(d, events) && events != [] && next.binding == d.binding
    requires events[0].PollEvent? ==> SameEpoch(next, events[0].scan)
    requires events[0].RestartEvent? ==> next == d
    ensures EpochEvents(next, events[1..])
  {
    forall i | 0 <= i < |events[1..]|
      ensures InEpoch(next, events[1..][i])
    {
      assert events[1..][i] == events[i + 1] && InEpoch(d, events[i + 1]) && InEpoch(d, events[0]);
    }
    forall i, j | 0 <= i < j < |events[1..]| && events[1..][i].PollEvent? && events[1..][j].PollEvent?
      ensures events[1..][i].scan.size <= events[1..][j].scan.size
    {
      assert events[1..][i] == events[i + 1] && events[1..][j] == events[j + 1];
    }
  }

  /**
   Over any number of polls and restarts within an epoch, every batch starts at the end of the one before it,
   except that a batch whose cursor did not reach the disk is sent again from its start: no gap, and exactly
   that overlap.
   */
  lemma {:induction false} EpochAcrossRestarts(u: Uploader, events: seq<Event>)
    requires Inv(u) && Synchronized(u) && EpochEvents(u.disk.value, events)
    requires forall i :: 0 <= i < |events| ==> Possible(events[i])
    ensures var r := Run(u, events);
      && u.sends <= r.sends && Chained(r.sends[|u.sends|..], u.disk.value.offset)
      && Synchronized(r)
      && r.disk.value.offset == if |r.sends| > |u.sends| then Behind(r.sends[|r.sends| - 1]) else u.disk.value.offset
    decreases |events|
  {
    hide Poll, Restart, Inv, SameEpoch, Synchronized, EpochEvents, Possible, Behind;
    assert u.sends[|u.sends|..] == [];
    if events != [] {
      var next, r := Step(u, events[0]), Run(Step(u, events[0]), events[1..]);
      StepInv(u, events[0]);
      SynchronizedDisk(u);
      EpochStep(u, events);
      EpochAcrossRestarts(next, events[1..]);
      if next.sends != u.sends {
        ChainedCons(next.sends[|u.sends|], r.sends[|next.sends|..]);
        assert r.sends[|u.sends|..] == [next.sends[|u.sends|]] + r.sends[|next.sends|..];
      }
    }
  }

  lemma SynchronizedDisk(u: Uploader)
    requires Synchronized(u)
    ensures u.disk.Some?
  {
  }

  lemma EpochStep(u: Uploader, events: seq<Event>)
    requires Inv(u) && Synchronized(u) && events != [] && EpochEvents(u.disk.value, events)
    ensures var next := Step(u, events[0]);
      && Synchronized(next) && EpochEvents(next.disk.value, events[1..])
      && if next.sends == u.sends then next.disk.value.offset == u.disk.value.offset
         else && |next.sends| == |u.sends| + 1 && next.sends == u.sends + [next.sends[|u.sends|]]
              && next.sends[|u.sends|].start == u.disk.value.offset
              && next.disk.value.offset == Behind(next.sends[|u.sends|])
  {
    hide Poll, Restart, Inv, Behind;
    assert InEpoch(u.disk.value, events[0]);
    match events[0] {
      case PollEvent(s) => PollOnDisk(u, s);
      case RestartEvent(binding) => RestartOnDisk(u, binding);
    }
    EpochTail(u.disk.value, Step(u, events[0]).disk.value, events);
  }

  lemma ChainedCons(b: Batch, rest: seq<Batch>)
    requires Chained(rest, Behind(b))
    ensures Chained([b] + rest, b.start)
  {
    assert ([b] + rest)[1..] == rest;
  }

  /** After the source was replaced, truncated or bound to another target, the next chunk is redacted. */
  lemma NewEpochIsRedacted(u: Uploader, s: Scan)
    requires Inv(u) && Plausible(s) && !SameEpoch(u.memory, s) && u.memory.binding != ""
    ensures var r := Poll(u, s);
      forall i :: |u.sends| <= i < |r.sends| ==> r.sends[i].redacted
  {
  }

  // ------------------------------------------------------------------ the uploader

  /** Tells whether the source is still the one the cursor belongs to; starts a redacted epoch if not. */
  method Recognise(d: Durable, s: Scan) returns (recognised: Option<Durable>)
    ensures recognised == Examined(d, s)
  {
    var working := d;
    if working.identity != "" && working.identity != s.identity {
      if working.awaitingStable || s.size >= working.offset {
        return None;
      }
      working := working.(fingerprint := "", offset := Tail(s.size), redactNext := true, highWater := s.size,
                          anchor := "", sanitizer := "");
    }
    if working.anchor != "" && working.offset <= s.size && s.anchorAt(working.offset) != Some(working.anchor) {
      return None;
    }
    if working.fingerprint != s.fingerprint {
      if working.fingerprint != "" && working.awaitingStable {
        return None;
      }
      working := working.(fingerprint := s.fingerprint, offset := Tail(s.size), redactNext := true,
                          highWater := s.size, anchor := "", sanitizer := "");
    }
    working := working.(identity := s.identity);
    if working.offset > s.size {
      if working.awaitingStable {
        return None;
      }
      working := working.(offset := Tail(s.size), redactNext := true, anchor := "", sanitizer := "");
    }
    return Some(working);
  }

  class HeadlessRemoteLogUploader {
    var mode: Mode
    var memory: Durable
    /** The state file. */
    var disk: Option<Durable>
    ghost var stable: set<(nat, string)>
    ghost var sends: seq<Batch>

    ghost function View(): Uploader
      reads this
    {
      Uploader(mode, memory, disk, stable, sends)
    }

    constructor ()
      ensures View() == FIRST_START
    {
      mode, memory, disk, stable, sends := Pending, EMPTY, None, {}, [];
    }

    method SaveState(d: Durable, saved: SaveResult, next: Mode)
      modifies this`mode, this`memory, this`disk
      ensures View() == Persist(old(View()), d, saved, next)
    {
      if !saved.NotWritten? {
        disk := Some(d);
      }
      if saved.Saved? {
        memory, mode := d, next;
      } else {
        mode := Error;
      }
    }

    /** One pass over the source. What it sends is redacted or starts at a confirmed cursor. */
    method PollSource(s: Scan)
      modifies this
      ensures View() == Poll(old(View()), s)
      ensures Inv(old(View())) && Plausible(s) ==> Inv(View())
    {
      hide Inv, Poll, Plausible;
      if Inv(View()) && Plausible(s) { PollInv(View(), s); }
      Pass(s);
    }

    method Pass(s: Scan)
      modifies this
      ensures View() == Poll(old(View()), s)
    {
      hide Proceed, Examined;
      if mode == Disabled || mode == Error {
        return;
      }
      if !s.readable {
        mode := Error;
        return;
      }
      var working := memory;
      if working.binding == "" {
        working := working.(binding := s.binding);
      }
      if working.binding != s.binding {
        if !s.quarantined {
          mode := Error;
          return;
        }
        working := EMPTY.(binding := s.binding);
        disk, memory := None, working;
      }
      var recognised := Recognise(working, s);
      if recognised.None? {
        mode := Error;
        return;
      }
      Continue(recognised.value, s);
    }

    method Continue(d: Durable, s: Scan)
      modifies this
      ensures View() == Proceed(old(View()), d, s)
    {
      hide Persist;
      var working := d;
      if working.awaitingStable && s.size == working.offset && s.fingerprint == working.fingerprint {
        var anchor := s.anchorAt(working.offset);
        if anchor.None? {
          mode := Error;
          return;
        }
        stable := stable + (if s.saved.NotWritten? then {} else {(d.offset, d.fingerprint)});
        SaveState(working.(awaitingStable := false, highWater := s.size, anchor := anchor.value), s.saved, Healthy);
        return;
      }
      if working.awaitingStable && s.size > working.offset {
        working := working.(awaitingStable := false, redactNext := true, highWater := s.size, sanitizer := "");
      }
      if working.offset >= s.size {
        var anchor := s.anchorAt(working.offset);
        if anchor.None? {
          mode := Error;
          return;
        }
        SaveState(working.(anchor := anchor.value), s.saved, Pending);
        return;
      }
      var end := if s.size <= working.offset + MAXIMUM_BATCH then s.size else working.offset + MAXIMUM_BATCH;
      var anchor := s.anchorAt(end);
      if anchor.None? {
        mode := Error;
        return;
      }
      sends := sends + [Sent(View(), working, s)];
      if !s.accepted {
        mode := Error;
        return;
      }
      SaveState(AfterBatch(working, s, anchor.value), s.saved, Pending);
    }

    /** Reading the state back at start-up: a state that was saved for this target is the one that is used. */
    method LoadState(binding: string)
      modifies this
      ensures View() == Restart(old(View()), binding)
      ensures Inv(old(View())) ==>
                && Inv(View())
                && memory == (if old(disk).Some? && old(disk).value.binding == binding then old(disk).value else EMPTY)
    {
      mode := Pending;
      if disk.None? {
        memory := EMPTY;
        return;
      }
      if !Readable(disk.value) || disk.value.binding != binding {
        memory, disk := EMPTY, None;
        return;
      }
      memory := disk.value;
    }
  }
}
