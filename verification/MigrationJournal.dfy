/**
 The durable journal of an AmneziaWG profile migration. An operation reads the journal, edits a copy and
 saves it atomically, possibly several times; a crash may fall between any two saves and is followed by
 `Load`. Signatures and digests are functions about which nothing is known.
 */
module MigrationJournal {
  import opened Options
  import opened Generations

  const MAXIMUM_GRANT := 4096
  const RENEWAL_SECONDS := 86405.0

  datatype Target = Target(endpoint: string, clientAddress: string, parameters: string)

  datatype Offer = Offer(
    server: string, peer: string, container: string, source: string, nonce: string,
    generation: real, expiresAt: real, target: Target, challengeNonce: string)

  /** A signed answer to the challenge, sent through the candidate tunnel. */
  datatype ReceiptDocument = ReceiptDocument(
    server: string, peer: string, container: string, generation: real, nonce: string, targetAddress: string, expiresAt: real)

  datatype RenewalDocument = RenewalDocument(
    server: string, peer: string, container: string, source: string, generation: real, nonce: string,
    grant: string, targetHash: string, expiresAt: real)

  /** What an envelope says once its signature verifies under a key, and how targets are digested. */
  datatype Crypto = Crypto(
    offerOf: (string, string) -> Option<Offer>,
    receiptOf: (string, string) -> Option<ReceiptDocument>,
    renewalOf: (string, string) -> Option<RenewalDocument>,
    digest: Target -> string)

  datatype Phase = Staged | Expired | Trying | Committed | RolledBack

  /** The part of a journal that retiring a staged offer removes. */
  datatype Material = Material(offer: Offer, envelope: string, grant: string, grantExpiresAt: real, candidateHash: string)

  datatype Journal = Journal(
    phase: Phase, previousPhase: Option<Phase>, highest: real, material: Option<Material>,
    sourceHash: string, signingKey: string, stagedGeneration: real, stagedTargetHash: string,
    challengeReceipt: Option<string>, ackPending: bool)

  // ------------------------------------------------------------------- operations

  function Max(a: real, b: real): real {
    if a < b then b else a
  }

  predicate Integral(x: real) {
    x == x.Floor as real
  }

  /** Start-up: an interrupted attempt is resumed as committed or counted as rolled back. */
  function Loaded(j: Journal): Journal {
    if j.phase != Trying then j
    else j.(phase := if j.previousPhase == Some(Committed) then Committed else RolledBack)
  }

  predicate LoadAccepts(j: Journal) {
    0.0 <= j.highest <= MAXIMUM_GENERATION && Integral(j.highest)
  }

  function Retired(j: Journal): Journal {
    if j.phase != Staged then j else j.(phase := Expired, material := None)
  }

  predicate OfferAcceptable(offer: Offer, highest: real, now: real) {
    && offer.generation > highest && offer.generation <= MAXIMUM_GENERATION && Integral(offer.generation)
    && offer.expiresAt > now
  }

  /** A refreshed offer may repeat the staged generation only for the same target. */
  predicate RefreshAcceptable(c: Crypto, offer: Offer, previous: Option<Journal>, now: real) {
    var highest := if previous.Some? then previous.value.highest else 0.0;
    var staged := if previous.Some? then previous.value.stagedGeneration else 0.0;
    && OfferAcceptable(offer, Max(highest, staged - 1.0), now)
    && (offer.generation != staged || previous.None? || c.digest(offer.target) == previous.value.stagedTargetHash)
  }

  /** Everything the network and the local profile contribute to an enrolment. */
  datatype Enrolment = Enrolment(
    now: real, exchanged: bool, key: string, envelope: string, grant: string, grantExpiresAt: real,
    sourceHash: string, candidateHash: string,
    server: string, peer: string, container: string, source: string, nonce: string)

  /** The journal that stages a new offer, if the offer passes every check. */
  function Enrolled(c: Crypto, previous: Option<Journal>, e: Enrolment): Option<Journal> {
    var offer := c.offerOf(e.envelope, e.key);
    if || !e.exchanged || e.key == "" || e.grant == "" || |e.grant| > MAXIMUM_GRANT || e.grantExpiresAt <= e.now
       || (previous.Some? && previous.value.signingKey != "" && previous.value.signingKey != e.key)
       || offer.None? || !RefreshAcceptable(c, offer.value, previous, e.now)
       || offer.value.server != e.server || offer.value.peer != e.peer || offer.value.container != e.container
       || offer.value.source != e.source || offer.value.nonce != e.nonce
    then None
    else Some(Journal(Staged, None, if previous.Some? then previous.value.highest else 0.0,
                      Some(Material(offer.value, e.envelope, e.grant, e.grantExpiresAt, e.candidateHash)),
                      e.sourceHash, e.key, offer.value.generation, c.digest(offer.value.target), None, false))
  }

  /** What the candidate check reads besides the journal. */
  datatype Files = Files(sourceReadable: bool, sourceHash: string, candidateReadable: bool, candidateHash: string, now: real)

  predicate SourceUnchanged(j: Journal, f: Files) {
    f.sourceReadable && f.sourceHash == j.sourceHash
  }

  predicate IsCandidate(c: Crypto, j: Journal, f: Files) {
    && (j.phase == Staged || j.phase == Committed) && j.material.Some? && SourceUnchanged(j, f)
    && f.candidateReadable && f.candidateHash == j.material.value.candidateHash
    && c.offerOf(j.material.value.envelope, j.signingKey) == Some(j.material.value.offer)
    && (j.phase == Staged ==> j.material.value.offer.expiresAt > f.now)
  }

  /** A staged offer whose source changed or whose time is up is retired on sight. */
  predicate CandidateRetires(c: Crypto, j: Journal, f: Files) {
    && j.phase == Staged
    && (!SourceUnchanged(j, f)
        || (j.material.Some? && IsCandidate(c, j.(phase := Committed), f) && j.material.value.offer.expiresAt <= f.now))
  }

  function Begun(j: Journal): Journal {
    j.(previousPhase := Some(j.phase), phase := Trying,
       highest := Max(j.highest, if j.material.Some? then j.material.value.offer.generation else 0.0))
  }

  /** The address in front of the prefix length. */
  function HostPart(address: string): string {
    if address == "" || address[0] == '/' then "" else [address[0]] + HostPart(address[1..])
  }

  /** What comes before the first slash of an address, or all of it if there is none. */
  ghost predicate InFront(host: string, address: string) {
    '/' !in host && (address == host || exists rest :: address == host + "/" + rest)
  }

  lemma {:induction false} HostPartInFront(address: string)
    ensures InFront(HostPart(address), address)
  {
    if address == "" {
    } else if address[0] == '/' {
      assert address == "" + "/" + address[1..];
    } else {
      HostPartInFront(address[1..]);
      var host := HostPart(address[1..]);
      if address[1..] != host {
        var rest :| address[1..] == host + "/" + rest;
        assert address == ([address[0]] + host) + "/" + rest;
      }
    }
  }

  lemma {:induction false} HostPartUnique(host: string, address: string)
    requires InFront(host, address)
    ensures host == HostPart(address)
  {
    if host == "" {
      if address != "" {
        var rest :| address == host + "/" + rest;
        assert address[0] == '/';
      }
    } else {
      assert host[0] in host && address[0] == host[0];
      if address != host {
        var rest :| address == host + "/" + rest;
        assert address[1..] == host[1..] + "/" + rest;
      }
      HostPartUnique(host[1..], address[1..]);
    }
  }

  /** A receipt that proves the challenge of exactly this offer under the pinned key. */
  predicate ReceiptFits(c: Crypto, j: Journal, envelope: string) {
    var r := c.receiptOf(envelope, j.signingKey);
    && j.material.Some? && r.Some?
    && r.value.server == j.material.value.offer.server && r.value.peer == j.material.value.offer.peer
    && r.value.container == j.material.value.offer.container && r.value.generation == j.material.value.offer.generation
    && r.value.nonce == j.material.value.offer.challengeNonce
    && r.value.targetAddress == HostPart(j.material.value.offer.target.clientAddress)
  }

  function Verified(j: Journal, envelope: string): Journal {
    j.(challengeReceipt := Some(envelope))
  }

  function CommittedTo(j: Journal): Journal {
    j.(phase := Committed, ackPending := j.ackPending || j.previousPhase != Some(Committed))
  }

  function Abandoned(j: Journal): Journal {
    j.(phase := RolledBack)
  }

  predicate RenewalFits(c: Crypto, j: Journal, envelope: string, nonce: string, now: real) {
    var r := c.renewalOf(envelope, j.signingKey);
    && j.material.Some? && r.Some?
    && r.value.nonce == nonce && now < r.value.expiresAt <= now + RENEWAL_SECONDS
    && r.value.grant != "" && |r.value.grant| <= MAXIMUM_GRANT
    && r.value.targetHash == c.digest(j.material.value.offer.target)
    && r.value.server == j.material.value.offer.server && r.value.peer == j.material.value.offer.peer
    && r.value.container == j.material.value.offer.container && r.value.generation == j.material.value.offer.generation
    && r.value.source == j.material.value.offer.source
  }

  function Renewed(c: Crypto, j: Journal, envelope: string): Journal
    requires j.material.Some? && c.renewalOf(envelope, j.signingKey).Some?
  {
    var r := c.renewalOf(envelope, j.signingKey).value;
    j.(material := Some(j.material.value.(grant := r.grant, grantExpiresAt := r.expiresAt)))
  }

  function Acknowledged(j: Journal): Journal {
    j.(ackPending := false)
  }

  // ------------------------------------------------------- operations as effects

  /** One durable or outside effect; a crash may fall after any of them. */
  datatype Effect = Stage(journal: Journal) | Begin(journal: Journal) | Save(journal: Journal) | ServerAck(offer: Offer)

  datatype Trial = Trial(generation: real, resumed: bool)

  /** The disk, and what has happened: trials begun, offers staged, offers the server acknowledged. */
  datatype World = World(disk: Option<Journal>, trials: seq<Trial>, stagings: seq<(real, string)>, acked: set<Offer>)

  const EMPTY_DISK := World(None, [], [], {})

  function GenerationOf(j: Journal): real {
    if j.material.Some? then j.material.value.offer.generation else 0.0
  }

  function Apply(w: World, e: Effect): World {
    match e
    case Stage(j) => w.(disk := Some(j), stagings := w.stagings + [(j.stagedGeneration, j.stagedTargetHash)])
    case Begin(j) => w.(disk := Some(j), trials := w.trials + [Trial(GenerationOf(j), j.previousPhase == Some(Committed))])
    case Save(j) => w.(disk := Some(j))
    case ServerAck(offer) => w.(acked := w.acked + {offer})
  }

  function ApplyAll(w: World, es: seq<Effect>): World
    decreases |es|
  {
    if es == [] then w else ApplyAll(Apply(w, es[0]), es[1..])
  }

  datatype AckInput = AckInput(
    parametersApplied: bool, grantExpired: bool, renewalReachable: bool, renewal: string, nonce: string, now: real,
    renewalSaved: bool, serverAcks: bool, cleared: bool)

  /** Telling the server about a committed migration, renewing an expired grant first. */
  function AckEffects(c: Crypto, j: Journal, a: AckInput): seq<Effect> {
    if j.phase != Committed || !j.ackPending || j.material.None? || !a.parametersApplied then []
    else if !a.grantExpired then ConfirmEffects(j, a)
    else if !a.renewalReachable || !RenewalFits(c, j, a.renewal, a.nonce, a.now) || !a.renewalSaved then []
    else [Save(Renewed(c, j, a.renewal))] + ConfirmEffects(Renewed(c, j, a.renewal), a)
  }

  function ConfirmEffects(j: Journal, a: AckInput): seq<Effect>
    requires j.material.Some?
  {
    if !a.serverAcks then []
    else [ServerAck(j.material.value.offer)] + (if a.cleared then [Save(Acknowledged(j))] else [])
  }

  datatype EnrolInput = EnrolInput(files: Files, retireSaved: bool, enrolment: Enrolment, staged: bool, ack: AckInput)

  /** Enrolment: acknowledge if committed, keep a usable offer, otherwise retire and stage anew. */
  function EnrolEffects(c: Crypto, disk: Option<Journal>, i: EnrolInput): seq<Effect> {
    if disk.Some? && disk.value.phase == Committed then AckEffects(c, disk.value, i.ack)
    else if disk.Some? && disk.value.phase == Staged then
      if IsCandidate(c, disk.value, i.files) || !i.retireSaved then []
      else [Save(Retired(disk.value))] + StageEffects(c, Some(Retired(disk.value)), i)
    else StageEffects(c, disk, i)
  }

  function StageEffects(c: Crypto, disk: Option<Journal>, i: EnrolInput): seq<Effect> {
    var staged := Enrolled(c, disk, i.enrolment);
    if staged.None? || !i.staged then [] else [Stage(staged.value)]
  }

  datatype AttemptInput = AttemptInput(
    files: Files, retireSaved: bool, begun: bool, connected: bool, parametersApplied: bool, challengeReachable: bool,
    receipt: string, handshake: bool, now: real, receiptSaved: bool, sourceAtCommit: Files, commitSaved: bool,
    cleaned: bool, abandonSaved: bool, ack: AckInput)

  /** A connection attempt: candidate, begin, verify, commit, acknowledge; otherwise roll back. */
  function AttemptEffects(c: Crypto, j: Journal, i: AttemptInput): seq<Effect> {
    if !IsCandidate(c, j, i.files) then
      if CandidateRetires(c, j, i.files) && i.retireSaved then [Save(Retired(j))] else []
    else if !i.begun then []
    else [Begin(Begun(j))] + VerifyEffects(c, Begun(j), i)
  }

  /** `expiresAt` of the receipt is compared with the clock, which the journal does not keep. */
  predicate ReceiptCurrent(c: Crypto, j: Journal, i: AttemptInput) {
    var r := c.receiptOf(i.receipt, j.signingKey);
    r.Some? && r.value.expiresAt > i.now && i.handshake
  }

  function VerifyEffects(c: Crypto, j: Journal, i: AttemptInput): seq<Effect> {
    if !i.connected || !i.parametersApplied then RollBackEffects(j, i)
    else if j.previousPhase == Some(Committed) then CommitEffects(c, j, i)
    else if !i.challengeReachable || !ReceiptFits(c, j, i.receipt) || !ReceiptCurrent(c, j, i) || !i.receiptSaved
    then RollBackEffects(j, i)
    else [Save(Verified(j, i.receipt))] + CommitEffects(c, Verified(j, i.receipt), i)
  }

  function CommitEffects(c: Crypto, j: Journal, i: AttemptInput): seq<Effect> {
    if !SourceUnchanged(j, i.sourceAtCommit) || !i.commitSaved then RollBackEffects(j, i)
    else [Save(CommittedTo(j))] + AckEffects(c, CommittedTo(j), i.ack)
  }

  function RollBackEffects(j: Journal, i: AttemptInput): seq<Effect> {
    if i.cleaned && i.abandonSaved then [Save(Abandoned(j))] else []
  }

  // ------------------------------------------------------------------------ runs

  datatype Operation = Enrol(enrol: EnrolInput) | Attempt(attempt: AttemptInput) | Reload

  function EffectsOf(c: Crypto, w: World, op: Operation): seq<Effect> {
    match op
    case Enrol(i) => EnrolEffects(c, w.disk, i)
    case Attempt(i) => if w.disk.None? then [] else AttemptEffects(c, w.disk.value, i)
    case Reload => []
  }

  function Load(w: World): World {
    if w.disk.None? then w else w.(disk := Some(Loaded(w.disk.value)))
  }

  /** One operation, cut off by a crash after `survives` effects; a crash is followed by a load. */
  datatype Event = Event(op: Operation, survives: nat, crash: bool)

  function Step(c: Crypto, w: World, e: Event): World {
    var effects := EffectsOf(c, w, e.op);
    if e.crash && e.survives < |effects| then Load(ApplyAll(w, effects[..e.survives]))
    else
      var done := ApplyAll(w, effects);
      if e.op.Reload? || e.crash then Load(done) else done
  }

  function Run(c: Crypto, w: World, events: seq<Event>): World
    decreases |events|
  {
    if events == [] then w else Run(c, Step(c, w, events[0]), events[1..])
  }

  // -------------------------------------------------------------------- invariant

  /** Committed, or trying again from committed. */
  predicate Settled(j: Journal) {
    j.phase == Committed || (j.phase == Trying && j.previousPhase == Some(Committed))
  }

  /** The offer on disk is signed under the pinned key, in range, and is the one last staged. */
  predicate MaterialOk(c: Crypto, j: Journal) {
    j.material.Some? ==>
      var m := j.material.value;
      && c.offerOf(m.envelope, j.signingKey) == Some(m.offer)
      && 0.0 < m.offer.generation <= MAXIMUM_GENERATION && Integral(m.offer.generation)
      && m.offer.generation == j.stagedGeneration && c.digest(m.offer.target) == j.stagedTargetHash
  }

  predicate JournalOk(c: Crypto, j: Journal) {
    && LoadAccepts(j) && MaterialOk(c, j) && j.signingKey != "" && Integral(j.stagedGeneration)
    && (j.phase == Staged ==> j.material.Some? && j.material.value.offer.generation > j.highest)
    && (Settled(j) ==> j.challengeReceipt.Some? && ReceiptFits(c, j, j.challengeReceipt.value))
  }

  /** A trial from the staged phase tops every earlier trial. */
  predicate TrialsOk(ts: seq<Trial>) {
    forall i, j :: 0 <= i < j < |ts| && !ts[j].resumed ==> ts[i].generation < ts[j].generation
  }

  /** Staged generations never go back, and a generation stands for one target. */
  predicate StagingsOk(s: seq<(real, string)>) {
    forall i, j :: 0 <= i < j < |s| ==> s[i].0 <= s[j].0 && (s[i].0 == s[j].0 ==> s[i].1 == s[j].1)
  }

  predicate HistoryFits(j: Journal, w: World) {
    && (forall i :: 0 <= i < |w.trials| ==> w.trials[i].generation <= j.highest)
    && (forall i :: 0 <= i < |w.stagings| ==>
          && w.stagings[i].0 <= j.stagedGeneration
          && (w.stagings[i].0 == j.stagedGeneration ==> w.stagings[i].1 == j.stagedTargetHash))
  }

  predicate AckFits(j: Journal, w: World) {
    Settled(j) && !j.ackPending ==> j.material.Some? && j.material.value.offer in w.acked
  }

  predicate Inv(c: Crypto, w: World) {
    && TrialsOk(w.trials) && StagingsOk(w.stagings)
    && (match w.disk
        case None => w.trials == [] && w.stagings == []
        case Some(j) => JournalOk(c, j) && HistoryFits(j, w) && AckFits(j, w))
  }

  /** The invariant holds after every prefix of the effects. */
  predicate Safe(c: Crypto, w: World, es: seq<Effect>)
    decreases |es|
  {
    Inv(c, w) && (es == [] || Safe(c, Apply(w, es[0]), es[1..]))
  }

  lemma SafeCons(c: Crypto, w: World, e: Effect, rest: seq<Effect>)
    requires Inv(c, w) && Safe(c, Apply(w, e), rest)
    ensures Safe(c, w, [e] + rest)
  {
    hide Inv, Apply;
    assert ([e] + rest)[1..] == rest;
  }

  lemma {:induction false} SafePrefix(c: Crypto, w: World, es: seq<Effect>, k: nat)
    requires Safe(c, w, es) && k <= |es|
    ensures Inv(c, ApplyAll(w, es[..k]))
    decreases |es|
  {
    hide Inv, Apply;
    if k > 0 {
      SafePrefix(c, Apply(w, es[0]), es[1..], k - 1);
      assert es[..k][1..] == es[1..][..k - 1];
    }
  }

  /** Replacing the journal by one with the same watermark and staging record. */
  lemma SaveInv(c: Crypto, w: World, j: Journal)
    requires Inv(c, w) && w.disk.Some? && JournalOk(c, j) && AckFits(j, w)
    requires var was := w.disk.value;
      j.highest == was.highest && j.stagedGeneration == was.stagedGeneration && j.stagedTargetHash == was.stagedTargetHash
    ensures Inv(c, Apply(w, Save(j)))
  {
    hide JournalOk;
  }

  lemma ConfirmSafe(c: Crypto, w: World, j: Journal, a: AckInput)
    requires Inv(c, w) && w.disk == Some(j) && j.material.Some?
    ensures Safe(c, w, ConfirmEffects(j, a))
  {
    hide ReceiptFits, HostPart;
    if a.serverAcks {
      var acked := Apply(w, ServerAck(j.material.value.offer));
      assert Inv(c, acked);
      var rest := if a.cleared then [Save(Acknowledged(j))] else [];
      if a.cleared {
        ReceiptFrame(c, j, Acknowledged(j));
        SaveInv(c, acked, Acknowledged(j));
        assert rest[1..] == [];
      }
      assert Safe(c, acked, rest);
      SafeCons(c, w, ServerAck(j.material.value.offer), rest);
    }
  }

  /** A receipt fits an offer and a key, whatever else the journal says. */
  lemma ReceiptFrame(c: Crypto, j: Journal, k: Journal)
    requires j.signingKey == k.signingKey && j.material.Some? && k.material.Some?
    requires j.material.value.offer == k.material.value.offer
    ensures forall envelope :: ReceiptFits(c, j, envelope) <==> ReceiptFits(c, k, envelope)
  {
    hide HostPart;
  }

  lemma AckSafe(c: Crypto, w: World, j: Journal, a: AckInput)
    requires Inv(c, w) && w.disk == Some(j)
    ensures Safe(c, w, AckEffects(c, j, a))
  {
    hide ReceiptFits, HostPart, Safe, ConfirmEffects;
    if AckEffects(c, j, a) == [] {
      SafeNothing(c, w);
    } else if !a.grantExpired {
      ConfirmSafe(c, w, j, a);
    } else {
      var k := Renewed(c, j, a.renewal);
      ReceiptFrame(c, j, k);
      SaveInv(c, w, k);
      ConfirmSafe(c, Apply(w, Save(k)), k, a);
      SafeCons(c, w, Save(k), ConfirmEffects(k, a));
    }
  }

  lemma SafeNothing(c: Crypto, w: World)
    requires Inv(c, w)
    ensures Safe(c, w, [])
  {
  }

  lemma RollBackSafe(c: Crypto, w: World, j: Journal, i: AttemptInput)
    requires Inv(c, w) && w.disk == Some(j) && j.phase == Trying
    ensures Safe(c, w, RollBackEffects(j, i))
  {
    hide ReceiptFits;
    SaveInv(c, w, Abandoned(j));
    SafeNothing(c, Apply(w, Save(Abandoned(j))));
    SafeCons(c, w, Save(Abandoned(j)), []);
  }

  lemma CommitSafe(c: Crypto, w: World, j: Journal, i: AttemptInput)
    requires Inv(c, w) && w.disk == Some(j) && j.phase == Trying
    requires j.challengeReceipt.Some? && ReceiptFits(c, j, j.challengeReceipt.value)
    ensures Safe(c, w, CommitEffects(c, j, i))
  {
    hide ReceiptFits, Safe, AckEffects, RollBackEffects;
    RollBackSafe(c, w, j, i);
    if SourceUnchanged(j, i.sourceAtCommit) && i.commitSaved {
      var k := CommittedTo(j);
      assert j.material.Some? by { ReceiptNeedsOffer(c, j); }
      ReceiptFrame(c, j, k);
      SaveInv(c, w, k);
      AckSafe(c, Apply(w, Save(k)), k, i.ack);
      SafeCons(c, w, Save(k), AckEffects(c, k, i.ack));
    }
  }

  lemma ReceiptNeedsOffer(c: Crypto, j: Journal)
    ensures forall envelope :: ReceiptFits(c, j, envelope) ==> j.material.Some?
  {
  }

  lemma VerifySafe(c: Crypto, w: World, j: Journal, i: AttemptInput)
    requires Inv(c, w) && w.disk == Some(j) && j.phase == Trying
    ensures Safe(c, w, VerifyEffects(c, j, i))
  {
    hide ReceiptFits, Safe, CommitEffects, RollBackEffects;
    RollBackSafe(c, w, j, i);
    if i.connected && i.parametersApplied {
      if j.previousPhase == Some(Committed) {
        CommitSafe(c, w, j, i);
      } else if i.challengeReachable && ReceiptFits(c, j, i.receipt) {
        var k := Verified(j, i.receipt);
        ReceiptNeedsOffer(c, j);
        ReceiptFrame(c, j, k);
        SaveInv(c, w, k);
        CommitSafe(c, Apply(w, Save(k)), k, i);
        SafeCons(c, w, Save(k), CommitEffects(c, k, i));
      }
    }
  }

  lemma BeginInv(c: Crypto, w: World, j: Journal)
    requires Inv(c, w) && w.disk == Some(j) && (j.phase == Staged || j.phase == Committed) && j.material.Some?
    ensures Inv(c, Apply(w, Begin(Begun(j))))
  {
    hide ReceiptFits;
    ReceiptFrame(c, j, Begun(j));
    var ts := Apply(w, Begin(Begun(j))).trials;
    assert forall k :: 0 <= k < |w.trials| ==> ts[k] == w.trials[k];
  }

  lemma AttemptSafe(c: Crypto, w: World, j: Journal, i: AttemptInput)
    requires Inv(c, w) && w.disk == Some(j)
    ensures Safe(c, w, AttemptEffects(c, j, i))
  {
    hide Safe, VerifyEffects;
    SafeNothing(c, w);
    if IsCandidate(c, j, i.files) {
      BeginInv(c, w, j);
      VerifySafe(c, Apply(w, Begin(Begun(j))), Begun(j), i);
      SafeCons(c, w, Begin(Begun(j)), VerifyEffects(c, Begun(j), i));
    } else {
      RetireSafe(c, w, j);
    }
  }

  lemma RetireSafe(c: Crypto, w: World, j: Journal)
    requires Inv(c, w) && w.disk == Some(j)
    ensures Inv(c, Apply(w, Save(Retired(j)))) && Safe(c, w, [Save(Retired(j))])
  {
    hide ReceiptFits;
    SaveInv(c, w, Retired(j));
    SafeNothing(c, Apply(w, Save(Retired(j))));
    SafeCons(c, w, Save(Retired(j)), []);
  }

  lemma StageInv(c: Crypto, w: World, e: Enrolment)
    requires Inv(c, w) && Enrolled(c, w.disk, e).Some?
    ensures Inv(c, Apply(w, Stage(Enrolled(c, w.disk, e).value)))
  {
    hide ReceiptFits;
    var j := Enrolled(c, w.disk, e).value;
    var s := Apply(w, Stage(j)).stagings;
    assert forall k :: 0 <= k < |w.stagings| ==> s[k] == w.stagings[k];
    if w.disk.Some? { IntegralStep(j.stagedGeneration, w.disk.value.stagedGeneration); }
  }

  lemma IntegralStep(a: real, b: real)
    requires Integral(a) && Integral(b) && a > b - 1.0
    ensures a >= b
  {
    var x, y := a.Floor, b.Floor;
    assert (y - 1) as real == y as real - 1.0;
    assert x > y - 1;
  }

  lemma EnrolSafe(c: Crypto, w: World, i: EnrolInput)
    requires Inv(c, w)
    ensures Safe(c, w, EnrolEffects(c, w.disk, i))
  {
    hide Safe, AckEffects, StageEffects, IsCandidate;
    SafeNothing(c, w);
    if w.disk.Some? && w.disk.value.phase == Committed {
      AckSafe(c, w, w.disk.value, i.ack);
    } else if w.disk.Some? && w.disk.value.phase == Staged {
      var k := Retired(w.disk.value);
      RetireSafe(c, w, w.disk.value);
      StageSafe(c, Apply(w, Save(k)), i);
      SafeCons(c, w, Save(k), StageEffects(c, Some(k), i));
    } else {
      StageSafe(c, w, i);
    }
  }

  lemma StageSafe(c: Crypto, w: World, i: EnrolInput)
    requires Inv(c, w)
    ensures Safe(c, w, StageEffects(c, w.disk, i))
  {
    hide Safe, Enrolled;
    SafeNothing(c, w);
    var staged := Enrolled(c, w.disk, i.enrolment);
    if staged.Some? {
      StageInv(c, w, i.enrolment);
      SafeNothing(c, Apply(w, Stage(staged.value)));
      SafeCons(c, w, Stage(staged.value), []);
      assert [Stage(staged.value)] + [] == [Stage(staged.value)];
    }
  }

  lemma LoadInv(c: Crypto, w: World)
    requires Inv(c, w)
    ensures Inv(c, Load(w))
  {
    if w.disk.Some? && w.disk.value.phase == Trying && w.disk.value.previousPhase == Some(Committed) {
      ReceiptNeedsOffer(c, w.disk.value);
      ReceiptFrame(c, w.disk.value, Loaded(w.disk.value));
    }
    hide ReceiptFits;
  }

  lemma StepInv(c: Crypto, w: World, e: Event)
    requires Inv(c, w)
    ensures Inv(c, Step(c, w, e))
  {
    hide Inv, Safe, EnrolEffects, AttemptEffects;
    var effects := EffectsOf(c, w, e.op);
    match e.op {
      case Enrol(i) => EnrolSafe(c, w, i);
      case Attempt(i) => if w.disk.Some? { AttemptSafe(c, w, w.disk.value, i); } else { SafeNothing(c, w); }
      case Reload => SafeNothing(c, w);
    }
    SafePrefix(c, w, effects, if e.survives < |effects| then e.survives else |effects|);
    SafePrefix(c, w, effects, |effects|);
    assert effects[..|effects|] == effects;
    LoadInv(c, ApplyAll(w, effects));
    if e.survives < |effects| { LoadInv(c, ApplyAll(w, effects[..e.survives])); }
  }

  lemma {:induction false} RunInv(c: Crypto, w: World, events: seq<Event>)
    requires Inv(c, w)
    ensures Inv(c, Run(c, w, events))
    decreases |events|
  {
    hide Inv, Step;
    if events != [] {
      StepInv(c, w, events[0]);
      RunInv(c, Step(c, w, events[0]), events[1..]);
    }
  }

  // --------------------------------------------------------------- main results

  /** From an empty disk, whatever the network answers and wherever a crash falls. */
  lemma JournalHistory(c: Crypto, events: seq<Event>)
    ensures var w := Run(c, EMPTY_DISK, events);
      && TrialsOk(w.trials) && StagingsOk(w.stagings)
      && (w.disk.Some? ==> LoadAccepts(w.disk.value))
      && (forall i :: 0 <= i < |w.trials| ==> w.disk.Some? && w.trials[i].generation <= w.disk.value.highest)
  {
    RunInv(c, EMPTY_DISK, events);
    hide Run, ReceiptFits;
  }

  /**
   In every run with crashes, a journal that is committed, or trying again from committed, holds an offer that its
   envelope yields under the pinned key, and a stored answer that opens under that key to a document naming this
   offer's server, peer, container and generation, its challenge nonce, and the address in front of the prefix
   length of its client address. A cleared flag means that the server has acknowledged this offer.
   */
  lemma CommittedIsProven(c: Crypto, events: seq<Event>)
    ensures var w := Run(c, EMPTY_DISK, events);
      w.disk.Some?
      && (|| w.disk.value.phase == Committed
          || (w.disk.value.phase == Trying && w.disk.value.previousPhase == Some(Committed))) ==>
        var j := w.disk.value;
        && j.material.Some? && j.challengeReceipt.Some?
        && c.offerOf(j.material.value.envelope, j.signingKey) == Some(j.material.value.offer)
        && c.receiptOf(j.challengeReceipt.value, j.signingKey).Some?
        && (var offer, r := j.material.value.offer, c.receiptOf(j.challengeReceipt.value, j.signingKey).value;
            && r.server == offer.server && r.peer == offer.peer && r.container == offer.container
            && r.generation == offer.generation && r.nonce == offer.challengeNonce
            && InFront(r.targetAddress, offer.target.clientAddress))
        && (!j.ackPending ==> j.material.value.offer in w.acked)
  {
    RunInv(c, EMPTY_DISK, events);
    var w := Run(c, EMPTY_DISK, events);
    hide Run, HostPart, InFront, Integral;
    if w.disk.Some? && Settled(w.disk.value) {
      ReceiptNeedsOffer(c, w.disk.value);
      HostPartInFront(w.disk.value.material.value.offer.target.clientAddress);
    }
  }

  /** The watermark never falls, the signer never changes, and histories only grow. */
  predicate Later(w: World, r: World) {
    && w.trials <= r.trials && w.stagings <= r.stagings && w.acked <= r.acked
    && (w.disk.Some? ==> r.disk.Some? && w.disk.value.highest <= r.disk.value.highest
                         && w.disk.value.signingKey == r.disk.value.signingKey)
  }

  /** Each effect in turn leads to a later world. */
  predicate Ordered(w: World, es: seq<Effect>)
    decreases |es|
  {
    es == [] || (Later(w, Apply(w, es[0])) && Ordered(Apply(w, es[0]), es[1..]))
  }

  lemma OrderedCons(w: World, e: Effect, rest: seq<Effect>)
    requires Later(w, Apply(w, e)) && Ordered(Apply(w, e), rest)
    ensures Ordered(w, [e] + rest)
  {
    hide Apply, Later;
    assert ([e] + rest)[1..] == rest;
  }

  lemma {:induction false} OrderedPrefix(w: World, es: seq<Effect>, k: nat)
    requires Ordered(w, es) && k <= |es|
    ensures Later(w, ApplyAll(w, es[..k]))
    decreases |es|
  {
    hide Apply;
    if k > 0 {
      OrderedPrefix(Apply(w, es[0]), es[1..], k - 1);
      assert es[..k][1..] == es[1..][..k - 1];
    }
  }

  /** Saving an edited copy of the journal on disk. */
  lemma EditOrdered(w: World, e: Effect, rest: seq<Effect>)
    requires w.disk.Some? && (e.Save? || e.Begin?)
    requires e.journal.highest >= w.disk.value.highest && e.journal.signingKey == w.disk.value.signingKey
    requires Ordered(Apply(w, e), rest)
    ensures Ordered(w, [e] + rest)
  {
    OrderedCons(w, e, rest);
  }

  lemma ConfirmOrdered(w: World, j: Journal, a: AckInput)
    requires w.disk == Some(j) && j.material.Some?
    ensures Ordered(w, ConfirmEffects(j, a))
  {
    if a.serverAcks {
      var e := ServerAck(j.material.value.offer);
      var rest := if a.cleared then [Save(Acknowledged(j))] else [];
      if a.cleared { EditOrdered(Apply(w, e), Save(Acknowledged(j)), []); }
      OrderedCons(w, e, rest);
    }
  }

  lemma AckOrdered(c: Crypto, w: World, j: Journal, a: AckInput)
    requires w.disk == Some(j)
    ensures Ordered(w, AckEffects(c, j, a))
  {
    hide RenewalFits, ConfirmEffects, Ordered;
    if AckEffects(c, j, a) == [] {
      OrderedNothing(w);
    } else if !a.grantExpired {
      ConfirmOrdered(w, j, a);
    } else {
      RenewalKnown(c, j, a);
      var k := Renewed(c, j, a.renewal);
      ConfirmOrdered(Apply(w, Save(k)), k, a);
      EditOrdered(w, Save(k), ConfirmEffects(k, a));
    }
  }

  lemma RenewalKnown(c: Crypto, j: Journal, a: AckInput)
    requires RenewalFits(c, j, a.renewal, a.nonce, a.now)
    ensures c.renewalOf(a.renewal, j.signingKey).Some?
  {
  }

  lemma OrderedNothing(w: World)
    ensures Ordered(w, [])
  {
  }

  lemma CommitOrdered(c: Crypto, w: World, j: Journal, i: AttemptInput)
    requires w.disk == Some(j)
    ensures Ordered(w, CommitEffects(c, j, i)) && Ordered(w, RollBackEffects(j, i))
  {
    hide AckEffects;
    EditOrdered(w, Save(Abandoned(j)), []);
    var k := CommittedTo(j);
    AckOrdered(c, Apply(w, Save(k)), k, i.ack);
    EditOrdered(w, Save(k), AckEffects(c, k, i.ack));
  }

  lemma AttemptOrdered(c: Crypto, w: World, j: Journal, i: AttemptInput)
    requires w.disk == Some(j)
    ensures Ordered(w, AttemptEffects(c, j, i))
  {
    hide Ordered, ReceiptFits, CommitEffects, RollBackEffects, IsCandidate;
    OrderedNothing(w);
    OrderedNothing(Apply(w, Save(Retired(j))));
    EditOrdered(w, Save(Retired(j)), []);
    assert [Save(Retired(j))] + [] == [Save(Retired(j))];
    var b := Begun(j);
    var begun := Apply(w, Begin(b));
    var v := Verified(b, i.receipt);
    CommitOrdered(c, begun, b, i);
    CommitOrdered(c, Apply(begun, Save(v)), v, i);
    EditOrdered(begun, Save(v), CommitEffects(c, v, i));
    EditOrdered(w, Begin(b), VerifyEffects(c, b, i));
  }

  lemma StageOrdered(c: Crypto, w: World, i: EnrolInput)
    requires w.disk.Some? ==> w.disk.value.signingKey != ""
    ensures Ordered(w, StageEffects(c, w.disk, i))
  {
    hide RefreshAcceptable;
    var staged := Enrolled(c, w.disk, i.enrolment);
    if staged.Some? {
      OrderedNothing(Apply(w, Stage(staged.value)));
      OrderedCons(w, Stage(staged.value), []);
      assert [Stage(staged.value)] + [] == [Stage(staged.value)];
    }
  }

  lemma EnrolOrdered(c: Crypto, w: World, i: EnrolInput)
    requires w.disk.Some? ==> w.disk.value.signingKey != ""
    ensures Ordered(w, EnrolEffects(c, w.disk, i))
  {
    hide AckEffects, StageEffects, IsCandidate, Ordered;
    OrderedNothing(w);
    if w.disk.Some? && w.disk.value.phase == Committed {
      AckOrdered(c, w, w.disk.value, i.ack);
    } else if w.disk.Some? && w.disk.value.phase == Staged {
      var k := Retired(w.disk.value);
      StageOrdered(c, Apply(w, Save(k)), i);
      EditOrdered(w, Save(k), StageEffects(c, Some(k), i));
    } else {
      StageOrdered(c, w, i);
    }
  }

  lemma StepLater(c: Crypto, w: World, e: Event)
    requires Inv(c, w)
    ensures Later(w, Step(c, w, e))
  {
    var effects := EffectsOf(c, w, e.op);
    hide EnrolEffects, AttemptEffects, Ordered, ReceiptFits, MaterialOk, HistoryFits;
    match e.op {
      case Enrol(i) => EnrolOrdered(c, w, i);
      case Attempt(i) => if w.disk.Some? { AttemptOrdered(c, w, w.disk.value, i); } else { OrderedNothing(w); }
      case Reload => OrderedNothing(w);
    }
    OrderedPrefix(w, effects, if e.survives < |effects| then e.survives else |effects|);
    OrderedPrefix(w, effects, |effects|);
    assert effects[..|effects|] == effects;
  }

  lemma {:induction false} RunLater(c: Crypto, w: World, events: seq<Event>)
    requires Inv(c, w)
    ensures Later(w, Run(c, w, events))
    decreases |events|
  {
    hide Inv, Step;
    if events != [] {
      StepInv(c, w, events[0]);
      StepLater(c, w, events[0]);
      RunLater(c, Step(c, w, events[0]), events[1..]);
    }
  }

  /** Between any two points of any run the watermark does not fall and the pinned signer does not change. */
  lemma WatermarkMonotone(c: Crypto, before: seq<Event>, after: seq<Event>)
    ensures var w := Run(c, EMPTY_DISK, before);
      Later(w, Run(c, w, after))
  {
    RunInv(c, EMPTY_DISK, before);
    RunLater(c, Run(c, EMPTY_DISK, before), after);
  }

  // ------------------------------------------------------------------ the manager

  /** What the disk holds after a sequence of effects. */
  function DiskAfter(disk: Option<Journal>, es: seq<Effect>): Option<Journal> {
    ApplyAll(World(disk, [], [], {}), es).disk
  }

  lemma {:induction false} DiskOnly(w: World, v: World, es: seq<Effect>)
    requires w.disk == v.disk
    ensures ApplyAll(w, es).disk == ApplyAll(v, es).disk
    decreases |es|
  {
    if es != [] { DiskOnly(Apply(w, es[0]), Apply(v, es[0]), es[1..]); }
  }

  lemma DiskCons(disk: Option<Journal>, e: Effect, rest: seq<Effect>)
    ensures DiskAfter(disk, []) == disk
    ensures DiskAfter(disk, [e]) == if e.ServerAck? then disk else Some(e.journal)
    ensures DiskAfter(disk, [e] + rest) == DiskAfter(if e.ServerAck? then disk else Some(e.journal), rest)
  {
    var w := World(disk, [], [], {});
    assert ([e] + rest)[1..] == rest;
    assert ApplyAll(w, [e]) == ApplyAll(Apply(w, e), [e][1..]);
    DiskOnly(Apply(w, e), World(if e.ServerAck? then disk else Some(e.journal), [], [], {}), rest);
  }

  /** The manager of one profile; `journal` is the content of its journal file. */
  class AwgMigrationManager {
    const crypto: Crypto
    var journal: Option<Journal>

    constructor (crypto: Crypto)
      ensures journal.None? && this.crypto == crypto
    {
      this.crypto := crypto;
      journal := None;
    }

    method WriteState(j: Journal, saved: bool) returns (ok: bool)
      modifies this
      ensures ok == saved && journal == if saved then Some(j) else old(journal)
    {
      if saved {
        journal := Some(j);
      }
      return saved;
    }

    method LoadJournal() returns (ok: bool)
      modifies this
      ensures ok == (old(journal).None? || LoadAccepts(old(journal).value))
      ensures journal == if ok && old(journal).Some? then Some(Loaded(old(journal).value)) else old(journal)
      ensures old(journal).Some? ==>
                var j := old(journal).value;
                && (ok <==> 0.0 <= j.highest <= 9007199254740991.0 && j.highest == j.highest.Floor as real)
                && journal == Some(if !ok || j.phase != Trying then j
                                   else if j.previousPhase == Some(Committed) then j.(phase := Committed)
                                   else j.(phase := RolledBack))
    {
      if journal.None? {
        return true;
      }
      var value := journal.value;
      if !(0.0 <= value.highest <= MAXIMUM_GENERATION) || value.highest != value.highest.Floor as real {
        return false;
      }
      if value.phase == Trying {
        value := value.(phase := if value.previousPhase == Some(Committed) then Committed else RolledBack);
        journal := Some(value);
      }
      return true;
    }

    /** Whether the journal offers something to connect with; retires what has become useless. */
    method Candidate(f: Files, retireSaved: bool) returns (usable: bool)
      requires journal.Some?
      modifies this
      ensures usable == IsCandidate(crypto, old(journal).value, f)
      ensures journal == if CandidateRetires(crypto, old(journal).value, f) && retireSaved
                         then Some(Retired(old(journal).value)) else old(journal)
      ensures var j := old(journal).value;
        var same := f.sourceReadable && f.sourceHash == j.sourceHash;
        var good := && same && j.material.Some? && f.candidateReadable && f.candidateHash == j.material.value.candidateHash
                    && crypto.offerOf(j.material.value.envelope, j.signingKey) == Some(j.material.value.offer);
        var late := j.phase == Staged && j.material.Some? && j.material.value.offer.expiresAt <= f.now;
        && (usable <==> good && !late && (j.phase == Staged || j.phase == Committed))
        && journal == if j.phase == Staged && (!same || (good && late)) && retireSaved
                      then Some(j.(phase := Expired, material := None)) else old(journal)
    {
      var j := journal.value;
      if j.phase != Staged && j.phase != Committed {
        return false;
      }
      if !f.sourceReadable || f.sourceHash != j.sourceHash {
        if j.phase == Staged {
          var _ := WriteState(Retired(j), retireSaved);
        }
        return false;
      }
      if j.material.None? || !f.candidateReadable || f.candidateHash != j.material.value.candidateHash {
        return false;
      }
      if crypto.offerOf(j.material.value.envelope, j.signingKey) != Some(j.material.value.offer) {
        return false;
      }
      if j.phase == Staged && j.material.value.offer.expiresAt <= f.now {
        var _ := WriteState(Retired(j), retireSaved);
        return false;
      }
      return true;
    }

    /**
     The attempt is on record before anything is tried: the watermark covers its generation, and reloading the
     journal after a crash takes the attempt back.
     */
    method BeginTrial(saved: bool) returns (ok: bool)
      requires journal.Some?
      modifies this
      ensures ok == saved && journal == if saved then Some(Begun(old(journal).value)) else old(journal)
      ensures ok ==>
                && journal.value.highest >= old(journal).value.highest
                && (journal.value.material.Some? ==> journal.value.highest >= journal.value.material.value.offer.generation)
      ensures ok ==>
                Loaded(journal.value).phase == (if old(journal).value.phase == Committed then Committed else RolledBack)
    {
      var j := journal.value;
      var generation := if j.material.Some? then j.material.value.offer.generation else 0.0;
      j := j.(previousPhase := Some(j.phase), highest := Max(j.highest, generation), phase := Trying);
      ok := WriteState(j, saved);
    }

    method Verify(i: AttemptInput) returns (ok: bool)
      requires journal.Some?
      modifies this
      ensures var j := old(journal).value;
        if j.previousPhase == Some(Committed) then ok == i.parametersApplied && journal == old(journal)
        else
          && ok == (&& i.parametersApplied && i.challengeReachable && i.handshake && i.receiptSaved
                    && j.material.Some? && crypto.receiptOf(i.receipt, j.signingKey).Some?
                    && var offer, r := j.material.value.offer, crypto.receiptOf(i.receipt, j.signingKey).value;
                      && r.server == offer.server && r.peer == offer.peer && r.container == offer.container
                      && r.generation == offer.generation && r.nonce == offer.challengeNonce
                      && InFront(r.targetAddress, offer.target.clientAddress) && r.expiresAt > i.now)
          && journal == if ok then Some(Verified(j, i.receipt)) else old(journal)
    {
      hide HostPart, InFront;
      var j := journal.value;
      if j.previousPhase == Some(Committed) {
        return i.parametersApplied;
      }
      if !i.parametersApplied || !i.challengeReachable {
        return false;
      }
      var receipt := crypto.receiptOf(i.receipt, j.signingKey);
      if receipt.None? || j.material.None? {
        return false;
      }
      var r, offer := receipt.value, j.material.value.offer;
      HostPartInFront(offer.target.clientAddress);
      if InFront(r.targetAddress, offer.target.clientAddress) {
        HostPartUnique(r.targetAddress, offer.target.clientAddress);
      }
      if || r.server != offer.server || r.peer != offer.peer || r.container != offer.container
         || r.generation != offer.generation || r.nonce != offer.challengeNonce
         || r.targetAddress != HostPart(offer.target.clientAddress) || r.expiresAt <= i.now || !i.handshake {
        return false;
      }
      ok := WriteState(j.(challengeReceipt := Some(i.receipt)), i.receiptSaved);
    }

    method Commit(f: Files, saved: bool) returns (ok: bool)
      requires journal.Some?
      modifies this
      ensures ok == (SourceUnchanged(old(journal).value, f) && saved)
      ensures journal == if ok then Some(CommittedTo(old(journal).value)) else old(journal)
    {
      var j := journal.value;
      if !f.sourceReadable || f.sourceHash != j.sourceHash {
        return false;
      }
      j := j.(phase := Committed);
      if j.previousPhase != Some(Committed) {
        j := j.(ackPending := true);
      }
      ok := WriteState(j, saved);
    }

    /** Whatever the files look like, an abandoned attempt is not offered again, and its generation stays used. */
    method Abandon(saved: bool) returns (ok: bool)
      requires journal.Some?
      modifies this
      ensures ok == saved && journal == if saved then Some(Abandoned(old(journal).value)) else old(journal)
      ensures ok ==> forall f :: !IsCandidate(crypto, journal.value, f)
      ensures ok ==> journal.value.highest == old(journal).value.highest
    {
      ok := WriteState(journal.value.(phase := RolledBack), saved);
    }

    method Acknowledge(a: AckInput)
      requires journal.Some?
      modifies this
      ensures journal == DiskAfter(old(journal), AckEffects(crypto, old(journal).value, a))
    {
      hide RenewalFits;
      var j := journal.value;
      DiskCons(journal, ServerAck(if j.material.Some? then j.material.value.offer else ANY_OFFER), []);
      if j.phase != Committed || !j.ackPending || j.material.None? || !a.parametersApplied {
        return;
      }
      if a.grantExpired {
        if !a.renewalReachable || !RenewalFits(crypto, j, a.renewal, a.nonce, a.now) {
          return;
        }
        RenewalKnown(crypto, j, a);
        var k := Renewed(crypto, j, a.renewal);
        var saved := WriteState(k, a.renewalSaved);
        if !saved {
          return;
        }
        DiskCons(old(journal), Save(k), ConfirmEffects(k, a));
        j := k;
      }
      ConfirmDisk(j, a);
      if !a.serverAcks {
        return;
      }
      var _ := WriteState(j.(ackPending := false), a.cleared);
    }

    method Enroll(i: EnrolInput)
      modifies this
      ensures journal == DiskAfter(old(journal), EnrolEffects(crypto, old(journal), i))
    {
      hide IsCandidate, CandidateRetires, Enrolled, AckEffects, DiskAfter;
      if journal.Some? && journal.value.phase == Committed {
        Acknowledge(i.ack);
        return;
      }
      DiskCons(journal, ServerAck(ANY_OFFER), []);
      if journal.Some? && journal.value.phase == Staged {
        ghost var j := journal.value;
        var usable := Candidate(i.files, i.retireSaved);
        NotRetiredIfUsable(crypto, j, i.files);
        if usable || !i.retireSaved {
          return;
        }
        if journal.value.phase == Staged {
          var _ := WriteState(Retired(journal.value), i.retireSaved);
        }
        DiskCons(Some(j), Save(Retired(j)), StageEffects(crypto, Some(Retired(j)), i));
      }
      StageOffer(i);
    }

    /** Fetches, checks and stages a fresh offer. */
    method StageOffer(i: EnrolInput)
      modifies this
      ensures journal == DiskAfter(old(journal), StageEffects(crypto, old(journal), i))
    {
      hide RefreshAcceptable, DiskAfter;
      var e := i.enrolment;
      DiskCons(journal, ServerAck(ANY_OFFER), []);
      if !e.exchanged || e.key == "" || e.grant == "" || |e.grant| > MAXIMUM_GRANT || e.grantExpiresAt <= e.now {
        return;
      }
      if journal.Some? && journal.value.signingKey != "" && journal.value.signingKey != e.key {
        return;
      }
      var offer := crypto.offerOf(e.envelope, e.key);
      if offer.None? || !RefreshAcceptable(crypto, offer.value, journal, e.now) {
        return;
      }
      var o := offer.value;
      if || o.server != e.server || o.peer != e.peer || o.container != e.container || o.source != e.source
         || o.nonce != e.nonce {
        return;
      }
      var material := Material(o, e.envelope, e.grant, e.grantExpiresAt, e.candidateHash);
      var staged := Journal(Staged, None, if journal.Some? then journal.value.highest else 0.0, Some(material),
                            e.sourceHash, e.key, o.generation, crypto.digest(o.target), None, false);
      DiskCons(journal, Stage(staged), []);
      var _ := WriteState(staged, i.staged);
    }

    /** One managed connection attempt, in the order the daemon makes it. */
    method Attempt(i: AttemptInput)
      requires journal.Some?
      modifies this
      ensures journal == DiskAfter(old(journal), AttemptEffects(crypto, old(journal).value, i))
    {
      hide IsCandidate, CandidateRetires, ReceiptFits, ReceiptCurrent, AckEffects, DiskAfter;
      ghost var j := journal.value;
      var usable := Candidate(i.files, i.retireSaved);
      DiskCons(Some(j), Save(Retired(j)), []);
      NotRetiredIfUsable(crypto, j, i.files);
      assert [Save(Retired(j))] + [] == [Save(Retired(j))];
      if !usable {
        return;
      }
      var begun := BeginTrial(i.begun);
      if !begun {
        return;
      }
      ghost var b := Begun(j);
      DiskCons(Some(j), Begin(b), VerifyEffects(crypto, b, i));
      FinishAttempt(i);
    }

    method FinishAttempt(i: AttemptInput)
      requires journal.Some?
      modifies this
      ensures journal == DiskAfter(old(journal), VerifyEffects(crypto, old(journal).value, i))
    {
      hide ReceiptFits, AckEffects, DiskAfter, InFront;
      ghost var b := journal.value;
      ghost var v := Verified(b, i.receipt);
      DiskCons(Some(b), Save(v), CommitEffects(crypto, v, i));
      var verified := false;
      if i.connected {
        ReceiptSpelledOut(crypto, b, i.receipt);
        verified := Verify(i);
      }
      ghost var k := journal.value;
      DiskCons(Some(k), Save(CommittedTo(k)), AckEffects(crypto, CommittedTo(k), i.ack));
      DiskCons(Some(k), Save(Abandoned(k)), []);
      if verified {
        var committed := Commit(i.sourceAtCommit, i.commitSaved);
        if committed {
          Acknowledge(i.ack);
          return;
        }
      }
      if i.cleaned {
        var _ := Abandon(i.abandonSaved);
      }
    }
  }

  const ANY_OFFER := Offer("", "", "", "", "", 0.0, 0.0, Target("", "", ""), "")

  lemma ConfirmDisk(j: Journal, a: AckInput)
    requires j.material.Some?
    ensures DiskAfter(Some(j), ConfirmEffects(j, a)) == Some(if a.serverAcks && a.cleared then Acknowledged(j) else j)
  {
    var rest := if a.cleared then [Save(Acknowledged(j))] else [];
    DiskCons(Some(j), ServerAck(j.material.value.offer), rest);
    DiskCons(Some(j), Save(Acknowledged(j)), []);
    hide DiskAfter;
  }

  /** The fields in which an answer has to agree with the offer. */
  lemma ReceiptSpelledOut(c: Crypto, j: Journal, envelope: string)
    ensures ReceiptFits(c, j, envelope)
       <==> && j.material.Some? && c.receiptOf(envelope, j.signingKey).Some?
            && var offer, r := j.material.value.offer, c.receiptOf(envelope, j.signingKey).value;
              && r.server == offer.server && r.peer == offer.peer && r.container == offer.container
              && r.generation == offer.generation && r.nonce == offer.challengeNonce
              && InFront(r.targetAddress, offer.target.clientAddress)
  {
    hide HostPart, InFront;
    if j.material.Some? && c.receiptOf(envelope, j.signingKey).Some? {
      var address, host := j.material.value.offer.target.clientAddress,
        c.receiptOf(envelope, j.signingKey).value.targetAddress;
      HostPartInFront(address);
      if InFront(host, address) { HostPartUnique(host, address); }
    }
  }

  /**
   A staged offer ends up committed exactly when its files are as staged and its envelope still yields it, it has
   not expired, the attempt is begun and connects, the parameters are applied, a current answer agrees with the
   offer in every field, the handshake is there, the source is unchanged at the end, and all saves succeed.
   */
  lemma AttemptCommitsIff(c: Crypto, j: Journal, i: AttemptInput)
    requires j.phase == Staged
    ensures var end := DiskAfter(Some(j), AttemptEffects(c, j, i));
      end.Some? && (end.value.phase == Committed <==>
        && i.begun && i.connected && i.parametersApplied && i.challengeReachable && i.handshake
        && i.receiptSaved && i.commitSaved
        && i.files.sourceReadable && i.files.sourceHash == j.sourceHash && i.files.candidateReadable
        && i.sourceAtCommit.sourceReadable && i.sourceAtCommit.sourceHash == j.sourceHash
        && j.material.Some? && c.receiptOf(i.receipt, j.signingKey).Some?
        && var m, r := j.material.value, c.receiptOf(i.receipt, j.signingKey).value;
          && i.files.candidateHash == m.candidateHash && c.offerOf(m.envelope, j.signingKey) == Some(m.offer)
          && m.offer.expiresAt > i.files.now && r.expiresAt > i.now
          && r.server == m.offer.server && r.peer == m.offer.peer && r.container == m.offer.container
          && r.generation == m.offer.generation && r.nonce == m.offer.challengeNonce
          && InFront(r.targetAddress, m.offer.target.clientAddress))
  {
    hide InFront, HostPart, AttemptEffects, DiskAfter;
    CommitsThrough(c, j, i);
    ReceiptSpelledOut(c, j, i.receipt);
    hide ReceiptFits;
  }

  lemma CommitsThrough(c: Crypto, j: Journal, i: AttemptInput)
    requires j.phase == Staged
    ensures var end := DiskAfter(Some(j), AttemptEffects(c, j, i));
      end.Some? && (end.value.phase == Committed <==>
        && IsCandidate(c, j, i.files) && i.begun && i.connected && i.parametersApplied && i.challengeReachable
        && ReceiptFits(c, j, i.receipt) && ReceiptCurrent(c, j, i) && i.receiptSaved
        && SourceUnchanged(j, i.sourceAtCommit) && i.commitSaved)
  {
    hide DiskAfter, IsCandidate, CandidateRetires, ReceiptFits, AckEffects;
    var b := Begun(j);
    var v := Verified(b, i.receipt);
    var k := CommittedTo(v);
    DiskCons(Some(j), Save(Retired(j)), []);
    DiskCons(Some(j), Begin(b), VerifyEffects(c, b, i));
    DiskCons(Some(b), Save(Abandoned(b)), []);
    DiskCons(Some(b), Save(v), CommitEffects(c, v, i));
    DiskCons(Some(v), Save(Abandoned(v)), []);
    DiskCons(Some(v), Save(k), AckEffects(c, k, i.ack));
    AckKeepsPhase(c, k, i.ack);
    ReceiptNeedsOffer(c, j);
    ReceiptNeedsOffer(c, b);
    if j.material.Some? { ReceiptFrame(c, j, b); }
  }

  lemma AckKeepsPhase(c: Crypto, j: Journal, a: AckInput)
    ensures var end := DiskAfter(Some(j), AckEffects(c, j, a)); end.Some? && end.value.phase == j.phase
  {
    hide DiskAfter, RenewalFits, ConfirmEffects;
    DiskCons(Some(j), ServerAck(ANY_OFFER), []);
    if j.material.Some? {
      ConfirmDisk(j, a);
      if RenewalFits(c, j, a.renewal, a.nonce, a.now) {
        RenewalKnown(c, j, a);
        var k := Renewed(c, j, a.renewal);
        ConfirmDisk(k, a);
        DiskCons(Some(j), Save(k), ConfirmEffects(k, a));
      }
    }
  }

  /**
   Staging writes a journal exactly when the exchange succeeded under the pinned key, the grant is usable, the
   envelope yields an unexpired offer for this binding whose whole generation is above the watermark and not below
   the one staged last, with the same target digest if it is the same, and the save succeeds. What it writes is
   that offer with its envelope, grant and hashes, and the watermark it found.
   */
  lemma StagesIff(c: Crypto, previous: Option<Journal>, i: EnrolInput)
    ensures var e, end := i.enrolment, DiskAfter(previous, StageEffects(c, previous, i));
      var highest, staged := if previous.Some? then previous.value.highest else 0.0,
                             if previous.Some? then previous.value.stagedGeneration else 0.0;
      if && i.staged && e.exchanged && e.key != "" && 0 < |e.grant| <= 4096 && e.grantExpiresAt > e.now
         && (previous.Some? && previous.value.signingKey != "" ==> previous.value.signingKey == e.key)
         && c.offerOf(e.envelope, e.key).Some?
         && var o := c.offerOf(e.envelope, e.key).value;
           && o.generation > highest && o.generation > staged - 1.0 && o.generation <= 9007199254740991.0
           && o.generation == o.generation.Floor as real && o.expiresAt > e.now
           && (previous.Some? && o.generation == staged ==> c.digest(o.target) == previous.value.stagedTargetHash)
           && o.server == e.server && o.peer == e.peer && o.container == e.container
           && o.source == e.source && o.nonce == e.nonce
      then
        var o := c.offerOf(e.envelope, e.key).value;
        end == Some(Journal(Staged, None, highest, Some(Material(o, e.envelope, e.grant, e.grantExpiresAt, e.candidateHash)),
                            e.sourceHash, e.key, o.generation, c.digest(o.target), None, false))
      else end == previous
  {
    if Enrolled(c, previous, i.enrolment).Some? { DiskCons(previous, Stage(Enrolled(c, previous, i.enrolment).value), []); }
    hide DiskAfter;
    assert i.enrolment.grant == "" <==> |i.enrolment.grant| == 0;
    assert DiskAfter(previous, []) == previous by { DiskNothing(previous); }
  }

  /** A renewal that is signed, asked for with this nonce, current but not for too long, and for this very offer. */
  predicate RenewsGrant(c: Crypto, j: Journal, a: AckInput) {
    && j.material.Some? && a.renewalReachable && a.renewalSaved && c.renewalOf(a.renewal, j.signingKey).Some?
    && var offer, r := j.material.value.offer, c.renewalOf(a.renewal, j.signingKey).value;
      && r.server == offer.server && r.peer == offer.peer && r.container == offer.container && r.source == offer.source
      && r.generation == offer.generation && r.targetHash == c.digest(offer.target) && r.nonce == a.nonce
      && a.now < r.expiresAt <= a.now + 86405.0 && 0 < |r.grant| <= 4096
  }

  /**
   Acknowledging tells the server about the offer exactly when a committed journal owes it, the parameters are
   applied, and the grant has not expired or is renewed first. The flag is cleared exactly when the server then
   acknowledges and the save succeeds; a renewed grant is kept in any case, and nothing else changes.
   */
  lemma AcknowledgesIff(c: Crypto, j: Journal, a: AckInput)
    ensures var effects := AckEffects(c, j, a);
      var owes := j.phase == Committed && j.ackPending && j.material.Some? && a.parametersApplied;
      var renewed := owes && a.grantExpired && RenewsGrant(c, j, a);
      var told := owes && (a.grantExpired ==> renewed) && a.serverAcks;
      && (forall o :: ServerAck(o) in effects <==> told && o == j.material.value.offer)
      && DiskAfter(Some(j), effects) == Some(j.(
           ackPending := j.ackPending && !(told && a.cleared),
           material := if !renewed then j.material
                       else var r := c.renewalOf(a.renewal, j.signingKey).value;
                         Some(j.material.value.(grant := r.grant, grantExpiresAt := r.expiresAt))))
  {
    DiskNothing(Some(j));
    if j.material.Some? {
      ConfirmDisk(j, a);
      if RenewsGrant(c, j, a) {
        var k := Renewed(c, j, a.renewal);
        ConfirmDisk(k, a);
        DiskCons(Some(j), Save(k), ConfirmEffects(k, a));
      }
      hide DiskAfter;
      GrantText(c, j, a);
    }
  }

  lemma GrantText(c: Crypto, j: Journal, a: AckInput)
    ensures RenewsGrant(c, j, a) <==> a.renewalReachable && a.renewalSaved && RenewalFits(c, j, a.renewal, a.nonce, a.now)
  {
  }

  lemma DiskNothing(disk: Option<Journal>)
    ensures DiskAfter(disk, []) == disk
  {
  }

  lemma NotRetiredIfUsable(c: Crypto, j: Journal, f: Files)
    ensures IsCandidate(c, j, f) ==> !CandidateRetires(c, j, f)
  {
  }
}
