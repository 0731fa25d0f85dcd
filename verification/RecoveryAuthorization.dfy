/**
 One more trial of the same migration generation after a confirmed native cleanup. The cleanup turns the
 last attempt's credentials into an authorization, and the trial write consumes it. Digests and credential
 hashes are functions about which nothing is known.
 */
module RecoveryAuthorization {
  import opened Options
  import opened Generations

  type Target = string

  /** A missing target reads as the empty object, a missing number as none. */
  datatype Offer = Offer(generation: Option<real>, target: Target, nonce: string)

  datatype Authorization = Authorization(
    sourceHash: string, generation: real, targetHash: string, signer: string,
    previousNonceHash: string, previousGrantHash: string, cleanupToken: string, cleanupEpoch: Option<nat>)

  /** `Enrolling` stands for every state in which credentials are asked for or staged. */
  datatype State = Enrolling | InTrial | RolledBack | RecoveryRequired

  datatype Journal = Journal(
    state: State, sourceHash: string, signer: string, nonce: string, grant: string, offer: Offer,
    highest: Option<real>, stagedGeneration: Option<real>, stagedTargetHash: string,
    cleanupToken: string, cleanupEpoch: Option<nat>, authorization: Option<Authorization>)

  datatype Hashes = Hashes(credential: string -> string, digest: Target -> string)

  const NO_OFFER := Offer(None, "", "")

  predicate GenerationValid(g: Option<real>) {
    g.Some? && 0.0 < g.value <= MAXIMUM_GENERATION && g.value == g.value.Floor as real
  }

  function Create(h: Hashes, j: Journal): Option<Authorization> {
    if || j.sourceHash == "" || j.signer == "" || j.nonce == "" || j.grant == "" || j.cleanupToken == ""
       || j.cleanupEpoch.None? || j.cleanupEpoch == Some(0) || j.offer.target == ""
       || !GenerationValid(j.offer.generation) || j.offer.generation != j.highest
       || j.offer.generation != j.stagedGeneration || h.digest(j.offer.target) != j.stagedTargetHash
    then None
    else Some(Authorization(j.sourceHash, j.offer.generation.value, h.digest(j.offer.target), j.signer,
                            h.credential(j.nonce), h.credential(j.grant), j.cleanupToken, j.cleanupEpoch))
  }

  predicate Allowed(h: Hashes, j: Journal, offer: Offer, currentSource: string) {
    && j.authorization.Some?
    && var a := j.authorization.value;
      && a.cleanupEpoch.Some? && a.cleanupEpoch != Some(0) && a.cleanupToken != ""
      && a.cleanupToken == j.cleanupToken && a.cleanupEpoch == j.cleanupEpoch
      && a.sourceHash != "" && a.sourceHash == currentSource && a.sourceHash == j.sourceHash
      && a.signer != "" && a.signer == j.signer
      && GenerationValid(Some(a.generation))
      && j.highest == Some(a.generation) && j.stagedGeneration == Some(a.generation)
      && offer.generation == Some(a.generation)
      && offer.target != "" && a.targetHash == h.digest(offer.target) && a.targetHash == j.stagedTargetHash
      && j.nonce != "" && j.nonce == offer.nonce && j.grant != ""
      && a.previousNonceHash != "" && a.previousGrantHash != ""
      && h.credential(j.nonce) != a.previousNonceHash && h.credential(j.grant) != a.previousGrantHash
  }

  function Stamped(j: Journal, token: string, epoch: nat): Journal {
    j.(cleanupToken := token, cleanupEpoch := Some(epoch))
  }

  function AfterCleanup(h: Hashes, j: Journal, token: string, epoch: nat): Journal {
    var stamped := Stamped(j, token, epoch);
    stamped.(authorization := Create(h, stamped), grant := "", nonce := "", offer := NO_OFFER, state := RolledBack)
  }

  function ForTrial(j: Journal, generation: Option<real>): Journal {
    j.(highest := generation, authorization := None, state := InTrial)
  }

  // ------------------------------------------------------------------- one attempt

  /** Same generation, target, source and signer; a new nonce and a new grant, told apart by their hashes. */
  predicate Renews(h: Hashes, was: Journal, now: Journal, offer: Offer, source: string) {
    && offer.generation == was.offer.generation && h.digest(offer.target) == h.digest(was.offer.target)
    && source == was.sourceHash == now.sourceHash && now.signer == was.signer && offer.nonce == now.nonce
    && h.credential(now.nonce) != h.credential(was.nonce) && h.credential(now.grant) != h.credential(was.grant)
  }

  /** Whatever happened to the journal since the cleanup, its authorization admits only a renewed attempt. */
  lemma AllowedOnlyIfRenewed(h: Hashes, was: Journal, now: Journal, offer: Offer, source: string)
    requires now.authorization == Create(h, was) && Allowed(h, now, offer, source)
    ensures Renews(h, was, now, offer, source) && now.highest == offer.generation && offer.generation.Some?
  {
  }

  /** A whole number between one and the largest exact double. */
  predicate Whole(g: Option<real>) {
    g.Some? && 0.0 < g.value <= 9007199254740991.0 && g.value == g.value.Floor as real
  }

  /** The journal of an attempt that ended is whole: an authorization can be made of it. */
  predicate Recoverable(h: Hashes, j: Journal) {
    && j.sourceHash != "" && j.signer != "" && j.nonce != "" && j.grant != "" && j.cleanupToken != ""
    && j.cleanupEpoch.Some? && j.cleanupEpoch.value > 0 && j.offer.target != ""
    && Whole(j.offer.generation) && j.highest == j.offer.generation && j.stagedGeneration == j.offer.generation
    && j.stagedTargetHash == h.digest(j.offer.target)
  }

  /** The journal and the offer still are those of the attempt that was cleaned, up to new credentials. */
  predicate Continues(h: Hashes, was: Journal, now: Journal, offer: Offer, source: string) {
    && now.cleanupToken == was.cleanupToken && now.cleanupEpoch == was.cleanupEpoch
    && now.sourceHash == was.sourceHash && source == was.sourceHash && now.signer == was.signer
    && offer.generation == was.offer.generation && now.highest == was.offer.generation
    && now.stagedGeneration == was.offer.generation
    && offer.target != "" && h.digest(offer.target) == h.digest(was.offer.target)
    && now.stagedTargetHash == h.digest(was.offer.target)
    && now.nonce != "" && offer.nonce == now.nonce && h.credential(now.nonce) != h.credential(was.nonce)
    && now.grant != "" && h.credential(now.grant) != h.credential(was.grant)
  }

  /** An authorization is made exactly of a journal that is whole. */
  lemma CreatedIff(h: Hashes, j: Journal)
    ensures Create(h, j).Some? <==> Recoverable(h, j)
  {
  }

  /** Whatever happened to the journal since: exactly which offers and sources its authorization admits. */
  lemma AdmittedIff(h: Hashes, was: Journal, now: Journal, offer: Offer, source: string)
    requires now.authorization == Create(h, was) && h.credential(was.nonce) != "" && h.credential(was.grant) != ""
    ensures Allowed(h, now, offer, source) <==> Recoverable(h, was) && Continues(h, was, now, offer, source)
  {
    CreatedIff(h, was);
  }

  /** On the journal a cleanup left, with new credentials: exactly which offers and sources are admitted. */
  lemma AllowedIff(h: Hashes, was: Journal, token: string, epoch: nat,
                   nonce: string, grant: string, offer: Offer, source: string)
    requires h.credential(was.nonce) != "" && h.credential(was.grant) != ""
    ensures var now := AfterCleanup(h, was, token, epoch).(nonce := nonce, grant := grant);
      Allowed(h, now, offer, source) <==>
        && Recoverable(h, was.(cleanupToken := token, cleanupEpoch := Some(epoch)))
        && offer.generation == was.offer.generation && offer.target != ""
        && h.digest(offer.target) == h.digest(was.offer.target)
        && source == was.sourceHash
        && nonce != "" && grant != "" && offer.nonce == nonce
        && h.credential(nonce) != h.credential(was.nonce) && h.credential(grant) != h.credential(was.grant)
  {
    CreatedIff(h, Stamped(was, token, epoch));
  }

  // ------------------------------------------------------------------------- runs

  /** A trial as recorded: its generation and credentials, and how many cleanups preceded it. */
  datatype Trial = Trial(generation: real, nonce: string, grant: string, cleanups: nat)

  /** `retired` are the journals as a cleanup stamped them, `nonces` all nonces ever drawn. */
  datatype World = World(journal: Journal, trials: seq<Trial>, retired: seq<Journal>, nonces: set<string>)

  datatype Event =
    | Refresh(nonce: string, grant: string, offer: Offer, sourceHash: string,
              stagedGeneration: Option<real>, stagedTargetHash: string)
    | TryStaged(source: string)
    | EndTrial
    | FailedCleanup
    | Cleanup(token: string, epoch: nat)

  /**
   Enrolling keeps the nonce at hand, and then also a grant, or draws a nonce that was never drawn before. The
   grant is the server's choice. Neither happens during a trial or before a required recovery.
   */
  predicate MayRefresh(w: World, e: Event)
    requires e.Refresh?
  {
    && w.journal.state != InTrial && w.journal.state != RecoveryRequired && e.nonce != ""
    && if e.nonce == w.journal.nonce then w.journal.grant != "" ==> e.grant == w.journal.grant
       else e.nonce !in w.nonces
  }

  /** A trial needs a new generation, or the recovery authorization. */
  predicate MayTry(h: Hashes, j: Journal, source: string) {
    && j.state == Enrolling && j.sourceHash == source
    && GenerationValid(j.offer.generation) && j.offer.nonce == j.nonce != ""
    && (j.highest.None? || j.offer.generation.value > j.highest.value || Allowed(h, j, j.offer, source))
  }

  /** A cleanup receipt counts once, and only for an attempt that has ended. */
  predicate MayClean(j: Journal, token: string, epoch: nat) {
    (j.state == RolledBack || j.state == RecoveryRequired) && token != "" && epoch != 0 && token != j.cleanupToken
  }

  function Refreshed(j: Journal, e: Event): Journal
    requires e.Refresh?
  {
    j.(nonce := e.nonce, grant := e.grant, offer := e.offer, sourceHash := e.sourceHash,
       stagedGeneration := e.stagedGeneration, stagedTargetHash := e.stagedTargetHash, state := Enrolling)
  }

  function Attempted(j: Journal, cleanups: nat): Trial
    requires j.offer.generation.Some?
  {
    Trial(j.offer.generation.value, j.nonce, j.grant, cleanups)
  }

  function Step(h: Hashes, w: World, e: Event): World {
    match e
    case Refresh(nonce, _, _, _, _, _) =>
      if !MayRefresh(w, e) then w
      else w.(journal := Refreshed(w.journal, e), nonces := w.nonces + {nonce})
    case TryStaged(source) =>
      if !MayTry(h, w.journal, source) then w
      else w.(journal := ForTrial(w.journal, w.journal.offer.generation),
              trials := w.trials + [Attempted(w.journal, |w.retired|)])
    case EndTrial => if w.journal.state == InTrial then w.(journal := w.journal.(state := RolledBack)) else w
    case FailedCleanup => w.(journal := w.journal.(state := RecoveryRequired))
    case Cleanup(token, epoch) =>
      if !MayClean(w.journal, token, epoch) then w
      else w.(journal := AfterCleanup(h, w.journal, token, epoch),
              retired := w.retired + [Stamped(w.journal, token, epoch)])
  }

  function Run(h: Hashes, w: World, events: seq<Event>): World
    decreases |events|
  {
    if events == [] then w else Run(h, Step(h, w, events[0]), events[1..])
  }

  /** Before the first trial. */
  predicate First(w: World) {
    && w.trials == [] && w.retired == [] && w.journal.authorization.None?
    && w.journal.state == Enrolling && w.journal.nonce in w.nonces
  }

  // -------------------------------------------------------------------- invariant

  /** The generation of a trial is not above that of an earlier one. */
  predicate Repeat(trials: seq<Trial>, j: nat)
    requires j < |trials|
  {
    exists i :: 0 <= i < j && trials[j].generation <= trials[i].generation
  }

  /** No trial lies above the watermark, which is the generation of the last one. */
  predicate Watermark(trials: seq<Trial>, highest: Option<real>, cleanups: nat) {
    && (forall i :: 0 <= i < |trials| ==> Under(trials[i], highest, cleanups))
    && (trials != [] ==> highest == Some(trials[|trials| - 1].generation))
  }

  predicate Under(t: Trial, highest: Option<real>, cleanups: nat) {
    highest.Some? && t.generation <= highest.value && t.cleanups <= cleanups
  }

  /** An authorization is that of the last cleanup, and nothing was tried since. */
  predicate Authorized(h: Hashes, w: World) {
    w.journal.authorization.Some? ==>
      && w.retired != [] && w.journal.authorization == Create(h, w.retired[|w.retired| - 1])
      && Before(w.trials, |w.retired|)
  }

  predicate Before(trials: seq<Trial>, cleanups: nat) {
    forall i :: 0 <= i < |trials| ==> trials[i].cleanups < cleanups
  }

  /** A repeated trial follows a cleanup later than every earlier trial, with credentials it did not retire. */
  predicate RepeatsAuthorized(trials: seq<Trial>, retired: seq<Journal>) {
    forall k, j :: 0 <= k < j < |trials| && Repeat(trials, j) ==> Bought(trials[k], trials[j], retired)
  }

  predicate Bought(earlier: Trial, t: Trial, retired: seq<Journal>) {
    earlier.cleanups < t.cleanups <= |retired| && Renewed(t, retired[t.cleanups - 1])
  }

  predicate Renewed(t: Trial, cleaned: Journal) {
    cleaned.offer.generation == Some(t.generation) && t.nonce != cleaned.nonce && t.grant != cleaned.grant
  }

  predicate Inv(h: Hashes, w: World) {
    && Watermark(w.trials, w.journal.highest, |w.retired|)
    && Authorized(h, w)
    && RepeatsAuthorized(w.trials, w.retired)
  }

  lemma RepeatInPrefix(trials: seq<Trial>, more: seq<Trial>, j: nat)
    requires j < |trials|
    ensures Repeat(trials + more, j) <==> Repeat(trials, j)
  {
    var all := trials + more;
    assert forall i :: 0 <= i <= j ==> all[i] == trials[i];
  }

  lemma OneMoreTrial(trials: seq<Trial>, retired: seq<Journal>, t: Trial)
    requires RepeatsAuthorized(trials, retired) && t.cleanups == |retired|
    requires Repeat(trials + [t], |trials|) ==>
               retired != [] && Before(trials, |retired|) && Renewed(t, retired[|retired| - 1])
    ensures RepeatsAuthorized(trials + [t], retired)
  {
    hide Renewed, Repeat;
    var all := trials + [t];
    forall k, j | 0 <= k < j < |all| && Repeat(all, j)
      ensures Bought(all[k], all[j], retired)
    {
      assert all[k] == trials[k];
      if j < |trials| {
        RepeatInPrefix(trials, [t], j);
        assert all[j] == trials[j] && Bought(trials[k], trials[j], retired);
      } else {
        assert all[j] == t && trials[k].cleanups < |retired|;
      }
    }
    assert RepeatsAuthorized(all, retired);
  }

  lemma WatermarkCleaned(trials: seq<Trial>, highest: Option<real>, cleanups: nat)
    requires Watermark(trials, highest, cleanups)
    ensures Watermark(trials, highest, cleanups + 1) && Before(trials, cleanups + 1)
  {
    forall i | 0 <= i < |trials|
      ensures Under(trials[i], highest, cleanups + 1) && trials[i].cleanups < cleanups + 1
    {
      assert Under(trials[i], highest, cleanups);
    }
  }

  lemma WatermarkRaised(trials: seq<Trial>, highest: Option<real>, cleanups: nat, t: Trial)
    requires Watermark(trials, highest, cleanups) && t.cleanups == cleanups
    requires highest.Some? ==> t.generation >= highest.value
    ensures Watermark(trials + [t], Some(t.generation), cleanups)
  {
    forall i | 0 <= i < |trials + [t]|
      ensures Under((trials + [t])[i], Some(t.generation), cleanups)
    {
      if i < |trials| { assert (trials + [t])[i] == trials[i] && Under(trials[i], highest, cleanups); }
    }
  }

  lemma TriedIsValid(h: Hashes, j: Journal, source: string)
    requires MayTry(h, j, source)
    ensures j.offer.generation.Some? && j.nonce != "" && j.state == Enrolling
  {
  }

  /** A trial that repeats has used the exception, and so the last cleanup. */
  lemma RepeatIsAllowed(h: Hashes, w: World, source: string)
    requires Inv(h, w) && MayTry(h, w.journal, source) && w.journal.offer.generation.Some?
    requires Repeat(w.trials + [Attempted(w.journal, |w.retired|)], |w.trials|)
    ensures w.retired != [] && w.journal.authorization.Some?
    ensures Allowed(h, w.journal, w.journal.offer, source)
    ensures Renews(h, w.retired[|w.retired| - 1], w.journal, w.journal.offer, source)
  {
    hide RepeatsAuthorized, GenerationValid;
    var all := w.trials + [Attempted(w.journal, |w.retired|)];
    var i :| 0 <= i < |w.trials| && all[|w.trials|].generation <= all[i].generation;
    assert all[i] == w.trials[i] && Under(w.trials[i], w.journal.highest, |w.retired|);
    assert Allowed(h, w.journal, w.journal.offer, source);
    hide Allowed;
    AllowedHasAuthorization(h, w.journal, source);
    AllowedOnlyIfRenewed(h, w.retired[|w.retired| - 1], w.journal, w.journal.offer, source);
  }

  lemma AllowedHasAuthorization(h: Hashes, j: Journal, source: string)
    requires Allowed(h, j, j.offer, source)
    ensures j.authorization.Some? && j.highest == j.offer.generation
  {
    hide GenerationValid;
  }

  lemma RenewsIsRenewed(h: Hashes, cleaned: Journal, j: Journal, source: string, cleanups: nat)
    requires Renews(h, cleaned, j, j.offer, source) && j.offer.generation.Some?
    ensures Renewed(Attempted(j, cleanups), cleaned)
  {
  }

  lemma TryInv(h: Hashes, w: World, source: string)
    requires Inv(h, w) && MayTry(h, w.journal, source)
    ensures Inv(h, Step(h, w, TryStaged(source)))
  {
    hide GenerationValid, Create, Allowed, Renewed, Renews, Repeat;
    TriedIsValid(h, w.journal, source);
    var t := Attempted(w.journal, |w.retired|);
    if Repeat(w.trials + [t], |w.trials|) {
      RepeatIsAllowed(h, w, source);
      RenewsIsRenewed(h, w.retired[|w.retired| - 1], w.journal, source, |w.retired|);
    }
    OneMoreTrial(w.trials, w.retired, t);
    if w.journal.highest.Some? && t.generation <= w.journal.highest.value {
      AllowedHasAuthorization(h, w.journal, source);
    }
    WatermarkRaised(w.trials, w.journal.highest, |w.retired|, t);
    hide RepeatsAuthorized, Watermark;
  }

  lemma OneMoreCleanup(trials: seq<Trial>, retired: seq<Journal>, cleaned: Journal)
    requires RepeatsAuthorized(trials, retired)
    ensures RepeatsAuthorized(trials, retired + [cleaned])
  {
    hide Renewed, Repeat;
    var all := retired + [cleaned];
    forall k, j | 0 <= k < j < |trials| && Repeat(trials, j)
      ensures Bought(trials[k], trials[j], all)
    {
      assert Bought(trials[k], trials[j], retired);
      assert all[trials[j].cleanups - 1] == retired[trials[j].cleanups - 1];
    }
  }

  lemma CleanupInv(h: Hashes, w: World, token: string, epoch: nat)
    requires Inv(h, w)
    ensures Inv(h, Step(h, w, Cleanup(token, epoch)))
  {
    hide Create, RepeatsAuthorized, Watermark, Before;
    var r := Step(h, w, Cleanup(token, epoch));
    if MayClean(w.journal, token, epoch) {
      OneMoreCleanup(w.trials, w.retired, Stamped(w.journal, token, epoch));
      assert r.retired[|r.retired| - 1] == Stamped(w.journal, token, epoch);
      WatermarkCleaned(w.trials, w.journal.highest, |w.retired|);
    }
  }

  lemma StepInv(h: Hashes, w: World, e: Event)
    requires Inv(h, w)
    ensures Inv(h, Step(h, w, e))
  {
    hide RepeatsAuthorized, Create, Watermark, MayTry, MayClean, MayRefresh, AfterCleanup, Before;
    match e
    case TryStaged(source) => if MayTry(h, w.journal, source) { TryInv(h, w, source); }
    case Cleanup(token, epoch) => CleanupInv(h, w, token, epoch);
    case _ =>
  }

  lemma {:induction false} RunInv(h: Hashes, w: World, events: seq<Event>)
    requires Inv(h, w)
    ensures Inv(h, Run(h, w, events))
    decreases |events|
  {
    hide Inv, Step;
    if events != [] {
      StepInv(h, w, events[0]);
      RunInv(h, Step(h, w, events[0]), events[1..]);
    }
  }

  lemma FirstInv(h: Hashes, w: World)
    requires First(w)
    ensures Inv(h, w)
  {
  }

  /**
   In every run, a repeated trial follows a cleanup later than every earlier trial, so each cleanup buys at most
   one, and uses credentials that cleanup did not retire.
   */
  lemma RecoveryIsOneShot(h: Hashes, w: World, events: seq<Event>)
    requires First(w)
    ensures var r := Run(h, w, events); RepeatsAuthorized(r.trials, r.retired)
  {
    hide Run;
    FirstInv(h, w);
    RunInv(h, w, events);
  }

  /** The last cleanup's authorization is still there, and admits the offer at hand. */
  predicate Recovers(h: Hashes, w: World, source: string) {
    && w.journal.authorization.Some? && w.retired != []
    && Continues(h, w.retired[|w.retired| - 1], w.journal, w.journal.offer, source)
  }

  /**
   In every run, a trial is made exactly if credentials are enrolled for this source, the offer answers the nonce at
   hand, and its generation is a new one, or else the last cleanup's authorization, not spent since, admits it.
   A credential hash is never empty.
   */
  lemma TriedIff(h: Hashes, w: World, events: seq<Event>, source: string)
    requires First(w) && forall nonce :: h.credential(nonce) != ""
    ensures var r := Run(h, w, events);
      var j, next := r.journal, Step(h, r, TryStaged(source));
      && (|next.trials| == |r.trials| + 1 <==>
            && j.state == Enrolling && j.sourceHash == source && Whole(j.offer.generation)
            && j.nonce != "" && j.offer.nonce == j.nonce
            && (j.highest.None? || j.offer.generation.value > j.highest.value || Recovers(h, r, source)))
      && (|next.trials| != |r.trials| + 1 ==> next == r)
      && (|next.trials| == |r.trials| + 1 ==>
            && next.trials == r.trials + [Trial(j.offer.generation.value, j.nonce, j.grant, |r.retired|)]
            && next.journal == j.(highest := j.offer.generation, authorization := None, state := InTrial))
  {
    FirstInv(h, w);
    RunInv(h, w, events);
    hide Run;
    TriesIff(h, Run(h, w, events), source);
  }

  lemma TriesIff(h: Hashes, r: World, source: string)
    requires Inv(h, r) && forall nonce :: h.credential(nonce) != ""
    ensures var j, next := r.journal, Step(h, r, TryStaged(source));
      && (|next.trials| == |r.trials| + 1 <==>
            && j.state == Enrolling && j.sourceHash == source && Whole(j.offer.generation)
            && j.nonce != "" && j.offer.nonce == j.nonce
            && (j.highest.None? || j.offer.generation.value > j.highest.value || Recovers(h, r, source)))
      && (|next.trials| != |r.trials| + 1 ==> next == r)
      && (|next.trials| == |r.trials| + 1 ==>
            && next.trials == r.trials + [Trial(j.offer.generation.value, j.nonce, j.grant, |r.retired|)]
            && next.journal == j.(highest := j.offer.generation, authorization := None, state := InTrial))
  {
    if r.journal.authorization.Some? {
      var was := r.retired[|r.retired| - 1];
      AdmittedIff(h, was, r.journal, r.journal.offer, source);
      CreatedIff(h, was);
    }
    hide Create, Continues, Recoverable, RepeatsAuthorized, Watermark;
  }

  /**
   A cleanup counts exactly if it is new and an attempt has ended. Then the credentials are gone, and one more trial is
   authorized exactly if the attempt was whole.
   */
  lemma CleanedIff(h: Hashes, w: World, token: string, epoch: nat)
    ensures var j, r := w.journal, Step(h, w, Cleanup(token, epoch));
      && (|r.retired| == |w.retired| + 1 <==>
            && (j.state == RolledBack || j.state == RecoveryRequired)
            && token != "" && epoch > 0 && token != j.cleanupToken)
      && (|r.retired| != |w.retired| + 1 ==> r == w)
      && (|r.retired| == |w.retired| + 1 ==>
            && r.journal.nonce == "" && r.journal.grant == "" && r.journal.state == RolledBack && r.trials == w.trials
            && r.journal.highest == j.highest
            && (r.journal.authorization.Some?
                <==> Recoverable(h, j.(cleanupToken := token, cleanupEpoch := Some(epoch)))))
  {
    CreatedIff(h, Stamped(w.journal, token, epoch));
  }

  /** What a run only adds to; trials added later have seen at least as many cleanups. */
  predicate Extends(w: World, r: World) {
    && w.trials <= r.trials && |w.retired| <= |r.retired|
    && forall j :: |w.trials| <= j < |r.trials| ==> r.trials[j].cleanups >= |w.retired|
  }

  lemma StepExtends(h: Hashes, w: World, e: Event)
    ensures Extends(w, Step(h, w, e))
  {
    hide MayTry, MayClean, MayRefresh, AfterCleanup, Refreshed;
    if e.TryStaged? && MayTry(h, w.journal, e.source) { TriedIsValid(h, w.journal, e.source); }
  }

  lemma {:induction false} RunExtends(h: Hashes, w: World, events: seq<Event>)
    ensures Extends(w, Run(h, w, events))
    decreases |events|
  {
    hide Step;
    if events != [] {
      var next := Step(h, w, events[0]);
      StepExtends(h, w, events[0]);
      RunExtends(h, next, events[1..]);
      var r := Run(h, w, events);
      assert forall j :: 0 <= j < |next.trials| ==> r.trials[j] == next.trials[j];
    }
  }

  // ---------------------------------------------------------- how far an attempt reaches

  /** After a trial or a cleanup nothing is tried until new credentials are enrolled. */
  lemma {:induction false} RefusedUntilRefreshed(h: Hashes, w: World, events: seq<Event>)
    requires w.journal.state != Enrolling && forall i :: 0 <= i < |events| ==> !events[i].Refresh?
    ensures Run(h, w, events).trials == w.trials
    decreases |events|
  {
    if events != [] {
      assert !events[0].Refresh?;
      var next := Step(h, w, events[0]);
      hide Allowed, GenerationValid, Create;
      assert next.trials == w.trials && next.journal.state != Enrolling;
      assert forall i :: 0 <= i < |events[1..]| ==> events[1..][i] == events[i + 1];
      RefusedUntilRefreshed(h, next, events[1..]);
    }
  }

  /** A trial spends the authorization: until the next cleanup every further trial has a new generation. */
  lemma {:induction false} SpentUntilCleanup(h: Hashes, w: World, events: seq<Event>)
    requires Inv(h, w) && w.journal.authorization.None? && forall i :: 0 <= i < |events| ==> !events[i].Cleanup?
    ensures var r := Run(h, w, events);
      w.trials <= r.trials && forall j :: |w.trials| <= j < |r.trials| ==> !Repeat(r.trials, j)
    decreases |events|
  {
    hide Inv, Repeat;
    if events != [] {
      assert !events[0].Cleanup?;
      var next, r := Step(h, w, events[0]), Run(h, w, events);
      StepInv(h, w, events[0]);
      SpentStep(h, w, events[0]);
      assert forall i :: 0 <= i < |events[1..]| ==> events[1..][i] == events[i + 1];
      SpentUntilCleanup(h, next, events[1..]);
      if |next.trials| > |w.trials| {
        RepeatInPrefix(next.trials, r.trials[|next.trials|..], |w.trials|);
        assert next.trials + r.trials[|next.trials|..] == r.trials;
      }
    }
  }

  lemma SpentStep(h: Hashes, w: World, e: Event)
    requires Inv(h, w) && w.journal.authorization.None? && !e.Cleanup?
    ensures var r := Step(h, w, e);
      && r.journal.authorization.None?
      && (r.trials == w.trials
          || (|r.trials| == |w.trials| + 1 && w.trials <= r.trials && !Repeat(r.trials, |w.trials|)))
  {
    hide Inv, Repeat, Allowed, GenerationValid;
    if e.TryStaged? && MayTry(h, w.journal, e.source) {
      TriedIsValid(h, w.journal, e.source);
      if Repeat(w.trials + [Attempted(w.journal, |w.retired|)], |w.trials|) { RepeatIsAllowed(h, w, e.source); }
    }
  }

  // -------------------------------------------------------------------------- nonces

  /** Nonces at hand were drawn, and trials with the one at hand came after the last cleanup. */
  predicate NonceAtHand(w: World) {
    w.journal.nonce != "" ==>
      && w.journal.nonce in w.nonces
      && forall i :: 0 <= i < |w.trials| && w.trials[i].nonce == w.journal.nonce ==> w.trials[i].cleanups == |w.retired|
  }

  /** Trials on different sides of a cleanup have different nonces. */
  predicate NoncesApart(trials: seq<Trial>) {
    forall i, j :: 0 <= i < j < |trials| && trials[i].cleanups < trials[j].cleanups ==>
      trials[i].nonce != trials[j].nonce
  }

  predicate Nonces(w: World) {
    && NonceAtHand(w) && NoncesApart(w.trials)
    && forall i :: 0 <= i < |w.trials| ==> w.trials[i].nonce in w.nonces && w.trials[i].cleanups <= |w.retired|
  }

  lemma TryNonces(h: Hashes, w: World, source: string)
    requires Nonces(w) && MayTry(h, w.journal, source)
    ensures Nonces(Step(h, w, TryStaged(source)))
  {
    TriedIsValid(h, w.journal, source);
    var r := Step(h, w, TryStaged(source));
    hide MayTry;
    var n := |w.trials|;
    assert r.trials[n].nonce == w.journal.nonce && r.trials[n].cleanups == |w.retired|;
    assert forall i :: 0 <= i < n ==> r.trials[i] == w.trials[i];
    forall i, j | 0 <= i < j < |r.trials| && r.trials[i].cleanups < r.trials[j].cleanups
      ensures r.trials[i].nonce != r.trials[j].nonce
    {
      assert r.trials[i] == w.trials[i];
    }
  }

  lemma StepNonces(h: Hashes, w: World, e: Event)
    requires Nonces(w)
    ensures Nonces(Step(h, w, e))
  {
    match e
    case TryStaged(source) =>
      hide Nonces, MayTry;
      if MayTry(h, w.journal, source) { TryNonces(h, w, source); }
    case _ =>
      hide Create, NoncesApart;
      assert Step(h, w, e).trials == w.trials;
  }

  lemma {:induction false} RunNonces(h: Hashes, w: World, events: seq<Event>)
    requires Nonces(w)
    ensures Nonces(Run(h, w, events))
    decreases |events|
  {
    hide Nonces, Step;
    if events != [] {
      StepNonces(h, w, events[0]);
      RunNonces(h, Step(h, w, events[0]), events[1..]);
    }
  }

  /**
   In every run, the nonce of a repeated trial is that of no earlier trial: a repeat needs a cleanup since all of
   them, a cleanup takes the nonce away, and the next one is drawn anew.
   */
  lemma RepeatHasNewNonce(h: Hashes, w: World, events: seq<Event>, k: nat, j: nat)
    requires First(w) && k < j < |Run(h, w, events).trials| && Repeat(Run(h, w, events).trials, j)
    ensures Run(h, w, events).trials[k].nonce != Run(h, w, events).trials[j].nonce
  {
    hide Run, Repeat, Renewed;
    RecoveryIsOneShot(h, w, events);
    assert Nonces(w);
    RunNonces(h, w, events);
    var r := Run(h, w, events);
    assert Bought(r.trials[k], r.trials[j], r.retired);
  }

  // -------------------------------------------------------------------------- grants

  /** The next trial is a repeat that this cleanup's authorization has bought, and it has this grant. */
  ghost predicate Buys(h: Hashes, w: World, events: seq<Event>, grant: string) {
    var r := Run(h, w, events);
    && |r.trials| > |w.trials| && r.trials[|w.trials|].cleanups == |w.retired|
    && Repeat(r.trials, |w.trials|) && r.trials[|w.trials|].grant == grant
  }

  /** What an authorization has bought differs, by hash, from the grant its cleanup retired. */
  lemma {:induction false} BoughtIsRenewed(h: Hashes, w: World, events: seq<Event>, grant: string)
    requires Inv(h, w) && w.journal.authorization.Some? && w.retired != [] && Buys(h, w, events, grant)
    ensures h.credential(grant) != h.credential(w.retired[|w.retired| - 1].grant)
    decreases |events|
  {
    hide Inv, Repeat, Renews, Create;
    assert events != [];
    var next, r := Step(h, w, events[0]), Run(h, w, events);
    StepInv(h, w, events[0]);
    RunExtends(h, next, events[1..]);
    assert |next.retired| > |w.retired| ==> next.trials == w.trials;
    if |next.trials| > |w.trials| {
      BoughtNow(h, w, events[0], r);
    } else {
      assert next.journal.authorization == w.journal.authorization;
      BoughtIsRenewed(h, next, events[1..], grant);
    }
  }

  lemma BoughtNow(h: Hashes, w: World, e: Event, r: World)
    requires Inv(h, w) && w.retired != [] && |Step(h, w, e).trials| > |w.trials|
    requires Step(h, w, e).trials <= r.trials && Repeat(r.trials, |w.trials|)
    ensures h.credential(r.trials[|w.trials|].grant) != h.credential(w.retired[|w.retired| - 1].grant)
  {
    hide Inv, Repeat, Allowed, GenerationValid, Create;
    TriedIsValid(h, w.journal, e.source);
    var all := w.trials + [Attempted(w.journal, |w.retired|)];
    assert Step(h, w, e).trials == all;
    assert all + r.trials[|all|..] == r.trials;
    RepeatInPrefix(all, r.trials[|all|..], |w.trials|);
    RepeatIsAllowed(h, w, e.source);
    assert r.trials[|w.trials|] == all[|w.trials|];
  }

  function Reissue(cleaned: Journal, h: Hashes, nonce: string, grant: string): Event {
    Refresh(nonce, grant, cleaned.offer.(nonce := nonce), cleaned.sourceHash, cleaned.offer.generation,
            h.digest(cleaned.offer.target))
  }

  /** If the hashes differ, the server need only issue the grant again, for any nonce drawn anew. */
  lemma GrantComesBack(h: Hashes, w: World, token: string, epoch: nat, nonce: string, grant: string)
    requires Inv(h, w) && w.trials != [] && MayClean(w.journal, token, epoch)
    requires Recoverable(h, Stamped(w.journal, token, epoch)) && grant != ""
    requires h.credential(w.journal.nonce) != "" && h.credential(w.journal.grant) != ""
    requires nonce != "" && nonce !in w.nonces && h.credential(nonce) != h.credential(w.journal.nonce)
    requires h.credential(grant) != h.credential(w.journal.grant)
    ensures Buys(h, Step(h, w, Cleanup(token, epoch)),
                 [Reissue(w.journal, h, nonce, grant), TryStaged(w.journal.sourceHash)], grant)
  {
    CreatedIff(h, Stamped(w.journal, token, epoch));
    var cleaned := Step(h, w, Cleanup(token, epoch));
    var e1, e2 := Reissue(w.journal, h, nonce, grant), TryStaged(w.journal.sourceHash);
    var w1 := Step(h, cleaned, e1);
    AllowedIff(h, w.journal, token, epoch, nonce, grant, e1.offer, w.journal.sourceHash);
    CreatedStages(h, Stamped(w.journal, token, epoch));
    hide Allowed, Create, GenerationValid, Inv;
    assert w1.journal == AfterCleanup(h, w.journal, token, epoch).(nonce := nonce, grant := grant,
      offer := e1.offer, state := Enrolling);
    SameForAllowed(h, w1.journal, AfterCleanup(h, w.journal, token, epoch).(nonce := nonce, grant := grant),
                   e1.offer, w.journal.sourceHash);
    var w2 := Step(h, w1, e2);
    TwoSteps(h, cleaned, e1, e2);
    LastIsHighest(h, w);
    assert w2.trials == w.trials + [Attempted(w1.journal, |cleaned.retired|)];
    assert w2.trials[|w.trials| - 1] == w.trials[|w.trials| - 1];
  }

  lemma CreatedStages(h: Hashes, j: Journal)
    requires Create(h, j).Some?
    ensures GenerationValid(j.offer.generation) && j.offer.generation == j.highest == j.stagedGeneration
    ensures h.digest(j.offer.target) == j.stagedTargetHash && j.offer.target != ""
  {
  }

  lemma LastIsHighest(h: Hashes, w: World)
    requires Inv(h, w) && w.trials != []
    ensures w.journal.highest == Some(w.trials[|w.trials| - 1].generation)
  {
  }

  /** The exception does not look at the state or the recorded offer. */
  lemma SameForAllowed(h: Hashes, a: Journal, b: Journal, offer: Offer, source: string)
    requires a == b.(offer := a.offer, state := a.state)
    ensures Allowed(h, a, offer, source) == Allowed(h, b, offer, source)
  {
  }

  lemma TwoSteps(h: Hashes, w: World, e1: Event, e2: Event)
    ensures Run(h, w, [e1, e2]) == Step(h, Step(h, w, e1), e2)
  {
    hide Step;
    assert [e1, e2][1..] == [e2] && [e2][1..] == [];
    assert Run(h, Step(h, w, e1), [e2]) == Step(h, Step(h, w, e1), e2);
  }

  /**
   A cleanup that grants an authorization: some continuation repeats the grant of the last trial on it if and only
   if the grant the cleanup retired is another one, by hash. Both are at hand before the cleanup is accepted.
   */
  lemma GrantReturnsIff(h: Hashes, w: World, token: string, epoch: nat, nonce: string)
    requires Inv(h, w) && w.trials != [] && w.trials[|w.trials| - 1].grant != "" && MayClean(w.journal, token, epoch)
    requires Recoverable(h, Stamped(w.journal, token, epoch))
    requires h.credential(w.journal.nonce) != "" && h.credential(w.journal.grant) != ""
    requires nonce != "" && nonce !in w.nonces && h.credential(nonce) != h.credential(w.journal.nonce)
    ensures var grant := w.trials[|w.trials| - 1].grant;
      (exists events :: Buys(h, Step(h, w, Cleanup(token, epoch)), events, grant))
      <==> h.credential(grant) != h.credential(w.journal.grant)
  {
    var cleaned, grant := Step(h, w, Cleanup(token, epoch)), w.trials[|w.trials| - 1].grant;
    CreatedIff(h, Stamped(w.journal, token, epoch));
    CleanupInv(h, w, token, epoch);
    assert cleaned.retired[|cleaned.retired| - 1] == Stamped(w.journal, token, epoch);
    hide Inv, Create, Buys, MayClean;
    if events :| Buys(h, cleaned, events, grant) { BoughtIsRenewed(h, cleaned, events, grant); }
    if h.credential(grant) != h.credential(w.journal.grant) { GrantComesBack(h, w, token, epoch, nonce, grant); }
  }

  /** Credentials at hand outside enrolment are those of the last trial. */
  predicate CredentialsTried(w: World) {
    w.journal.state != Enrolling && w.journal.nonce != "" ==>
      && w.trials != []
      && w.trials[|w.trials| - 1].nonce == w.journal.nonce && w.trials[|w.trials| - 1].grant == w.journal.grant
  }

  /** A failed cleanup is reported while credentials that were never tried are enrolled. */
  predicate Late(w: World, e: Event) { e.FailedCleanup? && w.journal.state == Enrolling }

  predicate NeverLate(h: Hashes, w: World, events: seq<Event>)
    decreases |events|
  {
    events == [] || (!Late(w, events[0]) && NeverLate(h, Step(h, w, events[0]), events[1..]))
  }

  lemma StepTried(h: Hashes, w: World, e: Event)
    requires CredentialsTried(w) && !Late(w, e)
    ensures CredentialsTried(Step(h, w, e))
  {
    hide Create, GenerationValid, Allowed;
  }

  /**
   In every run in which no cleanup failure is reported over credentials still to be tried, what is at hand when a
   cleanup comes is what was tried last, so that cleanup retires the grant of the last trial.
   */
  lemma {:induction false} CleanupRetiresTried(h: Hashes, w: World, events: seq<Event>)
    requires CredentialsTried(w) && NeverLate(h, w, events)
    ensures var r := Run(h, w, events);
      r.journal.state != Enrolling && r.journal.nonce != "" ==>
        r.trials != [] && r.trials[|r.trials| - 1].grant == r.journal.grant
    decreases |events|
  {
    hide Step, Late;
    if events != [] {
      StepTried(h, w, events[0]);
      CleanupRetiresTried(h, Step(h, w, events[0]), events[1..]);
    }
  }

  // ------------------------------------------------------------------ a returning grant

  const PLAIN := Hashes(x => x, x => x)

  function Staged(nonce: string, grant: string): Event {
    Refresh(nonce, grant, Offer(Some(1.0), "target", nonce), "source", Some(1.0), "target")
  }

  const FIRST := World(
    Journal(Enrolling, "source", "signer", "n1", "g1", Offer(Some(1.0), "target", "n1"), None, Some(1.0), "target",
            "", None, None),
    [], [], {"n1"})

  /** Tried, cleaned, enrolled again, and given up over the new credentials before they were tried. */
  const UNTRIED := World(
    FIRST.journal.(state := RecoveryRequired, nonce := "n2", grant := "g2", offer := Offer(Some(1.0), "target", "n2"),
                   highest := Some(1.0), cleanupToken := "a", cleanupEpoch := Some(1),
                   authorization := Create(PLAIN, Stamped(FIRST.journal.(highest := Some(1.0)), "a", 1))),
    [Trial(1.0, "n1", "g1", 0)],
    [Stamped(FIRST.journal.(state := RolledBack, highest := Some(1.0)), "a", 1)],
    {"n1", "n2"})

  const GIVING_UP := [TryStaged("source"), EndTrial, Cleanup("a", 1), Staged("n2", "g2"), FailedCleanup]

  /**
   The grant does come back: after a cleanup failure over credentials never tried, the next cleanup retires those,
   and with a nonce drawn anew the server may issue the first grant again. Every nonce of the run is different.
   */
  lemma GrantReturns()
    ensures First(FIRST)
    ensures Run(PLAIN, FIRST, GIVING_UP) == UNTRIED
    ensures var r := Run(PLAIN, UNTRIED, [Cleanup("b", 1), Staged("n3", "g1"), TryStaged("source")]);
      r.trials == [Trial(1.0, "n1", "g1", 0), Trial(1.0, "n3", "g1", 2)]
  {
    UntriedReached();
    var w1 := Step(PLAIN, UNTRIED, Cleanup("b", 1));
    SecondCleanup(w1);
    var w2 := Step(PLAIN, w1, Staged("n3", "g1"));
    SecondTrial(w2);
    hide Step;
    var events := [Cleanup("b", 1), Staged("n3", "g1"), TryStaged("source")];
    assert events[1..] == [Staged("n3", "g1"), TryStaged("source")];
    TwoSteps(PLAIN, w1, Staged("n3", "g1"), TryStaged("source"));
    assert Run(PLAIN, UNTRIED, events) == Run(PLAIN, w1, events[1..]);
  }

  lemma SecondCleanup(w1: World)
    requires w1 == Step(PLAIN, UNTRIED, Cleanup("b", 1))
    ensures w1.journal == FIRST.journal.(
              state := RolledBack, nonce := "", grant := "", offer := NO_OFFER, highest := Some(1.0),
              cleanupToken := "b", cleanupEpoch := Some(1),
              authorization := Some(Authorization("source", 1.0, "target", "signer", "n2", "g2", "b", Some(1))))
    ensures w1.trials == UNTRIED.trials && |w1.retired| == 2 && w1.nonces == {"n1", "n2"}
  {
  }

  lemma SecondTrial(w2: World)
    requires w2.journal == FIRST.journal.(
               nonce := "n3", grant := "g1", offer := Offer(Some(1.0), "target", "n3"), highest := Some(1.0),
               cleanupToken := "b", cleanupEpoch := Some(1),
               authorization := Some(Authorization("source", 1.0, "target", "signer", "n2", "g2", "b", Some(1))))
    requires w2.trials == UNTRIED.trials && |w2.retired| == 2
    ensures Step(PLAIN, w2, TryStaged("source")).trials == [Trial(1.0, "n1", "g1", 0), Trial(1.0, "n3", "g1", 2)]
  {
    assert Allowed(PLAIN, w2.journal, w2.journal.offer, "source");
  }

  lemma UntriedReached()
    ensures Run(PLAIN, FIRST, GIVING_UP) == UNTRIED
  {
    var events := GIVING_UP;
    var w1 := Step(PLAIN, FIRST, TryStaged("source"));
    assert w1 == FIRST.(journal := FIRST.journal.(state := InTrial, highest := Some(1.0)),
                        trials := [Trial(1.0, "n1", "g1", 0)]);
    hide Create, Allowed, MayTry;
    var w2 := Step(PLAIN, w1, EndTrial);
    var w3 := Step(PLAIN, w2, Cleanup("a", 1));
    assert events[1..] == [EndTrial, Cleanup("a", 1), Staged("n2", "g2"), FailedCleanup];
    assert events[1..][1..] == [Cleanup("a", 1), Staged("n2", "g2"), FailedCleanup];
    assert events[1..][1..][1..] == [Staged("n2", "g2"), FailedCleanup];
    assert Run(PLAIN, FIRST, events) == Run(PLAIN, w1, events[1..]) == Run(PLAIN, w2, events[1..][1..]);
    assert Run(PLAIN, w2, events[1..][1..]) == Run(PLAIN, w3, [Staged("n2", "g2"), FailedCleanup]);
    TwoSteps(PLAIN, w3, Staged("n2", "g2"), FailedCleanup);
    assert {"n1"} + {"n2"} == {"n1", "n2"};
  }
}
