/**
 Where a connection attempt and an enrolment leave the migration journal, for every journal and every course of
 events: each phase it can end in, exactly, from the fields of the journal and the answers received.
 */
module JournalOutcomes {
  import opened Options
  import opened MigrationJournal

  /** The journal's material is intact, and the source is the one it was staged for. */
  predicate Intact(c: Crypto, j: Journal, f: Files) {
    && f.sourceReadable && f.sourceHash == j.sourceHash && j.material.Some? && f.candidateReadable
    && f.candidateHash == j.material.value.candidateHash
    && c.offerOf(j.material.value.envelope, j.signingKey) == Some(j.material.value.offer)
  }

  /** It offers something to connect with: committed before, or staged and not expired. */
  predicate Offers(c: Crypto, j: Journal, f: Files) {
    && Intact(c, j, f)
    && (j.phase == Committed || (j.phase == Staged && j.material.value.offer.expiresAt > f.now))
  }

  /** A staged offer that has become useless: for another source, or out of date. */
  predicate Useless(c: Crypto, j: Journal, f: Files) {
    && j.phase == Staged
    && (!(f.sourceReadable && f.sourceHash == j.sourceHash)
        || (Intact(c, j, f) && j.material.value.offer.expiresAt <= f.now))
  }

  /** The answer to the challenge: signed, current, with a handshake, and for this very offer. */
  ghost predicate Proven(c: Crypto, j: Journal, i: AttemptInput) {
    && i.challengeReachable && i.handshake && i.receiptSaved
    && j.material.Some? && c.receiptOf(i.receipt, j.signingKey).Some?
    && var offer, r := j.material.value.offer, c.receiptOf(i.receipt, j.signingKey).value;
      && r.expiresAt > i.now && r.server == offer.server && r.peer == offer.peer && r.container == offer.container
      && r.generation == offer.generation && r.nonce == offer.challengeNonce
      && InFront(r.targetAddress, offer.target.clientAddress)
  }

  /** A begun attempt works: connected, proven unless it was committed before, and the source still the same. */
  ghost predicate Works(c: Crypto, j: Journal, i: AttemptInput) {
    && i.connected && i.parametersApplied && (j.phase == Staged ==> Proven(c, j, i))
    && i.sourceAtCommit.sourceReadable && i.sourceAtCommit.sourceHash == j.sourceHash && i.commitSaved
  }

  lemma OffersIff(c: Crypto, j: Journal, f: Files)
    ensures IsCandidate(c, j, f) <==> Offers(c, j, f)
    ensures CandidateRetires(c, j, f) <==> Useless(c, j, f)
  {
  }

  lemma ProvenIff(c: Crypto, j: Journal, i: AttemptInput)
    ensures Proven(c, j, i)
       <==> i.challengeReachable && i.receiptSaved && ReceiptFits(c, j, i.receipt) && ReceiptCurrent(c, j, i)
  {
    hide InFront;
    ReceiptSpelledOut(c, j, i.receipt);
    hide ReceiptFits;
  }

  /**
   An attempt, exactly. What cannot be used leaves the journal alone, or retires a useless offer. A begun attempt
   raises the watermark to its generation; it ends committed if it works, and otherwise rolled back if the cleanup
   and the save succeed, or open if they do not.
   */
  lemma AttemptEndsIff(c: Crypto, j: Journal, i: AttemptInput)
    ensures var end := DiskAfter(Some(j), AttemptEffects(c, j, i));
      var tried := Offers(c, j, i.files) && i.begun;
      && end.Some?
      && (tried ==>
            && (end.value.phase == Committed <==> Works(c, j, i))
            && (end.value.phase == RolledBack <==> !Works(c, j, i) && i.cleaned && i.abandonSaved)
            && (end.value.phase == Trying <==> !Works(c, j, i) && !(i.cleaned && i.abandonSaved))
            && end.value.highest == (if j.highest < j.material.value.offer.generation
                                     then j.material.value.offer.generation else j.highest)
            && end.value.previousPhase == Some(j.phase))
      && (!tried && Useless(c, j, i.files) && i.retireSaved ==>
            end.value == j.(phase := Expired, material := None))
      && (!tried && !(Useless(c, j, i.files) && i.retireSaved) ==> end.value == j)
  {
    hide DiskAfter, IsCandidate, CandidateRetires, VerifyEffects, Works, Useless, Offers;
    OffersIff(c, j, i.files);
    NotBoth(c, j, i.files);
    DiskNothing(Some(j));
    DiskCons(Some(j), Save(Retired(j)), []);
    UselessIsStaged(c, j, i.files);
    if Offers(c, j, i.files) && i.begun {
      OffersHasMaterial(c, j, i.files);
      DiskCons(Some(j), Begin(Begun(j)), VerifyEffects(c, Begun(j), i));
      VerifyEnds(c, j, i);
    }
  }

  lemma NotBoth(c: Crypto, j: Journal, f: Files)
    ensures !(Offers(c, j, f) && Useless(c, j, f))
  {
  }

  lemma UselessIsStaged(c: Crypto, j: Journal, f: Files)
    ensures Useless(c, j, f) ==> Retired(j) == j.(phase := Expired, material := None)
  {
  }

  lemma OffersHasMaterial(c: Crypto, j: Journal, f: Files)
    requires Offers(c, j, f)
    ensures j.material.Some? && (j.phase == Staged || j.phase == Committed)
  {
  }

  lemma VerifyEnds(c: Crypto, j: Journal, i: AttemptInput)
    requires j.material.Some? && (j.phase == Staged || j.phase == Committed)
    ensures var b := Begun(j);
      var end := DiskAfter(Some(b), VerifyEffects(c, b, i));
      && end.Some? && end.value.highest == b.highest && end.value.previousPhase == Some(j.phase)
      && (end.value.phase == Committed <==> Works(c, j, i))
      && (end.value.phase == RolledBack <==> !Works(c, j, i) && i.cleaned && i.abandonSaved)
      && (end.value.phase == Trying <==> !Works(c, j, i) && !(i.cleaned && i.abandonSaved))
  {
    hide DiskAfter, ReceiptFits, Proven, CommitEffects, RollBackEffects;
    var b := Begun(j);
    var v := Verified(b, i.receipt);
    ProvenIff(c, j, i);
    ReceiptFrame(c, j, b);
    RollBackEnds(b, i);
    CommitEnds(c, b, i);
    CommitEnds(c, v, i);
    DiskCons(Some(b), Save(v), CommitEffects(c, v, i));
  }

  lemma RollBackEnds(j: Journal, i: AttemptInput)
    requires j.phase == Trying
    ensures var end := DiskAfter(Some(j), RollBackEffects(j, i));
      end == Some(if i.cleaned && i.abandonSaved then j.(phase := RolledBack) else j)
  {
    hide DiskAfter;
    DiskNothing(Some(j));
    DiskCons(Some(j), Save(Abandoned(j)), []);
  }

  lemma CommitEnds(c: Crypto, j: Journal, i: AttemptInput)
    requires j.phase == Trying
    ensures var end := DiskAfter(Some(j), CommitEffects(c, j, i));
      && end.Some? && end.value.highest == j.highest && end.value.previousPhase == j.previousPhase
      && end.value.phase == if && i.sourceAtCommit.sourceReadable && i.sourceAtCommit.sourceHash == j.sourceHash
                               && i.commitSaved then Committed
                            else if i.cleaned && i.abandonSaved then RolledBack else Trying
  {
    hide DiskAfter, AckEffects, RollBackEffects;
    RollBackEnds(j, i);
    DiskCons(Some(j), Save(CommittedTo(j)), AckEffects(c, CommittedTo(j), i.ack));
    AcknowledgesIff(c, CommittedTo(j), i.ack);
    hide RenewsGrant;
  }

  /**
   An enrolment, exactly: a committed journal is acknowledged; a staged offer that can be used is kept, and one that
   cannot is retired before anything new is staged, unless that save fails; in every other phase staging is tried.
   */
  lemma EnrolEndsIff(c: Crypto, disk: Option<Journal>, i: EnrolInput)
    ensures var end := DiskAfter(disk, EnrolEffects(c, disk, i));
      end == if disk.Some? && disk.value.phase == Committed then DiskAfter(disk, AckEffects(c, disk.value, i.ack))
             else if disk.Some? && disk.value.phase == Staged && (Offers(c, disk.value, i.files) || !i.retireSaved)
             then disk
             else
               var start := if disk.Some? && disk.value.phase == Staged
                            then Some(disk.value.(phase := Expired, material := None)) else disk;
               DiskAfter(start, StageEffects(c, start, i))
  {
    hide DiskAfter, IsCandidate, Offers, StageEffects, AckEffects;
    DiskNothing(disk);
    if disk.Some? {
      OffersIff(c, disk.value, i.files);
      DiskCons(disk, Save(Retired(disk.value)), StageEffects(c, Some(Retired(disk.value)), i));
    }
  }
}
