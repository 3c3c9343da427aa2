/** The outcome of a run for each kind of exit, and what the Complete event carries. */
module DepositScenarios {
  import opened Wrappers
  import opened Collaborators
  import opened Events
  import opened DepositSpec
  import opened DepositLifecycle

  /** A redelivered job sends the redelivery error and nothing else: no InitStates, no Start. */
  lemma RedeliveredRun(o: Oracle)
    ensures Trace(true, o) == [Error(RedeliveredMessage)]
    ensures forall i :: 0 <= i < |Trace(true, o)| ==> !Trace(true, o)[i].InitStates? && !Trace(true, o)[i].Start?
  {
  }

  /** A fresh delivery begins with InitStates listing the six stages, then Start(0). */
  lemma RunBeginsWithHeader(o: Oracle)
    ensures |Trace(false, o)| >= 3
    ensures Trace(false, o)[0] == InitStates(["Calculating size", "Transferring", "Packaging", "Storing in archive", "Verifying", "Complete"])
    ensures Trace(false, o)[1] == Start(0)
  {
  }

  /** If the user storage cannot be built, the header is followed by a single error. */
  lemma UserStoreUnavailable(o: Oracle)
    requires !o.userStoreBuilds
    ensures Trace(false, o) == Header + [Error("Deposit failed: could not access user filesystem")]
  {
  }

  /** If only the archive storage cannot be built, the header is followed by a single error. */
  lemma ArchiveStoreUnavailable(o: Oracle)
    requires o.userStoreBuilds && !o.archiveStoreBuilds
    ensures Trace(false, o) == Header + [Error("Deposit failed: could not access archive filesystem")]
  {
  }

  /** A missing source file adds exactly one event after the header: the file-not-found error. */
  lemma FileNotFound(o: Oracle)
    requires o.userStoreBuilds && o.archiveStoreBuilds
    requires !Throws(o, Exists) && !o.fileExists
    ensures Trace(false, o) == Header + [Error("Deposit failed: file not found")]
  {
  }

  /** The verification stage passes exactly when the reference condition holds. */
  lemma VerificationPassesIff(o: Oracle)
    ensures Verification(o).Ok? <==> VerificationPasses(o)
  {
  }

  /** The try block runs to Complete exactly when the run reaches and passes verification. */
  lemma BodyCompletesIff(o: Oracle)
    requires o.userStoreBuilds && o.archiveStoreBuilds
    ensures (DepositBody(o).out.Ok? && !Throws(o, Exists) && o.fileExists)
            <==> (ReachesVerification(o) && VerificationPasses(o))
  {
    VerificationPassesIff(o);
  }

  /** Once both stores are built, the run is the header, the try block's events and its error if it throws. */
  lemma ResolvedRun(o: Oracle)
    requires o.userStoreBuilds && o.archiveStoreBuilds
    ensures Trace(false, o) == Header + CatchAll(DepositBody(o))
    ensures Succeeds(false, o) ==> DepositBody(o).out.Ok? && o.fileExists
  {
    BodyCompletesIff(o);
  }

  /** Every stage succeeding yields the header and the whole success log, stages 0 to 5 in order. */
  lemma SuccessfulRun(o: Oracle)
    requires Succeeds(false, o)
    ensures Trace(false, o) == Header + SuccessLog(o)
    ensures NextStates(Trace(false, o)) == [0, 1, 2, 3, 4, 5]
  {
    BodyCompletesIff(o);
    BodyIsPrefixOfSuccessLog(o);
    HeaderAndPrefixForward(SuccessLog(o), o);
    SuccessLogAnnouncesStages(o);
    NextStatesAppend(Header, SuccessLog(o));
    NextStatesSnoc([InitStates(StageNames)], Start(0));
    NextStatesSnoc([], InitStates(StageNames));
    assert Header == [] + [InitStates(StageNames)] + [Start(0)];
  }

  /** A run ends with Complete if and only if every stage succeeds. */
  lemma CompletesIffSucceeds(redeliver: bool, o: Oracle)
    ensures Trace(redeliver, o)[|Trace(redeliver, o)| - 1].Complete? <==> Succeeds(redeliver, o)
  {
    if !redeliver && o.userStoreBuilds && o.archiveStoreBuilds {
      BodyCompletesIff(o);
      BodyIsPrefixOfSuccessLog(o);
      var b := DepositBody(o);
      if b.out.Ok? && (Throws(o, Exists) || o.fileExists) {
        assert Trace(redeliver, o) == Header + SuccessLog(o);
      }
    }
  }

  /** A log of the third protocol shape, ended by an error, holds no Complete event. */
  lemma FailureLogHasNoComplete(t: seq<EventKind>, o: Oracle)
    requires |t| >= 3 && t[..2] == Header && t[2..|t| - 1] < SuccessLog(o) && t[|t| - 1].Error?
    ensures forall i :: 0 <= i < |t| ==> !t[i].Complete?
  {
    forall i | 0 <= i < |t| ensures !t[i].Complete? {
      if 2 <= i < |t| - 1 {
        assert t[i] == t[2..|t| - 1][i - 2] == SuccessLog(o)[i - 2];
      } else if i < 2 {
        assert t[i] == t[..2][i];
      }
    }
  }

  /** Complete, wherever it appears, carries the id store returned and the tar length measured before the store. */
  lemma CompleteCarriesStoreResult(redeliver: bool, o: Oracle)
    ensures forall i :: 0 <= i < |Trace(redeliver, o)| && Trace(redeliver, o)[i].Complete? ==>
      Trace(redeliver, o)[i] == Complete(o.archiveId, o.tarLength, 5)
  {
    var t := Trace(redeliver, o);
    TraceFollowsProtocol(redeliver, o);
    if t == Header + SuccessLog(o) {
      forall i | 0 <= i < |t| && t[i].Complete? ensures t[i] == Complete(o.archiveId, o.tarLength, 5) {
        if 2 <= i {
          assert t[i] == SuccessLog(o)[i - 2];
        }
      }
    } else if t != [Error(RedeliveredMessage)] {
      FailureLogHasNoComplete(t, o);
    }
  }

  /**
   * Under COPY_BACK the tar file is replaced by the fetched copy, yet the size Complete reports
   * is the length measured before the store, whatever length the fetched copy has.
   */
  lemma CopyBackReportsPreStoreLength(redeliver: bool, o: Oracle, fetchedLength: int)
    requires o.verifyMethod == CopyBack
    ensures var t := Trace(redeliver, o.(retrievedLength := fetchedLength));
      forall i :: 0 <= i < |t| && t[i].Complete? ==> t[i].archiveSize == o.tarLength
  {
    CompleteCarriesStoreResult(redeliver, o.(retrievedLength := fetchedLength));
  }

  /** Under COPY_BACK a fetched copy whose digest differs ends the run with the checksum error. */
  lemma CopyBackChecksumMismatch(o: Oracle)
    requires ReachesVerification(o) && o.verifyMethod == CopyBack
    requires CopyBackCalls !! o.faults.Keys && o.retrievedDigest != o.tarDigest
    ensures Trace(false, o) == Header + SuccessLog(o)[..7]
      + [Error("Deposit failed: checksum failed: " + o.retrievedDigest + " != " + o.tarDigest)]
  {
    assert Verification(o) == Thrown(ChecksumFailedMessage(o.retrievedDigest, o.tarDigest));
    FailsInVerification(o);
    assert FailedPrefix + ChecksumFailedMessage(o.retrievedDigest, o.tarDigest)
        == "Deposit failed: checksum failed: " + o.retrievedDigest + " != " + o.tarDigest;
  }

  /**
   * Under LOCAL_ONLY no digest is compared: the run does not depend on the digest of a fetched
   * copy, nor on whether fetching or digesting one would throw.
   */
  lemma LocalOnlySkipsComparison(redeliver: bool, o: Oracle, digest: string, faults: map<Call, string>)
    requires o.verifyMethod == LocalOnly
    requires faults - CopyBackCalls == o.faults - CopyBackCalls
    ensures Trace(redeliver, o) == Trace(redeliver, o.(retrievedDigest := digest, faults := faults))
  {
    var o' := o.(retrievedDigest := digest, faults := faults);
    forall c | c !in CopyBackCalls
      ensures Throws(o, c) == Throws(o', c)
      ensures Throws(o, c) ==> o.faults[c] == o'.faults[c]
    {
      SameFaultOutside(o.faults, faults, CopyBackCalls, c);
    }
    assert UserTransfer(o) == UserTransfer(o');
    assert Packaging(o) == Packaging(o');
    assert PrepareTar(o) == PrepareTar(o');
    assert Verification(o) == Verification(o');
    assert ArchiveTar(o) == ArchiveTar(o');
    assert DepositBody(o) == DepositBody(o');
  }

  lemma SameFaultOutside(m: map<Call, string>, m': map<Call, string>, excluded: set<Call>, c: Call)
    requires m - excluded == m' - excluded && c !in excluded
    ensures c in m <==> c in m'
    ensures c in m ==> m[c] == m'[c]
  {
    assert c in m <==> c in m - excluded;
    assert c in m' <==> c in m' - excluded;
    if c in m {
      assert m[c] == (m - excluded)[c];
      assert m'[c] == (m' - excluded)[c];
    }
  }

  /** An invalid bag ends the run with "Bag is invalid" under either verification method. */
  lemma InvalidBag(o: Oracle)
    requires ReachesVerification(o)
    requires o.verifyMethod == LocalOnly
             || (o.verifyMethod == CopyBack && CopyBackCalls !! o.faults.Keys && o.retrievedDigest == o.tarDigest)
    requires !Throws(o, UnTar) && !Throws(o, ValidateBag) && !o.bagValid
    ensures Trace(false, o) == Header + SuccessLog(o)[..7] + [Error("Deposit failed: Bag is invalid")]
  {
    FailsInVerification(o);
    assert FailedPrefix + BagInvalidMessage == "Deposit failed: Bag is invalid";
  }

  /**
   * With a verify method that is neither LOCAL_ONLY nor COPY_BACK no check is made: the run
   * completes whatever the bag or a fetched copy would show.
   */
  lemma UnrecognisedMethodCompletesUnverified(o: Oracle)
    requires ReachesVerification(o) && o.verifyMethod == Unrecognised
    ensures Trace(false, o) == Header + SuccessLog(o)
  {
    BodyIsPrefixOfSuccessLog(o);
  }
}
