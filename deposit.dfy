/**
 * The deposit task itself: an object whose run appends events to its event stream and brackets
 * each tracked transfer with a progress tracker that is stopped and joined on every exit.
 * Exceptions are `Outcome.Thrown` values; the external calls are answered by an `Oracle`.
 */
module Tasks {
  import opened Wrappers
  import opened Collaborators
  import opened Events
  import opened DepositSpec
  import DepositScenarios

  /** The value stored under `key` in the job properties; absent keys read as null. */
  function Property(properties: map<string, string>, key: string): (v: Option<string>)
    ensures v.Some? <==> key in properties
    ensures v.Some? ==> v.value == properties[key]
  {
    if key in properties then Some(properties[key]) else None
  }

  class Deposit {
    const jobId: string
    const properties: map<string, string>
    const redeliver: bool

    /** The payloads of everything this task sent to the event stream, in order. */
    var events: seq<EventKind>
    var depositId: Option<string>
    var bagId: Option<string>
    var userId: Option<string>
    /** The user and archive stores have been constructed. */
    var userStoreReady: bool
    var archiveStoreReady: bool
    /** A progress tracker thread is running. */
    var trackerRunning: bool
    /** How many tracker threads have been started. */
    ghost var trackerStarts: nat
    /** Working files: the bag directory, the tar file, the unpacked copy, the meta directory. */
    var bagDirPresent: bool
    var tarFilePresent: bool
    var unpackedDirPresent: bool
    var metaDirPresent: bool
    /** What tarFile.length() answers: the length of the tar file on disk, 0 once it is deleted. */
    var tarFileLength: int

    constructor (jobId: string, properties: map<string, string>, redeliver: bool)
      ensures this.jobId == jobId && this.properties == properties && this.redeliver == redeliver
      ensures events == [] && !trackerRunning && !userStoreReady && !archiveStoreReady
      ensures !bagDirPresent && !tarFilePresent && !unpackedDirPresent && !metaDirPresent
      ensures tarFileLength == 0 && trackerStarts == 0
    {
      this.jobId := jobId;
      this.properties := properties;
      this.redeliver := redeliver;
      events := [];
      depositId, bagId, userId := None, None, None;
      userStoreReady, archiveStoreReady, trackerRunning := false, false, false;
      bagDirPresent, tarFilePresent, unpackedDirPresent, metaDirPresent := false, false, false, false;
      tarFileLength, trackerStarts := 0, 0;
    }

    /** The stream as received: each event tagged with the job id and the ids read from the properties. */
    function Stream(): (r: seq<Event>)
      reads this
      ensures |r| == |events|
    {
      Tagged(jobId, depositId, userId, events)
    }

    /** eventStream.send: only the main flow sends, and never while a tracker runs. */
    method Send(kind: EventKind)
      requires !trackerRunning
      modifies this`events
      ensures events == old(events) + [kind]
    {
      events := events + [kind];
    }

    /** Starts a tracker thread. */
    method StartTracker()
      requires !trackerRunning
      modifies this`trackerRunning, this`trackerStarts
      ensures trackerRunning && trackerStarts == old(trackerStarts) + 1
    {
      trackerRunning := true;
      trackerStarts := trackerStarts + 1;
    }

    /** tracker.stop() followed by trackerThread.join(). */
    method StopAndJoinTracker()
      requires trackerRunning
      modifies this`trackerRunning
      ensures !trackerRunning
    {
      trackerRunning := false;
    }

    /** copyFromUserStorage: announce the size, then retrieve under a tracker stopped on every exit. */
    method CopyFromUserStorage(o: Oracle) returns (r: Outcome<()>)
      requires !trackerRunning
      modifies this`events, this`trackerRunning, this`trackerStarts
      ensures events == old(events) + UserTransfer(o).log
      ensures r == UserTransfer(o).out
      ensures !trackerRunning
      ensures trackerStarts == old(trackerStarts) + (if Throws(o, GetName) || Throws(o, GetSize) then 0 else 1)
    {
      if Throws(o, GetName) {
        return Thrown(o.faults[GetName]);
      }
      if Throws(o, GetSize) {
        return Thrown(o.faults[GetSize]);
      }
      var expectedBytes := o.fileSize;
      Send(ComputedSize(expectedBytes));
      Send(UpdateProgress(0, expectedBytes, StartingTransferMessage));
      StartTracker();
      // try { retrieve } finally { stop and join }
      r := if Throws(o, RetrieveFromUser) then Thrown(o.faults[RetrieveFromUser]) else Ok(());
      StopAndJoinTracker();
    }

    /** copyToArchiveStorage: store the tar under a tracker stopped on every exit. */
    method CopyToArchiveStorage(o: Oracle) returns (r: Outcome<string>)
      requires !trackerRunning
      modifies this`trackerRunning, this`trackerStarts
      ensures r == ArchiveTransfer(o)
      ensures !trackerRunning && trackerStarts == old(trackerStarts) + 1
    {
      StartTracker();
      // try { store } finally { stop and join }
      r := if Throws(o, Store) then Thrown(o.faults[Store]) else Ok(o.archiveId);
      StopAndJoinTracker();
    }

    /** copyBackFromArchive: fetch the stored copy into the tar file's place. */
    method CopyBackFromArchive(o: Oracle) returns (r: Outcome<()>)
      modifies this`tarFilePresent, this`tarFileLength
      ensures r == ArchiveRetrieval(o)
      ensures tarFilePresent == (r.Ok? || old(tarFilePresent))
      ensures tarFileLength == if r.Ok? then o.retrievedLength else old(tarFileLength)
    {
      if Throws(o, RetrieveFromArchive) {
        return Thrown(o.faults[RetrieveFromArchive]);
      }
      tarFilePresent, tarFileLength := true, o.retrievedLength;
      r := Ok(());
    }

    /** verifyTarFile: optional digest comparison, unpack, validate, clean up. */
    method VerifyTarFile(o: Oracle, origTarHash: Option<string>) returns (r: Outcome<()>)
      modifies this`unpackedDirPresent, this`tarFilePresent, this`tarFileLength
      ensures r == VerifyTar(o, origTarHash)
      ensures r.Ok? ==> !unpackedDirPresent && !tarFilePresent && tarFileLength == 0
      ensures r.Thrown? ==> tarFilePresent == old(tarFilePresent) && tarFileLength == old(tarFileLength)
    {
      if origTarHash.Some? {
        if Throws(o, DigestRetrieved) {
          return Thrown(o.faults[DigestRetrieved]);
        }
        var tarHash := o.retrievedDigest;
        if tarHash != origTarHash.value {
          return Thrown(ChecksumFailedMessage(tarHash, origTarHash.value));
        }
      }
      if Throws(o, UnTar) {
        return Thrown(o.faults[UnTar]);
      }
      unpackedDirPresent := true;
      if Throws(o, ValidateBag) {
        return Thrown(o.faults[ValidateBag]);
      }
      if !o.bagValid {
        return Thrown(BagInvalidMessage);
      }
      if Throws(o, DeleteUnpackedDir) {
        return Thrown(o.faults[DeleteUnpackedDir]);
      }
      unpackedDirPresent := false;
      tarFilePresent, tarFileLength := false, 0;
      r := Ok(());
    }
  
    /** Bag the directory in place, add the metadata, write the tar and digest it. */
    method PackageBag(o: Oracle) returns (r: Outcome<()>)
      modifies this`tarFilePresent, this`tarFileLength
      ensures r == Packaging(o)
      ensures r.Ok? ==> tarFilePresent && tarFileLength == o.tarLength
    {
      if Throws(o, CreateBag) {
        return Thrown(o.faults[CreateBag]);
      }
      if Throws(o, DetectFileTypes) {
        return Thrown(o.faults[DetectFileTypes]);
      }
      if Throws(o, WriteFileTypes) {
        return Thrown(o.faults[WriteFileTypes]);
      }
      if Throws(o, AddMetadata) {
        return Thrown(o.faults[AddMetadata]);
      }
      if Throws(o, CreateTar) {
        return Thrown(o.faults[CreateTar]);
      }
      tarFilePresent, tarFileLength := true, o.tarLength;
      if Throws(o, DigestTar) {
        return Thrown(o.faults[DigestTar]);
      }
      r := Ok(());
    }

    /**
     * First part of the try block: make the bag directory, transfer the file into it, bag it,
     * add metadata, write and digest the tar.
     */
    method PrepareTarFile(o: Oracle) returns (r: Outcome<()>, archiveSize: int)
      requires !trackerRunning
      modifies this`events, this`trackerRunning, this`trackerStarts, this`bagDirPresent, this`tarFilePresent,
        this`tarFileLength
      ensures events == old(events) + PrepareTar(o).log
      ensures r == PrepareTar(o).out
      ensures !trackerRunning && bagDirPresent
      ensures r.Ok? ==> tarFilePresent && archiveSize == tarFileLength == o.tarLength
    {
      bagDirPresent := true;
      Send(UpdateProgressNext(1));
      var transferred := CopyFromUserStorage(o);
      ghost var sent := [UpdateProgressNext(1)] + UserTransfer(o).log;
      if transferred.Thrown? {
        return transferred, 0;
      }

      Send(TransferComplete(2));
      sent := sent + [TransferComplete(2)];

      r := PackageBag(o);
      if r.Thrown? {
        return r, 0;
      }
      var tarHash, tarHashAlgorithm := o.tarDigest, o.digestAlgorithm;

      Send(PackageComplete(3));
      archiveSize := tarFileLength;
      Send(ComputedDigest(tarHash, tarHashAlgorithm));
      r := Ok(());
    }

    /**
     * Second part of the try block: extract the bag metadata, store the tar, delete the bag
     * directory, verify by the store's method and complete with the tar length measured
     * before the store (`archiveSize`).
     */
    method ArchiveTarFile(o: Oracle, archiveSize: int) returns (r: Outcome<()>)
      requires !trackerRunning
      requires archiveSize == o.tarLength
      modifies this`events, this`trackerRunning, this`trackerStarts, this`bagDirPresent, this`tarFilePresent,
        this`tarFileLength, this`unpackedDirPresent, this`metaDirPresent
      ensures events == old(events) + ArchiveTar(o).log
      ensures r == ArchiveTar(o).out
      ensures !trackerRunning && metaDirPresent
      ensures r.Ok? ==> !bagDirPresent
      ensures r.Ok? && o.verifyMethod != Unrecognised ==> !tarFilePresent && !unpackedDirPresent
      ensures r.Ok? && o.verifyMethod == Unrecognised ==>
        tarFilePresent == old(tarFilePresent) && tarFileLength == old(tarFileLength)
      ensures r.Ok? && o.verifyMethod != Unrecognised ==> tarFileLength == 0
    {
      metaDirPresent := true;
      if Throws(o, ExtractMetadata) {
        return Thrown(o.faults[ExtractMetadata]);
      }

      var stored := CopyToArchiveStorage(o);
      if stored.Thrown? {
        return Thrown(stored.message);
      }
      var archiveId := stored.value;

      if Throws(o, DeleteBagDir) {
        return Thrown(o.faults[DeleteBagDir]);
      }
      bagDirPresent := false;

      Send(UpdateProgressNext(4));
      if o.verifyMethod == LocalOnly {
        var verified := VerifyTarFile(o, None);
        if verified.Thrown? {
          return verified;
        }
      } else if o.verifyMethod == CopyBack {
        tarFilePresent, tarFileLength := false, 0;
        var fetched := CopyBackFromArchive(o);
        if fetched.Thrown? {
          return fetched;
        }
        var verified := VerifyTarFile(o, Some(o.tarDigest));
        if verified.Thrown? {
          return verified;
        }
      }

      Send(Complete(archiveId, archiveSize, 5));
      r := Ok(());
    }

    /**
     * The try block of performAction: check the file exists, then prepare and archive the tar;
     * an exception comes back as `Thrown`.
     */
    method DepositFile(o: Oracle) returns (r: Outcome<()>)
      requires !trackerRunning
      modifies this`events, this`trackerRunning, this`trackerStarts, this`bagDirPresent, this`tarFilePresent,
        this`tarFileLength, this`unpackedDirPresent, this`metaDirPresent
      ensures events == old(events) + DepositBody(o).log
      ensures r == DepositBody(o).out
      ensures !trackerRunning
      ensures Throws(o, Exists) || !o.fileExists ==>
        bagDirPresent == old(bagDirPresent) && tarFilePresent == old(tarFilePresent) && tarFileLength == old(tarFileLength)
        && unpackedDirPresent == old(unpackedDirPresent) && metaDirPresent == old(metaDirPresent)
      ensures o.fileExists && r.Ok? ==> !bagDirPresent && metaDirPresent && tarFilePresent == (o.verifyMethod == Unrecognised)
      ensures o.fileExists && r.Ok? && o.verifyMethod != Unrecognised ==> !unpackedDirPresent && tarFileLength == 0
    {
      if Throws(o, Exists) {
        return Thrown(o.faults[Exists]);
      }
      if !o.fileExists {
        Send(Error(NotFoundMessage));
        return Ok(());
      }
      var archiveSize;
      r, archiveSize := PrepareTarFile(o);
      if r.Thrown? {
        return;
      }
      r := ArchiveTarFile(o, archiveSize);
    }

    /** The try block of performAction with its catch: an escaping exception becomes one Error event. */
    method DepositCatchingFailures(o: Oracle)
      requires !trackerRunning
      modifies this`events, this`trackerRunning, this`trackerStarts, this`bagDirPresent, this`tarFilePresent,
        this`tarFileLength, this`unpackedDirPresent, this`metaDirPresent
      ensures events == old(events) + CatchAll(DepositBody(o))
      ensures !trackerRunning
      ensures Throws(o, Exists) || !o.fileExists ==>
        bagDirPresent == old(bagDirPresent) && tarFilePresent == old(tarFilePresent) && tarFileLength == old(tarFileLength)
        && unpackedDirPresent == old(unpackedDirPresent) && metaDirPresent == old(metaDirPresent)
      ensures o.fileExists && DepositBody(o).out.Ok? ==>
        !bagDirPresent && metaDirPresent && tarFilePresent == (o.verifyMethod == Unrecognised)
      ensures o.fileExists && DepositBody(o).out.Ok? && o.verifyMethod != Unrecognised ==>
        !unpackedDirPresent && tarFileLength == 0
    {
      var result := DepositFile(o);
      if result.Thrown? {
        Send(Error(FailedPrefix + result.message));
      }
    }

    /** Builds the user storage from its configured class; a failure is reported as one error event. */
    method ConnectUserStorage(o: Oracle) returns (connected: bool)
      requires !trackerRunning
      modifies this`events, this`userStoreReady
      ensures connected == o.userStoreBuilds
      ensures connected ==> userStoreReady && events == old(events)
      ensures !connected ==>
        userStoreReady == old(userStoreReady) && events == old(events) + [Error(UserStoreMessage)]
    {
      if !o.userStoreBuilds {
        Send(Error(UserStoreMessage));
        return false;
      }
      userStoreReady := true;
      return true;
    }

    /** Builds the archive storage from its configured class; a failure is reported as one error event. */
    method ConnectArchiveStorage(o: Oracle) returns (connected: bool)
      requires !trackerRunning
      modifies this`events, this`archiveStoreReady
      ensures connected == o.archiveStoreBuilds
      ensures connected ==> archiveStoreReady && events == old(events)
      ensures !connected ==>
        archiveStoreReady == old(archiveStoreReady) && events == old(events) + [Error(ArchiveStoreMessage)]
    {
      if !o.archiveStoreBuilds {
        Send(Error(ArchiveStoreMessage));
        return false;
      }
      archiveStoreReady := true;
      return true;
    }

    /**
     * The part of performAction after the header: build both stores, then run the try block with
     * its catch. A store that cannot be built ends the run with its own error event.
     */
    method ConnectAndDeposit(o: Oracle)
      requires !trackerRunning
      modifies this`events, this`trackerRunning, this`trackerStarts, this`userStoreReady, this`archiveStoreReady,
        this`bagDirPresent, this`tarFilePresent, this`tarFileLength, this`unpackedDirPresent, this`metaDirPresent
      ensures events == old(events) + AfterHeader(o)
      ensures !trackerRunning
      ensures userStoreReady == (o.userStoreBuilds || old(userStoreReady))
      ensures o.userStoreBuilds ==> archiveStoreReady == (o.archiveStoreBuilds || old(archiveStoreReady))
      ensures !o.userStoreBuilds ==> archiveStoreReady == old(archiveStoreReady)
      ensures !o.userStoreBuilds || !o.archiveStoreBuilds || Throws(o, Exists) || !o.fileExists ==>
        bagDirPresent == old(bagDirPresent) && tarFilePresent == old(tarFilePresent) && tarFileLength == old(tarFileLength)
        && unpackedDirPresent == old(unpackedDirPresent) && metaDirPresent == old(metaDirPresent)
      ensures Succeeds(false, o) ==> !bagDirPresent && metaDirPresent
      ensures Succeeds(false, o) && o.verifyMethod != Unrecognised ==>
        !tarFilePresent && !unpackedDirPresent && tarFileLength == 0
    {
      var connected := ConnectUserStorage(o);
      if !connected {
        return;
      }
      connected := ConnectArchiveStorage(o);
      if !connected {
        return;
      }
      DepositCatchingFailures(o);
      DepositScenarios.ResolvedRun(o);
    }

    /**
     * performAction: read the job properties, refuse a redelivered job, announce the stages, then
     * build both stores and run the deposit.
     */
    method PerformAction(o: Oracle)
      requires !trackerRunning
      modifies this
      ensures depositId == Property(properties, "depositId")
      ensures bagId == Property(properties, "bagId")
      ensures userId == Property(properties, "userId")
      ensures events == old(events) + Trace(redeliver, o)
      ensures Stream()[|old(events)|..] == Tagged(jobId, depositId, userId, Trace(redeliver, o))
      ensures !trackerRunning
      ensures !redeliver ==> userStoreReady == (o.userStoreBuilds || old(userStoreReady))
      ensures !redeliver && o.userStoreBuilds ==> archiveStoreReady == (o.archiveStoreBuilds || old(archiveStoreReady))
      ensures !redeliver && !o.userStoreBuilds ==> archiveStoreReady == old(archiveStoreReady)
      ensures redeliver ==> userStoreReady == old(userStoreReady) && archiveStoreReady == old(archiveStoreReady)
      ensures redeliver || !o.userStoreBuilds || !o.archiveStoreBuilds || Throws(o, Exists) || !o.fileExists ==>
        bagDirPresent == old(bagDirPresent) && tarFilePresent == old(tarFilePresent) && tarFileLength == old(tarFileLength)
        && unpackedDirPresent == old(unpackedDirPresent) && metaDirPresent == old(metaDirPresent)
      ensures Succeeds(redeliver, o) ==> !bagDirPresent && metaDirPresent
      ensures Succeeds(redeliver, o) && o.verifyMethod != Unrecognised ==>
        !tarFilePresent && !unpackedDirPresent && tarFileLength == 0
    {
      depositId := Property(properties, "depositId");
      bagId := Property(properties, "bagId");
      userId := Property(properties, "userId");

      if redeliver {
        Send(Error(RedeliveredMessage));
        TaggedSuffix(jobId, depositId, userId, old(events), Trace(redeliver, o));
        return;
      }

      Send(InitStates(StageNames));
      Send(Start(0));
      ConnectAndDeposit(o);
      TaggedSuffix(jobId, depositId, userId, old(events), Trace(redeliver, o));
    }
  }
}
