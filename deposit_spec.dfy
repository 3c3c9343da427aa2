/**
 * What one run of the deposit task sends to the event stream, as functions of the answers of
 * its collaborators. Each helper of the task has a function here giving the events it sends
 * and whether it throws; `Trace` composes them the way performAction does, with every escaping
 * exception turned into one Error event.
 */
module DepositSpec {
  import opened Wrappers
  import opened Collaborators
  import opened Events

  const RedeliveredMessage := "Deposit stopped: the message had been redelivered, please investigate"
  const UserStoreMessage := "Deposit failed: could not access user filesystem"
  const ArchiveStoreMessage := "Deposit failed: could not access archive filesystem"
  const NotFoundMessage := "Deposit failed: file not found"
  const FailedPrefix := "Deposit failed: "
  const StartingTransferMessage := "Starting transfer ..."
  const BagInvalidMessage := "Bag is invalid"

  /** The message of the exception a digest mismatch raises. */
  function ChecksumFailedMessage(actual: string, expected: string): string
  {
    "checksum failed: " + actual + " != " + expected
  }

  /** The two events every run that is not a redelivery begins with. */
  const Header: seq<EventKind> := [InitStates(StageNames), Start(0)]

  /** What a run sends after the header when every stage succeeds (tracker samples left out). */
  function SuccessLog(o: Oracle): seq<EventKind>
  {
    [UpdateProgressNext(1),
     ComputedSize(o.fileSize),
     UpdateProgress(0, o.fileSize, StartingTransferMessage),
     TransferComplete(2),
     PackageComplete(3),
     ComputedDigest(o.tarDigest, o.digestAlgorithm),
     UpdateProgressNext(4),
     Complete(o.archiveId, o.tarLength, 5)]
  }

  /** The events a part of the task sends, and whether it returns or throws. */
  datatype Stage<T> = Stage(log: seq<EventKind>, out: Outcome<T>)

  /** The exception the call `c` throws in this run. */
  function Fault<T>(o: Oracle, c: Call): Outcome<T>
    requires Throws(o, c)
  {
    Thrown(o.faults[c])
  }

  /** copyFromUserStorage: size and start-of-transfer events, then the tracked retrieve. */
  function UserTransfer(o: Oracle): Stage<()>
  {
    if Throws(o, GetName) then Stage([], Fault(o, GetName))
    else if Throws(o, GetSize) then Stage([], Fault(o, GetSize))
    else
      var sent := [ComputedSize(o.fileSize), UpdateProgress(0, o.fileSize, StartingTransferMessage)];
      if Throws(o, RetrieveFromUser) then Stage(sent, Fault(o, RetrieveFromUser))
      else Stage(sent, Ok(()))
  }

  /** Bagging, type detection, metadata, tar and digest; sends nothing. */
  function Packaging(o: Oracle): Outcome<()>
  {
    if Throws(o, CreateBag) then Fault(o, CreateBag)
    else if Throws(o, DetectFileTypes) then Fault(o, DetectFileTypes)
    else if Throws(o, WriteFileTypes) then Fault(o, WriteFileTypes)
    else if Throws(o, AddMetadata) then Fault(o, AddMetadata)
    else if Throws(o, CreateTar) then Fault(o, CreateTar)
    else if Throws(o, DigestTar) then Fault(o, DigestTar)
    else Ok(())
  }

  /** copyToArchiveStorage: the tracked store, returning the archive id. */
  function ArchiveTransfer(o: Oracle): Outcome<string>
  {
    if Throws(o, Store) then Fault(o, Store) else Ok(o.archiveId)
  }

  /** copyBackFromArchive: the untracked retrieve of the stored copy. */
  function ArchiveRetrieval(o: Oracle): Outcome<()>
  {
    if Throws(o, RetrieveFromArchive) then Fault(o, RetrieveFromArchive) else Ok(())
  }

  /**
   * verifyTarFile: with an original digest, the digest of the file is compared with it first;
   * then the tar is unpacked, the bag validated and both removed.
   */
  function VerifyTar(o: Oracle, origTarHash: Option<string>): Outcome<()>
  {
    if origTarHash.Some? && Throws(o, DigestRetrieved) then Fault(o, DigestRetrieved)
    else if origTarHash.Some? && o.retrievedDigest != origTarHash.value then
      Thrown(ChecksumFailedMessage(o.retrievedDigest, origTarHash.value))
    else if Throws(o, UnTar) then Fault(o, UnTar)
    else if Throws(o, ValidateBag) then Fault(o, ValidateBag)
    else if !o.bagValid then Thrown(BagInvalidMessage)
    else if Throws(o, DeleteUnpackedDir) then Fault(o, DeleteUnpackedDir)
    else Ok(())
  }

  /** The choice of verification by the archive store's verify method. */
  function Verification(o: Oracle): Outcome<()>
  {
    match o.verifyMethod
    case LocalOnly => VerifyTar(o, None)
    case CopyBack =>
      var fetched := ArchiveRetrieval(o);
      if fetched.Thrown? then fetched else VerifyTar(o, Some(o.tarDigest))
    case Unrecognised => Ok(())
  }

  /**
   * The first part of the try block: make the bag directory, transfer the file, package it and
   * digest the tar, announcing stages 1 to 3.
   */
  function PrepareTar(o: Oracle): Stage<()>
  {
    var transfer := UserTransfer(o);
    var transferring := [UpdateProgressNext(1)] + transfer.log;
    if transfer.out.Thrown? then Stage(transferring, transfer.out)
    else
      var packaged := Packaging(o);
      var packaging := transferring + [TransferComplete(2)];
      if packaged.Thrown? then Stage(packaging, packaged)
      else Stage(packaging + [PackageComplete(3), ComputedDigest(o.tarDigest, o.digestAlgorithm)], Ok(()))
  }

  /**
   * The second part of the try block: extract the metadata, store the tar, remove the bag
   * directory, verify and complete, announcing stages 4 and 5.
   */
  function ArchiveTar(o: Oracle): Stage<()>
  {
    if Throws(o, ExtractMetadata) then Stage([], Fault(o, ExtractMetadata))
    else
      var stored := ArchiveTransfer(o);
      if stored.Thrown? then Stage([], Thrown(stored.message))
      else if Throws(o, DeleteBagDir) then Stage([], Fault(o, DeleteBagDir))
      else
        var verified := Verification(o);
        if verified.Thrown? then Stage([UpdateProgressNext(4)], verified)
        else Stage([UpdateProgressNext(4), Complete(stored.value, o.tarLength, 5)], Ok(()))
  }

  /** The try block of performAction: events sent inside it and whether an exception escapes it. */
  function DepositBody(o: Oracle): Stage<()>
  {
    if Throws(o, Exists) then Stage([], Fault(o, Exists))
    else if !o.fileExists then Stage([Error(NotFoundMessage)], Ok(()))
    else
      var prepared := PrepareTar(o);
      if prepared.out.Thrown? then prepared
      else
        var archived := ArchiveTar(o);
        Stage(prepared.log + archived.log, archived.out)
  }

  /** The events of the try block followed, if an exception escapes it, by one Error carrying its message. */
  function CatchAll(body: Stage<()>): seq<EventKind>
  {
    body.log + (if body.out.Thrown? then [Error(FailedPrefix + body.out.message)] else [])
  }

  /** Everything performAction sends in one run. */
  function Trace(redeliver: bool, o: Oracle): seq<EventKind>
  {
    if redeliver then [Error(RedeliveredMessage)]
    else Header + AfterHeader(o)
  }

  /** What follows the header: a store that cannot be built, or the deposit with its catch. */
  function AfterHeader(o: Oracle): seq<EventKind>
  {
    if !o.userStoreBuilds then [Error(UserStoreMessage)]
    else if !o.archiveStoreBuilds then [Error(ArchiveStoreMessage)]
    else CatchAll(DepositBody(o))
  }

  // ---------------------------------------------------------------------------------------
  // Reference definitions the lemmas compare `Trace` with.

  /** The calls between the existence check and the verification stage. */
  const TransferCalls: set<Call> :=
    {GetName, GetSize, RetrieveFromUser, CreateBag, DetectFileTypes, WriteFileTypes, AddMetadata,
     CreateTar, DigestTar, ExtractMetadata, Store, DeleteBagDir}

  /** The calls only the copy-back verification makes. */
  const CopyBackCalls: set<Call> := {RetrieveFromArchive, DigestRetrieved}

  /** A run gets as far as announcing the verification stage. */
  predicate ReachesVerification(o: Oracle)
  {
    o.userStoreBuilds && o.archiveStoreBuilds && !Throws(o, Exists) && o.fileExists
    && TransferCalls !! o.faults.Keys
  }

  /** The unpacked bag is found valid and cleaned up without an exception. */
  predicate BagPasses(o: Oracle)
  {
    !Throws(o, UnTar) && !Throws(o, ValidateBag) && o.bagValid && !Throws(o, DeleteUnpackedDir)
  }

  /** The verification the archive store asks for passes. */
  predicate VerificationPasses(o: Oracle)
  {
    match o.verifyMethod
    case LocalOnly => BagPasses(o)
    case CopyBack =>
      CopyBackCalls !! o.faults.Keys && o.retrievedDigest == o.tarDigest && BagPasses(o)
    case Unrecognised => true
  }

  /** Every stage of a fresh delivery succeeds. */
  predicate Succeeds(redeliver: bool, o: Oracle)
  {
    !redeliver && ReachesVerification(o) && VerificationPasses(o)
  }

  /**
   * The shape of every log: the redelivery error alone, or the header followed by the whole
   * success log, or the header followed by a proper prefix of it and one Error.
   */
  predicate FollowsProtocol(t: seq<EventKind>, o: Oracle)
  {
    t == [Error(RedeliveredMessage)]
    || t == Header + SuccessLog(o)
    || (|t| >= 3 && t[..2] == Header && t[2..|t| - 1] < SuccessLog(o) && t[|t| - 1].Error?)
  }
}
