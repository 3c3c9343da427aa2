# Deposit task of the DataVault worker, modelled in Dafny

The worker's `Deposit` task takes a file from a user store and sends the deposit
through six announced stages: Calculating size, Transferring, Packaging, Storing in
archive, Verifying and Complete. It copies the file into a bag directory, bags it,
adds metadata, tars it and digests the tar. It then stores the tar in an archive
store, verifies the archived package and reports every step as an event on the
event stream. This project models that control flow and the events it sends.

- `wrappers.dfy`: `Option`, and `Outcome` (a value or a thrown exception with its message).
- `collaborators.dfy`: the `Oracle`. It fixes what every outside call answers: the two
  store constructors, `exists`, `getName`/`getSize`, `retrieve`, the packager, tar and
  digest calls, `store` and the verify method. Its `faults` map says which calls throw,
  and with which message.
- `events.dfy`: the event payloads (`EventKind`), tagging with job, deposit and user
  ids, and two measures on a log. `TerminalCount` counts the Complete and Error events.
  `NextStates` lists the next-state indices the log announces.
- `deposit_spec.dfy`: one pure function per helper of the task (`UserTransfer`,
  `Packaging`, `ArchiveTransfer`, `ArchiveRetrieval`, `VerifyTar`, `Verification`),
  composed into `DepositBody` (the try block), `CatchAll` (its catch) and `Trace` (all of
  `performAction`). It also holds the reference definitions the lemmas compare `Trace`
  with: `SuccessLog`, `Succeeds` and `FollowsProtocol`.
- `deposit_lifecycle.dfy`: lemmas that hold for every run: the protocol shape, exactly one
  terminal event, and stage indices that only go forward.
- `deposit_scenarios.dfy`: the outcome of each kind of exit.
- `deposit.dfy`: class `Tasks.Deposit`. Its fields are the event log, the ids read from
  the job properties, the store and tracker state, and flags for the temporary bag, tar,
  unpacked and meta directories. Each method of the Java class is a method here, proved
  equal to its pure function: the events it appends, the outcome it returns, and the
  tracker it leaves stopped.

An exception is a `Thrown` outcome that each caller passes up unchanged, which is what
Java's propagation does. The one `catch` of the try block turns it into
`Error("Deposit failed: " + message)`.

## Model

| member | source | states |
|---|---|---|
| Tasks.Deposit.PerformAction | datavault-worker/src/main/java/org/datavaultplatform/worker/tasks/Deposit.java:48-236 | The task records the three ids from the properties and appends exactly `Trace(redeliver, o)` to the stream. Every event is tagged with the job id and those ids, and the tracker is stopped at the end. The user store is built unless the job is a redelivery. The archive store is built once the user store is, and stays as it was when the user store fails. No temporary directory is touched on a redelivery, on a store failure, when `exists` throws or when the file is missing. A successful run leaves the bag directory deleted and the meta directory present. Under either recognised verify method it also leaves no tar (its length reads 0) and no unpacked directory. |
| Tasks.Deposit.ConnectAndDeposit | datavault-worker/src/main/java/org/datavaultplatform/worker/tasks/Deposit.java:90-235 | After the header, the task sends the failing store's error if a store cannot be built; a failing user store leaves the archive store unbuilt. Otherwise it sends the try block's events, then the caught error if there is one, with the same directory guarantees as `PerformAction`. |
| Tasks.Deposit.ConnectUserStorage | datavault-worker/src/main/java/org/datavaultplatform/worker/tasks/Deposit.java:91-103 | The result is true exactly when the user store can be constructed. On failure, the single event "Deposit failed: could not access user filesystem" is sent and the store stays unset. |
| Tasks.Deposit.ConnectArchiveStorage | datavault-worker/src/main/java/org/datavaultplatform/worker/tasks/Deposit.java:106-117 | The result is true exactly when the archive store can be constructed. On failure, the single event "Deposit failed: could not access archive filesystem" is sent. |
| Tasks.Deposit.DepositCatchingFailures | datavault-worker/src/main/java/org/datavaultplatform/worker/tasks/Deposit.java:121-235 | The try block's events are followed, if it throws, by one Error whose message is "Deposit failed: " followed by the exception's message. When the body completes, the bag directory is gone, the meta directory exists, and the tar is left exactly when the verify method is unrecognised. |
| Tasks.Deposit.DepositFile | datavault-worker/src/main/java/org/datavaultplatform/worker/tasks/Deposit.java:121-229 | A missing file sends only the file-not-found error. An existing file sends the preparation and archiving events in sequence, and the first exception stops the block. |
| Tasks.Deposit.PrepareTarFile | datavault-worker/src/main/java/org/datavaultplatform/worker/tasks/Deposit.java:125-174 | The bag directory is created. Then come UpdateProgress(1), the transfer's events, TransferComplete(2), packaging, PackageComplete(3) and ComputedDigest with the tar's digest and algorithm, each only if everything before it returned. A successful run leaves a tar file and returns its length, measured after PackageComplete, as the size for Complete. |
| Tasks.Deposit.PackageBag | datavault-worker/src/main/java/org/datavaultplatform/worker/tasks/Deposit.java:142-162 | The task creates the bag, detects file types, writes them, adds metadata, creates the tar and digests it, stopping at the first call that throws. After success the tar exists with the length `createTar` gave it. |
| Tasks.Deposit.ArchiveTarFile | datavault-worker/src/main/java/org/datavaultplatform/worker/tasks/Deposit.java:168-223 | Given the length measured before the store, the task creates the meta directory, extracts metadata, stores the tar, deletes the bag directory and sends UpdateProgress(4). It verifies by the store's method, then sends Complete with the stored id, the length measured before the store, and next state 5. Complete reports that earlier length even though COPY_BACK replaces the tar with the fetched copy. Under LOCAL_ONLY or COPY_BACK, success leaves neither a tar nor an unpacked directory. |
| Tasks.Deposit.CopyFromUserStorage | datavault-worker/src/main/java/org/datavaultplatform/worker/tasks/Deposit.java:238-268 | The task sends ComputedSize and the "Starting transfer ..." progress only after `getName` and `getSize` return, then retrieves the file under a tracker. Exactly one tracker is started once both calls return, none otherwise, and it is stopped and joined on every exit, including a throwing `retrieve`. |
| Tasks.Deposit.CopyToArchiveStorage | datavault-worker/src/main/java/org/datavaultplatform/worker/tasks/Deposit.java:270-291 | The result is the id `store` returns, or its exception. Exactly one tracker is started, it is stopped and joined in both cases, and no event is sent. |
| Tasks.Deposit.CopyBackFromArchive | datavault-worker/src/main/java/org/datavaultplatform/worker/tasks/Deposit.java:293-299 | The result is the retrieval's outcome. After a successful fetch, the tar file is present again with the fetched copy's length. |
| Tasks.Deposit.VerifyTarFile | datavault-worker/src/main/java/org/datavaultplatform/worker/tasks/Deposit.java:301-326 | The retrieved tar is digested only when an original hash is given, and a differing digest throws "checksum failed: x != y". The task then unpacks the tar, rejects an invalid bag with "Bag is invalid" and deletes the unpacked directory and the tar. Success leaves neither behind; a failure leaves the tar and its length. |
| DepositScenarios.RedeliveredRun | datavault-worker/src/main/java/org/datavaultplatform/worker/tasks/Deposit.java:61-65 | A redelivered job sends exactly one event, the Error "Deposit stopped: the message had been redelivered, please investigate", and never InitStates or Start. |
| DepositScenarios.RunBeginsWithHeader | datavault-worker/src/main/java/org/datavaultplatform/worker/tasks/Deposit.java:73-85 | A fresh delivery sends InitStates with the six stage names in order, then Start with next state 0, followed by at least one more event. |
| DepositScenarios.UserStoreUnavailable | datavault-worker/src/main/java/org/datavaultplatform/worker/tasks/Deposit.java:91-103 | If the user store cannot be built, the run is the header and then "Deposit failed: could not access user filesystem". |
| DepositScenarios.ArchiveStoreUnavailable | datavault-worker/src/main/java/org/datavaultplatform/worker/tasks/Deposit.java:106-117 | If only the archive store cannot be built, the run is the header and then "Deposit failed: could not access archive filesystem". |
| DepositScenarios.FileNotFound | datavault-worker/src/main/java/org/datavaultplatform/worker/tasks/Deposit.java:225-229 | A file that does not exist gives the header and then "Deposit failed: file not found", and nothing else. |
| DepositScenarios.VerificationPassesIff | datavault-worker/src/main/java/org/datavaultplatform/worker/tasks/Deposit.java:202-217 | Verification returns normally exactly when the reference condition holds. Under LOCAL_ONLY, the bag must unpack, validate and clean up. Under COPY_BACK, the fetch and digest must not throw, the digests must agree, and the bag must pass. Any other method always returns normally. |
| DepositScenarios.BodyCompletesIff | datavault-worker/src/main/java/org/datavaultplatform/worker/tasks/Deposit.java:121-223 | The try block runs to its end on an existing file exactly when no transfer, packaging or store call throws and verification passes. |
| DepositScenarios.ResolvedRun | datavault-worker/src/main/java/org/datavaultplatform/worker/tasks/Deposit.java:119-235 | Once both stores are built, the run is the header, the try block's events and the caught error, if any. A successful run has an existing file and a body that returned. |
| DepositScenarios.SuccessfulRun | datavault-worker/src/main/java/org/datavaultplatform/worker/tasks/Deposit.java:73-223 | When every stage succeeds, the run is exactly the header followed by the eight events of a successful deposit, and its next-state indices are 0, 1, 2, 3, 4, 5. |
| DepositScenarios.CompletesIffSucceeds | datavault-worker/src/main/java/org/datavaultplatform/worker/tasks/Deposit.java:61-235 | The last event is Complete if and only if the job is a fresh delivery and every stage succeeds. |
| DepositScenarios.CompleteCarriesStoreResult | datavault-worker/src/main/java/org/datavaultplatform/worker/tasks/Deposit.java:168-223 | Every Complete event carries the archive id `store` returned, the tar length measured before the store, and next state 5. |
| DepositScenarios.CopyBackReportsPreStoreLength | datavault-worker/src/main/java/org/datavaultplatform/worker/tasks/Deposit.java:168-221 | Under COPY_BACK, every Complete reports the tar length measured before the store, whatever length the copy fetched back from the archive has. |
| DepositScenarios.CopyBackChecksumMismatch | datavault-worker/src/main/java/org/datavaultplatform/worker/tasks/Deposit.java:303-309 | Under COPY_BACK, a fetched copy whose digest differs from the original ends the run after UpdateProgress(4). The last event is "Deposit failed: checksum failed: <fetched> != <original>", and no Complete is sent. |
| DepositScenarios.LocalOnlySkipsComparison | datavault-worker/src/main/java/org/datavaultplatform/worker/tasks/Deposit.java:202-205 | Under LOCAL_ONLY, the run does not depend on the digest of a retrieved copy or on whether the copy-back calls would throw: no comparison is made. |
| DepositScenarios.InvalidBag | datavault-worker/src/main/java/org/datavaultplatform/worker/tasks/Deposit.java:313-318 | An unpacked bag that fails validation ends the run after UpdateProgress(4) with "Deposit failed: Bag is invalid". This holds under LOCAL_ONLY, and under COPY_BACK once the digests agree. |
| DepositScenarios.UnrecognisedMethodCompletesUnverified | datavault-worker/src/main/java/org/datavaultplatform/worker/tasks/Deposit.java:202-223 | A verify method that is neither LOCAL_ONLY nor COPY_BACK skips verification and the run completes. |
| DepositLifecycle.BodyIsPrefixOfSuccessLog | datavault-worker/src/main/java/org/datavaultplatform/worker/tasks/Deposit.java:121-229 | The try block's events are the file-not-found error alone, or a prefix of the success log: all of it when the block returns, a proper prefix when it throws. |
| DepositLifecycle.FailsInVerification | datavault-worker/src/main/java/org/datavaultplatform/worker/tasks/Deposit.java:193-217 | A run that throws during verification has sent the first seven events of the success log, everything but Complete. |
| DepositLifecycle.TraceFollowsProtocol | datavault-worker/src/main/java/org/datavaultplatform/worker/tasks/Deposit.java:48-236 | Every run is one of three shapes: the redelivery error alone; the header and the whole success log; or the header, a proper prefix of the success log and one Error. |
| DepositLifecycle.SuccessLogAnnouncesStages | datavault-worker/src/main/java/org/datavaultplatform/worker/tasks/Deposit.java:130-223 | The success log announces next states 1, 2, 3, 4, 5, in that order. |
| DepositLifecycle.ProtocolHasOneTerminal | datavault-worker/src/main/java/org/datavaultplatform/worker/tasks/Deposit.java:61-235 | A log of any of the three shapes holds exactly one Complete or Error, and it is the last event. |
| DepositLifecycle.ProtocolIsStrictlyForward | datavault-worker/src/main/java/org/datavaultplatform/worker/tasks/Deposit.java:73-223 | A log of any of the three shapes announces a prefix of 0, 1, 2, 3, 4, 5, strictly increasing. |
| DepositLifecycle.ExactlyOneTerminal | datavault-worker/src/main/java/org/datavaultplatform/worker/tasks/Deposit.java:48-236 | Every run, redelivered or not, sends exactly one terminal event, and sends it last. |
| DepositLifecycle.StrictlyForward | datavault-worker/src/main/java/org/datavaultplatform/worker/tasks/Deposit.java:48-236 | The stage indices a run announces are a prefix of 0 to 5: no stage is skipped, repeated or revisited. |

## Left out

- Backend resolution by reflection is modelled only by its outcome: each store either builds or does not.
- Filesystem paths are left out. Temporary files are modelled as presence flags for the bag, tar, unpacked and meta directories, plus the length `tarFile.length()` reports (0 once the tar is deleted).
- The periodic UpdateProgress events a progress tracker sends from its own thread, and the `Progress` counters, are left out. The thread is modelled as a flag and a ghost count of starts. The main flow sends nothing while the flag is set, and every exit clears it.
- Logging is left out: it has no effect on the stream.
- The metadata blobs and file-type map are left out. They are passed to the packager unread, so only whether those calls throw is modelled.
- A null exception message is left out: messages are strings. A thrown exception without a message would make the catch send "Deposit failed: null".
- Only `java.lang.Exception` is caught (Deposit.java:97, 111, 230). A `java.lang.Error`, for example `NoClassDefFoundError` or `ExceptionInInitializerError` from `Class.forName` at lines 92 and 107, or one raised by any collaborator, escapes `performAction`. Such a run ends with no terminal event, possibly after only InitStates and Start. The model treats every failure as a caught exception. So `ExactlyOneTerminal`, `TraceFollowsProtocol` and `CompletesIffSucceeds` describe only runs in which no `java.lang.Error` is thrown.
- Exceptions thrown by `send`, `mkdir`, `getVerifyMethod`, `tarFile.delete`, `FileUtils.deleteDirectory` of a missing directory, or `Thread.join` are not modelled. Only the calls listed in `Collaborators.Call` can throw.
- `long` sizes are unbounded integers. The task only forwards them, so no overflow can occur in it.
- The `withUserId` builder is folded into tagging. The class's log holds payloads, and `Stream()` is the tagged view of it, carrying the job id and the ids read from the properties.
- The temporary files left behind after a failure inside the try block are not specified beyond what each helper's contract says.
- `performAction` dispatches only on LOCAL_ONLY and COPY_BACK (Deposit.java:202-217). Any other value of `getVerifyMethod()`, such as null, skips verification, and the run still completes. The model keeps this case as `Unrecognised`.
