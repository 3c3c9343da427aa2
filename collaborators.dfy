/**
 * The external collaborators of a deposit run, seen only through the answers they give.
 *
 * A run of the deposit task calls backends that are resolved by reflection, the filesystem,
 * the bag packager, the tar codec and the digest routine. None of them is modelled; instead an
 * `Oracle` fixes, for one run, what each call returns and which calls throw (and with what
 * exception message).
 */
module Collaborators {

  /** How the archive store wants the stored copy checked (Verify.Method). */
  datatype VerifyMethod =
    | LocalOnly      // validate the local tar file that was stored
    | CopyBack       // fetch the stored copy back and compare its digest first
    | Unrecognised   // any other value the store may report; the task then skips verification

  /** Every external call made inside the task's try block that can throw. */
  datatype Call =
    | Exists               // userStore.exists(filePath)
    | GetName              // userStore.getName(filePath)
    | GetSize              // userStore.getSize(filePath)
    | RetrieveFromUser     // userFs.retrieve(filePath, outputFile, progress)
    | CreateBag            // Packager.createBag(bagDir)
    | DetectFileTypes      // Identifier.detectDirectory(bagDataPath)
    | WriteFileTypes       // ObjectMapper.writeValueAsString(fileTypes)
    | AddMetadata          // Packager.addMetadata(...)
    | CreateTar            // Tar.createTar(bagDir, tarFile)
    | DigestTar            // Verify.getDigest(tarFile) before the store
    | ExtractMetadata      // Packager.extractMetadata(bagDir, metaDir)
    | Store                // archiveFs.store("/", tarFile, progress)
    | DeleteBagDir         // FileUtils.deleteDirectory(bagDir) after the store
    | RetrieveFromArchive  // archiveFs.retrieve(archiveId, tarFile, progress)
    | DigestRetrieved      // Verify.getDigest(tarFile) on the copied-back file
    | UnTar                // Tar.unTar(tarFile, tempPath)
    | ValidateBag          // Packager.validateBag(bagDir)
    | DeleteUnpackedDir    // FileUtils.deleteDirectory(bagDir) after validation

  /**
   * The answers of all collaborators for one run.
   * `faults` maps each call that throws to the message of the exception it throws.
   */
  datatype Oracle = Oracle(
    userStoreBuilds: bool,       // the user storage class could be constructed
    archiveStoreBuilds: bool,    // the archive storage class could be constructed
    fileExists: bool,            // answer of exists(filePath)
    fileSize: int,               // answer of getSize(filePath)
    tarLength: int,              // tarFile.length() right after the tar is written
    tarDigest: string,           // digest of the tar before the store
    digestAlgorithm: string,     // Verify.getAlgorithm()
    archiveId: string,           // identifier returned by store
    retrievedDigest: string,     // digest of the tar fetched back from the archive
    retrievedLength: int,        // length of the tar file once it is fetched back from the archive
    bagValid: bool,              // answer of validateBag on the unpacked bag
    verifyMethod: VerifyMethod,  // archiveFs.getVerifyMethod()
    faults: map<Call, string>)

  /** Whether `c` throws in this run. */
  predicate Throws(o: Oracle, c: Call)
  {
    c in o.faults
  }
}
