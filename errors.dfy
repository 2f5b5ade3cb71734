/** Failures of the backup and restore operations, and the wrappers that
    carry them in place of Java exceptions. */
module Errors {

  datatype Error =
    | IllegalState(message: string)  // IllegalStateException raised while building a manifest
    | NoSuchElement                  // Iterables.getOnlyElement on an empty list
    | IllegalArgument                // Iterables.getOnlyElement on a list of two or more
    | NullReference                    // a path too short for getParent()/getFileName()
    | NoSuchFile                     // Files.find on a start directory that does not exist
    | FileFailure                    // a local staging file that cannot be created
    | InvalidPath                    // InvalidPathException out of Paths.get
    | MBeanFailure                   // an exception out of a StorageServiceMBean call
    | StorageFailure                 // an exception out of the bucket service or the backuper
    | BlobReferenceFailure           // StorageException/URISyntaxException out of getBlockBlobReference
    | LockUnavailable                // the global lock is held and waiting was not requested

  datatype Option<+T> = None | Some(value: T)

  datatype Result<+T> = Ok(value: T) | Err(error: Error) {
    predicate IsFailure() { Err? }

    function PropagateFailure<U>(): Result<U>
      requires Err?
    {
      Err(error)
    }

    function Extract(): T
      requires Ok?
    {
      value
    }
  }

  /** The result of an operation that returns nothing (a Java `void` that may throw). */
  datatype Outcome = Pass | Fail(error: Error)
}
