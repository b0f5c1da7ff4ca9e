/** Result and option types shared by every module. */
module Base {

  datatype Option<+T> = None | Some(value: T)

  /** The storage layer's sentinel errors; Rejected stands for an error without a sentinel. */
  datatype Error =
    | LeaseLost
    | PageStage
    | SnapshotStale
    | SnapshotLimit
    | AlreadyStaged
    | AlreadyPublished
    | Conflict
    | Ineligible
    | MutationLimit
    | NotFound
    | InvalidCode
    | ETagMismatch
    | Unavailable
    | Rejected

  datatype Result<+T> = Ok(value: T) | Err(error: Error)

  lemma SubsetSize<T>(a: set<T>, b: set<T>)
    requires a <= b
    ensures |a| <= |b|
  {
    if a != {} {
      var x :| x in a;
      SubsetSize(a - {x}, b - {x});
    }
  }
}
