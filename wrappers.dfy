/** Option, the error kinds the repository reports, and Result. */
module Wrappers {

  datatype Option<+T> = None | Some(value: T)

  /** The errors the modelled code returns, and the runtime panics it can hit. */
  datatype Error =
    | InvalidLine(line: string)                 // files line not of the form src:dst
    | InvalidKindLine(kind: string, line: string) // the same, as addTrack words it
    | PathNotFound                              // files line naming an untracked destination
    | InvalidOid(text: string)                  // git.NewOid rejected a hash line
    | InvalidNumber(text: string)               // strconv.Atoi rejected a number
    | MissingCommit                             // a commit lookup failed
    | NoHead                                    // the repository has no HEAD
    | RemoteNotFound(name: string)              // a listed remote could not be looked up
    | PatchConflict                             // hunk text not found in the ancestor
    | LengthMismatch                            // source and destination lists differ in length
    | InvalidTrackPath                          // more than one ':' in a track argument
    | FailGetPatches                            // a file patch with neither side
    | MalformedChange                           // a tree change with neither side
    | DirtyWorktree                             // destination has uncommitted changes
    | Panic(reason: string)                     // a Go runtime panic

  datatype Result<+T> = Ok(value: T) | Err(error: Error)
}
