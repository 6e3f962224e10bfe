# fhub-track provenance ledger, in Dafny

fhub-track copies files ("objects") from a vendor repository into a
destination repository. It commits each copy with a *ledger* message. The
ledger lists the copied paths, together with the remotes and the HEAD of a
repository. There are two formats. `utils.Commit`, which the object command
calls on the destination repository, writes the destination's own remotes and
its HEAD from before the new commit:

    fhub-track
    
    repo:
      <destination remote name>:<url>
    hash:
      <destination HEAD before the commit>
    files:
      <source path>:<destination path>

`Track.commit` writes the vendor's remotes and the vendor's HEAD, with no
blank line after the marker:

    fhub-track
    repo:
      <vendor remote name>:<urls>
    hash:
      <vendor HEAD>
    files:
      <source path>:<destination path>

`searchTrackHash` reads a ledger from its second line on. The update command's
object map builder and the two discovery passes read from the third line on,
which in `Track.commit`'s format drops the "repo:" line. The object map
builder then gives those paths no repo, and its final filter removes them
(`Track.TrackMessageUpdateDecode`).

This project models the code that writes such messages and the code that
reads them. The writers are `utils.Commit`, the object command and
`trackObject`. The readers are:

- the object map builder of the update command;
- `searchTrackHash`;
- the two older discovery passes.

It also models three helpers: delta classification and per-path
bookkeeping, the path helpers, and the re-anchoring of unified-diff hunks on
an ancestor text (`recountPatch`, `rewriteDiffHunkHeader`, `readNumber`).

Git objects are abstract. A commit carries:

- its id;
- its message;
- its parent ids;
- a generation number, used only to show that the history walks end;
- the diffs the git libraries compute for it against the first parent:
  libgit2's deltas with rename detection (FindSimilar), which the update
  object map builder reads; libgit2's plain deltas without it, which
  `searchPatchByPath` reads; and go-git's changes;
- its tree listing.

Modules:

- `Wrappers`: Option, Result and the repository's error kinds.
- `Hex`, `Text`, `Paths`, `Numbers`: the Go library functions the code
  relies on (`git.NewOid`, `plumbing.NewHash`, `strings`, `filepath.Clean`,
  `strconv.Atoi`, `%d`).
- `Git`: commits, a store of commits, and the queue weight that bounds the
  walks.
- `Ledger`: `parseMessageKey` and the line reading shared by every decoder.
- `Utils`: `utils.Commit` and `CommitParents`.
- `UpdateObject`, `UpdatePatch`, `RecountPatch`: the update command's
  object map builder, patch collection and hunk re-anchoring.
- `ObjectCmd` and `TrackObject`: the object command and its copy in the
  track package.
- `Track`: `splitTrackObject`, `getObjectName`, `searchTrackHash`, the
  grouping loop of `trackUpdate`, and `Track.commit`'s message.
- `DiscoverTracked` and `DiscoverTrack`: the two older discovery passes.
- `RoundTrip`: the encoder against the update decoder.

Each loop of the source is a method with a loop. It is proved equal to a
function, and the properties are proved about that function as lemmas.

## Model

| member | source | states |
|---|---|---|
| Ledger.ParseMessageKey | internal/track/update/object.go:151-156 | a line is a key exactly when it is "repo:", "hash:", "files:" or "rename:"; then the label is the line without its colon, otherwise ("", false) |
| Ledger.ParseMessageKeyLabels | internal/track/update/object.go:151-156 | each of the four labels written with its colon yields that label |
| Ledger.ParseMessageKeyNeverMove | internal/track/update/object.go:142-143 | the key parser never yields "move", so the decoders' "move" branch cannot be reached |
| Ledger.MessageLines | internal/track/update/object.go:102 | the trimmed message split at newlines always has at least one line |
| Ledger.SplitBlankLine | internal/track/update/object.go:102-107 | a subject, a blank line and a body split into the subject, "", then the body's lines |
| Ledger.IsLedgerNarrows | internal/track/update/object.go:107 | a message with utils.Commit's header (the marker, then a blank line) passes the marker test, and one that starts with the marker passes the test as written |
| Ledger.OrdinaryMessageAcceptedAsWritten | internal/track/update/object.go:102-107 | an ordinary message (a subject other than the marker, a blank line, a body) passes the test as written but neither the marker-and-blank-line test nor the marker test |
| Ledger.TrimAll | internal/track/update/object.go:113 | each line is trimmed, one for one |
| Ledger.Read | internal/track/update/object.go:111-145 | the fields read are data lines only (no key line) and each carries the current key |
| Ledger.ReadAppend | internal/track/update/object.go:112-116 | reading a + b is reading a, then reading b under the key a ends with |
| Ledger.ReadData | internal/track/update/object.go:115-119 | data lines are read as themselves under the current key, which they leave unchanged |
| Ledger.ReadKeyLine | internal/track/update/object.go:115-116 | a key line switches the current key and yields no field |
| Hex.NewOidAccepts | internal/track/update/object.go:121 | git.NewOid accepts exactly the 40-character hexadecimal strings |
| Hex.DecodeEncode | internal/track/update/object.go:119-124 | hexadecimal text printed from bytes decodes cleanly back to the same bytes |
| Hex.NewOidRoundTrip | internal/track/update/object.go:119-124 | the text of an Oid (as utils.Commit prints HEAD) parses back to the same Oid |
| Hex.NewHashRoundTrip | internal/track/track.go:206 | the text of a Hash parses back to the same Hash |
| Hex.NewHashOfNonHex | internal/track/discover_track_object.go:129-130 | plumbing.NewHash of text that does not start with two hexadecimal digits is the zero hash |
| Text.Split | internal/track/update/object.go:126 | strings.Split yields at least one piece, and no piece holds the separator |
| Text.JoinSplit | internal/track/utils/commit.go:33 | joining the pieces of a split with the separator gives the string back |
| Text.SplitJoin | internal/track/utils/commit.go:33 | splitting a join of separator-free pieces gives the pieces back |
| Text.TrimSpaceIdentity | internal/track/update/object.go:113 | TrimSpace's result is trimmed, and TrimSpace is the identity exactly on trimmed strings |
| Text.TrimLeft | internal/track/update/object.go:113 | only leading white space is dropped, and the result does not start with white space |
| Text.TrimRight | internal/track/update/object.go:113 | only trailing white space is dropped, and the result does not end with white space |
| Text.IndexOf | internal/track/update/recount_patch.go:54 | strings.Index is -1 or an occurrence, with no occurrence before it |
| Text.ReplaceFirstAbsent | internal/track/object/object.go:192 | a string without the target is returned unchanged |
| Text.ReplaceFirstPrefix | internal/track/object/object.go:192 | a string that starts with the target gets the replacement in its place, the rest kept |
| Text.ReplaceFirstAt | internal/track/object/object.go:192 | strings.Replace with n = 1 replaces the first occurrence only |
| Paths.Clean | internal/track/object/object.go:189-192 | filepath.Clean never returns the empty path |
| Numbers.AtoiItoa | internal/track/update/recount_patch.go:102 | what %d prints, strconv.Atoi reads back |
| Numbers.AtoiPlusItoa | internal/track/update/recount_patch.go:102 | a non-negative number printed after "+" reads back |
| Git.Lookup | internal/track/update/object.go:28 | LookupCommit finds a commit exactly when the store holds it |
| Git.ParentLookups | internal/track/utils/commit.go:49-56 | one lookup per parent, in index order |
| Git.ParentsWeight | internal/track/update/object.go:33-44 | replacing a commit in the queue by its parents removes exactly one unit of remaining work, so the queue walks end |
| Utils.RemoteList | internal/track/utils/commit.go:16-24 | "name:url" for every remote in list order; fails exactly when some name does not look up |
| Utils.RemoteStrings | internal/track/utils/commit.go:16-24 | the remote loop returns RemoteList, stopping at the first failed lookup |
| Utils.RemoteListFails | internal/track/utils/commit.go:18-21 | the error is the first name that does not look up |
| Utils.Commit | internal/track/utils/commit.go:10-34 | remote errors come first, then a missing HEAD; otherwise the ledger message built from the remotes, the HEAD and msg |
| Utils.CommitMessageLines | internal/track/utils/commit.go:31-34 | the message splits into "fhub-track", "", "repo:", the indented remotes (one blank line when there are none), "hash:", the indented HEAD, then the lines of msg |
| Utils.RemoteLines | internal/track/utils/commit.go:32-33 | with no remotes the line after "repo:" is still present (blank) |
| Utils.CommitParents | internal/track/utils/commit.go:49-56 | exactly ParentCount parents, looked up in index order |
| UpdateObject.RecordDeltas | internal/track/update/object.go:88-100 | the delta loop gives a delta's new path a fresh entry only when it has none |
| UpdateObject.DecodeBody | internal/track/update/object.go:111-145 | the lastKey loop applies the body's data lines in order and stops at the first error |
| UpdateObject.CommitIter | internal/track/update/object.go:55-149 | deltas first; a message of fewer than three lines or without the ledger header adds nothing more; a ledger body is decoded from its third line (corrected ledger test, the marker alone; see Findings) |
| UpdateObject.DropUnowned | internal/track/update/object.go:46-50 | exactly the entries with a non-empty repo remain, unchanged |
| UpdateObject.SearchObjects | internal/track/update/object.go:22-53 | no HEAD or a missing HEAD commit is an error; otherwise the queue walk then the filter, and no returned entry has an empty repo (over the corrected CommitIter; see Findings) |
| UpdateObject.InsertDeltasKeeps | internal/track/update/object.go:94-99 | existing entries are untouched and the new keys are exactly the deltas' new paths |
| UpdateObject.InsertDeltasFirstSighting | internal/track/update/object.go:95-98 | a path's deleted flag is set by the first delta that shows it |
| UpdateObject.InsertDeltasHasPaths | internal/track/update/object.go:94-99 | every delta's path has an entry afterwards |
| UpdateObject.InsertDeltasPresent | internal/track/update/object.go:95 | when every path already has an entry, the delta loop changes nothing |
| UpdateObject.InsertDeltasIdempotent | internal/track/update/object.go:94-99 | recording the same deltas twice is recording them once |
| UpdateObject.ApplyFieldsPreserves | internal/track/update/object.go:131-137 | the ledger loop adds and removes no path and never rewrites a settled entry or a deleted flag |
| UpdateObject.CommitIterPreserves | internal/track/update/object.go:94-99 | one commit leaves every earlier entry's settled provenance and deleted flag as they were |
| UpdateObject.WalkPreserves | internal/track/update/object.go:33-44 | over the whole walk, the first ledger to name a path wins and the first sighting fixes its deleted flag |
| UpdateObject.ShortMessageOnlyDeltas | internal/track/update/object.go:102-105 | a message of fewer than three lines contributes only its deltas |
| UpdateObject.FilesLineInvalid | internal/track/update/object.go:125-129 | a files line that does not split at ':' into two parts is "invalid line" |
| UpdateObject.FilesLineUnknownPath | internal/track/update/object.go:138-140 | a files line whose destination has no entry is "path not found" |
| UpdateObject.FilesLineRecords | internal/track/update/object.go:131-137 | an unsettled destination gets the last repo, the last hash, the commit and the source path; a settled one is left alone |
| UpdateObject.OtherFieldsIgnored | internal/track/update/object.go:115-144 | lines under "rename:" or before any key change nothing |
| UpdateObject.RepoLinesLastWins | internal/track/update/object.go:117-118 | of several repo lines the last is kept, and the map is untouched |
| UpdateObject.DecodeHashOnly | internal/track/update/object.go:119-124 | a hash line that is not an object id aborts the decoding with git.NewOid's error |
| UpdateObject.ApplyFieldsNeverPanics | internal/track/update/object.go:142-143 | no body reaches the "move" panic |
| UpdateObject.DecodeNeverPanics | internal/track/update/object.go:142-143 | decoding any body never panics |
| UpdateObject.ApplyFieldsTwice | internal/track/update/object.go:131-137 | replaying a body whose files lines follow a hash line changes nothing: the first reading settled every entry it names |
| UpdateObject.DecodeTwice | internal/track/update/object.go:111-145 | decoding a body again from its own result changes nothing, and no key is added |
| UpdateObject.CommitIterTwice | internal/track/update/object.go:33-44 | the walk has no visited set; processing a commit a second time changes nothing |
| UpdateObject.GuardAsWrittenReadsOrdinaryMessage | internal/track/update/object.go:107 | an ordinary message whose body reads "hash:" then non-hex text aborts the walk as written; the corrected test records only the deltas |
| UpdateObject.GuardsAgreeOnMarked | internal/track/update/object.go:102-107 | the marker test and the test as written read the same body on every message that starts with the marker, Track.commit's included; they differ only where the first line is not the marker and the second is blank |
| UpdateObject.GuardAsWrittenExample | internal/track/update/object.go:107 | "Fix parser\n\nhash:\n  see notes" fails with git.NewOid's error (hex.DecodeString's invalid byte 's') as written, and is ignored by the corrected test |
| UpdatePatch.Matching | internal/track/update/patch.go:50-63 | only deltas whose new path is the path are collected, all of them, tagged with the commit |
| UpdatePatch.CollectDeltas | internal/track/update/patch.go:50-63 | the delta loop collects Matching in delta order |
| UpdatePatch.ReverseInPlace | internal/track/update/patch.go:72-74 | the two-index swap loop leaves the array holding its old contents reversed |
| UpdatePatch.NilStop | internal/track/update/patch.go:20-65 | with a nil stop the first pass always panics: at the first-parent lookup when that fails, otherwise at the comparison with stop |
| UpdatePatch.SearchPatchByPath | internal/track/update/patch.go:13-76 | a missing start commit is an error; a nil stop panics in the first pass; otherwise the first-parent walk's patches from the diffs without rename detection, reversed |
| UpdatePatch.ReversedIndex | internal/track/update/patch.go:72-74 | element k of the result is element n-1-k of the collected list |
| UpdatePatch.ReversedTwice | internal/track/update/patch.go:72-74 | reversing twice gives the list back |
| UpdatePatch.ReversedPermutes | internal/track/update/patch.go:72-74 | the reversal is a permutation |
| UpdatePatch.ChainFollowsFirstParents | internal/track/update/patch.go:65-69 | the chain follows first parents only and ends at the stop commit, a root or a missing first parent; where the walk as written finishes it never ends at a root other than stop |
| UpdatePatch.CollectAlongChain | internal/track/update/patch.go:20-70 | the walk as written gives the patches of each commit on the chain in chain order, or the nil-parent panic when a first parent cannot be looked up |
| UpdatePatch.RootNeverAdvances | internal/track/update/patch.go:65-69 | at a parentless commit other than the stop commit the cursor never advances, so the walk does not end |
| UpdatePatch.SearchPatchByPathResult | internal/track/update/patch.go:13-76 | where the walk finishes, the result is the patches of the path, from the plain diff of each commit on the chain, oldest first |
| UpdatePatch.CollectToRootAgrees | internal/track/update/patch.go:65-69 | where the walk as written finishes, the walk that also stops at a root collects the same patches |
| UpdatePatch.CollectToRootAlongChain | internal/track/update/patch.go:20-70 | the walk that also stops at a root gives the patches of each commit on the chain in chain order, or the nil-parent panic |
| UpdatePatch.SearchPatchByPathCorrectedResult | internal/track/update/patch.go:13-76 | with the cursor cleared at a root, every stored start gives the chain's patches oldest first, the same result as written wherever that finishes, and a root's own patches where the walk as written spins |
| RecountPatch.HunkText | internal/track/update/recount_patch.go:31-52 | the rebuilt body is marker plus content per line; the search text is the context and deleted contents only |
| RecountPatch.SearchTextSkipsAdditions | internal/track/update/recount_patch.go:49-51 | inserting an added line anywhere leaves the search text unchanged |
| RecountPatch.ParseRebuilt | internal/track/update/recount_patch.go:40-48 | a rebuilt body of whole lines reads back as the same lines |
| RecountPatch.LineNumber | internal/track/update/recount_patch.go:59-64 | the counting loop with each CRLF counted once gives one plus the newlines before the match |
| RecountPatch.LineAtAfterLines | internal/track/update/recount_patch.go:59-64 | text after n whole lines is on line n + 1 |
| RecountPatch.LineAtAsWrittenCountsCRLFTwice | internal/track/update/recount_patch.go:61 | the count as written is the line plus one for each CRLF before the match |
| RecountPatch.LineAtCRLFExample | internal/track/update/recount_patch.go:59-64 | in "x\r\ny\r\n" the text "y\r\n" is on line 2, but the count as written says 3 |
| RecountPatch.ScanToFirst | internal/track/update/recount_patch.go:107-110 | the scan stops at the first stop character |
| RecountPatch.ReadNumberAgrees | internal/track/update/recount_patch.go:105-113 | readNumber as written panics exactly when no stop character lies at or after the cursor, and agrees with the bounded reading otherwise |
| RecountPatch.ReadNumber | internal/track/update/recount_patch.go:105-113 | the text up to the stop character, read as a number, and the cursor one past the stop |
| RecountPatch.ScanNumber | internal/track/update/recount_patch.go:107-110 | the scan loop collects the text before the stop character |
| RecountPatch.ReadSuffix | internal/track/update/recount_patch.go:105-113 | a number followed by its stop character is read up to the stop, and the cursor lands just after it |
| RecountPatch.RewriteHeaderAgrees | internal/track/update/recount_patch.go:73-103 | where rewriteDiffHunkHeader as written returns, it returns what the bounded rewrite does |
| RecountPatch.ShortHeaderPanics | internal/track/update/recount_patch.go:81 | a header with no ',' after "@@ -" makes readNumber as written run off the end; the bounded rewrite gives "" |
| RecountPatch.ShortHeaderExample | internal/track/update/recount_patch.go:81 | "@@ -3 +3 @@\n" panics as written and is rewritten to "" when bounded |
| RecountPatch.ParseFormatHeader | internal/track/update/recount_patch.go:80-100 | a header printed in the "@@ -a,b +c,d @@ s" format reads back as its four numbers and section |
| RecountPatch.RewriteFormatHeader | internal/track/update/recount_patch.go:102 | such a header is rewritten with the old start set to line and the other fields moved accordingly |
| RecountPatch.MovedKeepsOffset | internal/track/update/recount_patch.go:102 | without overflow, re-anchoring keeps both lengths and the distance between the new and old start |
| RecountPatch.RewriteInPlace | internal/track/update/recount_patch.go:102 | a hunk found where its header says keeps its header |
| RecountPatch.RewriteIdempotent | internal/track/update/recount_patch.go:73-103 | rewriting a rewritten header for the same line changes nothing |
| RecountPatch.RewriteHeaderWithoutSection | internal/track/update/recount_patch.go:97-99 | a header ending in "@@" and the end of line, with no section text, is rewritten to "" |
| RecountPatch.ReadDiffHunkHeader | internal/track/update/recount_patch.go:75-100 | the cursor threaded through the four readNumber calls and the closing check gives the bounded parse |
| RecountPatch.RewriteDiffHunkHeader | internal/track/update/recount_patch.go:73-103 | "" for a header it cannot read, otherwise the header re-anchored at line |
| RecountPatch.RecountHunk | internal/track/update/recount_patch.go:54-67 | a hunk whose search text is missing from the ancestor is "patch conflict"; otherwise the rewritten header and the rebuilt body (corrected LineNumber counting each CRLF once, and the bounded RewriteDiffHunkHeader; see Findings) |
| RecountPatch.RecountHunksText | internal/track/update/recount_patch.go:25-68 | the hunks are re-anchored in order, stopping at the first conflict (over the corrected RecountHunk; see Findings) |
| RecountPatch.RecountPatchText | internal/track/update/recount_patch.go:12-71 | the patch text before its first '@', followed by the re-anchored hunks (over the corrected RecountHunk; see Findings) |
| RecountPatch.RecountHunksOk | internal/track/update/recount_patch.go:54-57 | the recount succeeds exactly when every hunk's search text is found |
| RecountPatch.RecountOutcome | internal/track/update/recount_patch.go:18-19 | a failing recount is a slice panic when the patch has no '@', and a patch conflict otherwise |
| RecountPatch.AdditionsAnchorAtLineOne | internal/track/update/recount_patch.go:49-64 | a hunk of added lines only searches for "" and anchors at line 1 |
| RecountPatch.AnchorAfterLines | internal/track/update/recount_patch.go:54-64 | a hunk whose text first occurs after n whole lines of the ancestor anchors at line n + 1 |
| RecountPatch.BlockOfFormattedHunk | internal/track/update/recount_patch.go:66-67 | a formatted hunk is emitted with its old start moved to the line its text was found on, its lengths and section kept |
| ObjectCmd.DstObjects | internal/track/object/object.go:188 | one destination per source path |
| ObjectCmd.RenameObjectsToDst | internal/track/object/object.go:187-195 | same length as the input; element i is the cleaned first-occurrence replacement of the cleaned source by the cleaned destination |
| ObjectCmd.RenamedUnderSource | internal/track/object/object.go:189-193 | a path under the source path moves under the destination path, the rest of it kept |
| ObjectCmd.RenamedOutsideSource | internal/track/object/object.go:192 | a path not containing the cleaned source path is only cleaned |
| ObjectCmd.RenamedFirstOccurrence | internal/track/object/object.go:192 | only the first occurrence is replaced |
| ObjectCmd.Zipped | internal/track/object/object.go:202-205 | one pair per index |
| ObjectCmd.ZipObjects | internal/track/object/object.go:197-208 | a length mismatch is an error exactly when the lengths differ; otherwise element i is src[i] + ":" + dst[i] |
| ObjectCmd.PairSplits | internal/track/object/object.go:204 | a pair of colon-free paths splits back into the two paths |
| ObjectCmd.CopyObject | internal/track/object/object.go:147-150 | unequal lists are rejected before any copy; otherwise one copy per index, in order |
| ObjectCmd.PayloadLines | internal/track/object/object.go:96 | the payload's lines are "files:" then each pair indented by two spaces |
| ObjectCmd.Run | internal/track/object/object.go:26-104 | dirty worktree, listing error, nothing changed, missing HEAD commit and remote errors in the source's order; otherwise the ledger message of the payload |
| TrackObject.TrackObjectRun | internal/track/track_object.go:12-90 | the same steps as the object command, HEAD required, and the payload handed to the track commit |
| TrackObject.SamePayload | internal/track/track_object.go:82 | where both commands commit, the object command's message carries trackObject's payload |
| TrackObject.NoHeadErrorOrder | internal/track/track_object.go:72-75 | without a HEAD, trackObject reports it at once, while the object command reports a failed remote lookup first |
| Track.SplitPieces | internal/track/track.go:482 | a split has one piece more than there are separators |
| Track.SplitTrackObject | internal/track/track.go:479-494 | the error is "invalid track path", and neither returned path holds a colon |
| Track.SplitTrackObjectRejects | internal/track/track.go:489-491 | rejected exactly when the argument holds two colons or more |
| Track.SplitTrackObjectJoins | internal/track/track.go:483-488 | "p" gives (p, p) and "a:b" gives (a, b) |
| Track.SplitTrackObjectOfPaths | internal/track/track.go:479-494 | colon-free paths come back apart |
| Track.GetObjectName | internal/track/track.go:137-146 | the entry is created as {name, name} only when absent; other entries are untouched |
| Track.GetObjectNameIdempotent | internal/track/track.go:137-146 | asking twice gives the same table and entry |
| Track.GetObjectNameInterned | internal/track/track.go:137-146 | every entry keeps its own name as source |
| Track.AddTrackObjects | internal/track/track.go:90-99 | the inner loop interns each object and appends the record's hashes |
| Track.TrackUpdateGroups | internal/track/track.go:87-106 | the grouping loop equals the grouping specification |
| Track.GroupSpecFailsEarly | internal/track/track.go:101-105 | once a record fails, the loop has failed |
| Track.GroupSpecContents | internal/track/track.go:87-106 | each object's list holds one entry per record listing it, in record order, and its destination is the target of its last rename |
| Track.GroupSpecFails | internal/track/track.go:101-104 | the loop fails, with an index panic, exactly when some rename line has no colon |
| Track.ApplyRenameGrouped | internal/track/track.go:101-105 | a rename "a:b" sets a's destination to b and leaves every other entry as it was |
| Track.NeverRenamed | internal/track/track.go:137-146 | a name never interned was never renamed |
| Track.TrackCommits | internal/track/track.go:184 | exactly the log's commits whose first line is the marker |
| Track.SearchTrackHashSpec | internal/track/track.go:180-211 | one record per ledger commit: the k-th record is the record of the k-th ledger commit |
| Track.DecodeStep | internal/track/track.go:189-202 | a key line switches the key; a data line is read under it |
| Track.StateStep | internal/track/track.go:192-202 | one trimmed line of the loop, as a step of the ledger reading |
| Track.TrackLinesRead | internal/track/track.go:189-202 | the loop keeps every files line, in order, and the last hash and rename lines |
| Track.DecodeTrack | internal/track/track.go:183-210 | the record of a ledger commit: the decoded hash, the commit, the files lines and the rename line |
| Track.SearchTrackHash | internal/track/track.go:167-219 | one record per ledger commit, in log order |
| Track.TrackMessageLines | internal/track/track.go:453-456 | Track.commit's message splits into the marker, "repo:", the remotes, "hash:", the hash, then msg, with no blank line after the marker |
| Track.TrackPayloadLines | internal/track/track.go:453-456 | with trackObject's payload, the message lines are the marker and the same body lines as utils.Commit writes |
| Track.TrackMessageLinesOf | internal/track/track.go:453-456 | the decoders see Track.commit's message as the marker followed at once by the "repo:", "hash:" and "files:" sections |
| Track.TrackMessageUpdateDecode | internal/track/update/object.go:107-137 | the update decoder reads Track.commit's message from its third line, so the "repo:" line is skipped: each listed destination is settled with the vendor hash, the commit and its source path but repo "", and the final filter drops it |
| Track.TrackMessageMarked | internal/track/track.go:453-456 | Track.commit's message passes the marker test and, its second line being "repo:", does not have utils.Commit's header |
| Track.TrackCommitRecords | internal/track/track.go:453-456 | a message Track.commit wrote for a payload reads back as the vendor hash, the commit, the pairs and no rename |
| Track.GroupsKeyedByPairs | internal/track/track.go:89-99 | objects read back from trackObject's payload are interned as whole "src:dst" pairs |
| RoundTrip.MessageTrimmed | internal/track/utils/commit.go:31-34 | the written message is unchanged by TrimSpace |
| RoundTrip.MessageLinesOfCommit | internal/track/utils/commit.go:31-34 | the decoder sees the header lines, "files:" and the indented pairs |
| RoundTrip.CommitPayloadFields | internal/track/utils/commit.go:31-34 | the message passes the ledger test and its body reads as the destination's remotes, the destination's HEAD and the pairs |
| RoundTrip.FilesLinesRecord | internal/track/update/object.go:125-137 | files lines for distinct unsettled destinations record each source path, with the current repo and hash |
| RoundTrip.DecodeFields | internal/track/update/object.go:111-145 | applied to a fresh decoder, the fields give each destination its source path, the hash line's HEAD and the last remote |
| RoundTrip.CommitPayloadDecodes | internal/track/utils/commit.go:31-34 | round trip: decoding the message the object command commits gives each destination its source path, the destination repository's HEAD from before the commit and its last remote ("" with no remotes) |
| DiscoverTracked.PrepareObjectTracked | internal/track/discover_objects_tracked.go:176-199 | creates the entry when absent, stores it back under path, and changes only that entry |
| DiscoverTracked.PrepareObject | internal/track/discover_objects_tracked.go:176-199 | the statement-by-statement update equals the function |
| DiscoverTracked.PrepareStatusHistory | internal/track/discover_objects_tracked.go:186-192 | a status is appended under the commit only when it differs from the last status there |
| DiscoverTracked.PrepareIdempotent | internal/track/discover_objects_tracked.go:176-199 | preparing twice with the same commit and status is preparing once |
| DiscoverTracked.PrepareWellTracked | internal/track/discover_objects_tracked.go:194-196 | moved never has two equal adjacent entries; every status history is non-empty without repeats |
| DiscoverTracked.FilePatchStatusAsWritten | internal/track/discover_objects_tracked.go:133-159 | as written: both sides missing is an error, and both reported paths are the same (the old path when there is one) |
| DiscoverTracked.FilePatchStatus | internal/track/discover_objects_tracked.go:133-159 | corrected: the old path (or the new one for an addition) and the new path (or the old one for a deletion) |
| DiscoverTracked.FilePatchStatusKinds | internal/track/discover_objects_tracked.go:138-156 | add when no old side, delete when no new side, rename exactly when both differ, change when they agree |
| DiscoverTracked.RenameLosesNewPath | internal/track/discover_objects_tracked.go:147-148 | as written, a rename a to b prepares a twice and b never; corrected, b gets an entry |
| DiscoverTracked.RenameLosesNewPathExample | internal/track/discover_objects_tracked.go:147-148 | renaming "old.go" to "new.go" leaves only "old.go" as written, both when corrected |
| DiscoverTracked.AddTrack | internal/track/discover_objects_tracked.go:161-174 | rejected exactly when the line does not split into two; otherwise both paths have entries and nothing else changes |
| DiscoverTracked.AddTrackStep | internal/track/discover_objects_tracked.go:161-174 | the statement-by-statement update equals the function |
| DiscoverTracked.AddTrackPair | internal/track/discover_objects_tracked.go:166-171 | the source path gets the pairing appended and the repo set; both paths end with the status under the commit |
| DiscoverTracked.AddTrackWellTracked | internal/track/discover_objects_tracked.go:161-174 | addTrack keeps every entry well shaped |
| DiscoverTracked.RecordChangesWellTracked | internal/track/discover_objects_tracked.go:61-76 | the patch loop keeps every entry well shaped |
| DiscoverTracked.RecordFilesWellTracked | internal/track/discover_objects_tracked.go:77-87 | the root files loop keeps every entry well shaped |
| DiscoverTracked.ApplyFieldsWellTracked | internal/track/discover_objects_tracked.go:95-121 | the ledger loop keeps every entry well shaped |
| DiscoverTracked.RecordChangesLoop | internal/track/discover_objects_tracked.go:61-76 | the patch loop prepares each patch's paths, stopping at a patch with neither side (corrected FilePatchStatus, new path from the new side; see Findings) |
| DiscoverTracked.RecordFilesLoop | internal/track/discover_objects_tracked.go:77-87 | a root commit's files are prepared as added |
| DiscoverTracked.ApplyLine | internal/track/discover_objects_tracked.go:100-120 | one data line, branching on its key, equals one step of the ledger loop |
| DiscoverTracked.DecodeBody | internal/track/discover_objects_tracked.go:95-121 | the lastKey loop applies the data lines in order and stops at the first error |
| DiscoverTracked.CommitIter | internal/track/discover_objects_tracked.go:60-124 | statuses first; a ledger body is decoded from its third line (corrected ledger test, the marker alone, and the corrected FilePatchStatus; see Findings) |
| DiscoverTracked.ParentsSpec | internal/track/discover_objects_tracked.go:41-48 | on success every parent was found |
| DiscoverTracked.LookupParents | internal/track/discover_objects_tracked.go:41-48 | the parent loop returns at the first failed lookup |
| DiscoverTracked.SearchObjects | internal/track/discover_objects_tracked.go:31-58 | the queue walk from the start commit, a missing start commit being an error (over the corrected CommitIter; see Findings) |
| DiscoverTracked.CommitIterWellTracked | internal/track/discover_objects_tracked.go:60-124 | commitIter keeps every entry well shaped |
| DiscoverTracked.WalkWellTracked | internal/track/discover_objects_tracked.go:38-55 | the walk keeps every entry well shaped |
| DiscoverTracked.SearchObjectsNeverMoves | internal/track/discover_objects_tracked.go:194-196 | every returned entry's moved list is its own path alone |
| DiscoverTracked.ApplyFieldsNeverPanics | internal/track/discover_objects_tracked.go:114-119 | no body reaches the "move" panic |
| DiscoverTracked.DecodeNeverPanics | internal/track/discover_objects_tracked.go:114-119 | decoding any body never panics |
| DiscoverTracked.ShortMessageOnlyStatuses | internal/track/discover_objects_tracked.go:89-92 | a message of fewer than three lines gives only the commit's statuses |
| DiscoverTracked.HashLineNeverFails | internal/track/discover_objects_tracked.go:104-105 | a non-hexadecimal hash line sets the zero hash rather than failing |
| DiscoverTracked.GuardAsWrittenReadsOrdinaryMessage | internal/track/discover_objects_tracked.go:94 | an ordinary message with the body "files:" then "src:dst" creates entries as written; the corrected test ignores it |
| DiscoverTracked.DecodeFilesLine | internal/track/discover_objects_tracked.go:95-121 | a body of "files:" and one pair is exactly one addTrack with no repo and the zero hash |
| DiscoverTracked.GuardsAgreeOnMarked | internal/track/discover_objects_tracked.go:89-94 | the marker test and the test as written read the same body on every message that starts with the marker; they differ only where the first line is not the marker and the second is blank |
| DiscoverTracked.GuardAsWrittenExample | internal/track/discover_objects_tracked.go:94 | "Fix parser\n\nfiles:\n  a:b" gives entries for a and b as written, none when corrected |
| DiscoverTrack.ActionOf | internal/track/discover_track_object.go:76-94 | no old side is an insertion, no new side a deletion, both a modification; neither is an error |
| DiscoverTrack.InsertChangesLoop | internal/track/discover_track_object.go:76-94 | the diff loop gives each change's path a fresh entry unless it has one |
| DiscoverTrack.InsertFilesLoop | internal/track/discover_track_object.go:96-110 | a root commit's files get fresh entries, not deleted |
| DiscoverTrack.ApplyLine | internal/track/discover_track_object.go:122-150 | one data line, branching on its key, equals one step of the ledger loop |
| DiscoverTrack.DecodeBody | internal/track/discover_track_object.go:118-151 | the lastKey loop applies the data lines in order and stops at the first error |
| DiscoverTrack.CommitIter | internal/track/discover_track_object.go:54-154 | a missing first parent is an error; changes first; a ledger body is decoded from its third line (corrected ledger test, the marker alone; see Findings) |
| DiscoverTrack.Lookups | internal/track/discover_track_object.go:35-49 | each queued id looked up, one for one |
| DiscoverTrack.SearchObjects | internal/track/discover_track_object.go:24-52 | no HEAD is an error; otherwise the queue walk, each commit looked up at the front (over the corrected CommitIter; see Findings) |
| DiscoverTrack.FilePatchStatus | internal/track/discover_track_object.go:163-185 | both sides missing is an error; otherwise a status and one path |
| DiscoverTrack.FilePatchStatusAgrees | internal/track/discover_track_object.go:163-185 | its path is the one commitIter keys the change by, the corrected new path of the older pass, with the same status |
| DiscoverTrack.FilePatchStatusKinds | internal/track/discover_track_object.go:163-185 | add, delete, rename exactly when the paths differ, change otherwise; a deletion reports the old path |
| DiscoverTrack.InsertChangesKeeps | internal/track/discover_track_object.go:83-93 | existing entries are kept; the new keys are exactly the paths the changes are keyed by |
| DiscoverTrack.InsertChangesFirstSighting | internal/track/discover_track_object.go:88-92 | a path first shown by a change is marked deleted exactly when that change is a deletion |
| DiscoverTrack.InsertFilesKeeps | internal/track/discover_track_object.go:96-110 | existing entries are kept; the new keys are the tree's files, none deleted |
| DiscoverTrack.ApplyFieldsPreserves | internal/track/discover_track_object.go:137-146 | the ledger loop adds no path and never rewrites a settled entry |
| DiscoverTrack.CommitIterPreserves | internal/track/discover_track_object.go:54-154 | commitIter keeps earlier settled entries and deleted flags |
| DiscoverTrack.WalkPreserves | internal/track/discover_track_object.go:35-49 | over the whole walk, the first ledger to name a path wins |
| DiscoverTrack.FilesLineInvalid | internal/track/discover_track_object.go:131-135 | a files line not of two parts is "invalid line" |
| DiscoverTrack.FilesLineUnknownPath | internal/track/discover_track_object.go:137-146 | an unknown destination is "path not found" |
| DiscoverTrack.FilesLineRecords | internal/track/discover_track_object.go:137-145 | an unsettled destination gets the repo, hash, commit and source path; a settled one is left alone |
| DiscoverTrack.ZeroHashDoesNotSettle | internal/track/discover_track_object.go:129-145 | after a non-hexadecimal hash line, a listed path keeps a zero source commit, so a later ledger can still overwrite it |
| DiscoverTrack.ApplyFieldsNeverPanics | internal/track/discover_track_object.go:148-149 | no body reaches the "move" panic |
| DiscoverTrack.DecodeNeverPanics | internal/track/discover_track_object.go:148-149 | decoding any body never panics |
| DiscoverTrack.GuardAsWrittenReadsOrdinaryMessage | internal/track/discover_track_object.go:117 | an ordinary message with the body "files:" then "src:dst" aborts with "path not found" as written; the corrected test ignores it |
| DiscoverTrack.GuardsAgreeOnMarked | internal/track/discover_track_object.go:112-117 | the marker test and the test as written read the same body on every message that starts with the marker; they differ only where the first line is not the marker and the second is blank |
| DiscoverTrack.GuardAsWrittenExample | internal/track/discover_track_object.go:117 | "Fix parser\n\nfiles:\n  a:b" fails as written, and is ignored when corrected |

## Left out

- File system and worktree I/O are left out. The worktree listing, the file copies, the index writes and the status counts are inputs of `ObjectCmd.Run` and `TrackObject.TrackObjectRun`: a listing result and two counts. `searchObjectsInWorkTree`, `os.Rename` and `setting.Init` are not part of this model.
- libgit2 and go-git computations are inputs. DiffTreeToTree (with FindSimilar for the update object map, without it for searchPatchByPath), the go-git patch and change lists, tree listings, rendering a patch and splitting it into hunks, CreateCommit and Log order are not computed. Their errors are not modelled. The exceptions are commit lookup failures and the nil-parent dereference.
- Go map iteration order is left out. `Track.commit`'s own loop over `t.vendorConfig.Remotes` (track.go:449) takes the remotes in map order; the model takes them in the order given. `SearchObjects`' filter loop is order-independent in the model.
- `trackUpdate`'s content loop (track.go:108-132) is left out. It reads file contents through go-git and discards the diff it computes. Only the grouping loop is modelled.
- `trackMultipeObject`, update.go, track_update.go, commit.go, commit_message.go, logging, flag parsing and bootstrap are not part of this model. They are orchestration, I/O, stubs or printing.
- The "move" branches panic, but `parseMessageKey` never yields "move". The model keeps the branch as an error, and lemmas show it is never reached.
- Aliasing through Go references is left out: entries are values stored back into the map. The update decoder writes through a reference that the map already holds, so the effect is the same.
- `searchAllTrackedObjects` takes the destination HEAD as a parameter, None when there is none.
- `parseMessageKey` is defined once, in `Ledger`. The four textual copies (update/object.go, track.go's closure and the two discovery passes) are identical.
- Paths.Clean: the contract states only that the result is never empty. The lexical rules of filepath.Clean are the body of the function, and no lemma restates them.
- The model works on characters, where Go strings are byte sequences. This is sound for the code modelled: every character it compares or cuts at ('\n', '\r', '@', ',', ' ', ':', digits, hexadecimal digits) is ASCII, one byte in UTF-8. Only `strings.TrimSpace`'s non-ASCII white space is read as whole characters.
- `UpdateObject.SearchObjects`, `DiscoverTracked.SearchObjects`, `DiscoverTrack.SearchObjects` and `UpdatePatch.SearchPatchByPath` require a store whose parents are older than their children, as in any git history. The walks are shown to end only on such a store.
- UpdatePatch.SearchPatchByPath, UpdatePatch.SearchPatchByPathSpec and UpdatePatch.SearchPatchByPathResult also require `UpdatePatch.Terminates` when stop is not nil: the first-parent line from start reaches stop, or is cut by a first parent that cannot be looked up. Elsewhere the loop as written never ends (see Findings), which a terminating model cannot state; `UpdatePatch.SearchPatchByPathCorrected` covers those inputs.
- TrackObject.TrackObjectRun: track_object.go:83 calls `t.commit(msg, tree, commit)` with three arguments, while every definition of that method (track.go:447, commit.go:10 and commit_message.go:10) takes the message alone, so the source as given does not build. The model hands the payload to the one-argument `Track.commit` of track.go:447-456.
- Hex.NewOid: git.NewOid's three errors (too long, hex.DecodeString's invalid byte or odd length, wrong size) are one error kind, `InvalidOid`.

## Findings

| source | as written | input that shows it | evidently intended | confidence | as-written member | corrected member |
|---|---|---|---|---|---|---|
| internal/track/update/object.go:107 | `lines[0] == "fhub-track" \|\| lines[1] == ""` accepts any message with a blank second line | commit message "Fix parser\n\nhash:\n  see notes" aborts SearchObjects with git.NewOid's error, hex.DecodeString's invalid byte 's' | the marker test alone, as in the discover passes and searchTrackHash: it rejects that message and accepts both formats the program writes. On Track.commit's messages (marker, then "repo:") the corrected test behaves as written: the body is read from the third line, the repo line is lost, and the listed paths are settled with repo "" and then dropped by the filter (Track.TrackMessageUpdateDecode) | high; not executed | UpdateObject.GuardAsWrittenExample | UpdateObject.CommitIter |
| internal/track/discover_objects_tracked.go:94 | the same `\|\|` test | commit message "Fix parser\n\nfiles:\n  a:b" gives untracked entries for a and b | the marker test alone: it rejects that message and accepts both formats the program writes, utils.Commit's and Track.commit's (marker, then "repo:") | high; not executed | DiscoverTracked.GuardAsWrittenExample | DiscoverTracked.CommitIter |
| internal/track/discover_track_object.go:117 | the same `\|\|` test | commit message "Fix parser\n\nfiles:\n  a:b" on a root commit with an empty tree aborts with "path not found" | the marker test alone: it rejects that message and accepts both formats the program writes, utils.Commit's and Track.commit's (marker, then "repo:") | high; not executed | DiscoverTrack.GuardAsWrittenExample | DiscoverTrack.CommitIter |
| internal/track/update/recount_patch.go:61 | a position counts when it is '\n' and also when it is '\r' before '\n', so CRLF counts twice | ancestor "x\r\ny\r\n" with hunk text "y\r\n" is anchored at line 3 | one per line ending: line 2 | medium; not executed | RecountPatch.LineAtCRLFExample | RecountPatch.LineNumber |
| internal/track/update/recount_patch.go:107 | `header[*i] != stop` is read before `*i < len(header)` is checked | header "@@ -3 +3 @@\n" (git's form for one-line hunks) indexes past the end and panics | check the bound first; an unreadable header gives "" | high; not executed | RecountPatch.ShortHeaderExample | RecountPatch.RewriteDiffHunkHeader |
| internal/track/discover_objects_tracked.go:147-148 | both returned paths are `from.Path()` | a rename of "old.go" to "new.go" never records "new.go" | the new path is `to.Path()` | high; not executed | DiscoverTracked.RenameLosesNewPathExample | DiscoverTracked.FilePatchStatus |
| internal/track/update/patch.go:65-69 | at a commit without parents that is not stop, neither branch moves the cursor, so `for commit != nil` never ends | a stop that is not on the first-parent line of start: reachable only through a merge's second parent, or not an ancestor of start | clear the cursor at a root, as at stop, and return what was collected | high; not executed | UpdatePatch.RootNeverAdvances | UpdatePatch.SearchPatchByPathCorrectedResult |
