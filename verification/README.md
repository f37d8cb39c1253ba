# A verified model of go-selfupdate

`go-selfupdate` lets a program replace its own executable by a release from GitHub. Its heart is `Updater.Apply`: a
crash-prone protocol in one directory, run by any number of processes that agree on nothing but a lock file. This
project models that protocol and what feeds it, from the check that makes a plan to the last deferred clean-up, and
proves what the library promises about it, for every interleaving of installs, every crash point and every schedule of
failing system calls. Run `dafny verify dfyconfig.toml`.

## How the model is built

**The transition system** (`Machine.dfy`). A state is the directory (names to inodes, with content, permission bits,
kind, the Windows attributes, and whether the content is on stable storage), the lock, every running install with its
position in the code and its local variables, the plans made so far, the transcripts of the attestation searches that
checks relied on (which request, which pages came, which candidate was accepted), who made which file, the history of
commits and the results returned. Each system call of `Apply` and of what it calls is one step, with a success branch
(`Succeed`, `Receive` for bytes arriving, `SweepOne` for one removal) and a failure branch (`Fail`); `Checked` is the
end of a successful check, open to it, where there is a policy, only with a transcript that ends in a bundle the
verifier accepted; `Crash` drops an install's lock and runs none of its deferred clean-ups; on Unix `PowerLoss` leaves
any disk in which synced contents survive and the target names one of the inodes a directory sync has not yet settled.
The history is a ghost of the protocol: a `Commit` says which plan put which member of which archive in the place of
what. Unix and Windows share everything except the replacement.

**The invariant** (`Invariant.dfy`, `HolderSteps.dfy`, `DiskSteps.dfy`, `Durability.dfy`, `Bookkeeping.dfy`,
`Preservation.dfy`) says what the lock holder knows about the disk at each position, what is durable, how the commits
hang together, and who owns what. It is proved call by call, and so holds in every state of every run.

**The guarantees** (`Guarantees.dfy`, `Tenure.dfy`, `Outcomes.dfy`, `PowerFailure.dfy`, `Afterwards.dfy`,
`Reverts.dfy`, `PowerCut.dfy`, `Sweeps.dfy`, `Monotonic.dfy`) are theorems about runs.

**The imperative layer** (`Worlds.dfy`, `Others.dfy`, `Streams.dfy`, `Staging.dfy`, `Downloads.dfy`,
`Replacing.dfy`, `Installs.dfy`, `Checks.dfy`) writes `Check`, `CheckVersion` and `Apply` as the source does, over a
`World` whose methods are the system calls: release gates, attestation search, retry loops, directory sweeps, streaming
into file and hash, nested deferred clean-ups, rollback. Any call may fail and after any call the other installs may do
anything the transition system allows. Each call must be proved to be exactly the step the transition system takes at
that point, so every execution is a run of it, and the guarantees become the contracts of `Apply` and of a check
followed by an apply. A ghost counter of mishaps (failed calls, names already used, a lock already taken)
lets the contracts say the other half too: an install that meets no mishap fails only for a reason in its inputs. Other
ghost fields record which of them were taken names or locks, how often the caller was found waiting, and what Windows
has said when it would not remove a backup: that it is in use, that access is denied, or anything else, as the world
pleases.

**What surrounds it**: archive extraction over a budgeted reader (`Tar.dfy`, `Packages.dfy`, `Extraction.dfy`,
`Unpacking.dfy`), held against a writer of tar files (`Tapes.dfy`), versions (`Versions.dfy`), plans and gates
(`Plans.dfy`), file names and digests (`Names.dfy`), choosing the asset (`Releases.dfy`), the attestation search, its
pages and their links (`Attestations.dfy`, `Pagination.dfy`, `Links.dfy`), and the Sigstore verifier cache as a
concurrent machine (`TrustCache.dfy`) with what it comes to over whole runs (`TrustService.dfy`, `LateJoiners.dfy`), and
as the class whose calls are runs of that machine (`TrustCalls.dfy`).

## Assumptions

- Only programs that take the lock write the target. Between the last fingerprint and the rename there is an
  unavoidable window for others, which the code does not close either.
- A failed system call has no effect; a failed rename or removal in particular. The operating system drops a lock when
  its owner dies, and at unlock even when unlocking reports an error.
- SHA-256 is an uninterpreted function, nowhere assumed injective. The verdict of the Sigstore library is an
  uninterpreted function of the bundle, the request and the moment at which it is asked.
- Only for version monotonicity, and only about the commits whose order is in question (`Monotonic.Truthful`): an
  installed release holds what its tag says; a program that one of them replaced, and that has the hash another of them
  was planned for, has the version that the latter's updater calls its current one; and none of them is a permitted
  targeted downgrade. The code cannot check any of it.
- The content of a file survives a power failure once the file was synced and not written since. Permission bits are
  changed after the sync, so they are not claimed to survive. Windows gets no power-failure claims, because there the
  directory sync does nothing.
- For the attestation pages (`Pagination.Faithful`): a URL with scheme, host and rooted path, without credentials,
  fragment or opaque part, and with an accepted query, reads back as itself once printed, if it reads back at all; and
  the first page's URL has a scheme, a host and a rooted path (`Pagination.Begins`), as the API base URL guarantees.

## What turned out not to hold

- A verifier handed out by the cache need not be unexpired at the caller's own look: who joins a flight late may get
  one whose period was over by then. `LateJoiners.StaleServiceHappens` is a run in which this happens, and
  `LateJoiners.JoiningDecides` the exact condition, on the state at the moment of joining: the flight has landed with a
  verifier over by that look, or has read the clock and is about to find fresh a cache entry over by that look. Whoever
  starts a flight, or joins before it has read the clock, is always served fresh (`EarlyJoinersAreServedFresh`), and for
  every caller the verifier was unexpired at a real reading of the clock, its own or that of its very flight
  (`TrustService.VerifiersAreFresh`).
- A power failure on Unix can bring the program back that a commit has replaced. Every run that has come to the rename
  of another program is two steps away from that (`PowerCut.RevertIsTwoStepsAway`), `PowerCut.RevertsHappen` is a
  whole run in which it happens, and `Reverts.RevertsExactlyWhen` the exact condition along every run: since the last
  rename no directory sync has succeeded (nor has the power failed), and that commit replaced a different program. A
  caller sees it only from an install that has not reached its directory sync, has crashed or has returned an error
  (`Reverts.OnlyBrokenInstallsRevert`). What comes back is whole (`PowerFailure.TargetSurvivesPowerFailure`); once an
  install has returned without an error nothing older ever comes back, whatever happens later
  (`Afterwards.CommittedIsDurable`); and in runs in which the power fails only at other moments versions rise
  throughout (`Reverts.VersionsRiseOnUnix`).

## Model

| member | source | states |
|---|---|---|
| Preservation.StepKeepsInv | selfupdate.go:325-485 | Every step of every install, each successful or failed call, crash and power failure keeps the whole invariant. |
| Preservation.RunInv | selfupdate.go:353-485 | Every state of every run of any number of installs satisfies the invariant. |
| Guarantees.LastCopyIsNeverLost | replace_windows.go:19-66 | In every reachable state the program installed last is the target or, on Windows only, lies complete under an owned backup name; whatever is the target is that program. |
| Guarantees.InstalledBytesHaveProvenance | selfupdate.go:417-484 | The target is the initial program or the unique member of an archive with the plan's digest, admitted by the gates, and with a policy backed by an accepted bundle for exactly that release asset. |
| Guarantees.CommitsAreAttested | selfupdate.go:276-320 | With a policy, every commit rests on an earlier check with the transcript of a search to show: at most three pages and three hundred candidates, everything before failing only on its own account, and at its end a bundle that the verifier accepted for the request that spells exactly this owner, repository, workflow at this version's tag, asset name and digest; the installed archive has that digest. |
| Plans.RequestPinsRelease | attestation.go:48-56 | Equal verifier requests are about the same owner, repository, workflow, version, asset name and digest: the strings cannot be confused. |
| Plans.BuiltPlansAreRight | selfupdate.go:299-320 | What a check builds is, field by field, the plan for that release asset: an update is available exactly if both versions are stable and the release's number is higher, and with a policy the record names this owner, repository, workflow, version, asset and digest. |
| Guarantees.OnlyPermittedPlansPass | selfupdate.go:335-352 | In every run, the gates let exactly those of the plans on record through that are the updater's own, between stable versions, and lead up to a higher one, or were asked for and allowed. |
| Guarantees.OnlyWholeFilesBecomeExecutable | install.go:126-170 | No file is ever executable but partial: in every step of every reachable state, what installs make is private to its owner, and permission bits change only on a stage file that already is the whole member of the verified archive, on stable storage, and become the target's. |
| Guarantees.CommitsFormAChain | selfupdate.go:394-467 | No lost update: each commit's plan fingerprints the content just before it, which the event before it left; permission bits carry over; no install commits twice. |
| Guarantees.HolderMakesHistory | selfupdate.go:364-372 | Only a successful call of the lock holder can change what is installed. |
| Guarantees.CommitIsTheRename | replace_windows.go:30-33 | A commit goes on record in the very step whose rename puts the staged file in place of the program it names as replaced, for the committing install's own plan. |
| Tenure.TenureIsQuiet | selfupdate.go:373-467 | From the look under the lock to the return nobody else moves: same sighting, same plan, and nothing on record but the install's own single commit. |
| Outcomes.HowItReturned | selfupdate.go:368-372 | An install returns at its last call, or at a failed one before it has the lock, with the result its state says; an unlock error never hides an earlier one. |
| Outcomes.OutcomeIsHonest | selfupdate.go:467-484 | Under every fault schedule: committed exactly when the staged file was renamed onto the target; not committed means the same inode with the same content, visible if it was, except that a RollbackError says the old program is under the backup name or may still be hidden. |
| Outcomes.EveryOutcomeIsHonest | selfupdate.go:325-485 | Every install that ever returns did nothing, or gives an honest account of all that happened since it looked. |
| Outcomes.UnlockedInstallsDoNothing | selfupdate.go:357-378 | An install that never got the lock, or found no target under it, reports an uncommitted failure and has committed nothing. |
| Outcomes.CleanFinish | selfupdate.go:406-479 | Without an error no stage or archive file is left in the directory, and on Windows no backup either unless the result says cleanup is pending. |
| Outcomes.SweepsLeaveNothing | install.go:98-118 | Whatever crashed before, an install that has passed its sweeps finds no leftover stage, archive or (unless pending) backup file. |
| PowerFailure.TargetSurvivesPowerFailure | install.go:150-173 | On Unix, at every moment and after any power failure, the target is there, its content completely on stable storage, and it is the initial program or a whole verified member. |
| Afterwards.CommittedIsDurable | replace_unix.go:10-19 | Once Apply has returned without an error, at every later moment, whatever other installs and power failures have done since, the target and every disk a power failure may leave hold the program of that commit or of a later one. |
| Afterwards.NobodyBringsBackOlder | replace_unix.go:25-32 | If all that the target may turn out to be comes from some commit or later ones, no step of any install and no power failure ever changes that. |
| Reverts.RevertsExactlyWhen | replace_unix.go:10-19 | Along every Unix run, a power failure can bring another program back if and only if since the last rename no directory sync has succeeded and the power has not failed, and that commit replaced a different program. |
| Reverts.MayRevertMeans | replace_unix.go:25-32 | In every reachable Unix state, some surviving disk shows a program other than the last installed if and only if some inode that the directory may still name has other content. |
| Reverts.OnlyBrokenInstallsRevert | replace_unix.go:14-18 | A program can come back only over a commit whose install is still before its directory sync, has failed or crashed, never over one that returned without an error. |
| Reverts.ShelteredNeverReverts | replace_unix.go:10-19 | If the power fails only while no commit is pending, the whole history on Unix is commits. |
| Reverts.VersionsRiseOnUnix | selfupdate.go:299-349 | Then, between any two truthfully labelled commits of the whole Unix run, installed versions strictly increase, no program recurs, and no two commits share a fingerprint. |
| PowerCut.RevertIsTwoStepsAway | replace_unix.go:11-15 | Every run on Unix in which an install is about to rename another program onto the target goes on, in two steps, to that commit and to the old program back in place. |
| PowerCut.RevertsHappen | replace_unix.go:11-15 | There are such runs: from the first check, through an archive that the tar extraction reads, to the commit, the power failure and the old program back in place. |
| Sweeps.OneHolder | lock_unix.go:32-52 | At most one install is past the lock. |
| Sweeps.SweepIsSafe | install.go:98-118 | A sweep removes only owned names, none that a running install made or refers to, leaves every other binding alone, and runs only while the last program is in place. |
| Sweeps.OwnersHoldTheLock | selfupdate.go:368-415 | Every stage or archive file belongs to the lock holder or to an install that no longer runs. |
| Sweeps.OtherFilesStay | install.go:107-116 | No step but a power failure binds, removes or rebinds any other file, or removes the lock file. |
| Monotonic.GateAdmits | selfupdate.go:338-349 | A plan that a check makes passes the gates exactly if the current version is stable and the release's number is higher, or it is a permitted targeted one. |
| Monotonic.VersionsStrictlyIncrease | selfupdate.go:299-349 | Along every stretch of truthfully labelled commits, for any hash, installed versions strictly increase, no program recurs, and no two commits share a fingerprint. |
| Monotonic.WindowsNeverReverts | replace_windows.go:19-42 | On Windows the whole history is commits, so the increase holds over the whole run. |
| Others.OthersKeepMe | lock_unix.go:32-52 | While an install holds the lock, no interleaving of the others changes the disk, the history or the install's own state. |
| Others.RunKeepsLockFile | lock_unix.go:23-31 | Whoever is past opening the lock file can rely on the file staying there. |
| Installs.Apply | selfupdate.go:325-485 | Every execution is a run of the transition system; refused plans change nothing; otherwise the outcome is honest, a commit delivers the plan's own archive member, without an error the directory is clean; and it commits without an error unless some call failed, the target, the response or the archive is to blame, or the caller gave up by the last poll the extraction makes. |
| Installs.ApplyLocked | selfupdate.go:373-485 | What happens under the lock ends at the release with the result the transition system computes; a committed result is without error or pending cleanup unless a call failed, an uncommitted one has a failed call or a stated excuse. |
| Installs.AcquireFileLock | lock_unix.go:19-52 | The retry loop ends with the lock held by this install, or with the install returned uncommitted: because a call failed, or because the lock was taken each time it was asked for, once more than the caller's patience. |
| Installs.Fingerprint | selfupdate.go:394-400 | Goes on only if the target's hash is the plan's, and notes its permission bits; stops only if it is not, or a call failed. |
| Installs.HashExecutable | selfupdate.go:593-614 | The hash and permission bits of a regular target of at most 256 MiB, or a failure of the install that changes nothing. |
| Installs.CommitStage | selfupdate.go:454-484 | Fingerprints again, polls, swaps; reports committed, pending cleanup and error exactly as the swap left them, and no error only when committed. |
| Installs.PromisesAreKept | selfupdate.go:322-325 | Every install that has returned honoured all of: honest account, delivered plan, clean directory. |
| Downloads.DownloadToFile | http.go:252-315 | For any chunking: success means the file is the whole body, within the limit, the digest is the hash of the file, and progress was reported as strictly rising counts ending at its length; when no call fails it fails only for a status outside 200 to 299, an announced or actual length over the limit, or a body that breaks off. |
| Downloads.CopyAll | http.go:305-314 | The copy loop keeps file, hash input and bytes read equal until the end, the limit or a fault. |
| Streams.CountingReader.Read | http.go:236-243 | Reports after each read form strictly rising prefix sums of what was read. |
| Streams.HashBounded | http.go:394-403 | Hashing a stream succeeds exactly when it neither breaks nor exceeds the limit, and then gives the hash of all of it. |
| Staging.CreateRandomFile | install.go:50-66 | A new empty private file under a name nobody had; or nothing changed, and then a call failed or ten names in turn were taken. |
| Staging.CleanupStaleFiles | install.go:98-118 | On success exactly the files of that kind, symbolic links and directories apart, are gone, and every other binding and every file is as before; on failure only some of those leftovers are gone. |
| Staging.StageExecutable | install.go:133-174 | On success the directory has one new stage file, holding exactly the archive's member, synced, with the target's permission bits; on failure it is as before, or holds that one file more and then some call has failed; without a failing call it fails only for an archive without a member or a caller that gave up by the last poll. |
| Staging.FillStage | install.go:150-170 | Extract, sync, chmod, close, sync the directory, in this order; the file then is the member, synced, with the bits; without a failing call it fails only for an archive without a member or a caller that gave up by the last poll. |
| Replacing.ReplaceUnix | replace_unix.go:10-19 | Committed exactly when the rename succeeded: then the target names the staged inode, nothing else changes, and without an error that is settled on disk; a failed directory sync is an error after the commit; a failed rename leaves the disk as it was. |
| Replacing.ReplaceWindows | replace_windows.go:19-42 | Committed: the target names the staged inode, and the old one is gone without a word, or lies hidden under the backup name and the last failed call says why: in use, a pending cleanup and no error; anything else, an error. Not committed: the directory is as before and the target visible if it was, or the fault says that it may be hidden, or that the old program is under the backup name. No other file changes. |
| Replacing.RollbackWindows | replace_windows.go:48-66 | The old program is back and visible, or back but not yet visible, or still under the backup name, and the fault says which. |
| Replacing.RemoveBackup | replace_windows.go:126-141 | The backup is gone, read-only or not; or it is still there, at most made writable, and the error returned is what the failed call has said. |
| Replacing.DisposeOfBackup | replace_windows.go:34-40 | A backup that stays is left for a later install exactly if the failed call has reported a sharing violation or denied access; any other problem is an error. |
| Replacing.CleanupStaleBackups | replace_windows.go:68-94 | When the backup sweep goes through, every stale backup is gone or was reported in use, and cleanup is pending exactly if one is left; it stops only if the directory cannot be read or a backup meets a problem other than being in use; nothing but stale backups goes; on Unix it does nothing. |
| Replacing.RandomBackupPath | replace_windows.go:96-112 | A backup name that no file has; or nothing changed, and then a call failed or ten names in turn were taken. |
| Unpacking.ExtractArchive | archive.go:25-34 | By the asset name's suffix: success exactly when the archive holds the member, and then all of it is written, every poll before an entry and one more having found the caller waiting. |
| Unpacking.ExpectedNamesAreRight | selfupdate.go:560-572 | There are names exactly for linux, darwin and windows on amd64 and arm64: command_os_arch.tar.gz with the command, and command_windows_arch.zip with command.exe. |
| Unpacking.ExpectedNamesTellTheFormat | selfupdate.go:560-572 | Asset names end in .zip on Windows and in .tar.gz elsewhere, never both. |
| Unpacking.MemberIsWhatTheArchiveHolds | archive.go:25-34 | What an archive's entries give as the unique member is exactly what the two extraction loops accept. |
| Tapes.TapesReadBack | archive.go:43-89 | The round trip of the tar format: of any files, written with their extension headers, header blocks, bodies of any size and filling up to whole blocks, with two zero blocks at the end, the reader gives exactly these files and a clean end, whatever stands behind. |
| Tapes.WrittenMembersAreFound | archive.go:36-97 | The extraction accepts such a file exactly if it is within the limit and the member is the unique acceptable one of the files written. |
| Tapes.OtherTailsAreRefused | archive.go:48-54 | Where no file begins behind those written (a bad header, a block or body cut short, zero blocks), the reader gives just those, and the end is clean exactly if there is nothing more, one zero block at the very end, or two. |
| Tapes.LastFillMayBeCut | archive.go:48-54 | Missing filling after the last body is a clean end, unless the stream breaks off there. |
| Tar.TruncationNeverHelps | archive.go:43-97 | For every stream and limit, a reading that stays within the budget is the reading of the whole stream, even when the budget ends on a block boundary. |
| Extraction.LimitedReader.Take | archive.go:43 | Reads what the budget lets through and uses it up in place; the end of the budget looks like a clean end. |
| Extraction.TarReader.Next | archive.go:48-54 | The in-place reader skips, reads extension headers and finds the same header as the function over the stream. |
| Extraction.ScanTar | archive.go:47-89 | The loop either writes exactly the unique acceptable member of the entries read to a clean end, having polled the caller before each header, or has a reason to refuse. |
| Extraction.ExtractTarGz | archive.go:36-97 | Succeeds exactly when the budgeted stream ends cleanly within the limit with one acceptable member, and then appends exactly its body. |
| Extraction.BudgetOnlyRefuses | archive.go:90-92 | The budget only ever refuses: acceptance under it is acceptance of the unlimited stream, read within the limit. |
| Extraction.ExtractZip | archive.go:99-162 | Succeeds exactly when the directory is readable, small enough and has one acceptable member whose data are as long as declared, and then appends exactly its body. |
| Extraction.TarAndZipAgree | archive.go:36-162 | A tar stream and a ZIP directory with the same entries, in any order, give the same answer. |
| Packages.UniqueMemberIsUnique | archive.go:55-70 | Acceptance means that exactly one entry has the member's base name, and it is at the root, regular, from one byte to 256 MiB large and as long as declared. |
| Packages.PathBaseIsLast | archive.go:55 | The base of a path is what stands between its last slashes, those at its end apart; of the empty path it is a dot, of slashes alone a slash. |
| Packages.UniqueMemberOfPermutation | archive.go:47-89 | The order of the entries does not matter. |
| Versions.CompareIsPrecedence | selfupdate.go:300 | Comparing fields by length and then byte-wise is numeric precedence (section 11 of Semantic Versioning 2.0.0), and equality is equality of strings. |
| Versions.StableVersionsAreTriples | selfupdate.go:556-558 | Stable versions are in bijection with triples of natural numbers. |
| Versions.NumbersCompare | selfupdate.go:344 | The string order of two version fields is the order of the numbers they denote. |
| Versions.CompareTransitive | selfupdate.go:344 | The gate's order is transitive. |
| Names.FilterIsExact | install.go:50-108 | A name passes a sweep's filter exactly if it is a dot, the target's name, .selfupdate-stage-, -archive- or -backup- and sixteen bytes in lowercase hexadecimal, which is what the generators make. |
| Names.OwnersAreDisjoint | install.go:56-100 | No name belongs to two targets or to two kinds of file. |
| Names.LockAndTargetAreSafe | install.go:100-109 | No sweep's filter accepts the lock file of any target, which is its name with .selfupdate.lock, or its own target. |
| Names.CandidatesDiffer | install.go:56 | Different random bytes make different names. |
| Names.NamesAreStrings | install.go:100-109 | The names of the transition system and the strings in the directory correspond one to one. |
| Names.IsLowerHex | install.go:82-89 | The loop accepts exactly the lowercase hexadecimal strings. |
| Names.HexIsSpelled | install.go:56 | In the hexadecimal text of bytes, each byte's high digit and then its low one stand for it, of 0123456789abcdef. |
| Names.ParseAssetDigest | http.go:169-186 | Accepts exactly sha256: with 64 lowercase digits, and returns the 32 bytes whose digits these are, in order. |
| Releases.SelectAsset | http.go:132-160 | Chooses an asset exactly if one and only one listing has the name, and that one has one byte to 256 MiB, an acceptable URL and a digest of the right form; the result describes that listing. |
| Releases.FetchRelease | http.go:106-167 | Finds an asset exactly if the answer is no draft and no prerelease, has a stable tag, a publication time, an acceptable page, and such an asset. |
| Releases.OffersOne | http.go:132-160 | A release offers at most one asset of a name: equal listings force equal name, size and digest. |
| Releases.FetchReleaseByTag | http.go:66-167 | Gives what a published release with exactly the stable tag asked for offers under that name, and nothing exactly if it offers nothing. |
| Checks.Fetch | selfupdate.go:232-274 | Finds the release asset that was asked for, latest or by tag, exactly if there is one of this platform's name: command_os_arch.tar.gz, on Windows command_windows_arch.zip, on amd64 and arm64 only. |
| Checks.Attest | selfupdate.go:279-284 | The policy is met exactly if the attestation search for this asset succeeds, and then there is the record and the transcript of that very search, ending in a bundle accepted for the request that spells this release asset. |
| Checks.MakePlan | selfupdate.go:276-320 | The plan is on record, made for the program as it is at that moment and, with a policy, with the transcript of its own search on file; it fails only if a call failed or one of these is not so. |
| Checks.Check | selfupdate.go:232-320 | A plan is made exactly if the right release offers the asset of this platform's name, the attestation search succeeds and the executable is called like the program, unless a call fails; every field of the plan is that of this release asset and executable. |
| Checks.CheckAndApply | README.md:29-55 | A check followed, any time later, by an apply: the plan is still good for Apply; what is committed is the member of the program's name in an archive with the digest of the release's only asset of that name, and with a policy the transcript of this check's own search, over the pages it asked its server for, is on file for it. |
| Links.ParseLinkHeader | attestation.go:183-208 | The loop finds what the reading of the header defines. |
| Links.HeadersAreRead | attestation.go:183-208 | Any header, of links with targets and parameters between any blanks: nothing when it is blank; refused when a link has no parameter, a next link has no URL in brackets, or two lead on; else the one URL with a parameter rel="next", or none (section 3 of RFC 8288). |
| Pagination.NextAttestationPage | attestation.go:183-235 | A next link is followed exactly if both URLs can be read and the target is at most 4096 characters long, has the scheme and path of the current page and its host up to the case of ASCII letters, no credentials, fragment or opaque part, and as query exactly the two required parameters and one non-empty cursor; a header without one ends the search. |
| Pagination.FoldingTellsHosts | attestation.go:222 | Two hosts count as one exactly if they are equally long and at each place have the same character or the two cases of one ASCII letter. |
| Pagination.QueryIsExact | attestation.go:226-233 | The accepted queries are the required parameters, one cursor, and nothing else. |
| Attestations.ChainStaysOnTrack | attestation.go:62-112 | Every page asked for is the first one, or prints a URL with its scheme and path, its host up to the case of ASCII letters, no credentials or fragment, and the required query. |
| Attestations.SearchPages | attestation.go:60-119 | The paged loop finds exactly what a flat search over all verdicts finds, with at most three page requests, each where the one before led; when it succeeds, it is on the last page requested, with nothing but soft failures before. |
| Attestations.VerifyAttestation | attestation.go:47-131 | It succeeds exactly if the links lead over at most three pages with three hundred candidates to one with a URL whose bundle the verifier accepts, and each candidate before it has no URL or fails to be fetched or verified for a reason that is not the caller's; it fails with an error exactly if that is the first cancellation, failed page, limit, bad link or context error it comes to, or, when none comes, the first candidate's failure. On success there is the record of this release asset and the pages actually requested. |
| Attestations.VerdictsMean | attestation.go:85-106 | A candidate is accepted, passed over or stops the search exactly by whether the caller is there, it has a URL, its bundle comes, the verifier accepts it, and whether an error is the caller's. |
| Attestations.SearchSucceeds | attestation.go:85-106 | The search succeeds exactly if some attestation is valid and nothing hard comes before it. |
| Attestations.SoftFailuresMaskNothing | attestation.go:89-105 | Soft failures never hide what comes after them. |
| Attestations.FirstFailureIsReported | attestation.go:304-309 | When nothing decides, the first soft failure is the cause reported. |
| Attestations.StreamIsShort | attestation.go:80-83 | At most three hundred attestations are judged. |
| Attestations.SearchIsDecided | attestation.go:60-119 | Following the links decides both ways: success if and only if there is a transcript that ends in an accepted bundle, and failure with an error if and only if that error is the first thing to stop the search, or the first thing wrong when nothing did. |
| TrustCache.StepKeepsInv | sigstore/sigstore.go:106-155 | Every step of every caller and of the flight keeps the cache, the fetches and all results in order. |
| TrustCache.FetchesAreSpaced | sigstore/sigstore.go:110-134 | Fetches never overlap, and one that follows a stored result starts no earlier than the expiry stored with it. |
| TrustService.VerifiersAreFresh | sigstore/sigstore.go:106-146 | Every verifier returned is unexpired at a real reading of the clock: the one this caller made after it arrived, or the one that the very flight it joined and waited for made after departing. |
| TrustCache.FailuresLeaveTheCache | sigstore/sigstore.go:118-133 | Only a fetched and built verifier changes the cache; failures leave it as it is. |
| TrustCache.NobodySeesHalfAStore | sigstore/sigstore.go:130-155 | Nobody ever looks at a verifier with another one's expiry. |
| LateJoiners.JoiningDecides | sigstore/sigstore.go:106-146 | A caller about to join can be served a verifier over by its own look if and only if the flight has landed with one, or has read the clock and will find one in the cache. |
| LateJoiners.EarlyJoinersAreServedFresh | sigstore/sigstore.go:110-113 | Whoever starts the flight, or joins before it has read its clock, gets a verifier unexpired at its own look. |
| LateJoiners.StaleServiceHappens | sigstore/sigstore.go:110-146 | A run from the start in which a second caller, a whole period later, is served a verifier over by its own look. |
| TrustCache.Verifier.Initialize | sigstore/sigstore.go:110-135 | A flight returns what was fresh, or stores what it fetched for 24 hours, or changes nothing. |
| TrustCache.Verifier.ConfiguredVerifier | sigstore/sigstore.go:106-146 | With nobody else around: the cached verifier, or what the flight comes to; nothing only if the caller has given up or the fetch failed. |
| TrustCalls.CallIsARun | sigstore/sigstore.go:106-155 | From every quiet moment of every run, what a call of the class does, with any clock readings and outcome, is a way on of the machine in which one caller arrives, looks, flies and returns. |
| TrustCache.CheckStatement | sigstore/sigstore.go:91-103 | A verified statement counts exactly if type and predicate match and one subject has both the name and the digest. |

## Left out

- HTTP transport, redirects, headers, timeouts, JSON decoding and TLS: responses are inputs, in any chunking, that may
  break off anywhere.
- Cryptography, Sigstore bundle verification and TUF fetching, snappy: functions whose results the environment chooses.
- gzip inflation, ZIP central-directory parsing, the fields of tar headers and sparse files: extraction gets the
  expanded stream, the header parser and the list of ZIP files as parameters.
- URL parsing and reference resolution: parameters of the page-following proofs. Hosts fold case as ASCII.
- Resolving symbolic links and the comparison with the plan's path: resolving succeeds only if the target exists. The
  gate on operating system and architecture in `Apply`: a single equality test. The asset's download URL, its size and
  the texts of a release are no part of the model's plan; what the server sends is an input of the install.
- Error texts, `RollbackError`'s formatting, accessors on `Plan`, the one-shot field checks of `New`,
  `parseRepository` and `validateAttestationWorkflow`: easy facts about one body each.
- Programs that ignore the lock, case-insensitive file systems, hard links, clock skew, lock fairness, and how random
  the random names are: outside what the code can promise. Suffixes are arbitrary; the exclusive creation decides.
- Installs.AcquireFileLock: waiting is bounded by the number of rounds after which the caller's context is done, so the
  model says nothing about how long anybody waits.
- Staging.ExtractInto: the extracted bytes reach the stage file in one write; the transition system itself lets them
  arrive in any number of pieces.
- Worlds.World.Write: a failing write leaves the file as it was; a partly written file is only seen after a crash or
  a later failure.
- Worlds.World.LetOthersRun: its body does nothing; its contract is all that callers may assume, and admits every run
  of the other installs. The same goes for `LetAnybodyRun`, which a check calls.
- Installs.Apply: an execution that ends in a crash or a power failure does not return, so its fate is the subject of
  the theorems about runs and not of this contract.
- TrustCache.Verifier.ConfiguredVerifier: one caller at a time; all interleavings are covered by the machine.
- Extraction.ExtractTarGz: cancellation in the middle of a read shows as a broken stream or at the next entry.
- Extraction.ExtractZip: cancellation in the middle of copying a member shows as a member that fails to read, or at the
  next entry.
- Checks.Check: cancellation of the requests shows in the answers (no response, or an error on a page or candidate);
  the poll before the plan is made counts as a call that may fail.
- Guarantees.CommitsAreAttested: the transition system takes the pages of a transcript as inputs; that a check puts only
  pages on file that its own server sent, each asked for where the one before led, is what Checks.Check ensures.
