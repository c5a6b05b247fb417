# fileHeron: a verified model of its self-update, download budget and crash-safe data changes

fileHeron is a self-hosted file-sharing server. This project models, in Dafny, the parts of it in which
many small steps have to add up while any of them may fail, be interleaved with others, or be cut short by
a crash, and proves what those parts are there to guarantee.

**The self-update executor** (`docker/updater-executor/run.py`). A job pulls images, takes a backup,
fast-forwards the checkout, recreates infra services, rewrites FH_TAG in `.env`, starts the app, and heals
itself when the new app does not answer. `Executor.dfy` is the script as a class over the state it changes:
the `.env` file, the schema pointer of the database, the rollback file, the job file and the backup
directory. The result of every docker, git and curl command is arbitrary. Each job keeps a log of what it
did to the host; `UpdateLog.dfy` says which event may follow which log, every method of the executor proves
that it only ever extends a lawful log, and `UpdateHistory.dfy` derives what that means for the events of
any lawful log: backup first, images first, app down around the data layer, nothing after the end, no
failure ignored. `JobOutcome.dfy` relates the host before and after a job for each exit code, and
`SchemaRuns.dfy` follows the schema pointer over any sequence of jobs. The pieces a job is made of are
modelled next to it: `EnvFile.dfy` (the FH_TAG line), `Checkout.dfy` (git status, fast-forward, the
infra plan), `HealthWait.dfy` (the polling loops) and `Backups.dfy` (retention).

**The download budget** (`backend/app/routers/files.py`, `public.py`). `DownloadBudget.dfy` splits a
download request at every point where another request may come between, and runs any number of them in any
order over one store; payment marks may vanish at any moment and commits may fail. `DownloadLicence.dfy`
proves who paid for a transfer that was served, `DownloadBacking.dfy` what a failing commit costs, and
`DownloadRecords.dfy` what a payment leaves behind and which later requests it frees. `DownloadHandler.dfy`
is one request as the routes run it, proved to be a run of the step system. `PaidKeys.dfy` is the naming of the marks, and `UnlockCookie.dfy`
the signed cookie of a password-protected link.

**Side effects and data changes that survive a crash.** `SessionHooks.dfy` (after-commit and after-rollback
hooks of `backend/app/database.py`), `EmailMigration.dfy` and `RichTextMigration.dfy` (two revisions that
converge over any crashes and replays), `SecretRotation.dfy` (`backend/scripts/rotate_jwt_secret.py`).
`Text.dfy` holds the string operations of Python that the others use.

## Modelling decisions

- A version's image knows the revisions `0..tree(tag)`. Starting it needs the pointer inside that range and
  moves it up, all the way, part-way or not at all; `alembic stamp` needs both revisions inside it. A
  revision no image knows, such as a hand-edited one, is a number above every tree. A tag names one image
  for the length of a run, `latest` included.
- `write_current_tag` is the only step whose exception is modelled; it gives the outcome `Raised`. A lost
  write of the job file or of the rollback file is silent, as in the source.
- The health test accepts a reply without a version when the expected version is unknown (run.py:482). The
  docstring at run.py:467-469 promises "any running version other than `not_tag`"; the model follows the
  code, and `HealthWait.UnknownVersionAccepts` says what is accepted.
- After an automatic rollback the rollback file names the tag that is running again (run.py:1795 wrote it
  before the start): `JobOutcome.HealedJobRecordsItself`.
- A version resolved from a floating tag is arbitrary in the executor. That the database is within its
  image's tree is a condition of `SchemaRuns.Fits`, not of the code.
- A failing commit of a download leaves its payment mark behind (the mark is written first,
  files.py:447-451), so the licence is stated for requests that took the charging branch.
  `DownloadBacking` shows a transfer freed that way and proves when none is.
- `"\r\n"` in `.env` is taken as already decoded to `"\n"`, which is how the file is read.

## Model

| member | source | states |
|---|---|---|
| `Executor.Executor.RunJob` | docker/updater-executor/run.py:1625-1866 | a whole job, for every result of every command: the log stays lawful; which requests are refused before the host is looked at; the exit code, FH_TAG, the other .env lines, the schema pointer and the rollback file end in one of the listed combinations; the plan follows the survey, and the backups left are those there were plus the one taken, after retention |
| `Executor.Executor.Preflight` | docker/updater-executor/run.py:1649-1677 | the job records the tag in .env; the anchor is that tag unless it floats, and then the version the running backend answered, if it answered one; the head is the pointer when the backend said it, or nothing |
| `Executor.Executor.ResolveRunningVersion` | docker/updater-executor/run.py:438-460 | the backend's answer when it names a version, never a floating tag and never thrown away |
| `Executor.Executor.PullAppImages` | docker/updater-executor/run.py:1693-1701 | success means every app and updater image of the target was pulled; failure is blamed on a pull |
| `Executor.Executor.PullInfraImages` | docker/updater-executor/run.py:1702-1709 | success means every image of the plan was pulled |
| `Executor.Executor.MakePlan` | docker/updater-executor/run.py:1684-1718 | an update plans by the survey, a rollback plans nothing, and a backup is required exactly when asked for or forced by the db being planned |
| `Executor.Executor.TakeBackup` | docker/updater-executor/run.py:1500-1585 | one new backup directory, or none and nothing left behind |
| `Executor.Executor.PruneBackups` | docker/updater-executor/run.py:1588-1622 | what is left is the retention of what was there, each backup dated by its own name, under the job's limits and protecting the new backup |
| `Executor.Executor.SecureAndSync` | docker/updater-executor/run.py:1714-1738 | exit 6 only for a failed backup, before anything else changed; otherwise the gate is open, retention ran and the checkout is at the planned commit or the plan is dropped |
| `Executor.Executor.StampBack` | docker/updater-executor/run.py:1745-1767 | the pointer ends on the recorded revision, which the image in use knows, or the job fails with the pointer where it was |
| `Executor.Executor.SyncDataLayer` | docker/updater-executor/run.py:1327-1359 | success recreated the planned db and redis in order; failure ends with the stopped containers started again, exit 20, and FH_TAG untouched |
| `Executor.Executor.SwitchTag` | docker/updater-executor/run.py:1782-1798 | .env names the target and the rollback file the version it replaced, if that write landed; or neither changed |
| `Executor.Executor.AutoRollback` | docker/updater-executor/run.py:496-575 | each of its five ends, with where the tag and the pointer are; exit 0 only after an accepting probe on the previous tag |
| `Executor.Executor.SyncRemainingInfra` | docker/updater-executor/run.py:1362-1376 | afterwards the services recreated before and after the app start are the plan, in its order |
| `Executor.Executor.Complete` | docker/updater-executor/run.py:1832-1862 | the healthy end: whole plan done, terminal status issued, shim recreated last |
| `Executor.Executor.Recover` | docker/updater-executor/run.py:1806-1830 | an update heals itself, a rollback fails where it stands with 3 or 4 |
| `Executor.Executor.WriteTag` | docker/updater-executor/run.py:271-300 | FH_TAG reads as written and every other line is kept, or the write raised and nothing changed |
| `Executor.Executor.ReportStatus` | docker/updater-executor/run.py:210-218 | the job file shows the status, or what it showed before when the write was lost |
| `Executor.Executor.WriteRollbackFile` | docker/updater-executor/run.py:427-431 | the file pairs the tag with the captured revision, or is as before |
| `Executor.Executor.Stamp` | docker/updater-executor/run.py:532-536 | succeeds only if the image knows the old and the new revision, and then moves the pointer there |
| `Executor.Executor.Launch` | docker/updater-executor/run.py:1801-1830 | the app started on the tag, with the pointer it found and the range it may have moved in; success only with an accepting probe |
| `Executor.Executor.RecreateDataLayer` | docker/updater-executor/run.py:1342-1344 | db and redis in order; the first that does not come back ends the loop |
| `Executor.Executor.AwaitService` | docker/updater-executor/run.py:1319-1320 | over any poll stream, a wait that ends well ends at an observation of the service up on the image |
| `Executor.ReleaseTagIsWritable` | docker/updater-executor/run.py:359-365 | a target that passed validation, with decimal digits of any script, survives being written to .env and read back, and is not a floating tag |
| `Executor.ReleaseTagsAre` | docker/updater-executor/run.py:359-365 | a target is valid exactly if it is a v and three runs of digits between two dots |
| `JobOutcome.EndStatesAreTruthful` | docker/updater-executor/run.py:1625-1866 | the codes are 0-6, 10-12 and 20, each with the failure in the log that caused it; 0 exactly for healthy or rolled back; healthy means FH_TAG is the target and a probe reported the target; rolled back means FH_TAG is the previous tag and an accepted probe reported the anchor, never the failed target; 1, 2, 5, 6, 20 leave FH_TAG and the rollback file; 3, 4, 10 leave the target, 11, 12 the previous tag |
| `JobOutcome.HealedEnds` | docker/updater-executor/run.py:496-575 | every end of the self-healing is an end of the job it belongs to |
| `JobOutcome.HealedJobRecordsItself` | docker/updater-executor/run.py:1784-1796 | after an automatic rollback whose record landed, the rollback file names the version that is running again |
| `UpdateHistory.BackupComesFirst` | docker/updater-executor/run.py:1711-1738 | once a backup is called for, no fast-forward, stamp, stop, recreate, tag write or app start before one was taken |
| `UpdateHistory.BackupOutlivesPrune` | docker/updater-executor/run.py:1733-1734 | the backup a job took is still there after the prune that follows it |
| `UpdateHistory.ImageComesFirst` | docker/updater-executor/run.py:1702-1709 | every recreated infra image was pulled earlier in the job |
| `UpdateHistory.AppImagesComeFirst` | docker/updater-executor/run.py:1693-1701 | before anything of the host is changed all five app and updater images of the target were pulled, by name |
| `UpdateHistory.NothingAfterTheEnd` | docker/updater-executor/run.py:1838-1862 | the terminal status is never overwritten; only the shim of a healthy job is recreated after it, and on the job's target |
| `UpdateHistory.RecreatesInOrder` | docker/updater-executor/run.py:1335-1376 | each infra service at most once, db before redis before clamav before tusd |
| `UpdateHistory.RecreatedCameUp` | docker/updater-executor/run.py:1308-1324 | a service counts as recreated only on an observation of it running on the release's image and not crash-looping |
| `UpdateHistory.DataLayerOnlyWhileDown` | docker/updater-executor/run.py:1335-1344 | db or redis is recreated only while every app container that was found has been told to stop and not been started since |
| `UpdateHistory.EveryStopIsAnswered` | docker/updater-executor/run.py:1338-1349 | a job that does not raise answers each stop with a start of the same containers or an app start |
| `UpdateHistory.FailureEndsChanges` | docker/updater-executor/run.py:1625-1866 | after a failed pull, backup, stamp, data service or .env write come only reports, and after a data service the start of the old containers |
| `UpdateHistory.FailedLaunchIsAnswered` | docker/updater-executor/run.py:1806-1830 | after an app that did not start or answer come only reports until healing is announced |
| `UpdateHistory.HealingNeedsAFailedLaunch` | docker/updater-executor/run.py:496-531 | a job heals itself only after a failed start or wait |
| `UpdateHistory.HealthyIsProved` | docker/updater-executor/run.py:1823-1838 | healthy is reported, and clamav and tusd are touched, only with the target as the last tag written and a probe since the last start that named it |
| `UpdateHistory.RolledBackIsProved` | docker/updater-executor/run.py:545-575 | rolled back is reported only with the previous tag last written and an accepted probe since: it reported the anchor, or with a floating anchor some version, and not the failed target |
| `UpdateHistory.RestoredAnswers` | docker/updater-executor/run.py:1664-1666 | which replies of the backend count as the old version being back: exactly the anchor, and with a floating anchor any version but the failed one, or none |
| `UpdateHistory.TargetAnswers` | docker/updater-executor/run.py:476-487 | which reply counts as the target being up: exactly the target |
| `UpdateHistory.AnchorIsAnswer` | docker/updater-executor/run.py:1649-1666 | in every lawful log the anchor of a floating tag is the version the backend answered, and of any other tag the tag itself |
| `UpdateHistory.StartsFollowTheTag` | docker/updater-executor/run.py:546-551 | the app is only started on the tag .env was last written to |
| `UpdateHistory.RecordComesFirst` | docker/updater-executor/run.py:1782-1801 | a job that changes the version tries to record the one it leaves, with its schema revision, before it starts an app |
| `UpdateHistory.AutoRollbackStampsFirst` | docker/updater-executor/run.py:526-546 | .env leaves a failed target only after the captured revision was stamped with the target's image |
| `UpdateHistory.RollbackStampsFirst` | docker/updater-executor/run.py:1745-1767 | a rollback touches .env only after the recorded revision was stamped with the image it is leaving |
| `UpdateLog.PartsJoin` | docker/updater-executor/run.py:1335-1376 | the services before and after the app start partition the plan |
| `SchemaRuns.JobKeepsSchema` | docker/updater-executor/run.py:526-557 | a job whose target knows the revision it will find, and which can go back or has nothing to migrate, keeps the pointer inside the tree of the tag in use and the rollback file's revision inside its tag's tree, and starts no image on a revision it does not know |
| `SchemaRuns.RecordedRollbackSuits` | docker/updater-executor/run.py:1745-1796 | a rollback to the recorded tag with its recorded revision is such a job on every host that keeps the invariant |
| `SchemaRuns.RunKeepsSchema` | docker/updater-executor/run.py:1745-1808 | the same after every step of any sequence of updates, rollbacks and app restarts |
| `SchemaRuns.UpdateIsSafeIff` | docker/updater-executor/run.py:526-557 | every lawful log of an update starts images on revisions they know exactly when the target knows the pointer and the pointer was captured or there is nothing to migrate; otherwise a lawful log with an unsafe start is given |
| `SchemaRuns.RollbackIsSafeIff` | docker/updater-executor/run.py:1745-1808 | the same for a rollback exactly when it stops at its stamp or the target knows the revision it will find |
| `SchemaRuns.UncapturedPointerIsUnsafe` | docker/updater-executor/run.py:541-543 | a lawful log, event by event, in which the skipped stamp starts the old image on a revision it does not know, and the job ends with exit 12 |
| `SchemaRuns.SafeExactlyWhenTargetKnows` | docker/updater-executor/run.py:1745-1808 | the starts of any rollback, and of an update with a captured pointer, are safe exactly when the target knows the revision it will find |
| `SchemaRuns.UnknownRevisionChangesNothing` | docker/updater-executor/run.py:1745-1764 | a rollback whose stamp the image in use cannot do leaves tag, pointer and rollback file as they were |
| `SchemaRuns.RollbackForwardFails` | docker/updater-executor/run.py:1745-1796 | after a rollback over a migration, a rollback to the newer version fails and changes nothing |
| `SchemaRuns.RollbackUndoesUpdate` | docker/updater-executor/run.py:1745-1796 | an update and the rollback to what it recorded restore .env, and the old release starts on exactly the revision it was left at |
| `EnvFile.WriteThenRead` | docker/updater-executor/run.py:260-300 | reading gives what was written, the other lines stay in order, a second write changes nothing, for any mix of present, absent and repeated FH_TAG lines |
| `EnvFile.ReadsBackIffWritable` | docker/updater-executor/run.py:260-300 | the round trip holds for exactly the one-line tags without outer whitespace |
| `EnvFile.WriteChangesOneLine` | docker/updater-executor/run.py:288-298 | a write replaces the first FH_TAG line by FH_TAG= and the tag, or appends that line, and leaves every other line alone |
| `EnvFile.ReadIsFirstLine` | docker/updater-executor/run.py:260-268 | reading gives the stripped value of the first FH_TAG line, and latest without a file or such a line |
| `EnvFile.WriteBackRestores` | docker/updater-executor/run.py:546 | writing a target and then the tag read before restores what was read |
| `EnvFile.EnvFile.WriteCurrentTag` | docker/updater-executor/run.py:271-300 | the in-place edit of the line list computes the specified file text |
| `EnvFile.EnvFile.ReadCurrentTag` | docker/updater-executor/run.py:260-268 | the loop finds the first FH_TAG line, or latest |
| `Checkout.StatusRoundTrip` | docker/updater-executor/run.py:974-992 | for every list of status entries, decoding their NUL-separated printing gives exactly their paths and the sources of their renames and copies |
| `Checkout.PrintedIs` | docker/updater-executor/run.py:974-992 | the printing that is decoded: two letters, a space, the path and a NUL, then the source of a rename or copy with its own NUL |
| `Checkout.DirtyPaths` | docker/updater-executor/run.py:974-992 | the index loop computes that decoding |
| `Checkout.PlanInfra` | docker/updater-executor/run.py:1050-1175 | the plan is skipped exactly for the listed answers of git and docker; otherwise it moves to the release's commit exactly when behind it, and names, in order, exactly the services that have a container and drifted or mount a changed file |
| `Checkout.AllowedFastForwardIsSafe` | docker/updater-executor/run.py:1098-1141 | a fast-forward the plan allows is never refused for a tracked file; when it goes through, every local change and every untracked file that is not ignored is as it was, and every other tracked path is the release's |
| `Checkout.FastForwardKeepsLocalChanges` | docker/updater-executor/run.py:1108-1112 | the same from the disjointness of touched paths and local changes alone, with the exact condition for a refusal |
| `Checkout.TouchedChangeIsRefused` | docker/updater-executor/run.py:1109-1115 | a modified file that the release touches, which the plan skips, would make the merge refuse |
| `HealthWait.WaitServiceHealthy` | docker/updater-executor/run.py:1273-1305 | true only for an observation of the release image running, and healthy or at the end of an unbroken run of at least 10 seconds without a healthcheck; never for three or more restarts; the first such observation decides; at most budget / 3 + 1 turns |
| `HealthWait.AcceptedIs` | docker/updater-executor/run.py:1273-1305 | the observation that ends a wait well, in numbers: fewer than three restarts, the release image running, and healthy or ten seconds of unbroken running |
| `HealthWait.SinceIsRunStart` | docker/updater-executor/run.py:1293-1295 | the `running_since` variable is the start of the longest unbroken run |
| `HealthWait.RedisReady` | docker/updater-executor/run.py:1247-1263 | true exactly when some poll before the deadline got an integer |
| `HealthWait.WaitForBackendHealth` | docker/updater-executor/run.py:463-493 | true exactly when some probe before the deadline is accepted |
| `HealthWait.UnknownVersionAccepts` | docker/updater-executor/run.py:482-484 | what is accepted with no expected version: any other version, and also none |
| `HealthWait.KnownVersionAccepts` | docker/updater-executor/run.py:482-484 | with an expected version exactly that version is accepted |
| `Backups.SurvivesIff` | docker/updater-executor/run.py:1602-1614 | kept exactly: the newest, the protected, the unparsable, those inside both limits, and what cannot be removed |
| `Backups.PruneTwice` | docker/updater-executor/run.py:1602-1614 | pruning again at the same clock changes nothing, though every index may have moved |
| `Backups.PruneBounds` | docker/updater-executor/run.py:1602-1614 | with a count limit, at most that many parsable entries and the protected one are left |
| `Backups.ProtectedSurvives` | docker/updater-executor/run.py:1603-1604 | the protected backup is among what is left |
| `Backups.BackupRoot.List` | docker/updater-executor/run.py:1596-1601 | the listing is exactly the entries that count as backups, sorted by name, newest first, each with the date its name parses to |
| `Backups.NameLessIs` | docker/updater-executor/run.py:1596-1601 | the sort order: names are compared at their first difference, and a beginning comes first |
| `Backups.BackupRoot.Prune` | docker/updater-executor/run.py:1602-1614 | the deleting loop leaves exactly the specified survivors and touches no other entry |
| `DownloadBudget.BudgetIsConserved` | backend/app/routers/files.py:417-478 | in every interleaving, limit minus remaining is the number of committed non-review records of the budget plus the number of its non-review requests in flight; a record took a unit exactly if it was no review and its budget is limited |
| `DownloadBudget.InterleavingRefinesCounter` | backend/app/services/share.py:1483-1505 | every interleaving is a run of a sequential counter that takes only above zero and refuses only at zero |
| `DownloadBudget.StepKeepsBalance` | backend/app/routers/files.py:617-685 | each single step keeps the balance |
| `DownloadLicence.ServedTransfersArePaid` | backend/app/routers/files.py:397-417 | every served transfer took the charging branch, is a size probe, or follows a charge by the same principal for the same file or archive |
| `DownloadLicence.LinkLicenceIsBounded` | backend/app/routers/public.py:287-303 | on a link, a free continuation has a mark of its own key less than 7200 seconds old, written by a payer that is no continuation itself |
| `DownloadLicence.LosingMarksOnlyCharges` | backend/app/services/transfer_activity.py:252-271 | losing marks can only turn a free request into a charged one |
| `DownloadBacking.FreeTransfersAreBacked` | backend/app/routers/files.py:447-478 | unless a commit fails after its mark was stored, every free continuation has a committed record that covers it or a payer of its key about to commit one |
| `DownloadBacking.TakenBackPaymentFrees` | backend/app/routers/files.py:447-478 | a concrete run in which such a commit fails and a continuation is served free with no record and the budget full |
| `DownloadLicence.LiveMarkIsALicence` | backend/app/routers/public.py:617-642 | a live mark read under a key was written by a payer of that very key |
| `DownloadLicence.RecordIsALicence` | backend/app/services/file.py:459-482 | an accepted durable record goes back to a charge that covers the request |
| `DownloadRecords.CommitAppendsRows` | backend/app/routers/files.py:650-685 | a commit appends one download_log row for each file, in order, with the user on the signed-in routes, and one audit record, and touches nothing else |
| `DownloadRecords.PaymentsAreLogged` | backend/app/routers/files.py:453-478 | in every interleaving each served payment has an audit record, each audit record a row for each of its files, and there is no other row |
| `DownloadRecords.PaymentFreesItsKey` | backend/app/services/transfer_activity.py:238-271 | a payment whose mark was stored frees every continuation of its key within two hours, whatever runs in between, unless that mark is lost |
| `DownloadRecords.RecordFreesItsFiles` | backend/app/routers/files.py:397-411 | a committed payment of a signed-in user frees every continuation of its files, and of its archive, within the credit time, with all marks gone |
| `DownloadRecords.MustPayExactly` | backend/app/routers/files.py:397-417 | who has to pay: no continuation with a live mark or a recent record of its own, and no size probe on a single-file route |
| `DownloadHandler.HandlerIsARun` | backend/app/routers/files.py:397-478 | one request run alone has the outcome its steps have in the interleaved system |
| `DownloadHandler.DownloadServer.Download` | backend/app/routers/files.py:397-478 | the whole request computes that outcome: a free or refused one changes nothing, one that fails leaves only its mark, and a paid one takes a unit of a limited budget, adds its audit record and one download_log row per file, in order; refused exactly when a limited budget is empty |
| `DownloadHandler.DownloadServer.TryDecrement` | backend/app/services/share.py:1483-1505 | takes one unit exactly when one is left |
| `PaidKeys.RenderInjective` | backend/app/routers/public.py:299 | without ':' in ids, equal mark strings mean the same payer, route and resource |
| `PaidKeys.RenderIs` | backend/app/routers/files.py:397 | the key strings of the five routes |
| `PaidKeys.ColonsCollide` | backend/app/routers/public.py:299 | with ':' two links can share one string |
| `UnlockCookie.DecodeEncode` | backend/app/routers/public.py:83-89 | unpadded base64url (section 5 of RFC 4648) decodes back through the padding rule, and holds no '.' |
| `UnlockCookie.DecodeRefuses` | backend/app/routers/public.py:87-89 | a lone symbol and text that is not ASCII do not decode; characters outside the alphabet are skipped |
| `UnlockCookie.EncodesVectors` | backend/app/routers/public.py:83-84 | the encoding gives the first three vectors of section 10 of RFC 4648, without their padding |
| `UnlockCookie.SignedCookie` | backend/app/routers/public.py:106-125 | any payload under any signature is accepted exactly when the signature is its own and it names this link and a later expiry |
| `UnlockCookie.MintedCookie` | backend/app/routers/public.py:92-125 | a minted cookie verifies exactly for its link while the whole-second expiry is later than now |
| `UnlockCookie.UnlockIsBounded` | backend/app/routers/public.py:236-238 | an unlock opens this link only, for 86400 seconds, and never past the share's end |
| `UnlockCookie.UnlockIsExact` | backend/app/routers/public.py:236-238 | a minted unlock opens exactly its link, exactly until the whole second of a day later or of the share's end |
| `UnlockCookie.LockedWithoutCookie` | backend/app/routers/public.py:128-133 | a link without a password is open; with one, no cookie, an empty one and one without a signature leave it closed |
| `SessionHooks.ExactlyOneFate` | backend/app/database.py:58-114 | over any registrations, commits and rollbacks, each thunk is pending once or was fired or dropped once |
| `SessionHooks.CommitDecides` | backend/app/database.py:97-109 | a commit drops each compensation and fires each side effect once, in registration order, position by position in the history; what they register waits |
| `SessionHooks.RollbackDecides` | backend/app/database.py:84-114 | a rollback fires each compensation once, in order, and then drops every side effect, those just registered included |
| `SessionHooks.RegistrationMeans` | backend/app/database.py:58-114 | a thunk of run_after_commit is fired by a commit and dropped by a rollback; one of run_after_rollback the other way round |
| `SessionHooks.FirstBoundaryDecides` | backend/app/database.py:58-114 | the same over a run: the first commit or rollback after a registration decides it, whatever was registered in between |
| `SessionHooks.FiredThunksLeaveTheirs` | backend/app/database.py:84-114 | what waits after a commit is exactly what its side effects registered, list by list and in order; after a rollback exactly the compensations its compensations registered |
| `SessionHooks.Session.AfterCommit` | backend/app/database.py:97-109 | the listener computes the commit's effect, whatever the thunks raise |
| `SessionHooks.Session.AfterRollback` | backend/app/database.py:84-114 | the two listeners together compute the rollback's effect |
| `EmailMigration.EveryRunConverges` | backend/alembic/versions/202605031600_email_plaintext.py:45-140 | over any crashes, replays and later edits of any of the three tables no statement is refused, and at its end the schema is the intended one |
| `EmailMigration.RowsSurvive` | backend/alembic/versions/202605031600_email_plaintext.py:57-119 | over any crashes and replays every table keeps its rows; at the end a filled e-mail is the one that was there and a NULL one is the placeholder text with the row's id |
| `EmailMigration.EventKeepsRows` | backend/alembic/versions/202605031600_email_plaintext.py:57-140 | each statement, crash and replay keeps the rows of each table |
| `EmailMigration.DecimalSpells` | backend/alembic/versions/202605031600_email_plaintext.py:66-71 | the id in a placeholder is its decimal digits, with no leading zero |
| `EmailMigration.Terminates` | backend/alembic/versions/202605031600_email_plaintext.py:45-140 | from any state a run can be in, finitely many statements reach the end |
| `EmailMigration.NeverRefused` | backend/alembic/versions/202605031600_email_plaintext.py:62-91 | NOT NULL finds no NULL, UNIQUE finds no duplicate, and the column drop finds no index |
| `EmailMigration.PlaceholderInjective` | backend/alembic/versions/202605031600_email_plaintext.py:66-71 | two rows of a table never get the same placeholder |
| `EmailMigration.FinalIsStable` | backend/alembic/versions/202605031600_email_plaintext.py:57-140 | replaying a finished revision, whole or in part, changes nothing |
| `EmailMigration.Revision.Upgrade` | backend/alembic/versions/202605031600_email_plaintext.py:45-140 | the guarded statements run to the configuration the step system ends in; every row is still there, filled e-mails as they were and NULL ones with their placeholder text; over a finished schema nothing changes |
| `EmailMigration.Revision.DropIndexes` | backend/alembic/versions/202605031600_email_plaintext.py:39-42 | the loop drops the indexes on the hash column one by one |
| `RichTextMigration.FinishedMeansRenderedOnce` | backend/alembic/versions/202606130001_richtext_html.py:96-139 | after any crashes, at the end each template's HTML is the rendering of its Markdown, each of the four legal values that was not blank is its one rendering, and every other value is as it was |
| `RichTextMigration.NeverRenderedTwice` | backend/alembic/versions/202606130001_richtext_html.py:96-139 | at every moment before the marker a legal value is its original or one rendering of it |
| `RichTextMigration.MarkerProtects` | backend/alembic/versions/202606130001_richtext_html.py:97-103 | once the marker is committed, no replay changes a legal value, whatever it contains |
| `RichTextMigration.ConvertedTwice` | backend/alembic/versions/202606130001_richtext_html.py:57-58 | converting twice is converting once exactly when the rendering is recognised or renders to itself |
| `RichTextMigration.SniffIs` | backend/alembic/versions/202606130001_richtext_html.py:57-58 | the sniff skips leading whitespace, ignores case, accepts the listed tags and nothing that starts otherwise |
| `RichTextMigration.StepsUpgrade` | backend/alembic/versions/202606130001_richtext_html.py:70-139 | an uninterrupted run of the steps reaches the upgraded database; HTML that was there stays and NULL becomes the rendering of the Markdown |
| `RichTextMigration.Settings.Upgrade` | backend/alembic/versions/202606130001_richtext_html.py:70-139 | the loops over rows and keys compute the upgraded database: HTML that was there stays, NULL becomes the rendering of the Markdown, and without the marker each legal value that is not blank and not HTML is rendered |
| `SecretRotation.StoreConverges` | backend/scripts/rotate_jwt_secret.py:210-332 | a second run changes and rotates nothing and counts the same errors |
| `SecretRotation.TableConverges` | backend/scripts/rotate_jwt_secret.py:167-183 | after one pass every readable field decrypts under the new key to its plaintext and any other is unchanged |
| `SecretRotation.TallyPartitions` | backend/scripts/rotate_jwt_secret.py:156-164 | the four counts partition the rows |
| `SecretRotation.TallyCounts` | backend/scripts/rotate_jwt_secret.py:156-164 | each count is the number of rows of its class |
| `SecretRotation.RewrapMeaning` | backend/scripts/rotate_jwt_secret.py:132-153 | what one field becomes, for old-key, new-key, empty and unreadable values |
| `SecretRotation.RotateField` | backend/scripts/rotate_jwt_secret.py:132-153 | the two-key attempt: rotated exactly if the current key opens it, already exactly if only the next one does, an error if neither does, and what a rotated field holds |
| `SecretRotation.RotateTable` | backend/scripts/rotate_jwt_secret.py:167-183 | the in-place loop rotates the table and counts it, or raises at the first text that is not ASCII |
| `SecretRotation.Vault.RotateSecrets` | backend/scripts/rotate_jwt_secret.py:186-332 | exit 2 exactly for an empty or repeated secret, an exception exactly for text that is not ASCII, exit 1 exactly if some field is opened by neither key; what each field becomes; a dry run, unusable secrets or an exception leave the whole store unchanged |
| `Text.SplitJoin` | docker/updater-executor/run.py:979 | splitting inverts joining when no part holds the separator |
| `Text.SplitUnlines` | docker/updater-executor/run.py:288-298 | splitting written lines gives those lines |
| `Text.StripIs` | docker/updater-executor/run.py:265 | stripping removes the surrounding whitespace and nothing else |

## Left out

- JSON encoding, log lines, warnings, phases, disk sizing, image signatures (one step with the pull) and container-drift texts.
- What docker, git, SQL, Redis, the file system and HTTP do beyond their results; `git merge --ff-only` refuses when a file is in its way and otherwise replaces the files that differ; the content of the index and conflicts of files with directories are not modelled.
- Job options other than in validated form; a missing `action` is `None`.
- Exceptions other than that of `write_current_tag`, such as a docker binary that cannot be run.
- Which characters are decimal digits (any set without whitespace); image name normalisation; the health budget per service.
- Abandoned `.partial-*` directories, which retention also removes.
- The file-system checks ahead of a fast-forward, which are one answer of the survey.
- Range syntax (section 14.2 of RFC 9110): partial, probe and review are properties of a request.
- The refusals ahead of a charge (access, maintenance, file state, a spent link), which are one step that may happen at any point before it.
- Edits of a share's or link's limit while downloads run, and quota, scanning and ZIP layout.
- The file preview route, except that it writes marks of its own that no download accepts.
- Thunks that themselves commit or roll back the session, and interrupts that are not ordinary exceptions.
- The SQLite dialect of the two revisions, a primary key on the hash column, and case-insensitive collation of e-mail addresses.
- Fernet, HMAC and JSON are functions with the laws they are used for; nothing is claimed about their strength.
- An unlock cookie whose signed payload is not a JSON object, which only the holder of the secret could make.
- Executor.Executor.TakeBackup: the dump, the snapshot, the space check and the clean-up of a partial directory are one answer.
- Executor.Executor.RecreateInfra: the log holds the observation its wait ended at, not the whole stream of polls.
- EmailMigration.Revision.DropIndexes: supposes that the hash column is not part of the primary key, which the loop would skip.
- SchemaRuns.JobKeepsSchema: supposes that a version resolved from a floating tag is that of a backend running on this database.
