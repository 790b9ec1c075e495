# Verification of the iMessage index's host-sharing and data-safety code

This project models, in Dafny, the parts of the iMessage index that decide
whether many processes can share one machine safely, and the smaller parts
whose promises are about not losing or changing data. It proves what those
parts promise, over every run of their state machines or every input, and
where a promise fails it gives the run or input and the exact condition under
which the promise holds.

`dafny verify dfyconfig.toml` checks the whole project.

## What is modelled

**Memory arbitration.** Live MCP servers and background jobs (`embed`,
`segment`, `sync`, `enrich`) share one host's memory.

- `MemoryAdmission.dfy`: the admission rule, the reservations directory
  (`ReservationBook`) and one process's check (`Admission`).
- `AdmissionProtocol.dfy`: the host as a transition system. A check is not one
  step: it locks, measures, lists, reads each reservation and footprint, probes
  each notice, decides, settles and unlocks, and every other process's loads,
  unloads, releases, deaths, new processes, reused pids, notices and watchdog
  ticks interleave between those steps.
- `AdmissionSafety.dfy`: no over-promising, as an inequality that holds in
  every run, with a debt that bounds what was taken from outside, set aside or
  missed. `AdmissionOverPromise.dfy`: exactly what a run must not do for the host
  never to be over-promised, with the run, from any host, for each.
- `AdmissionNotices.dfy`: what a live server's notice does while it is up, what
  takes it down, until when background promises hold the server off, and the
  whole bounded wait. `AdmissionReload.dfy`: the notice a
  reload posts outside the admission lock, exactly when a check in flight
  overtakes it, and the run in which a second reason makes the server forget
  the first.
- `LiveServer.dfy`: the notice and `LiveServerAdmission` as the classes they
  are, each method tied to the protocol's step on the server's view.
- `NoticeFiles.dfy`, `NoticeSafety.dfy`, `NoticeRaces.dfy`: the notice files
  system call by system call (create, lock, rename, compare, unlink, close,
  probe, sweep, death, unlink failure), with linearizability of probes, exactly
  what a sweep's and a withdrawal's unlink can take down, and exactly which
  promises about a run keep every notice up.
- `SharedNotices.dfy`, `SharedNoticeRaces.dfy`: the admission protocol over those
  files, a check's listing and probing being system calls on them, and exactly
  which promises about the files make a posted notice hold background work back.

**The heavy lock.** `HeavyLock.dfy` is the two-file lock system call by system
call, with queueing and yielding commands, `imsg status` looking on, and kills,
and says when a command is refused and that one that waits is not;
`HeavyLockOrder.dfy` says who can get past whom and how every wait can end, and `HeavyLockDetails.dfy` whose
details the file carries. `HeavyLockRegistry.dfy` is the re-entrancy registry of
one process, as classes.

**Background commands.** `BackgroundGate.dfy` and `HeavySteps.dfy` are the
gate's questions and the lock and reservation discipline of `segment`, `embed`
and `sync`, over a trace of what each process did, its loading and dropping of
models included. `HeavyUnits.dfy` says what a step's trace is made of: how it
begins, and its units, each on the gate's go.

**DDL scanners.** `DdlText.dfy` says what the three hand-written scanners
compute and proves their laws; `DdlCounts.dfy` says where they cut and match, and
what they keep, by counting characters; `DdlLint.dfy` has the scanners as the
loops they are, proved to compute that.

**Smaller cores.** `LogRotation.dfy` is log rotation as it runs,
`RotationSteps.dfy` the same step by step, with a kill or failure between any
two of them; every copy of the first is proved to be a run of the second.
`OffsiteCopy.dfy`, `MlxRuntime.dfy` and `TextNorm.dfy` are one file each.

History values (`debt`, `drift`, `entitled`, `sawDown`, `renamed`, `seen`,
`ledger` and the like) record what happened and are read by no modelled step.

## Where the promises need a condition

- **No over-promising.** From a fresh host, no run over-promises if and only if
  nothing else takes memory, no promise is set aside, and no load lands in a
  check's window, between its reading of the host and its reading of the loader's
  footprint (`AdmissionOverPromise.NothingIsOverPromisedExactlyWhen`). Such a load
  is counted twice, as available and as no longer promised: from every host, for
  every process entitled to `n` bytes more, there is a run with nothing else amiss
  that ends exactly `n` bytes short
  (`AdmissionOverPromise.LoadInTheWindowOverPromises`). With the missed bytes
  counted as debt the inequality holds in every run
  (`AdmissionSafety.EveryRunIsCovered`).
- **A reload's notice.** `release_for_reload` posts outside the admission lock.
  While its notice is up no background process gains a reservation, in any run,
  if and only if no check in flight overtakes it: one that listed the notices
  too early, found none of the others up, has seen room, and would be its
  process's first background reservation
  (`AdmissionReload.ReloadHoldsBackExactlyWhen`). One that does is admitted in
  some run with the notice up throughout (`AdmissionReload.ReloadCanBeOvertaken`).
- **Admitted past background.** A refused check makes the server forget that
  background jobs were loaded past. In a run without one of the designed ways out
  the notice stays up if and only if no tick comes a lapse or more after a refusal
  that neither an admission nor a reload has followed
  (`AdmissionNotices.PastBackgroundLastsExactlyWhen`); reloads alone never bring it
  down (`AdmissionNotices.PastBackgroundLasts`). From every host with such a notice
  up, a background job running and no check in flight, such a run exists
  (`AdmissionReload.SecondReasonForgetsTheFirst`).
- **Failed measurements.** A check that cannot measure settles nothing, so a
  server whose every check fails to measure loses its notice at the lapse,
  however often it tries (`AdmissionNotices.UnmeasuredChecksLapse`).
- **Sweeping and posting notices.** No notice that a live server means to be up
  is lost, in any run, if and only if three things are promised of the run:
  posting and withdrawing exclude each other within a process, no process starts
  under a pid whose notice is still there or being swept, and no withdrawal fails
  to unlink (`NoticeRaces.NothingIsLostExactlyWhen`). A sweep takes down only a
  notice renamed in after its comparison, and then does
  (`NoticeSafety.SweepTakesDownOnlyTheRenamed`,
  `NoticeSafety.SweepTakesDownTheRenamed`).
- **Notices and admission together.** A notice that no check in flight has passed
  by holds background work back, in every run through which its server knows it
  to be up and however the check's probes interleave with posts, withdrawals and
  sweeps, if and only if those three promises are kept
  (`SharedNoticeRaces.NoticesHoldBackExactlyWhen`).
- **Posting from any thread.** `LiveServerNotice` documents `post` and
  `withdraw` as safe from any thread. A withdrawal unlinks outside its own guard:
  it takes down a notice its process means to be up if and only if one was
  renamed in since it compared the old file
  (`NoticeSafety.WithdrawalTakesDownExactlyTheRenamed`), and from every reachable
  state with a notice up two threads can lose one
  (`NoticeRaces.WithdrawalLosesANewNotice`). Only `LiveServerAdmission`'s guard
  makes the pair safe.
- **Models of a deferred `sync` step.** A stopped S4 lets go of reservation and
  lock before it drops the boundary model: its models are in memory under lock and
  reservation throughout if and only if it is not deferred after loading them
  (`HeavySteps.SyncHeavySteps.SegmentStep`). In between another command may load
  its own (`HeavySteps.TwoModelSets`). S6 drops them first
  (`HeavySteps.SyncHeavySteps.EmbedStep`).
- **Waiting commands go first.** A waiting command is protected exactly while it
  is in the waiting file: while it stays where it is, a yielding command that has
  not passed its re-check can take the lock if and only if the other is queued
  behind somebody or not in the file yet (`HeavyLockOrder.OvertakenExactlyWhenQueued`).
- **`--no-wait`.** `imsg status` alone makes a `--no-wait` command report busy
  (`HeavyLock.BusyExactlyWhen`). A command that waits never does
  (`HeavyLock.WaitsUntilServed`).
- **Holder details.** In every run, the details in the file are those of the
  present hold if and only if their writer has, since it wrote them, neither been
  killed nor failed to blank them
  (`HeavyLockDetails.TextNamesHolderExactlyWhen`). After a kill, a reader is told of
  the new holder by the dead one's name until the new one writes
  (`HeavyLockDetails.KilledHolderIsStillNamed`).
- **Clause lists.** Joining `_split_top_level`'s parts and splitting again
  gives the same parts exactly when there are none or the last is not empty
  (`DdlText.PartsComeBackExactlyWhen`).
- **Log retention.** An over-age generation outlives a run exactly when its log
  was rotated in that run and the shift dropped a generation `keep` to put it
  there (`LogRotation.OverAgeSurvivesExactlyWhen`).
- **Killed rotations.** A rotation empties the log before the copy has its final
  name. A kill or failure costs nothing before the truncate or after the rename,
  and in between all that the log held, since nothing ever reads the staging file
  back (`RotationSteps.KillLosesExactlyWhen`, `RotationSteps.StagingIsNeverRecovered`).
  A kill within the shift of the older generations makes the next rotation drop the
  next oldest as well, exactly if that one had already moved
  (`LogRotation.KilledShiftDrops`).
- **Stale `.partial` directories.** The off-site script documents that stale
  `.partial` leftovers are deleted. One that already holds the manifest is in
  neither list and stays (`OffsiteCopy.ApplyRetention`).
- **Idempotent normalization.** `normalize_text` documents that normalizing
  twice is normalizing once. That is so exactly when dropping the variation
  selectors from the NFC form of the input leaves text in NFC
  (`TextNorm.IdempotentExactlyWhen`); `e`, U+FE0F, U+0301 is an input for which
  it is not (`TextNorm.NotAlwaysIdempotent`).

## Model

| member | source | states |
|---|---|---|
| `MemoryAdmission.EveryPromiseCountsOrIsSetAside` | src/imsg/memory_admission.py:704-715 | Every untaken promise a check saw either counts against the load or is set aside, never both, never neither: the two sums add up to all of them. |
| `MemoryAdmission.SetAsideExactly` | src/imsg/memory_admission.py:704-714 | Only a live load past the yield time sets anything aside, and then exactly the untaken promises of background jobs. |
| `MemoryAdmission.AdmittedExactlyWhen` | src/imsg/memory_admission.py:542-581 | The rule both ways: admitted if and only if pressure is allowed and not critical, no live server waits (for a background load), and available memory covers the load, the reserve and every promise that cannot give way; a refusal always has a cause. |
| `MemoryAdmission.RefusedExactlyFor` | src/imsg/memory_admission.py:542-581 | Each cause both ways: pressure first, then a waiting live server (for a background load), then memory; an unmeasured refusal is no measured check's. |
| `MemoryAdmission.RunningFileIsSeen` | src/imsg/memory_admission.py:350-371 | A running process's readable file is always reported, with the promise its footprint leaves (an unreadable footprint counts as nothing held). |
| `MemoryAdmission.ReservationBook.Others` | src/imsg/memory_admission.py:350-371 | Reports exactly the running others in listing order, and removes exactly the files of gone processes and unreadable files the filesystem lets go of. |
| `MemoryAdmission.ReservationBook.Write` | src/imsg/memory_admission.py:378-399 | Replaces this process's file in one step, or fails and leaves the directory as it was. |
| `MemoryAdmission.ReservationBook.Remove` | src/imsg/memory_admission.py:401-403 | Removes this process's file only, or suppresses the filesystem's refusal. |
| `MemoryAdmission.Admission.Check` | src/imsg/memory_admission.py:683-746 | Decides by the rule on what it read; a failed measurement, unreadable notices or a failed write is an unmeasured refusal that settles nothing; a yes leaves the reservation, and no running process's file is touched. |
| `AdmissionSafety.FreshHostIsCovered` | src/imsg/memory_admission.py:575-581 | A host with the reserve available and no model process running satisfies the invariant, whatever files were left behind. |
| `AdmissionSafety.DeathKeepsCover` | src/imsg/memory_admission.py:366-369 | A process's death, at any moment of any check, keeps both the host-wide and the in-flight inequality. |
| `AdmissionSafety.SpawnKeepsCover` | src/imsg/memory_admission.py:350-371 | So does a new process, even under a pid whose last owner left a reservation. |
| `AdmissionSafety.ReadingKeepsCover` | src/imsg/memory_admission.py:370-371 | Reading one reservation and footprint moves that promise from unread to counted without loss. |
| `AdmissionSafety.AdmissionFindsRoom` | src/imsg/memory_admission.py:716-727 | A yes means the host really has room for the load, the reserve and every other promise in force, up to what was set aside and what the check could not see. |
| `AdmissionSafety.AdmissionRestoresCover` | src/imsg/memory_admission.py:727-737 | An admission makes good whatever was owed: afterwards the debt is only its own drift and what it set aside. |
| `AdmissionSafety.StepKeepsInv` | src/imsg/memory_admission.py:683-746 | Every step of every process keeps the invariant. |
| `AdmissionSafety.EveryRunIsCovered` | src/imsg/memory_admission.py:511-581 | In every run available memory plus the debt covers the reserve and every promise in force. |
| `AdmissionSafety.NoOverPromising` | src/imsg/memory_admission.py:256-259 | In every run in which nothing else takes memory, no promise is set aside and no load lands in a check's window before its own reading, available memory alone covers the reserve and all untaken promises. |
| `AdmissionOverPromise.LoadInTheWindowOverPromises` | src/imsg/memory_admission.py:701-702 | From every well-formed host, for every process entitled to `n` bytes more, there is a run whose only unquiet step is its `n`-byte load in a check's window and that ends exactly `n` bytes short. |
| `AdmissionOverPromise.SettingAsideOverPromises` | src/imsg/memory_admission.py:704-737 | From every host with a background process entitled to more than it has taken, there is a run whose only unquiet step is one live decision and that ends short by exactly what is owed to background processes. |
| `AdmissionOverPromise.EndsExactlyShort` | src/imsg/memory_admission.py:716-737 | A check that sees all there is and asks for all that is left is granted, and the host ends short by exactly its drift and what it set aside. |
| `AdmissionOverPromise.NothingIsOverPromisedExactlyWhen` | src/imsg/memory_admission.py:256-259 | From every fresh host: all its runs keep the reserve and all untaken promises covered if and only if outside takers, set-aside promises and loads in a check's window are all ruled out. |
| `AdmissionNotices.BackgroundOnlyShrinks` | src/imsg/memory_admission.py:714-716 | While a notice stays up, no background process gains a reservation: those in force only go away. |
| `AdmissionNotices.SettlingHoldsBack` | src/imsg/memory_admission.py:738-740 | A notice posted under the admission lock holds back every later background check. |
| `AdmissionNotices.PastBackgroundHoldsThemToWhatTheyHave` | src/imsg/memory_admission.py:870-878 | From an admission past background promises until the notice comes down, background reservations in force only shrink. |
| `AdmissionNotices.ComesDownExactlyWhen` | src/imsg/memory_admission.py:899-929 | A notice comes down by its owner's death or release, an admission that sets nothing aside, or a tick whose reason has passed, and by nothing else. |
| `AdmissionNotices.PastBackgroundLasts` | src/imsg/memory_admission.py:913-937 | After an admission past background, the notice stays up through any run without one of the designed ways out and without a refusal, reloads included. |
| `AdmissionNotices.PastBackgroundLastsExactlyWhen` | src/imsg/memory_admission.py:906-937 | In any run without one of the designed ways out, the notice stays up throughout if and only if no tick comes a lapse or more after a refusal that neither an admission nor a reload has followed. |
| `AdmissionNotices.NoticeKeepsItsAge` | src/imsg/memory_admission.py:876-878 | A server whose measured checks come less than the lapse apart keeps its notice, and the notice its age. |
| `AdmissionNotices.HoldOffIsBounded` | src/imsg/memory_admission.py:857-883 | Once the notice is as old as the yield time, the server's next check admits exactly when pressure allows and memory covers its models, the reserve and other live servers' promises, whatever background jobs hold. |
| `AdmissionNotices.BackgroundCountsExactlyUntilTheYield` | src/imsg/memory_admission.py:857-883 | In every run in which a live server's check goes on to its decision: begun with no notice up, or with one younger than a positive yield time, it sets nothing aside and is admitted only with room for every promise; begun later, exactly the background promises are set aside. |
| `AdmissionNotices.SettlingLeaves` | src/imsg/memory_admission.py:870-878 | A refusal is noted and posted as waiting, an admission past background jobs is posted as that, any other takes the notice down; a notice already up keeps its age. |
| `AdmissionNotices.TickLeaves` | src/imsg/memory_admission.py:913-937 | A tick forgets the server's wait when its reason has passed, and changes nothing otherwise. |
| `AdmissionNotices.ReleasingLeaves` | src/imsg/memory_admission.py:899-911 | A reload's release posts for that reason, keeping the age of a notice already up; any other takes the notice down. |
| `AdmissionNotices.SpawnLeaves` | src/imsg/memory_admission.py:350-371 | A new process has taken and is owed nothing, whatever file its pid left, and a new server waits for nothing. |
| `AdmissionNotices.ReadingLeaves` | src/imsg/memory_admission.py:350-371 | In the protocol too, a check removes a dead process's file and reports every other process's with its footprint, if that can be read. |
| `AdmissionNotices.CheckEnds` | src/imsg/memory_admission.py:683-746 | However a check ends, failures included, the admission lock is free and its process may ask again. |
| `AdmissionNotices.WaitIsBounded` | src/imsg/memory_admission.py:857-883 | From the refusal that posts the notice, through any run in which the server keeps trying, to the check it begins once the yield time has passed: that check is admitted exactly when there is room for all but background promises. |
| `AdmissionNotices.UnmeasuredChecksLapse` | src/imsg/memory_admission.py:742-746 | If no check settles, a tick keeps the notice if and only if less than the lapse has passed since the last settled refusal, however many failed checks came since. |
| `AdmissionReload.ReloadHoldsBackExactlyWhen` | src/imsg/memory_admission.py:906-911 | Over all runs with the reload's notice up: background reservations in force only shrink if and only if no check in flight has listed the notices without it, found no other up, seen room, and asks for a process that holds no background reservation yet. |
| `AdmissionReload.ReloadCanBeOvertaken` | src/imsg/memory_admission.py:906-911 | With a notice up, any such check is admitted in some run through which the notice stays up. |
| `AdmissionReload.SecondReasonForgetsTheFirst` | src/imsg/memory_admission.py:906-937 | From every host with a notice up for an admission past background jobs, one of them running and no check in flight, a run without any of the designed ways out ends with the notice down and the job still running. |
| `LiveServer.NoticesDirectory.WaitingLiveServers` | src/imsg/live_server_notice.py:132-150 | Exactly the posted notices, in pid order. |
| `LiveServer.NoticesDirectory.SweepStale` | src/imsg/live_server_notice.py:161-184 | Removes exactly the notices nobody holds, except its own and those the filesystem keeps. |
| `LiveServer.LiveServerNotice.Post` | src/imsg/live_server_notice.py:228-251 | Idempotent; up and locked on success, as before on failure, the posting time kept if already up, and no other posted notice disturbed. |
| `LiveServer.LiveServerNotice.Withdraw` | src/imsg/live_server_notice.py:253-267 | Idempotent; afterwards the notice is not posted even if its file could not be unlinked. |
| `LiveServer.LiveServerNotice.PostedFor` | src/imsg/live_server_notice.py:221-226 | The time since posting, never negative, and known exactly while the notice is up. |
| `LiveServer.LiveServerAdmission.BackgroundPromisesCount` | src/imsg/memory_admission.py:857-863 | They count exactly while the yield time is positive and the notice is down or younger than it. |
| `LiveServer.LiveServerAdmission.Settle` | src/imsg/memory_admission.py:870-878 | Moves the server's view by the protocol's settle step. |
| `LiveServer.LiveServerAdmission.Check` | src/imsg/memory_admission.py:865-883 | A measured check decides by the rule, with background promises counted exactly while the yield time is positive and the notice is down or younger than it, and settles; any other refuses and leaves cause, notice and time of refusal alone. A yes leaves this server's reservation in the book, and no running process's file is touched. |
| `LiveServer.LiveServerAdmission.Release` | src/imsg/memory_admission.py:899-904 | The server's own reservation and its notice go, every other reservation stays. |
| `LiveServer.LiveServerAdmission.ReleaseForReload` | src/imsg/memory_admission.py:906-911 | The server's own reservation goes, every other stays, and the notice goes up, its cause set even if posting fails. |
| `LiveServer.LiveServerAdmission.Tick` | src/imsg/memory_admission.py:913-937 | Moves the view by the protocol's tick, with "a background job runs" decided by the reservations and true when they cannot be read. |
| `LiveServer.LiveServerAdmission.Post` | src/imsg/memory_admission.py:941-951 | The cause is set either way; the notice is up if it was or if the filesystem allows. |
| `LiveServer.LiveServerAdmission.Withdraw` | src/imsg/memory_admission.py:953-956 | Cause, time of refusal and notice all go. |
| `NoticeSafety.EveryRunKeepsInv` | src/imsg/live_server_notice.py:161-267 | Every interleaving of posts, withdrawals, probes, sweeps, deaths and failures keeps the notice invariant. |
| `NoticeSafety.VisibleMeansLockedOrLeft` | src/imsg/live_server_notice.py:228-267 | Every visible notice is locked by the live process of its name, or left by a dead one, or by a withdrawal whose unlink failed. |
| `NoticeSafety.PosterIsNeverRefused` | src/imsg/live_server_notice.py:240-245 | The non-blocking lock of a freshly made notice is always granted, whatever readers and sweepers do. |
| `NoticeSafety.PostedIsNotRenamedOver` | src/imsg/live_server_notice.py:231-245 | A posted notice is never replaced by a rename. |
| `NoticeSafety.ProbesAreCurrentKept` | src/imsg/live_server_notice.py:113-129 | A probe in flight either has had its notice down at some moment or is looking at the posted file itself, in every step. |
| `NoticeSafety.PostedAnswerIsTrue` | src/imsg/live_server_notice.py:122-125 | A probe answers "posted" only at a moment when the notice's own live process holds its lock. |
| `NoticeSafety.ProbeAnswers` | src/imsg/live_server_notice.py:113-129 | A probe says "posted" exactly if the file it opened is locked, else "none", and disturbs neither names nor exclusive locks. |
| `NoticeSafety.NoneAnswerIsTrue` | src/imsg/live_server_notice.py:117-127 | A probe that answers "none" overlaps a moment when the notice was not posted. |
| `NoticeSafety.DownAtSomeMoment` | src/imsg/live_server_notice.py:113-129 | What the history records did happen: it names the event of the run after which the notice was down. |
| `NoticeSafety.SweepTakesDownOnlyTheRenamed` | src/imsg/live_server_notice.py:175-182 | A sweep's unlink takes a posted notice down only if it was renamed in after the comparison. |
| `NoticeSafety.SweepTakesDownTheRenamed` | src/imsg/live_server_notice.py:179-180 | And then it does take it down, with its owner still meaning it to be up. |
| `NoticeSafety.WithdrawalTakesDownExactlyTheRenamed` | src/imsg/live_server_notice.py:253-267 | In every interleaving, a withdrawal's unlink takes down a notice its process means to be up if and only if it succeeds, its comparison had found the old file, and the notice was renamed in since. |
| `NoticeSafety.WithdrawalTakesDownTheRenamed` | src/imsg/live_server_notice.py:253-267 | Any notice renamed in between a withdrawal's comparison and its unlink does go, with its process meaning it to be up. |
| `NoticeSafety.NoNoticeIsLost` | src/imsg/live_server_notice.py:153-267 | With posting and withdrawing excluding each other, no left pid coming back and no failed unlink, every notice a live server means to be up is visible and locked by it, in every run. |
| `NoticeRaces.SweepLosesALiveNotice` | src/imsg/live_server_notice.py:161-184 | From every reachable state with a file left under a running server's own pid, any other process's sweep can take down the notice that server posts next. |
| `NoticeRaces.WithdrawalLosesANewNotice` | src/imsg/live_server_notice.py:253-267 | From every reachable state with a notice up, if posting and withdrawing may overlap, there is a run in which one thread's withdrawal takes down the notice another has just posted. |
| `NoticeRaces.PidComesBack` | src/imsg/live_server_notice.py:153-184 | A server's death and a new process under its pid leave a file under a running process's pid, from every reachable state with the notice up. |
| `NoticeRaces.UnlinkFails` | src/imsg/live_server_notice.py:253-267 | So does a withdrawal whose unlink fails. |
| `NoticeRaces.NothingIsLostExactlyWhen` | src/imsg/live_server_notice.py:153-267 | No notice a live server means to be up is lost in any reachable state if and only if all three are promised: guarded posting, no left pid coming back, no failed unlink. |
| `SharedNotices.RunKeepsSound` | src/imsg/live_server_notice.py:132-267 | Host and notice files together, in every run that keeps the three promises: the files' invariants hold, and a server knows its notice to be up exactly while it holds the file. |
| `SharedNotices.UpIsThere` | src/imsg/live_server_notice.py:228-251 | What a server knows to be up is then visible and locked. |
| `SharedNotices.AnsweringHolds` | src/imsg/live_server_notice.py:113-129 | A check's probe that has not seen the notice down answers that it is up, so the check does not pass it by. |
| `SharedNotices.AnswersOnce` | src/imsg/live_server_notice.py:132-150 | A listed name counts as a waiting server's exactly if the file opened under it is locked by then; one that is not there does not. |
| `SharedNotices.BackgroundOnlyShrinks` | src/imsg/memory_admission.py:714-716 | While a server knows its notice to be up no background process gains a reservation, with the check's listing and probing taken as system calls on the files. |
| `SharedNoticeRaces.RunMirrors` | src/imsg/live_server_notice.py:161-267 | Every run of the notice files is part of a run of host and files. |
| `SharedNoticeRaces.BackgroundGetsPast` | src/imsg/memory_admission.py:714-727 | From every such state in which nobody can see a server's notice, a background check finds nothing and is admitted, with the server knowing its notice to be up throughout. |
| `SharedNoticeRaces.NoticesHoldBackExactlyWhen` | src/imsg/memory_admission.py:714-716 | From every reachable state, a notice no check has passed by holds background work back, in every run with it up to its server's knowledge, if and only if posting is guarded, no left pid comes back and no unlink fails. |
| `HeavyLock.StepKeepsInv` | src/imsg/heavy_lock.py:277-397 | Every system call of every command keeps each command right about which locks it holds, and shared and exclusive apart. |
| `HeavyLock.StartsIdle` | src/imsg/heavy_lock.py:207-222 | A process starts with no lock, and waits and yields as it was made to. |
| `HeavyLock.MutualExclusion` | src/imsg/heavy_lock.py:236-251 | At most one command holds the lock, in every run, kills included. |
| `HeavyLock.WaitsGoDown` | src/imsg/heavy_lock.py:317-341 | Every wait goes from the room's queue to its holder to the lock's holder, who never waits. |
| `HeavyLock.ChainsGoDown` | src/imsg/heavy_lock.py:317-341 | A chain of waits is no longer than that order is deep. |
| `HeavyLock.NoDeadlock` | src/imsg/heavy_lock.py:253-341 | No reachable state has a cycle of waits; the longest chain there can be is reached (`HeavyLock.ChainOfThree`). |
| `HeavyLock.SomeoneCanMove` | src/imsg/heavy_lock.py:253-397 | From every blocked command a chain of waits leads to one that the kernel can grant or that can step by itself. |
| `HeavyLock.ChainOfThree` | src/imsg/heavy_lock.py:317-341 | From every state with the lock held, two commands that wait come to queue one behind the other and both behind the holder. |
| `HeavyLockOrder.NeverOvertaken` | src/imsg/heavy_lock.py:343-367 | A yielding command that had not made its final re-check does not get past it while another is in the waiting file. |
| `HeavyLockOrder.QueuedCommandCanBeOvertaken` | src/imsg/heavy_lock.py:317-367 | From every state of any number of commands, with one announcing itself and a yielding one anywhere before its re-check, there is a run in which the yielding one takes the lock while the other still announces itself. |
| `HeavyLockOrder.OvertakenExactlyWhenQueued` | src/imsg/heavy_lock.py:317-367 | While a waiting command stays where it is, a yielding command that has not passed its re-check can take the lock in some run if and only if the waiting one is not in the waiting file. |
| `HeavyLockOrder.EveryWaitCanBeServed` | src/imsg/heavy_lock.py:317-377 | From every state that keeps the invariant, wherever a command is on its way to the lock, there is a run in which it comes to hold it without giving up. |
| `HeavyLock.BusyExactlyWhen` | src/imsg/heavy_lock.py:322-365 | An attempt fails if and only if some command holds the lock or inspects it; then a `--no-wait` command is refused, one that waits announces itself and one that yields sleeps; otherwise it has the lock, to be re-checked if it yields. |
| `HeavyLock.LooksExactly` | src/imsg/heavy_lock.py:343-365 | A yielding command is turned away before it tries exactly when somebody is in the waiting file. |
| `HeavyLock.RechecksExactly` | src/imsg/heavy_lock.py:356-358 | Once it has the lock it hands it back exactly then. |
| `HeavyLock.HandsBackExactly` | src/imsg/heavy_lock.py:358-365 | Handing back frees the lock and turns the command away in its own way of waiting. |
| `HeavyLock.AsksExactly` | src/imsg/heavy_lock.py:253-267 | Between units a holder learns exactly whether somebody is in the waiting file, and afterwards everything is as it was. |
| `HeavyLock.WaitsUntilServed` | src/imsg/heavy_lock.py:317-367 | In every run a command that waits goes on acquiring until it writes its details in the lock it has taken, is interrupted or is killed: it never reports busy. |
| `HeavyLock.WritingEndsIt` | src/imsg/heavy_lock.py:277-289 | Writing leaves the command holding the lock with its own details in the file, or, if it fails, without the lock. |
| `HeavyLock.InterruptLetsGo` | src/imsg/heavy_lock.py:331-340 | An interrupted command holds neither file. |
| `HeavyLock.ReleaseFrees` | src/imsg/heavy_lock.py:379-397 | A release ends with the lock free for anybody. |
| `HeavyLockDetails.RunKeepsWrittenNamed` | src/imsg/heavy_lock.py:369-377 | A holder that has written its details is the one the file names, in every run. |
| `HeavyLockDetails.InspectsExactly` | src/imsg/heavy_lock.py:131-180 | `imsg status` says held exactly when some command has the lock, names it once it has written its details, and afterwards everything is as it was. |
| `HeavyLockDetails.KillFreeDetailsNameTheHolder` | src/imsg/heavy_lock.py:391-396 | Without kills, details in the file always name the current holder. |
| `HeavyLockDetails.TextNamesHolderExactlyWhen` | src/imsg/heavy_lock.py:369-397 | In every run from any start, when the file carries a command's details, that command holds the lock and wrote them in this hold if and only if it wrote them at some event and has since neither been killed nor failed to blank them. |
| `HeavyLockDetails.KilledHolderIsStillNamed` | src/imsg/heavy_lock.py:164-180 | After a kill the next holder is shown under the dead one's name until it writes. |
| `HeavyLockRegistry.HeavyModelLock.Acquire` | src/imsg/heavy_lock.py:236-251 | Idempotent; succeeds if the process already holds the lock or the kernel grants it, and asks the kernel only for a lock the process does not hold. |
| `HeavyLockRegistry.HeavyModelLock.Release` | src/imsg/heavy_lock.py:379-397 | The `flock` is dropped, and the details blanked, exactly when the last marked object lets go. |
| `HeavyLockRegistry.HeavyModelLock.constructor` | src/imsg/heavy_lock.py:207-222 | A new lock object is not held and changes no path's holders. |
| `HeavyLockRegistry.RunCalls` | src/imsg/heavy_lock.py:189-251 | After any sequence of calls on any objects, an entry exists exactly while the `flock` is held, counts the marked objects, and is there exactly if some object is marked. |
| `BackgroundGate.Gate.Admit` | src/imsg/background_gate.py:180-207 | Terminates; asks about the pause, checks, and sleeps at most `poll` at a time, by turns; sleeps no more than the wait, defers for memory only after all of it, does nothing after a pause, and says go exactly when its last act was a check that left a reservation. |
| `BackgroundGate.Gate.Wait` | src/imsg/background_gate.py:195-207 | The waiting loop keeps that pace and order; a memory deferral comes only after the whole wait. |
| `BackgroundGate.Gate.StopAtOnce` | src/imsg/background_gate.py:238-248 | Stops for a pause first, and for a posted or unreadable notice only once models were admitted. |
| `BackgroundGate.Gate.ReadPressure` | src/imsg/background_gate.py:255-279 | A reading below the stop level lets work go on; one that is critical, unreadable or not to be confirmed stops it; for any other a second one, a confirm interval later, decides. |
| `BackgroundGate.Gate.BetweenUnits` | src/imsg/background_gate.py:250-279 | Asks what stops at once, then the pressure, and stops for exactly those. |
| `BackgroundGate.AnyCalls` | src/imsg/background_gate.py:180-279 | Over any sequence of `admit` and `between_units` calls, the process did exactly what the answers say, and each `between_units` heeds notices by whether an earlier call said go. |
| `BackgroundGate.HeedThroughout` | src/imsg/background_gate.py:238-279 | At every `between_units` of such a sequence: before any admission the notices are not asked about, from one on a posted or unreadable notice, and no other answer, stops it at once. |
| `HeavySteps.SyncHeavySteps.Begin` | src/imsg/cli.py:2309-2330 | After a deferral it refuses with nothing asked; otherwise it asks about the pause, takes the lock unless it has it, waits for memory, in that order, and ends as these answer: with lock and reservation, or with neither and the deferral recorded, or with no reservation and the lock refused. |
| `HeavySteps.RunUnits` | src/imsg/segment/pipeline.py:1229-1245 | The units of a step, each after an answer between units that says go: done exactly after all of them, failed at one that fails, deferred at an answer to stop, with nothing after it. |
| `HeavyUnits.HeavyOnlyOnGo` | src/imsg/segment/pipeline.py:1229-1245 | Every load and every unit comes after an answer that says go, with no other unit in between. |
| `HeavyUnits.EndsExactly` | src/imsg/segment/pipeline.py:1229-1245 | A step that is done has done exactly its units; it is deferred if and only if the last thing it did was to ask, and then some were left. |
| `HeavySteps.SyncHeavySteps.NoteStopped` | src/imsg/cli.py:2332-2335 | Lock and reservation are both gone from that moment of the trace on. |
| `HeavySteps.SyncHeavySteps.ReleaseAdmission` | src/imsg/cli.py:2337-2340 | No reservation remains and the lock is as it was. |
| `HeavySteps.SyncHeavySteps.SegmentStep` | src/imsg/cli.py:2343-2366 | It begins and does its units as above. It ends with no reservation and no models on every path; a deferral sticks, and after one nothing is done; models in memory are under lock and reservation throughout if and only if the step is not deferred after loading them. |
| `HeavySteps.SyncHeavySteps.EmbedStep` | src/imsg/cli.py:2369-2416 | The same, but its models are covered throughout, a deferral included: they go before the reservation and the stop; a dry run does nothing. |
| `HeavySteps.Sync` | src/imsg/cli.py:2468-2498 | Visits each source in turn, S4 and then S6 if S4 is done and this is no dry run, up to the first step that is deferred or fails, and reports that. Ends with no lock, reservation or models; a reservation is held only under the lock throughout; models in memory are covered throughout or a step was deferred; after a deferral no lock, check or heavy work follows. |
| `HeavySteps.HeavyCommand` | src/imsg/cli.py:2133-2191 | It begins and does its units as above, and lets go of everything on every path out, refused admission included, except that it exits with its models: covered throughout if and only if none were loaded. |
| `HeavySteps.DisciplineThroughout` | src/imsg/cli.py:2231-2263 | At every moment of a disciplined trace a reservation implies the lock, and heavy work implies both. |
| `HeavySteps.OneLockHolder` | src/imsg/cli.py:2133-2135 | Over any interleaving and kills of many processes, if the kernel grants the lock to one at a time, at most one holds it. |
| `HeavySteps.AtMostOneReservation` | src/imsg/cli.py:2133-2191 | At most one running `segment`, `embed` or `sync` process has a reservation. |
| `HeavySteps.AtMostOneModelSet` | src/imsg/cli.py:2343-2416 | While every process keeps its models covered, at most one has models in memory, over any interleaving and kills. |
| `HeavySteps.TwoModelSets` | src/imsg/cli.py:2343-2366 | A process that has let go of the lock with its models in memory lets any other load its own, within the discipline: two sets at once. |
| `DdlText.JoinOfPieces` | src/imsg/ddl_lint.py:148-180 | Cutting at top-level separators loses nothing: joining the pieces gives the text back. |
| `DdlText.CleanIsCommentFree` | src/imsg/ddl_lint.py:119-122 | No `--` outside a string survives the statement scanner. |
| `DdlText.CleanKeepsCommentFree` | src/imsg/ddl_lint.py:104-113 | Comment-free text is copied as it is, escaped quotes included. |
| `DdlText.StatementsAreSeparable` | src/imsg/ddl_lint.py:133-145 | Every statement is trimmed, not empty, free of comments and of semicolons outside strings and parentheses, and every one but the last ends outside both. |
| `DdlText.SplitJoinSplit` | src/imsg/ddl_lint.py:89-145 | For every file, joining its statements with `;` and splitting again gives the same statements. |
| `DdlText.ScannersAgree` | src/imsg/ddl_lint.py:104-118 | On comment-free text the scanner that skips escaped quotes and those that toggle on every quote agree at every character that is not a quote. |
| `DdlText.PartsComeBackExactlyWhen` | src/imsg/ddl_lint.py:148-180 | Re-joining and re-splitting a clause list gives the same parts if and only if there are none or the last is not empty. |
| `DdlText.MatchIsUnique` | src/imsg/ddl_lint.py:183-203 | A first parenthesis has at most one match. |
| `DdlText.ClosedStatementHasBody` | src/imsg/ddl_lint.py:183-203 | A statement that ends outside strings and parentheses has a body whenever its first parenthesis is opened there too. |
| `DdlText.BodyIsBalanced` | src/imsg/ddl_lint.py:197-202 | The extracted body is balanced by itself. |
| `DdlText.ClausesAreBalanced` | src/imsg/ddl_lint.py:172-180 | Splitting a balanced body leaves balanced clauses. |
| `DdlCounts.ScannersCount` | src/imsg/ddl_lint.py:104-118 | A scanner is in a string after an odd number of quotes, and as deep as parentheses outside strings have been opened and not closed. |
| `DdlCounts.InsideIsIrrelevant` | src/imsg/ddl_lint.py:104-114 | Replacing the quote-free inside of a string changes nothing after it, parentheses and separators in it included. |
| `DdlCounts.CutsExactly` | src/imsg/ddl_lint.py:133-180 | Text is cut exactly at the separators outside strings with as many parentheses opened as closed before them. |
| `DdlCounts.MatchesExactly` | src/imsg/ddl_lint.py:183-203 | The body ends at the first place where as many parentheses have been closed as opened, outside strings. |
| `DdlCounts.PrefixIsCopied` | src/imsg/ddl_lint.py:104-122 | Text without a comment is copied as it is, whatever follows. |
| `DdlCounts.CommentGoes` | src/imsg/ddl_lint.py:119-122 | A comment goes up to the end of its line and no further. |
| `DdlCounts.StatementsKeepInk` | src/imsg/ddl_lint.py:133-145 | There is a statement for every piece with anything visible in it, and together they have all that is visible, in order. |
| `DdlCounts.PartsKeepInk` | src/imsg/ddl_lint.py:148-180 | There is a part for every piece, trimmed, with all that is visible in it, but for a blank last one. |
| `DdlLint.SplitStatements` | src/imsg/ddl_lint.py:89-145 | The scanning loop computes exactly the statements of which the laws above are proved, and the `in_string` it records at every character is the one they compare. |
| `DdlLint.EndOfLine` | src/imsg/ddl_lint.py:119-122 | A comment is skipped up to its newline or the end of the file, and no further. |
| `DdlLint.SplitTopLevel` | src/imsg/ddl_lint.py:148-180 | The clause loop computes exactly the parts of which the laws above are proved, and the `in_string` it records at every character is the toggled one. |
| `DdlLint.ExtractParenBody` | src/imsg/ddl_lint.py:183-203 | Returns the text between the first parenthesis and its match, and raises exactly when there is none. |
| `LogRotation.EverythingWrittenIsAccountedFor` | src/imsg/log_rotation.py:124-140 | The whole written stream is the new generation, then what landed between the last read and the truncate, then the file. |
| `LogRotation.CopyThenTruncate` | src/imsg/log_rotation.py:117-143 | Concurrent writers lose at most what lands between the last read and the truncate; what it does is a run of the steps below, from the file as found to the file it leaves. |
| `LogRotation.CopyWhole` | src/imsg/log_rotation.py:124-139 | The catch-up rounds and the last read copy all that the file holds by then, in order, however writers interleave. |
| `RotationSteps.EveryByteIsSomewhere` | src/imsg/log_rotation.py:117-143 | At every moment of every run of appends, rotations, failures and kills, all that was ever written is, in order, what is accounted for as kept or lost, what a rotation past its truncate has in hand, and the log; the generations are exactly the kept pieces. |
| `RotationSteps.NothingIsLostExactlyWhen` | src/imsg/log_rotation.py:117-143 | The generations and the log are all that was ever written if and only if no rotation was stopped with bytes in hand after its truncate, none completed that had missed bytes, and none is in between with bytes in hand. |
| `RotationSteps.KillLosesExactlyWhen` | src/imsg/log_rotation.py:134-143 | A kill costs nothing if and only if it comes before the truncate or after the rename (or the log was empty); in between exactly the bytes in hand are lost, whatever the staging file holds. |
| `RotationSteps.StagingIsNeverRecovered` | src/imsg/log_rotation.py:121-124 | What a killed rotation left in the staging file has no effect on anything a later run leaves to be read. |
| `RotationSteps.StagingThroughout` | src/imsg/log_rotation.py:121-143 | Until it is closed the staging file has a prefix of what it was given, then all of it, and that is what the rename puts in place. |
| `LogRotation.Generations.Shift` | src/imsg/log_rotation.py:180-189 | Generation n+1 becomes what n was for every n below `keep`, gaps included; only the old `keep` is dropped; no other log is touched; and at every moment of the loop the generations already reached have moved and the others have not. |
| `LogRotation.Generations.Rotate` | src/imsg/log_rotation.py:180-190 | One log's rotation: the shift, a new generation 1 with the copied bytes, the file cut. |
| `LogRotation.KilledShiftLeaves` | src/imsg/log_rotation.py:180-189 | What a shift killed at any moment and the rotation after it leave, slot by slot: moved up one, moved up two, and the gap between them. |
| `LogRotation.KilledShiftDrops` | src/imsg/log_rotation.py:180-189 | Of the generations there were, those two drop exactly the oldest and, if and only if the kill came after it had moved, the next oldest. |
| `LogRotation.Generations.Prune` | src/imsg/log_rotation.py:192-202 | What stays is exactly what is within `keep` and not older than the cutoff, or already reported; a dry run reports the same and removes nothing. |
| `LogRotation.RotateDue` | src/imsg/log_rotation.py:168-190 | Each entry in its turn: exactly the regular logs that have reached the size by then are rotated, each with its bytes accounted for, and reported with what was copied; the others only grow, and those that are not regular are reported skipped. |
| `LogRotation.RotateLogs` | src/imsg/log_rotation.py:146-203 | Fails, touching nothing, exactly when a limit is below 1; otherwise rotates exactly the regular logs that have reached the size, and prunes by count and age, or in a dry run only reports; the report lists what was rotated, skipped and deleted. |
| `LogRotation.ReportedExactly` | src/imsg/log_rotation.py:168-190 | The report names exactly the regular logs that had reached the size at their turn, each once and with the bytes of that turn. |
| `LogRotation.OverAgeSurvivesExactlyWhen` | src/imsg/log_rotation.py:192-202 | An over-age generation outlives a run if and only if the same run shifted it into slot `keep` over a dropped one. |
| `LogRotation.FreshGenerationsAreKept` | src/imsg/log_rotation.py:180-202 | A generation within count and age is never lost. |
| `OffsiteCopy.Remote.ListSets` | scripts/copy_backup_offsite.py:207-229 | Lists as verified exactly the final directories with a manifest, without repeats, and as clearable exactly the final and partial ones without. |
| `OffsiteCopy.Remote.Upload` | scripts/copy_backup_offsite.py:184-186 | Whatever arrives is stored, on success or failure, in that one file of a partial directory. |
| `OffsiteCopy.Remote.Move` | scripts/copy_backup_offsite.py:299-299 | Makes a directory final only when it is verified and nothing is in the way. |
| `OffsiteCopy.ManifestCompletes` | scripts/copy_backup_offsite.py:286-298 | With the manifest read back, the directory holds exactly the listed files, each as listed. |
| `OffsiteCopy.UploadAll` | scripts/copy_backup_offsite.py:271-284 | Gives exactly the commands of the upload, in order, up to the first that fails or reads back different, and fails only then; on success the fresh partial directory holds exactly the files, each read back equal; on any failure nothing else has changed. |
| `OffsiteCopy.CopySet` | scripts/copy_backup_offsite.py:271-301 | Gives exactly the commands of the copy, in order, up to the first that fails or reads back different, and fails only then. In every state it passes through, every listed set is verified; the old copy goes only once a verified replacement is beside it; success leaves the verified set under its final name. |
| `OffsiteCopy.EndedExactlyWhen` | scripts/copy_backup_offsite.py:177-205 | A plan of commands is carried out to its end if and only if every command of it goes well and every read-back shows what was sent. |
| `OffsiteCopy.KeepsTheNewest` | scripts/copy_backup_offsite.py:232-236 | What is not deleted is as many sets as may be kept, and the newest. |
| `OffsiteCopy.PrunedExactlyWhen` | scripts/copy_backup_offsite.py:232-236 | A set, the one just copied included, is deleted if and only if at least `keep` newer ones are verified. |
| `OffsiteCopy.ApplyRetention` | scripts/copy_backup_offsite.py:306-316 | Succeeds if and only if at least one set is to be kept, the current one is listed and every command goes well; lists, then removes what is doomed; success leaves exactly the newest min(keep, n) sets and nothing to clear but the current partial; a partial directory stays if and only if it is the current one's or holds a manifest; failure removes only what was to be removed. |
| `OffsiteCopy.Run` | scripts/copy_backup_offsite.py:341-362 | Succeeds if and only if there is a complete set, at least one is to be kept, every command goes well and, unless the set is listed already, its source matches and is encrypted; a dry run gives no command and answers by the source alone. Makes and lists the directory, copies the set if it is not listed, and only then prunes; success leaves the newest of the old sets and this one. |
| `MlxRuntime.PaddedRows` | src/imsg/mlx_runtime.py:294-305 | An error exactly for no rows or an empty row; otherwise the smallest rectangle, each row its own tokens and then only padding. |
| `MlxRuntime.PaddingPreservesLastStates` | src/imsg/mlx_runtime.py:22-29 | For any causal model, batch and pad token, gathering after padding gives each row the last state of its own unpadded computation. |
| `MlxRuntime.PadTokenIsIrrelevant` | src/imsg/mlx_runtime.py:331-346 | The gathered state of a row is the same in any batch and with any pad token. |
| `TextNorm.TailJoinsWords` | src/imsg/textnorm.py:75-81 | The tail is the words of the folded, selector-free text joined by single spaces. |
| `TextNorm.TailKeepsLetters` | src/imsg/textnorm.py:28-42 | The tail has the text's letters, all of them and in order: the eight curly quotes made straight, U+FE00 to U+FE0F gone, and nothing else but single spaces between words. |
| `TextNorm.TailIsIdempotent` | src/imsg/textnorm.py:75-81 | The tail changes nothing the second time. |
| `TextNorm.SplitOfJoin` | src/imsg/textnorm.py:44-81 | Joining words with single spaces and splitting again gives the words. |
| `TextNorm.NulStripped` | src/imsg/textnorm.py:50-65 | No NUL is left, and text without NUL is unchanged. |
| `TextNorm.NulAloneGoes` | src/imsg/textnorm.py:50-65 | Nothing goes with a NUL, and nothing is cut off at one. |
| `TextNorm.TailKeepsNfcExactlyWhen` | src/imsg/textnorm.py:74-81 | Of the whole tail only dropping selectors can take text out of NFC. |
| `TextNorm.IdempotentExactlyWhen` | src/imsg/textnorm.py:68-81 | Normalizing twice is normalizing once if and only if dropping the selectors from the input's NFC form leaves text in NFC; a third time never changes anything, and no NUL comes back. |
| `TextNorm.IdempotentWithoutSelectors` | src/imsg/textnorm.py:68-81 | Text whose NFC form has no variation selector is safe to normalize again. |
| `TextNorm.NotIdempotentAcrossASelector` | src/imsg/textnorm.py:71-81 | Any selector between two characters that compose makes the second pass change the text. |
| `TextNorm.NotAlwaysIdempotent` | src/imsg/textnorm.py:71-81 | `e`, U+FE0F, U+0301 for one. |

## Left out

- Reading one reservation is one step of the protocol: the file, whether its
  process runs and its footprint are taken together, and so is the watchdog's
  look at the reservations.
- A model process in the protocol has one reservation and loads within it only
  while it is entitled to it; memory taken beyond that is `Grow`, which counts
  as debt.
- Times in the admission protocol are whole milliseconds.
- MemoryAdmission.ReservationBook.Others: a crash-left temporary file appears
  only as a `Stray` file; the JSON in a file is given already parsed or as
  unreadable.
- NoticeFiles: one withdrawal at a time per process; file names are pids, so a
  name with leading zeros is not modelled; the text inside a notice is not
  modelled.
- LiveServer: its classes run without interference and on a given directory
  listing; what other processes may do in between is in `NoticeFiles` and
  `AdmissionProtocol`.
- HeavyLock: the kernel's order among blocked commands is left open, as is
  fairness between commands that do not yield, which the code does not promise.
- HeavyLockRegistry: one thread per process; the kernel's answer is a
  parameter.
- HeavySteps.HeavyCommand: the work itself is a number of units that may fail;
  waits for searches, the second question after one, and the FTS sidecar are not
  modelled, nor is `segment --rebuild`, which does one chat and asks nothing.
- DdlLint.SplitTopLevel: the separator is any character but a quote, a
  parenthesis or white space (the code only ever passes a comma).
- LogRotation.RotateLogs: generation names with leading zeros, symbolic links
  and files in the place of logs' generations are not modelled; a name's age is
  given.
- RotationSteps: one log at a time; its new generation takes a slot the shift has
  freed, and a kill within the shift is in `LogRotation.KilledShiftDrops`.
- SharedNotices: a server's knowledge that its notice is up and the system call
  that puts it up or begins to take it down are one step; posts that the
  filesystem refuses are the host's `ok` alone.
- OffsiteCopy.Run: one run at a time at a destination, `rm -rf` is one step,
  reading back is faithful when it succeeds, and names are ordered numbers;
  encryption and the source set's check are given results.
- TextNorm: NFC is an abstract function that is idempotent, brings in no NUL,
  keeps tail-fixed text tail-fixed and does not compose across quotes and white
  space; lone surrogates are not characters here.
- MlxRuntime: hidden states are given as rows of states, so the rank check of
  `gather_last_token_states` is not modelled; a model is any causal function.
- The pause and hold files, search waits, throttling, `enrich`'s handing over
  of the lock, SQL, the MCP servers' wiring, logging, command-line output,
  model loading, measurement of the host and all benchmark and conversion
  scripts.
