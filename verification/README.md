# A verified model of kuadrat

kuadrat deploys an app as six stages over a host it does not own alone: Detect, Build, Secrets,
Apply, Route, Healthcheck. The stage is written to SQLite before the host is touched, a failure is
undone backward, `reconcile` undoes what a crash left, and progress is streamed to viewers over a
broadcast channel that drops messages. This project models that machinery in Dafny and proves what
its design promises, for every input, every failure and every crash point.

## How the model is built

- **Store.** `Tables` is the database as a value and one function per SQL statement or transaction;
  `Store` is the object the program uses, whose methods run one such step each. A step can fail
  without effect, and the process can die just before or just after it commits.
- **Host.** `Host` holds files, what systemd has loaded, is running and has enabled, and what Caddy is
  serving. Each method is one file call or one command; any of them can work, return an error, or be
  the last thing a dying process does, with none, part or all of its effect. `Io` is the result of such
  a step, and `:-` passes an error or a death on. A `calm` host and store never fail, which is how the
  success direction is stated.
- **Programs.** `Apply`, `Gateway`, `Undo`, `Deploy`, `Stages`, `Runs`, `Recovery` and `Triggers` are the
  program's own methods over those objects, statement for statement. `Convergence` is the account they
  keep: every app's files are what its stored spec renders, or a row says they may not be.
- **Many processes.** `Protocol` is a step machine in which any number of processes reserve, run stages,
  finish, release, reconcile and sweep on one store, and any of them can stop between two steps; `Locks`
  says which processes rely on a lock, and `Safety` what holds over runs and when it is lost. All step
  through the functions of `Tables`.
- **Streams.** `Hub` is the ring buffer, `Daemon` is everything that may happen between two steps of a
  connection, `Feed` shows that the step machine's runs are among it, `Stream` is one connection, `Session`
  is a page render and its reconnections.
- **Text.** `Slugs`, `Specs`, `Paths`, `Images`, `Decimals`, `Quoting`, `UnitText`, `Render`, `TaskText`, `Webhook`
  and `Rows` are the names and texts, each with a reader written from the rules of the program that reads it;
  `Gateway` has one for fragments.

`dafny verify dfyconfig.toml` checks all of it.

## What is proved, and where the obvious statement is false

- *Crash convergence* (`History.Play`). In every state of every history, each app's unit, task and
  fragment files are exactly what the stored spec renders, or an unfinished or failed row of that
  app at the right stage accounts for the difference. One exception is the code's own: a deploy
  whose spec has no route does nothing in the Route stage, so when it is done a fragment of an older
  deploy stays. The apps this has happened to are named beside each state; only such a deploy adds
  one (`History.RunLeft`, `History.NothingLeftBehind`), it really does (`History.ClearingLeaves`),
  and any rollback at Route or later removes it (`Recovery.Reconcile`). For every other app the
  fragment is accounted for like any other file.
- *Rollback restores* (`Deploy.Fail`, `Runs.RunReserved`, `History.CrashThenReconcile`). An app
  whose files, workload, timers and fragment agreed with its stored spec agrees with it again after
  any rollback, and after a crash anywhere on the forward path followed by a reconcile that rolls
  back what it finds. The live half needs the undo itself not to be cut, which is read off the
  store: no failed stage at Apply or later was stored, or the run reported anything but a failed
  undo. For `apply` chooses between start and restart by comparing file texts, and a removal skips
  the reload when the fragment is already gone. `Apply.RunsTheNewUnit` says exactly when.
- *Success* (`Runs.RunReserved`, `Recovery.Reconcile`, `History.CalmReconcile`). In a calm world every deploy
  that runs reports an outcome. With no one else's file in the app's reach and a stored spec that can still be
  applied, the outcome is a function of the world outside and of the new spec: done, or rolled back at the first
  stage they stop, never a failed undo; and a reconcile rolls back everything it finds and leaves every app whose
  live side was accounted for exactly as its stored spec says. What a done deploy runs, read back from the unit,
  is the image of the commit it was built from (`Runs.PlacedRunsItsCommit`), and what Caddy serves, read back
  from the fragment, is its domain in front of its port (`Runs.RoutedServesItsSite`).
- *Live state over histories* (`History.LiveThroughout`). Through any crashes an app's workload,
  timers and route stay what its stored spec says, or within one undo of it while a deploy is
  unfinished, provided the store shows no undo of it that may have been cut (`History.CutBy`), no
  deploy of it starts over a crash nobody reconciled, and none that is done takes its route away;
  deploys that are rolled back may do as they like. Other apps play no part, whatever happens to
  them.
- *Isolation* (`Paths.IsolatedIffNoClash`). No file of one app is within another's reach if and only
  if neither slug followed by a dash begins with the other followed by `-task-`. Nothing in
  registration enforces that; `Apply.ApplyOverShadowed` is the run that deletes another app's file.
- *Lock safety* (`Safety.OneDeployPerApp`) needs two conditions, both stated in `Locks.Clean`: a
  live deploy is granted the lock only when nobody is still going to release it, that is, not
  between a terminal transaction of the app and the app-scoped release that follows; and a
  reconciler finishes only a row that is not executing stages, while no other process relies on the
  app's lock. They are exact: `Locks.StepKeepsLocks` is an if-and-only-if for every step, and
  `Safety.UncleanStepsOverlap` continues every unclean step to two deploys of one app inside their
  stages. The second condition is not covered by the first: a run that hits a store error leaves a
  row in progress with no lock, and a reconcile that finds it later releases the lock of the next
  deploy in the queue (`Safety.LockLostToReconcile`).
- *Timelines* (`Safety.TimelineGrammar`) need less, and nothing of the locks: a reconciler ends only
  a deploy that has no end yet and whose process has nothing more to say (`Protocol.Timely`). That
  is exact too: `Protocol.RowsStep` and `Safety.UntimelyStepsMalform`. The everyday case is
  `Safety.EndedTwice`, a reconcile overlapping a hook that is still working, which stores two ends
  for one deploy.
- *Streams* (`Stream.EventsSse`, `Session.Sitting`). What a connection sends is a stretch of the log
  filtered by deploy and by id above the resume point, without gap or repeat, whatever the buffer
  drops; a stream closes by itself only when nothing is missing. A client that resumes at an id it
  was given is never left waiting once the end has been published. A client that guesses an id is,
  in exactly one case (`Stream.Stuck`): the deploy ends between the row read and the backlog read
  and the guess is at or past that end, so that the clamp leaves the resume point on the terminal
  event itself (`Stream.GuessedResume` is that connection). Over a whole sitting a viewer is sent
  away only with everything, with one exception: a row that `reserve` turned away is terminal with
  no event, so a viewer who connects before the hook has stored its end gets a 204 and never sees
  that event (`Session.TurnedAwayTooSoon`). Nothing else cuts a stream short than a store that fails, a daemon
  that goes down, or a client that has taken as many messages and events as it stays for; so a viewer of a
  finished deploy has all of it once its connections together stay for that many events.
- *Registrations* (`Rows.ConfigRoundTrip`). A registration reads back as itself if and only if its
  port is not zero; registering does not check the port, reading refuses zero.
- *Identity* (`Identity.NamesStayDistinct`) holds if and only if every stored spec is of a free
  name, one whose slug is not empty and is no other registered name's; registered names are free.
  `Identity.UnregisteredBreaksIt` is the call that breaks it, since the unique slug column covers
  deployed apps only.

## Model

| member | source | states |
|---|---|---|
| Slugs.ComputeSlug | crates/core/src/spec.rs:175-191 | the single pass with its trailing-dash pops computes the words of the name, lowercased and joined by single dashes |
| Slugs.SlugIsWellFormed | crates/core/src/spec.rs:175-191 | every slug is letters, digits and single dashes, with no dash at either end |
| Slugs.SlugIsIdempotent | crates/core/src/spec.rs:175-191 | a slug is its own slug |
| Slugs.SlugIgnoresSurroundingSpace | crates/core/src/spec.rs:175-191 | trimming the name first changes no slug |
| Slugs.SeparatorParts | crates/core/src/spec.rs:182-185 | a space, dash or underscore anywhere in a name parts its slug in two |
| Slugs.OthersVanish | crates/core/src/spec.rs:175-191 | any other character that is no ASCII letter or digit leaves no trace |
| Slugs.SlugOfWord | crates/core/src/spec.rs:179-181 | letters and digits stay one for one, each the same letter of the lower-case alphabet |
| Specs.Validate | crates/core/src/spec.rs:92-163 | the checks, in order, accept a spec exactly when every rendered field is on one line, slugs are non-empty, a route has a health command, and task slugs are distinct |
| Specs.CheckDistinct | crates/core/src/spec.rs:137-147 | the set filled while walking the tasks finds a duplicate exactly when there is one |
| Paths.SplitNameInverts | crates/core/src/workloads/paths.rs:49-90 | stem and extension of a written file name are what the directory scan reads back |
| Paths.PrefixTestOnStem | crates/core/src/workloads/apply.rs:169-179 | the scan's prefix test on the stem is a test on the whole file name |
| Paths.NoClashNoSharedFile | crates/core/src/workloads/paths.rs:49-90 | two apps whose slugs do not clash can touch no file in common |
| Paths.ShadowedFile | crates/core/src/workloads/paths.rs:88-90 | an app whose slug is shadowed owns a file the shadowing app's prune deletes |
| Paths.IsolatedIffNoClash | crates/core/src/workloads/paths.rs:49-90 | isolation of two apps' files, both directions of the side condition |
| Quoting.ExecRoundTrip | crates/core/src/workloads/render.rs:25-50 | tokenizing an Exec value by systemd.syntax(7) and collapsing percent signs gives the argument vector it was written from, for every vector |
| Quoting.EnvironmentRoundTrip | crates/core/src/workloads/render.rs:76-101 | an Environment value is exactly one word, the assignment |
| Quoting.LexWord | crates/core/src/workloads/render.rs:39-50 | a quoted word is read as that word whatever follows it |
| UnitText.ReadInvertsWrite | crates/core/src/workloads/render.rs:56-114 | reading the physical lines of a document gives back its lines, when every value is on one line |
| Render.RenderWorkload | crates/core/src/workloads/render.rs:56-114 | pushing section by section yields the unit text for a valid spec, and an invalid spec is never rendered |
| Render.RenderTaskContainer | crates/core/src/workloads/render.rs:122-160 | the same for a task's container |
| Render.RenderTaskTimer | crates/core/src/workloads/render.rs:164-182 | the same for a task's timer |
| Render.RenderedIsMarked | crates/core/src/workloads/render.rs:9-14 | every rendered file starts with the ownership marker |
| Render.UnitRoundTrip | crates/core/src/workloads/render.rs:56-114 | a valid spec's unit text reads back as its workload, health limit and boot target included, and as no other line: no field value can add a directive |
| Render.EqualTextEqualWorkload | crates/core/src/workloads/apply.rs:101-106 | byte-identical unit text means an identical workload, which the start-or-restart choice relies on |
| TaskText.TaskRoundTrip | crates/core/src/workloads/render.rs:122-181 | a task's two files read back as image, name, environment, secrets, exact argument vector and exact schedule, neither of them empty, and nothing else |
| Host.Host.WriteFile | crates/core/src/fs/mod.rs:18-27 | one file write: done, or not done, or an error around it |
| Host.Host.ReadDir | crates/core/src/workloads/apply.rs:169-176 | a directory scan lists each entry of that directory once |
| Host.Host.DaemonReload | crates/core/src/workloads/apply.rs:99-99 | after a reload systemd knows exactly the container files on disk |
| Host.Host.Start | crates/core/src/workloads/apply.rs:104-106 | starting a running unit does nothing; otherwise it runs what is loaded |
| Host.Host.Restart | crates/core/src/workloads/apply.rs:104-106 | a restart runs what is loaded, or when cut short may leave the unit down |
| Host.Host.EnableNow | crates/core/src/workloads/apply.rs:108-118 | a timer is enabled only when its file is where systemd looks for timers |
| Host.Host.ReloadCaddy | crates/core/src/gateway/mod.rs:62-70 | after a reload Caddy serves exactly the fragments on disk |
| Managed.EnsureOwned | crates/core/src/managed.rs:14-34 | true for a marked file, false for an absent one, an error for a foreign one |
| Managed.GuardedChain | crates/core/src/managed.rs:14-34 | the ownership frame composes over any number of changes |
| Apply.PlanIsGood | crates/core/src/workloads/apply.rs:48-65 | a valid spec's task files are pairwise distinct, named after app and task, in the app's namespace, and all carry the marker |
| Apply.AgreementIsExact | crates/core/src/workloads/apply.rs:21-121 | two hosts that agree with one plan have the same files of the app, byte for byte |
| Apply.PruneEntry | crates/core/src/workloads/apply.rs:169-195 | one scan entry: skipped, refused when foreign, or its timer disabled and the file deleted |
| Apply.PruneTasks | crates/core/src/workloads/apply.rs:156-199 | after both scans no stale task file is left, only stale marked files and their timers have gone, and no enabled timer has lost its file; reports whether anything was removed; a calm scan fails only over a foreign file |
| Apply.Remove | crates/core/src/workloads/apply.rs:129-150 | success leaves no unit or task file and a stopped workload; whatever happens, the unit file only goes once the workload is down and others are untouched; a calm removal fails only over a foreign file |
| Apply.Preflight | crates/core/src/workloads/apply.rs:29-46 | passes only when every schedule parses |
| Apply.RenderTasks | crates/core/src/workloads/apply.rs:48-65 | every task file is rendered before anything is written |
| Apply.EnsureTasksOwned | crates/core/src/workloads/apply.rs:67-72 | no foreign file stands where a task file will be written |
| Apply.WriteAll | crates/core/src/workloads/apply.rs:80-97 | the file half of apply: exactly the plan's files on success, and at every other exit the ownership frame and backed timers |
| Apply.Activate | crates/core/src/workloads/apply.rs:99-118 | the live half: reload, start or restart, enable every timer |
| Apply.Apply | crates/core/src/workloads/apply.rs:21-121 | success installs exactly the plan; a bad spec, schedule or foreign target is refused with nothing written; every exit keeps the frame, the unit-before-workload order and other apps; in a calm world without foreign files it works exactly for a valid spec whose schedules parse |
| Apply.RunsTheNewUnit | crates/core/src/workloads/apply.rs:101-106 | what runs afterwards is the new unit, with the exact exception; always when the running unit matched the one on disk |
| Apply.TimersAreThePlans | crates/core/src/workloads/apply.rs:90-118 | the app's enabled timers are exactly the spec's tasks |
| Apply.ApplyOverShadowed | crates/core/src/workloads/apply.rs:156-199 | the run that deletes another app's file when the slugs clash |
| Gateway.FragmentIsMarked | crates/core/src/gateway/mod.rs:18-24 | every fragment carries the marker |
| Decimals.DecimalRoundTrip | crates/core/src/gateway/mod.rs:20-23 | a number is written in digits that, taken from the left, give it back |
| Gateway.FragmentRoundTrip | crates/core/src/gateway/mod.rs:18-24 | a reader that takes the fragment apart into comment, site address and upstream finds exactly the route's domain and port |
| Gateway.EqualFragmentEqualRoute | crates/core/src/gateway/mod.rs:18-24 | so byte-identical fragments are of one route |
| Gateway.ApplyRoute | crates/core/src/gateway/mod.rs:31-46 | success puts the fragment on disk and in Caddy, which then serves, read back, this domain in front of this port; any exit writes only this fragment; calm, it fails only over a foreign fragment |
| Gateway.RemoveRoute | crates/core/src/gateway/mod.rs:48-60 | success leaves no fragment on disk; Caddy forgets it exactly when there was a file to remove; calm, it fails only over a foreign fragment |
| Tables.InProgressFromIsExact | crates/core/src/store/mod.rs:292-309 | the work-list is exactly the rows in progress, each once, in ascending order of id |
| Tables.OrphanPassSparesTheLiving | crates/core/src/store/mod.rs:380-399 | the orphan pass frees exactly the locks of finished deploys, never a live one |
| Store.Store.CreateDeploy | crates/core/src/store/mod.rs:156-168 | a new row at Detect, in progress, with a fresh id |
| Store.Store.AdvanceStage | crates/core/src/store/mod.rs:171-183 | moves a row only while it is in progress, otherwise an error and no change |
| Store.Store.FinishDeploy | crates/core/src/store/mod.rs:186-204 | sets a terminal status with no event |
| Store.Store.FinishDeployWithEvent | crates/core/src/store/mod.rs:236-276 | status, this deploy's lock and the terminal event change together or not at all |
| Store.Store.InProgressDeploys | crates/core/src/store/mod.rs:292-309 | the rows in progress in ascending order of id |
| Store.Store.AcquireLock | crates/core/src/store/mod.rs:344-358 | takes a free lock, reports a held one without error |
| Store.Store.ReleaseLock | crates/core/src/store/mod.rs:361-366 | drops the app's lock whoever holds it |
| Store.Store.ReleaseOrphanedLocks | crates/core/src/store/mod.rs:380-399 | drops the locks of finished deploys and names the apps freed |
| Store.Store.AppendEvent | crates/core/src/store/mod.rs:406-422 | one event at the end of the log with the next id |
| Store.Store.CurrentSpec | crates/core/src/store/mod.rs:144-153 | the spec last stored for the app |
| Store.Store.PutSpec | crates/core/src/store/mod.rs:121-141 | upserts a spec unless another app holds the slug |
| Store.Store.RegisterApp | crates/core/src/store/mod.rs:460-522 | registers unless the slug is empty, the path relative, or a different name already yields the slug |
| Rows.ColumnsRoundTrip | crates/core/src/store/mod.rs:602-635 | every event reads back from its two columns as itself, except a deploy-level row that is not terminal, which is refused |
| Rows.ColumnsInjective | crates/core/src/events/mod.rs:69-80 | no two kinds of event are spelled alike |
| Rows.StageReads | crates/core/src/deploy/mod.rs:15-42 | a stage reads back from its name, and no stage is spelled like the deploy-level marker |
| Rows.StatusReads | crates/core/src/deploy/mod.rs:52-72 | a status reads back from its name |
| Rows.ConfigRoundTrip | crates/core/src/store/mod.rs:649-679 | a registration reads back as itself if and only if its port is not zero |
| Rows.AcceptedButUnreadable | crates/core/src/store/mod.rs:460-522 | a registration the store accepts and then cannot read |
| Identity.StoreKeepsDistinct | crates/core/src/store/mod.rs:121-141 | storing an accepted spec keeps names apart if and only if its name has a slug that no other registered name has |
| Identity.RegisteredIsFree | crates/core/src/store/mod.rs:460-522 | registered names meet that condition |
| Identity.RegisteringAgain | crates/core/src/store/mod.rs:460-522 | registering a taken name again replaces its registration and nothing else |
| Identity.RefusedFor | crates/core/src/store/mod.rs:460-522 | with an absolute path, a registration is refused only for an empty slug or one that another name has |
| Identity.TakeKeepsDistinct | crates/core/src/store/mod.rs:485-508 | one call keeps slugs distinct if and only if it is allowed: a registration, a refused spec, or a spec of a free name |
| Identity.NamesStayDistinct | crates/core/src/store/mod.rs:460-522 | over every sequence of registrations and deploys, names map injectively to non-empty slugs, and registered paths stay absolute, if and only if every call was allowed |
| Identity.DistinctPlaces | crates/core/src/deploy/build.rs:8-10 | hence no two apps share a unit file, a fragment or an image repository |
| Identity.UnregisteredBreaksIt | crates/core/src/store/mod.rs:118-141 | deploying an unregistered name can take a registered app's slug |
| Images.ImageReads | crates/core/src/deploy/build.rs:6-10 | split at its first colon, an image reference gives back the app's repository and the commit, whatever the commit |
| Images.ImageIsExact | crates/core/src/deploy/build.rs:6-10 | so a reference fixes both the app and the commit |
| Convergence.UnitStepConverges | crates/core/src/deploy/run.rs:205-209 | changing an app's unit files keeps every app's account while a row of that app is at Apply or later |
| Convergence.RouteStepConverges | crates/core/src/deploy/run.rs:211-217 | changing its fragment keeps every account while a row is at Route or later |
| Convergence.FinishConverges | crates/core/src/deploy/run.rs:284-295 | dropping a row's account is sound when the app is in place as far as the row had got; only a row that ends done may leave a fragment its spec no longer has, and the app is then named |
| Convergence.RouteRestored | crates/core/src/deploy/run.rs:371-376 | an app whose fragment is right again is no longer named |
| Convergence.ReallyLeftConverges | crates/core/src/deploy/run.rs:211-217 | only apps whose stored spec has no route, and which have a fragment all the same, need naming |
| Convergence.PutSpecConverges | crates/core/src/deploy/run.rs:236-238 | storing a spec is accounted for by the row at the last stage |
| Convergence.OtherAppUntouched | crates/core/src/workloads/apply.rs:156-199 | a change within one app's reach leaves every file of an app with no clash as it was |
| Convergence.LiveFrameKeeps | crates/core/src/deploy/run.rs:342-376 | another app's undo keeps this app's live account |
| Undo.Reapply | crates/core/src/deploy/run.rs:362-367 | re-applying the previous spec restores files, workload and timers from any recoverable state; calm, it works whenever the spec can be applied and no foreign file is in the way |
| Undo.StaysReversible | crates/core/src/managed.rs:14-34 | what kuadrat writes carries the marker, so an app whose undo cannot fail stays one under any of kuadrat's changes |
| Undo.UnwindApply | crates/core/src/deploy/run.rs:362-367 | restores the previous unit, or removes the one this deploy wrote; calm and unopposed it works |
| Undo.UnwindRoute | crates/core/src/deploy/run.rs:371-376 | restores the previous route, or removes the one this deploy wrote; calm and without a foreign fragment it works |
| Undo.SparedChain | crates/core/src/deploy/run.rs:342-376 | sparing other apps' files, workloads, timers and routes composes over any number of steps |
| Undo.UnwindBoth | crates/core/src/deploy/run.rs:353-356 | first the route, then the units: nothing else is touched before the route is back; calm and unopposed both work |
| Undo.Compensate | crates/core/src/deploy/run.rs:342-358 | from any stage: nothing before Apply; otherwise files back on the previous spec as far as the stage had got, and the live side too whenever it was recoverable, the route before the units; it works in every calm world with no foreign file of the app and a previous spec that can be applied |
| Deploy.Emit | crates/core/src/deploy/run.rs:259-270 | one event stored, then published; a failure in between keeps every account |
| Deploy.Begin | crates/core/src/deploy/run.rs:243-246 | the stage is recorded on a row still in progress before it is announced; on a finished row nothing is written and nothing is said |
| Deploy.Succeed | crates/core/src/deploy/run.rs:249-251 | the stage's Succeeded event, which closes the pair |
| Deploy.Finish | crates/core/src/deploy/run.rs:284-295 | the terminal write keeps every account when the app is in place as far as the row had got |
| Deploy.UndoStage | crates/core/src/deploy/run.rs:342-358 | compensation seen from a run: only the host changes and the row stays in hand; it works wherever compensation does |
| Deploy.Fail | crates/core/src/deploy/run.rs:299-339 | Failed event, undo, terminal write: rolled back means in place again, files and live side; the live side is lost only when a failed stage at Apply or later is stored and the row is not rolled back; where the undo cannot fail and the store is calm, the outcome is rolled back at this stage |
| Deploy.Conclude | crates/core/src/deploy/run.rs:317-338 | the status of the row says whether the undo worked, and in a calm store it is always written |
| Stages.ForwardUnits | crates/core/src/workloads/apply.rs:74-106 | however apply is cut over an app in place, the previous spec can still be restored |
| Stages.ForwardRoute | crates/core/src/gateway/mod.rs:31-46 | the same for writing a fragment |
| Stages.Abandon | crates/core/src/deploy/run.rs:186-186 | a stage that failed ends the run where it is, with its tale; rolled back there when the undo cannot fail |
| Stages.Quiet | crates/core/src/deploy/run.rs:180-203 | a stage that only looks, builds or waits: host untouched, pair of events, or undone and ended; a crash before any failed stage is stored keeps the live account; calm, it passes exactly when the world outside works, and is rolled back otherwise |
| Stages.ApplyStage | crates/core/src/deploy/run.rs:205-209 | the new plan in place, or undone and ended; a finished row means no change at all; a crash before any failed stage is stored keeps the live account; calm and unopposed, it passes exactly for a spec that can be applied, and is rolled back otherwise |
| Stages.RouteStage | crates/core/src/deploy/run.rs:211-217 | the route in place when there is one, the host untouched when there is none; a crash before any failed stage is stored keeps the live account |
| Stages.Complete | crates/core/src/deploy/run.rs:236-239 | spec stored and row done, or nothing, with the exact exception of a cleared route |
| Runs.DeployedIsValid | crates/core/src/deploy/run.rs:189-197 | the spec with the image just built is still valid |
| Runs.Prepare | crates/core/src/deploy/run.rs:180-203 | Detect, Build and Secrets leave the host alone and the tale at three pairs; calm, they stop exactly where the world outside does |
| Runs.Change | crates/core/src/deploy/run.rs:205-217 | Apply then Route over an app in place |
| Runs.Launch | crates/core/src/deploy/run.rs:205-240 | Apply, Route and Healthcheck, with the outcome they come to in a calm world |
| Runs.RunStages | crates/core/src/deploy/run.rs:172-240 | outcome, row, stored spec, host and the whole timeline agree, at every exit; a run that is done stored its spec and touched no fragment if that has no route; in a calm, unopposed world the outcome is decided by the world outside and the spec |
| Runs.RunLocked | crates/core/src/deploy/run.rs:103-105 | the stages and then the app's lock, whatever they came to; in a calm store the lock is free after every end |
| Runs.OthersStayLive | crates/core/src/workloads/apply.rs:21-199 | a run that spares everything else keeps every other app's workload, timers, fragment and proxied route where their account has them |
| Runs.PlacedRunsItsCommit | crates/core/src/deploy/run.rs:189-197 | the unit on disk of a spec that is in place, and the unit that runs if the app was in place before, read back with the commit the image was built from |
| Runs.DifferentCommitsDifferentUnits | crates/core/src/workloads/apply.rs:101-106 | so done deploys of two commits leave different units on disk and running |
| Runs.RoutedServesItsSite | crates/core/src/deploy/run.rs:211-217 | what Caddy serves for a spec in place reads back as its domain in front of its port |
| Runs.RunReserved | crates/core/src/deploy/run.rs:82-106 | the same with validation and the lock: an invalid spec changes nothing, a finished row means no host change and no event; every other app is spared; wherever it stops, the live account is kept unless a failed stage at Apply or later is stored and the row is not rolled back, and a row that is done or rolled back has its files in place; done means the unit reads back with the commit just built; a calm run always reports an outcome, and with no foreign file and a previous spec that can be applied it is done, or rolled back at the first stage that the world outside or the spec stops |
| Runs.Reserve | crates/core/src/deploy/run.rs:64-78 | row and lock, or a failed row without an event when the lock is held; every account kept wherever it stops |
| Recovery.UndoIsSound | crates/core/src/deploy/run.rs:120-140 | the undo of a recovered row keeps every app's account |
| Recovery.UndoKeepsOthersLive | crates/core/src/deploy/run.rs:342-376 | and every other app's live account |
| Recovery.SettleStep | crates/core/src/deploy/run.rs:126-143 | so do its terminal transaction and the release of its lock |
| Recovery.ReconcileRow | crates/core/src/deploy/run.rs:116-145 | one row: undone, finished with its outcome and one event, lock released; rolled back means the app's files and fragment are the stored spec's again, route or no route; rolled back it is wherever the undo cannot fail and the store is calm |
| Recovery.CutShows | crates/core/src/deploy/run.rs:127-140 | an undo that may have been cut shows in the rows: its deploy was given up, or is where the reconcile stopped |
| Recovery.Reconcile | crates/core/src/deploy/run.rs:113-161 | success leaves no row in progress, no lock of an existing deploy, exactly one end per recovered row in order, and no fragment left behind by an app rolled back at Route or later; every exit keeps every account and the ownership frame, and every live account but those whose undo may have been cut; a calm reconcile succeeds, and where no undo can fail it rolls back everything |
| Triggers.CheckBusy | crates/daemon/src/api.rs:192-205 | busy exactly when some row of the app is in progress |
| Triggers.FinishAttempt | crates/daemon/src/hooks.rs:268-275 | ends a hook's own attempt with its event, freeing no lock but its own |
| Triggers.RecordRefusal | crates/daemon/src/hooks.rs:260-266 | a refusal is a failed row of its own with one event |
| Triggers.UpdateCheckout | crates/daemon/src/hooks.rs:206-241 | called only by the holder of the app's lock; the checkout moves to the pushed commit, and only when it is on the pushed branch; calm, it does so exactly when the clone or the origin has that commit |
| Triggers.DispatchPush | crates/daemon/src/hooks.rs:163-258 | the checkout moves, or the push is accepted, only for a registered app that was neither busy nor locked, and only to the pushed commit of its own branch; every parsed push to a registered app leaves a reserved deploy or a failed row with one event; when nothing fails it is accepted if and only if the app is registered, idle and unlocked, the push is for the checked-out branch and a commit the origin or the clone has, and there is a spec |
| Triggers.RunGoesOn | crates/core/src/deploy/run.rs:172-240 | what another process may do to the store between two steps of a run leaves the run able to go on: everything the next step asks for still holds |
| Triggers.ReservationIsForeign | crates/core/src/deploy/run.rs:64-78 | reserving, in any state it can be left in, is such a step |
| Triggers.AttemptIsForeign | crates/daemon/src/hooks.rs:268-275 | so is a hook ending an attempt of its own |
| Triggers.RegistrationIsForeign | crates/core/src/store/mod.rs:460-522 | so is a registration |
| History.FreshIsSound | crates/core/src/store/mod.rs:105-116 | an empty store over a host with no files of kuadrat's satisfies the account |
| History.Perform | crates/core/src/deploy/run.rs:64-161 | one operation, ended, failed or crashed: every account and the ownership frame are kept, live accounts but for undos that may have been cut, and a deploy it settles is in place |
| History.Play | crates/core/src/deploy/run.rs:64-161 | so crash convergence and the ownership frame hold in every state of every history of reservations, runs, reconciles, hooks and registrations, with any failures and crashes; the apps with a fragment left behind are named, and only a done deploy without a route adds one |
| History.RunKeepsLive | crates/core/src/deploy/run.rs:82-106 | one run keeps every app's live account, except its own when a failed stage at Apply or later is stored and its row is not rolled back, it started over a crash, or it is done and took the route away |
| History.RunPutsInPlace | crates/core/src/deploy/run.rs:82-106 | a deploy that is done, or rolled back at Apply or later, has its app's files on the stored spec, whatever older failed rows say |
| History.RunLeft | crates/core/src/deploy/run.rs:211-217 | a run names its own app only when it is done, its spec has no route, and it did not touch the fragment |
| History.ClearingLeaves | crates/core/src/deploy/run.rs:211-217 | the exception is real: a done deploy that takes a route away leaves the fragment of an app that was in place |
| History.NothingLeftBehind | crates/core/src/deploy/run.rs:64-161 | over a whole history an app without a leftover fragment gets one only from such a deploy |
| History.LiveThroughout | crates/core/src/deploy/run.rs:64-161 | over a whole history, crashes on the forward path and rolled-back deploys of every kind included, an app's workload, timers and route stay the stored spec's, or within one undo of it, whatever happens to other apps |
| History.FilesAreTheSpecs | crates/core/src/deploy/run.rs:108-161 | after a reconcile with no failed row, unit and task files are exactly what the stored spec renders, and the fragment too if and only if none was left behind |
| History.LiveIsTheSpecs | crates/core/src/deploy/run.rs:108-161 | and the live side too, where its account was kept |
| History.AllRolledBack | crates/core/src/deploy/run.rs:113-161 | a reconcile whose outcomes are all rolled back has cut no undo and stored no failed stage |
| History.CrashThenReconcile | crates/core/src/deploy/run.rs:108-161 | a run that crashes or fails anywhere and then a reconcile that rolls back what it finds leave an app that was in place in place, if the run stored no failed stage at Apply or later or reported anything but a failed undo, and unless it is done and took a route away |
| History.ReconcileSettles | crates/core/src/deploy/run.rs:108-161 | a reconcile that gets through leaves nothing in progress and, when each lock names a deploy, no lock |
| History.CalmReconcile | crates/core/src/deploy/run.rs:108-161 | in a calm world where no undo can fail, a reconcile rolls everything back and leaves every app whose live side was accounted for exactly as its stored spec says |
| History.ReconcileAgain | crates/core/src/deploy/run.rs:108-161 | from there another one returns nothing and changes nothing |
| Timelines.ShapeIsGrammar | crates/core/src/deploy/run.rs:242-251 | a well-formed timeline is pairs in stage order, then at most one open or failed stage, then at most one end |
| Timelines.TimelinePush | crates/core/src/store/mod.rs:406-442 | storing an event extends its own deploy's timeline and no other |
| Protocol.RecoverRows | crates/core/src/deploy/run.rs:126-143 | a reconciler's terminal transaction keeps rows and timelines in agreement if and only if the deploy has no end yet and its process has nothing more to say |
| Protocol.RowsStep | crates/core/src/deploy/run.rs:64-161 | the timely steps are exactly those that keep rows, processes and timelines in agreement; locks play no part |
| Locks.FinishKeepsLocks | crates/core/src/store/mod.rs:258-259 | the deploy-scoped delete frees this deploy's lock and opens the window |
| Locks.GrantKeepsLocks | crates/core/src/store/mod.rs:344-358 | a grant is safe outside the window, or to a deploy that will run no stage |
| Locks.ReleaseKeepsLocks | crates/core/src/deploy/run.rs:104-104 | in a clean run the app-scoped release takes no lock that anybody relies on |
| Locks.SweepKeepsLocks | crates/core/src/store/mod.rs:380-399 | the orphan pass takes exactly the locks of finished deploys, and none that anybody relies on |
| Locks.RecoverKeepsLocks | crates/core/src/deploy/run.rs:126-143 | nor does a reconciler, when the row is not executing stages and nobody else relies on the app's lock |
| Locks.StepKeepsLocks | crates/core/src/deploy/run.rs:64-161 | the clean steps are exactly those that keep the locks in agreement with the processes that rely on them |
| Safety.RunKeepsRows | crates/core/src/deploy/run.rs:64-161 | every timely run of any length keeps rows and timelines in agreement |
| Safety.RunKeepsLocks | crates/core/src/deploy/run.rs:64-161 | every clean run of any length keeps the locks in agreement |
| Safety.OneActivePerApp | crates/core/src/deploy/run.rs:64-106 | in every state of every clean run at most one deploy of an app is between its reservation and its release on a row in progress |
| Safety.OneDeployPerApp | crates/core/src/deploy/run.rs:64-106 | so at most one is executing stages |
| Safety.StagesRunUnderTheLock | crates/core/src/deploy/run.rs:64-106 | and it holds the app's lock, on a row in progress |
| Safety.UncleanStepsOverlap | crates/core/src/deploy/run.rs:64-143 | the other way: every step that is not clean, from any state with the locks in order, can be continued to two deploys of one app inside their stages at once |
| Safety.WriteAhead | crates/core/src/deploy/run.rs:243-246 | in every timely run work happens only on a row in progress at the recorded stage, after its Started event |
| Safety.TimelineGrammar | crates/core/src/deploy/run.rs:242-295 | in every state of every timely run every timeline follows the grammar, the row is terminal exactly when its end is stored or `reserve` turned it away, its stage is the last advanced, finished or not, and it is done only after all six stages |
| Safety.UntimelyStepsMalform | crates/core/src/store/mod.rs:247-256 | the other way: every step that is not timely can be continued to a timeline outside the grammar |
| Safety.StaleRunsStop | crates/core/src/store/mod.rs:171-183 | in any interleaving, a run whose row was finished by someone else does no work in a later stage |
| Safety.SilencedRunsSayNothing | crates/core/src/deploy/run.rs:243-246 | a run that reaches its next stage on a finished row stores no event |
| Safety.LockLostInTheWindow | crates/core/src/deploy/run.rs:92-105 | the shortest such run from an empty store: a reservation between the terminal write and the release loses its lock |
| Safety.LockLostToReconcile | crates/core/src/deploy/run.rs:142-143 | another: a reconcile of a stranded row releases the lock of a queued deploy |
| Safety.EndedTwice | crates/core/src/store/mod.rs:247-256 | the run in which a reconcile and a hook both end one deploy |
| Hub.BroadcastSink.Emit | crates/daemon/src/hub.rs:58-69 | the ring keeps the newest messages up to its capacity |
| Hub.Receiver.Recv | crates/daemon/src/hub.rs:40-50 | the next message in order, or a lag exactly when unread messages were dropped, with the position moved to the oldest one kept |
| Daemon.Interfere | crates/core/src/events/mod.rs:115-146 | between two steps logs and histories only grow, each deploy is published in the order it was stored, and nothing follows an end |
| Feed.DaemonMayStart | crates/core/src/deploy/run.rs:242-295 | in every state of every timely run of the deploy machine, log and rows are as streams take them to be |
| Feed.StepFeeds | crates/core/src/deploy/run.rs:242-295 | every timely step of the machine is one of the steps streams reckon with |
| Feed.FollowStep | crates/core/src/deploy/run.rs:242-295 | so the surroundings of a stream can follow the machine through any timely step |
| Stream.AboveIsFilter | crates/daemon/src/stream.rs:128-135 | the stretch above a resume point is the log filtered by deploy and id |
| Stream.NextInLog | crates/daemon/src/stream.rs:146-158 | the next message of the deploy is the event right after those behind the receiver |
| Stream.OneMessage | crates/daemon/src/stream.rs:148-158 | the id filter skips exactly what was sent and forwards exactly the next event |
| Stream.LagIsCovered | crates/daemon/src/stream.rs:159-191 | whatever a lag dropped is in the log |
| Stream.SendBacklog | crates/daemon/src/stream.rs:124-144 | sends the backlog above the resume point, all of it, or exactly as much as the client stays for |
| Stream.Resend | crates/daemon/src/stream.rs:174-190 | after a lag, sends what the re-read has above the last id sent, stopping at the end |
| Stream.Recover | crates/daemon/src/stream.rs:173-191 | a lag loses nothing and repeats nothing, and ends the stream only when the store fails |
| Stream.Forward | crates/daemon/src/stream.rs:148-158 | one message: skipped, or sent as the next event of the timeline |
| Stream.FollowHub | crates/daemon/src/stream.rs:146-195 | the live loop sends a gapless continuation; it ends only at the terminal event, waits only when everything published is out, is lost only to a failing store or a closed hub, and is left only once the client's patience is used up on messages taken and events sent |
| Stream.Open | crates/daemon/src/stream.rs:69-122 | subscribe before any read, then row, backlog, clamp and 204 |
| Stream.HonestIsNotStuck | crates/daemon/src/stream.rs:93-106 | a client that resumes at an id the log already had is never left waiting for an end it has seen |
| Stream.GuessedResume | crates/daemon/src/stream.rs:93-122 | a client that guesses an id is: the connection in which it happens, for every guess |
| Stream.EventsSse | crates/daemon/src/stream.rs:59-201 | refinement, completeness on closing, no waiting after the published end with the exact exception, and 204 on the last reconnection; nothing but a failing store, a closed hub or a client that has had enough cuts it short; of a deploy that has ended a calm connection sends exactly what is above the resume point, as far as the client stays, or a 204 |
| Session.ContinuesReceived | crates/daemon/src/pages.rs:474-486 | resuming at the last id received continues the timeline exactly where it stopped |
| Session.Page | crates/daemon/src/pages.rs:483-522 | the page shows the whole log so far, and opens no stream only for a finished deploy shown in full, or a terminal row with nothing stored, and never one for a deploy that had finished before |
| Session.Reconnect | crates/daemon/src/stream.rs:102-122 | one more connection extends what was received; one that closes by itself has delivered all of it, and a 204 means so too, or that nothing was stored of a deploy whose row is terminal; after the end it gets a 204; of a finished deploy it delivers the rest, or as many events as it stays for |
| Session.Watch | crates/daemon/src/stream.rs:59-201 | one connection after the other until a 204; of a finished deploy they deliver everything once they stay for that many events in all |
| Session.Sitting | crates/daemon/src/pages.rs:483-546 | over a page and any number of connections each event arrives once and in order, and the viewer is sent away only with all of it, or when nothing was stored of a deploy whose row is terminal; the page of a finished deploy is all of it, and without a page a calm viewer has all of it once it has stayed for that many events |
| Session.TurnedAwayTooSoon | crates/daemon/src/stream.rs:107-122 | that exception is real: a deploy `reserve` turned away gives a 204 before its hook has stored the end, which is then never sent |
| Health.PollHealth | crates/core/src/deploy/health.rs:51-91 | for any durations and verdicts the poll ends within the budget plus the larger of timeout and interval, after at most the ceiling of budget over interval attempts, with the verdict of the first decisive attempt |
| Health.Healthcheck | crates/core/src/deploy/run.rs:219-230 | with the real constants the stage cap never cuts a poll, and a poll passes, or errors, exactly when some attempt does so before any other decides and before the budget is up |
| Health.OneTimeout | crates/core/src/workloads/render.rs:11-16 | whatever has a health command, and so whatever has a route, is checked by its container, and podman's limit read back from the unit is the one a poll's attempt is cut at |
| Webhook.EscapeConfigValue | crates/daemon/src/webhook.rs:105-120 | the loop computes the character-wise escape |
| Webhook.UnquoteInvertsEscape | crates/daemon/src/webhook.rs:91-120 | reading an escaped value to its closing quote gives it back, with unsupported control characters as spaces, whatever follows |
| Webhook.CleanIsExact | crates/daemon/src/webhook.rs:96-104 | a value arrives unchanged if and only if its control characters are all among the four curl can spell |
| Webhook.NoControlIsWritten | crates/daemon/src/webhook.rs:91-120 | nothing written is a control character |
| Webhook.ConfigRoundTrip | crates/daemon/src/webhook.rs:146-152 | the document reads as exactly three directives for every url and body |
| Webhook.WriteConfig | crates/daemon/src/webhook.rs:146-152 | the document as built is that document |

## Left out

- Torn writes: a file write, a command and a transaction each happen or do not; a cut restart may leave the unit down.
- Overlapping runs on one host: `Deploy`, `Runs`, `Recovery` and `History` run one operation at a time, as the daemon's deploy slot makes runs do. What reservations, hooks and registrations may do to the store between two steps of a run is shown to leave the run able to go on (`Triggers.RunGoesOn`), but the methods do not interleave them; full interleavings on the store are the subject of `Protocol`, which does not model files.
- The daemon's trigger mutex and deploy semaphore as objects: `Protocol` allows every interleaving they would exclude.
- Detect, Build, Secrets and Healthcheck against the host: what git, podman and the poll answer is a parameter of a run; the poll itself is in `Health`.
- Event details, error texts and timestamps.
- JSON encoding of stored specs: a spec is stored and read back as itself.
- Directory entries that are not UTF-8 or lie in subdirectories.
- systemd's `$VAR` expansion, octal and hexadecimal escapes, and Quadlet's own rewriting; continuation of a line that ends in a backslash, because every physical line is read by itself here (`QuoteWord` never leaves one at the end, an unquoted field such as an image or a health command could).
- A log written by two processes at once for one deploy: `Daemon` assumes one in-order writer per deploy, so a deploy run by the command line and then reconciled by the daemon is outside the stream results.
- HTML rendering, payload sanitising and keep-alives of a stream.
- The webhook's retry loop and its choice of notable events.
- Signature checks and payload parsing of hooks: a delivery arrives authenticated and parsed.
- The process spawned for an accepted deploy: it is `Runs.RunReserved` on the id handed over.
- Deploy.Fail: nothing is claimed about the live side once an undo has failed, because the program itself then knows nothing about it.
- History.LiveThroughout: nothing is claimed about the live side of an app after one of its undos was cut, because a cut undo can leave a stale workload behind right files; the store then shows it (`History.CutBy`). A reconcile stores nothing before an undo, so one that dies is taken to have cut the undo of the deploy it had come to.
