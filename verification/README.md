# edvabe, verified

edvabe is a local server that runs sandboxes in containers and builds the images
they start from. This project models its four parts that carry state or parse
bytes, and proves what each is for:

* **Sandbox lifecycle.** The manager keeps a registry of sandboxes (running,
  frozen, stopped) and drives a container runtime; a reaper expires, freezes,
  stops and collects them; a restarted server rebuilds the registry from
  container labels.
* **Template builds.** A list of steps is translated to image build
  instructions; a build runs in the background, its log is a ring buffer, and
  clients poll status and log.
* **Template store and blob cache.** An alias index that must agree with the
  templates, with undo on failed writes and a file to reload from; blobs that are
  written aside and renamed into place.
* **Wire formats.** DNS questions and replies (sections 4.1.1 to 4.1.4 of RFC
  1035) and the framed stream of a ready probe.

Where the source works in place the model is a class whose methods are proved
against functions on values (`SandboxManager.Manager` against `SandboxOps`,
`TemplateStore.Store` against `TemplateModel`, and so on); the theorems are about
those functions. What each of those functions promises is told once more, field by
field and without any of them, in `SandboxPromises` and `TemplatePromises` and in
the contracts of the methods. What runs concurrently is a state machine whose steps are the
lock regions and the calls made between them: sandboxes in `SandboxConcurrency`,
builds and polling clients in `BuildProtocol`, blob writers and readers in
`FileCache`. `SandboxSchedules`, `BuildProtocol.RunIsASchedule` and
`FileCache.LonePutIsARun` tie the two views together: what a class method does
alone is one schedule of the machine.

Clock readings, fresh ids, random text and the failure of any call to the
runtime, the agent or the file system are parameters, so every theorem holds for
all of them.

## Results that are not simply "yes"

* Registry and runtime are proved to agree in runs where no two operations on one
  sandbox overlap. Some overlaps do break it, since a demotion does not look
  again after its `Stop` call:
  `SandboxSchedules.OverlapLosesCoherence` gives a run without any failing call
  that leaves a sandbox registered as running on a stopped container.
* After a restart the user's environment is back exactly if none of its keys
  holds '=' and the image brings no key of its own; a key the image brings is
  taken for the user's. Alias and metadata likewise have the exact condition
  under which an image's labels do not show through
  (`Rehydration.DockerRestartRoundTrip`).
* Translation takes the base image's user to be root. For any other user,
  `TranslateMeaning.TranslationKeepsMeaning` says exactly which step lists still
  come out right, by a scan of the steps.
* An ENV line reads back exactly if every value is free of line feeds and,
  where it is written without double quotes, of single quotes and of the spaces
  that do not make the writer quote it (`EnvLine.EnvLineRoundTrip`).
* Seeding a built-in template without an alias breaks the alias index, and only
  that does (`TemplateRuns.SeedNeedsAnAlias`); seeding it again after deleting it
  crashes (`TemplateRuns.NamelessSeedCrashes`).
* `UpdateMeta` has no undo: after a failed write, and after a refused alias, the
  rest of the change stays in memory
  (`TemplateRuns.FailedUpdateLeavesTheChange`).
* A blob's part file is left behind where the rename failed but the blob is
  there anyway (`internal/template/filecache/filecache.go:131-136`);
  `FileCache.NoPartRemains` says that this, a failing removal and a crash are the
  only ways.
* The DNS server tests text, not labels: what it computes for any label list is
  `Dns.InDomainOfTheText`, and any label that holds a dot and then the base
  domain passes for a name under it (`Dns.DottedLabelPasses`).
* `Enqueue`'s comment says the build is "building" when it returns; the code sets
  that in the goroutine (`internal/template/builder/manager.go:132-165`). The
  model follows the code. Likewise `handle` checks the QR bit only, not the
  opcode its comment names (`internal/dns/server.go:144-147`).

## Model

| member | source | states |
|---|---|---|
| SandboxConcurrency.Conservation | internal/sandbox/manager.go:320-391 | in every state of every interleaving each registered sandbox has a container, and each container is registered, in the hands of an operation in flight, or left by a Destroy that failed; the first excludes the others |
| SandboxConcurrency.ConservationAtRest | internal/sandbox/manager.go:439-453 | with nothing in flight the registry is exactly the runtime's containers less those a failed Destroy left |
| SandboxConcurrency.RemovedForGood | internal/sandbox/manager.go:705-798 | an id that left the registry never comes back without a restart |
| SandboxConcurrency.OnlyFaultsLeak | internal/sandbox/manager.go:705-798 | as long as the environment makes no call fail, no Destroy leaves a container behind |
| SandboxConcurrency.FaultFreeAtRest | internal/sandbox/manager.go:320-391 | ... so at rest registry and containers are the same ids |
| SandboxConcurrency.StepKeepsInv | internal/sandbox/manager.go:320-391 | every lock region and every call keeps the ownership of each id with exactly one holder |
| SandboxCoherence.RegistrySimulatesRuntime | internal/sandbox/manager.go:482-654 | without overlap on one sandbox, whatever fails: an idle sandbox has a container, and one reported running is neither frozen nor stopped |
| SandboxCoherence.RegistryIsExact | internal/sandbox/manager.go:482-654 | ... and where no call fails, running, frozen and stopped agree exactly |
| SandboxCoherence.AdvanceKeepsCoherent | internal/sandbox/manager.go:482-654 | each later step of an operation keeps that agreement for all sandboxes, its own and the others' |
| SandboxSchedules.OverlapLosesCoherence | internal/sandbox/manager.go:780-791 | overlapping demotion and Resume end, without any failure, in a running record on a stopped container |
| SandboxSchedules.CreateIsASchedule | internal/sandbox/manager.go:279-391 | Create run alone, with any of its calls failing, is a schedule of the machine's steps |
| SandboxSchedules.DestroyIsASchedule | internal/sandbox/manager.go:439-453 | the same for Destroy |
| SandboxSchedules.SetTimeoutIsASchedule | internal/sandbox/manager.go:462-475 | the same for SetTimeout |
| SandboxSchedules.PauseIsASchedule | internal/sandbox/manager.go:560-582 | the same for Pause |
| SandboxSchedules.StopIsASchedule | internal/sandbox/manager.go:590-617 | the same for Stop (thaw, stop, record) |
| SandboxSchedules.ConnectIsASchedule | internal/sandbox/manager.go:482-554 | the same for Connect, including the boot of a stopped container |
| SandboxSchedules.ResumeIsASchedule | internal/sandbox/manager.go:624-654 | the same for Resume |
| SandboxSchedules.SweepIsASchedule | internal/sandbox/manager.go:705-798 | a whole sweep, with any set of its calls failing, is a schedule of the machine's steps |
| SandboxManager.Manager.Create | internal/sandbox/manager.go:279-391 | the answer and the new state for every failure: nothing is registered unless every call worked, and the container is destroyed again if the agent does not answer; on success record, container and labels hold exactly the tokens, alias, metadata, environment, template, deadline, limits and image asked for, or the defaults |
| SandboxManager.Manager.Destroy | internal/sandbox/manager.go:439-453 | removes the record first and keeps it removed even if the runtime call fails |
| SandboxManager.Manager.SetTimeout | internal/sandbox/manager.go:462-475 | moves the deadline of a sandbox whose deadline has not passed, and nothing else |
| SandboxManager.Manager.Connect | internal/sandbox/manager.go:482-525 | moves the deadline of a sandbox that has not expired, then boots or thaws a paused one; which answer for which failure, and the record only running if all worked |
| SandboxManager.Manager.ResumeStopped | internal/sandbox/manager.go:529-554 | boots a stopped container and takes over its new endpoint |
| SandboxManager.Manager.Pause | internal/sandbox/manager.go:560-582 | freezes, and records it only if the runtime did |
| SandboxManager.Manager.Stop | internal/sandbox/manager.go:590-617 | thaws a frozen container first, then stops and records it |
| SandboxManager.Manager.Resume | internal/sandbox/manager.go:624-654 | wakes a paused sandbox, whichever way it was paused |
| SandboxManager.Manager.PlanSweep | internal/sandbox/manager.go:705-755 | the four work lists, each id once, told by records and limits alone: expired ones to kill or pause as they ask, stopped ones past their period, frozen ones past theirs and of the younger the longest-paused beyond the cap, whatever order the map is walked in |
| SandboxManager.Manager.WorkLists | internal/sandbox/manager.go:709-744 | one pass over the registry sorts every sandbox onto at most one list and takes those to be destroyed out |
| SandboxManager.Manager.EnforceTimeouts | internal/sandbox/manager.go:705-798 | what a sweep does to each sandbox and its container, for any set of failing calls, and exactly the ids it reports, told by records, limits and failures alone |
| SandboxManager.Manager.Rehydrate | internal/sandbox/manager.go:216-254 | adds exactly the runtime's unknown containers, each record told by its container's labels, environment, limits and state, and counts them; changes nothing if they cannot be listed |
| SandboxManager.SortByPausedAt | internal/sandbox/manager.go:748-750 | a permutation of the frozen ids ordered by the time they were paused |
| SandboxManager.Manager.ChooseVictims | internal/sandbox/manager.go:745-754 | the demotion list: all that are due by age and a smallest set of longest-paused others that meets the cap |
| SandboxManager.LruRespectsCap | internal/sandbox/manager.go:745-754 | taking the front of the sorted list demotes a smallest set of longest-paused sandboxes that meets the cap |
| SandboxPromises.CreateKeepsPromise | internal/sandbox/manager.go:279-391 | what a request is made of: each field of record, container and labels as given or by default, each limit by the sign of its override |
| SandboxPromises.DestroyKeepsPromise | internal/sandbox/manager.go:439-453 | Destroy answers with success exactly if sandbox and container were there and the call worked; the record is gone in any case |
| SandboxPromises.SetTimeoutKeepsPromise | internal/sandbox/manager.go:462-475 | SetTimeout refuses exactly unknown and expired sandboxes and otherwise changes the one deadline |
| SandboxPromises.ConnectKeepsPromise | internal/sandbox/manager.go:482-525 | Connect refuses exactly unknown and expired sandboxes and otherwise sets the deadline first |
| SandboxPromises.ResumeKeepsPromise | internal/sandbox/manager.go:624-654 | Resume boots a stopped sandbox and thaws any other paused one; a running one is left alone |
| SandboxPromises.PauseKeepsPromise | internal/sandbox/manager.go:560-582 | Pause freezes a running sandbox and records the time, is content with a paused one, and otherwise changes nothing |
| SandboxPromises.StopKeepsPromise | internal/sandbox/manager.go:590-617 | answer and state of Stop for every failure: a container thawed but not stopped stays thawed and the record as it was |
| SandboxPromises.VictimsKeepPromise | internal/sandbox/manager.go:718-755 | the victims are frozen, include all past the freeze period, and of the others exactly as many as exceed the cap, none paused later than one spared |
| SandboxPromises.SweepKeepsPromise | internal/sandbox/manager.go:705-799 | each sandbox after a sweep: expired ones frozen or gone as they ask, victims stopped, old stopped ones collected, all others untouched |
| SandboxPromises.FrozenIsLeftAlone | internal/sandbox/manager.go:722-754 | a sweep leaves a frozen sandbox and its container as they are unless its freeze period is over, or a cap is set and at least that many other frozen ones inside their period were paused no earlier |
| SandboxPromises.RehydrateKeepsPromise | internal/sandbox/manager.go:216-254 | a restart fills in each record from the container alone: tokens, alias, template, on-timeout and metadata from labels by name, the environment less the bootstrap prefix, state, pause time and deadline by the flags |
| NoopRuntime.Runtime.Create | internal/runtime/noop/noop.go:44-89 | the container runs what the request asks for, under its address and labels; refused are the empty id and one already there |
| NoopRuntime.Runtime.Destroy | internal/runtime/noop/noop.go:141-149 | removes a known container, refuses an unknown one |
| NoopRuntime.Runtime.Pause | internal/runtime/noop/noop.go:151-160 | sets the paused flag of a known container |
| NoopRuntime.Runtime.Unpause | internal/runtime/noop/noop.go:162-171 | clears it |
| NoopRuntime.Runtime.Stop | internal/runtime/noop/noop.go:173-183 | sets stopped and clears paused |
| NoopRuntime.Runtime.Start | internal/runtime/noop/noop.go:185-194 | clears stopped |
| NoopRuntime.Runtime.ListAll | internal/runtime/noop/noop.go:229-260 | lists every container once, with its labels, environment and limits; a stopped one is reported stopped and without an address |
| SandboxReaper.RankFalls | internal/sandbox/manager.go:705-798 | ranking running 3, frozen 2, stopped 1, gone 0, each reported sandbox falls in rank and no other record changes |
| SandboxReaper.SweepPays | internal/sandbox/manager.go:705-798 | the number of touches of a sweep is paid for by the fall of the ranks' sum |
| SandboxReaper.SweepsAreBounded | internal/sandbox/manager.go:705-798 | however many sweeps run, they touch at most three times the registry's size |
| SandboxReaper.ReaperConverges | internal/sandbox/manager.go:705-798 | at one instant a first sweep leaves at most the cap plus the newly frozen, a second at most the cap, a third does nothing |
| SandboxReaper.ThreeSweepsEmptyTheRegistry | internal/sandbox/manager.go:705-798 | three sweeps spaced by the limits leave nothing registered |
| SandboxRuns.ReaperIsSafe | internal/sandbox/manager.go:718-797 | over whole runs with restarts: a running sandbox and its container are left alone until its latest deadline, a frozen one and its container are never removed, a stopped one only after the collection period, one that asked to be paused only if the pause failed |
| SandboxRuns.FrozenIsSpared | internal/sandbox/manager.go:722-754 | over whole runs with restarts: a sweep changes a frozen sandbox or its container only if a whole freeze period has passed since the step that froze or rehydrated it, or a cap is set and at least that many others were frozen no earlier and not for a whole period |
| SandboxRuns.PausedAtIsFreezeTime | internal/sandbox/manager.go:560-582 | a frozen sandbox's time is that of the step that froze or rehydrated it |
| SandboxRuns.DeadlineIsPromise | internal/sandbox/manager.go:462-475 | the recorded deadline is the last one promised |
| SandboxRuns.PausedAtIsStopTime | internal/sandbox/manager.go:590-617 | a stopped sandbox's time is that of the step that stopped or rehydrated it |
| SandboxRuns.PausesAreInThePast | internal/sandbox/manager.go:560-617 | recorded pause times never lie ahead of the clock |
| SandboxRuns.RestartRecovers | internal/sandbox/manager.go:216-254 | a restart anywhere in a run brings back exactly the runtime's ids, every profile, and each state as its container is |
| Rehydration.RestartRoundTrip | internal/sandbox/labels.go:49-87 | template id, alias, tokens, on-timeout, metadata, limits and environment come back from the container alone |
| Rehydration.MetadataRoundTrip | internal/sandbox/labels.go:89-103 | stamping then reading metadata is the identity and disturbs no other label |
| Rehydration.UserEnvRoundTrip | internal/sandbox/labels.go:105-117 | the environment comes back exactly if no key has the bootstrap prefix |
| Rehydration.LimitRoundTrip | internal/runtime/docker/create.go:86-91 | a limit survives scaling exactly if the scaled value fits in 64 bits |
| Rehydration.EnvListRoundTrip | internal/runtime/docker/list.go:130-140 | the environment survives the list form exactly if no key holds '=' |
| Rehydration.DockerRestartRoundTrip | internal/runtime/docker/list.go:61-112 | the restart round trip through Docker for any image: template id, tokens, on-timeout and state always come back, and alias, metadata, environment and each limit exactly under the stated condition |
| Rehydration.DockerEnvRoundTrip | internal/sandbox/labels.go:105-117 | the user's environment comes back exactly if none of its keys holds '=' and the image adds no key |
| Rehydration.MergeIsOverride | internal/runtime/docker/list.go:130-140 | reading the merged list gives the image's environment with the requested one over it |
| Rehydration.ImageMetadataShows | internal/sandbox/labels.go:89-103 | the metadata comes back exactly if every metadata label of the image is overridden |
| Rehydration.ImageLabels | internal/sandbox/labels.go:49-87 | of the manager's own labels only an image's alias can show through |
| Rehydration.BuildSandboxLabels | internal/sandbox/labels.go:31-45 | the manager's own labels of a request |
| Rehydration.ExtractMetadataFromLabels | internal/sandbox/labels.go:89-103 | the loop computes the entries under the metadata prefix, prefix removed |
| Rehydration.ExtractUserEnvVars | internal/sandbox/labels.go:105-117 | the loop drops exactly the keys with the bootstrap prefix |
| Rehydration.EnvMapToSlice | internal/runtime/docker/create.go:132-147 | each entry once, as key=value |
| Rehydration.ParseEnv | internal/runtime/docker/list.go:130-140 | cuts each line at its first '=' and skips lines without one |
| Rehydration.InitVarsAreFiltered | internal/runtime/docker/create.go:149-161 | the start and ready commands that ride in the environment do not come back as the user's |
| Rehydration.InitVarsAreSet | internal/runtime/docker/create.go:149-161 | the start and ready commands are in the environment under their names |
| Rehydration.StampMeaning | internal/runtime/docker/create.go:32-43 | which keys are there, and each value: the metadata's where there is one, the caller's otherwise |
| Rehydration.RuntimeLabelsAreSet | internal/runtime/docker/create.go:32-43 | the runtime's own two labels are there whatever the request carries |
| RingBuffer.Ring.constructor | internal/template/builder/ringbuf.go:37-45 | an empty log, 5000 entries where no positive capacity is asked for |
| RingBuffer.Ring.Append | internal/template/builder/ringbuf.go:50-63 | the unbounded log grows by the entry; the ring keeps the newest ones through every wraparound |
| RingBuffer.Ring.Read | internal/template/builder/ringbuf.go:73-108 | exactly the slice of the unbounded log from the largest of the offset, zero and the oldest position held, up to the limit or the end, and the position after it |
| RingBuffer.ReaderSeesTheLog | internal/template/builder/ringbuf.go:19-28 | a reader that feeds back its cursor sees entries in order, none twice, and all of them exactly if no read found it more than the capacity behind |
| BuildManager.RunningBuild.SinkAppend | internal/template/builder/manager.go:225-233 | appends one line with the entry's message and source, its time and level where it gives them, else the current time and info |
| BuildManager.RunningBuild.Finish | internal/template/builder/manager.go:181-215 | ready and an empty reason in the result if the executor returned no error, failed with that error otherwise; finish time, result and last line say so |
| BuildManager.RunningBuild.Run | internal/template/builder/manager.go:161-215 | the whole goroutine: one start line, one line for each entry handed over, one last line, and status, reason and result by whether the executor returned an error |
| BuildManager.Manager.Enqueue | internal/template/builder/manager.go:137-159 | registers a waiting build under its id, its image tag made from the template id, or refuses a known id and changes nothing |
| BuildManager.Manager.GetStatus | internal/template/builder/manager.go:255-271 | the build's state, if it is known |
| BuildManager.Manager.Logs | internal/template/builder/manager.go:277-286 | the page of that build's log, if it is known |
| BuildManager.Manager.Wait | internal/template/builder/manager.go:291-304 | success only once the build is done, the context's error only once that is done, blocked exactly while neither is |
| BuildManager.Manager.Cancel | internal/template/builder/manager.go:309-318 | signals that build and touches no other |
| BuildModel.WithLinesAppends | internal/template/builder/manager.go:225-233 | the executor's lines reach the log once each, in order |
| BuildModel.RunToEndLog | internal/template/builder/manager.go:161-215 | the log of a whole run, entry by entry |
| BuildProtocol.StepKeepsInv | internal/template/builder/manager.go:161-215 | every step of a goroutine or client keeps log, status, lock, callbacks and clients as its place says |
| BuildProtocol.NoLineLostOrRepeated | internal/api/control/builds.go:189-214 | a client polling with offset = lines received holds exactly the first lines of the log as long as it never falls more than the capacity behind (and only then), and when it stops uncut it has start line, all executor lines and last line |
| BuildProtocol.ClientCanFinish | internal/api/control/builds.go:189-214 | from any state of a run in which the build has ended and the lock is free, a client that has kept up stops after one more status and one unlimited read, with the whole log if it is at most the capacity behind |
| BuildProtocol.ReadTells | internal/template/builder/ringbuf.go:73-108 | a read counts as cut exactly if its limit kept back lines, and ends the polling exactly if the status told before was final |
| BuildProtocol.VisibleVerdictHasItsLine | internal/template/builder/manager.go:181-215 | a final status seen with the lock free comes with its last line already in the log |
| BuildProtocol.LinesAreWhatWasEmitted | internal/template/builder/manager.go:225-233 | over a run the lines between start and end are as many as the entries the executor handed over, each with its message and source, and with its time and level where given |
| BuildProtocol.StatusTakesEveryStep | internal/template/builder/manager.go:161-240 | from one state of a run to the next a status stays, or goes from waiting to building, or from building to ready or error; a new build is waiting |
| BuildProtocol.NoneSkipsBuilding | internal/template/builder/manager.go:161-240 | a build that has ended was building at some point before |
| BuildProtocol.StatusOnlyMovesForward | internal/template/builder/manager.go:161-240 | over a whole run status never goes back; a final one, its reason and its finish time never change, and the log only grows |
| BuildProtocol.FinishTimeMeansFinal | internal/template/builder/manager.go:179-185 | the finish time is there exactly when the status is final |
| BuildProtocol.CallbackExactlyOnce | internal/template/builder/manager.go:192-214 | the callback is made exactly once, with the final status and reason, and before Wait can succeed |
| BuildProtocol.BuildEndsAsReturned | internal/template/builder/manager.go:181-215 | a build whose executor returned and that has ended is ready exactly if no error was returned, otherwise failed with that error for reason; its finish time and last line say the same |
| BuildProtocol.EndedBuildsReturned | internal/template/builder/manager.go:178-213 | no build ends before its executor has returned, and what it returned decides ready or failed |
| BuildProtocol.SomeoneCanMove | internal/template/builder/manager.go:181-183 | the lock never wedges: for a build that is not done there is a step that it, or the holder of the lock, can take |
| BuildProtocol.RunIsASchedule | internal/template/builder/manager.go:161-215 | the goroutine as the class runs it is one schedule of its steps |
| SinkWriter.Writer.Write | internal/template/builder/executor.go:138-160 | hands over the whole lines there now are and keeps the unfinished rest |
| SinkWriter.Writer.Flush | internal/template/builder/executor.go:162-179 | hands over the rest and empties the buffer |
| SinkWriter.TrimNewline | internal/template/builder/executor.go:188-193 | takes off exactly the line ends at the end |
| SinkWriter.TrimMeaning | internal/template/builder/executor.go:188-193 | what is taken off is line ends only, and none is left at the end |
| SinkWriter.ChunkingDoesNotMatter | internal/template/builder/executor.go:126-193 | however the stream is cut, the messages are the stripped non-empty lines of the whole, in order |
| Bytes.CutIsUnique | internal/template/builder/executor.go:142-150 | the pieces of a stream are the only separator-free ones that join to it |
| Bytes.ByteOrder | internal/agent/upstream/ready.go:87-90 | numbers are written with the high byte first |
| Translate.Translate | internal/template/builder/translate.go:83-247 | success exactly if one base is given and every step is good, the file then starting from the image named and ending in the agent and its wrapper; otherwise the error of the first thing wrong |
| Translate.EmitStep | internal/template/builder/translate.go:127-226 | one step's instructions, told by its arguments: the override user around a RUN only, owner, mode and staged path of a COPY, the pairs of an ENV in order, a fresh ARG first when forced |
| Translate.CheckTells | internal/template/builder/translate.go:127-226 | a step is taken exactly if it is good, and each fault has its own error |
| Translate.CompiledIsFramed | internal/template/builder/translate.go:95-111 | the file starts from the image the input names, makes the account, and ends in agent, wrapper and CMD |
| Translate.PairsAt | internal/template/builder/translate.go:211-222 | the pairs of an ENV step are its arguments two by two |
| TranslateMeaning.TranslationKeepsMeaning | internal/template/builder/translate.go:116-247 | on the image the input names: the built image is what the steps ask for, its user is root, and the commands with their users and the copies with their owners are the same exactly if the named image's user is root or the scan of the steps finds no harm |
| TranslateMeaning.BuildsIfComplete | internal/template/builder/translate.go:140-226 | the builder takes the file exactly if no step leaves a needed word empty, a user name among them, and both the named image and the agent's image are there |
| TranslateMeaning.StepKeepsBeside | internal/template/builder/translate.go:144-209 | one step keeps the build beside the meaning; an override lasts one step |
| TranslateMeaning.ChainKeepsMeaning | internal/template/builder/translate.go:97-241 | along any chain of builds, each starting from the tag the one before stored its image under, the stored image is the one asked for and every build after the first does what its steps ask |
| TranslateMeaning.RequiredIsExact | internal/template/builder/translate.go:193-196 | the required hashes are those of the COPY steps, each once, in order of first use |
| TranslateMeaning.OtherBaseUserGoesWrong | internal/template/builder/translate.go:116-122 | on a base image with another user, any build that begins with a plain COPY does something else than asked |
| EnvLine.QuoteEnvValue | internal/template/builder/translate.go:252-278 | the value as it is, or quoted and escaped exactly if it is empty or holds a blank, tab, double quote, backslash or dollar sign |
| EnvLine.EnvLineRoundTrip | internal/template/builder/translate.go:211-222 | the line reads back as its pairs exactly if every value is safe |
| TemplateStore.Store.Create | internal/template/store.go:205-240 | memory and file after a create, for a taken alias and a failed write too |
| TemplateStore.Store.SeedBuiltIn | internal/template/store.go:161-190 | updates the holder of the alias or adds the built-in |
| TemplateStore.Store.Delete | internal/template/store.go:308-330 | removes template and alias, puts both back if the write fails |
| TemplateStore.Store.UpdateMeta | internal/template/store.go:336-361 | applies the change and moves the alias, or refuses it |
| TemplateStore.Store.AppendBuild | internal/template/store.go:365-379 | adds the build, takes it back if the write fails |
| TemplateStore.Store.UpdateBuild | internal/template/store.go:384-398 | changes the first build with the id |
| TemplateStore.Store.Flush | internal/template/store.go:120-146 | writes every template once in order of creation, whatever order the map is walked in, or leaves the file as it was |
| TemplateStore.SortByCreated | internal/template/store.go:128-130 | the same templates in order of creation |
| TemplateStore.Store.Load | internal/template/store.go:89-117 | reads the file in order, skipping templates without id; loads nothing from a file that cannot be read or parsed |
| TemplateStore.Store.Lookup | internal/template/store.go:272-287 | id first, then alias |
| TemplatePromises.CreateKeepsPromise | internal/template/store.go:205-240 | a created template holds the fields given, its alias the name where none is given; refused for a taken alias, and undone when the write fails |
| TemplatePromises.SeedKeepsPromise | internal/template/store.go:161-190 | a known built-in gets the image and commands given and keeps the rest; a new one has one ready build |
| TemplatePromises.DeleteKeepsPromise | internal/template/store.go:308-330 | which template and which alias go, and what a failed write puts back |
| TemplatePromises.UpdateKeepsPromise | internal/template/store.go:336-361 | the change is kept whole and the alias moved, or the alias alone is refused |
| TemplatePromises.AppendKeepsPromise | internal/template/store.go:365-379 | the build given is the last one, or nothing has changed |
| TemplatePromises.ChangeKeepsPromise | internal/template/store.go:384-398 | the first build with the id is changed, and nothing else |
| TemplatePromises.LastIsLoaded | internal/template/store.go:107-117 | of several templates with an id the last in the file is loaded |
| TemplatePromises.LoadedIsLast | internal/template/store.go:107-117 | and nothing else is loaded, in particular none without id |
| TemplatePromises.LastHasTheAlias | internal/template/store.go:107-117 | of several templates with an alias the last has it |
| TemplatePromises.AliasIsTheLasts | internal/template/store.go:107-117 | and there are no other aliases |
| TemplateRuns.RunIsCoherent | internal/template/store.go:161-398 | over any operation sequence the alias index is the inverse of the non-empty aliases |
| TemplateRuns.SeedNeedsAnAlias | internal/template/store.go:161-190 | seeding keeps that exactly if the built-in has an alias |
| TemplateRuns.FailureLeavesMemoryAlone | internal/template/store.go:232-377 | a Create, Delete or AppendBuild that does not succeed leaves memory as it was |
| TemplateRuns.FailedDeleteRestores | internal/template/store.go:319-328 | the undo of Delete is exact if and only if the alias pointed to the template |
| TemplateRuns.FailedUpdateLeavesTheChange | internal/template/store.go:343-359 | UpdateMeta leaves memory alone only where the change was empty, the alias aside when it was refused |
| TemplateRuns.ReloadIsExact | internal/template/store.go:107-130 | any file flush may write loads as the memory it was written from |
| TemplateRuns.SuccessIsDurable | internal/template/store.go:119-146 | after any successful change, reloading gives the memory back |
| TemplateRuns.RestartLosesNothing | internal/template/store.go:60-78 | and it stays so until an operation without undo fails |
| TemplateRuns.AliasFindsItsTemplate | internal/template/store.go:256-268 | an alias finds exactly the template that carries it |
| TemplateRuns.IdsComeFirst | internal/template/store.go:272-287 | a name is an id first and an alias only if nobody has that id |
| TemplateRuns.NamelessSeedCrashes | internal/template/store.go:165-169 | seed without alias, delete, seed again: a lookup that leads nowhere |
| TemplateRuns.NoCrash | internal/template/store.go:165-169 | without such seeds it never happens |
| FileCache.ReaderSeesOneWholePut | internal/template/filecache/filecache.go:78-142 | under any interleaving and crash a reader sees the complete bytes of one Put for its hash whose input ended without error |
| FileCache.BlobsStay | internal/template/filecache/filecache.go:98-142 | a present blob never disappears and an open file never changes |
| FileCache.ReturnedPutsTellTheTruth | internal/template/filecache/filecache.go:98-142 | an error means nothing of that Put can be opened, success that the hash is present |
| FileCache.NoPartRemains | internal/template/filecache/filecache.go:115-140 | once all Puts are done the part files are exactly the stranded ones |
| FileCache.StepKeepsInv | internal/template/filecache/filecache.go:98-142 | every step of a Put, an open and a crash keep each published file whole and each part file in one hand |
| FileCache.HashIsHex | internal/template/filecache/filecache.go:36-38 | a hash is 64 digits out of 0123456789abcdef |
| FileCache.Cache.Has | internal/template/filecache/filecache.go:64-76 | whether the blob is present, a missing one being an answer; errors for an invalid hash and for a failing stat |
| FileCache.Cache.Open | internal/template/filecache/filecache.go:81-90 | the file now under that name, or the one of three errors that applies |
| FileCache.Cache.Put | internal/template/filecache/filecache.go:98-142 | the whole directory after one Put, for every failure; success exactly if the hash is valid and the blob was there or nothing failed, the new blob then holding all the input |
| FileCache.LonePutIsARun | internal/template/filecache/filecache.go:98-142 | a Put on its own is a run of the steps |
| Dns.ReadQuestion | internal/dns/server.go:181-210 | the loop computes the parse of the first question |
| Dns.QuestionRoundTrip | internal/dns/server.go:181-210 | parsing inverts the encoding of any labels of 1 to 63 bytes |
| Dns.AcceptedQuestionsAreEncoded | internal/dns/server.go:181-210 | and nothing else is accepted |
| Dns.BuildHeader | internal/dns/server.go:223-231 | the header's twelve bytes |
| Dns.BuildResp | internal/dns/server.go:235-256 | the reply with echoed question and at most one answer |
| Dns.RepliesAreWellFormed | internal/dns/server.go:136-178 | each reply decodes, under an independent reader with compression pointers, to the query's id, QR and AA set, code 1, 5 or 0, its question and a 60-second A record exactly in the good case and where there is a four-byte address |
| Dns.ResponseDecodes | internal/dns/server.go:235-256 | the answer's 0xC00C pointer leads back to the question's name |
| Dns.SilentWhen | internal/dns/server.go:137-147 | only short messages and responses go unanswered |
| Dns.ForwardsTheRest | internal/dns/server.go:152-178 | forwarding is asked for exactly outside the domain, and name and type of the query are told |
| Dns.InDomainOfTheText | internal/dns/server.go:157-159 | for every list of ASCII labels: the test looks at the pieces between the dots of the name's text |
| Dns.InDomainByLabel | internal/dns/server.go:157-159 | for dot-free ASCII labels it is the label-by-label, case-insensitive test |
| Dns.AnswersExactlyTheDomain | internal/dns/server.go:157-177 | an A record exactly for A/IN names whose dot-free ASCII labels end with the base domain's, case aside |
| Dns.DottedLabelPasses | internal/dns/server.go:157-159 | any text, a dot and the base domain in one label is taken for a name in the domain |
| Envelope.EncodeRequest | internal/agent/upstream/ready.go:87-90 | the request is one plain frame, its length in four bytes, the high one first |
| Envelope.DecodeEndExit | internal/agent/upstream/ready.go:129-157 | the loop computes the decoding and terminates on all inputs |
| Envelope.DecodeUndoesEncode | internal/agent/upstream/ready.go:124-157 | decoding concatenated frames gives the first end event outside a trailer, or the no-end error |
| Envelope.MeaningIsFirstEnd | internal/agent/upstream/ready.go:141-154 | that meaning is the exit code of the first frame with an end event and without the trailer bit, and the no-end error if there is none |
| Envelope.CutIsTold | internal/agent/upstream/ready.go:134-137 | a cut inside a payload is told as a truncation at that frame, one inside a header is not told |

## Left out

- Sandbox and template records are values in the registry maps: sharing of a record between the map and a caller's pointer is not modelled beyond what removal and later writes do to the map.
- The agent's ping, init and ready loops are one call each that works or fails; the machine takes them in one step.
- Only the in-memory runtime's flags are modelled; Docker calls, networks, sockets, stats, snapshots and image builds are foreign. What an image brings along is part of the Docker restart round trip only; the in-memory runtime has no images. Containers in transitional states, which listing skips, are not modelled.
- Counters are unbounded integers: 64-bit wrap-around of ring positions and times is not modelled (it is for the scaled limits).
- SandboxManager.SortByPausedAt: the sort is an insertion sort; only order and contents are promised, as for the library sort.
- BuildManager.Manager.Cancel: only the signal is modelled; what the executor makes of it is its own ending.
- A completion callback is always configured; without one nothing is recorded. Panics in an executor and appends after its return are not modelled.
- Messages in BuildProtocol carry their time but the clock's order plays no part.
- SinkWriter: level, source and time of a line are constant or from the clock and left out.
- Output of Translate is a list of instructions, not text; only the ENV line is modelled down to its characters. Line breaks inside commands, line continuation and variable expansion are not modelled. A cache-bust ARG counts as having no effect.
- TranslateMeaning.BuildsIfComplete: a word is taken as one word, so blanks inside a user name or a path, which would split it in the file, are not told; and a RUN command always succeeds in the model, though making the `user` account does not as a non-root base user (`internal/template/builder/translate.go:111`).
- An image a file names and the builder does not have counts as a failed build: fetching it from a registry is not modelled.
- The user an image names is taken as its effective user; group parts of user names are not told apart.
- JSON, HMAC, base64, tar, gzip and hex are taken as lossless; a ready probe's event parser is a parameter of the decoder.
- TemplateStore.Store.Flush: the part file beside the store's file, and directory creation, are not modelled; a failed write leaves the file as it was.
- Case folding is a parameter of which only its effect on ASCII text is known; the socket loop and forwarding to an upstream resolver are not modelled, nor is the RD bit, which replies clear.
- HTTP routes, authentication, the reverse proxy, dashboard and command line are plumbing; of the build endpoints only the order of status and log reads is modelled.
- Pagination of listings, host and path parsing and version parsing would add easy members only.
