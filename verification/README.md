# Podspinner orchestrator, modelled in Dafny

Podspinner provisions a fleet of SSH-reachable containers with `podman`. Its
`Orchestrator` class (`src/orchestrator.ts`) does the following:

- It keeps the list of tracked containers, persisted to
  `./orchestrator-state.json`.
- `startContainers` runs a fixed sequence:
  - pull the base image;
  - stage the scripts and the init script into the build context;
  - render and write a Dockerfile;
  - build an image tagged `orchestrator-<millis>`;
  - launch `count` containers named `orch-server-<i+1>` on ports
    `portStart + i`;
  - save the state once;
  - write an SSH client configuration.
- `stopAllContainers` stops every tracked container and empties the list.
- `getStatus` / `listContainers` report every record together with what
  `podman inspect` says about it.
- `cleanup` drops the records whose container is gone or terminated, with a
  `podman rm` for the terminated ones.

The model has one module per concern:

- **Fleet** (`fleet.dfy`): the data model.
  - Container records, the provisioning configuration and inspection results.
  - The engine commands and the other observable effects: copies, file
    writes and state saves.
  - Batch naming and staged file names.
- **DockerfileRender** (`dockerfile.dfy`): `generateDockerfile` as a pure
  function, `Dockerfile(c) == Render(Boilerplate(), c)`.
  - The layout lemmas are stated for every choice of the fixed texts
    (`Texts`), so they hold in particular for the orchestrator's own texts.
- **SshConfigRender** (`sshconfig.dfy`): the text `generateSshConfig` writes,
  `SshConfig(records)`.
- **Reconcile** (`reconcile.dfy`): the report of `getStatus` (`Status`,
  `Entries`) and the filter of `cleanup` (`Survivors`).
  - Both are functions of the records and of the engine's answers to
    `podman inspect`.
  - An id missing from those answers stands for a failed inspect.
- **Engine** (`engine.dfy`): the outside world, as an oracle class `Host`.
  - Its fields fix every answer:
    - which images pull;
    - whether the build succeeds;
    - the ids successive runs print;
    - the inspections;
    - the readable and writable paths;
    - `$HOME`;
    - the state file's contents.
  - It logs every effect asked of it, in order, including those that fail.
- **Orchestration** (`orchestrator.dfy`): the `Orchestrator` class, whose
  field `containers` its methods update in place.
  - The loops of start, stop-all, status and cleanup are `while` loops with
    invariants.
  - Each method states its new list, the new state-file contents and the
    exact log of effects, in terms of the functions above.
  - An exception thrown by `startContainers` is its `StartOutcome`.
- **Text** (`text.dfy`): decimal printing of integers, `join` and `split`,
  the two ways the source takes the last component of a path, and `Occurs`
  (a string found at an offset), in which the layout lemmas are stated.
- **Sequences** (`seqs.dfy`): small sequence facts used by the loop proofs.

## Model

| member | source | states |
|---|---|---|
| Text.DecimalInjective | src/orchestrator.ts:131 | two ordinals print as the same numeral only if they are equal (checked against `DecimalValue`, which reads a numeral back) |
| Text.IntTextInjective | src/orchestrator.ts:337 | a port, negative or not, prints as a text no other port prints as |
| Text.SplitJoin | src/orchestrator.ts:180 | splitting `parts.join(c)` on `c` gives the parts back when no part contains `c` |
| Text.LastSegmentSuffix | src/orchestrator.ts:188 | `split('/').pop()` holds no '/', ends the path, and is the whole path or starts right after a '/' |
| Text.BasenameSegment | src/orchestrator.ts:82 | `basename(p)` holds no '/' and equals `split('/').pop()` when `p` does not end in '/' |
| Fleet.StagedNamesDistinct | src/orchestrator.ts:80-83 | two different script indices never share a staged file name, even when the base names coincide |
| Fleet.StageEffects | src/orchestrator.ts:80-87 | one staging copy per script |
| Fleet.LaunchEffects | src/orchestrator.ts:130-156 | one `podman run` per launched ordinal |
| Fleet.BatchIdentitiesDistinct | src/orchestrator.ts:131-132 | within a batch, names and ports are pairwise distinct |
| DockerfileRender.StartsFromImage | src/orchestrator.ts:220 | the Dockerfile starts with `FROM <image>` on its own line |
| DockerfileRender.InstallArguments | src/orchestrator.ts:179-181 | the install instruction installs `openssh-server` and then the packages joined by single spaces; splitting its arguments on ' ' gives exactly `openssh-server` and the packages |
| DockerfileRender.InstallLine | src/orchestrator.ts:220-225 | the install instruction is a line of its own, right after the sudo section |
| DockerfileRender.SectionsInPlace | src/orchestrator.ts:237-242 | the script copies, init setup, custom instructions, EXPOSE section and command follow each other, each right after the text in front of it |
| DockerfileRender.ScriptBlockAt | src/orchestrator.ts:185-191 | script i's COPY/chmod pair sits right after the pairs of the scripts before it |
| DockerfileRender.ScriptStep | src/orchestrator.ts:189-190 | each `+=` of the script loop appends exactly script i's pair |
| DockerfileRender.ScriptBlocksInOrder | src/orchestrator.ts:187-191 | the COPY/chmod pairs appear in script order without overlapping |
| DockerfileRender.ScriptsEndAtInit | src/orchestrator.ts:237 | the last script pair ends where the init-script section starts |
| DockerfileRender.CustomBeforeExpose | src/orchestrator.ts:214-239 | a non-empty custom fragment appears verbatim after its header and before `EXPOSE 22` |
| DockerfileRender.EndsWithCommand | src/orchestrator.ts:241-242 | the file ends with the `CMD ` header and the startup command |
| DockerfileRender.StartupCommandChoice | src/orchestrator.ts:195-211 | the command is the startup wrapper exactly when an init script is given, and `sshd -D` exactly when none is |
| DockerfileRender.StagedNamesAreCopySources | src/orchestrator.ts:188-189 | the staged name of a script or init script is the name the Dockerfile copies from, for paths not ending in '/' |
| DockerfileRender.CopySourceInBlock | src/orchestrator.ts:189 | a script's COPY line reads from its copy source |
| DockerfileRender.ScriptCopiedFromStagedFile | src/orchestrator.ts:187-189 | the COPY of script i reads the file that staging wrote for script i |
| DockerfileRender.InitCopiedFromStagedFile | src/orchestrator.ts:199-202 | the COPY of the init script reads the file that staging wrote for it |
| SshConfigRender.SshConfigAppend | src/orchestrator.ts:333-343 | one more record appends exactly its entry and changes nothing before it |
| SshConfigRender.EntryAt | src/orchestrator.ts:330-343 | the file starts with the header, and record k's entry follows the entries of the records before it |
| SshConfigRender.EntriesInOrder | src/orchestrator.ts:333 | the entries appear in record order without overlapping |
| SshConfigRender.EntryLines | src/orchestrator.ts:334-337 | an entry is the comment line, then `Host orch-<name>`, `HostName localhost`, `Port <port>`, then the login options, which start with `User root` |
| SshConfigRender.AliasAndPortAt | src/orchestrator.ts:335-337 | record k's alias line and port line are found in the file at the place of its entry |
| SshConfigRender.AliasesDistinguish | src/orchestrator.ts:335-337 | two alias lines (or port lines) are equal exactly when the names (ports) are |
| Reconcile.Entries | src/orchestrator.ts:271-290 | one entry per record, in order, built from that record's inspect |
| Reconcile.StatusEntries | src/orchestrator.ts:268-296 | total is the record count; each entry keeps id, name, port and creation time; its status is the inspected one, "unknown" when that is missing or empty, or "not_found" with no uptime when the inspect failed; its uptime is the start time or else the creation time |
| Reconcile.EntriesAppend | src/orchestrator.ts:271-290 | the report on a concatenation is the concatenation of the reports |
| Reconcile.Survivors | src/orchestrator.ts:306-323 | cleanup never adds records |
| Reconcile.SurvivorsMembers | src/orchestrator.ts:306-323 | a record survives exactly when it was tracked, its inspect succeeds and its status is neither exited nor stopped |
| Reconcile.SurvivorsAppend | src/orchestrator.ts:306-323 | survivors keep their relative order |
| Reconcile.SurvivorsIdempotent | src/orchestrator.ts:303-327 | a second cleanup against the same engine answers keeps everything the first one kept |
| Reconcile.VisitFilters | src/orchestrator.ts:318-322 | visiting one more record removes its id from the filtered list exactly when cleanup does not keep it |
| Reconcile.WithoutDropped | src/orchestrator.ts:306-324 | after every record is visited, dropping the dropped ids leaves exactly the survivors, duplicated ids included |
| Reconcile.RemovesOnlyTerminated | src/orchestrator.ts:311-315 | `podman rm <id>` is issued exactly for ids of records inspected as exited or stopped; never after a failed inspect |
| Reconcile.CleanupInspectsEach | src/orchestrator.ts:306-309 | every visited record is inspected, and its inspect comes right after the effects of the records visited before it |
| Engine.Host.PullImage | src/orchestrator.ts:74 | the pull succeeds exactly for pullable images and is logged |
| Engine.Host.BuildImage | src/orchestrator.ts:117 | the build's outcome is the oracle's, and it is logged |
| Engine.Host.RunContainer | src/orchestrator.ts:156 | a run prints the next id and consumes it, or fails when none is left; logged |
| Engine.Host.StopContainer | src/orchestrator.ts:256 | the stop is logged |
| Engine.Host.RemoveContainer | src/orchestrator.ts:315 | the removal is logged |
| Engine.Host.InspectContainer | src/orchestrator.ts:309 | the inspect answers from the oracle (none when it fails) and is logged |
| Engine.Host.Copy | src/orchestrator.ts:86 | the copy succeeds exactly when the source is readable, and is logged |
| Engine.Host.Write | src/orchestrator.ts:112 | the write succeeds exactly when the path is writable, and is logged |
| Engine.Host.Save | src/orchestrator.ts:54 | the state file receives the records when it is writable and keeps its contents otherwise |
| Orchestration.FirstUnreadable | src/orchestrator.ts:80-91 | every script before the returned index is readable and the one at it (if any) is not |
| Orchestration.Launches | src/orchestrator.ts:130 | the batch launches `count` containers (none when count is not positive) unless the run ids run out first |
| Orchestration.PreparationOutcome | src/orchestrator.ts:72-117 | preparation starts with the pull, fails with PullFailed exactly when the image cannot be pulled, succeeds exactly when pull, every copy, the Dockerfile write and the build succeed, and never starts a container or saves the state |
| Orchestration.StagedScriptsFeedTheBuild | src/orchestrator.ts:80-112 | after a successful staging, effect 1+i is the copy of script i to its staged name, and the Dockerfile's COPY of script i reads that file |
| Orchestration.SavedOnceAfterBatch | src/orchestrator.ts:130-172 | after a whole batch the log holds exactly one state save, right after the last run; after a failed run it holds none |
| Orchestration.StageScripts | src/orchestrator.ts:80-92 | copies the scripts in order up to and including the first that fails, and returns that index |
| Orchestration.StageContext | src/orchestrator.ts:72-108 | pull, script staging and init staging issue the effects of `Stage` and fail as it says |
| Orchestration.PrepareImage | src/orchestrator.ts:72-117 | the preparation issues the effects of `Prepare` with the rendered Dockerfile, and fails as it says |
| Orchestration.Orchestrator.constructor | src/orchestrator.ts:36-38 | the orchestrator tracks the records it was loaded with |
| Orchestration.Orchestrator.SaveState | src/orchestrator.ts:52-58 | one state save of the tracked list; a failed write is swallowed |
| Orchestration.Orchestrator.GenerateSshConfig | src/orchestrator.ts:329-359 | writes `SshConfig(containers)` to `$HOME/.ssh/config.orchestrator`, failing exactly when that path is not writable |
| Orchestration.Orchestrator.StartContainers | src/orchestrator.ts:69-176 | a preparation failure leaves the list, run ids and state file unchanged; otherwise the batch is appended, a failed run ends it unsaved, and a whole batch is saved once and followed by the SSH configuration write |
| Orchestration.Orchestrator.Provision | src/orchestrator.ts:129-176 | from a built image: appends the batch, then saves and writes the SSH configuration only when every run succeeded |
| Orchestration.Orchestrator.LaunchBatch | src/orchestrator.ts:130-167 | appends `Launched` for the run ids consumed, one run per ordinal, ending at the first failed run |
| Orchestration.Orchestrator.StopAllContainers | src/orchestrator.ts:245-266 | one stop per record in order, then an empty list saved once; with nothing tracked, no effect at all |
| Orchestration.Orchestrator.GetStatus | src/orchestrator.ts:268-296 | returns `Status(containers, inspections)` after one inspect per record; the list is unchanged |
| Orchestration.Orchestrator.ListContainers | src/orchestrator.ts:298-301 | returns the entries of the status report |
| Orchestration.Orchestrator.CleanupVisit | src/orchestrator.ts:306-323 | one visit: inspect, then drop the id after a failed inspect, or rm and drop it when terminated |
| Orchestration.Orchestrator.Cleanup | src/orchestrator.ts:303-327 | the list becomes the survivors in their order, after one inspect per record and an rm for each terminated one, followed by one save |

## Left out

- Loading the state file (`loadState`, src/orchestrator.ts:40-50) is not modelled. The constructor takes the records the file held. In the source the load is not awaited, so a command can run before the list is loaded; the model does not capture that ordering.
- JSON is not modelled: neither the state file's serialisation nor the parsing of `podman inspect` output. An inspect whose output does not parse counts as a failed inspect. A missing `State.Status` or `State.StartedAt` is `None`.
- Clocks are parameters. `Date.now()` is `millis`, and the `created` timestamp of ordinal i is `createdAt(i)`.
- Commands are structured values (`Command`, `RunArgs`), not rendered command lines. The fixed `-d` and `--cap-add` flags and the trimming of stdout are not represented. Failure messages are the `StartOutcome` constructors, not the error strings.
- The best-effort removal of the Dockerfile and the staged files after the build (src/orchestrator.ts:119-127) is left out. Its errors are ignored and it changes nothing the model observes.
- The `mkdir -p ~/.ssh` before the SSH configuration write (src/orchestrator.ts:349) is left out, because its failure is ignored.
- Logging to the console is left out, as is the CLI in `src/index.ts`.
- File-system semantics are reduced to membership: a copy succeeds when its source is in `readable`, and a write when its path is in `writable`.
- The engine's answers are fixed for the duration of a call. A container that changes state between two inspects is not modelled.
- `count` and `portStart` are unbounded integers. `parseInt` returning `NaN` is not modelled (for `count` it would launch nothing, like a non-positive count).
- Concurrent invocations sharing one state file are not modelled.
- DockerfileRender.StagedNamesAreCopySources, DockerfileRender.ScriptCopiedFromStagedFile, DockerfileRender.InitCopiedFromStagedFile and Orchestration.StagedScriptsFeedTheBuild require the path not to end in '/':
  - `basename` ignores trailing separators, while `split('/').pop()` then gives "";
  - such a path names a directory, which `copyFile` rejects.
- Fleet.StageEffects: its contract states the number of copies only. The copy at each index is stated by Orchestration.StagedScriptsFeedTheBuild and by the ensures of Orchestration.StageScripts.
- Fleet.LaunchEffects: its contract states the number of runs only. The run at each index is stated by Orchestration.SavedOnceAfterBatch and by Orchestration.Orchestrator.LaunchBatch.
- DockerfileRender.InstallLine: does not show that the Dockerfile holds exactly one install line. The image, the packages and the custom fragment are spliced in verbatim and may repeat it.

Behaviour of src/orchestrator.ts that the model keeps:

- The build-context files are removed only after a successful build. A failing copy, Dockerfile write or build throws before the removal.
- The image is pulled before any script is staged, so a staging failure comes after the pull.
- A failed `podman stop` does not abort `stopAllContainers`; the next record is still stopped.
- A failed state save is swallowed. The state file keeps its previous contents.
- `count >= 1` and a positive `portStart` are not checked. Any integer is accepted, and a non-positive count launches nothing.
