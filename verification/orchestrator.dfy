/**
 * The orchestrator: the list of tracked container records and the
 * operations over it. Provisioning prepares an image (pull, staging of the
 * scripts, the Dockerfile, build) and then launches a batch of containers;
 * stop-all, status and cleanup work through the tracked list. Everything the
 * orchestrator does outside itself goes through an `Engine.Host`.
 */
module Orchestration {
  import opened Text
  import opened Fleet
  import opened DockerfileRender
  import opened SshConfigRender
  import opened Reconcile
  import opened Engine
  import opened Sequences

  /** How `startContainers` ends: normally, or with the error it throws. */
  datatype StartOutcome =
    | Started
    | PullFailed
    | ScriptCopyFailed(index: nat)
    | InitCopyFailed
    | DockerfileWriteFailed
    | BuildFailed
    | RunFailed(ordinal: nat)
    | SshConfigWriteFailed

  /** The index of the first path that cannot be read (|paths| when all can). */
  function FirstUnreadable(paths: seq<string>, readable: set<string>): (k: nat)
    ensures k <= |paths|
    ensures forall j :: 0 <= j < k ==> paths[j] in readable
    ensures k < |paths| ==> paths[k] !in readable
  {
    if paths == [] || paths[0] !in readable then 0 else 1 + FirstUnreadable(paths[1..], readable)
  }

  /** The copies staging issues: up to and including the first that fails. */
  function StagingEffects(scripts: seq<string>, readable: set<string>): seq<Effect>
  {
    var k := FirstUnreadable(scripts, readable);
    if k < |scripts| then StageEffects(scripts)[..k + 1] else StageEffects(scripts)
  }

  /** The image preparation: the error that ends it, if any, and the effects it issued. */
  datatype Preparation = Preparation(failure: Option<StartOutcome>, effects: seq<Effect>)

  /**
   * Pull the base image, then stage the scripts and the init script into the
   * build context; the first step that fails ends the staging.
   */
  function Stage(c: Config, pullable: set<string>, readable: set<string>): Preparation
  {
    var pull := [Podman(Pull(c.image))];
    var k := FirstUnreadable(c.scripts, readable);
    if c.image !in pullable then Preparation(Some(PullFailed), pull)
    else if k < |c.scripts| then Preparation(Some(ScriptCopyFailed(k)), pull + StagingEffects(c.scripts, readable))
    else if c.initScript != "" && c.initScript !in readable then
      Preparation(Some(InitCopyFailed), pull + StagingEffects(c.scripts, readable) + InitEffects(c.initScript))
    else Preparation(None, pull + StagingEffects(c.scripts, readable) + InitEffects(c.initScript))
  }

  /**
   * Stage the build context, write `dockerfile` to `./Dockerfile` and build
   * the image tagged `tag`; the first step that fails ends the preparation.
   */
  function Prepare(c: Config, dockerfile: string, tag: string, pullable: set<string>, readable: set<string>,
                   writable: set<string>, buildSucceeds: bool): Preparation
  {
    var staged := Stage(c, pullable, readable);
    var written := staged.effects + [WriteFile(DockerfilePath, dockerfile)];
    if staged.failure.Some? then staged
    else if DockerfilePath !in writable then Preparation(Some(DockerfileWriteFailed), written)
    else if !buildSucceeds then Preparation(Some(BuildFailed), written + [Podman(Build(tag))])
    else Preparation(None, written + [Podman(Build(tag))])
  }

  /** The preparation `startContainers` runs against `host`: the Dockerfile it writes is `generateDockerfile(config)`. */
  function PrepareOn(host: Host, c: Config, tag: string): Preparation
    reads host`pullable, host`readable, host`writable, host`buildSucceeds
  {
    Prepare(c, Dockerfile(c), tag, host.pullable, host.readable, host.writable, host.buildSucceeds)
  }

  /** How many containers a batch launches when `available` run ids are left. */
  function Launches(c: Config, available: nat): (n: nat)
    ensures n <= LaunchCount(c) && n <= available
    ensures n == LaunchCount(c) || n == available
  {
    if LaunchCount(c) <= available then LaunchCount(c) else available
  }

  /** An effect that neither starts a container nor writes the state file. */
  predicate Quiet(e: Effect)
  {
    !e.SaveState? && !(e.Podman? && e.cmd.Run?)
  }

  /**
   * The preparation starts with the pull and succeeds exactly when the image
   * can be pulled, every script and the init script (if any) can be read,
   * the Dockerfile can be written and the build succeeds; it fails with
   * PullFailed exactly when the image cannot be pulled. Whatever happens, it
   * starts no container and does not save the state.
   */
  lemma PreparationOutcome(c: Config, dockerfile: string, tag: string, pullable: set<string>, readable: set<string>,
                           writable: set<string>, buildSucceeds: bool)
    ensures var p := Prepare(c, dockerfile, tag, pullable, readable, writable, buildSucceeds);
      && (p.failure == None <==>
            && c.image in pullable
            && (forall i :: 0 <= i < |c.scripts| ==> c.scripts[i] in readable)
            && (c.initScript == "" || c.initScript in readable)
            && DockerfilePath in writable && buildSucceeds)
      && (p.failure == Some(PullFailed) <==> c.image !in pullable)
      && p.effects != [] && p.effects[0] == Podman(Pull(c.image))
      && forall k :: 0 <= k < |p.effects| ==> Quiet(p.effects[k])
  {
    var p := Prepare(c, dockerfile, tag, pullable, readable, writable, buildSucceeds);
    var st := Stage(c, pullable, readable);
    var staging := StagingEffects(c.scripts, readable);
    assert forall k :: 0 <= k < |staging| ==> staging[k].CopyFile? by {
      var se := StageEffects(c.scripts);
      assert forall k :: 0 <= k < |se| ==> se[k].CopyFile?;
    }
    assert forall k :: 0 <= k < |st.effects| ==> Quiet(st.effects[k]);
    assert forall k :: 0 <= k < |p.effects| ==> Quiet(p.effects[k]);
  }

  /**
   * When staging succeeds, script i was copied to `./script_<i>_<basename>`
   * (the effect right after the pull and the i earlier copies), and the
   * Dockerfile's COPY for script i reads that very file whenever the path
   * does not end in '/'.
   */
  lemma StagedScriptsFeedTheBuild(c: Config, pullable: set<string>, readable: set<string>, i: nat)
    requires Stage(c, pullable, readable).failure == None
    requires i < |c.scripts|
    requires c.scripts[i] == [] || c.scripts[i][|c.scripts[i]| - 1] != '/'
    ensures Stage(c, pullable, readable).effects[1 + i] == CopyFile(c.scripts[i], StagedScriptName(i, c.scripts[i]))
    ensures Occurs(StagedScriptName(i, c.scripts[i]), Dockerfile(c), |BeforeScript(Boilerplate(), c, i) + "COPY "|)
  {
    var staging := StagingEffects(c.scripts, readable);
    assert staging == StageEffects(c.scripts);
    assert Stage(c, pullable, readable).effects[1 + i] == staging[i];
    ScriptCopiedFromStagedFile(Boilerplate(), c, i);
  }

  /**
   * After a successful preparation and a whole batch of `n` runs, the log
   * holds exactly one state save, right after the last run; when a run
   * failed, it holds none.
   */
  lemma SavedOnceAfterBatch(prep: seq<Effect>, c: Config, tag: string, n: nat, after: seq<ContainerRecord>, home: string)
    requires forall k :: 0 <= k < |prep| ==> Quiet(prep[k])
    requires n <= LaunchCount(c)
    ensures var log := prep + ProvisionEffects(c, tag, n, after, home);
      && (n == LaunchCount(c) ==>
            && |log| == |prep| + n + 2 && log[|prep| + n] == Effect.SaveState(after)
            && forall k :: 0 <= k < |log| ==> (log[k].SaveState? <==> k == |prep| + n))
      && (n < LaunchCount(c) ==> forall k :: 0 <= k < |log| ==> !log[k].SaveState?)
  {
    var log := prep + ProvisionEffects(c, tag, n, after, home);
    var m := if n < LaunchCount(c) then n + 1 else n;
    var runs := LaunchEffects(c, tag, m);
    assert forall k :: 0 <= k < m ==> runs[k] == Podman(Run(LaunchArgs(c, tag, k)));
    forall k | 0 <= k < |prep| + m
      ensures !log[k].SaveState?
    {
      if k < |prep| {
        assert log[k] == prep[k] && Quiet(prep[k]);
      } else {
        assert log[k] == runs[k - |prep|];
      }
    }
  }

  /**
   * What the launch phase issues when `n` runs succeed: the runs, then, when
   * the whole batch ran, the state save and the SSH configuration write;
   * when run n failed, that run is the last effect.
   */
  function ProvisionEffects(c: Config, tag: string, n: nat, after: seq<ContainerRecord>, home: string): seq<Effect>
  {
    if n < LaunchCount(c) then LaunchEffects(c, tag, n + 1)
    else LaunchEffects(c, tag, n) + [Effect.SaveState(after), WriteFile(SshConfigPath(home), SshConfig(after))]
  }

  /** Copies script i to `./script_<i>_<basename>`, in order, stopping at the first copy that fails. */
  method StageScripts(host: Host, scripts: seq<string>) returns (k: nat)
    modifies host`log
    ensures k == FirstUnreadable(scripts, host.readable)
    ensures host.log == old(host.log) + StagingEffects(scripts, host.readable)
  {
    k := 0;
    while k < |scripts|
      invariant 0 <= k <= |scripts|
      invariant k <= FirstUnreadable(scripts, host.readable)
      invariant host.log == old(host.log) + StageEffects(scripts)[..k]
    {
      var ok := host.Copy(scripts[k], StagedScriptName(k, scripts[k]));
      PrefixStep(StageEffects(scripts), k);
      if !ok {
        return;
      }
      k := k + 1;
    }
    assert StageEffects(scripts)[..k] == StageEffects(scripts);
  }

  /** Pull the base image and stage the scripts and the init script; the first failure throws. */
  method StageContext(host: Host, c: Config) returns (failure: Option<StartOutcome>)
    modifies host`log
    ensures failure == Stage(c, host.pullable, host.readable).failure
    ensures host.log == old(host.log) + Stage(c, host.pullable, host.readable).effects
  {
    ghost var log0 := host.log;
    var pull := [Podman(Pull(c.image))];
    var ok := host.PullImage(c.image);
    if !ok {
      return Some(PullFailed);
    }
    var k := StageScripts(host, c.scripts);
    ghost var staging := StagingEffects(c.scripts, host.readable);
    AppendAssoc(log0, pull, staging);
    if k < |c.scripts| {
      return Some(ScriptCopyFailed(k));
    }
    if c.initScript != "" {
      ok := host.Copy(c.initScript, StagedInitName(c.initScript));
      AppendAssoc(log0, pull + staging, InitEffects(c.initScript));
      if !ok {
        return Some(InitCopyFailed);
      }
    } else {
      assert pull + staging + InitEffects(c.initScript) == pull + staging;
    }
    failure := None;
  }

  /** The steps of `startContainers` before the launch loop; the first failure throws. */
  method PrepareImage(host: Host, c: Config, tag: string) returns (failure: Option<StartOutcome>)
    modifies host`log
    ensures failure == PrepareOn(host, c, tag).failure
    ensures host.log == old(host.log) + PrepareOn(host, c, tag).effects
  {
    ghost var staged := Stage(c, host.pullable, host.readable).effects;
    failure := StageContext(host, c);
    if failure.Some? {
      return;
    }
    var text := Dockerfile(c);
    var ok := host.Write(DockerfilePath, text);
    AppendAssoc(old(host.log), staged, [WriteFile(DockerfilePath, text)]);
    if !ok {
      return Some(DockerfileWriteFailed);
    }
    ok := host.BuildImage(tag);
    AppendAssoc(old(host.log), staged + [WriteFile(DockerfilePath, text)], [Podman(Build(tag))]);
    failure := if ok then None else Some(BuildFailed);
  }

  class Orchestrator {
    /** The tracked containers, in the order they were started. */
    var containers: seq<ContainerRecord>

    /** An orchestrator tracking `initial`, the records its state file held. */
    constructor(initial: seq<ContainerRecord>)
      ensures containers == initial
    {
      containers := initial;
    }

    /** `saveState()`: the state file receives the tracked records. */
    method SaveState(host: Host)
      modifies host`log, host`saved
      ensures host.log == old(host.log) + [Effect.SaveState(containers)]
      ensures host.saved == if StateFilePath in host.writable then containers else old(host.saved)
    {
      host.Save(containers);
    }

    /** `generateSshConfig()`: writes one Host entry per tracked record to `~/.ssh/config.orchestrator`. */
    method GenerateSshConfig(host: Host) returns (ok: bool)
      modifies host`log
      ensures ok <==> SshConfigPath(host.home) in host.writable
      ensures host.log == old(host.log) + [WriteFile(SshConfigPath(host.home), SshConfig(containers))]
    {
      ok := host.Write(SshConfigPath(host.home), SshConfig(containers));
    }

    /**
     * `startContainers(config)`. A failure while preparing the image leaves
     * the tracked list and the state file alone. A failed run ends the batch
     * with the containers launched so far tracked but not saved. Otherwise
     * all `count` containers are appended, the state is saved once, and the
     * SSH configuration is written.
     */
    method StartContainers(host: Host, c: Config, millis: nat, createdAt: nat -> string) returns (outcome: StartOutcome)
      modifies this, host`log, host`runIds, host`saved
      ensures var p := PrepareOn(host, c, ImageTag(millis));
        p.failure.Some? ==>
          && outcome == p.failure.value && containers == old(containers)
          && host.log == old(host.log) + p.effects && host.runIds == old(host.runIds) && host.saved == old(host.saved)
      ensures var p := PrepareOn(host, c, ImageTag(millis));
        p.failure.None? ==>
          && ProvisionedOn(host, c, ImageTag(millis), createdAt, old(containers), old(host.runIds), old(host.saved),
                           containers, outcome)
          && host.log == old(host.log) + p.effects
             + ProvisionEffects(c, ImageTag(millis), Launches(c, |old(host.runIds)|), containers, host.home)
    {
      var tag := ImageTag(millis);
      var failure := PrepareImage(host, c, tag);
      if failure.Some? {
        return failure.value;
      }
      outcome := Provision(host, c, tag, createdAt);
    }

    /**
     * What `startContainers` does once the image is built: the batch is
     * appended (record i with the i-th run id), the remaining run ids are
     * those not consumed; a failed run ends it with outcome RunFailed and
     * nothing saved; otherwise the state is saved and the outcome reflects
     * the SSH configuration write.
     */
    ghost predicate ProvisionedOn(host: Host, c: Config, tag: string, createdAt: nat -> string,
                                  before: seq<ContainerRecord>, ids: seq<string>, saved: seq<ContainerRecord>,
                                  after: seq<ContainerRecord>, outcome: StartOutcome)
      reads host`runIds, host`saved, host`writable, host`home
    {
      var n := Launches(c, |ids|);
      && after == before + Launched(c, ids[..n], createdAt)
      && host.runIds == ids[n..]
      && (n < LaunchCount(c) ==> outcome == RunFailed(n) && host.saved == saved)
      && (n == LaunchCount(c) ==>
            && outcome == (if SshConfigPath(host.home) in host.writable then Started else SshConfigWriteFailed)
            && host.saved == (if StateFilePath in host.writable then after else saved))
    }

    /** Launch the batch from the built image; when every run succeeded, save the state and write the SSH configuration. */
    method Provision(host: Host, c: Config, tag: string, createdAt: nat -> string) returns (outcome: StartOutcome)
      modifies this`containers, host`log, host`runIds, host`saved
      ensures ProvisionedOn(host, c, tag, createdAt, old(containers), old(host.runIds), old(host.saved), containers, outcome)
      ensures host.log == old(host.log) + ProvisionEffects(c, tag, Launches(c, |old(host.runIds)|), containers, host.home)
    {
      var n := LaunchBatch(host, c, tag, createdAt);
      if n < LaunchCount(c) {
        return RunFailed(n);
      }
      SaveState(host);
      var ok := GenerateSshConfig(host);
      AppendPair(old(host.log), LaunchEffects(c, tag, n), Effect.SaveState(containers),
                 WriteFile(SshConfigPath(host.home), SshConfig(containers)));
      outcome := if ok then Started else SshConfigWriteFailed;
    }

    /**
     * The launch loop of `startContainers`: container i is named
     * `orch-server-<i+1>`, published on `portStart + i` and tracked with the
     * id its run printed. A failed run ends the loop.
     */
    method LaunchBatch(host: Host, c: Config, tag: string, createdAt: nat -> string) returns (n: nat)
      modifies this`containers, host`log, host`runIds
      ensures n == Launches(c, |old(host.runIds)|)
      ensures containers == old(containers) + Launched(c, old(host.runIds)[..n], createdAt)
      ensures host.runIds == old(host.runIds)[n..]
      ensures host.log == old(host.log) + LaunchEffects(c, tag, if n < LaunchCount(c) then n + 1 else n)
    {
      n := 0;
      while n < LaunchCount(c)
        invariant 0 <= n <= LaunchCount(c) && n <= |old(host.runIds)|
        invariant host.runIds == old(host.runIds)[n..]
        invariant containers == old(containers) + Launched(c, old(host.runIds)[..n], createdAt)
        invariant host.log == old(host.log) + LaunchEffects(c, tag, n)
      {
        var id := host.RunContainer(LaunchArgs(c, tag, n));
        assert LaunchEffects(c, tag, n + 1) == LaunchEffects(c, tag, n) + [Podman(Run(LaunchArgs(c, tag, n)))];
        if id.None? {
          return;
        }
        containers := containers + [ContainerRecord(id.value, ServerName(n), c.portStart + n, "running", createdAt(n))];
        assert Launched(c, old(host.runIds)[..n + 1], createdAt) == Launched(c, old(host.runIds)[..n], createdAt)
          + [ContainerRecord(old(host.runIds)[n], ServerName(n), c.portStart + n, "running", createdAt(n))];
        n := n + 1;
      }
    }

    /**
     * `stopAllContainers()`: one stop per tracked record, in order, whatever
     * their outcome; then the list is emptied and saved. With nothing tracked
     * it does nothing at all.
     */
    method StopAllContainers(host: Host)
      modifies this, host`log, host`saved
      ensures containers == []
      ensures old(containers) == [] ==> host.log == old(host.log) && host.saved == old(host.saved)
      ensures old(containers) != [] ==>
        && host.log == old(host.log) + StopEffects(old(containers)) + [Effect.SaveState([])]
        && host.saved == (if StateFilePath in host.writable then [] else old(host.saved))
    {
      if |containers| == 0 {
        return;
      }
      var i := 0;
      while i < |containers|
        invariant 0 <= i <= |containers|
        invariant containers == old(containers)
        invariant host.log == old(host.log) + StopEffects(containers)[..i]
        invariant host.saved == old(host.saved)
      {
        host.StopContainer(containers[i].id);
        i := i + 1;
      }
      assert StopEffects(containers)[..i] == StopEffects(containers);
      containers := [];
      SaveState(host);
    }

    /**
     * `getStatus()`: inspects every tracked record, in order, and reports on
     * each; the tracked list itself is left alone.
     */
    method GetStatus(host: Host) returns (report: StatusReport)
      modifies host`log
      ensures report == Status(containers, host.inspections)
      ensures host.log == old(host.log) + InspectEffects(containers)
    {
      var entries: seq<StatusEntry> := [];
      var i := 0;
      while i < |containers|
        invariant 0 <= i <= |containers|
        invariant |entries| == i
        invariant forall k :: 0 <= k < i ==> entries[k] == EntryFor(containers[k], Inspected(host.inspections, containers[k].id))
        invariant host.log == old(host.log) + InspectEffects(containers)[..i]
      {
        var r := containers[i];
        var found := host.InspectContainer(r.id);
        entries := entries + [EntryFor(r, found)];
        i := i + 1;
      }
      assert InspectEffects(containers)[..i] == InspectEffects(containers);
      assert entries == Entries(containers, host.inspections);
      report := StatusReport(|containers|, entries);
    }

    /** `listContainers()`: the entries of the status report. */
    method ListContainers(host: Host) returns (list: seq<StatusEntry>)
      modifies host`log
      ensures list == Entries(containers, host.inspections)
      ensures host.log == old(host.log) + InspectEffects(containers)
    {
      var report := GetStatus(host);
      list := report.containers;
    }

    /**
     * One visit of `cleanup()`: inspect the record's id; when the inspect
     * fails, drop the id; when it reports exited or stopped, `podman rm` it
     * and drop the id.
     */
    method CleanupVisit(host: Host, r: ContainerRecord)
      modifies this`containers, host`log
      ensures containers == if Keeps(host.inspections, r) then old(containers) else RemoveId(old(containers), r.id)
      ensures host.log == old(host.log) + CleanupStep(r, host.inspections)
    {
      var found := host.InspectContainer(r.id);
      if found.None? {
        containers := RemoveId(containers, r.id);
      } else if Terminated(found.value) {
        host.RemoveContainer(r.id);
        containers := RemoveId(containers, r.id);
      }
    }

    /**
     * `cleanup()`: visits a snapshot of the tracked records, then saves. The
     * records kept are those whose inspect succeeds with a status other than
     * exited or stopped, in their original order.
     */
    method Cleanup(host: Host)
      modifies this, host`log, host`saved
      ensures containers == Survivors(old(containers), host.inspections)
      ensures host.log == old(host.log) + CleanupEffects(old(containers), host.inspections) + [Effect.SaveState(containers)]
      ensures host.saved == if StateFilePath in host.writable then containers else old(host.saved)
    {
      var snapshot := containers;
      var i := 0;
      assert DroppedIds(snapshot[..0], host.inspections) == {};
      WithoutNothing(snapshot);
      while i < |snapshot|
        invariant 0 <= i <= |snapshot|
        invariant containers == Without(snapshot, DroppedIds(snapshot[..i], host.inspections))
        invariant host.log == old(host.log) + CleanupEffects(snapshot[..i], host.inspections)
        invariant host.saved == old(host.saved)
      {
        var r := snapshot[i];
        CleanupVisit(host, r);
        VisitFilters(snapshot, snapshot[..i], r, host.inspections);
        PrefixStep(snapshot, i);
        AppendAssoc(old(host.log), CleanupEffects(snapshot[..i], host.inspections), CleanupStep(r, host.inspections));
        i := i + 1;
      }
      assert snapshot[..i] == snapshot;
      WithoutDropped(snapshot, snapshot, host.inspections);
      SaveState(host);
    }
  }
}
