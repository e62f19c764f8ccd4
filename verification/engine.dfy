/**
 * The outside world the orchestrator talks to: the container engine behind
 * `podman`, the file system and the state file. It is an oracle whose
 * answers are fixed by its fields, and it keeps a log of every effect it was
 * asked for, in order, whether or not the effect succeeded.
 */
module Engine {
  import opened Fleet
  import opened Reconcile

  class Host {
    /** Images `podman pull` can fetch. */
    var pullable: set<string>
    /** Whether `podman build` succeeds. */
    var buildSucceeds: bool
    /** The ids the next `podman run` calls print, in order; a run with none left fails. */
    var runIds: seq<string>
    /** What `podman inspect <id>` reports; an id missing here makes the inspect fail. */
    var inspections: map<string, Inspection>
    /** Paths a copy can read from. */
    var readable: set<string>
    /** Paths a write can create or replace. */
    var writable: set<string>
    /** `$HOME` */
    var home: string
    /** Every effect asked for so far, in order. */
    var log: seq<Effect>
    /** The records the state file holds. */
    ghost var saved: seq<ContainerRecord>

    constructor(pullable: set<string>, buildSucceeds: bool, runIds: seq<string>,
                inspections: map<string, Inspection>, readable: set<string>, writable: set<string>,
                home: string, saved: seq<ContainerRecord>)
      ensures this.pullable == pullable && this.buildSucceeds == buildSucceeds && this.runIds == runIds
      ensures this.inspections == inspections && this.readable == readable && this.writable == writable
      ensures this.home == home && this.log == [] && this.saved == saved
    {
      this.pullable := pullable;
      this.buildSucceeds := buildSucceeds;
      this.runIds := runIds;
      this.inspections := inspections;
      this.readable := readable;
      this.writable := writable;
      this.home := home;
      this.log := [];
      this.saved := saved;
    }

    /** `podman pull <image>` */
    method PullImage(image: string) returns (ok: bool)
      modifies this`log
      ensures ok <==> image in pullable
      ensures log == old(log) + [Podman(Pull(image))]
    {
      log := log + [Podman(Pull(image))];
      ok := image in pullable;
    }

    /** `podman build -t <tag> .` */
    method BuildImage(tag: string) returns (ok: bool)
      modifies this`log
      ensures ok == buildSucceeds
      ensures log == old(log) + [Podman(Build(tag))]
    {
      log := log + [Podman(Build(tag))];
      ok := buildSucceeds;
    }

    /** `podman run -d ...`: prints the next id, or fails when none is left. */
    method RunContainer(args: RunArgs) returns (id: Option<string>)
      modifies this`log, this`runIds
      ensures old(runIds) == [] ==> id == None && runIds == old(runIds)
      ensures old(runIds) != [] ==> id == Some(old(runIds)[0]) && runIds == old(runIds)[1..]
      ensures log == old(log) + [Podman(Run(args))]
    {
      log := log + [Podman(Run(args))];
      if runIds == [] {
        id := None;
      } else {
        id := Some(runIds[0]);
        runIds := runIds[1..];
      }
    }

    /** `podman stop <id>`; the orchestrator ignores its failure. */
    method StopContainer(id: string)
      modifies this`log
      ensures log == old(log) + [Podman(Stop(id))]
    {
      log := log + [Podman(Stop(id))];
    }

    /** `podman rm <id>`; the orchestrator ignores its failure. */
    method RemoveContainer(id: string)
      modifies this`log
      ensures log == old(log) + [Podman(Remove(id))]
    {
      log := log + [Podman(Remove(id))];
    }

    /** `podman inspect <id>` */
    method InspectContainer(id: string) returns (found: Option<Inspection>)
      modifies this`log
      ensures found == Inspected(inspections, id)
      ensures log == old(log) + [Podman(Inspect(id))]
    {
      log := log + [Podman(Inspect(id))];
      found := Inspected(inspections, id);
    }

    /** `copyFile(src, dest)` */
    method Copy(src: string, dest: string) returns (ok: bool)
      modifies this`log
      ensures ok <==> src in readable
      ensures log == old(log) + [CopyFile(src, dest)]
    {
      log := log + [CopyFile(src, dest)];
      ok := src in readable;
    }

    /** `writeFile(path, text)` */
    method Write(path: string, text: string) returns (ok: bool)
      modifies this`log
      ensures ok <==> path in writable
      ensures log == old(log) + [WriteFile(path, text)]
    {
      log := log + [WriteFile(path, text)];
      ok := path in writable;
    }

    /** Writing the state file; a failed write leaves the previous contents. */
    method Save(records: seq<ContainerRecord>)
      modifies this`log, this`saved
      ensures log == old(log) + [SaveState(records)]
      ensures saved == if StateFilePath in writable then records else old(saved)
    {
      log := log + [SaveState(records)];
      if StateFilePath in writable {
        saved := records;
      }
    }
  }
}
