/**
 * The orchestrator's data model: tracked container records, the provisioning
 * configuration, the commands handed to the container engine and the other
 * observable effects (file copies, file writes, state saves), and the
 * ordinal-based naming of a provisioning batch.
 */
module Fleet {
  import opened Text

  datatype Option<+T> = None | Some(value: T)

  /** One tracked container, as persisted in the state file. */
  datatype ContainerRecord = ContainerRecord(
    id: string,
    name: string,
    port: int,
    status: string,
    created: string)

  /**
   * A provisioning request. `count` and `portStart` come from `parseInt` and
   * may be any integer; an empty `initScript` or `dockerfileInstructions`
   * means "not given".
   */
  datatype Config = Config(
    count: int,
    image: string,
    packages: seq<string>,
    portStart: int,
    cpus: string,
    memory: string,
    scripts: seq<string>,
    initScript: string,
    dockerfileInstructions: string,
    volumes: seq<string>)

  /** What `podman inspect` reports: `State.Status` and `State.StartedAt`, each possibly missing. */
  datatype Inspection = Inspection(status: Option<string>, startedAt: Option<string>)

  /** The arguments of one `podman run`. */
  datatype RunArgs = RunArgs(
    name: string,
    port: int,
    cpus: string,
    memory: string,
    volumes: seq<string>,
    image: string)

  datatype Command =
    | Pull(image: string)
    | Build(tag: string)
    | Run(args: RunArgs)
    | Stop(id: string)
    | Inspect(id: string)
    | Remove(id: string)

  /** Every externally observable effect of the orchestrator, in issue order. */
  datatype Effect =
    | Podman(cmd: Command)
    | CopyFile(src: string, dest: string)
    | WriteFile(path: string, text: string)
    | SaveState(records: seq<ContainerRecord>)

  const StateFilePath: string := "./orchestrator-state.json"
  const DockerfilePath: string := "./Dockerfile"

  function SshConfigPath(home: string): string
  {
    home + "/.ssh/config.orchestrator"
  }

  // ---------------------------------------------------------------------------
  // Staging and batch naming
  // ---------------------------------------------------------------------------

  /** Build-context name of script `i`: `./script_<i>_<basename>`. */
  function StagedScriptName(i: nat, path: string): string
  {
    "./script_" + (Decimal(i) + ("_" + Basename(path)))
  }

  /** Build-context name of the init script: `./init_script_<basename>`. */
  function StagedInitName(path: string): string
  {
    "./init_script_" + Basename(path)
  }

  /** Two scripts never share a staged name, even when their base names coincide. */
  lemma StagedNamesDistinct(i: nat, p: string, j: nat, q: string)
    requires i != j
    ensures StagedScriptName(i, p) != StagedScriptName(j, q)
  {
    var x, y := "_" + Basename(p), "_" + Basename(q);
    if StagedScriptName(i, p) == StagedScriptName(j, q) {
      assert StagedScriptName(i, p)[9..] == Decimal(i) + x;
      assert StagedScriptName(j, q)[9..] == Decimal(j) + y;
      NumeralBeforeUnderscore(Decimal(i), x, Decimal(j), y);
      DecimalInjective(i, j);
    }
  }

  /** Index of the first '_' in `s` (or |s| when there is none). */
  function UnderscoreAt(s: string): (k: nat)
    ensures k <= |s|
  {
    if s == [] || s[0] == '_' then 0 else 1 + UnderscoreAt(s[1..])
  }

  /** A numeral followed by '_' ends exactly where the first '_' is. */
  lemma {:induction false} NumeralEndsAtUnderscore(d: string, x: string)
    requires AllDigits(d) && x != [] && x[0] == '_'
    ensures UnderscoreAt(d + x) == |d|
  {
    if d != [] {
      assert (d + x)[1..] == d[1..] + x;
      NumeralEndsAtUnderscore(d[1..], x);
    } else {
      assert d + x == x;
    }
  }

  lemma NumeralBeforeUnderscore(d: string, x: string, e: string, y: string)
    requires AllDigits(d) && AllDigits(e)
    requires x != [] && x[0] == '_' && y != [] && y[0] == '_'
    requires d + x == e + y
    ensures d == e
  {
    NumeralEndsAtUnderscore(d, x);
    NumeralEndsAtUnderscore(e, y);
    assert d == (d + x)[..|d|] == (e + y)[..|e|] == e;
  }

  /** The copies that stage the scripts, in script order. */
  function StageEffects(scripts: seq<string>): (e: seq<Effect>)
    ensures |e| == |scripts|
  {
    seq(|scripts|, i requires 0 <= i < |scripts| => CopyFile(scripts[i], StagedScriptName(i, scripts[i])))
  }

  /** The init-script copy, when an init script is given. */
  function InitEffects(initScript: string): seq<Effect>
  {
    if initScript != "" then [CopyFile(initScript, StagedInitName(initScript))] else []
  }

  /** Container `i` of a batch (from 0) is named `orch-server-<i+1>`. */
  function ServerName(i: nat): string
  {
    "orch-server-" + Decimal(i + 1)
  }

  /** The tag of the image built at `millis` milliseconds: `orchestrator-<millis>`. */
  function ImageTag(millis: nat): string
  {
    "orchestrator-" + Decimal(millis)
  }

  /** How many times the launch loop runs: `count` if positive, otherwise none. */
  function LaunchCount(c: Config): nat
  {
    if c.count > 0 then c.count else 0
  }

  function LaunchArgs(c: Config, tag: string, i: nat): RunArgs
  {
    RunArgs(ServerName(i), c.portStart + i, c.cpus, c.memory, c.volumes, tag)
  }

  /** The `podman run` commands for the first `n` ordinals of a batch. */
  function LaunchEffects(c: Config, tag: string, n: nat): (e: seq<Effect>)
    ensures |e| == n
  {
    seq(n, i requires 0 <= i < n => Podman(Run(LaunchArgs(c, tag, i))))
  }

  /**
   * The records of a batch whose runs returned `ids`: record i has the i-th id,
   * name `orch-server-<i+1>`, port `portStart + i`, status "running".
   */
  function Launched(c: Config, ids: seq<string>, createdAt: nat -> string): (rs: seq<ContainerRecord>)
    ensures |rs| == |ids|
    ensures forall i :: 0 <= i < |ids| ==>
      rs[i].id == ids[i] && rs[i].name == ServerName(i) && rs[i].port == c.portStart + i
      && rs[i].status == "running" && rs[i].created == createdAt(i)
  {
    seq(|ids|, i requires 0 <= i < |ids| => ContainerRecord(ids[i], ServerName(i), c.portStart + i, "running", createdAt(i)))
  }

  /** Within one batch, names and ports are pairwise distinct. */
  lemma BatchIdentitiesDistinct(c: Config, ids: seq<string>, createdAt: nat -> string, i: nat, j: nat)
    requires i < j < |ids|
    ensures Launched(c, ids, createdAt)[i].name != Launched(c, ids, createdAt)[j].name
    ensures Launched(c, ids, createdAt)[i].port != Launched(c, ids, createdAt)[j].port
  {
    DecimalInjective(i + 1, j + 1);
    var p := "orch-server-";
    assert ServerName(i)[|p|..] == Decimal(i + 1);
    assert ServerName(j)[|p|..] == Decimal(j + 1);
  }
}
