/**
 * The Dockerfile the orchestrator writes before building its image: fixed
 * sections, one package-install instruction, a COPY/chmod pair per staged
 * script, an optional init-script wrapper, the user's custom instructions
 * verbatim, and the startup command.
 *
 * The template is stated over its fixed texts (`Texts`), and the newlines
 * that frame a variable part are separate pieces of it, so that the layout
 * proofs never look inside a long literal. `Dockerfile` instantiates it with
 * the texts the orchestrator writes.
 */
module DockerfileRender {
  import opened Text
  import opened Fleet

  /**
   * The fixed texts of the template. The rendering and its properties are
   * stated for any `Texts`; `Boilerplate()` holds the ones the orchestrator
   * writes.
   */
  datatype Texts = Texts(
    sudo: string,
    sshSetup: string,
    scriptsHeader: string,
    initLead: string,
    startupWrapper: string,
    customHeader: string,
    exposeHeader: string,
    expose22: string,
    cmdHeader: string)

  function WrapperCmd(): string
  {
    "[\"/usr/local/bin/startup.sh\"]"
  }
  function SshdCmd(): string
  {
    "[\"/usr/sbin/sshd\", " + "\"-D\"]"
  }

  function SudoText(): string
  {
    "\n"
    + "RUN apt-get " + "update && " + "apt-get install " + "-y sudo\n"
    + "\n"
    + "# Install SSH " + "server and " + "additional " + "packages"
  }

  function SshSetupText(): string
  {
    "\n"
    + "# Create SSH " + "directory and " + "generate keys\n"
    + "RUN mkdir -p " + "/var/run/sshd " + "/root/.ssh && " + "chmod 700 " + "/root/.ssh\n"
    + "\n"
    + "# Configure SSH\n"
    + "RUN sed -i " + "'s/#PermitRootLogin " + "prohibit-password/PermitRootLogin " + "yes/' " + "/etc/ssh/sshd_config\n"
    + "RUN sed -i " + "'s/#PasswordAuthentication " + "yes/PasswordAuthentication " + "yes/' " + "/etc/ssh/sshd_config\n"
    + "RUN echo " + "'root:orch123' " + "| chpasswd\n"
    + "\n"
    + "# Generate SSH " + "host keys\n"
    + "RUN ssh-keygen " + "-A\n"
  }

  function ScriptsHeaderText(): string
  {
    "\n"
    + "# Copy custom " + "scripts\n"
    + "RUN mkdir -p " + "/usr/local/scripts\n"
  }
  function InitLeadText(): string
  {
    "\n"
    + "# Copy and " + "setup " + "initialization " + "script\n"
  }

  function StartupWrapperText(): string
  {
    "\n"
    + "# Create " + "startup wrapper\n"
    + "RUN echo " + "'#!/bin/bash' > " + "/usr/local/bin/startup.sh " + "&& \\\n"
    + "    echo " + "'/usr/local/bin/init.sh' " + ">> " + "/usr/local/bin/startup.sh " + "&& \\\n"
    + "    echo 'exec " + "/usr/sbin/sshd " + "-D' >> " + "/usr/local/bin/startup.sh " + "&& \\\n"
    + "    chmod +x " + "/usr/local/bin/startup.sh\n"
  }

  function CustomHeaderText(): string
  {
    "\n"
    + "# Custom " + "Dockerfile " + "instructions\n"
  }
  function ExposeHeaderText(): string
  {
    "\n"
    + "# Expose SSH " + "port\n"
  }
  function Expose22Text(): string { "EXPOSE 22\n" }
  function CmdHeaderText(): string
  {
    "\n"
    + "# Start SSH " + "daemon\n"
    + "CMD "
  }

  /** The texts the orchestrator writes. */
  function Boilerplate(): Texts
  {
    Texts(SudoText(), SshSetupText(), ScriptsHeaderText(), InitLeadText(), StartupWrapperText(),
      CustomHeaderText(), ExposeHeaderText(), Expose22Text(), CmdHeaderText())
  }

  /** Everything after the custom instructions, up to the command's argument. */
  function ExposeSection(t: Texts): string
  {
    t.exposeHeader + t.expose22 + t.cmdHeader
  }

  function InstallCmd(): string
  {
    "RUN apt-get " + "update && " + "apt-get install " + "-y "
  }
  function AptClean(): string
  {
    " && apt-get " + "clean"
  }

  /** The install instruction: openssh-server, then the packages joined by single spaces. */
  function PackageInstall(packages: seq<string>): string
  {
    if |packages| > 0 then InstallCmd() + ("openssh-server " + Join(packages, " ")) + AptClean()
    else InstallCmd() + "openssh-server" + AptClean()
  }

  /** The file a script's COPY reads from the build context: `./script_<i>_<last segment>`. */
  function ScriptCopySource(i: nat, path: string): string
  {
    "./script_" + (Decimal(i) + ("_" + LastSegment(path)))
  }

  /** Where the image keeps the scripts: `/usr/local/scripts/`. */
  function ScriptsDir(): string
  {
    "/usr/local/" + "scripts/"
  }

  /** The COPY and chmod lines of script `i`; the script keeps its last path segment as its name. */
  function ScriptBlock(i: nat, path: string): string
  {
    var name := LastSegment(path);
    "COPY " + ScriptCopySource(i, path) + (" " + ScriptsDir()) + name + "\n"
    + ("RUN chmod +x " + ScriptsDir() + name) + "\n"
  }

  function ScriptBlocks(scripts: seq<string>): (bs: seq<string>)
    ensures |bs| == |scripts|
    ensures forall i :: 0 <= i < |scripts| ==> bs[i] == ScriptBlock(i, scripts[i])
  {
    seq(|scripts|, i requires 0 <= i < |scripts| => ScriptBlock(i, scripts[i]))
  }

  function ScriptCopyInstructions(t: Texts, scripts: seq<string>): string
  {
    if |scripts| > 0 then t.scriptsHeader + Flatten(ScriptBlocks(scripts)) else ""
  }

  /** The file the init script's COPY reads from the build context. */
  function InitCopySource(initScript: string): string
  {
    "./init_script_" + LastSegment(initScript)
  }

  /** Where the image keeps the init script: `/usr/local/bin/init.sh`. */
  function InitTarget(): string
  {
    "/usr/local/" + "bin/init.sh"
  }

  function InitScriptInstructions(t: Texts, initScript: string): string
  {
    if initScript != "" then
      t.initLead + "COPY " + InitCopySource(initScript) + (" " + InitTarget() + "\n")
      + ("RUN chmod +x " + InitTarget() + "\n") + t.startupWrapper
    else ""
  }

  function CustomInstructions(t: Texts, instructions: string): string
  {
    if instructions != "" then t.customHeader + instructions + "\n" else ""
  }

  /** The container command: the startup wrapper when an init script is given, else the SSH daemon. */
  function StartupCommand(initScript: string): string
  {
    if initScript != "" then WrapperCmd() else SshdCmd()
  }

  /** Everything before the script section. */
  function Head(t: Texts, c: Config): string
  {
    "FROM " + c.image + "\n" + t.sudo + "\n" + PackageInstall(c.packages) + "\n" + t.sshSetup
  }

  /** The rendered Dockerfile (`generateDockerfile`). */
  function Render(t: Texts, c: Config): string
  {
    Head(t, c) + ScriptCopyInstructions(t, c.scripts) + InitScriptInstructions(t, c.initScript)
    + CustomInstructions(t, c.dockerfileInstructions) + ExposeSection(t) + StartupCommand(c.initScript)
  }


  // ---------------------------------------------------------------------------
  // The text in front of each section; a section starts at the length of it
  // ---------------------------------------------------------------------------

  function BeforeInit(t: Texts, c: Config): string
  {
    Head(t, c) + ScriptCopyInstructions(t, c.scripts)
  }

  function BeforeCustom(t: Texts, c: Config): string
  {
    BeforeInit(t, c) + InitScriptInstructions(t, c.initScript)
  }

  function BeforeExpose(t: Texts, c: Config): string
  {
    BeforeCustom(t, c) + CustomInstructions(t, c.dockerfileInstructions)
  }

  /** The text in front of the COPY/chmod pair of script `i`. */
  function BeforeScript(t: Texts, c: Config, i: nat): string
    requires i <= |c.scripts|
  {
    Head(t, c) + (t.scriptsHeader + Flatten(ScriptBlocks(c.scripts)[..i]))
  }

  // ---------------------------------------------------------------------------
  // Properties
  // ---------------------------------------------------------------------------

  /** Anything found in the head is found at the same place in the whole file. */
  lemma HeadInRender(t: Texts, c: Config, needle: string, at: int)
    requires Occurs(needle, Head(t, c), at)
    ensures Occurs(needle, Render(t, c), at)
  {
    var h, s, i, u := Head(t, c), ScriptCopyInstructions(t, c.scripts), InitScriptInstructions(t, c.initScript),
      CustomInstructions(t, c.dockerfileInstructions);
    OccursExtend(needle, h, at, s);
    OccursExtend(needle, h + s, at, i);
    OccursExtend(needle, h + s + i, at, u);
    OccursExtend(needle, h + s + i + u, at, ExposeSection(t));
    OccursExtend(needle, h + s + i + u + ExposeSection(t), at, StartupCommand(c.initScript));
  }

  /** The Dockerfile starts with `FROM <image>` on its own first line. */
  lemma StartsFromImage(t: Texts, c: Config)
    ensures Occurs("FROM " + c.image + "\n", Render(t, c), 0)
  {
    ConcatLayout("FROM " + c.image + "\n", t.sudo, "\n", PackageInstall(c.packages), "\n", t.sshSetup);
    HeadInRender(t, c, "FROM " + c.image + "\n", 0);
  }

  /**
   * The install instruction lists `openssh-server` followed by exactly the
   * packages, separated by single spaces: splitting its argument list on ' '
   * gives back ["openssh-server"] + packages whenever no package name holds a
   * space. With no packages the argument list is `openssh-server` alone.
   */
  lemma InstallArguments(packages: seq<string>)
    ensures PackageInstall(packages) == InstallCmd() + Join(["openssh-server"] + packages, " ") + AptClean()
    ensures (forall i :: 0 <= i < |packages| ==> ' ' !in packages[i]) ==>
      Split(Join(["openssh-server"] + packages, " "), ' ') == ["openssh-server"] + packages
  {
    if |packages| > 0 {
      JoinAppend(["openssh-server"], packages, " ");
      assert "openssh-server" + " " == "openssh-server ";
    }
    var all := ["openssh-server"] + packages;
    if forall i :: 0 <= i < |packages| ==> ' ' !in packages[i] {
      forall i | 0 <= i < |all| ensures ' ' !in all[i] {
        if i > 0 { assert all[i] == packages[i - 1]; }
      }
      SplitJoin(all, ' ');
    }
  }

  /** The install instruction is a line of its own, right after the sudo section. */
  lemma InstallLine(t: Texts, c: Config)
    ensures Occurs("\n" + PackageInstall(c.packages) + "\n", Render(t, c), |"FROM " + c.image + "\n" + t.sudo|)
  {
    var a, pi := "FROM " + c.image + "\n" + t.sudo, PackageInstall(c.packages);
    OccursInConcat(a, "\n" + pi + "\n", t.sshSetup);
    assert a + ("\n" + pi + "\n") + t.sshSetup == Head(t, c);
    HeadInRender(t, c, "\n" + pi + "\n", |a|);
  }

  /**
   * Script copies, init-script setup, custom instructions, the EXPOSE section
   * and the command follow each other in this order, each right after the
   * text in front of it.
   */
  lemma SectionsInPlace(t: Texts, c: Config)
    ensures Occurs(ScriptCopyInstructions(t, c.scripts), Render(t, c), |Head(t, c)|)
    ensures Occurs(InitScriptInstructions(t, c.initScript), Render(t, c), |BeforeInit(t, c)|)
    ensures Occurs(CustomInstructions(t, c.dockerfileInstructions), Render(t, c), |BeforeCustom(t, c)|)
    ensures Occurs(ExposeSection(t), Render(t, c), |BeforeExpose(t, c)|)
    ensures Occurs(StartupCommand(c.initScript), Render(t, c), |BeforeExpose(t, c) + ExposeSection(t)|)
  {
    ConcatLayout(Head(t, c), ScriptCopyInstructions(t, c.scripts), InitScriptInstructions(t, c.initScript),
      CustomInstructions(t, c.dockerfileInstructions), ExposeSection(t), StartupCommand(c.initScript));
  }

  /** Script i's COPY/chmod pair is found right after the pairs of the scripts before it. */
  lemma ScriptBlockAt(t: Texts, c: Config, i: nat)
    requires i < |c.scripts|
    ensures Occurs(ScriptBlock(i, c.scripts[i]), Render(t, c), |BeforeScript(t, c, i)|)
  {
    var bs, hdr := ScriptBlocks(c.scripts), t.scriptsHeader;
    ConcatLayout(Head(t, c), ScriptCopyInstructions(t, c.scripts), InitScriptInstructions(t, c.initScript),
      CustomInstructions(t, c.dockerfileInstructions), ExposeSection(t), StartupCommand(c.initScript));
    FlattenLayout(bs, i);
    OccursAtEnd(hdr, Flatten(bs));
    OccursWithin(bs[i], Flatten(bs), Flatten(bs[..i]), hdr + Flatten(bs), hdr);
    OccursWithin(bs[i], ScriptCopyInstructions(t, c.scripts), hdr + Flatten(bs[..i]), Render(t, c), Head(t, c));
  }

  /** Each script's COPY/chmod pair directly follows the pairs of the scripts before it. */
  lemma ScriptStep(t: Texts, c: Config, i: nat)
    requires i < |c.scripts|
    ensures BeforeScript(t, c, i + 1) == BeforeScript(t, c, i) + ScriptBlock(i, c.scripts[i])
  {
    var bs := ScriptBlocks(c.scripts);
    FlattenLayout(bs, i);
    Regroup(Head(t, c), t.scriptsHeader, Flatten(bs[..i]), bs[i]);
  }

  /**
   * The COPY/chmod pairs appear in script order without overlapping: pair i
   * ends no later than pair j starts whenever i < j.
   */
  lemma ScriptBlocksInOrder(t: Texts, c: Config, i: nat, j: nat)
    requires i < j <= |c.scripts|
    ensures |BeforeScript(t, c, i)| + |ScriptBlock(i, c.scripts[i])| <= |BeforeScript(t, c, j)|
  {
    FlattenOrder(Head(t, c), t.scriptsHeader, ScriptBlocks(c.scripts), i, j);
  }

  /** The last COPY/chmod pair ends where the init-script section starts. */
  lemma ScriptsEndAtInit(t: Texts, c: Config)
    requires |c.scripts| > 0
    ensures BeforeScript(t, c, |c.scripts|) == BeforeInit(t, c)
  {
    var bs := ScriptBlocks(c.scripts);
    assert bs[..|bs|] == bs;
  }

  /**
   * A non-empty custom fragment appears verbatim after the header that
   * introduces it, and `EXPOSE 22` comes after it.
   */
  lemma CustomBeforeExpose(t: Texts, c: Config)
    requires c.dockerfileInstructions != ""
    ensures Occurs(c.dockerfileInstructions, Render(t, c), |BeforeCustom(t, c) + t.customHeader|)
    ensures Occurs(t.expose22, Render(t, c), |BeforeExpose(t, c) + t.exposeHeader|)
    ensures |BeforeCustom(t, c) + t.customHeader| + |c.dockerfileInstructions| < |BeforeExpose(t, c) + t.exposeHeader|
  {
    SectionsInPlace(t, c);
    var u := CustomInstructions(t, c.dockerfileInstructions);
    OccursInConcat(t.customHeader, c.dockerfileInstructions, "\n");
    OccursWithin(c.dockerfileInstructions, u, t.customHeader, Render(t, c), BeforeCustom(t, c));
    OccursInConcat(t.exposeHeader, t.expose22, t.cmdHeader);
    OccursWithin(t.expose22, ExposeSection(t), t.exposeHeader, Render(t, c), BeforeExpose(t, c));
  }

  /** The file ends with the command header (`CMD `) and the startup command. */
  lemma EndsWithCommand(t: Texts, c: Config)
    ensures IsSuffix(t.cmdHeader + StartupCommand(c.initScript), Render(t, c))
  {
    SuffixAfter(BeforeExpose(t, c), t.exposeHeader + t.expose22, t.cmdHeader, StartupCommand(c.initScript));
  }

  /**
   * The container command is the startup wrapper exactly when an init script
   * is given, and the bare SSH daemon otherwise.
   */
  lemma StartupCommandChoice(t: Texts, c: Config)
    ensures IsSuffix(WrapperCmd(), Render(t, c)) <==> c.initScript != ""
    ensures IsSuffix(SshdCmd(), Render(t, c)) <==> c.initScript == ""
  {
    var r, w, d := Render(t, c), WrapperCmd(), SshdCmd();
    SuffixAtEnd(BeforeExpose(t, c) + ExposeSection(t), StartupCommand(c.initScript));
    SuffixChar(w, r, 2);
    SuffixChar(d, r, 2);
    assert w[|w| - 3] == 'h' && d[|d| - 3] == 'D';
  }

  /**
   * The staged files and the COPY sources agree: for a script or init-script
   * path that does not end in '/', the name the orchestrator copies it to is
   * the name the Dockerfile copies from.
   */
  lemma StagedNamesAreCopySources(i: nat, path: string)
    requires path == [] || path[|path| - 1] != '/'
    ensures ScriptCopySource(i, path) == StagedScriptName(i, path)
    ensures InitCopySource(path) == StagedInitName(path)
  {
  }

  /** The COPY line of a script block reads from the script's copy source. */
  lemma CopySourceInBlock(i: nat, path: string)
    ensures Occurs(ScriptCopySource(i, path), ScriptBlock(i, path), |"COPY "|)
  {
    var name := LastSegment(path);
    var chmod := "RUN chmod +x " + ScriptsDir() + name;
    ConcatLayout("COPY ", ScriptCopySource(i, path), " " + ScriptsDir(), name, "\n", chmod);
    OccursExtend(ScriptCopySource(i, path), "COPY " + ScriptCopySource(i, path) + (" " + ScriptsDir()) + name + "\n" + chmod,
      |"COPY "|, "\n");
  }

  /** Script i is copied from the very file that staging wrote for it. */
  lemma ScriptCopiedFromStagedFile(t: Texts, c: Config, i: nat)
    requires i < |c.scripts|
    requires c.scripts[i] == [] || c.scripts[i][|c.scripts[i]| - 1] != '/'
    ensures Occurs(StagedScriptName(i, c.scripts[i]), Render(t, c), |BeforeScript(t, c, i) + "COPY "|)
  {
    var p := c.scripts[i];
    StagedNamesAreCopySources(i, p);
    ScriptBlockAt(t, c, i);
    CopySourceInBlock(i, p);
    OccursWithin(ScriptCopySource(i, p), ScriptBlock(i, p), "COPY ", Render(t, c), BeforeScript(t, c, i));
  }

  /** The init script is copied from the file that staging wrote for it. */
  lemma InitCopiedFromStagedFile(t: Texts, c: Config)
    requires c.initScript != ""
    requires c.initScript[|c.initScript| - 1] != '/'
    ensures Occurs(StagedInitName(c.initScript), Render(t, c), |BeforeInit(t, c) + (t.initLead + "COPY ")|)
  {
    SectionsInPlace(t, c);
    StagedNamesAreCopySources(0, c.initScript);
    ConcatLayout(t.initLead, "COPY ", InitCopySource(c.initScript), " " + InitTarget() + "\n",
      "RUN chmod +x " + InitTarget() + "\n", t.startupWrapper);
    OccursWithin(InitCopySource(c.initScript), InitScriptInstructions(t, c.initScript), t.initLead + "COPY ",
      Render(t, c), BeforeInit(t, c));
  }

  // ---------------------------------------------------------------------------
  // The Dockerfile the orchestrator writes
  // ---------------------------------------------------------------------------

  /** `generateDockerfile(config)`. */
  function Dockerfile(c: Config): string
  {
    Render(Boilerplate(), c)
  }
}
