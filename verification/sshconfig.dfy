/**
 * The SSH client configuration the orchestrator writes for its tracked
 * containers: a fixed two-line header and a blank line, then one `Host`
 * entry per record, in record order. Every entry names the alias
 * `orch-<name>`, points at localhost on the record's port and logs in as
 * root with host-key checking disabled.
 */
module SshConfigRender {
  import opened Text
  import opened Fleet

  function HeaderText(): string
  {
    "# SSH Configuration for orchestrated containers\n"
    + "# Auto-generated by podman-orchestrator\n"
    + "\n"
  }

  /** `# Container: <name>` */
  function CommentLine(name: string): string
  {
    "# Container: " + name + "\n"
  }

  /** `Host orch-<name>`: the alias under which `ssh` finds the container. */
  function AliasLine(name: string): string
  {
    "Host orch-" + name + "\n"
  }

  function HostNameLine(): string
  {
    "    HostName localhost\n"
  }

  /** `    Port <port>`, the port printed as JavaScript prints an integer. */
  function PortLine(port: int): string
  {
    "    Port " + IntText(port) + "\n"
  }

  function LoginOptions(): string
  {
    "    User root\n"
    + "    PasswordAuthentication yes\n"
    + "    StrictHostKeyChecking no\n"
    + "    UserKnownHostsFile /dev/null\n"
  }

  function LogLevelLine(): string
  {
    "    LogLevel ERROR\n" + "\n"
  }

  /** The entry of one record, ending in a blank line. */
  function HostEntry(r: ContainerRecord): string
  {
    CommentLine(r.name) + AliasLine(r.name) + HostNameLine() + PortLine(r.port) + LoginOptions() + LogLevelLine()
  }

  function HostEntries(rs: seq<ContainerRecord>): (es: seq<string>)
    ensures |es| == |rs|
    ensures forall i :: 0 <= i < |rs| ==> es[i] == HostEntry(rs[i])
  {
    seq(|rs|, i requires 0 <= i < |rs| => HostEntry(rs[i]))
  }

  /** The text `generateSshConfig` writes for the records `rs`. */
  function SshConfig(rs: seq<ContainerRecord>): string
  {
    HeaderText() + Flatten(HostEntries(rs))
  }

  /** The text in front of the entry of record `k`. */
  function BeforeEntry(rs: seq<ContainerRecord>, k: nat): string
    requires k <= |rs|
  {
    HeaderText() + Flatten(HostEntries(rs)[..k])
  }

  // ---------------------------------------------------------------------------
  // Properties
  // ---------------------------------------------------------------------------

  /**
   * Appending a record appends its entry and changes nothing before it: the
   * text grows exactly as the source's `config +=` loop grows it.
   */
  lemma SshConfigAppend(rs: seq<ContainerRecord>, r: ContainerRecord)
    ensures SshConfig(rs + [r]) == SshConfig(rs) + HostEntry(r)
  {
    assert HostEntries(rs + [r]) == HostEntries(rs) + [HostEntry(r)];
    FlattenSnoc(HeaderText(), HostEntries(rs), HostEntry(r));
  }

  /** The file starts with the header, and record k's entry sits right after the entries before it. */
  lemma EntryAt(rs: seq<ContainerRecord>, k: nat)
    requires k < |rs|
    ensures Occurs(HeaderText(), SshConfig(rs), 0)
    ensures Occurs(HostEntry(rs[k]), SshConfig(rs), |BeforeEntry(rs, k)|)
  {
    var es := HostEntries(rs);
    OccursAtStart(HeaderText(), Flatten(es));
    FlattenLayout(es, k);
    OccursAtEnd(HeaderText(), Flatten(es));
    OccursWithin(es[k], Flatten(es), Flatten(es[..k]), SshConfig(rs), HeaderText());
  }

  /** The entries appear in record order without overlapping. */
  lemma EntriesInOrder(rs: seq<ContainerRecord>, i: nat, j: nat)
    requires i < j <= |rs|
    ensures |BeforeEntry(rs, i)| + |HostEntry(rs[i])| <= |BeforeEntry(rs, j)|
  {
    FlattenOrderAfter(HeaderText(), HostEntries(rs), i, j);
  }

  /** Within an entry, the alias line follows the comment line and the port line follows the host name. */
  lemma EntryLines(r: ContainerRecord)
    ensures Occurs(CommentLine(r.name), HostEntry(r), 0)
    ensures Occurs(AliasLine(r.name), HostEntry(r), |CommentLine(r.name)|)
    ensures Occurs(HostNameLine(), HostEntry(r), |CommentLine(r.name) + AliasLine(r.name)|)
    ensures Occurs(PortLine(r.port), HostEntry(r), |CommentLine(r.name) + AliasLine(r.name) + HostNameLine()|)
    ensures Occurs(LoginOptions(), HostEntry(r), |CommentLine(r.name) + AliasLine(r.name) + HostNameLine() + PortLine(r.port)|)
    ensures Occurs("    User root\n", LoginOptions(), 0)
  {
    ConcatLayout(CommentLine(r.name), AliasLine(r.name), HostNameLine(), PortLine(r.port), LoginOptions(), LogLevelLine());
  }

  /** Record k's alias and port are found in the file, at the place of its entry. */
  lemma AliasAndPortAt(rs: seq<ContainerRecord>, k: nat)
    requires k < |rs|
    ensures Occurs(AliasLine(rs[k].name), SshConfig(rs), |BeforeEntry(rs, k) + CommentLine(rs[k].name)|)
    ensures Occurs(PortLine(rs[k].port), SshConfig(rs),
      |BeforeEntry(rs, k) + (CommentLine(rs[k].name) + AliasLine(rs[k].name) + HostNameLine())|)
  {
    var r := rs[k];
    EntryAt(rs, k);
    EntryLines(r);
    OccursWithin(AliasLine(r.name), HostEntry(r), CommentLine(r.name), SshConfig(rs), BeforeEntry(rs, k));
    OccursWithin(PortLine(r.port), HostEntry(r), CommentLine(r.name) + AliasLine(r.name) + HostNameLine(),
      SshConfig(rs), BeforeEntry(rs, k));
  }

  /** Different names give different aliases, and different ports different port lines. */
  lemma AliasesDistinguish(a: ContainerRecord, b: ContainerRecord)
    ensures AliasLine(a.name) == AliasLine(b.name) <==> a.name == b.name
    ensures PortLine(a.port) == PortLine(b.port) <==> a.port == b.port
  {
    var h := "Host orch-";
    if AliasLine(a.name) == AliasLine(b.name) {
      assert AliasLine(a.name)[|h|..|AliasLine(a.name)| - 1] == a.name;
      assert AliasLine(b.name)[|h|..|AliasLine(b.name)| - 1] == b.name;
    }
    if PortLine(a.port) == PortLine(b.port) {
      var p := "    Port ";
      assert PortLine(a.port)[|p|..|PortLine(a.port)| - 1] == IntText(a.port);
      assert PortLine(b.port)[|p|..|PortLine(b.port)| - 1] == IntText(b.port);
      IntTextInjective(a.port, b.port);
    }
  }
}
