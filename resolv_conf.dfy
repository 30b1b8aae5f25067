/**
 * The resolver file the Linux backends write and read: the text written into
 * `/etc/resolv.conf`, the `nameserver` lines read back from it, and the naming rule for
 * Linux network interfaces. The desktop and the command-line backends share these
 * definitions word for word.
 */
module ResolvConf {
  import opened Wrappers
  import opened Text
  import opened Lists
  import opened Patterns
  import opened Interfaces

  const ResolvConfPath: string := "/etc/resolv.conf"
  const BackupPath: string := "/etc/resolv.conf.vanilla-backup"

  /** The text whose presence marks the file as written by the application. */
  const Marker: string := "# Vanilla DNS"
  const HeaderLine: string := "# Vanilla DNS Changer - Modified"
  const BackupNote: string := "# Original backed up to " + BackupPath

  const Keyword: string := "nameserver"

  function NameserverLine(server: string): string {
    Keyword + " " + server
  }

  function NameserverLines(servers: seq<string>): (lines: seq<string>)
    ensures |lines| == |servers| && forall i :: 0 <= i < |servers| ==> lines[i] == NameserverLine(servers[i])
  {
    if servers == [] then [] else [NameserverLine(servers[0])] + NameserverLines(servers[1..])
  }

  /** The lines of the new file: the two comment lines, one `nameserver` line per server, an empty line. */
  function ContentLines(servers: seq<string>): (lines: seq<string>)
    ensures |lines| == |servers| + 3
    ensures lines[0] == HeaderLine && lines[1] == BackupNote && lines[|lines| - 1] == ""
    ensures forall i :: 0 <= i < |servers| ==> lines[i + 2] == NameserverLine(servers[i])
  {
    [HeaderLine, BackupNote] + NameserverLines(servers) + [""]
  }

  /** The `content` string: the lines joined by line breaks. */
  function Content(servers: seq<string>): string {
    Join(ContentLines(servers), "\n")
  }

  /** What `echo '<content>' > /etc/resolv.conf` leaves in the file: `echo` adds a line break. */
  function Written(servers: seq<string>): string {
    Content(servers) + "\n"
  }

  /** `line.match(/^nameserver\s+(\d+\.\d+\.\d+\.\d+)/)`: the captured address. */
  function NameserverAddress(line: string): Option<string> {
    if StartsWith(line, Keyword) then
      var rest := line[|Keyword|..];
      if rest != [] && IsWhitespace(rest[0]) then Quad(TrimStart(rest)) else None
    else None
  }

  /** `getActiveDns` on a readable file: every captured address, in file order, repeats kept. */
  function ActiveDnsOf(content: string): seq<string> {
    Collect(Split(content, '\n'), NameserverAddress)
  }

  /** `content.includes('# Vanilla DNS')`. */
  predicate IsMarked(content: string) {
    Contains(content, Marker)
  }

  const BackupCommand: string := "cp " + ResolvConfPath + " " + BackupPath

  /** The command that writes `content` into the resolver file. */
  function WriteCommand(content: string): string {
    "echo '" + content + "' > " + ResolvConfPath
  }

  /** `readFile(RESOLV_CONF).catch(() => '')`: the file, or the empty string when it cannot be read. */
  function ReadOrEmpty(files: map<string, string>): string {
    if ResolvConfPath in files then files[ResolvConfPath] else ""
  }

  /** `setDns` copies the file to the backup only when it has content and was not written by the application. */
  predicate NeedsBackup(files: map<string, string>) {
    var original := ReadOrEmpty(files);
    original != "" && !IsMarked(original)
  }

  /**
   * What one operation answers and leaves in the file system, with `log`, the commands
   * issued so far, extended by the ones it ran.
   */
  datatype Step = Step(result: OpResult, files: map<string, string>, log: seq<string>)

  /** `getActiveDns()`: the addresses of the `nameserver` lines, none when the file cannot be read. */
  function ActiveDnsIn(files: map<string, string>): seq<string> {
    if ResolvConfPath in files then ActiveDnsOf(files[ResolvConfPath]) else []
  }

  // ---------------------------------------------------------------- the write-then-read round trip

  lemma TrimStartSpace(s: string)
    requires s == [] || !IsWhitespace(s[0])
    ensures TrimStart(" " + s) == s
  {
    assert (" " + s)[1..] == s;
  }

  /** A `nameserver` line for a dotted quad gives the quad back. */
  lemma NameserverOfLine(server: string)
    requires IsQuadLine(server)
    ensures NameserverAddress(NameserverLine(server)) == Some(server)
  {
    QuadLineChars(server);
    var rest := " " + server;
    var line := Keyword + rest;
    assert NameserverLine(server) == line;
    assert line[..|Keyword|] == Keyword && line[|Keyword|..] == rest;
    TrimStartSpace(server);
  }

  lemma CollectNameserverLines(servers: seq<string>)
    requires forall i :: 0 <= i < |servers| ==> IsQuadLine(servers[i])
    ensures Collect(NameserverLines(servers), NameserverAddress) == servers
  {
    var lines := NameserverLines(servers);
    forall i | 0 <= i < |lines|
      ensures NameserverAddress(lines[i]) == Some(servers[i])
    {
      NameserverOfLine(servers[i]);
    }
    CollectEvery(lines, servers, NameserverAddress);
  }

  lemma HeaderLineFacts()
    ensures HeaderLine[0] == '#' && '\n' !in HeaderLine
    ensures Contains(HeaderLine, Marker)
  {
    assert HeaderLine[..|Marker|] == Marker;
  }

  lemma BackupNoteFacts()
    ensures BackupNote[0] == '#' && '\n' !in BackupNote
  {
    assert '\n' !in "# Original backed up to ";
    assert '\n' !in BackupPath;
  }

  /** The comment lines and the empty line are not `nameserver` lines. */
  lemma CommentLinesSkipped()
    ensures Collect([HeaderLine, BackupNote], NameserverAddress) == []
    ensures Collect(["", ""], NameserverAddress) == []
  {
    HeaderLineFacts();
    BackupNoteFacts();
    assert Keyword[0] == 'n';
    assert [HeaderLine, BackupNote][1..] == [BackupNote];
    assert ["", ""][1..] == [""];
  }

  lemma NoLineBreakInLines(servers: seq<string>)
    requires forall i :: 0 <= i < |servers| ==> IsQuadLine(servers[i])
    ensures forall i :: 0 <= i < |ContentLines(servers) + [""]| ==> '\n' !in (ContentLines(servers) + [""])[i]
  {
    HeaderLineFacts();
    BackupNoteFacts();
    forall i | 0 <= i < |servers|
      ensures IsAddressText(servers[i])
    {
      QuadLineChars(servers[i]);
    }
    NameserverLinesNoBreak(servers);
    LinesWithoutBreak(HeaderLine, BackupNote, NameserverLines(servers));
  }

  lemma NameserverLinesNoBreak(servers: seq<string>)
    requires forall i :: 0 <= i < |servers| ==> IsAddressText(servers[i])
    ensures forall i :: 0 <= i < |servers| ==> '\n' !in NameserverLines(servers)[i]
  {
    var k := Keyword + " ";
    assert '\n' !in k;
    forall i | 0 <= i < |servers|
      ensures '\n' !in NameserverLines(servers)[i]
    {
      assert '\n' !in servers[i];
      assert NameserverLines(servers)[i] == k + servers[i];
    }
  }

  lemma LinesWithoutBreak(h: string, n: string, xs: seq<string>)
    requires '\n' !in h && '\n' !in n
    requires forall i :: 0 <= i < |xs| ==> '\n' !in xs[i]
    ensures var lines := [h, n] + xs + [""] + [""];
      forall i :: 0 <= i < |lines| ==> '\n' !in lines[i]
  {
  }

  /** The written file splits into its lines followed by one more empty line. */
  lemma WrittenLines(servers: seq<string>)
    requires forall i :: 0 <= i < |servers| ==> IsQuadLine(servers[i])
    ensures Split(Written(servers), '\n') == ContentLines(servers) + [""]
  {
    JoinAppend(ContentLines(servers), "", "\n");
    assert Written(servers) == Join(ContentLines(servers) + [""], "\n");
    NoLineBreakInLines(servers);
    SplitJoin(ContentLines(servers) + [""], '\n');
  }

  /**
   * Reading back what the backends write gives exactly the servers written, in order, for
   * servers that are digit dotted quads; the file also carries the marker.
   */
  lemma RoundTrip(servers: seq<string>)
    requires forall i :: 0 <= i < |servers| ==> IsQuadLine(servers[i])
    ensures ActiveDnsOf(Written(servers)) == servers
    ensures IsMarked(Written(servers))
  {
    WrittenLines(servers);
    var head, body, tail := [HeaderLine, BackupNote], NameserverLines(servers), ["", ""];
    var lines := ContentLines(servers) + [""];
    assert lines == head + body + tail;
    CollectAppend(head + body, tail, NameserverAddress);
    CollectAppend(head, body, NameserverAddress);
    CommentLinesSkipped();
    CollectNameserverLines(servers);
    assert Collect(lines, NameserverAddress) == [] + servers + [];
    MarkedWritten(servers);
  }

  lemma MarkedWritten(servers: seq<string>)
    ensures IsMarked(Written(servers))
  {
    var lines := ContentLines(servers);
    var rest := "\n" + Join(lines[1..], "\n") + "\n";
    assert Written(servers) == HeaderLine + rest;
    HeaderLineFacts();
    ContainsInPrefix(HeaderLine, rest, Marker);
  }

  // ---------------------------------------------------------------- interfaces

  /** The interface type by name: `wl…` is wireless, `eth…` and `en…` are wired. */
  function LinuxInterfaceType(name: string): (t: InterfaceType)
    ensures t == Wifi <==> StartsWith(name, "wl")
    ensures t == Ethernet <==> !StartsWith(name, "wl") && (StartsWith(name, "eth") || StartsWith(name, "en"))
  {
    if StartsWith(name, "wl") then Wifi
    else if StartsWith(name, "eth") || StartsWith(name, "en") then Ethernet
    else OtherType
  }
}
