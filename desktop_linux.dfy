/**
 * The desktop application's Linux backend. It changes DNS by rewriting `/etc/resolv.conf`
 * with elevated shell commands, keeps a one-time backup of the original, and reads the file
 * back for the status. The file system is a map from path to contents, and the two ways of
 * running a command (plain and elevated) are oracles. The ghost field `log` records every
 * command issued, in order.
 */
module DesktopLinux {
  import opened Wrappers
  import opened Text
  import opened Lists
  import opened Shell
  import opened Patterns
  import opened Interfaces
  import opened ResolvConf

  const RestoreCommand: string := "[ -f " + BackupPath + " ] && cp " + BackupPath + " " + ResolvConfPath
  const RestartResolved: string := "systemctl restart systemd-resolved"
  const LinkListCommand: string := "ip -o link show | grep -v \"lo:\""
  const FlushCommands: seq<string> := ["systemd-resolve --flush-caches", "resolvectl flush-caches", "nscd -i hosts"]

  /** One echo request, waiting at most three seconds. */
  function PingCommand(server: string): string {
    "ping -c 1 -W 3 " + server
  }

  /**
   * `setDns(servers)`: the backup when needed, the elevated write of the new content, then
   * a best-effort restart of systemd-resolved whose outcome is ignored. A failing backup or
   * write ends the operation with its error.
   */
  function SetDnsStep(files: map<string, string>, servers: seq<string>, sudo: Oracle, log: seq<string>): Step {
    var backup := NeedsBackup(files);
    var log1 := if backup then log + [BackupCommand] else log;
    if backup && sudo(BackupCommand).Err? then Step(Failure(sudo(BackupCommand).message), files, log1)
    else
      var saved := if backup then files[BackupPath := files[ResolvConfPath]] else files;
      var write := WriteCommand(Content(servers));
      var log2 := log1 + [write];
      if sudo(write).Err? then Step(Failure(sudo(write).message), saved, log2)
      else Step(Success(DnsUpdated), saved[ResolvConfPath := Written(servers)], log2 + [RestartResolved])
  }

  /** The files after `[ -f backup ] && cp backup resolv.conf` succeeded. */
  function Restored(files: map<string, string>): map<string, string> {
    if BackupPath in files then files[ResolvConfPath := files[BackupPath]] else files
  }

  /**
   * `clearDns()`: the elevated restore, then the best-effort restart. The exit status of the
   * restore command (which also fails when there is no backup) decides the result.
   */
  function ClearDnsStep(files: map<string, string>, sudo: Oracle, log: seq<string>): Step {
    var log1 := log + [RestoreCommand];
    if sudo(RestoreCommand).Err? then Step(Failure(sudo(RestoreCommand).message), files, log1)
    else Step(Success(DnsReset), Restored(files), log1 + [RestartResolved])
  }

  /** `getStatus()`: connected when the file carries the marker and names at least one server. */
  function StatusOf(files: map<string, string>): DnsStatus {
    var dns := ActiveDnsIn(files);
    PlainStatus(ResolvConfPath in files && IsMarked(files[ResolvConfPath]) && |dns| > 0, dns)
  }

  /** `line.match(/^\d+:\s+(\w+)/)`: the captured interface name. */
  function LinkName(line: string): Option<string> {
    var index := DigitPrefix(line);
    if index == [] || |index| >= |line| || line[|index|] != ':' then None
    else
      var rest := line[|index| + 1..];
      if rest == [] || !IsWhitespace(rest[0]) then None
      else
        var name := WordPrefix(TrimStart(rest));
        if name == [] then None else Some(name)
  }

  /** The interface a line of `ip -o link show` describes, up when the line says `state UP`. */
  function LinkInterface(line: string): (r: Option<NetworkInterface>)
    ensures r.Some? <==> LinkName(line).Some?
    ensures r.Some? ==> r.value.name == LinkName(line).value && r.value.displayName == r.value.name
    ensures r.Some? ==> (r.value.isActive <==> Contains(line, "state UP"))
    ensures r.Some? ==> r.value.kind == LinuxInterfaceType(r.value.name) && r.value.ip.None?
  {
    match LinkName(line)
    case Some(name) => Some(NetworkInterface(name, name, LinuxInterfaceType(name), Contains(line, "state UP"), None))
    case None => None
  }

  /** `getNetworkInterfaces()` on the listing: one interface per matching non-blank line, in order. */
  function InterfacesOf(listing: Outcome): seq<NetworkInterface> {
    match listing
    case Ok(stdout) => Collect(Filter(Split(stdout, '\n'), NotBlank()), LinkInterface)
    case Err(_) => []
  }

  // ---------------------------------------------------------------- properties

  /**
   * The backup is taken exactly when needed, as the first command, and holds the original
   * file when the copy succeeded; otherwise the backup is left as it was.
   */
  lemma SetDnsBackup(files: map<string, string>, servers: seq<string>, sudo: Oracle, log: seq<string>)
    ensures var s := SetDnsStep(files, servers, sudo, log);
      && |s.log| > |log| && s.log[..|log|] == log
      && (s.log[|log|] == BackupCommand <==> NeedsBackup(files))
      && (NeedsBackup(files) && sudo(BackupCommand).Ok? ==>
            BackupPath in s.files && s.files[BackupPath] == files[ResolvConfPath])
      && (!NeedsBackup(files) ==> (BackupPath in s.files <==> BackupPath in files))
      && (!NeedsBackup(files) && BackupPath in files ==> s.files[BackupPath] == files[BackupPath])
  {
    assert WriteCommand(Content(servers))[0] == 'e' && BackupCommand[0] == 'c';
    assert BackupPath != ResolvConfPath by {
      assert |BackupPath| != |ResolvConfPath|;
    }
  }

  /** Only a failing backup copy or a failing write makes `setDns` fail; the restart never does. */
  lemma SetDnsFails(files: map<string, string>, servers: seq<string>, sudo: Oracle)
    ensures var s := SetDnsStep(files, servers, sudo, []);
      s.result.Failure? <==>
        (NeedsBackup(files) && sudo(BackupCommand).Err?) || sudo(WriteCommand(Content(servers))).Err?
    ensures var s := SetDnsStep(files, servers, sudo, []);
      s.result.Failure? ==> RestartResolved !in s.log
  {
    assert WriteCommand(Content(servers))[0] == 'e' && BackupCommand[0] == 'c' && RestartResolved[0] == 's';
  }

  /**
   * After a successful `setDns`, the status reports exactly the servers written, and it is
   * connected exactly when at least one server was given.
   */
  lemma SetThenStatus(files: map<string, string>, servers: seq<string>, sudo: Oracle, log: seq<string>)
    requires forall i :: 0 <= i < |servers| ==> IsQuadLine(servers[i])
    requires SetDnsStep(files, servers, sudo, log).result.Success?
    ensures StatusOf(SetDnsStep(files, servers, sudo, log).files) == PlainStatus(|servers| > 0, servers)
  {
    RoundTrip(servers);
  }

  /**
   * `clearDns` after a `setDns` that backed up an unmodified file puts the original file back
   * when both elevated commands succeed.
   */
  lemma ClearUndoesSet(files: map<string, string>, servers: seq<string>, sudo: Oracle, log: seq<string>)
    requires NeedsBackup(files)
    requires sudo(BackupCommand).Ok? && sudo(WriteCommand(Content(servers))).Ok? && sudo(RestoreCommand).Ok?
    ensures var written := SetDnsStep(files, servers, sudo, log);
      var cleared := ClearDnsStep(written.files, sudo, written.log);
      cleared.result == Success(DnsReset) && cleared.files[ResolvConfPath] == files[ResolvConfPath]
  {
    SetDnsBackup(files, servers, sudo, log);
  }

  /** A failed restore leaves the file system as it was. */
  lemma ClearFailureKeepsFiles(files: map<string, string>, sudo: Oracle, log: seq<string>)
    requires sudo(RestoreCommand).Err?
    ensures ClearDnsStep(files, sudo, log).files == files && ClearDnsStep(files, sudo, log).result.Failure?
  {
  }

  /** The name of a well-formed listing line: an index, a colon, white space and the name. */
  lemma LinkNameOf(index: string, name: string, tail: string)
    requires index != [] && AllDigits(index)
    requires name != [] && forall i :: 0 <= i < |name| ==> IsWordChar(name[i])
    requires tail == [] || !IsWordChar(tail[0])
    ensures LinkName(index + ": " + name + tail) == Some(name)
  {
    var word := name + tail;
    var line := index + ([':'] + ([' '] + word));
    assert index + ": " + name + tail == line;
    assert !IsDigit(([':'] + ([' '] + word))[0]);
    DigitPrefixUpTo(index, [':'] + ([' '] + word));
    assert line[|index|] == ':';
    assert line[|index| + 1..] == [' '] + word;
    assert word[0] == name[0];
    SpaceThenWord(word);
    WordPrefixUpTo(name, tail);
  }

  /** One blank before a non-blank is all `\s+` consumes. */
  lemma SpaceThenWord(word: string)
    requires word != [] && !IsWhitespace(word[0])
    ensures TrimStart([' '] + word) == word
  {
    assert ([' '] + word)[1..] == word;
  }

  /** A line without a leading index, such as a blank one, names no interface. */
  lemma LinkNameNeedsIndex(line: string)
    requires line == [] || !IsDigit(line[0])
    ensures LinkName(line).None?
  {
  }

  // ---------------------------------------------------------------- the backend

  class LinuxPlatform {
    /** The file system, by path. */
    var files: map<string, string>
    /** `execute` and `executeElevated`. */
    const run: Oracle
    const sudo: Oracle
    ghost var log: seq<string>

    constructor(files: map<string, string>, run: Oracle, sudo: Oracle)
      ensures this.files == files && this.run == run && this.sudo == sudo && log == []
    {
      this.files := files;
      this.run := run;
      this.sudo := sudo;
      log := [];
    }

    method SetDns(servers: seq<string>) returns (r: OpResult)
      modifies this
      ensures var s := SetDnsStep(old(files), servers, sudo, old(log));
        r == s.result && files == s.files && log == s.log
    {
      var original := ReadOrEmpty(files);
      if original != "" && !IsMarked(original) {
        var copied := sudo(BackupCommand);
        log := log + [BackupCommand];
        if copied.Err? {
          return Failure(copied.message);
        }
        files := files[BackupPath := original];
      }
      var content := Content(servers);
      var write := WriteCommand(content);
      var written := sudo(write);
      log := log + [write];
      if written.Err? {
        return Failure(written.message);
      }
      files := files[ResolvConfPath := content + "\n"];
      var restarted := run(RestartResolved);
      log := log + [RestartResolved];
      r := Success(DnsUpdated);
    }

    method ClearDns() returns (r: OpResult)
      modifies this
      ensures var s := ClearDnsStep(old(files), sudo, old(log));
        r == s.result && files == s.files && log == s.log
    {
      var restored := sudo(RestoreCommand);
      log := log + [RestoreCommand];
      if restored.Err? {
        return Failure(restored.message);
      }
      if BackupPath in files {
        files := files[ResolvConfPath := files[BackupPath]];
      }
      var restarted := run(RestartResolved);
      log := log + [RestartResolved];
      r := Success(DnsReset);
    }

    method GetActiveDns() returns (servers: seq<string>)
      ensures servers == ActiveDnsIn(files)
    {
      if ResolvConfPath !in files {
        return [];
      }
      var lines := Split(files[ResolvConfPath], '\n');
      servers := [];
      var i := 0;
      while i < |lines|
        invariant 0 <= i <= |lines|
        invariant servers == Collect(lines[..i], NameserverAddress)
      {
        CollectPush(lines, i, NameserverAddress, servers);
        var address := NameserverAddress(lines[i]);
        if address.Some? {
          servers := servers + [address.value];
        }
        i := i + 1;
      }
      assert lines[..|lines|] == lines;
    }

    method GetStatus() returns (status: DnsStatus)
      ensures status == StatusOf(files)
    {
      var activeDns := GetActiveDns();
      var isVanillaDns := ResolvConfPath in files && IsMarked(files[ResolvConfPath]);
      status := PlainStatus(isVanillaDns && |activeDns| > 0, activeDns);
    }

    method GetNetworkInterfaces() returns (interfaces: seq<NetworkInterface>)
      modifies this
      ensures interfaces == InterfacesOf(run(LinkListCommand))
      ensures files == old(files) && log == old(log) + [LinkListCommand]
    {
      var listing := run(LinkListCommand);
      log := log + [LinkListCommand];
      if listing.Err? {
        return [];
      }
      var lines := Filter(Split(listing.stdout, '\n'), NotBlank());
      interfaces := [];
      var i := 0;
      while i < |lines|
        invariant 0 <= i <= |lines|
        invariant interfaces == Collect(lines[..i], LinkInterface)
        invariant files == old(files) && log == old(log) + [LinkListCommand]
      {
        CollectStep(lines, i, LinkInterface);
        var name := LinkName(lines[i]);
        if name.Some? {
          var isUp := Contains(lines[i], "state UP");
          interfaces := interfaces + [NetworkInterface(name.value, name.value, LinuxInterfaceType(name.value), isUp, None)];
        }
        i := i + 1;
      }
      assert lines[..|lines|] == lines;
    }

    /** Tries each flush command until one succeeds; the flush itself never fails. */
    method FlushDnsCache() returns (r: OpResult)
      modifies this
      ensures r == Success(if SomeSucceeds(FlushCommands, sudo) then CacheFlushed else CacheFlushAttempted)
      ensures files == old(files) && log == old(log) + UntilSuccess(FlushCommands, sudo)
    {
      var i := 0;
      while i < |FlushCommands|
        invariant 0 <= i <= |FlushCommands|
        invariant forall j :: 0 <= j < i ==> sudo(FlushCommands[j]).Err?
        invariant files == old(files) && log == old(log) + FlushCommands[..i]
      {
        var flushed := sudo(FlushCommands[i]);
        log := log + [FlushCommands[i]];
        if flushed.Ok? {
          UntilSuccessAt(FlushCommands, sudo, i);
          return Success(CacheFlushed);
        }
        i := i + 1;
      }
      UntilSuccessAllFail(FlushCommands, sudo);
      r := Success(CacheFlushAttempted);
    }
    /**
     * `pingServer`: `elapsed` stands for the clock readings around the request; a failure has
     * latency -1 and carries the message.
     */
    method PingServer(server: string, elapsed: nat) returns (r: PingResult)
      modifies this
      ensures r.server == server && (r.success <==> run(PingCommand(server)).Ok?)
      ensures r.success ==> r.latency == elapsed && r.error.None?
      ensures !r.success ==> r.latency == -1 && r.error == Some(run(PingCommand(server)).message)
      ensures log == old(log) + [PingCommand(server)] && files == old(files)
    {
      var o := run(PingCommand(server));
      log := log + [PingCommand(server)];
      if o.Err? {
        return PingResult(server, -1, false, Some(o.message));
      }
      r := PingResult(server, elapsed, true, None);
    }

    /** `isElevated`: whether the user id is 0. */
    method IsElevated() returns (elevated: bool)
      modifies this
      ensures elevated <==> SaysRoot(run(UserIdCommand))
      ensures log == old(log) + [UserIdCommand] && files == old(files)
    {
      var o := run(UserIdCommand);
      log := log + [UserIdCommand];
      elevated := SaysRoot(o);
    }
  }
}
