/**
 * The command-line tool's Linux backend. It first works out which system manages DNS. Under
 * NetworkManager it changes the active connection with `nmcli`. Otherwise, and whenever the
 * `nmcli` route fails, it edits `/etc/resolv.conf` directly. The detected manager and the
 * active connection are remembered in fields. The file system is a map from path to
 * contents, the two ways of running a command are oracles, and the ghost field `log`
 * records the commands issued.
 */
module CliLinux {
  import opened Wrappers
  import opened Text
  import opened Lists
  import opened Shell
  import opened Patterns
  import opened Interfaces
  import opened ResolvConf

  datatype DnsManager = NetworkManager | SystemdResolved | DirectEdit

  const WhichNmcli: string := "which nmcli 2>/dev/null"
  const NetworkManagerActive: string := "systemctl is-active NetworkManager 2>/dev/null || echo inactive"
  const ResolvedActive: string := "systemctl is-active systemd-resolved 2>/dev/null || echo inactive"
  const ConnectionCommand: string :=
    "nmcli -t -f NAME,TYPE,DEVICE connection show --active | grep -E '(ethernet|wifi)' | head -1 | cut -d: -f1"
  const ReadlinkCommand: string := "readlink " + ResolvConfPath + " 2>/dev/null || echo \"\""
  const RemoveCommand: string := "rm -f " + ResolvConfPath
  const LockCommand: string := "chattr +i " + ResolvConfPath
  const UnlockCommand: string := "chattr -i " + ResolvConfPath + " 2>/dev/null || true"
  const RestoreCommand: string := "cp " + BackupPath + " " + ResolvConfPath
  const StubPath: string := "/run/systemd/resolve/stub-resolv.conf"
  const LinkStubCommand: string := "ln -sf " + StubPath + " " + ResolvConfPath
  const RestartResolved: string := "systemctl restart systemd-resolved"
  const RestartResolvedQuiet: string := "systemctl restart systemd-resolved 2>/dev/null || true"
  const RestartNetworkManager: string := "systemctl restart NetworkManager 2>/dev/null || true"
  const LinkNamesCommand: string := "ip -o link show 2>/dev/null | grep -v \"lo:\" | awk '{print $2}' | tr -d ':'"
  const FlushCommands: seq<string> := ["resolvectl flush-caches", "systemd-resolve --flush-caches", "nscd -i hosts"]

  /** One echo request, waiting at most three seconds. */
  function PingCommand(server: string): string {
    "ping -c 1 -W 3 " + server
  }

  // ---------------------------------------------------------------- the manager and the connection

  /** Whether a probe printed exactly `active`, once trimmed. */
  predicate ReportsActive(probe: Outcome) {
    probe.Ok? && Trim(probe.stdout) == "active"
  }

  /** Whether a probe printed something other than white space. */
  predicate PrintsSomething(probe: Outcome) {
    probe.Ok? && Trim(probe.stdout) != ""
  }

  /**
   * `detectDnsManager` when nothing is remembered. NetworkManager needs `nmcli` and the
   * running service. Otherwise systemd-resolved is chosen when it is running. Otherwise the
   * file is edited directly.
   */
  function Detect(run: Oracle): (m: DnsManager)
    ensures m == NetworkManager <==> PrintsSomething(run(WhichNmcli)) && ReportsActive(run(NetworkManagerActive))
    ensures m == SystemdResolved <==>
      !(PrintsSomething(run(WhichNmcli)) && ReportsActive(run(NetworkManagerActive))) && ReportsActive(run(ResolvedActive))
  {
    if PrintsSomething(run(WhichNmcli)) && ReportsActive(run(NetworkManagerActive)) then NetworkManager
    else if ReportsActive(run(ResolvedActive)) then SystemdResolved
    else DirectEdit
  }

  /** `log` extended by the probes `Detect` runs, in order. */
  function DetectLog(run: Oracle, log: seq<string>): seq<string> {
    var log1 := log + [WhichNmcli];
    if PrintsSomething(run(WhichNmcli)) then
      var log2 := log1 + [NetworkManagerActive];
      if ReportsActive(run(NetworkManagerActive)) then log2 else log2 + [ResolvedActive]
    else log1 + [ResolvedActive]
  }

  /** The manager `detectDnsManager` answers, given what is remembered. */
  function ManagerOf(cached: Option<DnsManager>, run: Oracle): DnsManager {
    if cached.Some? then cached.value else Detect(run)
  }

  function ManagerLog(cached: Option<DnsManager>, run: Oracle, log: seq<string>): seq<string> {
    if cached.Some? then log else DetectLog(run, log)
  }

  /** A remembered connection name counts only when it is not empty. */
  predicate Remembered(cached: Option<string>) {
    cached.Some? && cached.value != ""
  }

  /** The first active wired or wireless connection `nmcli` lists, trimmed, when there is one. */
  function ConnectionFrom(run: Oracle): (c: Option<string>)
    ensures c.Some? ==> c.value != "" && IsTrimmed(c.value)
  {
    var listed := run(ConnectionCommand);
    if PrintsSomething(listed) then Some(Trim(listed.stdout)) else None
  }

  /** What `getActiveConnection` answers, given what is remembered. */
  function ConnectionOf(cached: Option<string>, run: Oracle): Option<string> {
    if Remembered(cached) then cached else ConnectionFrom(run)
  }

  /** What `getActiveConnection` leaves remembered: an unsuccessful lookup changes nothing. */
  function ConnectionKept(cached: Option<string>, run: Oracle): Option<string> {
    if Remembered(cached) || ConnectionFrom(run).None? then cached else ConnectionFrom(run)
  }

  function ConnectionLog(cached: Option<string>, run: Oracle, log: seq<string>): seq<string> {
    if Remembered(cached) then log else log + [ConnectionCommand]
  }

  // ---------------------------------------------------------------- direct editing

  /** Whether `readlink` shows the file pointing into systemd's resolver. */
  predicate PointsIntoSystemd(link: Outcome) {
    link.Ok? && (Contains(link.stdout, "stub-resolv.conf") || Contains(link.stdout, "systemd"))
  }

  /**
   * `setDnsDirect`: the backup rule of the desktop backend, then `readlink`. When the file is
   * a link into systemd's resolver it is removed. Then come the elevated write and an attempt
   * to make the file immutable. Only a failing backup copy or a failing write fails the
   * operation.
   */
  function DirectSetStep(files: map<string, string>, servers: seq<string>, run: Oracle, sudo: Oracle, log: seq<string>): Step {
    var backup := NeedsBackup(files);
    var log1 := if backup then log + [BackupCommand] else log;
    if backup && sudo(BackupCommand).Err? then Step(Failure(sudo(BackupCommand).message), files, log1)
    else
      var saved := if backup then files[BackupPath := files[ResolvConfPath]] else files;
      var unlinked := Unlinked(saved, run, sudo);
      var write := WriteCommand(Content(servers));
      var log2 := UnlinkLog(run, log1) + [write];
      if sudo(write).Err? then Step(Failure(sudo(write).message), unlinked, log2)
      else Step(Success(DnsUpdated), unlinked[ResolvConfPath := Written(servers)], log2 + [LockCommand])
  }

  /** The files after `readlink` and, when the file points into systemd's resolver, `rm -f`. */
  function Unlinked(files: map<string, string>, run: Oracle, sudo: Oracle): map<string, string> {
    if PointsIntoSystemd(run(ReadlinkCommand)) && sudo(RemoveCommand).Ok? then files - {ResolvConfPath} else files
  }

  /** `log` extended by `readlink` and, when the file points into systemd's resolver, `rm -f`. */
  function UnlinkLog(run: Oracle, log: seq<string>): seq<string> {
    var log1 := log + [ReadlinkCommand];
    if PointsIntoSystemd(run(ReadlinkCommand)) then log1 + [RemoveCommand] else log1
  }

  /** The files after `ln -sf` pointed the resolver file at systemd's stub. */
  function LinkedToStub(files: map<string, string>): map<string, string> {
    if StubPath in files then files[ResolvConfPath := files[StubPath]] else files - {ResolvConfPath}
  }

  /**
   * `clearDnsDirect`: the immutable flag is dropped. The backup is copied back when it exists.
   * If it is missing or the copy fails, the file is linked to the stub when systemd-resolved
   * is running. Then both services are restarted. Every failure is ignored, and the result is
   * always a success.
   */
  function DirectClearStep(files: map<string, string>, run: Oracle, sudo: Oracle, log: seq<string>): Step {
    var log1 := log + [UnlockCommand];
    var hasBackup := BackupPath in files;
    var log2 := if hasBackup then log1 + [RestoreCommand] else log1;
    if hasBackup && sudo(RestoreCommand).Ok? then
      Step(Success(DnsReset), files[ResolvConfPath := files[BackupPath]], log2 + [RestartResolvedQuiet] + [RestartNetworkManager])
    else
      var log3 := log2 + [ResolvedActive];
      var link := ReportsActive(run(ResolvedActive));
      var log4 := if link then log3 + [LinkStubCommand] else log3;
      var linked := link && sudo(LinkStubCommand).Ok?;
      var log5 := if linked then log4 + [RestartResolved] else log4;
      Step(Success(DnsReset), if linked then LinkedToStub(files) else files, log5 + [RestartResolvedQuiet] + [RestartNetworkManager])
  }

  // ---------------------------------------------------------------- the NetworkManager route

  function ModifyCommand(connection: string, servers: seq<string>): string {
    "nmcli connection modify \"" + connection + "\" ipv4.dns \"" + Join(servers, " ") + "\" ipv4.ignore-auto-dns yes"
  }

  function ResetCommand(connection: string): string {
    "nmcli connection modify \"" + connection + "\" ipv4.dns \"\" ipv4.ignore-auto-dns no"
  }

  function CycleCommand(connection: string): string {
    "nmcli connection down \"" + connection + "\" && nmcli connection up \"" + connection + "\""
  }

  function IgnoreAutoCommand(connection: string): string {
    "nmcli -t -f ipv4.ignore-auto-dns connection show \"" + connection + "\" 2>/dev/null"
  }

  /** What a request answers and leaves in the file system and the remembered connection, and the log after it. */
  datatype Effect = Effect(result: OpResult, files: map<string, string>, connection: Option<string>, log: seq<string>)

  /** A direct-editing step, with the connection left as `connection`. */
  function Direct(connection: Option<string>, step: Step): Effect {
    Effect(step.result, step.files, connection, step.log)
  }

  /**
   * `setDnsNetworkManager`: without an active connection, or when either `nmcli` command
   * fails, the file is edited directly instead.
   */
  function NmSetEffect(files: map<string, string>, cached: Option<string>, servers: seq<string>,
                       run: Oracle, sudo: Oracle, log: seq<string>): Effect {
    var looked := ConnectionLog(cached, run, log);
    var kept := ConnectionKept(cached, run);
    match ConnectionOf(cached, run)
    case None => Direct(kept, DirectSetStep(files, servers, run, sudo, looked))
    case Some(c) =>
      var log1 := looked + [ModifyCommand(c, servers)];
      if sudo(ModifyCommand(c, servers)).Err? then Direct(kept, DirectSetStep(files, servers, run, sudo, log1))
      else
        var log2 := log1 + [CycleCommand(c)];
        if sudo(CycleCommand(c)).Err? then Direct(kept, DirectSetStep(files, servers, run, sudo, log2))
        else Effect(Success(DnsUpdated), files, kept, log2)
  }

  /** `clearDnsNetworkManager`: as above, and a successful reset forgets the connection. */
  function NmClearEffect(files: map<string, string>, cached: Option<string>, run: Oracle, sudo: Oracle, log: seq<string>): Effect {
    var looked := ConnectionLog(cached, run, log);
    var kept := ConnectionKept(cached, run);
    match ConnectionOf(cached, run)
    case None => Direct(kept, DirectClearStep(files, run, sudo, looked))
    case Some(c) =>
      var log1 := looked + [ResetCommand(c)];
      if sudo(ResetCommand(c)).Err? then Direct(kept, DirectClearStep(files, run, sudo, log1))
      else
        var log2 := log1 + [CycleCommand(c)];
        if sudo(CycleCommand(c)).Err? then Direct(kept, DirectClearStep(files, run, sudo, log2))
        else Effect(Success(DnsReset), files, None, log2)
  }

  /** `setDns`: the manager decides the route; only NetworkManager uses `nmcli`. */
  function SetDnsEffect(files: map<string, string>, manager: Option<DnsManager>, cached: Option<string>,
                        servers: seq<string>, run: Oracle, sudo: Oracle, log: seq<string>): Effect {
    var detected := ManagerLog(manager, run, log);
    if ManagerOf(manager, run) == NetworkManager then NmSetEffect(files, cached, servers, run, sudo, detected)
    else Direct(cached, DirectSetStep(files, servers, run, sudo, detected))
  }

  /** `clearDns`: as `setDns`. */
  function ClearDnsEffect(files: map<string, string>, manager: Option<DnsManager>, cached: Option<string>,
                          run: Oracle, sudo: Oracle, log: seq<string>): Effect {
    var detected := ManagerLog(manager, run, log);
    if ManagerOf(manager, run) == NetworkManager then NmClearEffect(files, cached, run, sudo, detected)
    else Direct(cached, DirectClearStep(files, run, sudo, detected))
  }

  // ---------------------------------------------------------------- status and interfaces

  /** Whether NetworkManager reports that the connection ignores the automatic DNS servers. */
  predicate IgnoresAutoDns(connection: string, run: Oracle) {
    run(IgnoreAutoCommand(connection)).Ok? && Contains(run(IgnoreAutoCommand(connection)).stdout, "yes")
  }

  /** The status check on NetworkManager, reached only when the file carries no marker. */
  predicate NmConfigured(manager: Option<DnsManager>, cached: Option<string>, run: Oracle) {
    ManagerOf(manager, run) == NetworkManager
    && ConnectionOf(cached, run).Some?
    && IgnoresAutoDns(ConnectionOf(cached, run).value, run)
  }

  /** `log` extended by what that check runs. */
  function NmCheckLog(manager: Option<DnsManager>, cached: Option<string>, run: Oracle, log: seq<string>): seq<string> {
    var log1 := ManagerLog(manager, run, log);
    if ManagerOf(manager, run) != NetworkManager then log1
    else
      var log2 := ConnectionLog(cached, run, log1);
      match ConnectionOf(cached, run)
      case None => log2
      case Some(c) => log2 + [IgnoreAutoCommand(c)]
  }

  /** Whether the resolver file carries the marker. */
  predicate MarkedFile(files: map<string, string>) {
    ResolvConfPath in files && IsMarked(files[ResolvConfPath])
  }

  function OperstateCommand(name: string): string {
    "cat /sys/class/net/" + name + "/operstate 2>/dev/null || echo unknown"
  }

  function AddressCommand(name: string): string {
    "ip -4 addr show " + name + " 2>/dev/null | grep -oP 'inet \\K[\\d.]+'"
  }

  /**
   * The interface `getNetworkInterfaces` records for a listed name. The operstate probe must
   * succeed. The address is the trimmed output of the address probe, when it printed
   * something. The interface is active when it is up and has an address.
   */
  function Probe(name: string, run: Oracle): (r: Option<NetworkInterface>)
    ensures r.Some? <==> run(OperstateCommand(name)).Ok?
    ensures r.Some? ==> r.value.name == name && r.value.displayName == name && r.value.kind == LinuxInterfaceType(name)
    ensures r.Some? ==> (r.value.ip.Some? <==> PrintsSomething(run(AddressCommand(name))))
    ensures r.Some? ==> (r.value.isActive <==> Trim(run(OperstateCommand(name)).stdout) == "up" && r.value.ip.Some?)
  {
    var state := run(OperstateCommand(name));
    if state.Err? then None
    else
      var address := run(AddressCommand(name));
      var ip := if PrintsSomething(address) then Some(Trim(address.stdout)) else None;
      Some(NetworkInterface(name, name, LinuxInterfaceType(name), Trim(state.stdout) == "up" && ip.Some?, ip))
  }

  function ProbeWith(run: Oracle): string -> Option<NetworkInterface> {
    (name: string) => Probe(name, run)
  }

  /** `log` extended by the probes for one name: the address is asked for only when the state was read. */
  function ProbeLog(name: string, run: Oracle, log: seq<string>): seq<string> {
    var log1 := log + [OperstateCommand(name)];
    if run(OperstateCommand(name)).Ok? then log1 + [AddressCommand(name)] else log1
  }

  /** `log` extended by the probes for every name, in order. */
  function ProbesLog(names: seq<string>, run: Oracle, log: seq<string>): seq<string> {
    if names == [] then log
    else ProbeLog(names[|names| - 1], run, ProbesLog(names[..|names| - 1], run, log))
  }

  /** One more name probed: its probes are appended. */
  lemma ProbesLogPush(names: seq<string>, i: nat, run: Oracle, log: seq<string>)
    requires i < |names|
    ensures ProbesLog(names[..i + 1], run, log) == ProbeLog(names[i], run, ProbesLog(names[..i], run, log))
  {
    assert names[..i + 1][..i] == names[..i];
  }

  function IsActive(): NetworkInterface -> bool {
    (i: NetworkInterface) => i.isActive
  }

  /** The listed names: the non-blank lines of the listing. */
  function ListedNames(listing: Outcome): seq<string> {
    if listing.Ok? then Filter(Split(listing.stdout, '\n'), NotBlank()) else []
  }

  /** `getNetworkInterfaces`: the probed interfaces, the active ones first, each group in listing order. */
  function InterfacesOf(run: Oracle): seq<NetworkInterface> {
    Partitioned(Collect(ListedNames(run(LinkNamesCommand)), ProbeWith(run)), IsActive())
  }

  // ---------------------------------------------------------------- properties

  /** systemd-resolved and direct editing both take the direct route. */
  lemma OnlyNetworkManagerUsesNmcli(files: map<string, string>, manager: Option<DnsManager>, cached: Option<string>,
                                    servers: seq<string>, run: Oracle, sudo: Oracle, log: seq<string>)
    requires ManagerOf(manager, run) != NetworkManager
    ensures var e := SetDnsEffect(files, manager, cached, servers, run, sudo, log);
      var d := DirectSetStep(files, servers, run, sudo, []);
      e.result == d.result && e.files == d.files && e.connection == cached
    ensures var e := ClearDnsEffect(files, manager, cached, run, sudo, log);
      var d := DirectClearStep(files, run, sudo, []);
      e.result == d.result && e.files == d.files && e.connection == cached
  {
  }

  /** The `nmcli` route gives way to direct editing whenever it cannot complete. */
  lemma NmFallsBackToDirect(files: map<string, string>, cached: Option<string>, servers: seq<string>,
                            run: Oracle, sudo: Oracle, log: seq<string>)
    requires var c := ConnectionOf(cached, run);
      c.None? || sudo(ModifyCommand(c.value, servers)).Err? || sudo(CycleCommand(c.value)).Err?
    ensures var e := NmSetEffect(files, cached, servers, run, sudo, log);
      var d := DirectSetStep(files, servers, run, sudo, []);
      e.result == d.result && e.files == d.files
  {
    var looked := ConnectionLog(cached, run, log);
    match ConnectionOf(cached, run)
    case None =>
      DirectSetIgnoresLog(files, servers, run, sudo, looked);
    case Some(c) =>
      var log1 := looked + [ModifyCommand(c, servers)];
      if sudo(ModifyCommand(c, servers)).Err? {
        DirectSetIgnoresLog(files, servers, run, sudo, log1);
      } else {
        DirectSetIgnoresLog(files, servers, run, sudo, log1 + [CycleCommand(c)]);
      }
  }

  /** What direct editing answers and leaves in the file system does not depend on the commands run before it. */
  lemma DirectSetIgnoresLog(files: map<string, string>, servers: seq<string>, run: Oracle, sudo: Oracle, log: seq<string>)
    ensures var s := DirectSetStep(files, servers, run, sudo, log);
      var d := DirectSetStep(files, servers, run, sudo, []);
      s.result == d.result && s.files == d.files
  {
  }

  /** When both `nmcli` commands succeed the file is left alone and the change is reported. */
  lemma NmSetSucceeds(files: map<string, string>, cached: Option<string>, servers: seq<string>,
                      run: Oracle, sudo: Oracle, log: seq<string>)
    requires ConnectionOf(cached, run).Some?
    requires var c := ConnectionOf(cached, run).value;
      sudo(ModifyCommand(c, servers)).Ok? && sudo(CycleCommand(c)).Ok?
    ensures var e := NmSetEffect(files, cached, servers, run, sudo, log);
      e.result == Success(DnsUpdated) && e.files == files && e.connection.Some?
  {
  }

  /** The connection is forgotten when the `nmcli` reset completes, and otherwise kept as the lookup left it. */
  lemma NmClearForgetsConnection(files: map<string, string>, cached: Option<string>, run: Oracle, sudo: Oracle, log: seq<string>)
    ensures var e := NmClearEffect(files, cached, run, sudo, log);
      var c := ConnectionOf(cached, run);
      if c.Some? && sudo(ResetCommand(c.value)).Ok? && sudo(CycleCommand(c.value)).Ok? then e.connection.None?
      else e.connection == ConnectionKept(cached, run)
  {
  }

  /** Clearing always succeeds, by whichever route. */
  lemma ClearAlwaysSucceeds(files: map<string, string>, manager: Option<DnsManager>, cached: Option<string>,
                            run: Oracle, sudo: Oracle, log: seq<string>)
    ensures ClearDnsEffect(files, manager, cached, run, sudo, log).result.Success?
  {
    var detected := ManagerLog(manager, run, log);
    if ManagerOf(manager, run) == NetworkManager {
      var looked := ConnectionLog(cached, run, detected);
      match ConnectionOf(cached, run)
      case None =>
        DirectClearSucceeds(files, run, sudo, looked);
      case Some(c) =>
        var log1 := looked + [ResetCommand(c)];
        if sudo(ResetCommand(c)).Err? {
          DirectClearSucceeds(files, run, sudo, log1);
        } else if sudo(CycleCommand(c)).Err? {
          DirectClearSucceeds(files, run, sudo, log1 + [CycleCommand(c)]);
        }
    } else {
      DirectClearSucceeds(files, run, sudo, detected);
    }
  }

  /** Direct clearing reports the reset whatever its commands answer. */
  lemma DirectClearSucceeds(files: map<string, string>, run: Oracle, sudo: Oracle, log: seq<string>)
    ensures DirectClearStep(files, run, sudo, log).result == Success(DnsReset)
  {
  }

  /** Only a failing backup copy or a failing write fails direct editing; `rm` and `chattr` never do. */
  lemma DirectSetFails(files: map<string, string>, servers: seq<string>, run: Oracle, sudo: Oracle, log: seq<string>)
    ensures var s := DirectSetStep(files, servers, run, sudo, log);
      s.result.Failure? <==>
        (NeedsBackup(files) && sudo(BackupCommand).Err?) || sudo(WriteCommand(Content(servers))).Err?
  {
  }

  /** Direct editing backs the file up exactly when the desktop backend would, as its first command, and keeps the copy. */
  lemma DirectSetBackup(files: map<string, string>, servers: seq<string>, run: Oracle, sudo: Oracle, log: seq<string>)
    ensures var s := DirectSetStep(files, servers, run, sudo, log);
      && |s.log| > |log| && s.log[..|log|] == log
      && (s.log[|log|] == BackupCommand <==> NeedsBackup(files))
      && (NeedsBackup(files) && sudo(BackupCommand).Ok? ==>
            BackupPath in s.files && s.files[BackupPath] == files[ResolvConfPath])
  {
    assert BackupCommand[0] == 'c' && ReadlinkCommand[0] == 'r';
    assert BackupPath != ResolvConfPath by {
      assert |BackupPath| != |ResolvConfPath|;
    }
  }

  /** After successful direct editing the file reads back as exactly the servers, and carries the marker. */
  lemma DirectSetThenRead(files: map<string, string>, servers: seq<string>, run: Oracle, sudo: Oracle, log: seq<string>)
    requires forall i :: 0 <= i < |servers| ==> IsQuadLine(servers[i])
    requires DirectSetStep(files, servers, run, sudo, log).result.Success?
    ensures var f := DirectSetStep(files, servers, run, sudo, log).files;
      ActiveDnsIn(f) == servers && MarkedFile(f)
  {
    RoundTrip(servers);
  }

  /** Clearing after direct editing that backed up an unmodified file puts the original back. */
  lemma DirectClearUndoesSet(files: map<string, string>, servers: seq<string>, run: Oracle, sudo: Oracle, log: seq<string>)
    requires NeedsBackup(files)
    requires sudo(BackupCommand).Ok? && sudo(WriteCommand(Content(servers))).Ok? && sudo(RestoreCommand).Ok?
    ensures var written := DirectSetStep(files, servers, run, sudo, log);
      var cleared := DirectClearStep(written.files, run, sudo, written.log);
      ResolvConfPath in cleared.files && cleared.files[ResolvConfPath] == files[ResolvConfPath]
  {
    DirectSetBackup(files, servers, run, sudo, log);
    assert BackupPath != ResolvConfPath by {
      assert |BackupPath| != |ResolvConfPath|;
    }
  }

  /** Active interfaces come first, and the listing keeps every probed interface. */
  lemma InterfacesActiveFirst(run: Oracle)
    ensures var r := InterfacesOf(run);
      var probed := Collect(ListedNames(run(LinkNamesCommand)), ProbeWith(run));
      && multiset(r) == multiset(probed)
      && forall i, j :: 0 <= i < j < |r| && r[j].isActive ==> r[i].isActive
  {
  }

  // ---------------------------------------------------------------- the backend

  class CliLinuxPlatform {
    var files: map<string, string>
    /** `detectedManager` and `activeConnection`; `None` is `null`. */
    var detectedManager: Option<DnsManager>
    var activeConnection: Option<string>
    const run: Oracle
    const sudo: Oracle
    ghost var log: seq<string>

    constructor(files: map<string, string>, run: Oracle, sudo: Oracle)
      ensures this.files == files && this.run == run && this.sudo == sudo
      ensures detectedManager.None? && activeConnection.None? && log == []
    {
      this.files := files;
      this.run := run;
      this.sudo := sudo;
      detectedManager := None;
      activeConnection := None;
      log := [];
    }

    /** Detection runs once; later calls answer from memory without running anything. */
    method DetectDnsManager() returns (m: DnsManager)
      modifies this
      ensures m == ManagerOf(old(detectedManager), run) && detectedManager == Some(m)
      ensures log == ManagerLog(old(detectedManager), run, old(log))
      ensures files == old(files) && activeConnection == old(activeConnection)
    {
      if detectedManager.Some? {
        return detectedManager.value;
      }
      var which := run(WhichNmcli);
      log := log + [WhichNmcli];
      if PrintsSomething(which) {
        var status := run(NetworkManagerActive);
        log := log + [NetworkManagerActive];
        if ReportsActive(status) {
          detectedManager := Some(NetworkManager);
          return NetworkManager;
        }
      }
      var resolved := run(ResolvedActive);
      log := log + [ResolvedActive];
      if ReportsActive(resolved) {
        detectedManager := Some(SystemdResolved);
        return SystemdResolved;
      }
      detectedManager := Some(DirectEdit);
      m := DirectEdit;
    }

    /** The lookup runs only when no connection is remembered, and a found one is remembered. */
    method GetActiveConnection() returns (c: Option<string>)
      modifies this
      ensures c == ConnectionOf(old(activeConnection), run)
      ensures activeConnection == ConnectionKept(old(activeConnection), run)
      ensures log == ConnectionLog(old(activeConnection), run, old(log))
      ensures files == old(files) && detectedManager == old(detectedManager)
    {
      if activeConnection.Some? && activeConnection.value != "" {
        return activeConnection;
      }
      var listed := run(ConnectionCommand);
      log := log + [ConnectionCommand];
      if PrintsSomething(listed) {
        activeConnection := Some(Trim(listed.stdout));
        return activeConnection;
      }
      c := None;
    }

    method SetDnsDirect(servers: seq<string>) returns (r: OpResult)
      modifies this
      ensures var s := DirectSetStep(old(files), servers, run, sudo, old(log));
        r == s.result && files == s.files && log == s.log
      ensures detectedManager == old(detectedManager) && activeConnection == old(activeConnection)
    {
      var original := ReadOrEmpty(files);
      if original != "" && !IsMarked(original) {
        var copied := sudo(BackupCommand);
        log := log + [BackupCommand];
        if copied.Err? {
          return Failure(copied.message);
        }
        files := files[BackupPath := original];
      }
      UnlinkFromSystemd();
      var content := Content(servers);
      var write := WriteCommand(content);
      var written := sudo(write);
      log := log + [write];
      if written.Err? {
        return Failure(written.message);
      }
      files := files[ResolvConfPath := content + "\n"];
      var locked := sudo(LockCommand);
      log := log + [LockCommand];
      r := Success(DnsUpdated);
    }

    /** Removes the file when it is a link into systemd's resolver. */
    method UnlinkFromSystemd()
      modifies this
      ensures files == Unlinked(old(files), run, sudo) && log == UnlinkLog(run, old(log))
      ensures detectedManager == old(detectedManager) && activeConnection == old(activeConnection)
    {
      var link := run(ReadlinkCommand);
      log := log + [ReadlinkCommand];
      if PointsIntoSystemd(link) {
        var removed := sudo(RemoveCommand);
        log := log + [RemoveCommand];
        if removed.Ok? {
          files := files - {ResolvConfPath};
        }
      }
    }

    method ClearDnsDirect() returns (r: OpResult)
      modifies this
      ensures var s := DirectClearStep(old(files), run, sudo, old(log));
        r == s.result && files == s.files && log == s.log
      ensures detectedManager == old(detectedManager) && activeConnection == old(activeConnection)
    {
      var unlocked := sudo(UnlockCommand);
      log := log + [UnlockCommand];
      if BackupPath in files {
        var copied := sudo(RestoreCommand);
        log := log + [RestoreCommand];
        if copied.Ok? {
          files := files[ResolvConfPath := files[BackupPath]];
          RestartQuietly();
          return Success(DnsReset);
        }
      }
      var status := run(ResolvedActive);
      log := log + [ResolvedActive];
      if ReportsActive(status) {
        var linked := sudo(LinkStubCommand);
        log := log + [LinkStubCommand];
        if linked.Ok? {
          files := LinkedToStub(files);
          var restarted := sudo(RestartResolved);
          log := log + [RestartResolved];
        }
      }
      RestartQuietly();
      r := Success(DnsReset);
    }

    /** The two restarts that end `clearDnsDirect`, whose failures are ignored. */
    method RestartQuietly()
      modifies this
      ensures log == old(log) + [RestartResolvedQuiet] + [RestartNetworkManager]
      ensures files == old(files) && detectedManager == old(detectedManager) && activeConnection == old(activeConnection)
    {
      var quiet := run(RestartResolvedQuiet);
      log := log + [RestartResolvedQuiet];
      var network := run(RestartNetworkManager);
      log := log + [RestartNetworkManager];
    }

    method SetDnsNetworkManager(servers: seq<string>) returns (r: OpResult)
      modifies this
      ensures var e := NmSetEffect(old(files), old(activeConnection), servers, run, sudo, old(log));
        r == e.result && files == e.files && activeConnection == e.connection && log == e.log
      ensures detectedManager == old(detectedManager)
    {
      var connection := GetActiveConnection();
      if connection.None? {
        r := SetDnsDirect(servers);
        return;
      }
      var c := connection.value;
      var modified := sudo(ModifyCommand(c, servers));
      log := log + [ModifyCommand(c, servers)];
      if modified.Err? {
        r := SetDnsDirect(servers);
        return;
      }
      var cycled := sudo(CycleCommand(c));
      log := log + [CycleCommand(c)];
      if cycled.Err? {
        r := SetDnsDirect(servers);
        return;
      }
      r := Success(DnsUpdated);
    }

    method ClearDnsNetworkManager() returns (r: OpResult)
      modifies this
      ensures var e := NmClearEffect(old(files), old(activeConnection), run, sudo, old(log));
        r == e.result && files == e.files && activeConnection == e.connection && log == e.log
      ensures detectedManager == old(detectedManager)
    {
      var connection := GetActiveConnection();
      if connection.None? {
        r := ClearDnsDirect();
        return;
      }
      var c := connection.value;
      var reset := sudo(ResetCommand(c));
      log := log + [ResetCommand(c)];
      if reset.Err? {
        r := ClearDnsDirect();
        return;
      }
      var cycled := sudo(CycleCommand(c));
      log := log + [CycleCommand(c)];
      if cycled.Err? {
        r := ClearDnsDirect();
        return;
      }
      activeConnection := None;
      r := Success(DnsReset);
    }

    method SetDns(servers: seq<string>) returns (r: OpResult)
      modifies this
      ensures var e := SetDnsEffect(old(files), old(detectedManager), old(activeConnection), servers, run, sudo, old(log));
        r == e.result && files == e.files && activeConnection == e.connection && log == e.log
      ensures detectedManager == Some(ManagerOf(old(detectedManager), run))
    {
      var manager := DetectDnsManager();
      if manager == NetworkManager {
        r := SetDnsNetworkManager(servers);
      } else {
        r := SetDnsDirect(servers);
      }
    }

    method ClearDns() returns (r: OpResult)
      modifies this
      ensures var e := ClearDnsEffect(old(files), old(detectedManager), old(activeConnection), run, sudo, old(log));
        r == e.result && files == e.files && activeConnection == e.connection && log == e.log
      ensures detectedManager == Some(ManagerOf(old(detectedManager), run))
    {
      var manager := DetectDnsManager();
      if manager == NetworkManager {
        r := ClearDnsNetworkManager();
      } else {
        r := ClearDnsDirect();
      }
    }

    method GetActiveDns() returns (servers: seq<string>)
      ensures servers == ActiveDnsIn(files)
    {
      if ResolvConfPath !in files {
        return [];
      }
      var lines := Split(files[ResolvConfPath], '\n');
      servers := [];
      var i := 0;
      while i < |lines|
        invariant 0 <= i <= |lines|
        invariant servers == Collect(lines[..i], NameserverAddress)
      {
        CollectPush(lines, i, NameserverAddress, servers);
        var address := NameserverAddress(lines[i]);
        if address.Some? {
          servers := servers + [address.value];
        }
        i := i + 1;
      }
      assert lines[..|lines|] == lines;
    }

    /**
     * Connected when at least one server is configured and either the file carries the
     * marker or, failing that, NetworkManager says the connection ignores automatic DNS.
     * The NetworkManager check, and the detection and lookup it needs, run only when the
     * marker is missing.
     */
    method GetStatus() returns (status: DnsStatus)
      modifies this
      ensures var dns := ActiveDnsIn(files);
        status == PlainStatus((MarkedFile(files) || NmConfigured(old(detectedManager), old(activeConnection), run)) && |dns| > 0, dns)
      ensures files == old(files)
      ensures MarkedFile(files) ==>
        detectedManager == old(detectedManager) && activeConnection == old(activeConnection) && log == old(log)
      ensures !MarkedFile(files) ==>
        && detectedManager == Some(ManagerOf(old(detectedManager), run))
        && activeConnection == (if ManagerOf(old(detectedManager), run) == NetworkManager
                                then ConnectionKept(old(activeConnection), run) else old(activeConnection))
        && log == NmCheckLog(old(detectedManager), old(activeConnection), run, old(log))
    {
      var activeDns := GetActiveDns();
      var isVanillaDns := MarkedFile(files);
      if !isVanillaDns {
        var manager := DetectDnsManager();
        if manager == NetworkManager {
          var connection := GetActiveConnection();
          if connection.Some? {
            var shown := run(IgnoreAutoCommand(connection.value));
            log := log + [IgnoreAutoCommand(connection.value)];
            isVanillaDns := IgnoresAutoDns(connection.value, run);
          }
        }
      }
      status := PlainStatus(isVanillaDns && |activeDns| > 0, activeDns);
    }

    /** One pass of the interface loop: probe the state, then the address. */
    method ProbeInterface(name: string) returns (found: Option<NetworkInterface>)
      modifies this
      ensures found == Probe(name, run) && log == ProbeLog(name, run, old(log))
      ensures files == old(files) && detectedManager == old(detectedManager) && activeConnection == old(activeConnection)
    {
      var state := run(OperstateCommand(name));
      log := log + [OperstateCommand(name)];
      if state.Err? {
        return None;
      }
      var isUp := Trim(state.stdout) == "up";
      var address := run(AddressCommand(name));
      log := log + [AddressCommand(name)];
      var ip := if PrintsSomething(address) then Some(Trim(address.stdout)) else None;
      found := Some(NetworkInterface(name, name, LinuxInterfaceType(name), isUp && ip.Some?, ip));
    }

    /** The loop of `getNetworkInterfaces`: every listed name is probed, in order. */
    method ProbeAll(names: seq<string>) returns (probed: seq<NetworkInterface>)
      modifies this
      ensures probed == Collect(names, ProbeWith(run)) && log == ProbesLog(names, run, old(log))
      ensures files == old(files) && detectedManager == old(detectedManager) && activeConnection == old(activeConnection)
    {
      probed := [];
      var i := 0;
      while i < |names|
        invariant 0 <= i <= |names|
        invariant probed == Collect(names[..i], ProbeWith(run))
        invariant log == ProbesLog(names[..i], run, old(log))
        invariant files == old(files) && detectedManager == old(detectedManager) && activeConnection == old(activeConnection)
      {
        CollectPush(names, i, ProbeWith(run), probed);
        ProbesLogPush(names, i, run, old(log));
        var found := ProbeInterface(names[i]);
        if found.Some? {
          probed := probed + [found.value];
        }
        i := i + 1;
      }
      assert names[..|names|] == names;
    }

    method GetNetworkInterfaces() returns (interfaces: seq<NetworkInterface>)
      modifies this
      ensures interfaces == InterfacesOf(run)
      ensures log == ProbesLog(ListedNames(run(LinkNamesCommand)), run, old(log) + [LinkNamesCommand])
      ensures files == old(files) && detectedManager == old(detectedManager) && activeConnection == old(activeConnection)
    {
      var listing := run(LinkNamesCommand);
      log := log + [LinkNamesCommand];
      if listing.Err? {
        return [];
      }
      var probed := ProbeAll(Filter(Split(listing.stdout, '\n'), NotBlank()));
      interfaces := Filter(probed, IsActive()) + Filter(probed, Not(IsActive()));
    }

    /** Tries each flush command until one succeeds; the flush itself never fails. */
    method FlushDnsCache() returns (r: OpResult)
      modifies this
      ensures r == Success(if SomeSucceeds(FlushCommands, sudo) then CacheFlushed else CacheFlushAttempted)
      ensures log == old(log) + UntilSuccess(FlushCommands, sudo)
      ensures files == old(files) && detectedManager == old(detectedManager) && activeConnection == old(activeConnection)
    {
      var i := 0;
      while i < |FlushCommands|
        invariant 0 <= i <= |FlushCommands|
        invariant forall j :: 0 <= j < i ==> sudo(FlushCommands[j]).Err?
        invariant log == old(log) + FlushCommands[..i]
        invariant files == old(files) && detectedManager == old(detectedManager) && activeConnection == old(activeConnection)
      {
        var flushed := sudo(FlushCommands[i]);
        log := log + [FlushCommands[i]];
        if flushed.Ok? {
          UntilSuccessAt(FlushCommands, sudo, i);
          return Success(CacheFlushed);
        }
        i := i + 1;
      }
      UntilSuccessAllFail(FlushCommands, sudo);
      r := Success(CacheFlushAttempted);
    }
    /**
     * `pingServer`: `elapsed` stands for the clock readings around the request; a failure has
     * latency -1 and carries the message.
     */
    method PingServer(server: string, elapsed: nat) returns (r: PingResult)
      modifies this
      ensures r.server == server && (r.success <==> run(PingCommand(server)).Ok?)
      ensures r.success ==> r.latency == elapsed && r.error.None?
      ensures !r.success ==> r.latency == -1 && r.error == Some(run(PingCommand(server)).message)
      ensures log == old(log) + [PingCommand(server)] && files == old(files) && detectedManager == old(detectedManager) && activeConnection == old(activeConnection)
    {
      var o := run(PingCommand(server));
      log := log + [PingCommand(server)];
      if o.Err? {
        return PingResult(server, -1, false, Some(o.message));
      }
      r := PingResult(server, elapsed, true, None);
    }

    /** `isElevated`: whether the user id is 0. */
    method IsElevated() returns (elevated: bool)
      modifies this
      ensures elevated <==> SaysRoot(run(UserIdCommand))
      ensures log == old(log) + [UserIdCommand] && files == old(files) && detectedManager == old(detectedManager) && activeConnection == old(activeConnection)
    {
      var o := run(UserIdCommand);
      log := log + [UserIdCommand];
      elevated := SaysRoot(o);
    }
  }
}
