# Vanilla DNS Changer, modelled in Dafny

Vanilla DNS Changer switches the DNS servers of the machine it runs on. A desktop application and a
command-line tool share a catalog of public resolvers and one set of address validators. Each of them
has a backend per operating system (Windows, macOS, Linux). A backend drives the system tools
(`netsh`, PowerShell, `networksetup`, `nmcli`, `resolvectl`) or edits `/etc/resolv.conf` directly.
The desktop application keeps its settings, pinned and custom servers in a store. Its renderer keeps
UI state in a store of its own, filters and sorts the server list on the Explore page, and checks the
servers a user adds in a modal. It also compares version numbers to offer updates.

This project models that core:

- **Shared code.** The validators (`DnsValidators`) and the built-in catalog with its lookups
  (`Servers`). `getPopularServers` and `getIranianServers` are the lookup by tag with a fixed tag, so
  what `Servers.ByTag` states covers them. The update check's version arithmetic and release selection (`Updater`). The
  update flow of the desktop application shell (`AppUpdate`).
- **Six platform backends** (`DesktopWindows`, `DesktopMac`, `DesktopLinux`, `CliWindows`,
  `CliMac`, `CliLinux`). Each is a class whose fields are what the source keeps between calls:
  the selected interface or service, the detected DNS manager, the remembered connection, and
  the cache with its timestamp.
  - Running a command is an oracle `string -> Outcome`: `Ok(stdout)` or `Err(message)`. Where the
    source has an elevated entry point there is a second oracle, `sudo`.
  - A ghost field `log` records every command issued, in order. This lets the contracts say which
    commands run, in which order, and when none does.
  - The Linux file system is a map from path to contents.
- **Desktop main process.** The settings store (`Store`, over a JSON-like value type in `Json`).
  The IPC handlers that combine the store and the platform backend (`Ipc`).
- **Renderer.** The store (`RendererStore`), the Explore page's list (`Explore`) and the add-server
  form (`AddServer`).
- **Helpers.** The JavaScript string operations, regular expressions and list operations the source
  relies on, restated over sequences (`Text`, `Patterns`, `Lists`, `Shell`, `Netsh`,
  `Networksetup`, `ResolvConf`, `Interfaces`, `Wrappers`).

Where the code keeps state it is modelled as a class, with `modifies` on its methods. Each method is
proved against a specification function of the old state and the oracles. The properties the source
promises are proved as lemmas about those functions.

Behaviour of the code worth knowing:

- The shared `isValidIPv4` accepts octets with leading zeros (`010.0.0.1`). Only the desktop Windows
  backend's own `isValidIp` rejects them (`DnsValidators.LeadingZerosAccepted`, `DesktopWindows.StricterThanShared`).
- `isPrivateAddress` counts `10/8`, `172.16/12`, `192.168/16` and `127/8` as private; link-local `169.254/16` is not among them.
- On desktop Windows, both `setInterface` and a successful `clearDns` forget the detected interface.
- Each backend keeps its own connection heuristic and its own list of fallback interface names. The CLI Windows
  backend tries `Wi-Fi`, `Ethernet` and `Local Area Connection`; the desktop Windows backend tries `Wi-Fi`,
  `Ethernet`, `Ethernet 2` and `Local Area Connection`.

Some behaviour is kept as written even where it looks unintended. The desktop Windows backend lower-cases the
report before it looks for `connected`, so in its last detection step `disconnected` matches too
(`DesktopWindows.DisconnectedTakenAsConnected`).
## Model

| member | source | states |
|---|---|---|
| DnsValidators.OctetTextIsValue | packages/shared/src/validators/dns.ts:9 | the octet alternation of the IPv4 pattern accepts exactly the 1-to-3-digit strings valued 0..255 |
| DnsValidators.OctetsJoinValid | packages/shared/src/validators/dns.ts:9-19 | any four octet texts joined by dots are accepted |
| DnsValidators.QuadIsValid | packages/shared/src/validators/dns.ts:9-19 | every canonical dotted quad of numbers 0..255 is a valid IPv4 address |
| DnsValidators.QuadOutOfRange | packages/shared/src/validators/dns.ts:9-19 | a first number above 255 is rejected |
| DnsValidators.IsValidIPv4Characterized | packages/shared/src/validators/dns.ts:16-19 | soundness and completeness: accepted iff non-empty and the trimmed text is four 1-to-3-digit pieces valued at most 255, joined by dots |
| DnsValidators.LeadingZerosAccepted | packages/shared/src/validators/dns.ts:9 | `010.0.0.1` is accepted: the pattern allows leading zeros |
| DnsValidators.ValidateDnsServers | packages/shared/src/validators/dns.ts:35-69 | the loop over the first two entries computes exactly the specified validation result |
| DnsValidators.StepValid | packages/shared/src/validators/dns.ts:55-62 | a valid entry adds its trimmed text to the valid list and no error |
| DnsValidators.StepInvalid | packages/shared/src/validators/dns.ts:55-62 | an invalid entry adds its positional error (1-based, untrimmed text) and no server |
| DnsValidators.TrimmedValid | packages/shared/src/validators/dns.ts:55-62 | no more valid servers than entries examined |
| DnsValidators.TrimmedValidFacts | packages/shared/src/validators/dns.ts:55-62 | every kept server is valid and trimmed; each examined entry yields a server or an error |
| DnsValidators.ValidateEmpty | packages/shared/src/validators/dns.ts:43-49 | the empty list gives exactly the "required" error and no server |
| DnsValidators.ValidateFacts | packages/shared/src/validators/dns.ts:35-69 | at most two servers, each valid and trimmed; the "maximum" error comes first iff there are more than two entries; error and server counts add up; valid iff no error and some server |
| DnsValidators.PositionErrorsShape | packages/shared/src/validators/dns.ts:51-62 | no positional error equals the "maximum" error |
| DnsValidators.ValidateTwoValid | packages/shared/src/validators/dns.ts:35-69 | two valid addresses validate, trimmed and in order |
| DnsValidators.NonEmptyTrimmed | packages/shared/src/validators/dns.ts:81-82 | the kept pieces are non-empty and trimmed |
| DnsValidators.ParseDnsInput | packages/shared/src/validators/dns.ts:76-83 | every parsed entry is non-empty, trimmed and free of commas |
| DnsValidators.NonEmptyTrimmedKeeps | packages/shared/src/validators/dns.ts:81-82 | clean pieces are kept unchanged |
| DnsValidators.ParseJoinRoundTrip | packages/shared/src/validators/dns.ts:76-83 | parsing clean entries joined by commas gives them back |
| DnsValidators.PrivateNeedsValid | packages/shared/src/validators/dns.ts:90-91 | only valid addresses are private |
| DnsValidators.PrivateByOctets | packages/shared/src/validators/dns.ts:90-108 | for a valid address, private iff the values of its first two octets fall in 10/8, 172.16/12, 192.168/16 or 127/8, whatever white space or leading zeros it carries |
| DnsValidators.PrivateQuad | packages/shared/src/validators/dns.ts:90-108 | on canonical quads, private iff in those ranges; link-local 169.254/16 is not |
| DnsValidators.FormatDnsServers | packages/shared/src/validators/dns.ts:115-118 | "None" for no servers, the single server itself for one |
| DnsValidators.FormatParseRoundTrip | packages/shared/src/validators/dns.ts:76-83 | the displayed list parses back into the list it shows |
| Servers.CatalogKeysDistinct | packages/shared/src/constants/servers.ts:68-468 | no two catalog entries share a key |
| Servers.EntryFacts | packages/shared/src/constants/servers.ts:68-468 | each entry's key identifies its position; every entry but `vanilla` and `fourth-estate` has two addresses and regular fields |
| Servers.CatalogInvariants | packages/shared/src/constants/servers.ts:68-468 | 39 entries with one or two addresses (one only for `fourth-estate`), ratings 0..5, `vanilla` first and the only default, none custom, every tag a category other than `all` |
| Servers.FindByKey | packages/shared/src/constants/servers.ts:485-487 | a found entry is in the list with exactly that key; nothing is found iff no entry has it |
| Servers.FindByKeyOfEntry | packages/shared/src/constants/servers.ts:485-487 | with distinct keys, every entry is found by its own key |
| Servers.FindServerByKeyOfEntry | packages/shared/src/constants/servers.ts:485-487 | every catalog entry is found by its own key |
| Servers.FindByName | packages/shared/src/constants/servers.ts:492-495 | a found entry's lower-cased name contains the lower-cased query; nothing is found iff no name does |
| Servers.FindByNameFirst | packages/shared/src/constants/servers.ts:492-495 | the match is the first in catalog order |
| Servers.FindByNameIgnoresCase | packages/shared/src/constants/servers.ts:492-495 | the query's case does not matter |
| Servers.FindByNameEmpty | packages/shared/src/constants/servers.ts:492-495 | the empty query finds the first entry |
| Servers.ByTag | packages/shared/src/constants/servers.ts:500-502 | exactly the entries carrying the tag, as a subsequence of the list |
| Servers.ByTagHead | packages/shared/src/constants/servers.ts:500-502 | the filter keeps or skips the head by its tags and continues with the rest |
| Updater.Components | packages/shared/src/utils/updater.ts:21-22 | one component per dot-separated piece, each the piece's `Number` value |
| Updater.CompareBelow | packages/shared/src/utils/updater.ts:24-30 | the comparison loop answers -1, 0 or 1 |
| Updater.CompareBelowZero | packages/shared/src/utils/updater.ts:24-30 | the loop answers 0 iff all components up to the bound agree, missing and `NaN` ones counting 0 |
| Updater.CompareBelowFirstDifference | packages/shared/src/utils/updater.ts:24-30 | the first differing component decides |
| Updater.CompareBelowBound | packages/shared/src/utils/updater.ts:24 | bounds past both lists change nothing |
| Updater.CompareBelowAntisymmetric | packages/shared/src/utils/updater.ts:24-30 | swapping the arguments negates the loop's answer |
| Updater.CompareBelowTransitive | packages/shared/src/utils/updater.ts:24-30 | "not smaller" is transitive, strictly so if either step is strict |
| Updater.CompareVersionsMeaning | packages/shared/src/utils/updater.ts:20-31 | 0 iff all components agree; otherwise the sign of the first differing component |
| Updater.CompareVersionsReflexive | packages/shared/src/utils/updater.ts:20-31 | every version equals itself |
| Updater.CompareVersionsAntisymmetric | packages/shared/src/utils/updater.ts:20-31 | swapping the versions negates the answer |
| Updater.CompareVersionsTransitive | packages/shared/src/utils/updater.ts:20-31 | version order is transitive |
| Updater.TrailingZeros | packages/shared/src/utils/updater.ts:24-26 | trailing zero components change nothing |
| Updater.NaNIsZero | packages/shared/src/utils/updater.ts:25-26 | a `NaN` component counts as 0 |
| Updater.ShortVersionEqualsPadded | packages/shared/src/utils/updater.ts:20-31 | `1.0` and `1.0.0` compare equal |
| Updater.UrlForPatterns | packages/shared/src/utils/updater.ts:47-54 | the result is "" or the URL of one of the assets |
| Updater.UrlForPatternsFirstMatch | packages/shared/src/utils/updater.ts:47-52 | the first pattern any asset matches picks the first asset matching it |
| Updater.UrlForPatternsNoMatch | packages/shared/src/utils/updater.ts:54 | with no match, the first asset's URL, or "" without assets |
| Updater.WindowsPrefersSetup | packages/shared/src/utils/updater.ts:39-40 | on win32 the first `Setup` asset wins over any `.exe` |
| Updater.LinuxPrefersAppImage | packages/shared/src/utils/updater.ts:43-44 | on linux an `.AppImage` wins over any `.deb` |
| Updater.OtherPlatformTakesFirstAsset | packages/shared/src/utils/updater.ts:37-54 | a platform without patterns gets the first asset |
| Updater.CheckForUpdates | packages/shared/src/utils/updater.ts:57-82 | `None` iff the request failed; otherwise the stripped tag, newer iff it compares above 1.0.0, and the release date |
| Updater.SameVersionIsNotNewer | packages/shared/src/utils/updater.ts:68-69 | the running version, with or without `v`, is not newer |
| Updater.MissingBodyChangelog | packages/shared/src/utils/updater.ts:73 | a missing or empty body gets the placeholder changelog |
| AppUpdate.CompareVersionStrings | apps/desktop/src/renderer/App.tsx:83-94 | the renderer's loop computes the component comparison, without stripping `v` |
| AppUpdate.NoStripInside | apps/desktop/src/renderer/App.tsx:83-94 | inside the comparison `v2` is `NaN`, so it compares below `1` |
| AppUpdate.AgreesWithUpdater | apps/desktop/src/renderer/App.tsx:50-53 | after the tag is stripped, the renderer decides exactly as the shared updater's `isNewer` |
| AppUpdate.SelectDownloadUrl | apps/desktop/src/renderer/App.tsx:55-69 | the asset loop returns the first fitting asset's URL, else the release page |
| AppUpdate.DownloadUrlFirstFit | apps/desktop/src/renderer/App.tsx:58-69 | the first fitting asset is the download |
| AppUpdate.DownloadUrlNoFit | apps/desktop/src/renderer/App.tsx:55 | without a fitting asset the release page is offered |
| AppUpdate.DownloadUrlFits | apps/desktop/src/renderer/App.tsx:55-69 | the download is a fitting asset or the release page |
| AppUpdate.WindowsRule | apps/desktop/src/renderer/App.tsx:59 | on Windows only a `Setup` `.exe` fits |
| AppUpdate.MacRule | apps/desktop/src/renderer/App.tsx:62 | on macOS only a `.dmg` fits |
| AppUpdate.LinuxRule | apps/desktop/src/renderer/App.tsx:65 | on Linux only an `.AppImage` fits |
| AppUpdate.UpdatePrompt.constructor | apps/desktop/src/renderer/App.tsx:24-25 | no update offered and the prompt hidden |
| AppUpdate.UpdatePrompt.CheckForUpdates | apps/desktop/src/renderer/App.tsx:39-81 | a failed request changes nothing; a strictly newer release fills in version, changelog and download and shows the prompt; anything else changes nothing |
| AppUpdate.UpdatePrompt.CloseModal | apps/desktop/src/renderer/App.tsx:167 | the prompt is hidden and the offer kept |
| AppUpdate.SameVersionNoPrompt | apps/desktop/src/renderer/App.tsx:50-53 | the running version never opens the prompt |
| Patterns.Groups | apps/desktop/src/main/platforms/windows.ts:293 | a match of the dotted digit groups is non-empty and holds only digits and dots |
| Patterns.WordPrefix | apps/desktop/src/main/platforms/linux.ts:107 | the leading `\w` run, stopping at the first other character |
| Patterns.SplitWide | apps/desktop/src/main/platforms/windows.ts:445 | `split(/\s{2,}/)` gives at least one part |
| Patterns.SearchFirst | apps/desktop/src/main/platforms/windows.ts:293 | an unanchored match is found at the first position where the pattern matches |
| Patterns.SearchNone | apps/cli/src/platforms/windows.ts:119 | nothing is found iff the pattern matches at no position |
| Patterns.QuadOfGroups | apps/desktop/src/main/platforms/mac.ts:213 | four non-empty digit groups written with dots match the quad pattern whole |
| Patterns.DottedIsQuadLine | apps/desktop/src/main/platforms/mac.ts:213 | such a text passes the anchored `^\d+\.\d+\.\d+\.\d+$` filter |
| Patterns.SplitWideCells | apps/desktop/src/main/platforms/windows.ts:445 | cells joined by two spaces split back into those cells |
| Shell.EscapeQuotes | apps/desktop/src/main/platforms/windows.ts:519 | one extra character per double quote; text without quotes is unchanged |
| Shell.EscapeQuotesInverse | apps/desktop/src/main/platforms/windows.ts:519 | without backslashes, unescaping gives the command back |
| Shell.PowerShellCommandInverse | apps/desktop/src/main/platforms/windows.ts:517-526 | the command line is the fixed prefix, the escaped command and a closing quote, and the command is recovered from it |
| Shell.UntilSuccess | apps/desktop/src/main/platforms/linux.ts:136-143 | a stop-at-first-success loop runs no more commands than given |
| Shell.UntilSuccessAt | apps/desktop/src/main/platforms/linux.ts:136-143 | when command `i` is the first to succeed, exactly the commands up to it run |
| Shell.UntilSuccessAllFail | apps/desktop/src/main/platforms/linux.ts:145 | when every command fails, all of them run and none succeeded |
| Shell.EachLogEntries | apps/desktop/src/main/platforms/mac.ts:113-122 | a loop over items runs one command per item, in order, after what ran before |
| Netsh.RowOfCells | apps/desktop/src/main/platforms/windows.ts:444-458 | a table row of four cells reads back as its interface when enabled, as nothing otherwise |
| Netsh.TableRows | apps/desktop/src/main/platforms/windows.ts:442-460 | below the three header lines every row is read once, in order |
| Netsh.ReadTable | apps/desktop/src/main/platforms/windows.ts:438-463 | the row loop computes exactly the table's interfaces |
| Netsh.DedupeStep | apps/desktop/src/main/platforms/windows.ts:291-299 | one more line pushes its address unless already present |
| Netsh.ExtractAddresses | apps/desktop/src/main/platforms/windows.ts:288-303 | the line loop computes the de-duplicated addresses found on the lines |
| Netsh.AddressesDistinct | apps/desktop/src/main/platforms/windows.ts:288-303 | the addresses read are distinct, each found on some line, in the order first found |
| Networksetup.ServicesIn | apps/desktop/src/main/platforms/mac.ts:52-54 | every service of a listing is a non-blank line not starting with `*` |
| Networksetup.ActiveServicesConnected | apps/desktop/src/main/platforms/mac.ts:57-64 | every active service was listed and shows an IP address |
| Networksetup.Preferred | apps/desktop/src/main/platforms/mac.ts:90-97 | none iff no service is active; otherwise Wi-Fi, then Ethernet, then the first active service |
| Networksetup.ServerOfQuad | apps/desktop/src/main/platforms/mac.ts:211-213 | a dotted quad line stands for itself |
| Networksetup.ServersListedAreQuads | apps/desktop/src/main/platforms/mac.ts:211-213 | every address read back is a dotted quad |
| Networksetup.ServersListedRoundTrip | apps/desktop/src/main/platforms/mac.ts:205-213 | quads listed one per line read back as exactly those addresses |
| Networksetup.EmptyListing | apps/desktop/src/main/platforms/mac.ts:211-213 | an empty output lists no server |
| Networksetup.NoMarkerAmongQuads | apps/desktop/src/main/platforms/mac.ts:206 | quads never contain the "no servers set" text |
| Networksetup.Probe | apps/desktop/src/main/platforms/mac.ts:244-263 | a service is recorded iff its information could be read, with its own name, its type, and active iff it shows an address |
| Networksetup.InterfacesFrom | apps/desktop/src/main/platforms/mac.ts:234-276 | nothing when the listing fails; otherwise a permutation of the probed services with the active ones first |
| Networksetup.TallyCountsAndCollects | apps/desktop/src/main/platforms/mac.ts:109-122 | the count is the services that accepted the command; the errors are the others' messages, in order |
| Networksetup.TallyAddsUp | apps/desktop/src/main/platforms/mac.ts:109-122 | every service is counted or reported; the count is positive iff some service accepted |
| Networksetup.SetOutcome | apps/desktop/src/main/platforms/mac.ts:100-136 | success iff some service took the servers; no services gives the no-connection error; otherwise every service's error, joined |
| ResolvConf.NameserverLines | apps/desktop/src/main/platforms/linux.ts:35 | one `nameserver` line per server, in order |
| ResolvConf.ContentLines | apps/desktop/src/main/platforms/linux.ts:32-37 | the two comment lines, one line per server, then an empty line |
| ResolvConf.NameserverOfLine | apps/desktop/src/main/platforms/linux.ts:72 | a `nameserver` line for a quad gives the quad back |
| ResolvConf.CollectNameserverLines | apps/desktop/src/main/platforms/linux.ts:70-76 | the lines written for quads read back as those quads |
| ResolvConf.CommentLinesSkipped | apps/desktop/src/main/platforms/linux.ts:70-76 | the comment lines and empty lines yield no server |
| ResolvConf.WrittenLines | apps/desktop/src/main/platforms/linux.ts:37-40 | the written file splits into its lines and one more empty line (from `echo`) |
| ResolvConf.RoundTrip | apps/desktop/src/main/platforms/linux.ts:32-76 | reading back the written file gives exactly the servers written, and the file carries the marker |
| ResolvConf.MarkedWritten | apps/desktop/src/main/platforms/linux.ts:27 | the written file carries the marker, so it is not backed up again |
| ResolvConf.LinuxInterfaceType | apps/desktop/src/main/platforms/linux.ts:115 | `wl…` is wireless; `eth…` and `en…` are wired; anything else is other |
| Text.Trim | packages/shared/src/validators/dns.ts:18 | `trim()`: the result has no white space at either end and is no longer than the input |
| Text.TrimEmpty | packages/shared/src/validators/dns.ts:82 | the trimmed text is empty iff the text is all white space |
| Text.TrimOfTrimmed | packages/shared/src/validators/dns.ts:81 | trimming text without surrounding white space changes nothing |
| Text.TrimPadded | packages/shared/src/validators/dns.ts:81 | white space around trimmed text is exactly what `trim()` removes |
| Text.ToLower | packages/shared/src/constants/servers.ts:493 | `toLowerCase()`: the same length, each character lowered |
| Text.ToLowerIdempotent | packages/shared/src/constants/servers.ts:493-494 | lowering twice is lowering once |
| Text.Split | packages/shared/src/validators/dns.ts:80 | `split(sep)` always gives at least one piece |
| Text.SplitPiecesFree | packages/shared/src/validators/dns.ts:80 | no piece of a split holds the separator |
| Text.SplitJoin | packages/shared/src/validators/dns.ts:80 | splitting separator-free pieces joined by the separator gives the pieces back |
| Text.JoinSplit | packages/shared/src/validators/dns.ts:80 | joining the pieces of a split with the separator gives the text back |
| Text.NatToStringValue | apps/desktop/src/main/platforms/windows.ts:326-327 | `String(n)` is a numeral whose value is `n` |
| Lists.Find | packages/shared/src/constants/servers.ts:486 | `find`: nothing iff no element satisfies the predicate; otherwise an element that does |
| Lists.FindFirst | packages/shared/src/constants/servers.ts:486 | `find` returns the first element that satisfies the predicate |
| Lists.Filter | packages/shared/src/constants/servers.ts:501 | `filter`: exactly the elements that satisfy the predicate, none repeated more often than in the input |
| Lists.Dedupe | apps/desktop/src/main/platforms/windows.ts:296-298 | pushing only what is not yet included gives the same elements without repetition |
| Lists.DedupeDistinct | apps/desktop/src/main/platforms/windows.ts:296-298 | nothing is dropped from a list without repetitions |
| Lists.DedupeSubsequence | apps/desktop/src/main/platforms/windows.ts:296-298 | the de-duplicated list keeps the order in which elements are first seen |
| Lists.CollectMembers | apps/desktop/src/main/platforms/windows.ts:292-300 | a value is collected iff some element produces it |
| DesktopLinux.LinkInterface | apps/desktop/src/main/platforms/linux.ts:107-117 | a line gives an interface iff it names one; its name, the naming rule's type, active iff the line says `state UP`, no address |
| DesktopLinux.SetDnsBackup | apps/desktop/src/main/platforms/linux.ts:25-29 | the backup is the first command exactly when the file exists, is non-empty and lacks the marker; a successful copy holds the original; otherwise the backup is untouched |
| DesktopLinux.SetDnsFails | apps/desktop/src/main/platforms/linux.ts:23-48 | only a failing backup or a failing write fails `setDns`, and then no restart runs |
| DesktopLinux.SetThenStatus | apps/desktop/src/main/platforms/linux.ts:23-98 | after a successful `setDns` the status lists exactly the servers written, connected iff there is one |
| DesktopLinux.ClearUndoesSet | apps/desktop/src/main/platforms/linux.ts:51-63 | clearing after a set that backed up the original file restores it |
| DesktopLinux.ClearFailureKeepsFiles | apps/desktop/src/main/platforms/linux.ts:51-62 | a failing restore fails `clearDns` and changes no file |
| DesktopLinux.LinkNameOf | apps/desktop/src/main/platforms/linux.ts:107 | a well-formed listing line gives its interface name |
| DesktopLinux.LinkNameNeedsIndex | apps/desktop/src/main/platforms/linux.ts:107 | a line without a leading index names no interface |
| DesktopLinux.LinuxPlatform.constructor | apps/desktop/src/main/platforms/linux.ts:20-21 | the platform starts on the given file system and command runners, with nothing run |
| DesktopLinux.LinuxPlatform.SetDns | apps/desktop/src/main/platforms/linux.ts:23-49 | answer, files and commands run are those of the `setDns` specification |
| DesktopLinux.LinuxPlatform.ClearDns | apps/desktop/src/main/platforms/linux.ts:51-63 | answer, files and commands run are those of the `clearDns` specification |
| DesktopLinux.LinuxPlatform.GetActiveDns | apps/desktop/src/main/platforms/linux.ts:65-82 | the line loop returns the file's `nameserver` addresses, in order; none when the file is missing |
| DesktopLinux.LinuxPlatform.GetStatus | apps/desktop/src/main/platforms/linux.ts:84-98 | connected iff the file carries the marker and lists a server |
| DesktopLinux.LinuxPlatform.GetNetworkInterfaces | apps/desktop/src/main/platforms/linux.ts:100-125 | one interface per listing line that names one, in order; the listing is the only command |
| DesktopLinux.LinuxPlatform.FlushDnsCache | apps/desktop/src/main/platforms/linux.ts:127-149 | the commands run up to the first success; the flush never fails, and its message says whether one succeeded |
| DesktopLinux.LinuxPlatform.PingServer | apps/desktop/src/main/platforms/linux.ts:151-160 | success iff the ping succeeds, with the elapsed time; otherwise latency -1 and the message; the files are untouched |
| DesktopLinux.LinuxPlatform.IsElevated | apps/desktop/src/main/platforms/linux.ts:162-169 | elevated iff `id -u` succeeds and answers `0` once trimmed |
| DesktopMac.CachedWithinTtl | apps/desktop/src/main/platforms/mac.ts:42-45 | within ten seconds of the scan that stored it, a non-empty list is answered again without running anything |
| DesktopMac.RescanWhenStale | apps/desktop/src/main/platforms/mac.ts:42-76 | an empty or ten-second-old list is scanned again |
| DesktopMac.PrimaryOf | apps/desktop/src/main/platforms/mac.ts:82-98 | the selected service wins; otherwise none iff no service is active, else an active one |
| DesktopMac.DnsOf | apps/desktop/src/main/platforms/mac.ts:193-217 | every server reported is a dotted quad |
| DesktopMac.SelectedServiceAsked | apps/desktop/src/main/platforms/mac.ts:83-85 | with a service selected, only that service is asked and the cache is untouched |
| DesktopMac.ClearOutcome | apps/desktop/src/main/platforms/mac.ts:142-191 | no active services gives success after the defaults; otherwise success iff some service was reset, else every service's error joined |
| DesktopMac.ClearedCache | apps/desktop/src/main/platforms/mac.ts:174 | clearing active services forgets the remembered list |
| DesktopMac.DesktopKindIgnoresCase | apps/desktop/src/main/platforms/mac.ts:278-288 | the interface type ignores the case of the name |
| DesktopMac.StatusOf | apps/desktop/src/main/platforms/mac.ts:219-232 | connected iff servers are listed; the reported interface is an active one, present iff one exists |
| DesktopMac.MacPlatform.constructor | apps/desktop/src/main/platforms/mac.ts:33-35 | no service selected, no remembered list, check time 0, nothing run |
| DesktopMac.MacPlatform.KeepConnected | apps/desktop/src/main/platforms/mac.ts:57-68 | the scan loop keeps exactly the connected services, asking each once, in order |
| DesktopMac.MacPlatform.IsConnected | apps/desktop/src/main/platforms/mac.ts:59-64 | one information request decides whether the service has an IP address |
| DesktopMac.MacPlatform.GetActiveNetworkServices | apps/desktop/src/main/platforms/mac.ts:41-77 | the answer, cache and commands of the cached lookup |
| DesktopMac.MacPlatform.Scan | apps/desktop/src/main/platforms/mac.ts:47-76 | the active services; a readable listing is remembered with the time, a failed one leaves the cache |
| DesktopMac.MacPlatform.GetPrimaryService | apps/desktop/src/main/platforms/mac.ts:82-98 | the preferred service, with the cache and commands of its lookup |
| DesktopMac.MacPlatform.ApplyToEach | apps/desktop/src/main/platforms/mac.ts:113-122 | the loop's count and errors are the tally of the services, one command each, in order |
| DesktopMac.MacPlatform.Elevated | apps/desktop/src/main/platforms/mac.ts:350-358 | the elevated runner's answer, recorded |
| DesktopMac.MacPlatform.SetDns | apps/desktop/src/main/platforms/mac.ts:100-140 | the answer of `SetOutcome` on the active services, with the lookup, one command per service and a flush after a success |
| DesktopMac.MacPlatform.ResetDefaults | apps/desktop/src/main/platforms/mac.ts:148-154 | every default service is reset, in order, ignoring failures |
| DesktopMac.MacPlatform.ClearDns | apps/desktop/src/main/platforms/mac.ts:142-191 | the answer of `ClearOutcome`, its commands, and the cache forgotten after active services |
| DesktopMac.MacPlatform.GetActiveDns | apps/desktop/src/main/platforms/mac.ts:193-217 | the servers of the primary service, with its lookup's commands and cache |
| DesktopMac.MacPlatform.GetStatus | apps/desktop/src/main/platforms/mac.ts:219-232 | the status of the servers read and the interfaces found |
| DesktopMac.MacPlatform.ProbeServices | apps/desktop/src/main/platforms/mac.ts:243-267 | the probe loop records every readable service, in order, one request each |
| DesktopMac.MacPlatform.ProbeService | apps/desktop/src/main/platforms/mac.ts:245-263 | one probe, as the specification of a service's interface |
| DesktopMac.MacPlatform.GetNetworkInterfaces | apps/desktop/src/main/platforms/mac.ts:234-276 | the interfaces of the listing, active ones first |
| DesktopMac.MacPlatform.FlushDnsCache | apps/desktop/src/main/platforms/mac.ts:290-312 | all three flush commands run, failures ignored, and success is reported |
| DesktopMac.MacPlatform.SetNetworkService | apps/desktop/src/main/platforms/mac.ts:337-341 | the service is selected and the remembered list forgotten |
| DesktopMac.MacPlatform.PingServer | apps/desktop/src/main/platforms/mac.ts:314-323 | success iff the ping succeeds, with the elapsed time; otherwise latency -1 and the message; the service state is unchanged |
| DesktopMac.MacPlatform.IsElevated | apps/desktop/src/main/platforms/mac.ts:325-332 | elevated iff `id -u` succeeds and answers `0` once trimmed |
| CliMac.PrimaryOf | apps/cli/src/platforms/mac.ts:67-82 | the selected service wins; otherwise none iff no service is active, else an active one |
| CliMac.PrimaryIsConnected | apps/cli/src/platforms/mac.ts:36-82 | an unselected primary service was listed and shows an address |
| CliMac.DnsOf | apps/cli/src/platforms/mac.ts:164-187 | every server reported is a dotted quad |
| CliMac.ClearOutcome | apps/cli/src/platforms/mac.ts:124-162 | no active services gives success; otherwise success iff some service was reset, with the count of resets; a failure names no service |
| CliMac.CliKindIgnoresCase | apps/cli/src/platforms/mac.ts:227-231 | the interface type ignores the case of the name |
| CliMac.CliMacPlatform.constructor | apps/cli/src/platforms/mac.ts:29-31 | no service selected, nothing run |
| CliMac.CliMacPlatform.GetActiveNetworkServices | apps/cli/src/platforms/mac.ts:36-62 | the active services, after the listing and one information request per listed service; nothing is remembered |
| CliMac.CliMacPlatform.KeepConnected | apps/cli/src/platforms/mac.ts:46-58 | the scan loop keeps exactly the connected services, asking each once, in order |
| CliMac.CliMacPlatform.IsConnected | apps/cli/src/platforms/mac.ts:48-54 | one information request decides whether the service has an IP address |
| CliMac.CliMacPlatform.GetPrimaryService | apps/cli/src/platforms/mac.ts:67-82 | the preferred service, with the commands of its lookup |
| CliMac.CliMacPlatform.ApplyToEach | apps/cli/src/platforms/mac.ts:96-105 | the loop's count and errors are the tally of the services, one command each, in order |
| CliMac.CliMacPlatform.Elevated | apps/cli/src/platforms/mac.ts:290-304 | the elevated runner's answer, recorded |
| CliMac.CliMacPlatform.SetDns | apps/cli/src/platforms/mac.ts:84-122 | the answer of `SetOutcome` on the active services, with the scan, one command per service and a flush after a success |
| CliMac.CliMacPlatform.ClearDns | apps/cli/src/platforms/mac.ts:124-162 | the answer of `ClearOutcome`, with the defaults reset when no service is active |
| CliMac.CliMacPlatform.GetActiveDns | apps/cli/src/platforms/mac.ts:164-187 | the servers of the primary service |
| CliMac.CliMacPlatform.GetStatus | apps/cli/src/platforms/mac.ts:189-195 | connected iff the primary service lists servers |
| CliMac.CliMacPlatform.ProbeServices | apps/cli/src/platforms/mac.ts:209-238 | the probe loop records every readable service, in order, one request each |
| CliMac.CliMacPlatform.ProbeService | apps/cli/src/platforms/mac.ts:211-234 | one probe, as the specification of a service's interface |
| CliMac.CliMacPlatform.GetNetworkInterfaces | apps/cli/src/platforms/mac.ts:197-245 | the interfaces of the listing, active ones first |
| CliMac.CliMacPlatform.FlushDnsCache | apps/cli/src/platforms/mac.ts:247-264 | both flush commands run, failures ignored, and success is reported |
| CliMac.CliMacPlatform.SetNetworkService | apps/cli/src/platforms/mac.ts:286-288 | the service is selected and nothing runs |
| CliMac.CliMacPlatform.PingServer | apps/cli/src/platforms/mac.ts:266-275 | success iff the ping succeeds, with the elapsed time; otherwise latency -1 and the message |
| CliMac.CliMacPlatform.IsElevated | apps/cli/src/platforms/mac.ts:277-284 | elevated iff `id -u` succeeds and answers `0` once trimmed |
| CliLinux.Detect | apps/cli/src/platforms/linux.ts:39-65 | NetworkManager iff `nmcli` exists and its service is active; otherwise systemd-resolved iff that service is active; otherwise direct editing |
| CliLinux.ConnectionFrom | apps/cli/src/platforms/linux.ts:76-87 | a connection found is non-empty and trimmed |
| CliLinux.OnlyNetworkManagerUsesNmcli | apps/cli/src/platforms/linux.ts:90-102 | under systemd-resolved or direct editing, `setDns` and `clearDns` are direct editing and keep the remembered connection |
| CliLinux.NmFallsBackToDirect | apps/cli/src/platforms/linux.ts:104-125 | without a connection, or when either `nmcli` command fails, `setDns` answers and edits the files as direct editing does |
| CliLinux.NmSetSucceeds | apps/cli/src/platforms/linux.ts:114-121 | when both `nmcli` commands succeed, the change is reported and no file is touched |
| CliLinux.NmClearForgetsConnection | apps/cli/src/platforms/linux.ts:176-194 | a completed `nmcli` reset forgets the connection; otherwise it stays as the lookup left it |
| CliLinux.ClearAlwaysSucceeds | apps/cli/src/platforms/linux.ts:162-228 | `clearDns` succeeds by every route, whatever the commands answer |
| CliLinux.DirectClearSucceeds | apps/cli/src/platforms/linux.ts:196-228 | direct clearing reports the reset whatever its commands answer |
| CliLinux.DirectSetFails | apps/cli/src/platforms/linux.ts:127-160 | only a failing backup or a failing write fails direct editing; `rm` and `chattr` never do |
| CliLinux.DirectSetBackup | apps/cli/src/platforms/linux.ts:129-132 | the backup is the first command exactly when the desktop backend would take it, and a successful copy holds the original |
| CliLinux.DirectSetThenRead | apps/cli/src/platforms/linux.ts:142-149 | after successful direct editing, the file reads back as exactly the servers and carries the marker |
| CliLinux.DirectClearUndoesSet | apps/cli/src/platforms/linux.ts:203-206 | clearing after a set that backed up the original file restores it |
| CliLinux.Probe | apps/cli/src/platforms/linux.ts:292-317 | an interface is recorded iff its state could be read; its address is the trimmed probe output when non-blank; active iff up and addressed |
| CliLinux.InterfacesActiveFirst | apps/cli/src/platforms/linux.ts:282-325 | the interfaces are a permutation of the probed ones with the active ones first |
| CliLinux.CliLinuxPlatform.constructor | apps/cli/src/platforms/linux.ts:26-29 | no manager detected, no connection remembered, nothing run |
| CliLinux.CliLinuxPlatform.DetectDnsManager | apps/cli/src/platforms/linux.ts:34-66 | the remembered manager, or the detected one, which is then remembered; the probes run in order |
| CliLinux.CliLinuxPlatform.GetActiveConnection | apps/cli/src/platforms/linux.ts:71-88 | a non-empty remembered connection, or the one `nmcli` lists, which is then remembered; a failed lookup changes nothing |
| CliLinux.CliLinuxPlatform.SetDnsDirect | apps/cli/src/platforms/linux.ts:127-160 | answer, files and commands run are those of `DirectSetStep` |
| CliLinux.CliLinuxPlatform.UnlinkFromSystemd | apps/cli/src/platforms/linux.ts:134-140 | the file is removed only when `readlink` shows systemd's resolver and `rm` succeeds |
| CliLinux.CliLinuxPlatform.ClearDnsDirect | apps/cli/src/platforms/linux.ts:196-228 | answer, files and commands run are those of `DirectClearStep` |
| CliLinux.CliLinuxPlatform.RestartQuietly | apps/cli/src/platforms/linux.ts:221-222 | both restarts run, in order, and change nothing else |
| CliLinux.CliLinuxPlatform.SetDnsNetworkManager | apps/cli/src/platforms/linux.ts:104-125 | answer, files, connection and commands are those of `NmSetEffect` |
| CliLinux.CliLinuxPlatform.ClearDnsNetworkManager | apps/cli/src/platforms/linux.ts:176-194 | answer, files, connection and commands are those of `NmClearEffect` |
| CliLinux.CliLinuxPlatform.SetDns | apps/cli/src/platforms/linux.ts:90-102 | the route the manager decides, as `SetDnsEffect`; the manager is remembered |
| CliLinux.CliLinuxPlatform.ClearDns | apps/cli/src/platforms/linux.ts:162-174 | the route the manager decides, as `ClearDnsEffect`; the manager is remembered |
| CliLinux.CliLinuxPlatform.GetActiveDns | apps/cli/src/platforms/linux.ts:230-247 | the line loop returns the file's `nameserver` addresses, in order; none when the file is missing |
| CliLinux.CliLinuxPlatform.GetStatus | apps/cli/src/platforms/linux.ts:249-280 | connected iff servers are listed and either the file carries the marker or NetworkManager's connection ignores automatic DNS; the NetworkManager check runs only without the marker |
| CliLinux.CliLinuxPlatform.ProbeInterface | apps/cli/src/platforms/linux.ts:292-317 | one probe, as `Probe`; the address is asked for only when the state was read |
| CliLinux.CliLinuxPlatform.ProbeAll | apps/cli/src/platforms/linux.ts:291-318 | the probe loop records every readable name, in order, with its probes |
| CliLinux.CliLinuxPlatform.GetNetworkInterfaces | apps/cli/src/platforms/linux.ts:282-325 | the probed interfaces, active ones first |
| CliLinux.CliLinuxPlatform.FlushDnsCache | apps/cli/src/platforms/linux.ts:327-348 | the commands run up to the first success; the flush never fails, and its message says whether one succeeded |
| CliLinux.CliLinuxPlatform.PingServer | apps/cli/src/platforms/linux.ts:350-359 | success iff the ping succeeds, with the elapsed time; otherwise latency -1 and the message; files and memo fields are untouched |
| CliLinux.CliLinuxPlatform.IsElevated | apps/cli/src/platforms/linux.ts:361-368 | elevated iff `id -u` succeeds and answers `0` once trimmed |
| CliWindows.FirstConnectedFound | apps/cli/src/platforms/windows.ts:51-61 | a name found is a common name whose report says connected; none is found only when no report does |
| CliWindows.FirstConnectedAt | apps/cli/src/platforms/windows.ts:51-61 | the first name whose report says connected is chosen, after asking about exactly the names up to it, in order |
| CliWindows.FirstConnectedNone | apps/cli/src/platforms/windows.ts:51-63 | when no report says connected, nothing is chosen and every name was asked about |
| CliWindows.ActiveInterfaceKept | apps/cli/src/platforms/windows.ts:33-64 | a found interface is remembered and returned again without any command; when none is found the call fails with its message after the route and every common name were tried |
| CliWindows.SetOutcome | apps/cli/src/platforms/windows.ts:66-90 | success iff the primary and, when a second entry is given, the secondary command succeed; a failing primary's message is the error |
| CliWindows.NothingValidated | apps/cli/src/platforms/windows.ts:70-80 | an empty list sets the text `undefined`; an empty second entry is skipped |
| CliWindows.ClearOutcome | apps/cli/src/platforms/windows.ts:92-106 | success iff the DHCP command succeeds, otherwise its message |
| CliWindows.ActiveDnsDistinct | apps/cli/src/platforms/windows.ts:108-129 | the addresses are distinct and exactly the first dotted quads of the listing's lines |
| CliWindows.StatusStep | apps/cli/src/platforms/windows.ts:131-152 | connected only with servers; no interface or server name is reported |
| CliWindows.StatusOfSelected | apps/cli/src/platforms/windows.ts:131-152 | with an interface selected the listing is read twice; connected iff it says `statically configured` and holds a dotted quad, with its addresses reported; a failed listing gives the empty status |
| CliWindows.SomeAddressRead | apps/cli/src/platforms/windows.ts:117-124 | some address is read iff some line holds a dotted quad |
| CliWindows.CliKindIgnoresCase | apps/cli/src/platforms/windows.ts:168-174 | the interface type ignores the case of the name |
| CliWindows.CliWindowsPlatform.constructor | apps/cli/src/platforms/windows.ts:26-28 | no interface selected, nothing run |
| CliWindows.CliWindowsPlatform.Execute | apps/cli/src/platforms/windows.ts:236-240 | the runner's answer, recorded |
| CliWindows.CliWindowsPlatform.Elevated | apps/cli/src/platforms/windows.ts:220-234 | the elevated runner's answer, recorded |
| CliWindows.CliWindowsPlatform.TryNames | apps/cli/src/platforms/windows.ts:51-61 | the loop over the common names stops at the first connected one, with the reports asked for |
| CliWindows.CliWindowsPlatform.GetActiveInterface | apps/cli/src/platforms/windows.ts:33-64 | answer, selection and commands of `ActiveStep` |
| CliWindows.CliWindowsPlatform.SetDns | apps/cli/src/platforms/windows.ts:66-90 | answer, selection and commands of `SetDnsStep` |
| CliWindows.CliWindowsPlatform.ClearDns | apps/cli/src/platforms/windows.ts:92-106 | answer, selection and commands of `ClearDnsStep` |
| CliWindows.CliWindowsPlatform.GetActiveDns | apps/cli/src/platforms/windows.ts:108-129 | answer, selection and commands of `DnsStep` |
| CliWindows.CliWindowsPlatform.GetStatus | apps/cli/src/platforms/windows.ts:131-152 | answer, selection and commands of `StatusStep` |
| CliWindows.CliWindowsPlatform.GetNetworkInterfaces | apps/cli/src/platforms/windows.ts:154-185 | the interfaces of the `netsh` table, one command |
| CliWindows.CliWindowsPlatform.FlushDnsCache | apps/cli/src/platforms/windows.ts:187-194 | the elevated flush's own outcome |
| CliWindows.CliWindowsPlatform.PingServer | apps/cli/src/platforms/windows.ts:196-205 | success iff the ping succeeds, with the elapsed time; otherwise latency -1 and the message |
| CliWindows.CliWindowsPlatform.IsElevated | apps/cli/src/platforms/windows.ts:207-214 | elevated iff `net session` succeeds |
| CliWindows.CliWindowsPlatform.SetInterface | apps/cli/src/platforms/windows.ts:216-218 | the interface is selected and nothing runs |
| DesktopWindows.IsValidIpCharacterized | apps/desktop/src/main/platforms/windows.ts:321-329 | an address is accepted iff it is the dotted canonical numerals of four numbers up to 255 |
| DesktopWindows.OctetValue | apps/desktop/src/main/platforms/windows.ts:326-327 | a part that survives `String(parseInt(part)) === part` and the range test is the numeral of a number up to 255 |
| DesktopWindows.JoinFour | apps/desktop/src/main/platforms/windows.ts:323-324 | four parts joined by dots are the dotted quad of those parts |
| DesktopWindows.OctetsValid | apps/desktop/src/main/platforms/windows.ts:321-329 | every dotted quad of numbers up to 255 is accepted |
| DesktopWindows.OctetsSplit | apps/desktop/src/main/platforms/windows.ts:323 | splitting a dotted quad on dots gives back its four numerals |
| DesktopWindows.CanonicalNumeral | apps/desktop/src/main/platforms/windows.ts:326-327 | the numeral of a number up to 255 passes the per-part test |
| DesktopWindows.LeadingZeroRejected | apps/desktop/src/main/platforms/windows.ts:327 | `01.2.3.4` is refused: a zero-padded part is not its own numeral |
| DesktopWindows.EmptyPartRejected | apps/desktop/src/main/platforms/windows.ts:326-327 | `1..2.3` is refused: an empty part parses to no number |
| DesktopWindows.StricterThanShared | apps/desktop/src/main/platforms/windows.ts:321-329 | `010.0.0.1` passes the shared IPv4 validator but not this backend's check |
| DesktopWindows.PaddedOctetRejected | apps/desktop/src/main/platforms/windows.ts:327 | any address whose first part is zero-padded is refused, whatever follows |
| DesktopWindows.EmptyOctetRejected | apps/desktop/src/main/platforms/windows.ts:326-327 | any address with an empty second part is refused, whatever surrounds it |
| DesktopWindows.ReservedNotDns | apps/desktop/src/main/platforms/windows.ts:331-337 | loopback `127.*` and link-local `169.254.*` addresses are valid addresses but never DNS addresses |
| DesktopWindows.ReservedNumerals | apps/desktop/src/main/platforms/windows.ts:334-335 | the prefixes checked are the numerals of 127, 169 and 254 |
| DesktopWindows.PrefixOfOctets | apps/desktop/src/main/platforms/windows.ts:334-335 | a dotted quad starts with its first one and two numbers followed by dots, so the prefix tests see them |
| DesktopWindows.NetshDns | apps/desktop/src/main/platforms/windows.ts:288-303 | every address read from the `netsh` report is a DNS address |
| DesktopWindows.NetshDnsValid | apps/desktop/src/main/platforms/windows.ts:288-303 | the addresses read are distinct DNS addresses, no more than the report has lines |
| DesktopWindows.SubsequenceShorter | apps/desktop/src/main/platforms/windows.ts:292-300 | keeping some of the lines' matches never gives more than there are lines |
| DesktopWindows.PowerShellServers | apps/desktop/src/main/platforms/windows.ts:258-261 | the servers are exactly the comma-separated pieces of the trimmed reply that are valid addresses |
| DesktopWindows.InterfaceKindIgnoresCase | apps/desktop/src/main/platforms/windows.ts:465-478 | the interface type does not depend on the case of the name or the media type |
| DesktopWindows.InterfacesOf | apps/desktop/src/main/platforms/windows.ts:412-431 | when the adapter list is usable and parses, one interface per adapter, in order, named and typed after it and active when its status is `Up` |
| DesktopWindows.FirstOf | apps/desktop/src/main/platforms/windows.ts:67-75 | a connected table row gives a name exactly when there is one |
| DesktopWindows.CommonNameChoiceFound | apps/desktop/src/main/platforms/windows.ts:83-95 | a chosen common name has a report saying connected; none is chosen only when no report does |
| DesktopWindows.CommonNameChoiceAt | apps/desktop/src/main/platforms/windows.ts:84-91 | the first name whose report says connected is chosen, after asking about exactly the names up to it, in order |
| DesktopWindows.CommonNameChoiceNone | apps/desktop/src/main/platforms/windows.ts:84-95 | when no report says connected, nothing is chosen and every name was asked about, in order |
| DesktopWindows.DisconnectedTakenAsConnected | apps/desktop/src/main/platforms/windows.ts:87 | as written, a report saying `Disconnected` passes the lower-cased `connected` test |
| DesktopWindows.DetectionOutcome | apps/desktop/src/main/platforms/windows.ts:27-108 | a selection other than `Auto` wins without a command; else a remembered name; else the detection chain's name is returned and remembered, or the call fails with the connection message and nothing is remembered |
| DesktopWindows.DetectionRemembered | apps/desktop/src/main/platforms/windows.ts:29-31 | once a name was detected, asking again returns it without running anything, whatever the commands now answer |
| DesktopWindows.ActiveDnsValid | apps/desktop/src/main/platforms/windows.ts:253-283 | every address `getActiveDns` returns is a valid address, whichever way it was read |
| DesktopWindows.NetshDnsValidIp | apps/desktop/src/main/platforms/windows.ts:269-276 | every address of the `netsh` way is a valid address |
| DesktopWindows.NetshSet | apps/desktop/src/main/platforms/windows.ts:167-201 | the fallback succeeds iff the primary and, when a usable secondary is given, the secondary command succeed; a failure is the rights message or a message that does not mention rights |
| DesktopWindows.SetDnsStep | apps/desktop/src/main/platforms/windows.ts:110-117 | a missing or invalid primary fails at once with nothing run and nothing remembered; otherwise the primary and its usable secondary are set |
| DesktopWindows.SecondaryDropped | apps/desktop/src/main/platforms/windows.ts:112-134 | only the first two servers matter, and an invalid secondary is dropped silently |
| DesktopWindows.PowerShellSetSucceeds | apps/desktop/src/main/platforms/windows.ts:136-152 | once PowerShell accepts the servers, `setDns` succeeds whatever is read back, and the flush is the next command |
| DesktopWindows.PowerShellAccepted | apps/desktop/src/main/platforms/windows.ts:138-152 | once PowerShell accepts, the result is a success and the commands that follow are the flush and the read-back |
| DesktopWindows.DeniedSkipsNetsh | apps/desktop/src/main/platforms/windows.ts:153-164 | a PowerShell refusal mentioning rights ends with the rights message and `netsh` is not run |
| DesktopWindows.OtherFailureUsesNetsh | apps/desktop/src/main/platforms/windows.ts:153-201 | any other PowerShell failure hands the same servers to `netsh`, whose outcome is the result |
| DesktopWindows.NameLogExtends | apps/desktop/src/main/platforms/windows.ts:27-108 | detecting the interface only appends commands |
| DesktopWindows.DnsLogExtends | apps/desktop/src/main/platforms/windows.ts:253-283 | reading the servers only appends commands |
| DesktopWindows.NetshLogExtends | apps/desktop/src/main/platforms/windows.ts:269-276 | the `netsh` read only appends commands |
| DesktopWindows.ClearDnsStep | apps/desktop/src/main/platforms/windows.ts:208-251 | a success says the DNS was reset to DHCP and forgets the detected name; a failure of the detection is the result; any failure keeps what detection remembered |
| DesktopWindows.DnsOnly | apps/desktop/src/main/platforms/windows.ts:354 | the filtered servers are exactly the DNS addresses among them |
| DesktopWindows.Verdict | apps/desktop/src/main/platforms/windows.ts:374-402 | only a static configuration with DNS addresses counts; the server named is the first known provider, and a known provider always names one; otherwise it counts iff some address is not router-like |
| DesktopWindows.FindIndex | apps/desktop/src/main/platforms/windows.ts:378-384 | the provider found is at an index with no known provider before it |
| DesktopWindows.RouterAloneNotConnected | apps/desktop/src/main/platforms/windows.ts:388-393 | a static `192.168.1.1` alone is not taken as a custom DNS |
| DesktopWindows.StatusStep | apps/desktop/src/main/platforms/windows.ts:339-402 | without an active interface, not connected and nothing else is run; connected only with a non-empty list of DNS addresses |
| DesktopWindows.FirstConnectedRow | apps/desktop/src/main/platforms/windows.ts:67-77 | the loop over the table's lines returns the first connected, enabled row's name |
| DesktopWindows.WindowsPlatform.constructor | apps/desktop/src/main/platforms/windows.ts:18-21 | a new backend has no selection, no remembered name and has run nothing |
| DesktopWindows.WindowsPlatform.PowerShell | apps/desktop/src/main/platforms/windows.ts:517-526 | runs the wrapped command and records it; the interface state is unchanged |
| DesktopWindows.WindowsPlatform.Execute | apps/desktop/src/main/platforms/windows.ts:528-534 | runs the command and records it; the interface state is unchanged |
| DesktopWindows.WindowsPlatform.QueryName | apps/desktop/src/main/platforms/windows.ts:34-61 | a PowerShell query gives a name iff its trimmed answer is non-empty and does not mention `error` |
| DesktopWindows.WindowsPlatform.TableName | apps/desktop/src/main/platforms/windows.ts:63-80 | the third detection gives the first connected, enabled row's name from the table |
| DesktopWindows.WindowsPlatform.TryCommonNames | apps/desktop/src/main/platforms/windows.ts:82-95 | the loop over the common names agrees with the specification of the fourth detection, commands included |
| DesktopWindows.WindowsPlatform.DetectActiveInterface | apps/desktop/src/main/platforms/windows.ts:27-98 | result, remembered name and commands are those of the detection chain |
| DesktopWindows.WindowsPlatform.GetInterfaceName | apps/desktop/src/main/platforms/windows.ts:103-108 | result, remembered name and commands are those of the name step; the selection is kept |
| DesktopWindows.WindowsPlatform.SetDns | apps/desktop/src/main/platforms/windows.ts:110-206 | result, remembered name and commands are those of the `setDns` step |
| DesktopWindows.WindowsPlatform.SetServers | apps/desktop/src/main/platforms/windows.ts:119-201 | the same once the primary is known valid |
| DesktopWindows.WindowsPlatform.Confirm | apps/desktop/src/main/platforms/windows.ts:140-152 | after the flush, a success that says updated iff the primary is read back |
| DesktopWindows.WindowsPlatform.SetWithNetsh | apps/desktop/src/main/platforms/windows.ts:167-201 | the fallback's result and commands are those of its specification |
| DesktopWindows.WindowsPlatform.ClearDns | apps/desktop/src/main/platforms/windows.ts:208-251 | result, remembered name and commands are those of the `clearDns` step |
| DesktopWindows.WindowsPlatform.GetActiveDns | apps/desktop/src/main/platforms/windows.ts:253-283 | result, remembered name and commands are those of the read step |
| DesktopWindows.WindowsPlatform.GetActiveDnsNetsh | apps/desktop/src/main/platforms/windows.ts:269-278 | the same for the `netsh` way |
| DesktopWindows.WindowsPlatform.IsDnsSetStatically | apps/desktop/src/main/platforms/windows.ts:308-319 | result, remembered name and commands are those of the static check; a failure reads as not static |
| DesktopWindows.WindowsPlatform.GetStatus | apps/desktop/src/main/platforms/windows.ts:339-410 | result, remembered name and commands are those of the status step |
| DesktopWindows.WindowsPlatform.GetNetworkInterfaces | apps/desktop/src/main/platforms/windows.ts:412-436 | the adapters' interfaces when usable, else the `netsh` table's |
| DesktopWindows.WindowsPlatform.GetNetworkInterfacesNetsh | apps/desktop/src/main/platforms/windows.ts:438-463 | the table's interfaces, or none when the command fails |
| DesktopWindows.WindowsPlatform.FlushDnsCache | apps/desktop/src/main/platforms/windows.ts:480-488 | success iff the flush command succeeds, else its message |
| DesktopWindows.WindowsPlatform.PingServer | apps/desktop/src/main/platforms/windows.ts:490-499 | success iff the ping succeeds, with the elapsed time; otherwise latency -1 and the message |
| DesktopWindows.WindowsPlatform.IsElevated | apps/desktop/src/main/platforms/windows.ts:501-510 | elevated iff the role query succeeds and answers `true`, ignoring case and surrounding blanks |
| DesktopWindows.WindowsPlatform.SetInterface | apps/desktop/src/main/platforms/windows.ts:512-515 | the interface is selected and the remembered one forgotten |
| DesktopWindows.MatchKnownProvider | apps/desktop/src/main/platforms/windows.ts:378-384 | the loop returns the first known provider among the servers |
| DesktopWindows.DecideStatus | apps/desktop/src/main/platforms/windows.ts:374-402 | connected exactly when the DNS is static and either a known provider is matched or some server is not router-like; the matched provider is the first known one |
| Json.Overlay | apps/desktop/src/main/store.ts:70 | `{ ...base, ...top }`: every key of either object, with `top`'s value where both have it |
| Json.OverlayIdempotent | apps/desktop/src/main/ipc.ts:81-85 | applying the same partial settings twice is applying them once |
| Json.OverlayEmpty | apps/desktop/src/main/ipc.ts:81-85 | empty partial settings change nothing |
| Store.Load | apps/desktop/src/main/store.ts:22-32 | without a readable file the data are the defaults; with one, every key of either, the file's value winning |
| Store.FileName | apps/desktop/src/main/store.ts:18 | the store's name with `.json` appended, `config.json` when the name is missing or empty |
| Store.SimpleStore.constructor | apps/desktop/src/main/store.ts:10-20 | a new store holds the loaded data under its file name and has saved nothing |
| Store.SimpleStore.Get | apps/desktop/src/main/store.ts:42-44 | the key's value, nothing for a missing key |
| Store.SimpleStore.Has | apps/desktop/src/main/store.ts:61-63 | a key is present iff `get` finds a value for it |
| Store.SimpleStore.Set | apps/desktop/src/main/store.ts:46-49 | the key holds the value, every other key is unchanged, and the new data are saved |
| Store.SimpleStore.Delete | apps/desktop/src/main/store.ts:51-54 | the key is gone, every other key is unchanged, and the new data are saved |
| Store.SimpleStore.Clear | apps/desktop/src/main/store.ts:56-59 | no key is left, and the empty data are saved |
| Store.SimpleStore.GetAll | apps/desktop/src/main/store.ts:65-67 | a copy equal to the data |
| Store.SimpleStore.SetAll | apps/desktop/src/main/store.ts:69-72 | the given keys take their values, every other key is unchanged, and the new data are saved |
| Store.CreateStore | apps/desktop/src/main/store.ts:116-126 | the store file is `vanilla-dns-config.json`; without a file the configuration is the default one |
| Ipc.Pinned | apps/desktop/src/main/ipc.ts:109-116 | the key is pinned afterwards, appended after the old keys only when it was not pinned yet |
| Ipc.PinnedNoDuplicates | apps/desktop/src/main/ipc.ts:109-116 | pinning never introduces a duplicate key |
| Ipc.PinnedIdempotent | apps/desktop/src/main/ipc.ts:109-116 | pinning twice is pinning once |
| Ipc.Unpinned | apps/desktop/src/main/ipc.ts:118-123 | the key is no longer pinned and every other key keeps its membership |
| Ipc.UnpinnedKeepsOrder | apps/desktop/src/main/ipc.ts:120 | the keys left keep their order |
| Ipc.UnpinnedAbsent | apps/desktop/src/main/ipc.ts:118-123 | unpinning a key that is not pinned changes nothing |
| Ipc.UnpinUndoesPin | apps/desktop/src/main/ipc.ts:109-123 | unpinning undoes pinning |
| Ipc.WithoutKey | apps/desktop/src/main/ipc.ts:102-107 | no server with the key is left, and every other server keeps its membership |
| Ipc.WithoutKeyKeepsOrder | apps/desktop/src/main/ipc.ts:104 | the servers left keep their order |
| Ipc.RemoveUndoesAdd | apps/desktop/src/main/ipc.ts:95-107 | removing a just-added server's key undoes the addition |
| Ipc.OperationReply | apps/desktop/src/main/ipc.ts:12-57 | the backend's result, or a failure carrying the thrown message |
| Ipc.StatusReplyOf | apps/desktop/src/main/ipc.ts:43-49 | the backend's status, or a disconnected status with no addresses and the thrown message |
| Ipc.PingReply | apps/desktop/src/main/ipc.ts:59-65 | the backend's ping, or a failed ping of that server with latency -1 and the thrown message |
| Ipc.InterfacesReply | apps/desktop/src/main/ipc.ts:68-74 | the backend's interfaces, or none when it threw |
| Ipc.Handlers.constructor | apps/desktop/src/main/ipc.ts:8-9 | the handlers start from the stored settings and lists with the tray not marked connected and nothing written |
| Ipc.Handlers.Connect | apps/desktop/src/main/ipc.ts:12-26 | the reply of `setDns`; the tray is marked connected only after a success and when there is a tray; nothing is written |
| Ipc.Handlers.Disconnect | apps/desktop/src/main/ipc.ts:28-41 | the reply of `clearDns`; the tray is marked disconnected only after a success and when there is a tray; nothing is written |
| Ipc.Handlers.GetConfig | apps/desktop/src/main/ipc.ts:77-79 | the stored settings |
| Ipc.Handlers.SetConfig | apps/desktop/src/main/ipc.ts:81-85 | the stored settings overlaid by the partial ones are written once and returned; the lists are untouched |
| Ipc.Handlers.GetServers | apps/desktop/src/main/ipc.ts:88-93 | the pinned keys and the custom servers |
| Ipc.Handlers.AddCustom | apps/desktop/src/main/ipc.ts:95-100 | the server is appended to the custom servers, written and returned |
| Ipc.Handlers.RemoveCustom | apps/desktop/src/main/ipc.ts:102-107 | the servers without the key are written and returned |
| Ipc.Handlers.Pin | apps/desktop/src/main/ipc.ts:109-116 | the pinned keys with the key; written only when the key was not pinned yet |
| Ipc.Handlers.Unpin | apps/desktop/src/main/ipc.ts:118-123 | the pinned keys without the key, always written |
| RendererStore.Addresses | apps/desktop/src/renderer/store/index.ts:117 | the server's addresses that are not empty |
| RendererStore.ServerWithPrimary | apps/desktop/src/renderer/store/index.ts:101-104 | nothing iff no server's first address is the given one; otherwise such a server from the list |
| RendererStore.ServerWithPrimaryFirst | apps/desktop/src/renderer/store/index.ts:102-104 | the server found is the first one whose first address is the given one |
| RendererStore.ConnectedStatus | apps/desktop/src/renderer/store/index.ts:121-127 | connected, with the server's non-empty addresses, name and key |
| RendererStore.AppState.constructor | apps/desktop/src/renderer/store/index.ts:49-59 | disconnected, not connecting, nothing selected, the built-in catalog, no custom or pinned servers, the default settings |
| RendererStore.AppState.SetConfig | apps/desktop/src/renderer/store/index.ts:68 | the settings overlaid by the partial ones; nothing else changes |
| RendererStore.AppState.LoadConfig | apps/desktop/src/renderer/store/index.ts:71-80 | a returned, present configuration replaces the settings; otherwise nothing changes |
| RendererStore.AppState.LoadServers | apps/desktop/src/renderer/store/index.ts:82-92 | the returned pinned keys and custom servers, a missing list read as empty; nothing changes when the request threw |
| RendererStore.AppState.LoadStatus | apps/desktop/src/renderer/store/index.ts:94-112 | the reported status is shown; a connected status re-selects the first catalog or custom server whose first address is the first active one, and the selection stays when none matches |
| RendererStore.AppState.Connect | apps/desktop/src/renderer/store/index.ts:114-139 | true iff the request succeeded; then the connected status and the server are selected, otherwise both are kept; the connecting flag is raised then lowered on every path |
| RendererStore.AppState.Disconnect | apps/desktop/src/renderer/store/index.ts:141-163 | true iff the request succeeded; then the status is cleared and nothing is selected, otherwise both are kept; the connecting flag is raised then lowered |
| RendererStore.AppState.ReplaceCustomServers | apps/desktop/src/renderer/store/index.ts:184-200 | the returned list replaces the custom servers; nothing changes when the request threw |
| RendererStore.AppState.ReplacePinnedKeys | apps/desktop/src/renderer/store/index.ts:202-218 | the returned list replaces the pinned keys; nothing changes when the request threw |
| RendererStore.FlushDns | apps/desktop/src/renderer/store/index.ts:165-173 | true iff the flush was returned as a success |
| RendererStore.PingServer | apps/desktop/src/renderer/store/index.ts:175-182 | the latency of a successful ping, -1 for a failed or thrown one |
| Explore.PrecedesNegativelyTransitive | apps/desktop/src/renderer/pages/ExplorePage.tsx:48-52 | "not strictly before" is transitive for the page's comparator, so its order is a strict weak order |
| Explore.Insert | apps/desktop/src/renderer/pages/ExplorePage.tsx:48-52 | inserting adds exactly the one entry |
| Explore.Sort | apps/desktop/src/renderer/pages/ExplorePage.tsx:48-52 | sorting is a permutation of the entries |
| Explore.InsertOrdered | apps/desktop/src/renderer/pages/ExplorePage.tsx:48-52 | inserting into an ordered list keeps it ordered |
| Explore.OrderedCons | apps/desktop/src/renderer/pages/ExplorePage.tsx:48-52 | an entry nothing after it precedes may head an ordered list |
| Explore.InsertNotBefore | apps/desktop/src/renderer/pages/ExplorePage.tsx:48-52 | inserting an entry that does not precede `a` keeps every entry from preceding `a` |
| Explore.InsertAfterHead | apps/desktop/src/renderer/pages/ExplorePage.tsx:48-52 | a head that precedes the new entry stays in front of the ordered rest |
| Explore.InsertAtFront | apps/desktop/src/renderer/pages/ExplorePage.tsx:48-52 | an entry the head does not precede goes in front and the list stays ordered |
| Explore.SortOrdered | apps/desktop/src/renderer/pages/ExplorePage.tsx:48-52 | the sorted list is ordered by the comparator |
| Explore.FilteredSubMultiset | apps/desktop/src/renderer/pages/ExplorePage.tsx:28-55 | the listing only holds catalog and custom servers, each at most as often as it occurs |
| Explore.FilteredEverything | apps/desktop/src/renderer/pages/ExplorePage.tsx:28-55 | without a search and with category `all`, every server is listed, each as often as it occurs |
| Explore.FilteredMembership | apps/desktop/src/renderer/pages/ExplorePage.tsx:29-45 | a server is listed iff it is a catalog or custom server that passes the lower-cased search (when there is one) and carries the category (unless it is `all`) |
| Explore.FilteredOrder | apps/desktop/src/renderer/pages/ExplorePage.tsx:47-52 | a listed Vanilla DNS entry comes first, and among the other entries the ratings never increase |
| AddServer.FormErrorsMeaning | apps/desktop/src/renderer/components/AddServerModal.tsx:21-37 | each error appears exactly when its check fails, the two primary errors exclude each other, and the form passes iff the trimmed name is not empty, the primary is valid and the secondary is empty or valid |
| AddServer.NewServer | apps/desktop/src/renderer/components/AddServerModal.tsx:44-52 | a `custom-` key, the trimmed name, the trimmed primary and the trimmed secondary when one was typed, rating 0, the tag `custom`, marked custom, created now |
| AddServer.TrimKeepsValid | apps/desktop/src/renderer/components/AddServerModal.tsx:44-47 | a valid address is still valid once trimmed, so the stored addresses are the validated ones |
| AddServer.NewServerAddressesValid | apps/desktop/src/renderer/components/AddServerModal.tsx:21-52 | a record built from a passing form has one or two addresses, all valid |
| AddServer.AddServerForm.constructor | apps/desktop/src/renderer/components/AddServerModal.tsx:15-18 | every field starts empty with no errors |
| AddServer.AddServerForm.Close | apps/desktop/src/renderer/components/AddServerModal.tsx:58-64 | every field is reset and the owner is asked once to close |
| AddServer.AddServerForm.Submit | apps/desktop/src/renderer/components/AddServerModal.tsx:21-56 | a record is handed on iff there are no errors; with errors they are shown and the fields kept; without, the new record is handed on, the form reset and closed |

## Left out

- Running processes: `execAsync`, `sudo-prompt` and their timeouts. Each command's result is the oracle's answer, `Ok(stdout)` or `Err(message)`; what a command does to the system is not modelled, except for the writes and copies of the two Linux files (see `DesktopLinux.SetThenStatus` below for what those leave out).
- The file system beyond `/etc/resolv.conf` and its backup: directory creation and the `access`/`readFile` calls are not modelled. A symbolic link is modelled by its contents plus what `readlink` answers. The `chattr` immutable flag is recorded only as a command.
- NetworkManager's own state: a successful `nmcli` change is not fed back into later answers of the oracle.
- Clocks: the `Date.now()` readings of `pingServer` are the parameter `elapsed`, the macOS service cache's timestamp is the parameter `now`, and the `createdAt` of a custom server is the parameter `now`.
- Randomness: the `uuidv4()` part of a custom server's key is the parameter `id`.
- Console logging, everywhere.
- `getServersDatabase` (packages/shared/src/constants/servers.ts:473-480): it only wraps the catalog with a version string and the current time.
- `getDefaultNetworkServices` (apps/desktop/src/main/platforms/mac.ts:346-348): it returns a copy of a constant list, and the model uses that list directly.
- Network I/O: the GitHub request of `checkForUpdates` in packages/shared/src/utils/updater.ts and apps/desktop/src/renderer/App.tsx, `getLatestReleaseAssets`, and `getCurrentVersion`, which returns a constant. The release they fetch is a parameter.
- DesktopWindows.InterfacesOf: `JSON.parse` of the adapter list is the parameter `parse`, so whether a given PowerShell output parses is not modelled.
- The PowerShell and `netsh` command lines are fixed strings; what PowerShell makes of them is not modelled.
- Catch blocks that cannot be reached once each await is modelled (an outer `try` around code that cannot throw) are not modelled.
- JavaScript's `Number()` in the version comparison and the private-address check: only optional blanks around decimal digits, and the empty string as 0, are modelled. Everything else counts as `NaN`, so signs, hexadecimal, exponents and fractions are not modelled.
- `toLowerCase` lowers ASCII letters only; other scripts are left as they are.
- `Array.prototype.sort` on the Explore page is modelled by a stable insertion sort under the same comparator. The comparator orders entries consistently (`Explore.PrecedesNegativelyTransitive`), so any sort gives an order the lemmas describe. The exact tie order of the engine's sort is not modelled.
- The IPC transport, the tray, window controls, `SYSTEM_PLATFORM`, `SYSTEM_IS_ELEVATED` and `SYSTEM_OPEN_EXTERNAL` in apps/desktop/src/main/ipc.ts: these are plumbing around calls to the backend. The tray appears only as a flag that says connected or not.
- Ipc.Handlers: the electron-store behind the handlers is modelled as the three fields it reads and writes, with a ghost list of the keys written.
- React rendering, the async/promise machinery, and the renderer's setters that only assign a field (`setStatus`, `setServers` and the like).
- DesktopLinux.SetThenStatus: the `systemctl restart systemd-resolved` that follows the write is taken to leave `/etc/resolv.conf` as written. Where that path is systemd-resolved's stub link, the desktop backend does not remove the link first, and the restart can regenerate the file. The written content is also taken to contain no `'`, which would change the meaning of the `echo '…'` command line.
