/**
 * Shell commands as an oracle. The backends never look at a process beyond its exit status
 * and its standard output, so a command is a string and running it yields `Ok(stdout)` or
 * `Err(message)`; which one is decided by the environment, passed in as a function.
 */
module Shell {
  import opened Text

  /** The result of running one command. */
  datatype Outcome = Ok(stdout: string) | Err(message: string)

  /** The environment's answer to every command. */
  type Oracle = string -> Outcome

  /** `s.replace(/"/g, '\\"')`: every double quote preceded by a backslash. */
  function EscapeQuotes(s: string): (r: string)
    ensures |r| == |s| + CountChar(s, '"')
    ensures '"' !in s ==> r == s
  {
    if s == [] then []
    else (if s[0] == '"' then "\\\"" else [s[0]]) + EscapeQuotes(s[1..])
  }

  function CountChar(s: string, c: char): nat {
    if s == [] then 0 else (if s[0] == c then 1 else 0) + CountChar(s[1..], c)
  }

  /** Removes the backslash in front of every escaped quote; the inverse of `EscapeQuotes`. */
  function UnescapeQuotes(s: string): string {
    if s == [] then []
    else if |s| >= 2 && s[0] == '\\' && s[1] == '"' then ['"'] + UnescapeQuotes(s[2..])
    else [s[0]] + UnescapeQuotes(s[1..])
  }

  /** The escaping loses nothing: the command text can be recovered, as long as it has no backslashes. */
  lemma {:induction false} EscapeQuotesInverse(s: string)
    requires '\\' !in s
    ensures UnescapeQuotes(EscapeQuotes(s)) == s
  {
    if s != [] {
      EscapeQuotesInverse(s[1..]);
      if s[0] == '"' {
        assert EscapeQuotes(s) == "\\\"" + EscapeQuotes(s[1..]);
        assert EscapeQuotes(s)[2..] == EscapeQuotes(s[1..]);
      } else {
        assert EscapeQuotes(s) == [s[0]] + EscapeQuotes(s[1..]);
        assert EscapeQuotes(s)[1..] == EscapeQuotes(s[1..]);
      }
    }
  }

  const PowerShellPrefix := "powershell -NoProfile -NonInteractive -ExecutionPolicy Bypass -Command \""

  /** The command line that runs `command` in a non-interactive PowerShell. */
  function PowerShellCommand(command: string): string {
    PowerShellPrefix + EscapeQuotes(command) + "\""
  }

  /**
   * The command line is the prefix, the escaped command and a closing quote, and the command
   * is recovered from it as long as it holds no backslash.
   */
  lemma PowerShellCommandInverse(command: string)
    requires '\\' !in command
    ensures var line := PowerShellCommand(command);
      && |line| == |PowerShellPrefix| + |EscapeQuotes(command)| + 1
      && line[..|PowerShellPrefix|] == PowerShellPrefix && line[|line| - 1] == '"'
      && UnescapeQuotes(line[|PowerShellPrefix|..|line| - 1]) == command
  {
    var line := PowerShellCommand(command);
    assert line[|PowerShellPrefix|..|line| - 1] == EscapeQuotes(command);
    EscapeQuotesInverse(command);
  }

  // ---------------------------------------------------------------- fallback loops

  /**
   * The commands a loop that stops at the first success runs: every command up to and
   * including the first one that succeeds, or all of them when none does.
   */
  function UntilSuccess(commands: seq<string>, oracle: Oracle): (r: seq<string>)
    ensures |r| <= |commands|
  {
    if commands == [] then []
    else if oracle(commands[0]).Ok? then [commands[0]]
    else [commands[0]] + UntilSuccess(commands[1..], oracle)
  }

  predicate SomeSucceeds(commands: seq<string>, oracle: Oracle) {
    exists i :: 0 <= i < |commands| && oracle(commands[i]).Ok?
  }

  /** When command `i` is the first to succeed, the loop runs exactly the commands up to it. */
  lemma {:induction false} UntilSuccessAt(commands: seq<string>, oracle: Oracle, i: nat)
    requires i < |commands| && oracle(commands[i]).Ok?
    requires forall j :: 0 <= j < i ==> oracle(commands[j]).Err?
    ensures UntilSuccess(commands, oracle) == commands[..i + 1]
  {
    if i > 0 {
      assert oracle(commands[0]).Err?;
      UntilSuccessAt(commands[1..], oracle, i - 1);
      assert commands[..i + 1] == [commands[0]] + commands[1..][..i];
    }
  }

  /** When every command fails, the loop runs all of them. */
  lemma {:induction false} UntilSuccessAllFail(commands: seq<string>, oracle: Oracle)
    requires forall j :: 0 <= j < |commands| ==> oracle(commands[j]).Err?
    ensures UntilSuccess(commands, oracle) == commands
    ensures !SomeSucceeds(commands, oracle)
  {
    if commands != [] {
      UntilSuccessAllFail(commands[1..], oracle);
      assert [commands[0]] + commands[1..] == commands;
    }
  }

  // ---------------------------------------------------------------- loops that run one command per item

  /** `log` extended by `command(x)` for every `x` of `items`, in order. */
  function EachLog(items: seq<string>, command: string -> string, log: seq<string>): seq<string> {
    if items == [] then log
    else EachLog(items[..|items| - 1], command, log) + [command(items[|items| - 1])]
  }

  /** One more item of such a loop: its command is appended. */
  lemma EachLogPush(items: seq<string>, i: nat, command: string -> string, log: seq<string>)
    requires i < |items|
    ensures EachLog(items[..i + 1], command, log) == EachLog(items[..i], command, log) + [command(items[i])]
  {
    assert items[..i + 1][..i] == items[..i];
  }

  /** Such a loop adds exactly one command per item, in the order of the items. */
  lemma {:induction false} EachLogEntries(items: seq<string>, command: string -> string, log: seq<string>)
    ensures var r := EachLog(items, command, log);
      && |r| == |log| + |items| && r[..|log|] == log
      && forall j :: 0 <= j < |items| ==> r[|log| + j] == command(items[j])
  {
    if items != [] {
      var n := |items| - 1;
      EachLogEntries(items[..n], command, log);
      var r := EachLog(items, command, log);
      assert r == EachLog(items[..n], command, log) + [command(items[n])];
    }
  }

  /** The user-id query of the macOS and Linux backends' `isElevated`. */
  const UserIdCommand: string := "id -u"

  /** `isElevated` on macOS and Linux: the trimmed answer of `id -u` is `0`; a failure is a no. */
  predicate SaysRoot(o: Outcome) {
    o.Ok? && Trim(o.stdout) == "0"
  }
}
