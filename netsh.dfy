/**
 * What the two Windows backends read from `netsh`: the interface table printed by
 * `netsh interface show interface`, and the addresses found line by line in a listing of
 * DNS servers.
 */
module Netsh {
  import opened Wrappers
  import opened Text
  import opened Lists
  import opened Patterns
  import opened Interfaces

  const TableCommand: string := "netsh interface show interface"

  /**
   * What a call of a Windows backend leaves behind: its value, the interface name it holds
   * afterwards and the commands run so far.
   */
  datatype After<T> = After(value: T, cached: Option<string>, log: seq<string>)

  // ---------------------------------------------------------------- the interface table

  /** The cells of a table line: the trimmed line split at runs of two or more spaces. */
  function Cells(line: string): seq<string> {
    SplitWide(Trim(line))
  }

  /**
   * One table row as an interface: four cells (admin state, state, type, name), a name, and
   * the admin state `Enabled`. It is active when its state is `Connected`; its type comes
   * from the backend's rule on the name and the type cell.
   */
  function Row(line: string, kind: (string, string) -> InterfaceType): Option<NetworkInterface> {
    var parts := Cells(line);
    if |parts| >= 4 && parts[3] != "" && parts[0] == "Enabled" then
      Some(NetworkInterface(parts[3], parts[3], kind(parts[3], parts[2]), parts[1] == "Connected", None))
    else None
  }

  function RowWith(kind: (string, string) -> InterfaceType): string -> Option<NetworkInterface> {
    (line: string) => Row(line, kind)
  }

  /** The lines after the three header lines. */
  function Body(output: string): seq<string> {
    var lines := Split(output, '\n');
    if |lines| <= 3 then [] else lines[3..]
  }

  /** The interfaces of the table: every row of the body that reads as one, in order. */
  function TableInterfaces(output: string, kind: (string, string) -> InterfaceType): seq<NetworkInterface> {
    Collect(Body(output), RowWith(kind))
  }

  /**
   * A row written as four cells two spaces apart reads back as the interface it describes:
   * an enabled row gives its name, its type and whether it is connected; any other admin
   * state gives nothing.
   */
  lemma RowOfCells(admin: string, state: string, typ: string, name: string, kind: (string, string) -> InterfaceType)
    requires IsCell(admin) && IsCell(state) && IsCell(typ) && IsCell(name)
    ensures Row(Join([admin, state, typ, name], "  "), kind) ==
      if admin == "Enabled" then Some(NetworkInterface(name, name, kind(name, typ), state == "Connected", None))
      else None
  {
    var cells := [admin, state, typ, name];
    var line := Join(cells, "  ");
    JoinEnds(cells, "  ");
    TrimOfTrimmed(line);
    SplitWideCells(cells);
  }

  /** Below three header lines, the rows of a table are read one per line, in order. */
  lemma TableRows(header: seq<string>, rows: seq<string>, kind: (string, string) -> InterfaceType)
    requires |header| == 3
    requires forall i :: 0 <= i < |header| ==> '\n' !in header[i]
    requires forall i :: 0 <= i < |rows| ==> '\n' !in rows[i]
    ensures TableInterfaces(Join(header + rows, "\n"), kind) == Collect(rows, RowWith(kind))
  {
    var lines := header + rows;
    forall i | 0 <= i < |lines|
      ensures '\n' !in lines[i]
    {
      if i >= 3 {
        assert lines[i] == rows[i - 3];
      }
    }
    SplitJoin(lines, '\n');
    if rows == [] {
      assert Body(Join(lines, "\n")) == [];
    } else {
      assert lines[3..] == rows;
    }
  }

  /** The loop of `getNetworkInterfaces` over the table: one interface per row that reads as one. */
  method ReadTable(output: string, kind: (string, string) -> InterfaceType) returns (interfaces: seq<NetworkInterface>)
    ensures interfaces == TableInterfaces(output, kind)
  {
    var lines := Body(output);
    interfaces := [];
    var i := 0;
    while i < |lines|
      invariant 0 <= i <= |lines|
      invariant interfaces == Collect(lines[..i], RowWith(kind))
    {
      CollectStep(lines, i, RowWith(kind));
      var parts := Cells(lines[i]);
      if |parts| >= 4 {
        var adminState, state, typ, name := parts[0], parts[1], parts[2], parts[3];
        if name != "" && adminState == "Enabled" {
          interfaces := interfaces + [NetworkInterface(name, name, kind(name, typ), state == "Connected", None)];
        }
      }
      i := i + 1;
    }
    assert lines[..|lines|] == lines;
  }

  // ---------------------------------------------------------------- addresses, line by line

  /** One more line of the address loop: its address is pushed when it is new. */
  lemma DedupeStep(lines: seq<string>, i: nat, find: string -> Option<string>)
    requires i < |lines|
    ensures var kept := Dedupe(Collect(lines[..i], find));
      Dedupe(Collect(lines[..i + 1], find)) ==
        match find(lines[i])
        case Some(a) => if a in kept then kept else kept + [a]
        case None => kept
  {
    var xs := Collect(lines[..i], find);
    CollectStep(lines, i, find);
    if find(lines[i]).Some? {
      assert (xs + [find(lines[i]).value])[..|xs|] == xs;
    } else {
      assert xs + [] == xs;
    }
  }

  /**
   * The address loop of `getActiveDns`: for every line, the address `find` takes from it,
   * pushed unless it is already there.
   */
  method ExtractAddresses(output: string, find: string -> Option<string>) returns (dns: seq<string>)
    ensures dns == Dedupe(Collect(Split(output, '\n'), find))
  {
    var lines := Split(output, '\n');
    dns := [];
    var i := 0;
    while i < |lines|
      invariant 0 <= i <= |lines|
      invariant dns == Dedupe(Collect(lines[..i], find))
    {
      DedupeStep(lines, i, find);
      var found := find(lines[i]);
      if found.Some? && found.value !in dns {
        dns := dns + [found.value];
      }
      i := i + 1;
    }
    assert lines[..|lines|] == lines;
  }

  /** The addresses read are distinct, each found on some line, and in the order first found. */
  lemma AddressesDistinct(output: string, find: string -> Option<string>)
    ensures var r := Dedupe(Collect(Split(output, '\n'), find));
      && NoDuplicates(r)
      && IsSubsequence(r, Collect(Split(output, '\n'), find))
      && forall a :: a in r <==> exists i :: 0 <= i < |Split(output, '\n')| && find(Split(output, '\n')[i]) == Some(a)
  {
    var lines := Split(output, '\n');
    DedupeSubsequence(Collect(lines, find));
    forall a
      ensures a in Collect(lines, find) <==> exists i :: 0 <= i < |lines| && find(lines[i]) == Some(a)
    {
      CollectMembers(lines, find, a);
    }
  }
}
