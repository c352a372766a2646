/** Whose host route it is, src/network/route_identity.hpp. */
module RouteIdentity {

  /** A row of /proc/net/route, as far as it is looked at. */
  datatype Row = Row(device: string, dst: nat, gateway: nat, flags: nat, metric: nat, mask: nat)

  datatype Line = Malformed | Parsed(row: Row)

  const HOST_MASK := 0xffffffff
  const UP_AND_HOST := 5
  const OWN_METRIC := 4270

  function Interface(id: int): string {
    if id == 0 then "eth0" else "wlan0"
  }

  predicate OwnedStreamRoute(target: string, device: string, savedTarget: string, savedDevice: string,
                             metric: nat, gateway: nat, flags: nat)
  {
    && target == savedTarget && device == savedDevice
    && (device == "eth0" || device == "wlan0")
    && metric == OWN_METRIC && gateway == 0 && flags == UP_AND_HOST
  }

  predicate ToTarget(row: Row, address: nat) {
    row.dst == address && row.mask == HOST_MASK
  }

  /** The rows for the target, in order. */
  function Matching(rows: seq<Row>, address: nat): seq<Row> {
    if rows == [] then []
    else Matching(rows[..|rows|-1], address) + if ToTarget(rows[|rows|-1], address) then [rows[|rows|-1]] else []
  }

  /** The same on lines of text, of which some cannot be read. */
  function Found(lines: seq<Line>, address: nat): seq<Row> {
    if lines == [] then []
    else
      var last := lines[|lines|-1];
      Found(lines[..|lines|-1], address) + if last.Parsed? && ToTarget(last.row, address) then [last.row] else []
  }

  /** The row `route` adds for an interface. */
  function OwnRow(address: nat, id: int): Row {
    Row(Interface(id), address, 0, UP_AND_HOST, OWN_METRIC, HOST_MASK)
  }

  lemma {:induction false} MatchingSnoc(rows: seq<Row>, row: Row, address: nat)
    ensures Matching(rows + [row], address) == Matching(rows, address) + if ToTarget(row, address) then [row] else []
  {
    assert (rows + [row])[..|rows|] == rows;
  }

  lemma {:induction false} FoundSnoc(lines: seq<Line>, line: Line, address: nat)
    ensures Found(lines + [line], address) ==
              Found(lines, address) + if line.Parsed? && ToTarget(line.row, address) then [line.row] else []
  {
    assert (lines + [line])[..|lines|] == lines;
  }

  lemma {:induction false} FoundPrefix(lines: seq<Line>, n: nat, address: nat)
    requires n <= |lines|
    ensures Found(lines[..n], address) <= Found(lines, address)
    decreases |lines| - n
  {
    if n == |lines| {
      assert lines[..n] == lines;
    } else {
      FoundPrefix(lines, n + 1, address);
      assert lines[..n+1] == lines[..n] + [lines[n]];
      FoundSnoc(lines[..n], lines[n], address);
      assert Found(lines[..n], address) <= Found(lines[..n+1], address);
    }
  }

  /** The table as the kernel prints it. */
  function Printed(rows: seq<Row>): seq<Line> {
    seq(|rows|, i requires 0 <= i < |rows| => Parsed(rows[i]))
  }

  lemma {:induction false} FoundPrinted(rows: seq<Row>, address: nat)
    ensures Found(Printed(rows), address) == Matching(rows, address)
  {
    if rows != [] {
      FoundPrinted(rows[..|rows|-1], address);
      assert Printed(rows)[..|rows|-1] == Printed(rows[..|rows|-1]);
    }
  }

  lemma {:induction false} MatchingIn(rows: seq<Row>, address: nat)
    ensures forall i :: 0 <= i < |Matching(rows, address)| ==>
              ToTarget(Matching(rows, address)[i], address) && Matching(rows, address)[i] in rows
  {
    if rows != [] {
      MatchingIn(rows[..|rows|-1], address);
    }
  }

  /** Ours, exactly: up and a host route (flags 1 and 4), metric 4270, no gateway, on the interface that was saved. */
  lemma {:induction false} OwnedExactly(
    row: Row, address: nat, target: string, savedTarget: string, savedDevice: string)
    ensures
      ToTarget(row, address)
      && OwnedStreamRoute(target, row.device, savedTarget, savedDevice, row.metric, row.gateway, row.flags) <==>
      && savedTarget == target && savedDevice == row.device
      && (row == Row("eth0", address, 0, 1 + 4, 4270, 256 * 256 * 256 * 256 - 1)
          || row == Row("wlan0", address, 0, 1 + 4, 4270, 256 * 256 * 256 * 256 - 1))
  {
  }

  /** Which are the rows that `route` adds. */
  lemma {:induction false} OwnRowsExactly(address: nat)
    ensures OwnRow(address, 0) == Row("eth0", address, 0, 1 + 4, 4270, 256 * 256 * 256 * 256 - 1)
    ensures OwnRow(address, 1) == Row("wlan0", address, 0, 1 + 4, 4270, 256 * 256 * 256 * 256 - 1)
  {
  }

  const CONFLICT := -2

  predicate Readable(header: bool, bad: bool, lines: seq<Line>) {
    header && !bad && Malformed !in lines
  }

  /**
   * -1 if the target has no route, the interface if it has exactly one and that is ours, and otherwise a conflict;
   * a table that cannot be read to its end is one too.
   */
  function StateOf(header: bool, bad: bool, lines: seq<Line>, address: nat, active: int): int {
    var found := Found(lines, address);
    if !Readable(header, bad, lines) then CONFLICT
    else if found == [] then -1
    else if active >= 0 && found == [OwnRow(address, active)] then active
    else CONFLICT
  }

  /** A row that is not ours, or a second one, is a conflict whatever follows. */
  lemma {:induction false} ConflictAt(header: bool, bad: bool, lines: seq<Line>, address: nat, active: int, n: nat)
    requires n < |lines| && lines[n].Parsed? && ToTarget(lines[n].row, address)
    requires active < 0 || Found(lines[..n], address) != [] || lines[n].row != OwnRow(address, active)
    ensures StateOf(header, bad, lines, address, active) == CONFLICT
  {
    assert lines[..n+1] == lines[..n] + [lines[n]];
    FoundSnoc(lines[..n], lines[n], address);
    FoundPrefix(lines, n + 1, address);
    var part, whole := Found(lines[..n+1], address), Found(lines, address);
    assert part[|part|-1] == lines[n].row == whole[|part|-1];
  }

  /** Line i is a route to the target. */
  predicate TargetAt(lines: seq<Line>, address: nat, i: nat) {
    i < |lines| && lines[i].Parsed? && lines[i].row.dst == address && lines[i].row.mask == HOST_MASK
  }

  /** Line i is the only one. */
  ghost predicate OnlyTarget(lines: seq<Line>, address: nat, i: nat) {
    TargetAt(lines, address, i) && forall j: nat :: TargetAt(lines, address, j) ==> j == i
  }

  lemma {:induction false} TargetSnoc(lines: seq<Line>, address: nat)
    requires lines != []
    ensures
      var n := |lines| - 1;
      && (forall i: nat :: TargetAt(lines, address, i) <==>
            TargetAt(lines[..n], address, i) || (i == n && TargetAt(lines, address, n)))
      && Found(lines, address) ==
           Found(lines[..n], address) + if TargetAt(lines, address, n) then [lines[n].row] else []
  {
  }

  lemma {:induction false} FoundNone(lines: seq<Line>, address: nat)
    ensures Found(lines, address) == [] <==> forall i: nat :: !TargetAt(lines, address, i)
  {
    if lines != [] {
      var n := |lines| - 1;
      TargetSnoc(lines, address);
      FoundNone(lines[..n], address);
      assert TargetAt(lines, address, n) ==> |Found(lines, address)| == |Found(lines[..n], address)| + 1;
      assert !TargetAt(lines, address, n) ==> Found(lines, address) == Found(lines[..n], address);
    }
  }

  lemma {:induction false} FoundOne(lines: seq<Line>, address: nat, row: Row)
    ensures Found(lines, address) == [row] <==> exists i: nat :: OnlyTarget(lines, address, i) && lines[i].row == row
  {
    if lines != [] {
      var n := |lines| - 1;
      var front := lines[..n];
      TargetSnoc(lines, address);
      FoundOne(front, address, row);
      FoundNone(front, address);
      if TargetAt(lines, address, n) {
        assert |Found(lines, address)| == |Found(front, address)| + 1;
        assert Found(front, address) == [] ==> Found(lines, address) == [] + [lines[n].row] == [lines[n].row];
        assert Found(front, address) == [] ==> OnlyTarget(lines, address, n);
      } else {
        assert Found(lines, address) == Found(front, address);
        forall i: nat ensures OnlyTarget(lines, address, i) <==> OnlyTarget(front, address, i) {}
        forall i: nat | OnlyTarget(front, address, i) ensures lines[i] == front[i] {}
      }
    }
  }

  /**
   * The state by the lines themselves: -1 exactly if the table can be read and no line is a route to the target, the
   * interface exactly if there is one such line and it is ours on that interface, and a conflict otherwise.
   */
  lemma {:induction false} StateExactly(header: bool, bad: bool, lines: seq<Line>, address: nat, active: int)
    requires -1 <= active <= 1
    ensures
      var state := StateOf(header, bad, lines, address, active);
      var readable := header && !bad && forall i :: 0 <= i < |lines| ==> lines[i].Parsed?;
      && (state == -1 <==> readable && forall i: nat :: !TargetAt(lines, address, i))
      && (state >= 0 <==>
            && readable && active >= 0
            && exists i: nat :: OnlyTarget(lines, address, i) && lines[i].row == OwnRow(address, active))
      && (state >= 0 ==> state == active)
      && (state < -1 ==> state == -2)
  {
    FoundNone(lines, address);
    FoundOne(lines, address, OwnRow(address, active));
    assert Malformed in lines <==> exists i :: 0 <= i < |lines| && !lines[i].Parsed?;
  }

  lemma {:induction false} RowIsOurs(row: Row, address: nat, target: string, active: int)
    requires 0 <= active <= 1 && ToTarget(row, address)
    ensures OwnedStreamRoute(target, row.device, target, Interface(active), row.metric, row.gateway, row.flags) <==>
              row == OwnRow(address, active)
  {
  }

  method StreamRouteState(header: bool, bad: bool, lines: seq<Line>, address: nat, target: string, active: int)
      returns (state: int)
    requires -1 <= active <= 1
    ensures state == StateOf(header, bad, lines, address, active)
  {
    if !header {
      return CONFLICT;
    }
    var found := -1;
    var n := 0;
    while n < |lines|
      invariant 0 <= n <= |lines|
      invariant Malformed !in lines[..n]
      invariant Found(lines[..n], address) == if found < 0 then [] else [OwnRow(address, active)]
      invariant found == -1 || (active >= 0 && found == active)
    {
      assert lines[..n+1] == lines[..n] + [lines[n]];
      if lines[n].Malformed? {
        assert lines[n] in lines;
        return CONFLICT;
      }
      FoundSnoc(lines[..n], lines[n], address);
      var row := lines[n].row;
      if active >= 0 && ToTarget(row, address) { RowIsOurs(row, address, target, active); }
      if row.dst == address && row.mask == HOST_MASK {
        if active < 0 || found >= 0 ||
           !OwnedStreamRoute(target, row.device, target, Interface(active), row.metric, row.gateway, row.flags)
        {
          ConflictAt(header, bad, lines, address, active, n);
          return CONFLICT;
        }
        found := active;
      }
      n := n + 1;
    }
    assert lines[..n] == lines;
    return if bad then CONFLICT else found;
  }
}
