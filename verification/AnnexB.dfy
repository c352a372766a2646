/** The Annex-B scanner of src/publisher/annexb.cpp. */
module AnnexB {
  import opened Common

  /** `found` holds the flags 1, 2 and 4 that the source keeps as bits of one word. */
  datatype ParameterSets = ParameterSets(data: Bytes, found: set<nat>)
  {
    predicate Complete(h265: bool) {
      1 in found && 2 in found && (h265 ==> 4 in found)
    }
  }

  const NOTHING := ParameterSets([], {})

  function NalType(header: byte, h265: bool): nat {
    if h265 then header / 2 % 64 else header % 32
  }

  /** SPS and PPS for H.264; VPS, SPS and PPS for H.265; 0 for every other type. */
  function Flag(header: byte, h265: bool): nat {
    var t := NalType(header, h265);
    if h265 then
      if t == 32 then 1 else if t == 33 then 2 else if t == 34 then 4 else 0
    else
      if t == 7 then 1 else if t == 8 then 2 else 0
  }

  // ---------------------------------------------------------------- scanning

  predicate Code3(d: Bytes, i: nat) {
    i + 3 < |d| && d[i] == 0 && d[i+1] == 0 && d[i+2] == 1
  }

  predicate Code4(d: Bytes, i: nat) {
    i + 4 < |d| && d[i] == 0 && d[i+1] == 0 && d[i+2] == 0 && d[i+3] == 1
  }

  /** A start code that opens a unit: at least one byte follows it. */
  predicate Opens(d: Bytes, i: nat) {
    Code3(d, i) || Code4(d, i)
  }

  /** A start code that ends the unit before it; a four-byte one may end the buffer. */
  predicate Closes(d: Bytes, i: nat) {
    i + 3 < |d| && d[i] == 0 && d[i+1] == 0 && (d[i+2] == 1 || (d[i+2] == 0 && d[i+3] == 1))
  }

  function FirstOpen(d: Bytes, pos: nat): (i: nat)
    requires pos <= |d|
    ensures pos <= i <= |d|
    ensures i < |d| ==> Opens(d, i)
    ensures forall k :: pos <= k < i ==> !Opens(d, k)
    decreases |d| - pos
  {
    if pos == |d| || Opens(d, pos) then pos else FirstOpen(d, pos + 1)
  }

  function FirstClose(d: Bytes, pos: nat): (i: nat)
    requires pos <= |d|
    ensures pos <= i <= |d|
    ensures i < |d| ==> Closes(d, i)
    ensures forall k :: pos <= k < i ==> !Closes(d, k)
    decreases |d| - pos
  {
    if pos == |d| || Closes(d, pos) then pos else FirstClose(d, pos + 1)
  }

  /** The unit d[start..end]; its header byte is d[start + prefix]. */
  datatype Unit = Unit(start: nat, prefix: nat, end: nat)

  function Units(d: Bytes, pos: nat): seq<Unit>
    requires pos <= |d|
    decreases |d| - pos
  {
    var start := FirstOpen(d, pos);
    if pos + 4 >= |d| || start == |d| then []
    else
      var prefix := if Code3(d, start) then 3 else 4;
      var end := FirstClose(d, start + prefix);
      [Unit(start, prefix, end)] + Units(d, end)
  }

  predicate Inside(d: Bytes, u: Unit) {
    3 <= u.prefix && u.start + u.prefix < |d| && u.start + u.prefix <= u.end <= |d|
  }

  predicate InBounds(d: Bytes, units: seq<Unit>) {
    forall i :: 0 <= i < |units| ==> Inside(d, units[i])
  }

  function Keep(d: Bytes, u: Unit, h265: bool, acc: ParameterSets): ParameterSets
    requires Inside(d, u)
  {
    var flag := Flag(d[u.start + u.prefix], h265);
    if flag != 0 && flag !in acc.found
    then ParameterSets(acc.data + d[u.start..u.end], acc.found + {flag})
    else acc
  }

  function Collect(d: Bytes, units: seq<Unit>, h265: bool, acc: ParameterSets): ParameterSets
    requires InBounds(d, units)
  {
    if units == [] then acc
    else Collect(d, units[1..], h265, Keep(d, units[0], h265, acc))
  }

  lemma {:induction false} UnitsInBounds(d: Bytes, pos: nat)
    requires pos <= |d|
    ensures InBounds(d, Units(d, pos))
    decreases |d| - pos
  {
    var start := FirstOpen(d, pos);
    if pos + 4 < |d| && start < |d| {
      UnitsInBounds(d, FirstClose(d, start + if Code3(d, start) then 3 else 4));
    }
  }

  /** What the scan from pos adds to acc. */
  function ScanFrom(d: Bytes, pos: nat, h265: bool, acc: ParameterSets): ParameterSets
    requires pos <= |d|
  {
    UnitsInBounds(d, pos);
    Collect(d, Units(d, pos), h265, acc)
  }

  /** What `parameter_sets` returns for the buffer d. */
  function Extract(d: Bytes, h265: bool): ParameterSets {
    ScanFrom(d, 0, h265, NOTHING)
  }

  lemma {:induction false} ScanStep(d: Bytes, pos: nat, h265: bool, acc: ParameterSets)
    requires pos + 4 < |d| && FirstOpen(d, pos) < |d|
    ensures
      var start := FirstOpen(d, pos);
      var prefix := if Code3(d, start) then 3 else 4;
      var u := Unit(start, prefix, FirstClose(d, start + prefix));
      Inside(d, u) && ScanFrom(d, pos, h265, acc) == ScanFrom(d, u.end, h265, Keep(d, u, h265, acc))
  {
    var start := FirstOpen(d, pos);
    var prefix := if Code3(d, start) then 3 else 4;
    var u := Unit(start, prefix, FirstClose(d, start + prefix));
    UnitsInBounds(d, pos);
    UnitsInBounds(d, u.end);
    assert Units(d, pos) == [u] + Units(d, u.end);
    assert Units(d, pos)[0] == u && Units(d, pos)[1..] == Units(d, u.end);
  }

  lemma {:induction false} ScanEnd(d: Bytes, pos: nat, h265: bool, acc: ParameterSets)
    requires pos <= |d| && (pos + 4 >= |d| || FirstOpen(d, pos) == |d|)
    ensures ScanFrom(d, pos, h265, acc) == acc
  {
  }

  /** The first inner loop: where the next unit opens, and how long its start code is. */
  method SearchOpen(d: Bytes, pos: nat) returns (start: nat, prefix: nat)
    requires pos <= |d|
    ensures start == FirstOpen(d, pos)
    ensures start < |d| ==> prefix == if Code3(d, start) then 3 else 4
  {
    var size := |d|;
    start, prefix := size, 0;
    var i := pos;
    while i + 3 < size
      invariant pos <= i <= size && start == size
      invariant forall k :: pos <= k < i ==> !Opens(d, k)
    {
      if d[i] == 0 && d[i+1] == 0 && d[i+2] == 1 {
        start, prefix := i, 3;
        assert Opens(d, start);
        break;
      }
      if i + 4 < size && d[i] == 0 && d[i+1] == 0 && d[i+2] == 0 && d[i+3] == 1 {
        start, prefix := i, 4;
        assert Opens(d, start);
        break;
      }
      i := i + 1;
    }
  }

  /** The second inner loop: where the unit whose payload begins at `from` ends. */
  method SearchClose(d: Bytes, from: nat) returns (end: nat)
    requires from <= |d|
    ensures end == FirstClose(d, from)
  {
    var size := |d|;
    end := size;
    var i := from;
    while i + 3 < size
      invariant from <= i <= size && end == size
      invariant forall k :: from <= k < i ==> !Closes(d, k)
    {
      if d[i] == 0 && d[i+1] == 0 && (d[i+2] == 1 || (i + 3 < size && d[i+2] == 0 && d[i+3] == 1)) {
        end := i;
        assert Closes(d, end);
        break;
      }
      i := i + 1;
    }
  }

  /** One turn of the outer loop; `more` is false where it breaks. */
  method ScanUnit(d: Bytes, pos: nat, h265: bool, acc: ParameterSets)
      returns (more: bool, next: nat, out: ParameterSets)
    requires pos + 4 < |d|
    ensures pos <= next <= |d| && (more ==> pos < next)
    ensures ScanFrom(d, next, h265, out) == ScanFrom(d, pos, h265, acc)
    ensures !more ==> out == ScanFrom(d, pos, h265, acc)
  {
    var size := |d|;
    var start, prefix := SearchOpen(d, pos);
    if start == size || start + prefix >= size {
      ScanEnd(d, pos, h265, acc);
      return false, pos, acc;
    }
    var end := SearchClose(d, start + prefix);
    ScanStep(d, pos, h265, acc);
    var flag := Flag(d[start + prefix], h265);
    out := acc;
    if flag != 0 && flag !in out.found {
      out := ParameterSets(out.data + d[start..end], out.found + {flag});
    }
    return true, end, out;
  }

  method ExtractParameterSets(d: Bytes, h265: bool) returns (out: ParameterSets)
    ensures out == Extract(d, h265)
  {
    out := NOTHING;
    var pos: nat := 0;
    while pos + 4 < |d|
      invariant pos <= |d|
      invariant ScanFrom(d, pos, h265, out) == Extract(d, h265)
      decreases |d| - pos
    {
      var more;
      more, pos, out := ScanUnit(d, pos, h265, out);
      if !more {
        return;
      }
    }
    ScanEnd(d, pos, h265, out);
  }

  // ------------------------------------------- what the result is on any bytes

  /** A unit found at or after pos: it begins with a start code and contains no later one. */
  ghost predicate UnitAt(d: Bytes, pos: nat, u: Unit) {
    && pos <= u.start && Opens(d, u.start)
    && u.prefix == (if Code3(d, u.start) then 3 else 4)
    && u.start + u.prefix <= u.end <= |d|
    && forall k :: u.start + u.prefix <= k < u.end ==> !Closes(d, k)
  }

  ghost predicate AllUnitsAt(d: Bytes, pos: nat, units: seq<Unit>) {
    forall i :: 0 <= i < |units| ==> UnitAt(d, pos, units[i])
  }

  ghost predicate Disjoint(units: seq<Unit>) {
    forall i, j :: 0 <= i < j < |units| ==> units[i].end <= units[j].start
  }

  lemma {:induction false} UnitBefore(d: Bytes, pos: nat, u: Unit, rest: seq<Unit>)
    requires UnitAt(d, pos, u) && AllUnitsAt(d, u.end, rest) && Disjoint(rest)
    ensures AllUnitsAt(d, pos, [u] + rest) && Disjoint([u] + rest)
  {
    var units := [u] + rest;
    forall i | 0 <= i < |units| ensures UnitAt(d, pos, units[i]) {
      if i > 0 { assert units[i] == rest[i-1] && UnitAt(d, u.end, rest[i-1]); }
    }
    forall i, j | 0 <= i < j < |units| ensures units[i].end <= units[j].start {
      assert units[j] == rest[j-1] && UnitAt(d, u.end, rest[j-1]);
      if i > 0 { assert units[i] == rest[i-1]; }
    }
  }

  lemma {:induction false} FirstUnit(d: Bytes, pos: nat)
    requires pos <= |d|
    ensures
      Units(d, pos) == [] ||
      (exists u :: UnitAt(d, pos, u) && pos < u.end <= |d| && Units(d, pos) == [u] + Units(d, u.end))
  {
    var start := FirstOpen(d, pos);
    if pos + 4 < |d| && start < |d| {
      var prefix := if Code3(d, start) then 3 else 4;
      var u := Unit(start, prefix, FirstClose(d, start + prefix));
      assert UnitAt(d, pos, u) && Units(d, pos) == [u] + Units(d, u.end);
    }
  }

  lemma {:induction false} UnitsScanned(d: Bytes, pos: nat)
    requires pos <= |d|
    ensures AllUnitsAt(d, pos, Units(d, pos)) && Disjoint(Units(d, pos))
    decreases |d| - pos
  {
    FirstUnit(d, pos);
    if Units(d, pos) != [] {
      var u :| UnitAt(d, pos, u) && pos < u.end <= |d| && Units(d, pos) == [u] + Units(d, u.end);
      UnitsScanned(d, u.end);
      UnitBefore(d, pos, u, Units(d, u.end));
    }
  }

  function FlagOf(d: Bytes, u: Unit, h265: bool): nat {
    if u.start + u.prefix < |d| then Flag(d[u.start + u.prefix], h265) else 0
  }

  /** Unit i carries a wanted type that no earlier unit carries. */
  predicate FirstOfItsType(d: Bytes, units: seq<Unit>, h265: bool, i: nat)
    requires i < |units|
  {
    && FlagOf(d, units[i], h265) != 0
    && forall j :: 0 <= j < i ==> FlagOf(d, units[j], h265) != FlagOf(d, units[i], h265)
  }

  predicate Below(kept: seq<nat>, n: nat) {
    forall m :: 0 <= m < |kept| ==> kept[m] < n
  }

  /** The indices of those units, in order. */
  function Firsts(d: Bytes, units: seq<Unit>, h265: bool): (kept: seq<nat>)
    ensures Below(kept, |units|)
  {
    if units == [] then []
    else
      var n := |units| - 1;
      var before := Firsts(d, units[..n], h265);
      if FirstOfItsType(d, units, h265, n) then before + [n] else before
  }

  lemma {:induction false} FirstsAreFirst(d: Bytes, units: seq<Unit>, h265: bool)
    ensures forall i :: 0 <= i < |units| ==> (i in Firsts(d, units, h265) <==> FirstOfItsType(d, units, h265, i))
    ensures forall m, n :: 0 <= m < n < |Firsts(d, units, h265)| ==>
              Firsts(d, units, h265)[m] < Firsts(d, units, h265)[n]
  {
    if units != [] {
      var n := |units| - 1;
      FirstsAreFirst(d, units[..n], h265);
      assert forall i :: 0 <= i < n ==> FirstOfItsType(d, units[..n], h265, i) == FirstOfItsType(d, units, h265, i);
    }
  }

  function Slices(d: Bytes, units: seq<Unit>, kept: seq<nat>): Bytes
    requires InBounds(d, units) && Below(kept, |units|)
  {
    if kept == [] then []
    else
      var u := units[kept[|kept|-1]];
      Slices(d, units, kept[..|kept|-1]) + d[u.start..u.end]
  }

  predicate Occurs(d: Bytes, units: seq<Unit>, h265: bool, flag: nat) {
    flag != 0 && exists i :: 0 <= i < |units| && FlagOf(d, units[i], h265) == flag
  }

  lemma {:induction false} CollectSnoc(d: Bytes, units: seq<Unit>, u: Unit, h265: bool, acc: ParameterSets)
    requires InBounds(d, units) && Inside(d, u)
    ensures InBounds(d, units + [u])
    ensures Collect(d, units + [u], h265, acc) == Keep(d, u, h265, Collect(d, units, h265, acc))
  {
    if units == [] {
      assert units + [u] == [u];
      assert Collect(d, [u], h265, acc) == Collect(d, [u][1..], h265, Keep(d, u, h265, acc));
    } else {
      assert (units + [u])[1..] == units[1..] + [u];
      assert (units + [u])[0] == units[0];
      CollectSnoc(d, units[1..], u, h265, Keep(d, units[0], h265, acc));
    }
  }

  lemma {:induction false} SlicesOfLonger(d: Bytes, units: seq<Unit>, u: Unit, kept: seq<nat>)
    requires InBounds(d, units) && Inside(d, u) && Below(kept, |units|)
    ensures InBounds(d, units + [u]) && Slices(d, units, kept) == Slices(d, units + [u], kept)
  {
    if kept != [] {
      SlicesOfLonger(d, units, u, kept[..|kept|-1]);
    }
  }

  lemma {:induction false} CollectKeepsFirsts(d: Bytes, units: seq<Unit>, h265: bool)
    requires InBounds(d, units)
    ensures Collect(d, units, h265, NOTHING).data == Slices(d, units, Firsts(d, units, h265))
    ensures forall f :: f in Collect(d, units, h265, NOTHING).found <==> Occurs(d, units, h265, f)
    ensures |Collect(d, units, h265, NOTHING).found| == |Firsts(d, units, h265)|
  {
    if units != [] {
      var n := |units| - 1;
      var before, u := units[..n], units[n];
      assert units == before + [u];
      CollectSnoc(d, before, u, h265, NOTHING);
      CollectKeepsFirsts(d, before, h265);
      SlicesOfLonger(d, before, u, Firsts(d, before, h265));
      FoundGrows(d, before, u, h265, Collect(d, before, h265, NOTHING));
      var kept := Firsts(d, units, h265);
      if FirstOfItsType(d, units, h265, n) {
        assert kept[..|kept|-1] == Firsts(d, before, h265) && kept[|kept|-1] == n;
      }
    }
  }

  lemma {:induction false} FoundGrows(d: Bytes, before: seq<Unit>, u: Unit, h265: bool, acc: ParameterSets)
    requires Inside(d, u)
    requires forall f :: f in acc.found <==> Occurs(d, before, h265, f)
    ensures FirstOfItsType(d, before + [u], h265, |before|) <==>
        FlagOf(d, u, h265) != 0 && FlagOf(d, u, h265) !in acc.found
    ensures forall f :: f in Keep(d, u, h265, acc).found <==> Occurs(d, before + [u], h265, f)
  {
    var units, n, flag := before + [u], |before|, FlagOf(d, u, h265);
    assert units[n] == u && forall i :: 0 <= i < n ==> units[i] == before[i];
    forall f ensures Occurs(d, units, h265, f) <==> Occurs(d, before, h265, f) || (f != 0 && f == flag) {
      if Occurs(d, before, h265, f) {
        var i :| 0 <= i < n && FlagOf(d, before[i], h265) == f;
        assert units[i] == before[i];
      }
    }
  }

  /** The whole result, on arbitrary bytes. */
  lemma {:induction false} ExtractOnAnyBytes(d: Bytes, h265: bool)
    ensures InBounds(d, Units(d, 0))
    ensures AllUnitsAt(d, 0, Units(d, 0)) && Disjoint(Units(d, 0))
    ensures Extract(d, h265).data == Slices(d, Units(d, 0), Firsts(d, Units(d, 0), h265))
    ensures forall f :: f in Extract(d, h265).found <==> Occurs(d, Units(d, 0), h265, f)
    ensures |Extract(d, h265).found| == |Firsts(d, Units(d, 0), h265)|
    ensures forall i :: 0 <= i < |Units(d, 0)| ==>
              (i in Firsts(d, Units(d, 0), h265) <==> FirstOfItsType(d, Units(d, 0), h265, i))
    ensures forall m, n :: 0 <= m < n < |Firsts(d, Units(d, 0), h265)| ==>
              Firsts(d, Units(d, 0), h265)[m] < Firsts(d, Units(d, 0), h265)[n]
  {
    UnitsInBounds(d, 0);
    UnitsScanned(d, 0);
    CollectKeepsFirsts(d, Units(d, 0), h265);
    FirstsAreFirst(d, Units(d, 0), h265);
  }

  // ------------------------------------------------------ framing is undone

  /** A NAL unit and the length of the start code it is framed with (section B.1 of ITU-T H.264). */
  datatype Frame = Frame(long: bool, nal: Bytes)

  function StartCode(long: bool): Bytes {
    if long then [0, 0, 0, 1] else [0, 0, 1]
  }

  function Framed(f: Frame): Bytes {
    StartCode(f.long) + f.nal
  }

  function Stream(frames: seq<Frame>): Bytes {
    if frames == [] then [] else Framed(frames[0]) + Stream(frames[1..])
  }

  predicate Stops(nal: Bytes, i: nat) {
    i + 2 < |nal| && nal[i] == 0 && nal[i+1] == 0 && nal[i+2] <= 1
  }

  /** No start code can be read out of the unit, nor out of its end and the code after it. */
  predicate Clean(nal: Bytes) {
    nal != [] && nal[|nal|-1] != 0 && forall i :: 0 <= i < |nal| ==> !Stops(nal, i)
  }

  predicate AllClean(frames: seq<Frame>) {
    forall i :: 0 <= i < |frames| ==> Clean(frames[i].nal)
  }

  function Put(acc: ParameterSets, f: Frame, h265: bool): ParameterSets
    requires f.nal != []
  {
    var flag := Flag(f.nal[0], h265);
    if flag != 0 && flag !in acc.found then ParameterSets(acc.data + Framed(f), acc.found + {flag}) else acc
  }

  /** The first frame of each wanted type, in order. */
  function Wanted(frames: seq<Frame>, h265: bool, acc: ParameterSets): ParameterSets
    requires AllClean(frames)
  {
    if frames == [] then acc
    else assert Clean(frames[0].nal); Wanted(frames[1..], h265, Put(acc, frames[0], h265))
  }

  /** The outer loop stops with four bytes left, so this last frame is not looked at. */
  predicate TailUnseen(frames: seq<Frame>) {
    frames != [] && !frames[|frames|-1].long && |frames[|frames|-1].nal| == 1
  }

  function Seen(frames: seq<Frame>): seq<Frame> {
    if TailUnseen(frames) then frames[..|frames|-1] else frames
  }

  /** The bytes x are in the buffer from pos on. */
  predicate LiesAt(d: Bytes, pos: nat, x: Bytes)
    decreases |x|
  {
    x == [] || (pos < |d| && d[pos] == x[0] && LiesAt(d, pos + 1, x[1..]))
  }

  lemma {:induction false} SliceLies(d: Bytes, pos: nat, x: Bytes)
    requires pos + |x| <= |d|
    ensures LiesAt(d, pos, x) <==> d[pos..pos + |x|] == x
    decreases |x|
  {
    if x != [] {
      SliceLies(d, pos + 1, x[1..]);
      var slice := d[pos..pos + |x|];
      assert slice[0] == d[pos] && slice[1..] == d[pos + 1..pos + |x|];
      assert x == [x[0]] + x[1..] && slice == [slice[0]] + slice[1..];
    }
  }

  predicate FrameAt(d: Bytes, pos: nat, f: Frame) {
    pos + |Framed(f)| <= |d| && LiesAt(d, pos, Framed(f))
  }

  lemma {:induction false} FrameBytes(d: Bytes, pos: nat, f: Frame)
    requires FrameAt(d, pos, f)
    ensures d[pos..pos + |Framed(f)|] == Framed(f)
    ensures forall k :: pos <= k < pos + |StartCode(f.long)| ==> d[k] == StartCode(f.long)[k - pos]
    ensures forall k :: pos + |StartCode(f.long)| <= k < pos + |Framed(f)| ==>
        d[k] == f.nal[k - pos - |StartCode(f.long)|]
  {
    SliceLies(d, pos, Framed(f));
    forall k | pos <= k < pos + |Framed(f)| ensures d[k] == Framed(f)[k - pos] {
      assert d[k] == d[pos..pos + |Framed(f)|][k - pos];
    }
  }

  lemma {:induction false} OpensHere(d: Bytes, pos: nat, f: Frame)
    requires FrameAt(d, pos, f) && f.nal != []
    ensures FirstOpen(d, pos) == pos && (Code3(d, pos) <==> !f.long)
    ensures Closes(d, pos)
  {
    FrameBytes(d, pos, f);
    assert d[pos] == 0 && d[pos+1] == 0 && d[pos+2] == (if f.long then 0 else 1);
    if f.long { assert d[pos+3] == 1; }
  }

  lemma {:induction false} ClosesThere(d: Bytes, pos: nat, f: Frame)
    requires FrameAt(d, pos, f) && Clean(f.nal)
    requires pos + |Framed(f)| == |d| || Closes(d, pos + |Framed(f)|)
    ensures FirstClose(d, pos + |StartCode(f.long)|) == pos + |Framed(f)|
  {
    var from, end := pos + |StartCode(f.long)|, pos + |Framed(f)|;
    forall k | from <= k < end ensures !Closes(d, k) {
      FrameBytes(d, pos, f);
      assert d[end - 1] == f.nal[|f.nal| - 1];
      if k + 2 < end {
        var i := k - from;
        assert !Stops(f.nal, i) && d[k] == f.nal[i] && d[k+1] == f.nal[i+1] && d[k+2] == f.nal[i+2];
      }
    }
  }

  /** From pos to its end the buffer is the frames. */
  predicate Carries(d: Bytes, pos: nat, frames: seq<Frame>)
    decreases |frames|
  {
    if frames == [] then pos == |d|
    else FrameAt(d, pos, frames[0]) && Carries(d, pos + |Framed(frames[0])|, frames[1..])
  }

  lemma {:induction false} StreamBegins(pre: Bytes, frames: seq<Frame>)
    requires frames != []
    ensures FrameAt(pre + Stream(frames), |pre|, frames[0])
    ensures pre + Stream(frames) == pre + Framed(frames[0]) + Stream(frames[1..])
  {
    MiddleOf(pre, Framed(frames[0]), Stream(frames[1..]));
    SliceLies(pre + Stream(frames), |pre|, Framed(frames[0]));
  }

  lemma {:induction false} StreamCarries(pre: Bytes, frames: seq<Frame>)
    ensures Carries(pre + Stream(frames), |pre|, frames)
    decreases |frames|
  {
    if frames != [] {
      StreamBegins(pre, frames);
      StreamCarries(pre + Framed(frames[0]), frames[1..]);
    }
  }

  /** Where the frames, one directly after the other from pos on, have their units. */
  function Spans(frames: seq<Frame>, pos: nat): seq<Unit>
    decreases |frames|
  {
    if frames == [] then []
    else
      var next := pos + |Framed(frames[0])|;
      [Unit(pos, |StartCode(frames[0].long)|, next)] + Spans(frames[1..], next)
  }

  lemma {:induction false} UnitsStep(d: Bytes, pos: nat, f: Frame)
    requires FrameAt(d, pos, f) && f.nal != [] && pos + 4 < |d|
    requires FirstOpen(d, pos) == pos && (Code3(d, pos) <==> !f.long)
    requires FirstClose(d, pos + |StartCode(f.long)|) == pos + |Framed(f)|
    ensures Units(d, pos) == [Unit(pos, |StartCode(f.long)|, pos + |Framed(f)|)] + Units(d, pos + |Framed(f)|)
  {
  }

  /** The frames lie in the buffer from pos on, whatever follows them. */
  predicate Laid(d: Bytes, pos: nat, frames: seq<Frame>)
    decreases |frames|
  {
    frames == [] || (FrameAt(d, pos, frames[0]) && Laid(d, pos + |Framed(frames[0])|, frames[1..]))
  }

  function EndOf(frames: seq<Frame>, pos: nat): nat
    decreases |frames|
  {
    if frames == [] then pos else EndOf(frames[1..], pos + |Framed(frames[0])|)
  }

  lemma {:induction false} LaidEnds(d: Bytes, pos: nat, frames: seq<Frame>)
    requires Laid(d, pos, frames) && frames != []
    ensures pos < EndOf(frames, pos) <= |d|
    decreases |frames|
  {
    if |frames| > 1 { LaidEnds(d, pos + |Framed(frames[0])|, frames[1..]); }
  }

  lemma {:induction false} CarriesSplit(d: Bytes, pos: nat, frames: seq<Frame>, n: nat)
    requires Carries(d, pos, frames) && n <= |frames|
    ensures Laid(d, pos, frames[..n]) && Carries(d, EndOf(frames[..n], pos), frames[n..])
    decreases n
  {
    if n > 0 {
      var rest, next := frames[1..], pos + |Framed(frames[0])|;
      CarriesSplit(d, next, rest, n - 1);
      assert frames[..n][0] == frames[0] && frames[..n][1..] == rest[..n-1] && frames[n..] == rest[n-1..];
    } else {
      assert frames[0..] == frames;
    }
  }

  /** Where a unit may end: at the end of the buffer or at a start code. */
  predicate Boundary(d: Bytes, end: nat) {
    end == |d| || Closes(d, end)
  }

  /** A laid frame ends where the next one, or what follows the last, begins. */
  lemma {:induction false} FirstEnds(d: Bytes, pos: nat, frames: seq<Frame>)
    requires frames != [] && AllClean(frames) && Laid(d, pos, frames) && Boundary(d, EndOf(frames, pos))
    ensures Boundary(d, pos + |Framed(frames[0])|)
  {
    var rest, next := frames[1..], pos + |Framed(frames[0])|;
    if rest == [] {
      assert EndOf(frames, pos) == EndOf(rest, next) == next;
    } else {
      assert Clean(frames[1].nal) && rest[0] == frames[1] && FrameAt(d, next, rest[0]);
      OpensHere(d, next, frames[1]);
    }
  }

  /** The first of the frames is found whole. */
  lemma {:induction false} FirstFound(d: Bytes, pos: nat, frames: seq<Frame>)
    requires frames != [] && AllClean(frames) && Laid(d, pos, frames) && Boundary(d, EndOf(frames, pos))
        && pos + 4 < |d|
    ensures
      var f := frames[0];
      Units(d, pos) == [Unit(pos, |StartCode(f.long)|, pos + |Framed(f)|)] + Units(d, pos + |Framed(f)|)
  {
    var f := frames[0];
    assert Clean(f.nal);
    FirstEnds(d, pos, frames);
    OpensHere(d, pos, f);
    ClosesThere(d, pos, f);
    UnitsStep(d, pos, f);
  }

  /** The frames lie from pos on, and behind them nothing more is found. */
  ghost predicate EndsAt(d: Bytes, pos: nat, frames: seq<Frame>) {
    var end := EndOf(frames, pos);
    && Laid(d, pos, frames) && end <= |d| && Boundary(d, end) && Units(d, end) == []
    && (end == |d| ==> !TailUnseen(frames))
  }

  lemma {:induction false} UnitsMore(d: Bytes, pos: nat, frames: seq<Frame>)
    requires frames != [] && AllClean(frames) && EndsAt(d, pos, frames)
    ensures
      var next := pos + |Framed(frames[0])|;
      && EndsAt(d, next, frames[1..]) && pos <= next <= |d|
      && (Units(d, next) == Spans(frames[1..], next) ==> Units(d, pos) == Spans(frames, pos))
  {
    RoomFor(d, pos, frames);
    FirstFound(d, pos, frames);
  }

  /** The units found from the frames on are theirs. */
  lemma {:induction false} UnitsOfFrames(d: Bytes, pos: nat, frames: seq<Frame>)
    requires AllClean(frames) && EndsAt(d, pos, frames)
    ensures pos <= |d| && Units(d, pos) == Spans(frames, pos)
    decreases |frames|
  {
    if frames != [] {
      UnitsMore(d, pos, frames);
      UnitsOfFrames(d, pos + |Framed(frames[0])|, frames[1..]);
    }
  }

  lemma {:induction false} RoomFor(d: Bytes, pos: nat, frames: seq<Frame>)
    requires frames != [] && AllClean(frames) && Laid(d, pos, frames) && Boundary(d, EndOf(frames, pos))
    requires EndOf(frames, pos) == |d| ==> !TailUnseen(frames)
    ensures pos + 4 < |d|
  {
    var rest, next := frames[1..], pos + |Framed(frames[0])|;
    assert Clean(frames[0].nal) && |Framed(frames[0])| >= 4;
    if rest == [] {
      assert EndOf(frames, pos) == EndOf(rest, next) == next;
    } else {
      assert Laid(d, next, rest);
      LaidEnds(d, next, rest);
    }
  }

  lemma {:induction false} KeepIsPut(d: Bytes, pos: nat, f: Frame, h265: bool, acc: ParameterSets)
    requires FrameAt(d, pos, f) && f.nal != []
    ensures
      var u := Unit(pos, |StartCode(f.long)|, pos + |Framed(f)|);
      Inside(d, u) && Keep(d, u, h265, acc) == Put(acc, f, h265)
  {
    FrameBytes(d, pos, f);
  }

  lemma {:induction false} CollectStep(d: Bytes, u: Unit, rest: seq<Unit>, h265: bool, acc: ParameterSets)
    requires Inside(d, u) && InBounds(d, rest)
    ensures InBounds(d, [u] + rest)
    ensures Collect(d, [u] + rest, h265, acc) == Collect(d, rest, h265, Keep(d, u, h265, acc))
  {
    assert ([u] + rest)[0] == u && ([u] + rest)[1..] == rest;
  }

  lemma {:induction false} WantedStep(frames: seq<Frame>, h265: bool, acc: ParameterSets)
    requires frames != [] && AllClean(frames) && frames[0].nal != []
    ensures AllClean(frames[1..]) && Wanted(frames, h265, acc) == Wanted(frames[1..], h265, Put(acc, frames[0], h265))
  {
  }

  /** Collecting the units of the frames gives the first frame of each wanted type. */
  ghost predicate Collects(d: Bytes, units: seq<Unit>, frames: seq<Frame>, h265: bool, acc: ParameterSets) {
    AllClean(frames) && InBounds(d, units) && Collect(d, units, h265, acc) == Wanted(frames, h265, acc)
  }

  lemma {:induction false} CollectsMore(d: Bytes, u: Unit, units: seq<Unit>, f: Frame, frames: seq<Frame>, h265: bool,
                                        acc: ParameterSets)
    requires Clean(f.nal) && Inside(d, u) && Collects(d, units, frames, h265, Put(acc, f, h265))
    requires Keep(d, u, h265, acc) == Put(acc, f, h265)
    ensures Collects(d, [u] + units, [f] + frames, h265, acc)
  {
    CollectStep(d, u, units, h265, acc);
    assert ([f] + frames)[0] == f && ([f] + frames)[1..] == frames;
    WantedStep([f] + frames, h265, acc);
  }

  lemma {:induction false} CollectFrames(d: Bytes, pos: nat, frames: seq<Frame>, h265: bool, acc: ParameterSets)
    requires AllClean(frames) && Laid(d, pos, frames)
    ensures Collects(d, Spans(frames, pos), frames, h265, acc)
    decreases |frames|
  {
    if frames != [] {
      var f, next, rest := frames[0], pos + |Framed(frames[0])|, frames[1..];
      assert Clean(f.nal) && frames == [f] + rest;
      CollectFrames(d, next, rest, h265, Put(acc, f, h265));
      KeepIsPut(d, pos, f, h265, acc);
      CollectsMore(d, Unit(pos, |StartCode(f.long)|, next), Spans(rest, next), f, rest, h265, acc);
    }
  }

  lemma {:induction false} WantedSnoc(frames: seq<Frame>, f: Frame, h265: bool, acc: ParameterSets)
    requires AllClean(frames) && Clean(f.nal)
    ensures AllClean(frames + [f])
    ensures Wanted(frames + [f], h265, acc) == Put(Wanted(frames, h265, acc), f, h265)
  {
    if frames == [] {
      assert frames + [f] == [f];
    } else {
      assert Clean(frames[0].nal);
      assert (frames + [f])[1..] == frames[1..] + [f] && (frames + [f])[0] == frames[0];
      WantedSnoc(frames[1..], f, h265, Put(acc, frames[0], h265));
    }
  }

  lemma {:induction false} StreamSplits(frames: seq<Frame>, n: nat)
    requires n <= |frames|
    ensures Laid(Stream(frames), 0, frames[..n]) && Carries(Stream(frames), EndOf(frames[..n], 0), frames[n..])
  {
    StreamCarries([], frames);
    assert [] + Stream(frames) == Stream(frames);
    CarriesSplit(Stream(frames), 0, frames, n);
  }

  /** A last frame that is too short to be looked at. */
  lemma {:induction false} UnseenLast(d: Bytes, pos: nat, f: Frame)
    requires Carries(d, pos, [f]) && !f.long && |f.nal| == 1
    ensures pos < |d| && Closes(d, pos) && Units(d, pos) == []
  {
    assert [f][1..] == [] && Carries(d, pos + |Framed(f)|, []);
    OpensHere(d, pos, f);
  }

  lemma {:induction false} SeenAll(frames: seq<Frame>)
    requires !TailUnseen(frames)
    ensures EndsAt(Stream(frames), 0, frames)
  {
    StreamSplits(frames, |frames|);
    assert frames[..|frames|] == frames && frames[|frames|..] == [];
  }

  lemma {:induction false} SeenShort(frames: seq<Frame>)
    requires TailUnseen(frames)
    ensures EndsAt(Stream(frames), 0, Seen(frames))
  {
    var n := |frames| - 1;
    StreamSplits(frames, n);
    assert frames[n..] == [frames[n]];
    UnseenLast(Stream(frames), EndOf(Seen(frames), 0), frames[n]);
  }

  lemma {:induction false} ExtractSeen(frames: seq<Frame>, h265: bool)
    requires AllClean(frames)
    ensures AllClean(Seen(frames)) && Extract(Stream(frames), h265) == Wanted(Seen(frames), h265, NOTHING)
  {
    if TailUnseen(frames) { SeenShort(frames); } else { SeenAll(frames); }
    UnitsOfFrames(Stream(frames), 0, Seen(frames));
    CollectFrames(Stream(frames), 0, Seen(frames), h265, NOTHING);
  }

  /**
   * Framing and scanning are inverse, for clean units of any length and any mix of start codes,
   * except exactly when a final one-byte unit under a three-byte start code is the first of a wanted type.
   */
  lemma {:induction false} FramingRoundTrip(frames: seq<Frame>, h265: bool)
    requires AllClean(frames)
    ensures AllClean(Seen(frames)) && Extract(Stream(frames), h265) == Wanted(Seen(frames), h265, NOTHING)
    ensures Extract(Stream(frames), h265) == Wanted(frames, h265, NOTHING) <==>
              !(TailUnseen(frames) &&
                var flag := Flag(frames[|frames|-1].nal[0], h265);
                flag != 0 && flag !in Wanted(Seen(frames), h265, NOTHING).found)
  {
    ExtractSeen(frames, h265);
    if TailUnseen(frames) {
      var f := frames[|frames|-1];
      assert Clean(f.nal) && frames == Seen(frames) + [f];
      WantedSnoc(Seen(frames), f, h265, NOTHING);
    }
  }

  /** The smallest stream that shows the exception: a sequence parameter set of one byte is not found. */
  lemma {:induction false} OneByteIsUnseen()
    ensures
      var frames := [Frame(false, [7])];
      && AllClean(frames) && Stream(frames) == [0, 0, 1, 7]
      && Extract(Stream(frames), false) == NOTHING && Wanted(frames, false, NOTHING).found == {1}
  {
    var f := Frame(false, [7]);
    assert Clean(f.nal) && [f][1..] == [];
    assert Stream([]) == [] && Stream([f]) == Framed(f) + [];
    FramingRoundTrip([f], false);
    assert Seen([f]) == [];
    assert Wanted([f], false, NOTHING) == Wanted([], false, Put(NOTHING, f, false));
  }

  lemma {:induction false} CollectNonEmpty(d: Bytes, units: seq<Unit>, h265: bool, acc: ParameterSets)
    requires InBounds(d, units) && (acc.found != {} ==> acc.data != [])
    ensures Collect(d, units, h265, acc).found != {} ==> Collect(d, units, h265, acc).data != []
  {
    if units != [] {
      assert Inside(d, units[0]);
      CollectNonEmpty(d, units[1..], h265, Keep(d, units[0], h265, acc));
    }
  }

  /** A complete result is never empty, so it can always replace a cached one. */
  lemma {:induction false} CompleteIsNonEmpty(d: Bytes, h265: bool)
    ensures Extract(d, h265).Complete(h265) ==> Extract(d, h265).data != []
  {
    UnitsInBounds(d, 0);
    CollectNonEmpty(d, Units(d, 0), h265, NOTHING);
  }
}
