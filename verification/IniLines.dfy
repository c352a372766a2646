/** An INI file as the lines the dump writes, and the loader as what it does line by line. */
module IniLines {
  import opened Common
  import opened IniLine
  import opened IniLineProofs
  import opened IniFile
  import opened IniRoundTrip
  import D = Dictionary

  // --------------------------------------------------------------- the lines

  /** A line the dump writes. */
  datatype Printed = Blank | Title(name: string) | Item(k: string, v: string) | Loose(key: string, v: string)

  function Text(p: Printed): string {
    match p
    case Blank => []
    case Title(name) => SectionLine(name)
    case Item(k, v) => ValueLine(k, v)
    case Loose(key, v) => key + " = " + v
  }

  function Join(lines: seq<Printed>): string
    decreases |lines|
  {
    if lines == [] then [] else Join(lines[..|lines|-1]) + (Text(lines[|lines|-1]) + "\n")
  }

  function ItemOf(e: D.Entry, s: string): Printed
    requires InSection(e.key, s)
  {
    Item(e.key[|s|+1..], Written(e.val))
  }

  function ItemsOf(slots: D.Slots, s: string): seq<Printed>
    decreases |slots|
  {
    if slots == [] then []
    else
      var last := slots[|slots|-1];
      ItemsOf(slots[..|slots|-1], s) +
        if last.Some? && InSection(last.value.key, s) then [ItemOf(last.value, s)] else []
  }

  predicate Found(slots: D.Slots, s: string) {
    Lower(Prefix(s, LINE_SIZE)) in D.MapOf(slots)
  }

  function SectionLinesOf(slots: D.Slots, s: string): seq<Printed> {
    if Found(slots, s) then [Blank, Title(s)] + ItemsOf(slots, s) + [Blank] else []
  }

  function SectionsOf(slots: D.Slots, names: seq<string>): seq<Printed>
    decreases |names|
  {
    if names == [] then [] else SectionsOf(slots, names[..|names|-1]) + SectionLinesOf(slots, names[|names|-1])
  }

  function BareOf(slots: D.Slots): seq<Printed>
    decreases |slots|
  {
    if slots == [] then []
    else
      var last := slots[|slots|-1];
      BareOf(slots[..|slots|-1]) +
        if last.Some? then
          [Loose(last.value.key, if last.value.val.Some? then last.value.val.value else "(null)")]
        else []
  }

  function DumpLines(slots: D.Slots): seq<Printed> {
    if Sections(slots) == [] then BareOf(slots) else SectionsOf(slots, Sections(slots)) + [Blank]
  }

  lemma {:induction false} JoinSnoc(front: seq<Printed>, last: Printed)
    ensures Join(front + [last]) == Join(front) + (Text(last) + "\n")
  {
    assert (front + [last])[..|front|] == front;
  }

  lemma {:induction false} AssociateLines(x: seq<Printed>, y: seq<Printed>, z: seq<Printed>)
    ensures x + y + z == x + (y + z)
  {
  }

  lemma {:induction false} JoinMore(x: seq<Printed>, front: seq<Printed>, last: Printed)
    requires Join(x + front) == Join(x) + Join(front)
    ensures Join(x + (front + [last])) == Join(x) + Join(front + [last])
  {
    AssociateLines(x, front, [last]);
    JoinSnoc(x + front, last);
    JoinSnoc(front, last);
    Associate(Join(x), Join(front), Text(last) + "\n");
  }

  lemma {:induction false} JoinNone(x: seq<Printed>)
    ensures Join(x + []) == Join(x) + Join([])
  {
    assert x + [] == x;
  }

  lemma {:induction false} JoinBoth(x: seq<Printed>, y: seq<Printed>)
    ensures Join(x + y) == Join(x) + Join(y)
    decreases |y|
  {
    if |y| == 0 {
      JoinNone(x);
      assert y == [];
    } else {
      JoinBoth(x, y[..|y|-1]);
      JoinMore(x, y[..|y|-1], y[|y|-1]);
      LastOf(y);
    }
  }

  lemma {:induction false} JoinOne(p: Printed)
    ensures Join([p]) == Text(p) + "\n"
  {
    assert [p][..0] == [];
  }

  lemma {:induction false} ItemsAreLines(slots: D.Slots, s: string)
    ensures EntryLines(slots, s) == Join(ItemsOf(slots, s))
    decreases |slots|
  {
    if slots != [] {
      var front, last := slots[..|slots|-1], slots[|slots|-1];
      ItemsAreLines(front, s);
      if last.Some? && InSection(last.value.key, s) {
        var item := Item(last.value.key[|s|+1..], Written(last.value.val));
        JoinBoth(ItemsOf(front, s), [item]);
        JoinOne(item);
      } else {
        assert ItemsOf(front, s) + [] == ItemsOf(front, s);
        assert EntryLines(front, s) + [] == EntryLines(front, s);
      }
    }
  }

  lemma {:induction false} HeadIsLines(s: string)
    ensures Join([Blank, Title(s)]) == "\n" + SectionLine(s) + "\n" && Join([Blank]) == "\n"
  {
    JoinOne(Blank);
    JoinOne(Title(s));
    JoinBoth([Blank], [Title(s)]);
    assert [Blank] + [Title(s)] == [Blank, Title(s)];
    Associate("\n", SectionLine(s), "\n");
  }

  lemma {:induction false} SectionIsLines(slots: D.Slots, s: string)
    ensures SectionText(slots, s) == Join(SectionLinesOf(slots, s))
  {
    if Found(slots, s) {
      var head, items := [Blank, Title(s)], ItemsOf(slots, s);
      HeadIsLines(s);
      ItemsAreLines(slots, s);
      JoinBoth(head, items);
      JoinBoth(head + items, [Blank]);
    }
  }

  lemma {:induction false} SectionsAreLines(slots: D.Slots, names: seq<string>)
    ensures SectionTexts(slots, names) == Join(SectionsOf(slots, names))
    decreases |names|
  {
    if names != [] {
      var front, s := names[..|names|-1], names[|names|-1];
      SectionsAreLines(slots, front);
      SectionIsLines(slots, s);
      JoinBoth(SectionsOf(slots, front), SectionLinesOf(slots, s));
    }
  }

  lemma {:induction false} BareAreLines(slots: D.Slots)
    ensures BareLines(slots) == Join(BareOf(slots))
    decreases |slots|
  {
    if slots != [] {
      var front, last := slots[..|slots|-1], slots[|slots|-1];
      BareAreLines(front);
      if last.Some? {
        var bare := Loose(last.value.key, if last.value.val.Some? then last.value.val.value else "(null)");
        JoinBoth(BareOf(front), [bare]);
        JoinOne(bare);
      } else {
        assert BareOf(front) + [] == BareOf(front);
        assert BareLines(front) + [] == BareLines(front);
      }
    }
  }

  /** Without sections there is one line for each slot in use, in order. */
  lemma {:induction false} BareSnoc(slots: D.Slots, e: D.Entry)
    ensures BareLines(slots + [None]) == BareLines(slots)
    ensures BareLines(slots + [Some(e)]) ==
              BareLines(slots) + (e.key + " = " + (if e.val.Some? then e.val.value else "(null)") + "\n")
  {
    assert (slots + [None])[..|slots|] == slots && (slots + [Some(e)])[..|slots|] == slots;
    assert BareLines(slots) + [] == BareLines(slots);
  }

  lemma {:induction false} DumpIsLines(slots: D.Slots)
    ensures DumpText(slots) == Join(DumpLines(slots))
  {
    if Sections(slots) == [] {
      BareAreLines(slots);
    } else {
      SectionsAreLines(slots, Sections(slots));
      JoinBoth(SectionsOf(slots, Sections(slots)), [Blank]);
      JoinOne(Blank);
    }
  }

  // ------------------------------------------------------------ line by line

  /** The line fits behind what is carried over. */
  predicate Fits(l: Loading, text: string) {
    |l.carry| + |text| + 1 < LINE_SIZE
  }

  /** What reading this line does: it is skipped, carried over, or parsed with what was carried over before it. */
  function StepOn(l: Loading, text: string): Loading {
    if |l.carry| + |text| == 0 then l
    else
      var trimmed := TrimRight(l.carry + text);
      if trimmed != [] && trimmed[|trimmed|-1] == '\\' then l.(carry := trimmed[..|trimmed|-1])
      else Accept(l, trimmed)
  }

  /** The line asks to be continued. */
  predicate Continued(text: string) {
    TrimRight(text) != [] && TrimRight(text)[|TrimRight(text)|-1] == '\\'
  }

  lemma {:induction false} StepForm(l: Loading, text: string, line: string)
    requires line == l.carry + text
    ensures line == [] ==> StepOn(l, text) == l
    ensures Continued(line) ==> StepOn(l, text) == l.(carry := TrimRight(line)[..|TrimRight(line)|-1])
    ensures line != [] && !Continued(line) ==> StepOn(l, text) == Accept(l, TrimRight(line))
  {
    assert |line| == |l.carry| + |text|;
  }

  /** The loader after these lines; none if one of them did not fit. */
  function Walk(lines: seq<Printed>): Option<Loading>
    decreases |lines|
  {
    if lines == [] then Some(EMPTY)
    else
      match Walk(lines[..|lines|-1])
      case None => None
      case Some(l) =>
        if Fits(l, Text(lines[|lines|-1])) then Some(StepOn(l, Text(lines[|lines|-1]))) else None
  }

  lemma {:induction false} TurnIsStep(l: Loading, text: string)
    ensures Turn(l, l.carry + (text + "\n"), false) == Some(StepOn(l, text))
  {
    Associate(l.carry, text, "\n");
    TrimNewline(l.carry + text);
  }

  lemma {:induction false} ReadsStep(l: Loading, text: string)
    requires '\n' !in text && Fits(l, text)
    ensures Reads(l, text + "\n", StepOn(l, text))
  {
    forall rest: string ensures LoadFrom(l, text + "\n" + rest) == LoadFrom(StepOn(l, text), rest) {
      var all := text + "\n" + rest;
      ChunkOf(text, rest, Room(l.carry));
      LoadStep(l, all);
      TurnIsStep(l, text);
      assert all[|text + "\n"|..] == rest;
    }
  }

  lemma {:induction false} ChunkCut(text: string, max: nat)
    requires max <= |text| && '\n' !in text[..max]
    ensures Chunk(text, max) == text[..max]
  {
    if max > 0 {
      assert text[0] == text[..max][0] && text[..max][1..] == text[1..][..max-1];
      ChunkCut(text[1..], max - 1);
      assert text[..max] == [text[0]] + text[1..][..max-1];
    }
  }

  lemma {:induction false} RefusesLong(l: Loading, text: string, rest: string)
    requires '\n' !in text && !Fits(l, text)
    ensures LoadFrom(l, text + "\n" + rest) == None
  {
    var all, max := text + "\n" + rest, Room(l.carry);
    assert all[..max] == text[..max];
    ChunkCut(all, max);
    LoadStep(l, all);
  }

  ghost predicate Plain(lines: seq<Printed>) {
    forall p :: p in lines ==> '\n' !in Text(p)
  }

  lemma {:induction false} LastOf(lines: seq<Printed>)
    requires |lines| > 0
    ensures lines[..|lines|-1] + [lines[|lines|-1]] == lines
  {
  }

  /** What is left to read after these lines. */
  function Onward(l: Option<Loading>, rest: string): Option<Entries> {
    match l
    case None => None
    case Some(m) => LoadFrom(m, rest)
  }

  lemma {:induction false} OneMoreText(l: Loading, text: string, rest: string)
    requires '\n' !in text
    ensures LoadFrom(l, text + "\n" + rest) == Onward(if Fits(l, text) then Some(StepOn(l, text)) else None, rest)
  {
    if Fits(l, text) {
      ReadsStep(l, text);
      ReadsOn(l, text + "\n", StepOn(l, text), rest);
    } else {
      RefusesLong(l, text, rest);
    }
  }

  lemma {:induction false} WalkReads(lines: seq<Printed>, rest: string)
    requires Plain(lines)
    ensures LoadFrom(EMPTY, Join(lines) + rest) == Onward(Walk(lines), rest)
    decreases |lines|
  {
    if |lines| == 0 {
      assert Join(lines) + rest == rest;
    } else {
      var front, last := lines[..|lines|-1], lines[|lines|-1];
      Associate(Join(front), Text(last) + "\n", rest);
      WalkReads(front, Text(last) + "\n" + rest);
      if Walk(front).Some? { OneMoreText(Walk(front).value, Text(last), rest); }
    }
  }

  /** A file of such lines holds what the loader has put together at their end, if it has come there whole. */
  lemma {:induction false} LoadLines(lines: seq<Printed>)
    requires Plain(lines)
    ensures
      LoadText(Join(lines)) ==
        match Walk(lines)
        case None => None
        case Some(l) => if l.failed || l.carry != [] then None else Some(l.entries)
  {
    WalkReads(lines, []);
    assert Join(lines) + [] == Join(lines);
  }

  // -------------------------------------------- nothing loaded holds a newline

  ghost predicate NewlineFree(m: Entries) {
    forall key :: key in m ==> '\n' !in key && (m[key].Some? ==> '\n' !in m[key].value)
  }

  ghost predicate CleanLoading(l: Loading) {
    '\n' !in l.carry && '\n' !in l.section && NewlineFree(l.entries)
  }

  lemma {:induction false} ChunkEnds(text: string, max: nat, i: nat)
    requires i + 1 < |Chunk(text, max)|
    ensures Chunk(text, max)[i] != '\n'
  {
    if i > 0 { ChunkEnds(text[1..], max - 1, i - 1); }
  }

  /** The letters of a name are letters of the text, in lower case. */
  lemma {:induction false} NameKeeps(text: string, len: nat, c: char)
    requires c !in text && LowerChar(c) == c && !('a' <= c <= 'z')
    ensures c !in Name(text, len)
  {
    var a, b := StripSplits(text);
    forall i | 0 <= i < |Name(text, len)| ensures Name(text, len)[i] != c {
      assert text[|a| + i] == Strip(text)[i];
    }
  }

  lemma {:induction false} StripKeeps(s: string, c: char)
    requires c !in s
    ensures c !in Strip(s) && c !in TrimLeft(s)
  {
    var a, b := StripSplits(s);
    forall i | 0 <= i < |Strip(s)| ensures Strip(s)[i] != c {
      assert s[|a| + i] == Strip(s)[i];
    }
    var d := TrimLeftSplits(s);
    forall i | 0 <= i < |TrimLeft(s)| ensures TrimLeft(s)[i] != c {
      assert s[|d| + i] == TrimLeft(s)[i];
    }
  }

  lemma {:induction false} UntilKeeps(s: string, stops: set<char>, c: char)
    requires c !in s
    ensures c !in Until(s, stops)
  {
    UntilSplits(s, stops);
  }

  lemma {:induction false} ValueKeeps(s: string, c: char)
    requires c !in s
    ensures c !in ValueOf(s)
  {
    if s != [] {
      UntilKeeps(s[1..], {'"'}, c);
      UntilKeeps(s[1..], {'\''}, c);
    }
    UntilKeeps(s, {';', '#'}, c);
    StripKeeps(Until(s, {';', '#'}), c);
  }

  /** What a line is read as holds only characters of the line, or of the name read before. */
  lemma {:induction false} ParseKeeps(line: string, section: string, c: char)
    requires c !in line && c !in section && LowerChar(c) == c && !('a' <= c <= 'z')
    ensures
      match ParseLine(line, section)
      case Section(name) => c !in name
      case Value(key, value) => c !in key && c !in value
      case _ => true
  {
    var bare := Strip(line);
    StripKeeps(line, c);
    if bare != [] {
      UntilKeeps(bare[1..], {']'}, c);
      NameKeeps(Until(bare[1..], {']'}), |bare|, c);
      NameKeeps(section, |bare|, c);
      UntilKeeps(bare, {'='}, c);
      NameKeeps(Until(bare, {'='}), |bare|, c);
      var key := Until(bare, {'='});
      if |key| < |bare| {
        StripKeeps(bare[|key|+1..], c);
        ValueKeeps(TrimLeft(bare[|key|+1..]), c);
      }
    }
  }

  lemma {:induction false} AcceptClean(l: Loading, line: string)
    requires CleanLoading(l) && '\n' !in line
    ensures CleanLoading(Accept(l, line))
  {
    ParseKeeps(line, l.section, '\n');
  }

  lemma {:induction false} TrimmedClean(line: string)
    requires forall i :: 0 <= i < |line| - 1 ==> line[i] != '\n'
    ensures '\n' !in TrimRight(line)
  {
    var trimmed, last := TrimRight(line), |line| - 1;
    var b := TrimRightSplits(line);
    forall i | 0 <= i < |trimmed| ensures trimmed[i] != '\n' {
      assert trimmed[i] == line[i];
      assert i == last ==> trimmed[|trimmed|-1] == line[last];
    }
  }

  lemma {:induction false} TurnClean(l: Loading, chunk: string, cut: bool)
    requires CleanLoading(l) && (forall i :: 0 <= i < |chunk| - 1 ==> chunk[i] != '\n')
    requires Turn(l, l.carry + chunk, cut).Some?
    ensures CleanLoading(Turn(l, l.carry + chunk, cut).value)
  {
    var line := l.carry + chunk;
    assert forall i :: 0 <= i < |line| - 1 ==> line[i] == if i < |l.carry| then l.carry[i] else chunk[i - |l.carry|];
    TrimmedClean(line);
    AcceptClean(l, TrimRight(line));
  }

  lemma {:induction false} LoadClean(l: Loading, text: string)
    requires CleanLoading(l) && LoadFrom(l, text).Some?
    ensures NewlineFree(LoadFrom(l, text).value)
    decreases |text|
  {
    if |text| > 0 {
      var max := Room(l.carry);
      var chunk := Chunk(text, max);
      LoadStep(l, text);
      forall i | 0 <= i < |chunk| - 1 ensures chunk[i] != '\n' { ChunkEnds(text, max, i); }
      TurnClean(l, chunk, Cut(chunk, max));
      LoadClean(Turn(l, l.carry + chunk, Cut(chunk, max)).value, text[|chunk|..]);
    }
  }

  // ------------------------------------------------- a dictionary that comes back

  /** Saving the dictionary and loading the file gives the same dictionary. */
  ghost predicate Returns(slots: D.Slots) {
    LoadText(DumpText(slots)) == Some(D.MapOf(slots))
  }

  ghost predicate CleanSlots(slots: D.Slots) {
    forall i :: 0 <= i < |slots| && slots[i].Some? ==>
      && '\n' !in slots[i].value.key
      && (slots[i].value.val.Some? ==> '\n' !in slots[i].value.val.value)
  }

  lemma {:induction false} ReturnedIsClean(slots: D.Slots)
    requires D.Distinct(slots) && Returns(slots)
    ensures CleanSlots(slots)
  {
    LoadClean(EMPTY, DumpText(slots));
    forall i | 0 <= i < |slots| && slots[i].Some?
      ensures '\n' !in slots[i].value.key
      ensures slots[i].value.val.Some? ==> '\n' !in slots[i].value.val.value
    {
      D.MapHolds(slots, slots[i].value.key);
      assert D.Holds(slots, slots[i].value.key, i);
    }
  }

  lemma {:induction false} CleanFront(slots: D.Slots)
    requires |slots| > 0 && CleanSlots(slots)
    ensures CleanSlots(slots[..|slots|-1])
  {
    assert forall i :: 0 <= i < |slots| - 1 ==> slots[..|slots|-1][i] == slots[i];
  }

  lemma {:induction false} PlainItems(slots: D.Slots, s: string)
    requires CleanSlots(slots)
    ensures Plain(ItemsOf(slots, s))
    decreases |slots|
  {
    if |slots| > 0 {
      var last := slots[|slots|-1];
      CleanFront(slots);
      PlainItems(slots[..|slots|-1], s);
      if last.Some? && InSection(last.value.key, s) { NoNewline(last.value.key[|s|+1..], Written(last.value.val)); }
    }
  }

  lemma {:induction false} PlainBare(slots: D.Slots)
    requires CleanSlots(slots)
    ensures Plain(BareOf(slots))
    decreases |slots|
  {
    if |slots| > 0 {
      CleanFront(slots);
      PlainBare(slots[..|slots|-1]);
    }
  }

  lemma {:induction false} PlainSections(slots: D.Slots, names: seq<string>)
    requires CleanSlots(slots) && forall i :: 0 <= i < |names| ==> '\n' !in names[i]
    ensures Plain(SectionsOf(slots, names))
    decreases |names|
  {
    if |names| > 0 {
      var s := names[|names|-1];
      PlainSections(slots, names[..|names|-1]);
      PlainItems(slots, s);
      assert '\n' !in SectionLine(s);
    }
  }

  lemma {:induction false} PlainDump(slots: D.Slots)
    requires CleanSlots(slots)
    ensures Plain(DumpLines(slots))
  {
    if Sections(slots) == [] {
      PlainBare(slots);
    } else {
      var names := Sections(slots);
      SectionsAre(slots);
      forall i | 0 <= i < |names| ensures '\n' !in names[i] {
        var j: nat :| D.Holds(slots, names[i], j);
      }
      PlainSections(slots, names);
    }
  }

  /** If the dictionary comes back, the loader gets through all its lines, and has put it together at their end. */
  lemma {:induction false} ReturnsWalks(slots: D.Slots) returns (l: Loading)
    requires D.Distinct(slots) && Returns(slots)
    ensures Walk(DumpLines(slots)) == Some(l) && l.carry == [] && l.entries == D.MapOf(slots)
  {
    ReturnedIsClean(slots);
    PlainDump(slots);
    DumpIsLines(slots);
    LoadLines(DumpLines(slots));
    l := Walk(DumpLines(slots)).value;
  }
}
