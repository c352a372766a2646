/** Loading what was dumped gives the same dictionary back. */
module IniRoundTrip {
  import opened Common
  import opened IniLine
  import opened IniLineProofs
  import opened IniFile
  import D = Dictionary

  // ------------------------------------------------------------- text by text

  /** Reading x takes the loader from l to m, whatever comes after it. */
  ghost predicate Reads(l: Loading, x: string, m: Loading) {
    forall rest: string :: LoadFrom(l, x + rest) == LoadFrom(m, rest)
  }

  lemma {:induction false} ReadsOn(l: Loading, x: string, m: Loading, rest: string)
    requires Reads(l, x, m)
    ensures LoadFrom(l, x + rest) == LoadFrom(m, rest)
  {
  }

  lemma {:induction false} Associate(x: string, y: string, z: string)
    ensures x + y + z == x + (y + z)
  {
  }

  lemma {:induction false} ReadsBoth(l: Loading, x: string, m: Loading, y: string, n: Loading)
    requires Reads(l, x, m) && Reads(m, y, n)
    ensures Reads(l, x + y, n)
  {
    forall rest: string ensures LoadFrom(l, x + y + rest) == LoadFrom(n, rest) {
      Associate(x, y, rest);
      ReadsOn(l, x, m, y + rest);
      ReadsOn(m, y, n, rest);
    }
  }

  lemma {:induction false} ReadsNothing(l: Loading)
    ensures Reads(l, [], l)
  {
    forall rest: string ensures LoadFrom(l, [] + rest) == LoadFrom(l, rest) {
      assert [] + rest == rest;
    }
  }

  lemma {:induction false} ChunkOf(line: string, rest: string, max: nat)
    requires '\n' !in line && |line| < max
    ensures Chunk(line + "\n" + rest, max) == line + "\n"
  {
    if line == [] {
      assert line + "\n" + rest == "\n" + rest;
    } else {
      assert line + "\n" + rest == [line[0]] + (line[1..] + "\n" + rest);
      ChunkOf(line[1..], rest, max - 1);
    }
  }

  /** One line of the file that fits the buffer. */
  lemma {:induction false} ReadsLine(l: Loading, line: string, m: Loading)
    requires l.carry == [] && '\n' !in line && |line| + 1 < LINE_SIZE
    requires Turn(l, line + "\n", false) == Some(m)
    ensures Reads(l, line + "\n", m)
  {
    forall rest: string ensures LoadFrom(l, line + "\n" + rest) == LoadFrom(m, rest) {
      var text := line + "\n" + rest;
      ChunkOf(line, rest, LINE_SIZE - 1);
      LoadStep(l, text);
      assert [] + (line + "\n") == line + "\n";
      assert text[|line + "\n"|..] == rest;
    }
  }

  lemma {:induction false} TrimNewline(line: string)
    ensures TrimRight(line + "\n") == TrimRight(line)
  {
    var b := TrimRightSplits(line);
    TrimRightOf(TrimRight(line), b + "\n");
    Associate(TrimRight(line), b, "\n");
  }

  lemma {:induction false} StripTrimmedRight(line: string)
    requires line != [] && !IsSpace(line[0])
    ensures Strip(TrimRight(line)) == Strip(line)
  {
    var r := TrimRight(line);
    var b := TrimRightSplits(line);
    assert r == [] ==> line == b;
    assert TrimLeft(line) == line && r[0] == line[0];
    TrimRightOf(r, []);
    assert r + [] == r;
  }

  function After(l: Loading, status: Status): Loading {
    match status
    case Section(name) => l.(section := name, entries := l.entries[name := None])
    case Value(key, value) => l.(entries := l.entries[l.section + ":" + key := Some(value)])
    case Error => l.(failed := true)
    case _ => l
  }

  /** A line that does not ask to be continued is parsed as it is. */
  lemma {:induction false} TurnOn(l: Loading, line: string)
    requires l.carry == [] && line != [] && !IsSpace(line[0])
    requires TrimRight(line) != [] && TrimRight(line)[|TrimRight(line)|-1] != '\\'
    ensures Turn(l, line + "\n", false) == Some(After(l, ParseLine(line, l.section)))
  {
    TrimNewline(line);
    StripTrimmedRight(line);
  }

  // -------------------------------------------------------------- well formed

  /** A section: present with no value, with a name that survives, or with none. */
  predicate SectionOk(s: string, val: Option<string>) {
    val == None && (s == [] || SectionFits(s)) && '\n' !in s && |s| + 3 < LINE_SIZE
  }

  /** What is written for a value; a missing one is written like an empty one. */
  function Written(val: Option<string>): string {
    if val.Some? then val.value else []
  }

  /** An entry of a section: the key survives, and the line fits and is not continued on the next. */
  predicate EntryOk(k: string, val: Option<string>) {
    var v := Written(val);
    && KeyFits(k) && !Bracketed(k, v)
    && '\n' !in k && '\n' !in v
    && (TrimRight(v) == [] || TrimRight(v)[|TrimRight(v)|-1] != '\\')
    && |ValueLine(k, v)| + 1 < LINE_SIZE
  }

  /** What is read back for it. */
  function ReadBack(val: Option<string>): Option<string> {
    Some(ValueOf(Strip(Written(val))))
  }

  /** The map as it is after being written and read. */
  function Loaded(m: Entries): Entries {
    map key | key in m :: if IsSection(key) then m[key] else ReadBack(m[key])
  }

  /** Every key with a colon belongs to the section named before its first colon, and that section is there. */
  predicate SlotOk(m: Entries, e: D.Entry) {
    if IsSection(e.key) then SectionOk(e.key, e.val)
    else
      var s := Until(e.key, {':'});
      s in m && |s| < |e.key| && EntryOk(e.key[|s|+1..], e.val)
  }

  /**
   * Every key survives. A section without a name does only as the first: later ones would be read under the name
   * that the parser still holds.
   */
  ghost predicate WellKeyed(slots: D.Slots) {
    && D.Distinct(slots)
    && ([] in D.MapOf(slots) ==> Sections(slots) != [] && Sections(slots)[0] == [])
    && forall i :: 0 <= i < |slots| && slots[i].Some? ==> SlotOk(D.MapOf(slots), slots[i].value)
  }

  // ------------------------------------------------------------ the two kinds

  lemma {:induction false} ReadsBlank(l: Loading)
    requires l.carry == []
    ensures Reads(l, "\n", l)
  {
    ReadsLine(l, [], l);
    assert [] + "\n" == "\n";
  }

  lemma {:induction false} NamelessRead()
    ensures ParseLine(SectionLine([]), []) == Section([])
  {
    LineEnds([]);
    BracketedRead(SectionLine([]), []);
    assert SectionLine([])[1..] == "]";
  }

  lemma {:induction false} ReadsSection(l: Loading, s: string)
    requires l.carry == [] && ']' !in l.section && SectionOk(s, None) && (s == [] ==> l.section == [])
    ensures Reads(l, SectionLine(s) + "\n", l.(section := s, entries := l.entries[s := None]))
  {
    var line := SectionLine(s);
    LineEnds(s);
    if s == [] { NamelessRead(); } else { SectionExact(s, l.section); }
    TrimRightOf(line, []);
    assert line + [] == line;
    TurnOn(l, line);
    ReadsLine(l, line, l.(section := s, entries := l.entries[s := None]));
  }

  lemma {:induction false} ReadsEntry(l: Loading, k: string, val: Option<string>)
    requires l.carry == [] && EntryOk(k, val)
    ensures Reads(l, EntryLine(k, val), l.(entries := l.entries[l.section + ":" + k := ReadBack(val)]))
  {
    var v := Written(val);
    var line := ValueLine(k, v);
    LineRead(k, v, l.section);
    BareLine(k, v);
    assert line[0] == k[0];
    assert TrimLeft(line) == line;
    TurnOn(l, line);
    NoNewline(k, v);
    ReadsLine(l, line, l.(entries := l.entries[l.section + ":" + k := ReadBack(val)]));
  }

  lemma {:induction false} NoNewline(k: string, v: string)
    requires '\n' !in k && '\n' !in v
    ensures '\n' !in ValueLine(k, v)
  {
  }

  // --------------------------------------------------------------- a section

  /** The entries of section s among the slots, added to m in slot order. */
  function Entered(slots: D.Slots, s: string, m: Entries): Entries {
    if slots == [] then m
    else
      var last := slots[|slots|-1];
      var front := Entered(slots[..|slots|-1], s, m);
      if last.Some? && InSection(last.value.key, s) then front[last.value.key := ReadBack(last.value.val)] else front
  }

  /** Each slot of section s is an entry that survives. */
  ghost predicate SectionEntriesOk(slots: D.Slots, s: string) {
    forall i :: 0 <= i < |slots| && slots[i].Some? && InSection(slots[i].value.key, s) ==>
      EntryOk(slots[i].value.key[|s|+1..], slots[i].value.val)
  }

  /** What one slot adds to the text of section s. */
  function SlotLine(slot: Option<D.Entry>, s: string): string {
    if slot.Some? && InSection(slot.value.key, s) then EntryLine(slot.value.key[|s|+1..], slot.value.val) else []
  }

  lemma {:induction false} ReadsSlot(l: Loading, slot: Option<D.Entry>)
    requires l.carry == []
    requires slot.Some? && InSection(slot.value.key, l.section) ==>
        EntryOk(slot.value.key[|l.section|+1..], slot.value.val)
    ensures
      var m :=
        if slot.Some? && InSection(slot.value.key, l.section) then
          l.entries[slot.value.key := ReadBack(slot.value.val)]
        else l.entries;
      Reads(l, SlotLine(slot, l.section), l.(entries := m))
  {
    if slot.Some? && InSection(slot.value.key, l.section) {
      var s, key := l.section, slot.value.key;
      ReadsEntry(l, key[|s|+1..], slot.value.val);
      assert s + ":" + key[|s|+1..] == key;
    } else {
      ReadsNothing(l);
    }
  }

  lemma {:induction false} FrontOk(slots: D.Slots, s: string)
    requires slots != [] && SectionEntriesOk(slots, s)
    ensures SectionEntriesOk(slots[..|slots|-1], s)
  {
    var front := slots[..|slots|-1];
    forall i | 0 <= i < |front| && front[i].Some? && InSection(front[i].value.key, s)
      ensures EntryOk(front[i].value.key[|s|+1..], front[i].value.val)
    {
      assert front[i] == slots[i];
    }
  }

  lemma {:induction false} ReadsEntries(l: Loading, slots: D.Slots)
    requires l.carry == [] && SectionEntriesOk(slots, l.section)
    ensures Reads(l, EntryLines(slots, l.section), l.(entries := Entered(slots, l.section, l.entries)))
    decreases |slots|
  {
    var s := l.section;
    if slots == [] {
      ReadsNothing(l);
    } else {
      var front, last := slots[..|slots|-1], slots[|slots|-1];
      var m, n := l.(entries := Entered(front, s, l.entries)), l.(entries := Entered(slots, s, l.entries));
      FrontOk(slots, s);
      ReadsEntries(l, front);
      assert Reads(m, SlotLine(last, s), n) by { ReadsSlot(m, last); }
      ReadsBoth(l, EntryLines(front, s), m, SlotLine(last, s), n);
      assert EntryLines(slots, s) == EntryLines(front, s) + SlotLine(last, s);
    }
  }

  /** After the text of a section: it is there, and so are all its entries. */
  function AfterSection(slots: D.Slots, l: Loading, s: string): Loading {
    l.(section := s, entries := Entered(slots, s, l.entries[s := None]))
  }

  lemma {:induction false} ReadsSectionText(l: Loading, slots: D.Slots, s: string)
    requires l.carry == [] && ']' !in l.section && SectionOk(s, None) && SectionEntriesOk(slots, s)
    requires s in D.MapOf(slots) && (s == [] ==> l.section == [])
    ensures Reads(l, SectionText(slots, s), AfterSection(slots, l, s))
  {
    var m := l.(section := s, entries := l.entries[s := None]);
    var n := AfterSection(slots, l, s);
    var title, lines := SectionLine(s) + "\n", EntryLines(slots, s);
    ReadsBlank(l);
    ReadsSection(l, s);
    ReadsBoth(l, "\n", l, title, m);
    ReadsEntries(m, slots);
    ReadsBoth(l, "\n" + title, m, lines, n);
    ReadsBlank(n);
    ReadsBoth(l, "\n" + title + lines, n, "\n", n);
    Associate("\n", SectionLine(s), "\n");
    assert Prefix(s, LINE_SIZE) == s;
  }

  // ------------------------------------------------------------ all of them

  function AfterSections(slots: D.Slots, names: seq<string>): Loading {
    if names == [] then EMPTY
    else AfterSection(slots, AfterSections(slots, names[..|names|-1]), names[|names|-1])
  }

  ghost predicate AllSectionsOk(slots: D.Slots, names: seq<string>) {
    forall i :: 0 <= i < |names| ==>
      && SectionOk(names[i], None) && SectionEntriesOk(slots, names[i]) && names[i] in D.MapOf(slots)
      && (names[i] == [] ==> i == 0)
  }

  lemma {:induction false} ReadsSections(slots: D.Slots, names: seq<string>)
    requires AllSectionsOk(slots, names)
    ensures Reads(EMPTY, SectionTexts(slots, names), AfterSections(slots, names))
    ensures AfterSections(slots, names).carry == [] && ']' !in AfterSections(slots, names).section
        && !AfterSections(slots, names).failed
  {
    if names == [] {
      ReadsNothing(EMPTY);
    } else {
      var front, s := names[..|names|-1], names[|names|-1];
      ReadsSections(slots, front);
      var l := AfterSections(slots, front);
      ReadsSectionText(l, slots, s);
      ReadsBoth(EMPTY, SectionTexts(slots, front), l, SectionText(slots, s), AfterSections(slots, names));
    }
  }

  // ---------------------------------------------------------- the same map

  /** Nothing in m is missing from the slots, or different there. */
  ghost predicate Agrees(slots: D.Slots, m: Entries) {
    forall key :: key in m ==> key in D.MapOf(slots) && m[key] == Loaded(D.MapOf(slots))[key]
  }

  /** Section s and its entries are all in m. */
  ghost predicate Covers(slots: D.Slots, s: string, m: Entries) {
    s in m && forall key :: key in D.MapOf(slots) && InSection(key, s) ==> key in m
  }

  lemma {:induction false} EnteredAgrees(slots: D.Slots, n: nat, s: string, m: Entries)
    requires D.Distinct(slots) && n <= |slots| && Agrees(slots, m) && IsSection(s)
    ensures Agrees(slots, Entered(slots[..n], s, m)) && m.Keys <= Entered(slots[..n], s, m).Keys
    ensures forall i :: 0 <= i < n && slots[i].Some? && InSection(slots[i].value.key, s) ==>
              slots[i].value.key in Entered(slots[..n], s, m)
  {
    if n > 0 {
      EnteredAgrees(slots, n - 1, s, m);
      assert slots[..n][..n-1] == slots[..n-1];
      if slots[n-1].Some? {
        var key := slots[n-1].value.key;
        D.MapHolds(slots, key);
        assert D.Holds(slots, key, n - 1);
        if InSection(key, s) { assert key[|s|] == ':'; }
      }
    }
  }

  lemma {:induction false} SectionCovered(slots: D.Slots, l: Loading, s: string)
    requires D.Distinct(slots) && Agrees(slots, l.entries) && s in D.MapOf(slots) && D.MapOf(slots)[s] == None
        && IsSection(s)
    ensures
      var m := AfterSection(slots, l, s).entries;
      Agrees(slots, m) && Covers(slots, s, m) && l.entries.Keys <= m.Keys
  {
    var m := l.entries[s := None];
    EnteredAgrees(slots, |slots|, s, m);
    assert slots[..|slots|] == slots;
    forall key | key in D.MapOf(slots) && InSection(key, s) ensures key in Entered(slots, s, m) {
      D.MapHolds(slots, key);
      var i: nat :| D.Holds(slots, key, i);
    }
  }

  ghost predicate AllCovered(slots: D.Slots, names: seq<string>, m: Entries) {
    forall i :: 0 <= i < |names| ==> Covers(slots, names[i], m)
  }

  ghost predicate AllListed(slots: D.Slots, names: seq<string>) {
    forall i :: 0 <= i < |names| ==>
        names[i] in D.MapOf(slots) && D.MapOf(slots)[names[i]] == None && IsSection(names[i])
  }

  lemma {:induction false} CoversMore(slots: D.Slots, s: string, m: Entries, n: Entries)
    requires Covers(slots, s, m) && m.Keys <= n.Keys
    ensures Covers(slots, s, n)
  {
  }

  lemma {:induction false} CoveredSnoc(slots: D.Slots, names: seq<string>, s: string, m: Entries, n: Entries)
    requires AllCovered(slots, names, m) && m.Keys <= n.Keys && Covers(slots, s, n)
    ensures AllCovered(slots, names + [s], n)
  {
    forall i | 0 <= i < |names + [s]| ensures Covers(slots, (names + [s])[i], n) {
      if i < |names| { CoversMore(slots, names[i], m, n); }
    }
  }

  lemma {:induction false} SectionsCovered(slots: D.Slots, names: seq<string>)
    requires D.Distinct(slots) && AllListed(slots, names)
    ensures Agrees(slots, AfterSections(slots, names).entries)
    ensures AllCovered(slots, names, AfterSections(slots, names).entries)
  {
    if names != [] {
      var front, s := names[..|names|-1], names[|names|-1];
      SectionsCovered(slots, front);
      var l, next := AfterSections(slots, front), AfterSections(slots, names);
      assert next == AfterSection(slots, l, s);
      SectionCovered(slots, l, s);
      CoveredSnoc(slots, front, s, l.entries, next.entries);
      assert front + [s] == names;
    }
  }

  lemma {:induction false} SectionsAre(slots: D.Slots)
    ensures forall i :: 0 <= i < |slots| && slots[i].Some? && IsSection(slots[i].value.key) ==>
        slots[i].value.key in Sections(slots)
    ensures forall k :: 0 <= k < |Sections(slots)| ==>
              IsSection(Sections(slots)[k]) && exists i: nat :: D.Holds(slots, Sections(slots)[k], i)
  {
    if slots != [] {
      var n := |slots| - 1;
      SectionsAre(slots[..n]);
      forall k | 0 <= k < |Sections(slots)| ensures exists i: nat :: D.Holds(slots, Sections(slots)[k], i) {
        if k < |Sections(slots[..n])| {
          var i: nat :| D.Holds(slots[..n], Sections(slots[..n])[k], i);
          assert D.Holds(slots, Sections(slots)[k], i);
        } else {
          assert D.Holds(slots, Sections(slots)[k], n);
        }
      }
      forall i | 0 <= i < |slots| && slots[i].Some? && IsSection(slots[i].value.key)
        ensures slots[i].value.key in Sections(slots)
      {
        if i < n { assert slots[i] == slots[..n][i]; }
      }
    }
  }

  // -------------------------------------------------------------- the result

  lemma {:induction false} InSectionOf(key: string, s: string)
    requires IsSection(s) && InSection(key, s)
    ensures !IsSection(key) && Until(key, {':'}) == s
  {
    assert key == s + key[|s|..];
    UntilOf(s, key[|s|..], {':'});
  }

  lemma {:induction false} SectionOf(key: string)
    requires !IsSection(key)
    ensures
      var s := Until(key, {':'});
      IsSection(s) && InSection(key, s)
  {
    UntilSplits(key, {':'});
    var s := Until(key, {':'});
    assert |s| == |key| ==> s == key;
  }

  lemma {:induction false} SectionsDiffer(slots: D.Slots)
    requires D.Distinct(slots)
    ensures forall i, j :: 0 <= i < j < |Sections(slots)| ==> Sections(slots)[i] != Sections(slots)[j]
  {
    if slots != [] {
      var front, last := slots[..|slots|-1], slots[|slots|-1];
      SectionsDiffer(front);
      SectionsAre(front);
      if last.Some? && IsSection(last.value.key) {
        forall i | 0 <= i < |Sections(front)| ensures Sections(front)[i] != last.value.key {
          var k: nat :| D.Holds(front, Sections(front)[i], k);
          assert slots[k] == front[k];
        }
      }
    }
  }

  lemma {:induction false} NamesOk(slots: D.Slots)
    requires WellKeyed(slots)
    ensures AllSectionsOk(slots, Sections(slots))
    ensures forall k :: 0 <= k < |Sections(slots)| ==> D.MapOf(slots)[Sections(slots)[k]] == None
  {
    var names := Sections(slots);
    SectionsAre(slots);
    SectionsDiffer(slots);
    forall k | 0 <= k < |names|
      ensures names[k] in D.MapOf(slots) && D.MapOf(slots)[names[k]] == None
      ensures SectionOk(names[k], None) && SectionEntriesOk(slots, names[k]) && (names[k] == [] ==> k == 0)
    {
      var i: nat :| D.Holds(slots, names[k], i);
      D.MapHolds(slots, names[k]);
      assert SlotOk(D.MapOf(slots), slots[i].value);
      forall j | 0 <= j < |slots| && slots[j].Some? && InSection(slots[j].value.key, names[k])
        ensures EntryOk(slots[j].value.key[|names[k]|+1..], slots[j].value.val)
      {
        InSectionOf(slots[j].value.key, names[k]);
        assert SlotOk(D.MapOf(slots), slots[j].value);
      }
    }
  }

  /** Every key is a section, or belongs to one. */
  lemma {:induction false} KeyHasSection(slots: D.Slots, key: string)
    requires WellKeyed(slots) && key in D.MapOf(slots)
    ensures
      var s := if IsSection(key) then key else Until(key, {':'});
      s in Sections(slots) && (key == s || InSection(key, s))
  {
    D.MapHolds(slots, key);
    var i: nat :| D.Holds(slots, key, i);
    assert SlotOk(D.MapOf(slots), slots[i].value);
    SectionsAre(slots);
    if !IsSection(key) {
      SectionOf(key);
      var s := Until(key, {':'});
      D.MapHolds(slots, s);
      var j: nat :| D.Holds(slots, s, j);
    }
  }

  lemma {:induction false} SameEntries(slots: D.Slots)
    requires WellKeyed(slots)
    ensures AfterSections(slots, Sections(slots)).entries == Loaded(D.MapOf(slots))
  {
    var names, m := Sections(slots), AfterSections(slots, Sections(slots)).entries;
    NamesOk(slots);
    SectionsAre(slots);
    SectionsCovered(slots, names);
    forall key | key in D.MapOf(slots) ensures key in m {
      KeyHasSection(slots, key);
      var s := if IsSection(key) then key else Until(key, {':'});
      var k :| 0 <= k < |names| && names[k] == s;
      assert Covers(slots, names[k], m);
    }
  }

  lemma {:induction false} NothingToPrint(slots: D.Slots)
    requires forall i :: 0 <= i < |slots| ==> slots[i].None?
    ensures BareLines(slots) == []
  {
    if slots != [] {
      NothingToPrint(slots[..|slots|-1]);
    }
  }

  lemma {:induction false} NoNamesNoSlots(slots: D.Slots)
    requires WellKeyed(slots) && Sections(slots) == []
    ensures forall i :: 0 <= i < |slots| ==> slots[i].None?
  {
    forall i | 0 <= i < |slots| ensures slots[i].None? {
      if slots[i].Some? {
        D.MapHolds(slots, slots[i].value.key);
        assert D.Holds(slots, slots[i].value.key, i);
        KeyHasSection(slots, slots[i].value.key);
      }
    }
  }

  /** Loading the dump of any dictionary whose keys survive gives its map, with each value as it is read back. */
  lemma {:induction false} DumpThenLoad(slots: D.Slots)
    requires WellKeyed(slots)
    ensures LoadText(DumpText(slots)) == Some(Loaded(D.MapOf(slots)))
  {
    var names := Sections(slots);
    if names == [] {
      NoNamesNoSlots(slots);
      D.AllFree(slots);
      NothingToPrint(slots);
    } else {
      NamesOk(slots);
      ReadsSections(slots, names);
      var l := AfterSections(slots, names);
      ReadsBlank(l);
      ReadsBoth(EMPTY, SectionTexts(slots, names), l, "\n", l);
      ReadsOn(EMPTY, DumpText(slots), l, []);
      assert DumpText(slots) + [] == DumpText(slots);
      SameEntries(slots);
    }
  }

  /** Every entry has a value, and one that survives. */
  ghost predicate ValuesFit(m: Entries) {
    forall key :: key in m && !IsSection(key) ==> m[key].Some? && ValueFits(m[key].value)
  }

  lemma {:induction false} ReadBackExact(val: Option<string>)
    ensures ReadBack(val) == val <==> val.Some? && ValueFits(val.value)
  {
    if val.Some? { ValueExact(val.value); }
  }

  /** The round trip is exact for exactly those dictionaries whose values fit. */
  lemma {:induction false} RoundTripExact(slots: D.Slots)
    requires WellKeyed(slots)
    ensures LoadText(DumpText(slots)) == Some(D.MapOf(slots)) <==> ValuesFit(D.MapOf(slots))
  {
    var m := D.MapOf(slots);
    DumpThenLoad(slots);
    forall key | key in m && !IsSection(key)
      ensures Loaded(m)[key] == m[key] <==> m[key].Some? && ValueFits(m[key].value)
    {
      ReadBackExact(m[key]);
    }
    if Loaded(m) == m {
      forall key | key in m && !IsSection(key) ensures m[key].Some? && ValueFits(m[key].value) {
        assert Loaded(m)[key] == m[key];
      }
    }
    if ValuesFit(m) {
      assert forall key :: key in m ==> Loaded(m)[key] == m[key];
      assert Loaded(m) == m;
    }
  }
}
