/** Exactly which dictionaries come back from a file as they were. */
module IniExact {
  import opened Common
  import opened IniLine
  import opened IniLineProofs
  import opened IniFile
  import opened IniRoundTrip
  import opened IniLines
  import opened IniLoose
  import opened IniCount
  import D = Dictionary

  // ------------------------------------------------- what a loaded map looks like

  predicate NameGood(name: string) {
    name == [] || (SectionFits(name) && |name| + 3 < LINE_SIZE)
  }

  /** A key without a colon is a section; one with a colon belongs to a section that is there, and survives. */
  ghost predicate KeyGood(m: Entries, key: string, clean: bool)
    requires key in m
  {
    if ':' !in key then m[key] == None && ']' !in key && (clean ==> NameGood(key))
    else
      var s := Until(key, {':'});
      m[key].Some? && s in m && |s| < |key| && KeyFits(key[|s|+1..])
  }

  ghost predicate AllGood(m: Entries, clean: bool) {
    forall key :: key in m ==> KeyGood(m, key, clean)
  }

  ghost predicate Good(l: Loading, clean: bool) {
    ':' !in l.section && ']' !in l.section && (clean ==> NameGood(l.section)) && AllGood(l.entries, clean)
  }

  lemma {:induction false} BodyWhole(s: string)
    requires ']' !in s
    ensures Until(s + "]", {']'}) == s
  {
    UntilOf(s, "]", {']'});
  }

  /** A title without a name is read as the first letter of the name before it. */
  lemma {:induction false} NamelessTitle(section: string) returns (name: string)
    ensures ParseLine(SectionLine([]), section) == Section(name) && name == Name(section, 2)
    ensures NameGood(section) ==> NameGood(name) && (name == [] <==> section == [])
    ensures ':' !in section && ']' !in section ==> ':' !in name && ']' !in name
  {
    LineEnds([]);
    BracketedRead(SectionLine([]), section);
    assert SectionLine([])[1..] == "]";
    name := Name(section, 2);
    if ':' !in section { NameKeeps(section, 2, ':'); }
    if ']' !in section { NameKeeps(section, 2, ']'); }
    if NameGood(section) {
      StripTrimmed(section);
      assert section != [] ==> Lower(section)[0] == section[0];
    }
  }

  /** What a title line is read as: a name without a colon and without a bracket, and one that fits if its text does. */
  lemma {:induction false} TitleRead(s: string, section: string) returns (name: string)
    requires ':' !in s && ':' !in section && ']' !in section
    ensures ParseLine(SectionLine(s), section) == Section(name)
    ensures ':' !in name && ']' !in name
    ensures ']' !in s && |s| + 3 < LINE_SIZE && NameGood(section) ==> NameGood(name)
  {
    if s == [] {
      name := NamelessTitle(section);
    } else {
      var body := SectionRead(s, section);
      var text := if body == [] then section else body;
      name := Name(text, |s| + 2);
      assert ':' !in s + "]";
      UntilKeeps(s + "]", {']'}, ':');
      UntilSplits(s + "]", {']'});
      assert ']' !in body;
      NameKeeps(text, |s| + 2, ':');
      NameKeeps(text, |s| + 2, ']');
      if ']' !in s {
        BodyWhole(s);
        NameOf(s);
        StripShorter(s);
        LowerKeeps(Strip(s));
      }
    }
  }

  lemma {:induction false} UntilColon(s: string, k: string)
    requires ':' !in s
    ensures Until(s + ":" + k, {':'}) == s && (s + ":" + k)[|s|+1..] == k && ':' in s + ":" + k
  {
    Associate(s, ":", k);
    UntilOf(s, ":" + k, {':'});
    assert (s + ":" + k)[|s|] == ':';
  }

  lemma {:induction false} TitleStep(l: Loading, s: string)
    requires l.carry == []
    ensures StepOn(l, SectionLine(s)) == Accept(l, SectionLine(s))
  {
    var line := SectionLine(s);
    LineEnds(s);
    TrimRightOf(line, []);
    assert line + [] == line && [] + line == line;
  }

  lemma {:induction false} GoodTitle(l: Loading, s: string, clean: bool)
    requires Good(l, clean) && l.carry == [] && ':' !in s && |s| + 3 < LINE_SIZE && (clean ==> ']' !in s)
    ensures
      var m := StepOn(l, SectionLine(s));
      Good(m, clean) && m.section in m.entries && m.carry == []
  {
    var name := TitleRead(s, l.section);
    TitleStep(l, s);
    var m := StepOn(l, SectionLine(s));
    assert m.entries == l.entries[name := None];
    forall key | key in m.entries ensures KeyGood(m.entries, key, clean) {
      if key != name { assert KeyGood(l.entries, key, clean); }
    }
  }

  lemma {:induction false} GoodItem(l: Loading, line: string, clean: bool)
    requires Good(l, clean) && l.section in l.entries && !LooksLikeSection(line)
    ensures
      var m := Accept(l, line);
      Good(m, clean) && m.section == l.section && m.section in m.entries
  {
    var status := ParseLine(line, l.section);
    var m := Accept(l, line);
    if status.Value? {
      KeysFit(line, l.section);
      UntilColon(l.section, status.key);
      var added := l.section + ":" + status.key;
      assert m.entries == l.entries[added := Some(status.value)];
      forall key | key in m.entries ensures KeyGood(m.entries, key, clean) {
        if key != added { assert KeyGood(l.entries, key, clean); }
      }
    }
  }

  /** An entry, or a blank line behind one that was carried over. */
  lemma {:induction false} GoodText(l: Loading, text: string, clean: bool)
    requires Good(l, clean) && (l.carry + text != [] ==> l.section in l.entries && !LooksLikeSection(l.carry + text))
    ensures
      var m := StepOn(l, text);
      Good(m, clean) && m.section == l.section && (l.section in l.entries ==> m.section in m.entries)
  {
    var line := l.carry + text;
    if line != [] && !Continued(line) {
      StripTrimRight(line);
      GoodItem(l, TrimRight(line), clean);
    }
  }

  /** Titles without a colon, nothing without a section, and the first section before its entries. */
  ghost predicate Orderly(lines: seq<Printed>, clean: bool) {
    forall i :: 0 <= i < |lines| ==>
      match lines[i]
      case Blank => true
      case Title(s) => 0 < i && ':' !in s && (clean ==> ']' !in s)
      case Item(_, _) => 1 < i && lines[1].Title?
      case Loose(_, _) => false
  }

  /** The section being read is there as soon as there was a title. */
  ghost predicate Known(l: Loading, lines: seq<Printed>, clean: bool) {
    && Good(l, clean)
    && (1 < |lines| && lines[1].Title? ==> l.section in l.entries)
    && (l.carry != [] ==> 1 < |lines| && lines[1].Title?)
  }

  lemma {:induction false} OrderlyFront(lines: seq<Printed>, clean: bool)
    requires |lines| > 0 && Orderly(lines, clean)
    ensures Orderly(lines[..|lines|-1], clean)
  {
  }

  lemma {:induction false} GoodStep(l: Loading, lines: seq<Printed>, clean: bool)
    requires |lines| > 0 && Known(l, lines[..|lines|-1], clean) && Orderly(lines, clean)
    requires
      var last := lines[|lines|-1];
      && Fits(l, Text(last)) && (last != Blank ==> l.carry == [])
      && (!last.Title? && l.carry + Text(last) != [] ==> !LooksLikeSection(l.carry + Text(last)))
    ensures Known(StepOn(l, Text(lines[|lines|-1])), lines, clean)
  {
    var last := lines[|lines|-1];
    match last {
      case Blank =>
        assert l.carry + [] == l.carry;
        GoodText(l, [], clean);
      case Title(s) =>
        LineEnds(s);
        GoodTitle(l, s, clean);
      case Item(k, v) => GoodText(l, Text(last), clean);
      case Loose(_, _) =>
    }
  }

  /** Nothing but good keys is read from such lines. */
  lemma {:induction false} GoodWalk(lines: seq<Printed>, clean: bool)
    requires Complete(lines) && NoneLoose(lines) && Orderly(lines, clean)
    ensures Known(Walk(lines).value, lines, clean)
    decreases |lines|
  {
    if |lines| > 0 {
      CompleteFront(lines);
      OrderlyFront(lines, clean);
      GoodWalk(lines[..|lines|-1], clean);
      GoodStep(Walk(lines[..|lines|-1]).value, lines, clean);
    }
  }

  // ------------------------------------------------------- the dumped lines

  ghost predicate Plainly(names: seq<string>, clean: bool) {
    forall i :: 0 <= i < |names| ==> ':' !in names[i] && (clean ==> ']' !in names[i])
  }

  ghost predicate Headed(lines: seq<Printed>, clean: bool) {
    Orderly(lines, clean) && (lines == [] || (1 < |lines| && lines[1].Title?))
  }

  lemma {:induction false} SectionHeaded(slots: D.Slots, s: string, clean: bool)
    requires ':' !in s && (clean ==> ']' !in s)
    ensures Headed(SectionLinesOf(slots, s), clean)
  {
    ItemsAreItems(slots, s);
    var items, lines := ItemsOf(slots, s), [Blank, Title(s)] + ItemsOf(slots, s) + [Blank];
    forall i | 2 <= i < |lines| - 1 ensures lines[i].Item? {
      assert lines[i] == items[i-2] && items[i-2] in items;
    }
    assert Orderly(lines, clean);
  }

  lemma {:induction false} BothHeaded(x: seq<Printed>, y: seq<Printed>, clean: bool)
    requires Headed(x, clean) && Headed(y, clean)
    ensures Headed(x + y, clean)
  {
    forall i | 0 <= i < |x + y| && i >= |x| ensures (x + y)[i] == y[i - |x|] {}
  }

  lemma {:induction false} SectionsHeaded(slots: D.Slots, names: seq<string>, clean: bool)
    requires Plainly(names, clean)
    ensures Headed(SectionsOf(slots, names), clean)
    decreases |names|
  {
    if |names| > 0 {
      var front, s := names[..|names|-1], names[|names|-1];
      SectionsHeaded(slots, front, clean);
      SectionHeaded(slots, s, clean);
      BothHeaded(SectionsOf(slots, front), SectionLinesOf(slots, s), clean);
    }
  }

  lemma {:induction false} DumpOrderly(slots: D.Slots, clean: bool)
    requires Sections(slots) != [] && Plainly(Sections(slots), clean)
    ensures Orderly(DumpLines(slots), clean)
  {
    var lines := SectionsOf(slots, Sections(slots));
    SectionsHeaded(slots, Sections(slots), clean);
    forall i | 0 <= i < |lines + [Blank]| && i >= |lines| ensures (lines + [Blank])[i] == Blank {}
  }

  /** If the dictionary comes back, its keys are good ones. */
  lemma {:induction false} KeysAreGood(slots: D.Slots)
    requires D.Distinct(slots) && Sections(slots) != [] && Returns(slots)
    ensures AllGood(D.MapOf(slots), true) && Plainly(Sections(slots), true)
  {
    var names, m := Sections(slots), D.MapOf(slots);
    var l := ReturnsComplete(slots);
    NamesOf(slots);
    DumpOrderly(slots, false);
    GoodWalk(DumpLines(slots), false);
    forall i | 0 <= i < |names| ensures ']' !in names[i] {
      assert names[i] in names && KeyGood(m, names[i], false);
    }
    DumpOrderly(slots, true);
    GoodWalk(DumpLines(slots), true);
  }

  // ------------------------------------------------------- names are read as they are

  /** Every title is a name that fits, or none. */
  ghost predicate Named(lines: seq<Printed>) {
    forall i :: 0 <= i < |lines| && lines[i].Title? ==> NameGood(lines[i].name)
  }

  lemma {:induction false} TitleReadsItself(l: Loading, s: string)
    requires l.carry == [] && ']' !in l.section && NameGood(s) && (s == [] ==> l.section == [])
    ensures
      var m := StepOn(l, SectionLine(s));
      m.section == s && m.entries == l.entries[s := None]
  {
    TitleStep(l, s);
    if s == [] { NamelessRead(); } else { SectionExact(s, l.section); }
  }

  lemma {:induction false} NamelessStep(l: Loading)
    requires l.carry == [] && NameGood(l.section) && l.section != []
    ensures
      var m := StepOn(l, SectionLine([]));
      m.section != [] && m.entries == l.entries[m.section := None]
  {
    TitleStep(l, []);
    var name := NamelessTitle(l.section);
  }

  /** A line that is no title keeps the section, and adds no key without a colon. */
  lemma {:induction false} TextKeepsSection(l: Loading, text: string)
    requires l.carry + text != [] ==> !LooksLikeSection(l.carry + text)
    ensures
      var m := StepOn(l, text);
      m.section == l.section && forall key :: key in m.entries && ':' !in key ==> key in l.entries
  {
    var line := l.carry + text;
    if line != [] && !Continued(line) {
      StripTrimRight(line);
      ParseStripped(TrimRight(line), line, l.section);
      var status := ParseLine(line, l.section);
      assert status.Value? ==> (l.section + ":" + status.key)[|l.section|] == ':';
    }
  }

  /** Unless the first title has no name, none is ever read without one. */
  ghost predicate EverNamed(l: Loading, lines: seq<Printed>) {
    [] !in l.entries && (1 < |lines| ==> l.section != [])
  }

  lemma {:induction false} NamedWalk(lines: seq<Printed>)
    requires Complete(lines) && NoneLoose(lines) && Orderly(lines, true) && Named(lines)
    requires 1 < |lines| ==> lines[1].Title? && lines[1].name != []
    ensures EverNamed(Walk(lines).value, lines)
    decreases |lines|
  {
    if |lines| > 0 {
      var front, p := lines[..|lines|-1], lines[|lines|-1];
      CompleteFront(lines);
      OrderlyFront(lines, true);
      GoodWalk(front, true);
      NamedWalk(front);
      var l := Walk(front).value;
      if p.Title? {
        if p.name == [] { NamelessStep(l); } else { TitleReadsItself(l, p.name); }
      } else {
        TextKeepsSection(l, Text(p));
      }
    }
  }

  /** The name of the last title. */
  function LastTitle(lines: seq<Printed>): string
    decreases |lines|
  {
    if lines == [] then []
    else if lines[|lines|-1].Title? then lines[|lines|-1].name
    else LastTitle(lines[..|lines|-1])
  }

  /** Only the first title may have no name. */
  ghost predicate FirstNameless(lines: seq<Printed>) {
    forall i :: 0 <= i < |lines| && lines[i] == Title([]) ==> i == 1 && lines[0] == Blank
  }

  lemma {:induction false} TrackWalk(lines: seq<Printed>)
    requires Complete(lines) && NoneLoose(lines) && Orderly(lines, true) && Named(lines) && FirstNameless(lines)
    ensures Walk(lines).value.section == LastTitle(lines)
    decreases |lines|
  {
    if |lines| > 0 {
      var front, p := lines[..|lines|-1], lines[|lines|-1];
      CompleteFront(lines);
      OrderlyFront(lines, true);
      TrackWalk(front);
      var l := Walk(front).value;
      if p.Title? {
        if p.name == [] { assert front == [Blank] && LastTitle([Blank]) == LastTitle([Blank][..0]); }
        TitleReadsItself(l, p.name);
      } else {
        TextKeepsSection(l, Text(p));
      }
    }
  }

  // ---------------------------------------------------------- where lines stand

  lemma {:induction false} LastTitleOver(x: seq<Printed>, y: seq<Printed>)
    requires forall p :: p in y ==> !p.Title?
    ensures LastTitle(x + y) == LastTitle(x)
    decreases |y|
  {
    if |y| == 0 {
      assert x + y == x;
    } else {
      assert (x + y)[..|x + y|-1] == x + y[..|y|-1];
      LastTitleOver(x, y[..|y|-1]);
    }
  }

  ghost predicate StandsAt(lines: seq<Printed>, n: nat, p: Printed, s: string) {
    n < |lines| && lines[n] == p && LastTitle(lines[..n]) == s
  }

  lemma {:induction false} StandsInMore(x: seq<Printed>, y: seq<Printed>, n: nat, p: Printed, s: string)
    requires StandsAt(x, n, p, s)
    ensures StandsAt(x + y, n, p, s)
  {
    assert (x + y)[..n] == x[..n];
  }

  lemma {:induction false} ItemStands(x: seq<Printed>, slots: D.Slots, s: string, p: Printed) returns (n: nat)
    requires Found(slots, s) && p in ItemsOf(slots, s)
    ensures StandsAt(x + SectionLinesOf(slots, s), n, p, s)
  {
    var items := ItemsOf(slots, s);
    var j :| 0 <= j < |items| && items[j] == p;
    n := |x| + 2 + j;
    ItemsAreItems(slots, s);
    StandsUnder(x, s, items, j);
  }

  lemma {:induction false} StandsUnder(x: seq<Printed>, s: string, items: seq<Printed>, j: nat)
    requires j < |items| && forall p :: p in items ==> p.Item?
    ensures StandsAt(x + ([Blank, Title(s)] + items + [Blank]), |x| + 2 + j, items[j], s)
  {
    Parts(x, s, items, j);
    forall q | q in items[..j] ensures !q.Title? { assert q in items; }
    LastTitleOver(x + [Blank] + [Title(s)], items[..j]);
    LastIsTitle(x + [Blank], s);
  }

  lemma {:induction false} Parts(x: seq<Printed>, s: string, items: seq<Printed>, j: nat)
    requires j < |items|
    ensures
      var lines := x + ([Blank, Title(s)] + items + [Blank]);
      lines[..|x| + 2 + j] == x + [Blank] + [Title(s)] + items[..j] && lines[|x| + 2 + j] == items[j]
  {
  }

  lemma {:induction false} LastIsTitle(x: seq<Printed>, s: string)
    ensures LastTitle(x + [Title(s)]) == s
  {
    assert (x + [Title(s)])[|x|] == Title(s);
  }

  /** Each entry's line stands under the title of its section. */
  lemma {:induction false} EntryStands(slots: D.Slots, names: seq<string>, s: string, p: Printed) returns (n: nat)
    requires s in names && Found(slots, s) && p in ItemsOf(slots, s)
    ensures StandsAt(SectionsOf(slots, names), n, p, s)
    decreases |names|
  {
    var front, last := names[..|names|-1], names[|names|-1];
    if s == last {
      n := ItemStands(SectionsOf(slots, front), slots, s, p);
    } else {
      n := EntryStands(slots, front, s, p);
      StandsInMore(SectionsOf(slots, front), SectionLinesOf(slots, last), n, p, s);
    }
  }

  lemma {:induction false} TitleStands(slots: D.Slots, names: seq<string>, s: string)
    requires s in names && Found(slots, s)
    ensures Title(s) in SectionsOf(slots, names)
    decreases |names|
  {
    if s == names[|names|-1] {
      assert Title(s) in SectionLinesOf(slots, s);
    } else {
      TitleStands(slots, names[..|names|-1], s);
    }
  }

  lemma {:induction false} TitleIsName(slots: D.Slots, names: seq<string>, s: string)
    requires Title(s) in SectionsOf(slots, names)
    ensures s in names && Found(slots, s)
    decreases |names|
  {
    var front, last := names[..|names|-1], names[|names|-1];
    ItemsAreItems(slots, last);
    if Title(s) in SectionsOf(slots, front) { TitleIsName(slots, front, s); }
  }

  lemma {:induction false} FirstIsFirst(slots: D.Slots, names: seq<string>)
    requires names != [] && Found(slots, names[0])
    ensures 1 < |SectionsOf(slots, names)| && SectionsOf(slots, names)[..2] == [Blank, Title(names[0])]
    decreases |names|
  {
    var front, last := names[..|names|-1], names[|names|-1];
    if |names| > 1 {
      FirstIsFirst(slots, front);
      assert SectionsOf(slots, names)[..2] == SectionsOf(slots, front)[..2];
    } else {
      assert SectionsOf(slots, front) == [];
      assert SectionsOf(slots, names) == SectionLinesOf(slots, last);
    }
  }

  lemma {:induction false} TitleInSection(slots: D.Slots, s: string, i: nat)
    requires i < |SectionLinesOf(slots, s)|
    ensures SectionLinesOf(slots, s)[i].Title? ==> i == 1 && SectionLinesOf(slots, s)[i] == Title(s)
  {
    var items := ItemsOf(slots, s);
    ItemsAreItems(slots, s);
    forall j | 0 <= j < |items| ensures SectionLinesOf(slots, s)[2 + j] == items[j] && items[j].Item? {
      assert items[j] in items;
    }
    assert 2 <= i < 2 + |items| ==> SectionLinesOf(slots, s)[2 + (i - 2)].Item?;
  }

  lemma {:induction false} OnceTitled(slots: D.Slots, names: seq<string>, i: nat)
    requires Names(names) && i < |SectionsOf(slots, names)| && SectionsOf(slots, names)[i] == Title([])
    requires names != [] && names[0] == []
    ensures i == 1
    decreases |names|
  {
    var front, last := names[..|names|-1], names[|names|-1];
    var x, y := SectionsOf(slots, front), SectionLinesOf(slots, last);
    if i < |x| {
      assert x[i] == Title([]);
      OnceTitled(slots, front, i);
    } else {
      assert (x + y)[i] == y[i - |x|];
      TitleInSection(slots, last, i - |x|);
      assert |names| == 1;
    }
  }

  // ------------------------------------------------- nothing is carried over

  lemma {:induction false} BlankTrims(v: string)
    requires TrimRight(v) == []
    ensures TrimRight(" " + v) == []
  {
    var b := TrimRightSplits(v);
    TrimRightOf([], " " + v);
    assert [] + (" " + v) == " " + v;
  }

  lemma {:induction false} ContinuedValue(k: string, v: string) returns (w: string)
    requires Continued(ValueLine(k, v))
    ensures TrimRight(ValueLine(k, v))[..|TrimRight(ValueLine(k, v))|-1] == ValueLine(k, w) && |w| < |v|
  {
    var line := ValueLine(k, v);
    var b := TrimRightSplits(v);
    if TrimRight(v) == [] {
      assert line == Padded(k) + " =" + (" " + v) by { BlankValue(Padded(k), v); }
      TrimRightPast(Padded(k) + " =", " " + v);
      BlankTrims(v);
      w := [];
    } else {
      assert line == Padded(k) + " = " + TrimRight(v) + b;
      TrimRightOf(Padded(k) + " = " + TrimRight(v), b);
      w := TrimRight(v)[..|TrimRight(v)|-1];
    }
  }

  lemma {:induction false} ValueShorter(w: string)
    ensures |ValueOf(Strip(w))| <= |w|
  {
    StripShorter(w);
    var s := Strip(w);
    QuotedWhen(s, '"');
    QuotedWhen(s, '\'');
    StripShorter(Until(s, {';', '#'}));
  }

  lemma {:induction false} NoSectionNoBracket(k: string, w: string)
    requires KeyFits(k)
    ensures LooksLikeSection(ValueLine(k, w)) <==> Bracketed(k, w)
  {
    BareLine(k, w);
  }

  /** What is known of line n. */
  ghost predicate Read(lines: seq<Printed>, n: nat)
    requires n < |lines| && Walk(lines).Some?
  {
    && Complete(lines[..n]) && Complete(lines[..n+1]) && !lines[n].Loose?
    && var l, p := Walk(lines[..n]).value, lines[n];
    && Fits(l, Text(p)) && Walk(lines[..n+1]).value == StepOn(l, Text(p))
    && Extends(StepOn(l, Text(p)).entries, Walk(lines).value.entries)
    && (p != Blank ==> l.carry == [])
    && (!p.Title? && l.carry + Text(p) != [] ==> !LooksLikeSection(l.carry + Text(p)))
  }

  lemma {:induction false} ReadAt(lines: seq<Printed>, n: nat)
    requires Complete(lines) && NoneLoose(lines) && n < |lines|
    ensures Read(lines, n)
  {
    var next := lines[..n+1];
    CompletePrefix(lines, n + 1);
    FullPrefix(lines, n + 1);
    CompleteFront(next);
    assert next[..|next|-1] == lines[..n] && next[|next|-1] == lines[n];
  }

  /** A line that was carried over is accepted, with a value that is too short. */
  lemma {:induction false} Accepted(l: Loading, k: string, w: string) returns (x: string)
    requires l.carry == ValueLine(k, w) && KeyFits(k) && !LooksLikeSection(ValueLine(k, w))
    requires !Continued(ValueLine(k, w))
    ensures StepOn(l, []).entries == l.entries[l.section + ":" + k := Some(x)] && |x| <= |w|
  {
    var line := ValueLine(k, w);
    x := ValueOf(Strip(w));
    ValueShorter(w);
    assert l.carry + [] == line;
    StepForm(l, [], line);
    AcceptedAs(l, k, w);
  }

  lemma {:induction false} AcceptedAs(l: Loading, k: string, w: string)
    requires KeyFits(k) && !LooksLikeSection(ValueLine(k, w))
    ensures
      Accept(l, TrimRight(ValueLine(k, w))).entries == l.entries[l.section + ":" + k := Some(ValueOf(Strip(w)))]
  {
    var line := ValueLine(k, w);
    StripTrimRight(line);
    ParseStripped(TrimRight(line), line, l.section);
    NoSectionNoBracket(k, w);
    LineRead(k, w, l.section);
  }

  lemma {:induction false} CarriedOn(l: Loading, k: string, w: string) returns (v: string)
    requires l.carry == ValueLine(k, w) && Continued(ValueLine(k, w))
    ensures StepOn(l, []) == l.(carry := ValueLine(k, v)) && |v| < |w|
  {
    assert l.carry + [] == ValueLine(k, w);
    StepForm(l, [], ValueLine(k, w));
    v := ContinuedValue(k, w);
  }

  /** Behind a line that is carried over there is a blank one. */
  lemma {:induction false} PendingIsBlank(lines: seq<Printed>, n: nat)
    requires Complete(lines) && NoneLoose(lines) && n < |lines| && Walk(lines[..n]).Some?
    requires Walk(lines[..n]).value.carry != []
    ensures
      var l := Walk(lines[..n]).value;
      && Complete(lines[..n+1]) && Walk(lines[..n+1]).value == StepOn(l, [])
      && Extends(StepOn(l, []).entries, Walk(lines).value.entries) && !LooksLikeSection(l.carry)
  {
    ReadAt(lines, n);
    var l := Walk(lines[..n]).value;
    assert lines[n] == Blank && l.carry + [] == l.carry;
  }

  lemma {:induction false} Resolves(lines: seq<Printed>, n: nat, k: string, w: string) returns (x: string)
    requires Complete(lines) && NoneLoose(lines) && Walk(lines).value.carry == [] && n <= |lines| && KeyFits(k)
    requires Complete(lines[..n]) && Walk(lines[..n]).value.carry == ValueLine(k, w)
    ensures
      var key := Walk(lines[..n]).value.section + ":" + k;
      key in Walk(lines).value.entries && Walk(lines).value.entries[key] == Some(x) && |x| <= |w|
    decreases |lines| - n
  {
    assert lines[..|lines|] == lines;
    assert ValueLine(k, w) != [] by { assert |ValueLine(k, w)| >= 3; }
    PendingIsBlank(lines, n);
    var l := Walk(lines[..n]).value;
    if Continued(ValueLine(k, w)) {
      var v := CarriedOn(l, k, w);
      x := Resolves(lines, n + 1, k, v);
    } else {
      x := Accepted(l, k, w);
    }
  }

  lemma {:induction false} Carried(l: Loading, k: string, v: string) returns (w: string)
    requires l.carry == [] && Continued(ValueLine(k, v))
    ensures StepOn(l, ValueLine(k, v)) == l.(carry := ValueLine(k, w)) && |w| < |v|
  {
    assert l.carry + ValueLine(k, v) == ValueLine(k, v);
    StepForm(l, ValueLine(k, v), ValueLine(k, v));
    w := ContinuedValue(k, v);
  }

  /** So no line is continued whose key comes back with its value. */
  lemma {:induction false} NotContinued(lines: seq<Printed>, n: nat, k: string, v: string)
    requires Complete(lines) && NoneLoose(lines) && Walk(lines).value.carry == [] && KeyFits(k)
    requires n < |lines| && lines[n] == Item(k, v) && Read(lines, n)
    requires
      var key := Walk(lines[..n]).value.section + ":" + k;
      key in Walk(lines).value.entries && Written(Walk(lines).value.entries[key]) == v
    ensures !Continued(ValueLine(k, v))
  {
    if Continued(ValueLine(k, v)) {
      var w := Carried(Walk(lines[..n]).value, k, v);
      var x := Resolves(lines, n + 1, k, w);
    }
  }

  // -------------------------------------------------------------- the result

  lemma {:induction false} NameIsFound(slots: D.Slots, s: string)
    requires NameGood(s) && s in D.MapOf(slots)
    ensures Found(slots, s)
  {
    assert Prefix(s, LINE_SIZE) == s;
  }

  lemma {:induction false} NewlineIn(k: string, v: string)
    ensures '\n' in ValueLine(k, v) <==> '\n' in k || '\n' in v
  {
    var line := ValueLine(k, v);
    assert forall i :: 0 <= i < |k| ==> line[i] == k[i];
    assert forall i :: 0 <= i < |v| ==> line[|Padded(k)| + 3 + i] == v[i];
  }

  /** What is known of a dictionary with sections that comes back. */
  ghost predicate ComesBack(slots: D.Slots, lines: seq<Printed>) {
    && D.Distinct(slots) && CleanSlots(slots) && lines == DumpLines(slots) && Sections(slots) != []
    && Complete(lines) && NoneLoose(lines) && Orderly(lines, true) && Named(lines) && FirstNameless(lines)
    && Walk(lines).value.carry == [] && Walk(lines).value.entries == D.MapOf(slots) && AllGood(D.MapOf(slots), true)
    && forall s :: s in Sections(slots) ==> NameGood(s) && Found(slots, s)
  }

  lemma {:induction false} NamesGood(slots: D.Slots)
    requires D.Distinct(slots) && Sections(slots) != [] && Returns(slots)
    ensures forall s :: s in Sections(slots) ==> NameGood(s) && Found(slots, s)
    ensures Named(DumpLines(slots))
  {
    var names, lines := Sections(slots), DumpLines(slots);
    KeysAreGood(slots);
    NamesOf(slots);
    forall s | s in names ensures NameGood(s) && Found(slots, s) {
      assert KeyGood(D.MapOf(slots), s, true);
      NameIsFound(slots, s);
    }
    forall i | 0 <= i < |lines| && lines[i].Title? ensures NameGood(lines[i].name) {
      assert lines[i] in SectionsOf(slots, names);
      TitleIsName(slots, names, lines[i].name);
    }
  }

  lemma {:induction false} DumpBegins(slots: D.Slots)
    requires Sections(slots) != [] && Found(slots, Sections(slots)[0])
    ensures
      var lines := DumpLines(slots);
      1 < |lines| && lines[0] == Blank && lines[1] == Title(Sections(slots)[0])
  {
    var lines := SectionsOf(slots, Sections(slots));
    FirstIsFirst(slots, Sections(slots));
    assert lines[0] == lines[..2][0] && lines[1] == lines[..2][1];
  }

  lemma {:induction false} NoNamelessTitle(slots: D.Slots, i: nat)
    requires D.Distinct(slots) && Sections(slots) != []
    requires i < |DumpLines(slots)| && DumpLines(slots)[i] == Title([])
    requires [] in D.MapOf(slots) ==> Sections(slots)[0] == []
    ensures i == 1
  {
    var names := Sections(slots);
    NamesOf(slots);
    assert SectionsOf(slots, names)[i] == Title([]) && Title([]) in SectionsOf(slots, names);
    TitleIsName(slots, names, []);
    OnceTitled(slots, names, i);
  }

  /** A section without a name is the first. */
  lemma {:induction false} NamelessIsFirst(slots: D.Slots)
    requires D.Distinct(slots) && Sections(slots) != [] && Returns(slots)
    ensures [] in D.MapOf(slots) ==> Sections(slots)[0] == []
  {
    var l := ReturnsComplete(slots);
    KeysAreGood(slots);
    NamesGood(slots);
    DumpOrderly(slots, true);
    assert Sections(slots)[0] in Sections(slots);
    DumpBegins(slots);
    if Sections(slots)[0] != [] { NamedWalk(DumpLines(slots)); }
  }

  lemma {:induction false} OnlyFirstNameless(slots: D.Slots)
    requires D.Distinct(slots) && Sections(slots) != [] && Returns(slots)
    ensures FirstNameless(DumpLines(slots))
  {
    var lines := DumpLines(slots);
    NamelessIsFirst(slots);
    NamesGood(slots);
    assert Sections(slots)[0] in Sections(slots);
    DumpBegins(slots);
    forall i | 0 <= i < |lines| && lines[i] == Title([]) ensures i == 1 && lines[0] == Blank {
      NoNamelessTitle(slots, i);
    }
  }

  lemma {:induction false} WhatComesBack(slots: D.Slots)
    requires D.Distinct(slots) && Sections(slots) != [] && Returns(slots)
    ensures ComesBack(slots, DumpLines(slots))
  {
    var l := ReturnsComplete(slots);
    ReturnedIsClean(slots);
    KeysAreGood(slots);
    NamesGood(slots);
    OnlyFirstNameless(slots);
    DumpOrderly(slots, true);
  }

  lemma {:induction false} SectionHolds(slots: D.Slots, lines: seq<Printed>, s: string)
    requires ComesBack(slots, lines) && s in D.MapOf(slots) && IsSection(s)
    ensures SectionOk(s, D.MapOf(slots)[s]) && s in Sections(slots)
  {
    NamesOf(slots);
    assert KeyGood(D.MapOf(slots), s, true);
    D.MapHolds(slots, s);
    var i: nat :| D.Holds(slots, s, i);
  }

  lemma {:induction false} LineOfEntry(slots: D.Slots, lines: seq<Printed>, e: D.Entry, s: string) returns (n: nat)
    requires ComesBack(slots, lines) && Some(e) in slots && InSection(e.key, s) && s in Sections(slots)
    ensures StandsAt(lines, n, ItemOf(e, s), s)
  {
    EntryIsItem(slots, s, e);
    n := EntryStands(slots, Sections(slots), s, ItemOf(e, s));
    StandsInMore(SectionsOf(slots, Sections(slots)), [Blank], n, ItemOf(e, s), s);
  }

  /** Its line is read under its section, and all that was read is the dictionary. */
  ghost predicate ReadUnder(slots: D.Slots, lines: seq<Printed>, n: nat, p: Printed, s: string) {
    && IniLines.Plain(lines) && Complete(lines) && NoneLoose(lines) && n < |lines| && lines[n] == p && Read(lines, n)
    && Walk(lines).value.carry == [] && Walk(lines).value.entries == D.MapOf(slots)
    && Walk(lines[..n]).value.section == s
  }

  lemma {:induction false} BackLine(slots: D.Slots, lines: seq<Printed>, n: nat, p: Printed, s: string)
    requires ComesBack(slots, lines) && StandsAt(lines, n, p, s)
    ensures ReadUnder(slots, lines, n, p, s)
  {
    TrackPrefix(lines, n);
    ReadAt(lines, n);
    PlainDump(slots);
  }

  /** The entry's line is read where it stands, for its own key. */
  lemma {:induction false} EntryHolds(slots: D.Slots, lines: seq<Printed>, e: D.Entry, s: string)
    requires ComesBack(slots, lines) && Some(e) in slots && InSection(e.key, s) && s in Sections(slots)
    requires e.key in D.MapOf(slots) && D.MapOf(slots)[e.key] == e.val && KeyFits(e.key[|s|+1..])
    ensures EntryOk(e.key[|s|+1..], e.val)
  {
    var n := LineOfEntry(slots, lines, e, s);
    BackLine(slots, lines, n, ItemOf(e, s), s);
    EntryReadBack(slots, lines, n, e, s);
  }

  lemma {:induction false} KeyParts(key: string, s: string)
    requires InSection(key, s)
    ensures s + ":" + key[|s|+1..] == key
  {
  }

  lemma {:induction false} EntryReadBack(slots: D.Slots, lines: seq<Printed>, n: nat, e: D.Entry, s: string)
    requires InSection(e.key, s) && ReadUnder(slots, lines, n, ItemOf(e, s), s)
    requires e.key in D.MapOf(slots) && D.MapOf(slots)[e.key] == e.val && KeyFits(e.key[|s|+1..])
    ensures EntryOk(e.key[|s|+1..], e.val)
  {
    KeyParts(e.key, s);
    ItemHolds(lines, n, e.key[|s|+1..], e.val);
  }

  lemma {:induction false} ItemHolds(lines: seq<Printed>, n: nat, k: string, val: Option<string>)
    requires Complete(lines) && NoneLoose(lines) && Walk(lines).value.carry == [] && KeyFits(k) && IniLines.Plain(lines)
    requires n < |lines| && lines[n] == Item(k, Written(val)) && Read(lines, n)
    requires
      var key := Walk(lines[..n]).value.section + ":" + k;
      key in Walk(lines).value.entries && Walk(lines).value.entries[key] == val
    ensures EntryOk(k, val)
  {
    var v := Written(val);
    NotContinued(lines, n, k, v);
    assert [] + ValueLine(k, v) == ValueLine(k, v);
    NoSectionNoBracket(k, v);
    assert lines[n] in lines;
    EntryFits(k, val);
  }

  lemma {:induction false} TrackPrefix(lines: seq<Printed>, n: nat)
    requires Complete(lines) && NoneLoose(lines) && Orderly(lines, true) && Named(lines) && FirstNameless(lines)
    requires n <= |lines|
    ensures Complete(lines[..n]) && Walk(lines[..n]).value.section == LastTitle(lines[..n])
  {
    CompletePrefix(lines, n);
    assert Orderly(lines[..n], true) && Named(lines[..n]) && FirstNameless(lines[..n]);
    TrackWalk(lines[..n]);
  }

  lemma {:induction false} EntryIsItem(slots: D.Slots, s: string, e: D.Entry)
    requires Some(e) in slots && InSection(e.key, s)
    ensures ItemOf(e, s) in ItemsOf(slots, s)
    decreases |slots|
  {
    var front, last := slots[..|slots|-1], slots[|slots|-1];
    assert slots == front + [last];
    if Some(e) in front { EntryIsItem(front, s, e); }
  }

  lemma {:induction false} EntryFits(k: string, val: Option<string>)
    requires KeyFits(k) && !Bracketed(k, Written(val)) && !Continued(ValueLine(k, Written(val)))
    requires '\n' !in ValueLine(k, Written(val)) && |ValueLine(k, Written(val))| + 1 < LINE_SIZE
    ensures EntryOk(k, val)
  {
    var v := Written(val);
    var line := ValueLine(k, v);
    BareLine(k, v);
    TrimmedBothWays(line);
    var b := TrimRightSplits(line);
    assert TrimLeft(TrimRight(line)) == Bare(k, v);
    assert line[0] == k[0] && TrimLeft(line) == line;
    NewlineIn(k, v);
  }

  /** An entry with a good key belongs to a section that is there. */
  lemma {:induction false} GoodEntry(m: Entries, key: string)
    requires AllGood(m, true) && key in m && !IsSection(key)
    ensures
      var s := Until(key, {':'});
      s in m && IsSection(s) && InSection(key, s) && KeyFits(key[|s|+1..])
  {
    assert KeyGood(m, key, true);
    IniRoundTrip.SectionOf(key);
  }

  lemma {:induction false} EntrySlotHolds(slots: D.Slots, lines: seq<Printed>, e: D.Entry)
    requires ComesBack(slots, lines) && Some(e) in slots && e.key in D.MapOf(slots) && D.MapOf(slots)[e.key] == e.val
    requires !IsSection(e.key)
    ensures SlotOk(D.MapOf(slots), e)
  {
    var s := Until(e.key, {':'});
    GoodEntry(D.MapOf(slots), e.key);
    assert s in Sections(slots) by { SectionHolds(slots, lines, s); }
    EntryHolds(slots, lines, e, s);
  }

  lemma {:induction false} SlotHolds(slots: D.Slots, lines: seq<Printed>, e: D.Entry)
    requires ComesBack(slots, lines) && Some(e) in slots && e.key in D.MapOf(slots) && D.MapOf(slots)[e.key] == e.val
    ensures SlotOk(D.MapOf(slots), e)
  {
    if IsSection(e.key) { SectionHolds(slots, lines, e.key); } else { EntrySlotHolds(slots, lines, e); }
  }

  lemma {:induction false} BackIsWellKeyed(slots: D.Slots)
    requires D.Distinct(slots) && Sections(slots) != [] && Returns(slots)
    ensures WellKeyed(slots)
  {
    WhatComesBack(slots);
    NamelessIsFirst(slots);
    forall i | 0 <= i < |slots| && slots[i].Some? ensures SlotOk(D.MapOf(slots), slots[i].value) {
      KeyIsLoaded(slots, i);
      D.MapHolds(slots, slots[i].value.key);
      assert D.Holds(slots, slots[i].value.key, i);
      SlotHolds(slots, DumpLines(slots), slots[i].value);
    }
  }

  /** For every dictionary: it comes back from its file exactly if its keys and its values survive. */
  lemma {:induction false} ComesBackExactly(slots: D.Slots)
    requires D.Distinct(slots)
    ensures LoadText(DumpText(slots)) == Some(D.MapOf(slots)) <==> WellKeyed(slots) && ValuesFit(D.MapOf(slots))
  {
    if Returns(slots) {
      if Sections(slots) == [] {
        forall i | 0 <= i < |slots| ensures slots[i].None? {
          if slots[i].Some? { LooseNeverReturns(slots, i); }
        }
        D.AllFree(slots);
      } else {
        BackIsWellKeyed(slots);
      }
    }
    if WellKeyed(slots) { RoundTripExact(slots); }
  }

  /** The same of the program: a dictionary saved and loaded again is what it was exactly then. */
  method SaveAndLoad(d: D.Dictionary) returns (text: string, again: D.Dictionary?)
    requires d.Valid()
    ensures text == DumpText(d.slots)
    ensures again != null ==> fresh(again) && again.Valid()
    ensures again != null && again.Map() == d.Map() <==> WellKeyed(d.slots) && ValuesFit(d.Map())
  {
    ComesBackExactly(d.slots);
    text := DumpIni(d);
    again := IniparserLoad(Some(text), false);
  }
}
