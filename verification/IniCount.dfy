/** How many keys the loader can get out of a dumped file, and what follows if it gets them all. */
module IniCount {
  import opened Common
  import opened IniLine
  import opened IniLineProofs
  import opened IniFile
  import opened IniRoundTrip
  import opened IniLines
  import D = Dictionary

  // ------------------------------------------------------------ one key a line

  /** A line that counts: every line that is not blank, or only the entries that hold a closing bracket. */
  predicate Counts(p: Printed, all: bool) {
    if all then p != Blank else p.Item? && ']' in Text(p)
  }

  function Count(lines: seq<Printed>, all: bool): nat
    decreases |lines|
  {
    if lines == [] then 0
    else Count(lines[..|lines|-1], all) + if Counts(lines[|lines|-1], all) then 1 else 0
  }

  lemma {:induction false} CountSnoc(front: seq<Printed>, last: Printed, all: bool)
    ensures Count(front + [last], all) == Count(front, all) + if Counts(last, all) then 1 else 0
  {
    assert (front + [last])[..|front|] == front;
  }

  lemma {:induction false} CountBoth(x: seq<Printed>, y: seq<Printed>, all: bool)
    ensures Count(x + y, all) == Count(x, all) + Count(y, all)
    decreases |y|
  {
    if |y| == 0 {
      assert x + y == x;
    } else {
      var front, last := y[..|y|-1], y[|y|-1];
      assert x + y == x + front + [last] && front + [last] == y;
      CountBoth(x, front, all);
      CountSnoc(x + front, last, all);
      CountSnoc(front, last, all);
    }
  }

  /** The keys that are there, and the one that a line carried over may still give. */
  function Gained(l: Loading): nat {
    |l.entries| + if l.carry != [] then 1 else 0
  }

  lemma {:induction false} MapGrows(m: Entries, key: string, val: Option<string>)
    ensures |m[key := val]| == |m| + if key in m then 0 else 1
  {
    var n := m[key := val];
    assert n.Keys == m.Keys + {key};
    assert |n.Keys| == |n| && |m.Keys| == |m|;
  }

  ghost predicate Extends(m: Entries, n: Entries) {
    forall key :: key in m ==> key in n && n[key] == m[key]
  }

  /** A line adds at most one key, and changes no other if it adds one. */
  lemma {:induction false} AcceptAdds(l: Loading, line: string)
    ensures
      var m := Accept(l, line);
      && m.carry == [] && |m.entries| <= |l.entries| + 1
      && (|m.entries| == |l.entries| + 1 ==> Extends(l.entries, m.entries))
  {
    match ParseLine(line, l.section)
    case Section(name) => MapGrows(l.entries, name, None);
    case Value(key, value) => MapGrows(l.entries, l.section + ":" + key, Some(value));
    case _ =>
  }

  lemma {:induction false} TextOfBlank(p: Printed)
    ensures Text(p) == [] ==> p == Blank || p.Loose?
    ensures p == Blank ==> Text(p) == []
  {
    match p
    case Blank =>
    case Title(s) => LineEnds(s);
    case Item(k, v) => assert |Text(p)| >= 3;
    case Loose(_, _) =>
  }

  lemma {:induction false} StepGains(l: Loading, p: Printed)
    requires !p.Loose?
    ensures
      var m := StepOn(l, Text(p));
      && Gained(m) <= Gained(l) + (if p != Blank && l.carry == [] then 1 else 0)
      && (Gained(m) == Gained(l) + (if p != Blank then 1 else 0) ==> Extends(l.entries, m.entries))
  {
    TextOfBlank(p);
    AcceptAdds(l, TrimRight(l.carry + Text(p)));
  }

  /** Every line that is not blank has given a key of its own, or is being carried over. */
  ghost predicate Full(lines: seq<Printed>) {
    Walk(lines).Some? && Gained(Walk(lines).value) == Count(lines, true)
  }

  ghost predicate NoneLoose(lines: seq<Printed>) {
    forall p :: p in lines ==> !p.Loose?
  }

  lemma {:induction false} WalkGains(lines: seq<Printed>)
    requires Walk(lines).Some? && NoneLoose(lines)
    ensures Gained(Walk(lines).value) <= Count(lines, true)
    decreases |lines|
  {
    if |lines| > 0 {
      WalkGains(lines[..|lines|-1]);
      StepGains(Walk(lines[..|lines|-1]).value, lines[|lines|-1]);
    }
  }

  /** So it was before, nothing was written over, and no line that counts was joined to another. */
  lemma {:induction false} FullFront(lines: seq<Printed>)
    requires |lines| > 0 && Full(lines) && NoneLoose(lines)
    ensures
      var front, last := lines[..|lines|-1], lines[|lines|-1];
      && Full(front) && NoneLoose(front) && !last.Loose?
      && Extends(Walk(front).value.entries, Walk(lines).value.entries)
      && (last != Blank ==> Walk(front).value.carry == [])
  {
    WalkGains(lines[..|lines|-1]);
    StepGains(Walk(lines[..|lines|-1]).value, lines[|lines|-1]);
  }

  lemma {:induction false} FullPrefix(lines: seq<Printed>, n: nat)
    requires Full(lines) && NoneLoose(lines) && n <= |lines|
    ensures Full(lines[..n]) && NoneLoose(lines[..n])
    ensures Extends(Walk(lines[..n]).value.entries, Walk(lines).value.entries)
    decreases |lines|
  {
    if n == |lines| {
      assert lines[..n] == lines;
    } else {
      FullFront(lines);
      FullPrefix(lines[..|lines|-1], n);
      assert lines[..|lines|-1][..n] == lines[..n];
    }
  }

  // ---------------------------------------------------------- closing brackets

  predicate Bracketing(key: string, val: Option<string>) {
    ']' in key || (val.Some? && ']' in val.value)
  }

  function Marked(m: Entries): set<string> {
    set key | key in m && Bracketing(key, m[key])
  }

  function Brackets(l: Loading): nat {
    |Marked(l.entries)| + if ']' in l.carry then 1 else 0
  }

  lemma {:induction false} MarkedGrows(m: Entries, key: string, val: Option<string>)
    ensures |Marked(m[key := val])| <= |Marked(m)| + if Bracketing(key, val) then 1 else 0
  {
    var was, now := Marked(m), Marked(m[key := val]);
    if Bracketing(key, val) {
      assert now <= was + {key};
      assert |was + {key}| <= |was| + 1;
      SubsetSize(now, was + {key});
    } else {
      assert now <= was;
      SubsetSize(now, was);
    }
  }

  lemma {:induction false} SubsetSize<T>(x: set<T>, y: set<T>)
    requires x <= y
    ensures |x| <= |y|
  {
    if x != {} {
      var e :| e in x;
      SubsetSize(x - {e}, y - {e});
    }
  }

  predicate LooksLikeSection(line: string) {
    var bare := Strip(line);
    bare != [] && bare[0] == '[' && bare[|bare|-1] == ']'
  }

  lemma {:induction false} SectionHasBracket(line: string)
    requires LooksLikeSection(line)
    ensures ']' in line
  {
    if ']' !in line { StripKeeps(line, ']'); }
  }

  /** Sections have no closing bracket, so a line taken for a section loses its own. */
  lemma {:induction false} AcceptMarks(l: Loading, line: string)
    requires ']' !in l.section
    ensures
      var m := Accept(l, line);
      && ']' !in m.section && m.carry == []
      && |Marked(m.entries)| <= |Marked(l.entries)| + if ']' in line && !LooksLikeSection(line) then 1 else 0
  {
    var bare := Strip(line);
    match ParseLine(line, l.section)
    case Section(name) =>
      var body := Until(bare[1..], {']'});
      UntilSplits(bare[1..], {']'});
      SectionNames(body, |bare|);
      SectionNames(l.section, |bare|);
      MarkedGrows(l.entries, name, None);
    case Value(key, value) =>
      if ']' !in line { ParseKeeps(line, l.section, ']'); }
      MarkedGrows(l.entries, l.section + ":" + key, Some(value));
    case _ =>
  }

  lemma {:induction false} ContinuedIsNoSection(text: string)
    requires Continued(text)
    ensures !LooksLikeSection(text)
  {
    StripTrimRight(text);
    var t := TrimRight(text);
    var a := TrimLeftSplits(text);
    assert TrimRight(TrimLeft(text)) == Strip(text);
    var c, d := StripSplits(text);
    var b := TrimRightSplits(text);
    TrimmedBothWays(text);
    var e := TrimLeftSplits(t);
    assert TrimLeft(t) == Strip(text) && t == e + TrimLeft(t);
    assert TrimLeft(t) == [] ==> t == e;
  }

  lemma {:induction false} TitleNotContinued(s: string)
    ensures !Continued(SectionLine(s)) && LooksLikeSection(SectionLine(s))
  {
    var line := SectionLine(s);
    LineEnds(s);
    TrimRightOf(line, []);
    assert line + [] == line;
    StripTrimmed(line);
  }

  lemma {:induction false} TitleMarks(l: Loading, s: string)
    requires ']' !in l.section && l.carry == []
    ensures
      var m := StepOn(l, SectionLine(s));
      ']' !in m.section && Brackets(m) <= Brackets(l)
  {
    var line := SectionLine(s);
    TitleNotContinued(s);
    assert [] + line == line;
    StepForm(l, line, line);
    StripTrimRight(line);
    AcceptMarks(l, TrimRight(line));
  }

  /** A line that is carried over keeps its brackets, and one that is accepted only if it is no section. */
  lemma {:induction false} TextMarks(l: Loading, text: string, line: string)
    requires ']' !in l.section && line == l.carry + text && line != [] && (text == [] || l.carry == [])
    ensures
      var m := StepOn(l, text);
      && ']' !in m.section
      && Brackets(m) <= |Marked(l.entries)| + if ']' in line && !LooksLikeSection(line) then 1 else 0
  {
    var b := TrimRightSplits(line);
    StepForm(l, text, line);
    if Continued(line) {
      ContinuedIsNoSection(line);
      assert ']' in TrimRight(line)[..|TrimRight(line)|-1] ==> ']' in line;
    } else {
      StripTrimRight(line);
      assert ']' in TrimRight(line) ==> ']' in line;
      AcceptMarks(l, TrimRight(line));
    }
  }

  /** No more entries get a closing bracket than lines have one, and fewer if a line is taken for a section. */
  lemma {:induction false} StepMarks(l: Loading, p: Printed)
    requires !p.Loose? && ']' !in l.section && (p != Blank ==> l.carry == [])
    ensures
      var m := StepOn(l, Text(p));
      && ']' !in m.section && Brackets(m) <= Brackets(l) + (if Counts(p, false) then 1 else 0)
      && (Brackets(m) == Brackets(l) + (if Counts(p, false) then 1 else 0) && !p.Title? && l.carry + Text(p) != [] ==>
            !LooksLikeSection(l.carry + Text(p)))
  {
    if p.Title? {
      TitleMarks(l, p.name);
    } else {
      var line := l.carry + Text(p);
      assert line == if p == Blank then l.carry else Text(p);
      if line != [] {
        TextMarks(l, Text(p), line);
        if LooksLikeSection(line) { SectionHasBracket(line); }
      } else {
        StepForm(l, Text(p), line);
      }
    }
  }

  /** Nor has a closing bracket been lost. */
  ghost predicate Complete(lines: seq<Printed>) {
    Full(lines) && Brackets(Walk(lines).value) == Count(lines, false)
  }

  lemma {:induction false} WalkMarks(lines: seq<Printed>)
    requires Full(lines) && NoneLoose(lines)
    ensures ']' !in Walk(lines).value.section && Brackets(Walk(lines).value) <= Count(lines, false)
    decreases |lines|
  {
    if |lines| > 0 {
      FullFront(lines);
      WalkMarks(lines[..|lines|-1]);
      StepMarks(Walk(lines[..|lines|-1]).value, lines[|lines|-1]);
    }
  }

  /** So it was before, and no entry was taken for a section. */
  lemma {:induction false} CompleteFront(lines: seq<Printed>)
    requires |lines| > 0 && Complete(lines) && NoneLoose(lines)
    ensures
      var front, last := lines[..|lines|-1], lines[|lines|-1];
      && Complete(front) && NoneLoose(front) && !last.Loose? && ']' !in Walk(front).value.section
      && (last != Blank ==> Walk(front).value.carry == [])
      && (!last.Title? && Walk(front).value.carry + Text(last) != [] ==>
            !LooksLikeSection(Walk(front).value.carry + Text(last)))
  {
    FullFront(lines);
    WalkMarks(lines[..|lines|-1]);
    StepMarks(Walk(lines[..|lines|-1]).value, lines[|lines|-1]);
  }

  lemma {:induction false} CompletePrefix(lines: seq<Printed>, n: nat)
    requires Complete(lines) && NoneLoose(lines) && n <= |lines|
    ensures Complete(lines[..n]) && NoneLoose(lines[..n])
    decreases |lines|
  {
    if n == |lines| {
      assert lines[..n] == lines;
    } else {
      CompleteFront(lines);
      CompletePrefix(lines[..|lines|-1], n);
      assert lines[..|lines|-1][..n] == lines[..n];
    }
  }

  // -------------------------------------------------- the keys of the lines

  /** The keys of the entries that are printed under section s, or of those that count. */
  function KeysOf(slots: D.Slots, s: string, all: bool): set<string>
    decreases |slots|
  {
    if slots == [] then {}
    else
      var last := slots[|slots|-1];
      KeysOf(slots[..|slots|-1], s, all) +
        if last.Some? && InSection(last.value.key, s) && Counts(ItemOf(last.value, s), all) then
          {last.value.key}
        else {}
  }

  ghost predicate From(slots: D.Slots, s: string, all: bool, key: string, i: nat) {
    D.Holds(slots, key, i) && InSection(key, s) && Counts(ItemOf(slots[i].value, s), all)
  }

  lemma {:induction false} KeysFrom(slots: D.Slots, s: string, all: bool, key: string)
    requires key in KeysOf(slots, s, all)
    ensures exists i: nat :: From(slots, s, all, key, i)
    decreases |slots|
  {
    var front := slots[..|slots|-1];
    if key in KeysOf(front, s, all) {
      KeysFrom(front, s, all, key);
      var i: nat :| From(front, s, all, key, i);
      assert From(slots, s, all, key, i);
    } else {
      assert From(slots, s, all, key, |slots| - 1);
    }
  }

  lemma {:induction false} NewKey(slots: D.Slots, s: string, all: bool)
    requires D.Distinct(slots) && |slots| > 0 && slots[|slots|-1].Some?
    ensures slots[|slots|-1].value.key !in KeysOf(slots[..|slots|-1], s, all)
  {
    var front, key := slots[..|slots|-1], slots[|slots|-1].value.key;
    forall i: nat ensures !From(front, s, all, key, i) {
      assert i < |front| ==> front[i] == slots[i];
    }
    if key in KeysOf(front, s, all) { KeysFrom(front, s, all, key); }
  }

  lemma {:induction false} KeysCount(slots: D.Slots, s: string, all: bool)
    requires D.Distinct(slots)
    ensures |KeysOf(slots, s, all)| == Count(ItemsOf(slots, s), all)
    decreases |slots|
  {
    if |slots| > 0 {
      var front, last := slots[..|slots|-1], slots[|slots|-1];
      KeysCount(front, s, all);
      if last.Some? && InSection(last.value.key, s) {
        var item := ItemOf(last.value, s);
        CountSnoc(ItemsOf(front, s), item, all);
        NewKey(slots, s, all);
      } else {
        assert ItemsOf(front, s) + [] == ItemsOf(front, s);
      }
    }
  }

  function SectionKeys(slots: D.Slots, s: string, all: bool): set<string> {
    if Found(slots, s) then (if all then {s} else {}) + KeysOf(slots, s, all) else {}
  }

  lemma {:induction false} KeyOfSection(slots: D.Slots, s: string, all: bool, key: string)
    requires key in SectionKeys(slots, s, all) && IsSection(s)
    ensures s == if IsSection(key) then key else Until(key, {':'})
    ensures key == s || (!IsSection(key) && exists i: nat :: From(slots, s, all, key, i))
  {
    if key in KeysOf(slots, s, all) {
      KeysFrom(slots, s, all, key);
      InSectionOf(key, s);
    }
  }

  lemma {:induction false} SectionKeysCount(slots: D.Slots, s: string, all: bool)
    requires D.Distinct(slots) && IsSection(s)
    ensures |SectionKeys(slots, s, all)| == Count(SectionLinesOf(slots, s), all)
  {
    if Found(slots, s) {
      var head, items := [Blank, Title(s)], ItemsOf(slots, s);
      KeysCount(slots, s, all);
      CountBoth(head, items, all);
      CountSnoc(head + items, Blank, all);
      CountSnoc([Blank], Title(s), all);
      CountSnoc([], Blank, all);
      assert [] + [Blank] == [Blank] && [Blank] + [Title(s)] == head;
      if s in KeysOf(slots, s, all) { KeysFrom(slots, s, all, s); }
    }
  }

  function AllKeys(slots: D.Slots, names: seq<string>, all: bool): set<string>
    decreases |names|
  {
    if names == [] then {} else AllKeys(slots, names[..|names|-1], all) + SectionKeys(slots, names[|names|-1], all)
  }

  lemma {:induction false} AllKeysFrom(slots: D.Slots, names: seq<string>, all: bool, key: string)
    requires key in AllKeys(slots, names, all)
    ensures exists s :: s in names && key in SectionKeys(slots, s, all)
    decreases |names|
  {
    var front := names[..|names|-1];
    if key in AllKeys(slots, front, all) {
      AllKeysFrom(slots, front, all, key);
      var s :| s in front && key in SectionKeys(slots, s, all);
      assert s in names;
    }
  }

  ghost predicate Names(names: seq<string>) {
    && (forall i :: 0 <= i < |names| ==> IsSection(names[i]))
    && forall i, j :: 0 <= i < j < |names| ==> names[i] != names[j]
  }

  /** Different lines have different keys. */
  lemma {:induction false} AllKeysCount(slots: D.Slots, names: seq<string>, all: bool)
    requires D.Distinct(slots) && Names(names)
    ensures |AllKeys(slots, names, all)| == Count(SectionsOf(slots, names), all)
    decreases |names|
  {
    if |names| > 0 {
      var front, s := names[..|names|-1], names[|names|-1];
      AllKeysCount(slots, front, all);
      SectionKeysCount(slots, s, all);
      CountBoth(SectionsOf(slots, front), SectionLinesOf(slots, s), all);
      var x, y := AllKeys(slots, front, all), SectionKeys(slots, s, all);
      forall key | key in x ensures key !in y {
        AllKeysFrom(slots, front, all, key);
        var r :| r in front && key in SectionKeys(slots, r, all);
        KeyOfSection(slots, r, all, key);
        if key in y { KeyOfSection(slots, s, all, key); }
      }
      assert x !! y;
      assert |x + y| == |x| + |y|;
    }
  }

  // ------------------------------------------------- a dictionary that comes back

  lemma {:induction false} NamesOf(slots: D.Slots)
    requires D.Distinct(slots)
    ensures Names(Sections(slots))
    ensures forall s :: s in Sections(slots) <==> s in D.MapOf(slots) && IsSection(s)
  {
    SectionsAre(slots);
    SectionsDiffer(slots);
    forall s ensures s in Sections(slots) <==> s in D.MapOf(slots) && IsSection(s) {
      D.MapHolds(slots, s);
      if s in Sections(slots) {
        var k :| 0 <= k < |Sections(slots)| && Sections(slots)[k] == s;
        var i: nat :| D.Holds(slots, Sections(slots)[k], i);
      } else if s in D.MapOf(slots) {
        var i: nat :| D.Holds(slots, s, i);
      }
    }
  }

  lemma {:induction false} KeysAreThere(slots: D.Slots, all: bool)
    requires D.Distinct(slots)
    ensures AllKeys(slots, Sections(slots), all) <= if all then D.MapOf(slots).Keys else Marked(D.MapOf(slots))
  {
    var m := D.MapOf(slots);
    NamesOf(slots);
    forall key | key in AllKeys(slots, Sections(slots), all)
      ensures key in m && (!all ==> Bracketing(key, m[key]))
    {
      AllKeysFrom(slots, Sections(slots), all, key);
      var s :| s in Sections(slots) && key in SectionKeys(slots, s, all);
      KeyOfSection(slots, s, all, key);
      if key in KeysOf(slots, s, all) {
        KeysFrom(slots, s, all, key);
        var i: nat :| From(slots, s, all, key, i);
        D.MapHolds(slots, key);
        if !all { BracketInText(key, s, slots[i].value); }
      }
    }
  }

  lemma {:induction false} BracketInText(key: string, s: string, e: D.Entry)
    requires e.key == key && InSection(key, s) && ']' in Text(ItemOf(e, s))
    ensures Bracketing(key, e.val)
  {
    var k, v := key[|s|+1..], Written(e.val);
    var i :| 0 <= i < |ValueLine(k, v)| && ValueLine(k, v)[i] == ']';
    if i < |k| {
      assert key[|s| + 1 + i] == ']';
    } else {
      assert v[i - |Padded(k)| - 3] == ']';
    }
  }

  lemma {:induction false} DumpNotLoose(slots: D.Slots, names: seq<string>)
    ensures NoneLoose(SectionsOf(slots, names))
    decreases |names|
  {
    if |names| > 0 {
      DumpNotLoose(slots, names[..|names|-1]);
      ItemsAreItems(slots, names[|names|-1]);
    }
  }

  lemma {:induction false} ItemsAreItems(slots: D.Slots, s: string)
    ensures forall p :: p in ItemsOf(slots, s) ==> p.Item?
    decreases |slots|
  {
    if |slots| > 0 { ItemsAreItems(slots[..|slots|-1], s); }
  }

  lemma {:induction false} SameSize<T>(x: set<T>, y: set<T>)
    requires x <= y && |x| >= |y|
    ensures x == y
  {
    SubsetSize(x, y);
    if e :| e in y && e !in x { SubsetSize(x, y - {e}); }
  }

  /** If the dictionary comes back, every line of the file gave a key of its own, every key is one, none was lost. */
  lemma {:induction false} ReturnsComplete(slots: D.Slots) returns (l: Loading)
    requires D.Distinct(slots) && Returns(slots) && Sections(slots) != []
    ensures NoneLoose(DumpLines(slots)) && Complete(DumpLines(slots))
    ensures Walk(DumpLines(slots)) == Some(l) && l.carry == [] && l.entries == D.MapOf(slots)
    ensures AllKeys(slots, Sections(slots), true) == D.MapOf(slots).Keys
  {
    var names, lines := Sections(slots), DumpLines(slots);
    l := ReturnsWalks(slots);
    NamesOf(slots);
    DumpNotLoose(slots, names);
    CountSnoc(SectionsOf(slots, names), Blank, true);
    CountSnoc(SectionsOf(slots, names), Blank, false);
    AllKeysCount(slots, names, true);
    AllKeysCount(slots, names, false);
    KeysAreThere(slots, true);
    KeysAreThere(slots, false);
    WalkGains(lines);
    SameSize(AllKeys(slots, names, true), D.MapOf(slots).Keys);
    assert |D.MapOf(slots).Keys| == |D.MapOf(slots)|;
    SubsetSize(AllKeys(slots, names, false), Marked(D.MapOf(slots)));
    WalkMarks(lines);
  }
}
