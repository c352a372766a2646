/** A dictionary without sections, whose file the loader reads under the empty section: it never comes back. */
module IniLoose {
  import opened Common
  import opened IniLine
  import opened IniLineProofs
  import opened IniFile
  import opened IniRoundTrip
  import opened IniLines
  import D = Dictionary

  /** The brackets before the first character that is neither a bracket nor white space. */
  function Lead(s: string): nat {
    if s == [] then 0
    else if s[0] == '[' then 1 + Lead(s[1..])
    else if IsSpace(s[0]) then Lead(s[1..])
    else 0
  }

  /** It holds something else. */
  predicate Solid(s: string) {
    exists i :: 0 <= i < |s| && s[i] != '[' && !IsSpace(s[i])
  }

  lemma {:induction false} LeadOfBoth(x: string, y: string)
    ensures Lead(x) <= Lead(x + y) && (Solid(x) ==> Lead(x + y) == Lead(x))
  {
    if x == [] {
    } else {
      assert (x + y)[1..] == x[1..] + y;
      LeadOfBoth(x[1..], y);
      if Solid(x) && (x[0] == '[' || IsSpace(x[0])) {
        var i :| 0 <= i < |x| && x[i] != '[' && !IsSpace(x[i]);
        assert x[1..][i-1] == x[i];
      }
    }
  }

  lemma {:induction false} LeadOfTail(a: string, s: string)
    requires AllSpace(a)
    ensures Lead(a + s) == Lead(s)
  {
    if a == [] {
      assert a + s == s;
    } else {
      assert (a + s)[1..] == a[1..] + s;
      LeadOfTail(a[1..], s);
    }
  }

  lemma {:induction false} LeadOfStrip(s: string)
    ensures Lead(Strip(s)) <= Lead(s)
  {
    var a, b := StripSplits(s);
    MiddleOf(a, Strip(s), b);
    LeadOfTail(a, Strip(s) + b);
    LeadOfBoth(Strip(s), b);
  }

  lemma {:induction false} LeadOfLower(s: string)
    ensures Lead(Lower(s)) == Lead(s)
  {
    if s != [] {
      assert Lower(s)[0] == LowerChar(s[0]) && Lower(s)[1..] == Lower(s[1..]);
      LeadOfLower(s[1..]);
    }
  }

  lemma {:induction false} LeadOfPrefix(s: string, t: string)
    requires s <= t
    ensures Lead(s) <= Lead(t)
  {
    assert t == s + t[|s|..];
    LeadOfBoth(s, t[|s|..]);
  }

  lemma {:induction false} LeadOfName(text: string, len: nat)
    ensures Lead(Name(text, len)) <= Lead(text)
  {
    var s := Strip(text);
    LeadOfStrip(text);
    if len > 0 {
      LeadOfPrefix(Prefix(s, len - 1), s);
      LeadOfLower(Prefix(s, len - 1));
    }
  }

  // ------------------------------------------------------- brackets shrink

  /** A line, or several that were joined, beginning with a key of the dictionary. */
  ghost predicate Begins(slots: D.Slots, text: string) {
    exists i: nat, u: string :: BeginsAt(slots, text, i, u)
  }

  ghost predicate BeginsAt(slots: D.Slots, text: string, i: nat, u: string) {
    i < |slots| && slots[i].Some? && text == slots[i].value.key + " = " + u
  }

  ghost predicate Keyed(slots: D.Slots, top: nat) {
    forall i :: 0 <= i < |slots| && slots[i].Some? ==> ':' in slots[i].value.key && Lead(slots[i].value.key) <= top
  }

  /** A line that begins with a key is taken for a section only if the key begins with a bracket, and loses it. */
  lemma {:induction false} SectionShrinks(key: string, u: string, section: string)
    requires ':' in key
    ensures
      match ParseLine(key + " = " + u, section)
      case Section(name) => Lead(key) > 0 && (Lead(name) < Lead(key) || Lead(name) <= Lead(section))
      case _ => true
  {
    var text := key + " = " + u;
    var bare := Strip(text);
    assert Solid(key);
    LeadOfBoth(key, " = " + u);
    Associate(key, " = ", u);
    LeadOfStrip(text);
    if bare != [] && bare[0] == '[' {
      var body := Until(bare[1..], {']'});
      UntilSplits(bare[1..], {']'});
      LeadOfPrefix(body, bare[1..]);
      LeadOfName(body, |bare|);
      LeadOfName(section, |bare|);
    }
  }

  lemma {:induction false} LeadToColon(x: string, k: string)
    ensures Lead(x + ":" + k) == Lead(x)
  {
    if x == [] {
      assert (x + ":" + k)[0] == ':';
    } else {
      assert (x + ":" + k)[0] == x[0] && (x + ":" + k)[1..] == x[1..] + ":" + k;
      LeadToColon(x[1..], k);
    }
  }

  ghost predicate IsKey(slots: D.Slots, key: string) {
    exists i: nat :: D.Holds(slots, key, i)
  }

  ghost predicate CarriesKey(slots: D.Slots, l: Loading) {
    l.carry == [] || Begins(slots, l.carry)
  }

  lemma {:induction false} BeginsMore(slots: D.Slots, l: Loading, p: Printed)
    requires CarriesKey(slots, l) && p.Loose? && IsKey(slots, p.key)
    ensures Begins(slots, l.carry + Text(p))
  {
    if l.carry == [] {
      var i: nat :| D.Holds(slots, p.key, i);
      assert l.carry + Text(p) == Text(p);
      assert BeginsAt(slots, l.carry + Text(p), i, p.v);
    } else {
      var i: nat, u: string :| BeginsAt(slots, l.carry, i, u);
      Associate(slots[i].value.key + " = ", u, Text(p));
      assert BeginsAt(slots, l.carry + Text(p), i, u + Text(p));
    }
  }

  /** What is carried over of such a line still begins with the key. */
  lemma {:induction false} BeginsStill(slots: D.Slots, text: string)
    requires Begins(slots, text)
    ensures
      var trimmed := TrimRight(text);
      trimmed != [] && trimmed[|trimmed|-1] == '\\' ==> Begins(slots, trimmed[..|trimmed|-1])
  {
    var i: nat, u: string :| BeginsAt(slots, text, i, u);
    var key := slots[i].value.key;
    if TrimRight(u) == [] {
      var b := TrimRightSplits(u);
      assert text == key + " =" + (" " + u);
      TrimRightPast(key + " =", " " + u);
      assert TrimRight(" " + u) == [] by { TrimRightOf([], " " + u); assert [] + (" " + u) == " " + u; }
      assert TrimRight(text) == key + " =";
    } else {
      var b := TrimRightSplits(u);
      assert text == key + " = " + TrimRight(u) + b;
      TrimRightOf(key + " = " + TrimRight(u), b);
      var w := TrimRight(u)[..|TrimRight(u)|-1];
      assert TrimRight(text)[..|TrimRight(text)|-1] == key + " = " + w;
      assert BeginsAt(slots, key + " = " + w, i, w);
    }
  }

  /** Sections and keys read have fewer leading brackets than the keys that are there. */
  ghost predicate Shrunk(slots: D.Slots, top: nat, l: Loading) {
    CarriesKey(slots, l) && Lead(l.section) < top && forall key :: key in l.entries ==> Lead(key) < top
  }

  lemma {:induction false} AcceptShrinks(slots: D.Slots, top: nat, l: Loading, text: string)
    requires Keyed(slots, top) && Shrunk(slots, top, l) && Begins(slots, text)
    ensures Shrunk(slots, top, Accept(l, TrimRight(text)))
  {
    var i: nat, u: string :| BeginsAt(slots, text, i, u);
    StripTrimRight(text);
    ParseStripped(TrimRight(text), text, l.section);
    SectionShrinks(slots[i].value.key, u, l.section);
    var status := ParseLine(text, l.section);
    if status.Value? { LeadToColon(l.section, status.key); }
  }

  lemma {:induction false} StepShrinks(slots: D.Slots, top: nat, l: Loading, text: string, line: string)
    requires Keyed(slots, top) && Shrunk(slots, top, l) && line == l.carry + text && Begins(slots, line)
    ensures Shrunk(slots, top, StepOn(l, text))
  {
    StepForm(l, text, line);
    if Continued(line) { BeginsStill(slots, line); } else { AcceptShrinks(slots, top, l, line); }
  }

  ghost predicate OfSlots(slots: D.Slots, lines: seq<Printed>) {
    forall p :: p in lines ==> p.Loose? && IsKey(slots, p.key)
  }

  lemma {:induction false} FrontOfSlots(slots: D.Slots, lines: seq<Printed>)
    requires |lines| > 0 && OfSlots(slots, lines)
    ensures OfSlots(slots, lines[..|lines|-1])
    ensures lines[|lines|-1].Loose? && IsKey(slots, lines[|lines|-1].key)
  {
  }

  lemma {:induction false} WalkShrinks(slots: D.Slots, top: nat, lines: seq<Printed>)
    requires Keyed(slots, top) && top > 0 && OfSlots(slots, lines) && Walk(lines).Some?
    ensures Shrunk(slots, top, Walk(lines).value)
    decreases |lines|
  {
    if |lines| > 0 {
      FrontOfSlots(slots, lines);
      WalkShrinks(slots, top, lines[..|lines|-1]);
      var l, p := Walk(lines[..|lines|-1]).value, lines[|lines|-1];
      BeginsMore(slots, l, p);
      StepShrinks(slots, top, l, Text(p), l.carry + Text(p));
    }
  }

  // --------------------------------------------------------- keys grow

  /** Without brackets no section is read, and every key is put behind a colon. */
  ghost predicate Behind(slots: D.Slots, l: Loading) {
    CarriesKey(slots, l) && l.section == [] && forall key :: key in l.entries ==> Colonized(key)
  }

  ghost predicate Colonized(key: string) {
    key != [] && key[0] == ':' && KeyFits(key[1..])
  }

  lemma {:induction false} AcceptBehind(slots: D.Slots, l: Loading, text: string)
    requires Keyed(slots, 0) && Behind(slots, l) && Begins(slots, text)
    ensures Behind(slots, Accept(l, TrimRight(text)))
  {
    var i: nat, u: string :| BeginsAt(slots, text, i, u);
    StripTrimRight(text);
    ParseStripped(TrimRight(text), text, []);
    SectionShrinks(slots[i].value.key, u, []);
    var status := ParseLine(text, []);
    if status.Value? {
      KeysFit(text, []);
      assert ([] + ":" + status.key)[0] == ':' && ([] + ":" + status.key)[1..] == status.key;
    }
  }

  lemma {:induction false} StepBehind(slots: D.Slots, l: Loading, text: string, line: string)
    requires Keyed(slots, 0) && Behind(slots, l) && line == l.carry + text && Begins(slots, line)
    ensures Behind(slots, StepOn(l, text))
  {
    StepForm(l, text, line);
    if Continued(line) { BeginsStill(slots, line); } else { AcceptBehind(slots, l, line); }
  }

  lemma {:induction false} WalkBehind(slots: D.Slots, lines: seq<Printed>)
    requires Keyed(slots, 0) && OfSlots(slots, lines) && Walk(lines).Some?
    ensures Behind(slots, Walk(lines).value)
    decreases |lines|
  {
    if |lines| > 0 {
      FrontOfSlots(slots, lines);
      WalkBehind(slots, lines[..|lines|-1]);
      var l, p := Walk(lines[..|lines|-1]).value, lines[|lines|-1];
      BeginsMore(slots, l, p);
      StepBehind(slots, l, Text(p), l.carry + Text(p));
    }
  }

  lemma {:induction false} ColonizedMeans(key: string)
    requires Colonized(key)
    ensures '=' !in key && Lower(key) == key && Trimmed(key)
  {
    assert forall i :: 1 <= i < |key| ==> key[i] == key[1..][i-1];
    assert forall i :: 1 <= i < |key| ==> LowerChar(key[i]) == Lower(key[1..])[i-1];
  }

  lemma {:induction false} LooseForms(key: string, v: string)
    ensures key + " = " + v == key + " =" + (" " + v)
    ensures forall t: string :: key + " =" + t == key + " " + ("=" + t)
  {
  }

  lemma {:induction false} LooseStrip(key: string, v: string)
    requires Colonized(key)
    ensures Strip(key + " = " + v) == key + " =" + TrimRight(" " + v)
  {
    LooseForms(key, v);
    TrimRightPast(key + " =", " " + v);
    assert TrimLeft(key + " = " + v) == key + " = " + v;
  }

  lemma {:induction false} LooseKey(key: string, t: string)
    requires '=' !in key && Trimmed(key)
    ensures Until(key + " =" + t, {'='}) == key + " " && Strip(key + " ") == key
  {
    LooseForms(key, t);
    UntilOf(key + " ", "=" + t, {'='});
    StripOf([], key, " ");
    assert [] + key + " " == key + " ";
  }

  /** A key that was read without a section is read again whole. */
  lemma {:induction false} LooseRead(key: string, v: string)
    requires Colonized(key)
    ensures
      var status := ParseLine(key + " = " + v, []);
      status.Value? && status.key == key
  {
    ColonizedMeans(key);
    LooseStrip(key, v);
    LooseKey(key, TrimRight(" " + v));
    var bare := key + " =" + TrimRight(" " + v);
    assert bare[0] == ':' && |key| + 2 <= |bare|;
    assert Name(key + " ", |bare|) == key;
  }

  ghost predicate AllColonized(slots: D.Slots) {
    forall i :: 0 <= i < |slots| && slots[i].Some? ==> Colonized(slots[i].value.key)
  }

  /** Every key read is a key of the dictionary behind one more colon. */
  ghost predicate Grown(slots: D.Slots, l: Loading) {
    && CarriesKey(slots, l) && l.section == []
    && forall key :: key in l.entries ==> exists k: string :: IsKey(slots, k) && key == [':'] + k
  }

  lemma {:induction false} LineGrows(slots: D.Slots, text: string) returns (k: string)
    requires AllColonized(slots) && Begins(slots, text)
    ensures
      var status := ParseLine(TrimRight(text), []);
      IsKey(slots, k) && status.Value? && status.key == k
  {
    var i: nat, u: string :| BeginsAt(slots, text, i, u);
    k := slots[i].value.key;
    StripTrimRight(text);
    ParseStripped(TrimRight(text), text, []);
    LooseRead(k, u);
    assert D.Holds(slots, k, i);
  }

  lemma {:induction false} AcceptGrows(slots: D.Slots, l: Loading, text: string)
    requires AllColonized(slots) && Grown(slots, l) && Begins(slots, text)
    ensures Grown(slots, Accept(l, TrimRight(text)))
  {
    var k := LineGrows(slots, text);
    assert [] + ":" + k == [':'] + k;
  }

  lemma {:induction false} StepGrows(slots: D.Slots, l: Loading, text: string, line: string)
    requires AllColonized(slots) && Grown(slots, l) && line == l.carry + text && Begins(slots, line)
    ensures Grown(slots, StepOn(l, text))
  {
    StepForm(l, text, line);
    if Continued(line) { BeginsStill(slots, line); } else { AcceptGrows(slots, l, line); }
  }

  lemma {:induction false} WalkGrows(slots: D.Slots, lines: seq<Printed>)
    requires AllColonized(slots) && OfSlots(slots, lines) && Walk(lines).Some?
    ensures Grown(slots, Walk(lines).value)
    decreases |lines|
  {
    if |lines| > 0 {
      FrontOfSlots(slots, lines);
      WalkGrows(slots, lines[..|lines|-1]);
      var l, p := Walk(lines[..|lines|-1]).value, lines[|lines|-1];
      BeginsMore(slots, l, p);
      StepGrows(slots, l, Text(p), l.carry + Text(p));
    }
  }

  // -------------------------------------------------------------- the result

  lemma {:induction false} BareOfSlots(slots: D.Slots)
    ensures OfSlots(slots, BareOf(slots))
    decreases |slots|
  {
    if |slots| > 0 {
      var front, n := slots[..|slots|-1], |slots| - 1;
      BareOfSlots(front);
      forall p | p in BareOf(slots) ensures p.Loose? && IsKey(slots, p.key) {
        if p in BareOf(front) {
          var i: nat :| D.Holds(front, p.key, i);
          assert D.Holds(slots, p.key, i);
        } else {
          assert D.Holds(slots, p.key, n);
        }
      }
    }
  }

  /** The slot whose key has the most leading brackets. */
  lemma {:induction false} MostBrackets(slots: D.Slots, i: nat) returns (k: nat)
    requires i < |slots| && slots[i].Some?
    ensures k < |slots| && slots[k].Some?
    ensures forall j :: 0 <= j < |slots| && slots[j].Some? ==> Lead(slots[j].value.key) <= Lead(slots[k].value.key)
  {
    k := i;
    for n := 0 to |slots|
      invariant k < |slots| && slots[k].Some?
      invariant forall j :: 0 <= j < n && slots[j].Some? ==> Lead(slots[j].value.key) <= Lead(slots[k].value.key)
    {
      if slots[n].Some? && Lead(slots[n].value.key) > Lead(slots[k].value.key) { k := n; }
    }
  }

  lemma {:induction false} Shortest(slots: D.Slots, i: nat) returns (k: nat)
    requires i < |slots| && slots[i].Some?
    ensures k < |slots| && slots[k].Some?
    ensures forall j :: 0 <= j < |slots| && slots[j].Some? ==> |slots[k].value.key| <= |slots[j].value.key|
  {
    k := i;
    for n := 0 to |slots|
      invariant k < |slots| && slots[k].Some?
      invariant forall j :: 0 <= j < n && slots[j].Some? ==> |slots[k].value.key| <= |slots[j].value.key|
    {
      if slots[n].Some? && |slots[n].value.key| < |slots[k].value.key| { k := n; }
    }
  }

  lemma {:induction false} KeyIsLoaded(slots: D.Slots, i: nat)
    requires D.Distinct(slots) && i < |slots| && slots[i].Some?
    ensures slots[i].value.key in D.MapOf(slots)
  {
    D.MapHolds(slots, slots[i].value.key);
    assert D.Holds(slots, slots[i].value.key, i);
  }

  /** If it comes back, none of its keys begins with a bracket. */
  lemma {:induction false} NoBrackets(slots: D.Slots, i: nat)
    requires D.Distinct(slots) && Returns(slots) && Sections(slots) == [] && i < |slots| && slots[i].Some?
    ensures Keyed(slots, 0)
  {
    var k := MostBrackets(slots, i);
    var top := Lead(slots[k].value.key);
    var l := ReturnsWalks(slots);
    SectionsAre(slots);
    BareOfSlots(slots);
    KeyIsLoaded(slots, k);
    if top > 0 { WalkShrinks(slots, top, BareOf(slots)); }
  }

  lemma {:induction false} NoneUncolonized(slots: D.Slots)
    requires D.Distinct(slots) && Returns(slots) && Sections(slots) == [] && Keyed(slots, 0)
    ensures AllColonized(slots)
  {
    var l := ReturnsWalks(slots);
    BareOfSlots(slots);
    WalkBehind(slots, BareOf(slots));
    forall i | 0 <= i < |slots| && slots[i].Some? ensures Colonized(slots[i].value.key) {
      KeyIsLoaded(slots, i);
    }
  }

  /** A dictionary without any section never comes back, unless it is empty: each key grows by a colon. */
  lemma {:induction false} LooseNeverReturns(slots: D.Slots, i: nat)
    requires D.Distinct(slots) && Sections(slots) == [] && i < |slots| && slots[i].Some?
    ensures !Returns(slots)
  {
    if Returns(slots) {
      NoBrackets(slots, i);
      NoneUncolonized(slots);
      var k := Shortest(slots, i);
      var l := ReturnsWalks(slots);
      BareOfSlots(slots);
      WalkGrows(slots, BareOf(slots));
      KeyIsLoaded(slots, k);
      ShortestGrew(slots, l, k);
      assert false;
    }
  }

  lemma {:induction false} ShortestGrew(slots: D.Slots, l: Loading, k: nat)
    requires Grown(slots, l) && k < |slots| && slots[k].Some? && slots[k].value.key in l.entries
    ensures exists j :: 0 <= j < |slots| && slots[j].Some? && |slots[j].value.key| < |slots[k].value.key|
  {
    var short: string :| IsKey(slots, short) && slots[k].value.key == [':'] + short;
    var j: nat :| D.Holds(slots, short, j);
    assert |[':'] + short| == |short| + 1;
  }
}
