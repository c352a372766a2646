/** Which lines the dump writes that the parser reads back as they were. */
module IniLineProofs {
  import opened Common
  import opened IniLine

  // ------------------------------------------------------------- stripping

  predicate AllSpace(s: string) {
    forall i :: 0 <= i < |s| ==> IsSpace(s[i])
  }

  lemma {:induction false} TrimLeftOf(a: string, s: string)
    requires AllSpace(a) && (s == [] || !IsSpace(s[0]))
    ensures TrimLeft(a + s) == s
  {
    if a == [] {
      assert a + s == s;
    } else {
      assert (a + s)[1..] == a[1..] + s;
      TrimLeftOf(a[1..], s);
    }
  }

  lemma {:induction false} TrimRightOf(s: string, b: string)
    requires AllSpace(b) && (s == [] || !IsSpace(s[|s|-1]))
    ensures TrimRight(s + b) == s
  {
    if b == [] {
      assert s + b == s;
    } else {
      assert (s + b)[..|s + b|-1] == s + b[..|b|-1];
      TrimRightOf(s, b[..|b|-1]);
    }
  }

  /** The part between the white space at both ends. */
  lemma {:induction false} StripOf(a: string, s: string, b: string)
    requires AllSpace(a) && AllSpace(b) && Trimmed(s)
    ensures Strip(a + s + b) == s
    ensures TrimLeft(TrimRight(a + s + b)) == s
  {
    if s == [] {
      assert Strip(a + s + b) == s by { StripBlank(a + b); assert a + s + b == a + b; }
      assert TrimLeft(TrimRight(a + s + b)) == s by { StripBlank(a + b); assert a + s + b == a + b; }
    } else {
      assert TrimLeft(a + s + b) == s + b by { TrimLeftOf(a, s + b); assert a + s + b == a + (s + b); }
      TrimRightOf(s, b);
      assert TrimRight(a + s + b) == a + s by { TrimRightOf(a + s, b); }
      TrimLeftOf(a, s);
    }
  }

  lemma {:induction false} StripBlank(a: string)
    requires AllSpace(a)
    ensures Strip(a) == [] && TrimLeft(TrimRight(a)) == []
  {
    assert a + [] == a && [] + a == a;
    TrimLeftOf(a, []);
    TrimRightOf([], a);
  }

  lemma {:induction false} TrimLeftSplits(s: string) returns (a: string)
    ensures s == a + TrimLeft(s) && AllSpace(a) && (TrimLeft(s) == [] || !IsSpace(TrimLeft(s)[0]))
  {
    a := [];
    if s != [] && IsSpace(s[0]) {
      var c := TrimLeftSplits(s[1..]);
      a := [s[0]] + c;
    }
  }

  lemma {:induction false} TrimRightSplits(s: string) returns (b: string)
    ensures s == TrimRight(s) + b && AllSpace(b) && (TrimRight(s) == [] || !IsSpace(TrimRight(s)[|TrimRight(s)|-1]))
  {
    b := [];
    if s != [] && IsSpace(s[|s|-1]) {
      var c := TrimRightSplits(s[..|s|-1]);
      b := c + [s[|s|-1]];
    }
  }

  lemma {:induction false} FirstOf(r: string, b: string)
    ensures r != [] ==> (r + b)[0] == r[0]
  {
  }

  /** Every string is its stripped self between white space. */
  lemma {:induction false} StripSplits(s: string) returns (a: string, b: string)
    ensures s == a + Strip(s) + b && AllSpace(a) && AllSpace(b) && Trimmed(Strip(s))
  {
    a := TrimLeftSplits(s);
    b := TrimRightSplits(TrimLeft(s));
    FirstOf(Strip(s), b);
    MiddleOf(a, Strip(s), b);
  }

  lemma {:induction false} StripTrimmed(s: string)
    requires Trimmed(s)
    ensures Strip(s) == s
  {
    StripOf([], s, []);
    assert [] + s + [] == s;
  }

  lemma {:induction false} UntilOf(x: string, y: string, stops: set<char>)
    requires (forall i :: 0 <= i < |x| ==> x[i] !in stops) && (y == [] || y[0] in stops)
    ensures Until(x + y, stops) == x
  {
    if x == [] {
      assert x + y == y;
    } else {
      assert (x + y)[1..] == x[1..] + y;
      UntilOf(x[1..], y, stops);
    }
  }

  lemma {:induction false} UntilSplits(s: string, stops: set<char>)
    ensures Until(s, stops) <= s
    ensures forall i :: 0 <= i < |Until(s, stops)| ==> Until(s, stops)[i] !in stops
    ensures |Until(s, stops)| < |s| ==> s[|Until(s, stops)|] in stops
  {
    if s != [] && s[0] !in stops {
      UntilSplits(s[1..], stops);
    }
  }

  // -------------------------------------------------------------- values

  /** v starts with the quote and goes on with something else. */
  predicate OpensQuote(v: string, q: char) {
    |v| > 1 && v[0] == q && v[1] != q
  }

  predicate ValueFits(v: string) {
    && Trimmed(v) && ';' !in v && '#' !in v
    && v != "\"\"" && v != "''" && !OpensQuote(v, '"') && !OpensQuote(v, '\'')
  }

  lemma {:induction false} QuotedWhen(v: string, q: char)
    ensures Quoted(v, q).Some? <==> OpensQuote(v, q)
    ensures Quoted(v, q).Some? ==> |Quoted(v, q).value| < |v|
  {
  }

  lemma {:induction false} ValueIfFits(v: string)
    requires ValueFits(v)
    ensures ValueOf(Strip(v)) == v
  {
    StripTrimmed(v);
    QuotedWhen(v, '"');
    QuotedWhen(v, '\'');
    UntilOf(v, [], {';', '#'});
    assert v + [] == v;
  }

  lemma {:induction false} StripShorter(s: string)
    ensures |Strip(s)| <= |s| && Trimmed(Strip(s)) && (|Strip(s)| == |s| ==> Strip(s) == s)
  {
    var a, b := StripSplits(s);
    if |Strip(s)| == |s| { assert a == [] && b == []; assert [] + Strip(s) + [] == Strip(s); }
  }

  lemma {:induction false} ValueOnlyIfFits(v: string)
    requires ValueOf(Strip(v)) == v
    ensures ValueFits(v)
  {
    var s := Strip(v);
    var plain := Until(s, {';', '#'});
    StripShorter(v);
    StripShorter(plain);
    QuotedWhen(s, '"');
    QuotedWhen(s, '\'');
    UntilSplits(s, {';', '#'});
    if v != [] {
      assert plain == s == v;
    }
  }

  /** A value survives being written and read exactly when it fits. */
  lemma {:induction false} ValueExact(v: string)
    ensures ValueOf(Strip(v)) == v <==> ValueFits(v)
  {
    if ValueFits(v) { ValueIfFits(v); }
    if ValueOf(Strip(v)) == v { ValueOnlyIfFits(v); }
  }

  // ---------------------------------------------------------------- lines

  predicate KeyFits(k: string) {
    k != [] && Trimmed(k) && Lower(k) == k && '=' !in k && k[0] != '#' && k[0] != ';'
  }

  /** The line would be taken for a section. */
  predicate Bracketed(k: string, v: string) {
    k != [] && k[0] == '[' && TrimRight(v) != [] && TrimRight(v)[|TrimRight(v)|-1] == ']'
  }

  predicate SectionFits(s: string) {
    s != [] && Trimmed(s) && Lower(s) == s && ']' !in s
  }

  /** The line as stripped: the value loses the white space at its end, or with it the blank after '='. */
  function Bare(k: string, v: string): string {
    if TrimRight(v) == [] then Padded(k) + " =" else Padded(k) + " = " + TrimRight(v)
  }

  lemma {:induction false} BlankValue(p: string, b: string)
    ensures p + " = " + b == p + " =" + (" " + b)
  {
  }

  lemma {:induction false} BareLine(k: string, v: string)
    requires k != [] && !IsSpace(k[0])
    ensures Strip(ValueLine(k, v)) == Bare(k, v)
    ensures Bare(k, v)[0] == k[0] && |k| + 2 <= |Bare(k, v)|
    ensures Bare(k, v)[|Bare(k, v)|-1] == if TrimRight(v) == [] then '=' else TrimRight(v)[|TrimRight(v)|-1]
  {
    var b := TrimRightSplits(v);
    var bare := Bare(k, v);
    var rest := if TrimRight(v) == [] then " " + b else b;
    assert ValueLine(k, v) == bare + rest by {
      if TrimRight(v) == [] {
        assert v == b;
        BlankValue(Padded(k), b);
      } else {
        MiddleOf(Padded(k) + " = ", TrimRight(v), b);
      }
    }
    TrimRightOf(bare, rest);
    assert TrimLeft(ValueLine(k, v)) == ValueLine(k, v);
  }

  lemma {:induction false} SplitOf(key: string, rest: string)
    requires key != [] && '=' !in key
    ensures SplitAssign(key + "=" + rest) == Some((key, TrimLeft(rest)))
  {
    UntilOf(key, "=" + rest, {'='});
    assert key + ("=" + rest) == key + "=" + rest;
    assert (key + "=" + rest)[|key|+1..] == rest;
  }

  lemma {:induction false} BareForm(p: string, t: string)
    ensures p + " =" == p + " " + "=" + "" && p + " = " + t == p + " " + "=" + (" " + t)
  {
  }

  lemma {:induction false} TrimmedBothWays(v: string)
    ensures TrimLeft(TrimRight(v)) == Strip(v)
  {
    var a, b := StripSplits(v);
    StripOf(a, Strip(v), b);
  }

  lemma {:induction false} PaddedStrips(k: string)
    requires Trimmed(k)
    ensures Strip(Padded(k) + " ") == k
  {
    var blanks := Blanks(30 - |k|) + " ";
    StripOf([], k, blanks);
    assert [] + k + blanks == Padded(k) + " ";
  }

  lemma {:induction false} PaddedPlain(k: string)
    requires '=' !in k
    ensures '=' !in Padded(k) + " "
  {
  }

  lemma {:induction false} LedByBlank(t: string)
    ensures TrimLeft(" " + t) == TrimLeft(t)
  {
    assert (" " + t)[1..] == t;
  }

  /** A key that holds no '=' is cut off where it should be. */
  lemma {:induction false} BareSplit(k: string, v: string)
    requires '=' !in k
    ensures SplitAssign(Bare(k, v)) == Some((Padded(k) + " ", Strip(v)))
  {
    var key, t := Padded(k) + " ", TrimRight(v);
    BareForm(Padded(k), t);
    PaddedPlain(k);
    TrimmedBothWays(v);
    if t == [] {
      SplitOf(key, "");
    } else {
      SplitOf(key, " " + t);
      LedByBlank(t);
    }
  }

  /** What is read from a written line whose key could be found in it. */
  lemma {:induction false} LineRead(k: string, v: string, section: string)
    requires k != [] && Trimmed(k) && '=' !in k && k[0] != '#' && k[0] != ';' && !Bracketed(k, v)
    ensures ParseLine(ValueLine(k, v), section) == Value(Lower(k), ValueOf(Strip(v)))
  {
    BareLine(k, v);
    BareSplit(k, v);
    PaddedStrips(k);
  }

  lemma {:induction false} LowerKeeps(s: string)
    ensures Lower(Lower(s)) == Lower(s)
    ensures Trimmed(s) ==> Trimmed(Lower(s))
    ensures '=' !in s ==> '=' !in Lower(s)
  {
    assert forall i :: 0 <= i < |s| ==> (IsSpace(LowerChar(s[i])) <==> IsSpace(s[i]));
    if '=' in Lower(s) {
      var i :| 0 <= i < |s| && Lower(s)[i] == '=';
      assert s[i] == '=';
    }
  }

  /** Whatever key is read, it is one of those that can be written. */
  lemma {:induction false} KeysRead(input: string, section: string)
    requires ParseLine(input, section).Value?
    ensures
      var k := ParseLine(input, section).key;
      k != [] && Trimmed(k) && Lower(k) == k && '=' !in k
  {
    var line := Strip(input);
    StripShorter(input);
    var text := Until(line, {'='});
    UntilSplits(line, {'='});
    StripShorter(text);
    var a, b := StripSplits(text);
    assert text[0] == line[0];
    assert Strip(text) == [] ==> text == a + b;
    assert '=' !in text && '=' !in Strip(text);
    LowerKeeps(Strip(text));
    assert Name(text, |line|) == Lower(Strip(text));
  }

  /** A line comes back as the key and value it was written for exactly when both fit and it is not bracketed. */
  lemma {:induction false} LineExact(k: string, v: string, section: string)
    ensures ParseLine(ValueLine(k, v), section) == Value(k, v) <==> KeyFits(k) && ValueFits(v) && !Bracketed(k, v)
  {
    var status := ParseLine(ValueLine(k, v), section);
    if status == Value(k, v) {
      KeysRead(ValueLine(k, v), section);
      BareLine(k, v);
      LineRead(k, v, section);
      ValueExact(v);
    } else if KeyFits(k) && ValueFits(v) && !Bracketed(k, v) {
      LineRead(k, v, section);
      ValueExact(v);
    }
  }

  lemma {:induction false} LineEnds(s: string)
    ensures
      var line := SectionLine(s);
      |line| == |s| + 2 && line[0] == '[' && line[|line|-1] == ']' && line[1..] == s + "]"
  {
  }

  lemma {:induction false} BracketedRead(line: string, section: string)
    requires line != [] && Trimmed(line) && line[0] == '[' && line[|line|-1] == ']'
    ensures
      var body := Until(line[1..], {']'});
      ParseLine(line, section) == Section(Name(if body == [] then section else body, |line|))
  {
    StripTrimmed(line);
  }

  /** What is read from a written section line. */
  lemma {:induction false} SectionRead(s: string, section: string) returns (body: string)
    requires s != []
    ensures body == Until(s + "]", {']'})
    ensures ParseLine(SectionLine(s), section) == Section(Name(if body == [] then section else body, |s| + 2))
  {
    LineEnds(s);
    BracketedRead(SectionLine(s), section);
    body := Until(SectionLine(s)[1..], {']'});
  }

  lemma {:induction false} NameOf(s: string)
    requires s != []
    ensures Name(s, |s| + 2) == Lower(Strip(s)) && (Lower(Strip(s)) == s <==> Trimmed(s) && Lower(s) == s)
  {
    StripShorter(s);
    LowerKeeps(Strip(s));
    if Trimmed(s) { StripTrimmed(s); }
  }

  /** The same for a section: the buffer's old text, which never holds a ']', cannot stand in for a name. */
  lemma {:induction false} SectionExact(s: string, section: string)
    requires ']' !in section && s != []
    ensures ParseLine(SectionLine(s), section) == Section(s) <==> SectionFits(s)
  {
    var body := SectionRead(s, section);
    if ']' !in s {
      UntilOf(s, "]", {']'});
      NameOf(s);
    } else {
      UntilSplits(s + "]", {']'});
      SectionNames(section, |s| + 2);
      SectionNames(body, |s| + 2);
    }
  }

  lemma {:induction false} SectionNames(text: string, len: nat)
    requires ']' !in text
    ensures ']' !in Name(text, len)
  {
    var a, b := StripSplits(text);
    forall i | 0 <= i < |Name(text, len)| ensures Name(text, len)[i] != ']' {
      assert text[|a| + i] == Strip(text)[i];
    }
  }

  lemma {:induction false} StripHead(text: string)
    requires text != [] && !IsSpace(text[0])
    ensures Strip(text) != [] && Strip(text)[0] == text[0]
  {
    var b := TrimRightSplits(text);
    assert TrimLeft(text) == text;
    assert TrimRight(text) == [] ==> text == b;
  }

  /** Every key that is read fits: it can be written again. */
  lemma {:induction false} KeysFit(line: string, section: string)
    requires ParseLine(line, section).Value?
    ensures KeyFits(ParseLine(line, section).key)
  {
    KeysRead(line, section);
    var bare := Strip(line);
    var text := Until(bare, {'='});
    StripShorter(line);
    UntilSplits(bare, {'='});
    assert text[0] == bare[0] && !IsSpace(text[0]);
    StripHead(text);
    assert Name(text, |bare|) == Lower(Strip(text));
  }

  lemma {:induction false} TrimRightPast(x: string, y: string)
    requires x != [] && !IsSpace(x[|x|-1])
    ensures TrimRight(x + y) == x + TrimRight(y)
  {
    var b := TrimRightSplits(y);
    assert x + y == x + TrimRight(y) + b;
    TrimRightOf(x + TrimRight(y), b);
  }

  lemma {:induction false} StripTrimRight(line: string)
    ensures Strip(TrimRight(line)) == Strip(line)
  {
    TrimmedBothWays(line);
    StripShorter(line);
    var s := Strip(line);
    TrimRightOf(s, []);
    assert s + [] == s;
  }

  lemma {:induction false} ParseStripped(x: string, y: string, section: string)
    requires Strip(x) == Strip(y)
    ensures ParseLine(x, section) == ParseLine(y, section)
  {
  }
}
