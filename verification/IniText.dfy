/** What any file of lines is loaded as: comments, entries in their forms, sections, continued, long and wrong lines. */
module IniText {
  import opened Common
  import opened IniLine
  import opened IniLineProofs
  import opened IniFile
  import opened IniRoundTrip
  import opened IniLines
  import C = IniCount

  function Lines(ls: seq<string>): string
    decreases |ls|
  {
    if ls == [] then [] else Lines(ls[..|ls|-1]) + (ls[|ls|-1] + "\n")
  }

  /** A line that does not ask to be continued on the next. */
  predicate Single(line: string) {
    '\n' !in line && !Continued(line)
  }

  ghost predicate AllSingle(ls: seq<string>) {
    forall i :: 0 <= i < |ls| ==> Single(ls[i])
  }

  /** The loader after these lines. */
  function WalkText(ls: seq<string>): Option<Loading>
    decreases |ls|
  {
    if ls == [] then Some(EMPTY)
    else
      match WalkText(ls[..|ls|-1])
      case None => None
      case Some(l) => if Fits(l, ls[|ls|-1]) then Some(StepOn(l, ls[|ls|-1])) else None
  }

  lemma {:induction false} StepSingle(l: Loading, line: string)
    requires |l.carry| == 0 && Single(line)
    ensures StepOn(l, line) == (if line == [] then l else Accept(l, TrimRight(line))) && |StepOn(l, line).carry| == 0
  {
    assert l.carry + line == line;
    StepForm(l, line, line);
  }

  lemma {:induction false} TextReads(ls: seq<string>, rest: string)
    requires AllSingle(ls)
    ensures LoadFrom(EMPTY, Lines(ls) + rest) == Onward(WalkText(ls), rest)
    ensures WalkText(ls).Some? ==> |WalkText(ls).value.carry| == 0
    decreases |ls|
  {
    if |ls| == 0 {
      assert Lines(ls) + rest == rest;
    } else {
      var front, last := ls[..|ls|-1], ls[|ls|-1];
      Associate(Lines(front), last + "\n", rest);
      TextReads(front, last + "\n" + rest);
      if WalkText(front).Some? {
        OneMoreText(WalkText(front).value, last, rest);
        StepSingle(WalkText(front).value, last);
      }
    }
  }

  /** One more line after them. */
  lemma {:induction false} LineReads(ls: seq<string>, line: string, rest: string)
    requires AllSingle(ls) && '\n' !in line
    ensures WalkText(ls).Some? ==> |WalkText(ls).value.carry| == 0
    ensures
      LoadText(Lines(ls) + (line + "\n" + rest)) ==
        match WalkText(ls)
        case None => None
        case Some(l) => if |line| + 1 < LINE_SIZE then LoadFrom(StepOn(l, line), rest) else None
  {
    TextReads(ls, line + "\n" + rest);
    if WalkText(ls).Some? { OneMoreText(WalkText(ls).value, line, rest); }
  }

  lemma {:induction false} LoadedState(ls: seq<string>) returns (l: Loading)
    requires AllSingle(ls) && LoadText(Lines(ls)).Some?
    ensures WalkText(ls) == Some(l) && l.carry == [] && !l.failed && LoadText(Lines(ls)) == Some(l.entries)
  {
    TextReads(ls, []);
    assert Lines(ls) + [] == Lines(ls);
    l := WalkText(ls).value;
  }

  // --------------------------------------------------------------- comments

  lemma {:induction false} SkippedLine(ws: string, y: string, section: string)
    requires AllSpace(ws) && (y == [] || y[0] == '#' || y[0] == ';')
    ensures ParseLine(ws + y, section).Empty? || ParseLine(ws + y, section).Comment?
  {
    TrimLeftOf(ws, y);
    if y != [] { StripHead(y); }
    assert TrimLeft(y) == y;
  }

  /**
   * A blank line, or one whose first character but for white space is `#` or `;`, might as well not be there,
   * whatever lines come before it and after it.
   */
  lemma {:induction false} CommentsAreSkipped(ls: seq<string>, ws: string, y: string, rest: string)
    requires AllSingle(ls) && AllSpace(ws) && (y == [] || y[0] == '#' || y[0] == ';')
    requires Single(ws + y) && |ws + y| + 1 < 1024
    ensures LoadText(Lines(ls) + (ws + y + "\n" + rest)) == LoadText(Lines(ls) + rest)
  {
    var line := ws + y;
    LineReads(ls, line, rest);
    TextReads(ls, rest);
    if WalkText(ls).Some? {
      var l := WalkText(ls).value;
      StepSingle(l, line);
      StripTrimRight(line);
      ParseStripped(TrimRight(line), line, l.section);
      SkippedLine(ws, y, l.section);
      assert l.(carry := []) == l;
    }
  }

  // ----------------------------------------------------------------- entries

  /** A key as it may stand in a line. */
  predicate KeyText(k: string) {
    k != [] && Trimmed(k) && '=' !in k && k[0] != '#' && k[0] != ';'
  }

  /** White space, key, white space, '=': and what follows. */
  function Assigning(w1: string, k: string, w2: string, tail: string): string {
    w1 + (k + w2 + "=" + tail)
  }

  lemma {:induction false} AssigningStrips(w1: string, k: string, w2: string, tail: string)
    requires AllSpace(w1) && KeyText(k)
    ensures Strip(Assigning(w1, k, w2, tail)) == k + w2 + "=" + TrimRight(tail)
  {
    var core := k + w2 + "=";
    TrimLeftOf(w1, core + tail);
    TrimRightPast(core, tail);
  }

  lemma {:induction false} AssigningSplits(w1: string, k: string, w2: string, tail: string)
    requires AllSpace(w1) && AllSpace(w2) && KeyText(k)
    ensures SplitAssign(Strip(Assigning(w1, k, w2, tail))) == Some((k + w2, Strip(tail)))
  {
    AssigningStrips(w1, k, w2, tail);
    SplitOf(k + w2, TrimRight(tail));
    TrimmedBothWays(tail);
  }

  lemma {:induction false} KeyNamed(k: string, w2: string, len: nat)
    requires AllSpace(w2) && KeyText(k) && |k| < len
    ensures Name(k + w2, len) == Lower(k)
  {
    StripOf([], k, w2);
    assert [] + k + w2 == k + w2;
  }

  lemma {:induction false} AssigningParsed(w1: string, k: string, w2: string, tail: string, section: string)
    requires AllSpace(w1) && AllSpace(w2) && KeyText(k) && !C.LooksLikeSection(Assigning(w1, k, w2, tail))
    ensures ParseLine(Assigning(w1, k, w2, tail), section) == Value(Lower(k), ValueOf(Strip(tail)))
  {
    var bare := Strip(Assigning(w1, k, w2, tail));
    AssigningStrips(w1, k, w2, tail);
    AssigningSplits(w1, k, w2, tail);
    KeyNamed(k, w2, |bare|);
    assert bare[0] == k[0];
  }

  /** What is left of a value with white space around it and, it may be, a comment behind it. */
  lemma {:induction false} PlainValue(w3: string, v: string, w4: string, c: string)
    requires AllSpace(w3) && AllSpace(w4) && ValueFits(v) && (c == [] || c[0] == ';' || c[0] == '#')
    requires c != [] ==> v != "\"" && v != "'"
    ensures ValueOf(Strip(w3 + v + w4 + c)) == v
  {
    if c == [] {
      assert w3 + v + w4 + c == w3 + v + w4;
      StripOf(w3, v, w4);
      StripTrimmed(v);
      ValueIfFits(v);
    } else if v == [] {
      BareComment(w3, w4, c);
    } else {
      ValueBeforeComment(w3, v, w4, c);
    }
  }

  lemma {:induction false} CommentStrips(x: string, c: string)
    requires c != [] && (c[0] == ';' || c[0] == '#')
    ensures TrimRight(x + c) == x + [c[0]] + TrimRight(c[1..])
  {
    assert x + c == x + [c[0]] + c[1..];
    TrimRightPast(x + [c[0]], c[1..]);
  }

  lemma {:induction false} BareComment(w3: string, w4: string, c: string)
    requires AllSpace(w3) && AllSpace(w4) && c != [] && (c[0] == ';' || c[0] == '#')
    ensures ValueOf(Strip(w3 + [] + w4 + c)) == []
  {
    assert w3 + [] + w4 + c == w3 + w4 + c;
    TrimLeftOf(w3 + w4, c);
    CommentStrips([], c);
    assert [] + c == c;
    assert Strip(w3 + w4 + c)[0] == c[0];
  }

  lemma {:induction false} ValueBeforeComment(w3: string, v: string, w4: string, c: string)
    requires AllSpace(w3) && AllSpace(w4) && ValueFits(v) && v != [] && c != [] && (c[0] == ';' || c[0] == '#')
    requires v != "\"" && v != "'"
    ensures ValueOf(Strip(w3 + v + w4 + c)) == v
  {
    var stripped, stops := v + w4 + [c[0]] + TrimRight(c[1..]), {';', '#'};
    assert Strip(w3 + v + w4 + c) == stripped by {
      assert w3 + v + w4 + c == w3 + (v + w4 + c);
      TrimLeftOf(w3, v + w4 + c);
      CommentStrips(v + w4, c);
    }
    assert stripped == v + w4 + ([c[0]] + TrimRight(c[1..]));
    UntilOf(v + w4, [c[0]] + TrimRight(c[1..]), stops);
    StripOf([], v, w4);
    assert [] + v + w4 == v + w4;
    assert stripped[0] == v[0] && (|v| > 1 ==> stripped[1] == v[1]);
    QuotedWhen(stripped, '"');
    QuotedWhen(stripped, '\'');
  }

  /** A value in quotes is taken as it stands. */
  lemma {:induction false} QuotedValue(w3: string, q: char, v: string, t: string)
    requires AllSpace(w3) && (q == '"' || q == '\'') && v != [] && q !in v
    ensures ValueOf(Strip(w3 + [q] + v + [q] + t)) == v
  {
    var inner := [q] + v + [q];
    assert Strip(w3 + [q] + v + [q] + t) == inner + TrimRight(t) by {
      assert w3 + [q] + v + [q] + t == w3 + (inner + t);
      TrimLeftOf(w3, inner + t);
      TrimRightPast(inner, t);
    }
    var s := inner + TrimRight(t);
    assert s[1..] == v + ([q] + TrimRight(t));
    UntilOf(v, [q] + TrimRight(t), {q});
  }

  // ------------------------------------------------------------ whole files

  /** White space, '[', the name between white space, ']', white space. */
  function Heading(w1: string, w2: string, s: string, w3: string, w4: string): string {
    w1 + ("[" + w2 + s + w3 + "]") + w4
  }

  lemma {:induction false} HeadingParsed(w1: string, w2: string, s: string, w3: string, w4: string, section: string)
    requires AllSpace(w1) && AllSpace(w2) && AllSpace(w3) && AllSpace(w4) && s != [] && Trimmed(s) && ']' !in s
    ensures ParseLine(Heading(w1, w2, s, w3, w4), section) == Section(Lower(s))
  {
    var bare := "[" + w2 + s + w3 + "]";
    StripOf(w1, bare, w4);
    StripTrimmed(bare);
    ParseStripped(Heading(w1, w2, s, w3, w4), bare, section);
    NameParsed(w2, s, w3, section);
  }

  lemma {:induction false} NameParsed(w2: string, s: string, w3: string, section: string)
    requires AllSpace(w2) && AllSpace(w3) && s != [] && Trimmed(s) && ']' !in s
    ensures ParseLine("[" + w2 + s + w3 + "]", section) == Section(Lower(s))
  {
    var bare, inner := "[" + w2 + s + w3 + "]", w2 + s + w3;
    BracketedRead(bare, section);
    assert bare[1..] == inner + "]";
    UntilOf(inner, "]", {']'});
    StripOf(w2, s, w3);
  }

  /** A line that may stand alone: it fits the buffer and is not continued. */
  predicate Fitting(line: string) {
    Single(line) && |line| + 1 < 1024
  }

  lemma {:induction false} TwoLines(ls: seq<string>, x: string, y: string)
    requires AllSingle(ls) && WalkText(ls).Some? && Fitting(x) && Fitting(y) && x != [] && y != []
    ensures
      var m := Accept(Accept(WalkText(ls).value, TrimRight(x)), TrimRight(y));
      LoadText(Lines(ls) + (x + "\n" + (y + "\n"))) == if m.failed then None else Some(m.entries)
  {
    LineReads(ls, x, y + "\n");
    var l := WalkText(ls).value;
    StepSingle(l, x);
    OneMoreText(StepOn(l, x), y, []);
    StepSingle(StepOn(l, x), y);
    assert y + "\n" + [] == y + "\n";
  }

  lemma {:induction false} EntryIsLoaded(ls: seq<string>, x: string, s: string, y: string, k: string, v: string)
    requires AllSingle(ls) && LoadText(Lines(ls)).Some? && Fitting(x) && Fitting(y) && x != [] && y != []
    requires (forall section :: ParseLine(x, section) == Section(s)) && ParseLine(y, s) == Value(k, v)
    ensures LoadText(Lines(ls) + (x + "\n" + (y + "\n"))) ==
              Some(LoadText(Lines(ls)).value[s := None][s + ":" + k := Some(v)])
  {
    var l := LoadedState(ls);
    TwoLines(ls, x, y);
    StripTrimRight(x);
    ParseStripped(TrimRight(x), x, l.section);
    StripTrimRight(y);
    ParseStripped(TrimRight(y), y, s);
  }

  /**
   * An entry under a heading, with white space anywhere around name, key and value, and with or without a comment:
   * it is loaded under the names in lower case, with the value as it stands, and nothing else is changed.
   */
  lemma {:induction false} PlainEntryIsLoaded(
    ls: seq<string>, h1: string, h2: string, s: string, h3: string, h4: string,
    w1: string, k: string, w2: string, w3: string, v: string, w4: string, c: string)
    requires AllSingle(ls) && LoadText(Lines(ls)).Some?
    requires AllSpace(h1) && AllSpace(h2) && AllSpace(h3) && AllSpace(h4) && s != [] && Trimmed(s) && ']' !in s
    requires AllSpace(w1) && AllSpace(w2) && AllSpace(w3) && AllSpace(w4) && KeyText(k) && ValueFits(v)
    requires c == [] || ((c[0] == ';' || c[0] == '#') && v != "\"" && v != "'")
    requires Fitting(Heading(h1, h2, s, h3, h4)) && Fitting(Assigning(w1, k, w2, w3 + v + w4 + c))
    requires !C.LooksLikeSection(Assigning(w1, k, w2, w3 + v + w4 + c))
    ensures
      LoadText(Lines(ls) + (Heading(h1, h2, s, h3, h4) + "\n" + (Assigning(w1, k, w2, w3 + v + w4 + c) + "\n"))) ==
        Some(LoadText(Lines(ls)).value[Lower(s) := None][Lower(s) + ":" + Lower(k) := Some(v)])
  {
    var x, y := Heading(h1, h2, s, h3, h4), Assigning(w1, k, w2, w3 + v + w4 + c);
    forall section ensures ParseLine(x, section) == Section(Lower(s)) { HeadingParsed(h1, h2, s, h3, h4, section); }
    AssigningParsed(w1, k, w2, w3 + v + w4 + c, Lower(s));
    PlainValue(w3, v, w4, c);
    EntryIsLoaded(ls, x, Lower(s), y, Lower(k), v);
  }

  /** The same with the value in quotes of either kind, which may hold anything but that quote. */
  lemma {:induction false} QuotedEntryIsLoaded(
    ls: seq<string>, h1: string, h2: string, s: string, h3: string, h4: string,
    w1: string, k: string, w2: string, w3: string, q: char, v: string, t: string)
    requires AllSingle(ls) && LoadText(Lines(ls)).Some?
    requires AllSpace(h1) && AllSpace(h2) && AllSpace(h3) && AllSpace(h4) && s != [] && Trimmed(s) && ']' !in s
    requires AllSpace(w1) && AllSpace(w2) && AllSpace(w3) && KeyText(k) && v != [] && q !in v && (q == '"' || q == '\'')
    requires Fitting(Heading(h1, h2, s, h3, h4)) && Fitting(Assigning(w1, k, w2, w3 + [q] + v + [q] + t))
    requires !C.LooksLikeSection(Assigning(w1, k, w2, w3 + [q] + v + [q] + t))
    ensures
      LoadText(Lines(ls) + (Heading(h1, h2, s, h3, h4) + "\n" +
                            (Assigning(w1, k, w2, w3 + [q] + v + [q] + t) + "\n"))) ==
        Some(LoadText(Lines(ls)).value[Lower(s) := None][Lower(s) + ":" + Lower(k) := Some(v)])
  {
    var x, y := Heading(h1, h2, s, h3, h4), Assigning(w1, k, w2, w3 + [q] + v + [q] + t);
    forall section ensures ParseLine(x, section) == Section(Lower(s)) { HeadingParsed(h1, h2, s, h3, h4, section); }
    AssigningParsed(w1, k, w2, w3 + [q] + v + [q] + t, Lower(s));
    QuotedValue(w3, q, v, t);
    EntryIsLoaded(ls, x, Lower(s), y, Lower(k), v);
  }

  // ------------------------------------------------------------ refused files

  /** Neither blank, nor a comment, nor a section, nor something before an '='. */
  predicate Malformed(line: string) {
    var bare := Strip(line);
    && bare != [] && bare[0] != '#' && bare[0] != ';'
    && !(bare[0] == '[' && bare[|bare|-1] == ']')
    && (bare[0] == '=' || '=' !in bare)
  }

  lemma {:induction false} ErrorExactly(line: string, section: string)
    ensures ParseLine(line, section).Error? <==> Malformed(line)
  {
    var bare := Strip(line);
    UntilSplits(bare, {'='});
    var key := Until(bare, {'='});
    assert bare != [] ==> (key == [] <==> bare[0] == '=');
    assert |key| == |bare| ==> key == bare;
  }

  lemma {:induction false} FailedStays(l: Loading, text: string)
    requires l.failed
    ensures LoadFrom(l, text) == None
    decreases |text|
  {
    if |text| > 0 {
      var chunk := Chunk(text, Room(l.carry));
      LoadStep(l, text);
      if chunk != [] && Turn(l, l.carry + chunk, Cut(chunk, Room(l.carry))).Some? {
        FailedStays(Turn(l, l.carry + chunk, Cut(chunk, Room(l.carry))).value, text[|chunk|..]);
      }
    }
  }

  /** One malformed line makes the whole file be refused, wherever it stands. */
  lemma {:induction false} MalformedRefuses(ls: seq<string>, line: string, rest: string)
    requires AllSingle(ls) && Single(line) && Malformed(line)
    ensures LoadText(Lines(ls) + (line + "\n" + rest)) == None
  {
    LineReads(ls, line, rest);
    if WalkText(ls).Some? {
      var l := WalkText(ls).value;
      StepSingle(l, line);
      StripTrimRight(line);
      ParseStripped(TrimRight(line), line, l.section);
      ErrorExactly(line, l.section);
      FailedStays(StepOn(l, line), rest);
    }
  }

  /** A file of lines that are not continued is refused exactly if a line is too long for the buffer or malformed. */
  lemma {:induction false} RefusedExactly(ls: seq<string>)
    requires AllSingle(ls)
    ensures LoadText(Lines(ls)) == None <==> exists i :: 0 <= i < |ls| && (|ls[i]| + 1 >= 1024 || Malformed(ls[i]))
  {
    WrongLines(ls);
    TextReads(ls, []);
    assert Lines(ls) + [] == Lines(ls);
  }

  lemma {:induction false} WrongLines(ls: seq<string>)
    requires AllSingle(ls)
    ensures (WalkText(ls).None? || WalkText(ls).value.failed) <==>
              exists i :: 0 <= i < |ls| && (|ls[i]| + 1 >= 1024 || Malformed(ls[i]))
    ensures WalkText(ls).Some? ==> |WalkText(ls).value.carry| == 0
    decreases |ls|
  {
    if |ls| > 0 {
      var front, last := ls[..|ls|-1], ls[|ls|-1];
      WrongLines(front);
      OneMoreWrong(front, last);
      assert ls == front + [last];
      if WalkText(front).Some? { WrongLine(WalkText(front).value, last); }
    }
  }

  lemma {:induction false} OneMoreWrong(ls: seq<string>, line: string)
    ensures
      var more := ls + [line];
      (exists i :: 0 <= i < |more| && (|more[i]| + 1 >= 1024 || Malformed(more[i]))) <==>
      (exists i :: 0 <= i < |ls| && (|ls[i]| + 1 >= 1024 || Malformed(ls[i])))
      || |line| + 1 >= 1024 || Malformed(line)
  {
    var more := ls + [line];
    assert more[|ls|] == line;
    assert forall i :: 0 <= i < |ls| ==> more[i] == ls[i];
  }

  lemma {:induction false} WrongLine(l: Loading, line: string)
    requires |l.carry| == 0 && Single(line)
    ensures StepOn(l, line).failed <==> l.failed || Malformed(line)
    ensures |StepOn(l, line).carry| == 0
  {
    StepSingle(l, line);
    if line == [] {
      assert Strip(line) == [];
    } else {
      StripTrimRight(line);
      ParseStripped(TrimRight(line), line, l.section);
      ErrorExactly(line, l.section);
    }
  }

  // ---------------------------------------------------------- continued lines

  /** A line that ends in a backslash and the next one are read as one line without it. */
  lemma {:induction false} ContinuedIsJoined(ls: seq<string>, x: string, y: string, rest: string)
    requires AllSingle(ls) && '\n' !in x && '\n' !in y && x != [] && |x| + 1 + |y| + 1 < 1024
    ensures LoadText(Lines(ls) + (x + "\\" + "\n" + (y + "\n" + rest))) == LoadText(Lines(ls) + (x + y + "\n" + rest))
  {
    LineReads(ls, x + "\\", y + "\n" + rest);
    LineReads(ls, x + y, rest);
    if WalkText(ls).Some? {
      var l := WalkText(ls).value;
      CarriesLine(l, x);
      OneMoreText(StepOn(l, x + "\\"), y, rest);
      JoinedStep(l, x, y);
    }
  }

  lemma {:induction false} CarriesLine(l: Loading, x: string)
    requires |l.carry| == 0
    ensures StepOn(l, x + "\\") == l.(carry := x)
  {
    var line := x + "\\";
    TrimRightOf(line, []);
    assert line + [] == line && l.carry + line == line;
    StepForm(l, line, line);
    assert line[..|line|-1] == x;
  }

  lemma {:induction false} JoinedStep(l: Loading, x: string, y: string)
    requires |l.carry| == 0 && x != []
    ensures StepOn(l.(carry := x), y) == StepOn(l, x + y)
  {
    assert l.carry + (x + y) == x + y;
    StepForm(l, x + y, x + y);
    StepForm(l.(carry := x), y, x + y);
  }
}
