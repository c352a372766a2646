/** One line of an INI file: what iniparser_line in common/param/iniparser.c reads, and what the dump writes. */
module IniLine {
  import opened Common

  // ------------------------------------------------------------- characters

  predicate IsSpace(c: char) {
    c == ' ' || '\t' <= c <= '\r'
  }

  function LowerChar(c: char): char {
    if 'A' <= c <= 'Z' then (c as int + 32) as char else c
  }

  function Lower(s: string): (r: string)
    ensures |r| == |s|
  {
    seq(|s|, i requires 0 <= i < |s| => LowerChar(s[i]))
  }

  function TrimLeft(s: string): (r: string)
    ensures |r| <= |s|
  {
    if s == [] || !IsSpace(s[0]) then s else TrimLeft(s[1..])
  }

  function TrimRight(s: string): (r: string)
    ensures |r| <= |s|
  {
    if s == [] || !IsSpace(s[|s|-1]) then s else TrimRight(s[..|s|-1])
  }

  function Strip(s: string): string {
    TrimRight(TrimLeft(s))
  }

  predicate Trimmed(s: string) {
    s == [] || (!IsSpace(s[0]) && !IsSpace(s[|s|-1]))
  }

  /** The longest prefix without any of the stop characters. */
  function Until(s: string, stops: set<char>): (r: string)
    ensures |r| <= |s|
  {
    if s == [] || s[0] in stops then [] else [s[0]] + Until(s[1..], stops)
  }

  function Prefix(s: string, n: nat): string {
    if |s| <= n then s else s[..n]
  }

  method SkipLeft(s: string) returns (first: nat)
    ensures first <= |s| && s[first..] == TrimLeft(s)
  {
    first := 0;
    while first < |s| && IsSpace(s[first])
      invariant first <= |s| && TrimLeft(s) == TrimLeft(s[first..])
    {
      assert s[first..][1..] == s[first+1..];
      first := first + 1;
    }
  }

  method SkipRight(s: string) returns (last: nat)
    ensures last <= |s| && s[..last] == TrimRight(s)
  {
    last := |s|;
    assert s[..last] == s;
    while last > 0
      invariant last <= |s| && TrimRight(s) == TrimRight(s[..last])
    {
      if !IsSpace(s[last-1]) {
        assert TrimRight(s[..last]) == s[..last];
        return;
      }
      assert s[..last][..last-1] == s[..last-1];
      last := last - 1;
    }
  }

  /** The white space at both ends is dropped. */
  method StrStrip(s: string) returns (r: string)
    ensures r == Strip(s)
  {
    var first := SkipLeft(s);
    var last := SkipRight(s[first..]);
    return s[first..][..last];
  }

  /** At most len - 1 characters are kept, in lower case. */
  method StrLwc(s: string, len: nat) returns (r: string)
    requires len > 0
    ensures r == Lower(Prefix(s, len - 1))
  {
    r := [];
    var i := 0;
    while i < |s| && i < len - 1
      invariant 0 <= i <= |s| && i <= len - 1 && r == Lower(s[..i])
    {
      r := r + [LowerChar(s[i])];
      i := i + 1;
    }
  }

  // ---------------------------------------------------------------- parsing

  datatype Status = Empty | Comment | Section(name: string) | Value(key: string, value: string) | Error

  /** The text of `%[^=] = `: what stands before the first '=', and what follows it and its white space. */
  function SplitAssign(line: string): Option<(string, string)> {
    var key := Until(line, {'='});
    if key == [] || |key| == |line| then None
    else Some((key, TrimLeft(line[|key|+1..])))
  }

  /** The text of `q%[^q]q` at the start of s; the closing quote may be missing. */
  function Quoted(s: string, q: char): Option<string> {
    if s == [] || s[0] != q then None
    else
      var body := Until(s[1..], {q});
      if body == [] then None else Some(body)
  }

  /** The value written after the '='. */
  function ValueOf(s: string): string {
    if Quoted(s, '"').Some? then Quoted(s, '"').value
    else if Quoted(s, '\'').Some? then Quoted(s, '\'').value
    else
      var plain := Strip(Until(s, {';', '#'}));
      if plain == "\"\"" || plain == "''" then [] else plain
  }

  function Name(s: string, len: nat): string {
    if len == 0 then [] else Lower(Prefix(Strip(s), len - 1))
  }

  /** `section` is the buffer the section name is read into; an empty name leaves its text there. */
  function ParseLine(input: string, section: string): Status {
    var line := Strip(input);
    if line == [] then Empty
    else if line[0] == '#' || line[0] == ';' then Comment
    else if line[0] == '[' && line[|line|-1] == ']' then
      var body := Until(line[1..], {']'});
      Section(Name(if body == [] then section else body, |line|))
    else
      match SplitAssign(line)
      case None => Error
      case Some((key, rest)) => Value(Name(key, |line|), ValueOf(rest))
  }

  /** The formats for quoted, plain and empty values, tried in the order of the source. */
  method ReadValue(rest: string) returns (value: string)
    ensures value == ValueOf(rest)
  {
    var double, single := Quoted(rest, '"'), Quoted(rest, '\'');
    if double.Some? {
      return double.value;
    }
    if single.Some? {
      return single.value;
    }
    var plain := Until(rest, {';', '#'});
    if plain != [] {
      value := StrStrip(plain);
      if value == "\"\"" || value == "''" {
        value := [];
      }
      return value;
    }
    return [];
  }

  method IniparserLine(input: string, section: string) returns (status: Status)
    ensures status == ParseLine(input, section)
  {
    var line := StrStrip(input);
    var len := |line|;
    if len < 1 {
      return Empty;
    }
    if line[0] == '#' || line[0] == ';' {
      return Comment;
    }
    if line[0] == '[' && line[len-1] == ']' {
      var body := Until(line[1..], {']'});
      var name := StrStrip(if body == [] then section else body);
      name := StrLwc(name, len);
      return Section(name);
    }
    var split := SplitAssign(line);
    if split.None? {
      return Error;
    }
    var (text, rest) := split.value;
    var key := StrStrip(text);
    key := StrLwc(key, len);
    var value := ReadValue(rest);
    return Value(key, value);
  }

  // ---------------------------------------------------------------- writing

  function Blanks(n: int): string {
    seq(if n < 0 then 0 else n, _ => ' ')
  }

  /** The format `%-30s`. */
  function Padded(k: string): string {
    k + Blanks(30 - |k|)
  }

  /** The line written for a key and its value, without its newline. */
  function ValueLine(k: string, v: string): string {
    Padded(k) + " = " + v
  }

  function SectionLine(s: string): string {
    "[" + s + "]"
  }
}
