/** Loading and dumping a whole INI file, common/param/iniparser.c. A file is the text of its characters. */
module IniFile {
  import opened Common
  import opened IniLine
  import D = Dictionary

  const LINE_SIZE := 1024

  // ---------------------------------------------------------------- loading

  /** Up to and with the first newline, but not more than max characters: one fgets. */
  function Chunk(text: string, max: nat): (c: string)
    ensures |c| <= |text| && |c| <= max && (text != [] && max > 0 ==> c != [])
  {
    if text == [] || max == 0 then []
    else if text[0] == '\n' then "\n"
    else [text[0]] + Chunk(text[1..], max - 1)
  }

  type Entries = map<string, Option<string>>

  /**
   * What goes from line to line: the start of a continued line, the section, the dictionary, and whether a line
   * failed.
   */
  datatype Loading = Loading(carry: string, section: string, entries: Entries, failed: bool)

  const EMPTY := Loading([], [], map[], false)

  /** One line, its end stripped. */
  function Accept(l: Loading, line: string): Loading {
    match ParseLine(line, l.section)
    case Section(name) => l.(carry := [], section := name, entries := l.entries[name := None])
    case Value(key, value) => l.(carry := [], entries := l.entries[l.section + ":" + key := Some(value)])
    case Error => l.(carry := [], failed := true)
    case _ => l.(carry := [])
  }

  /**
   * One turn of the loop on the line in the buffer; None gives the file up. `cut` says it filled the buffer
   * unfinished.
   */
  function Turn(l: Loading, line: string, cut: bool): Option<Loading> {
    if |line| <= 1 then Some(l)
    else if cut then None
    else
      var trimmed := TrimRight(line);
      if trimmed != [] && trimmed[|trimmed|-1] == '\\' then Some(l.(carry := trimmed[..|trimmed|-1]))
      else Some(Accept(l, trimmed))
  }

  predicate Cut(chunk: string, max: nat) {
    chunk == [] || (chunk[|chunk|-1] != '\n' && |chunk| == max)
  }

  /** How much fits behind a continued line. */
  function Room(carry: string): nat {
    if |carry| + 1 < LINE_SIZE then LINE_SIZE - 1 - |carry| else 0
  }

  function LoadFrom(l: Loading, text: string): Option<Entries>
    decreases |text|
  {
    if text == [] then
      if l.failed || l.carry != [] then None else Some(l.entries)
    else
      var max := Room(l.carry);
      var chunk := Chunk(text, max);
      if chunk == [] then None
      else
        match Turn(l, l.carry + chunk, Cut(chunk, max))
        case None => None
        case Some(next) => LoadFrom(next, text[|chunk|..])
  }

  /** The dictionary a file holds, or None if it is refused. */
  function LoadText(text: string): Option<Entries> {
    LoadFrom(EMPTY, text)
  }

  lemma {:induction false} LoadStep(l: Loading, text: string)
    requires text != []
    ensures
      var chunk := Chunk(text, Room(l.carry));
      LoadFrom(l, text) ==
        if chunk == [] || Turn(l, l.carry + chunk, Cut(chunk, Room(l.carry))).None? then None
        else LoadFrom(Turn(l, l.carry + chunk, Cut(chunk, Room(l.carry))).value, text[|chunk|..])
  {
  }

  /** What a complete line does to the dictionary. */
  method AcceptLine(dict: D.Dictionary, section: string, failed: bool, line: string)
      returns (section': string, failed': bool)
    requires dict.Valid()
    modifies dict, dict.key, dict.val, dict.hash
    ensures dict.Valid()
    ensures Loading([], section', dict.Map(), failed') == Accept(Loading([], section, old(dict.Map()), failed), line)
    ensures (dict.key == old(dict.key) || fresh(dict.key)) && (dict.val == old(dict.val) || fresh(dict.val))
    ensures dict.hash == old(dict.hash) || fresh(dict.hash)
  {
    section', failed' := section, failed;
    var status := IniparserLine(line, section);
    match status {
      case Section(name) =>
        section' := name;
        dict.Set(name, None);
      case Value(key, value) =>
        dict.Set(section + ":" + key, Some(value));
      case Error =>
        failed' := true;
      case _ =>
    }
  }

  /** The body of the loop; `ok` is false if the file is given up. */
  method LoadTurn(dict: D.Dictionary, carry: string, section: string, failed: bool, line: string, cut: bool)
    returns (ok: bool, carry': string, section': string, failed': bool)
    requires dict.Valid()
    modifies dict, dict.key, dict.val, dict.hash
    ensures dict.Valid()
    ensures Turn(Loading(carry, section, old(dict.Map()), failed), line, cut) ==
              if ok then Some(Loading(carry', section', dict.Map(), failed')) else None
    ensures (dict.key == old(dict.key) || fresh(dict.key)) && (dict.val == old(dict.val) || fresh(dict.val))
    ensures dict.hash == old(dict.hash) || fresh(dict.hash)
  {
    ok, carry', section', failed' := true, carry, section, failed;
    if |line| <= 1 {
      return;
    }
    if cut {
      ok := false;
      return;
    }
    var trimmed := TrimRight(line);
    if trimmed != [] && trimmed[|trimmed|-1] == '\\' {
      carry' := trimmed[..|trimmed|-1];
      return;
    }
    section', failed' := AcceptLine(dict, section, failed, trimmed);
    carry' := [];
  }

  /**
   * What loading gives: none if the file cannot be opened (`file` is None), is refused, or breaks off in a read
   * error.
   */
  function LoadFile(file: Option<string>, broken: bool): Option<Entries> {
    if file.None? || broken then None else LoadText(file.value)
  }

  method IniparserLoad(file: Option<string>, broken: bool) returns (dict: D.Dictionary?)
    ensures dict == null <==> LoadFile(file, broken).None?
    ensures dict != null ==> fresh(dict) && dict.Valid() && Some(dict.Map()) == LoadFile(file, broken)
  {
    if file.None? {
      return null;
    }
    var built := new D.Dictionary(0);
    var section, carry, errs, rest := "", "", false, file.value;
    while rest != []
      invariant built.Valid()
      invariant fresh(built) && fresh(built.key) && fresh(built.val) && fresh(built.hash)
      invariant LoadFrom(Loading(carry, section, built.Map(), errs), rest) == LoadText(file.value)
      decreases |rest|
    {
      LoadStep(Loading(carry, section, built.Map(), errs), rest);
      var room := Room(carry);
      var chunk := Chunk(rest, room);
      if chunk == [] {
        return null;
      }
      var ok;
      ok, carry, section, errs := LoadTurn(built, carry, section, errs, carry + chunk, Cut(chunk, room));
      if !ok {
        return null;
      }
      rest := rest[|chunk|..];
    }
    if errs || broken || carry != [] {
      return null;
    }
    return built;
  }

  // ---------------------------------------------------------------- dumping

  predicate IsSection(key: string) {
    ':' !in key
  }

  /** The keys without a colon, in slot order. */
  function Sections(slots: D.Slots): seq<string> {
    if slots == [] then []
    else
      var last := slots[|slots|-1];
      Sections(slots[..|slots|-1]) + if last.Some? && IsSection(last.value.key) then [last.value.key] else []
  }

  function EntryLine(key: string, val: Option<string>): string {
    ValueLine(key, if val.Some? then val.value else []) + "\n"
  }

  predicate InSection(key: string, s: string) {
    |key| > |s| && key[..|s|] == s && key[|s|] == ':'
  }

  /** The lines of one section's entries, in slot order. */
  function EntryLines(slots: D.Slots, s: string): string {
    if slots == [] then []
    else
      var last := slots[|slots|-1];
      EntryLines(slots[..|slots|-1], s) +
        if last.Some? && InSection(last.value.key, s) then EntryLine(last.value.key[|s|+1..], last.value.val) else []
  }

  /** A section is printed only if its name, in lower case, is found. */
  function SectionText(slots: D.Slots, s: string): string {
    if Lower(Prefix(s, LINE_SIZE)) in D.MapOf(slots) then
      "\n" + SectionLine(s) + "\n" + EntryLines(slots, s) + "\n"
    else []
  }

  function SectionTexts(slots: D.Slots, names: seq<string>): string {
    if names == [] then [] else SectionTexts(slots, names[..|names|-1]) + SectionText(slots, names[|names|-1])
  }

  /** Without any section the keys are printed as they are; a missing value shows as printf shows it. */
  function BareLines(slots: D.Slots): string {
    if slots == [] then []
    else
      var last := slots[|slots|-1];
      BareLines(slots[..|slots|-1]) +
        if last.Some? then
          last.value.key + " = " + (if last.value.val.Some? then last.value.val.value else "(null)") + "\n"
        else []
  }

  function DumpText(slots: D.Slots): string {
    if Sections(slots) == [] then BareLines(slots) else SectionTexts(slots, Sections(slots)) + "\n"
  }

  method Getnsec(d: D.Dictionary) returns (nsec: nat)
    requires d.Valid()
    ensures nsec == |Sections(d.slots)|
  {
    nsec := 0;
    for i := 0 to d.size
      invariant nsec == |Sections(d.slots[..i])|
    {
      assert d.slots[..i+1][..i] == d.slots[..i];
      if d.key[i].Some? && ':' !in d.key[i].value {
        nsec := nsec + 1;
      }
    }
    assert d.slots[..d.size] == d.slots;
  }

  lemma {:induction false} SectionsPrefix(slots: D.Slots, i: nat)
    requires i <= |slots|
    ensures Sections(slots[..i]) <= Sections(slots)
    decreases |slots| - i
  {
    if i == |slots| {
      assert slots[..i] == slots;
    } else {
      SectionsPrefix(slots, i + 1);
      assert slots[..i+1][..i] == slots[..i];
    }
  }

  lemma {:induction false} SectionsStep(slots: D.Slots, i: nat)
    requires i < |slots|
    ensures Sections(slots[..i+1]) ==
              Sections(slots[..i]) +
                if slots[i].Some? && IsSection(slots[i].value.key) then [slots[i].value.key] else []
  {
    assert slots[..i+1][..i] == slots[..i];
  }

  lemma {:induction false} SectionAt(slots: D.Slots, i: nat)
    requires i < |slots| && slots[i].Some? && IsSection(slots[i].value.key)
    ensures
      var n := |Sections(slots[..i])|;
      n < |Sections(slots)| && Sections(slots)[n] == slots[i].value.key
  {
    SectionsStep(slots, i);
    SectionsPrefix(slots, i + 1);
    assert Sections(slots[..i+1])[|Sections(slots[..i])|] == slots[i].value.key;
  }

  /** The name of the n-th section, if there are that many. */
  method Getsecname(d: D.Dictionary, n: nat) returns (name: Option<string>)
    requires d.Valid()
    ensures name == if n < |Sections(d.slots)| then Some(Sections(d.slots)[n]) else None
  {
    ghost var slots := d.slots;
    var foundsec := 0;
    for i := 0 to d.size
      invariant foundsec == |Sections(slots[..i])| <= n
    {
      SectionsStep(slots, i);
      assert slots[i] == D.Slot(d.key[i], d.val[i]);
      if d.key[i].Some? && ':' !in d.key[i].value {
        foundsec := foundsec + 1;
        if foundsec > n {
          SectionAt(slots, i);
          return d.key[i];
        }
      }
    }
    assert slots[..d.size] == slots;
    return None;
  }

  lemma {:induction false} EntryLinesStep(slots: D.Slots, j: nat, s: string)
    requires j < |slots|
    ensures EntryLines(slots[..j+1], s) ==
              EntryLines(slots[..j], s) +
                if slots[j].Some? && InSection(slots[j].value.key, s) then
                  EntryLine(slots[j].value.key[|s|+1..], slots[j].value.val)
                else []
  {
    assert slots[..j+1][..j] == slots[..j];
  }

  /** The loop over the keys of one section. */
  method DumpEntries(d: D.Dictionary, s: string) returns (lines: string)
    requires d.Valid()
    ensures lines == EntryLines(d.slots, s)
  {
    ghost var slots := d.slots;
    lines := [];
    for j := 0 to d.size
      invariant lines == EntryLines(slots[..j], s)
    {
      EntryLinesStep(slots, j, s);
      assert slots[j] == D.Slot(d.key[j], d.val[j]);
      if d.key[j].Some? {
        var key := d.key[j].value;
        if |key| > |s| && key[..|s|] == s && key[|s|] == ':' {
          lines := lines + EntryLine(key[|s|+1..], d.val[j]);
        }
      }
    }
    assert slots[..d.size] == slots;
  }

  method DumpSection(d: D.Dictionary, s: string) returns (text: string)
    requires d.Valid()
    ensures text == SectionText(d.slots, s)
  {
    var entry := StrLwc(s, LINE_SIZE + 1);
    var found, _ := d.Get(entry);
    if !found {
      return [];
    }
    var lines := DumpEntries(d, s);
    return "\n" + SectionLine(s) + "\n" + lines + "\n";
  }

  method DumpBare(d: D.Dictionary) returns (text: string)
    requires d.Valid()
    ensures text == BareLines(d.slots)
  {
    text := [];
    for i := 0 to d.size
      invariant text == BareLines(d.slots[..i])
    {
      assert d.slots[..i+1][..i] == d.slots[..i];
      if d.key[i].Some? {
        text := text + (d.key[i].value + " = " + (if d.val[i].Some? then d.val[i].value else "(null)") + "\n");
      }
    }
    assert d.slots[..d.size] == d.slots;
  }

  method DumpIni(d: D.Dictionary) returns (text: string)
    requires d.Valid()
    ensures text == DumpText(d.slots)
  {
    var nsec := Getnsec(d);
    if nsec < 1 {
      text := DumpBare(d);
      return;
    }
    text := [];
    ghost var names := Sections(d.slots);
    for i := 0 to nsec
      invariant text == SectionTexts(d.slots, names[..i])
    {
      var name := Getsecname(d, i);
      var section := DumpSection(d, name.value);
      assert names[..i+1][..i] == names[..i];
      text := text + section;
    }
    assert names[..nsec] == names;
    return text + "\n";
  }
}
