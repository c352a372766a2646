/** The log file and its two backups, src/logging/elog_port.c. Only this program touches them. */
module LogRotation {
  import opened Common

  const LIMIT := 1024 * 1024

  /** The three files (`first` is the newer backup), whether the log is open, and every byte ever written to it. */
  datatype State = State(
    current: Option<Bytes>, first: Option<Bytes>, second: Option<Bytes>, logging: bool, written: Bytes)

  /** Which calls of one output succeed; `stored` is how much of the record reaches the file. */
  datatype Luck = Luck(stat: bool, shifts: bool, moves: bool, reopens: bool, stored: nat, flushes: bool)

  function Text(f: Option<Bytes>): Bytes {
    if f.Some? then f.value else []
  }

  /** The older backup, the newer one and the log, read in that order. */
  function Joined(s: State): Bytes {
    Text(s.second) + Text(s.first) + Text(s.current)
  }

  // --------------------------------------------------------------- the steps

  function Init(s: State, opens: bool): State {
    if opens then s.(logging := true, current := Some(Text(s.current))) else s.(logging := false)
  }

  function Deinit(s: State): State {
    s.(logging := false)
  }

  /** The state, and whether the record may be written. */
  function Prepare(s: State, size: nat, luck: Luck): (State, bool)
    requires size <= LIMIT
  {
    if !luck.stat then (s, false)
    else if |Text(s.current)| <= LIMIT - size then (s, true)
    else if s.first.Some? && !luck.shifts then (s, false)
    else
      var t := if s.first.Some? then s.(second := s.first, first := None) else s;
      if !luck.moves then (t, false)
      else
        var u := t.(first := t.current, current := None);
        if !luck.reopens then (u.(logging := false), false)
        else (u.(current := Some([])), true)
  }

  function Record(log: Bytes): Bytes {
    if |log| > LIMIT then log[..LIMIT] else log
  }

  /** What one output appends, and whether file output goes on. */
  function Output(s: State, log: Bytes, luck: Luck): State {
    if !s.logging then s
    else
      var record := Record(log);
      var (t, ready) := Prepare(s, |record|, luck);
      if !ready then t.(logging := false)
      else
        var kept := if luck.stored < |record| then record[..luck.stored] else record;
        t.(current := Some(Text(t.current) + kept), written := t.written + kept,
           logging := kept == record && luck.flushes)
  }

  datatype Event = DoInit(opens: bool) | DoOutput(log: Bytes, luck: Luck) | DoDeinit

  function Step(s: State, e: Event): State {
    match e
    case DoInit(opens) => Init(s, opens)
    case DoOutput(log, luck) => Output(s, log, luck)
    case DoDeinit => Deinit(s)
  }

  function Run(s: State, es: seq<Event>): State {
    if es == [] then s else Step(Run(s, es[..|es|-1]), es[|es|-1])
  }

  // ------------------------------------------------- the module of the source

  class LogPort {
    var current: Option<Bytes>
    var first: Option<Bytes>
    var second: Option<Bytes>
    /** Whether the file handle is not null; it is then a handle on `current`. */
    var handle: bool
    ghost var written: Bytes

    ghost function View(): State
      reads this
    {
      State(current, first, second, handle, written)
    }

    method ElogPortInit(opens: bool) returns (ok: bool)
      modifies this
      ensures View() == Init(old(View()), opens) && ok == opens
    {
      handle := opens;
      if opens && current.None? {
        current := Some([]);
      }
      return opens;
    }

    method ElogPortDeinit()
      modifies this
      ensures View() == Deinit(old(View()))
    {
      handle := false;
    }

    method PrepareLog(size: nat, luck: Luck) returns (ready: bool)
      requires handle && current.Some? && size <= LIMIT
      modifies this
      ensures (View(), ready) == Prepare(old(View()), size, luck)
    {
      if !luck.stat {
        return false;
      }
      if |current.value| <= LIMIT - size {
        return true;
      }
      if first.Some? {
        if !luck.shifts {
          return false;
        }
        second, first := first, None;
      }
      if !luck.moves {
        return false;
      }
      first, current := current, None;
      handle := luck.reopens;
      if !handle {
        return false;
      }
      current := Some([]);
      return true;
    }

    method ElogPortOutput(log: Bytes, luck: Luck)
      requires handle ==> current.Some?
      modifies this
      ensures View() == Output(old(View()), log, luck)
    {
      if !handle {
        return;
      }
      var record := if |log| > LIMIT then log[..LIMIT] else log;
      var ready := PrepareLog(|record|, luck);
      if ready {
        var kept := if luck.stored < |record| then record[..luck.stored] else record;
        current := Some(current.value + kept);
        written := written + kept;
        if kept == record && luck.flushes {
          return;
        }
      }
      handle := false;
    }
  }

  // -------------------------------------------------------------- the results

  predicate EndsWith(all: Bytes, tail: Bytes) {
    |tail| <= |all| && all[|all|-|tail|..] == tail
  }

  predicate Small(f: Option<Bytes>) {
    |Text(f)| <= LIMIT
  }

  ghost predicate Whole(s: State) {
    && EndsWith(s.written, Joined(s))
    && Small(s.current) && Small(s.first) && Small(s.second)
    && (s.logging ==> s.current.Some?)
  }

  lemma {:induction false} EndsWithMore(all: Bytes, tail: Bytes, more: Bytes)
    requires EndsWith(all, tail)
    ensures EndsWith(all + more, tail + more)
  {
    assert (all + more)[|all + more|-|tail + more|..] == all[|all|-|tail|..] + more;
  }

  lemma {:induction false} EndsWithLess(all: Bytes, x: Bytes, y: Bytes)
    requires EndsWith(all, x + y)
    ensures EndsWith(all, y)
  {
    var tail := x + y;
    assert all[|all|-|tail|..][|x|..] == all[|all|-|y|..];
  }

  lemma {:induction false} Shift(all: Bytes, a: Bytes, b: Bytes, c: Bytes)
    requires EndsWith(all, a + b + c)
    ensures EndsWith(all, b + [] + c)
  {
    MiddleOf(a, b, c);
    EndsWithLess(all, a, b + c);
    assert b + [] == b;
  }

  lemma {:induction false} Move(a: Bytes, c: Bytes)
    ensures a + [] + c == a + c + []
  {
  }

  /** Moving backups along loses at most the oldest of them. */
  lemma {:induction false} PrepareWhole(s: State, size: nat, luck: Luck)
    requires Whole(s) && size <= LIMIT
    ensures
      var (t, ready) := Prepare(s, size, luck);
      && EndsWith(t.written, Joined(t)) && Small(t.current) && Small(t.first) && Small(t.second)
      && (ready ==>
          && s.logging == t.logging && |Text(t.current)| + size <= LIMIT
          && (s.current.Some? ==> t.current.Some?))
  {
    var a, b, c := Text(s.second), Text(s.first), Text(s.current);
    if s.first.Some? { Shift(s.written, a, b, c); }
    Move(a, c);
    Move(b, c);
  }

  lemma {:induction false} Append(t: State, kept: Bytes)
    requires EndsWith(t.written, Joined(t))
    ensures EndsWith(t.written + kept, Text(t.second) + Text(t.first) + (Text(t.current) + kept))
  {
    EndsWithMore(t.written, Joined(t), kept);
    MiddleOf(Text(t.second) + Text(t.first), Text(t.current), kept);
  }

  lemma {:induction false} OutputWhole(s: State, log: Bytes, luck: Luck)
    requires Whole(s) && s.logging
    ensures Whole(Output(s, log, luck))
  {
    var record := Record(log);
    PrepareWhole(s, |record|, luck);
    Append(Prepare(s, |record|, luck).0, if luck.stored < |record| then record[..luck.stored] else record);
  }

  lemma {:induction false} StepWhole(s: State, e: Event)
    requires Whole(s)
    ensures Whole(Step(s, e))
  {
    if e.DoOutput? && s.logging { OutputWhole(s, e.log, e.luck); }
  }

  /**
   * Starting from files within the limit, after any outputs, failures and restarts: the backups and the log, joined
   * oldest first, are the end of everything ever written, and no file is over the limit.
   */
  lemma {:induction false} LogIsSuffix(s: State, es: seq<Event>)
    requires Whole(s)
    ensures Whole(Run(s, es))
  {
    if es != [] {
      LogIsSuffix(s, es[..|es|-1]);
      StepWhole(Run(s, es[..|es|-1]), es[|es|-1]);
    }
  }

  /** How many bytes the three files hold. */
  function Held(s: State): nat {
    |Text(s.second)| + |Text(s.first)| + |Text(s.current)|
  }

  lemma {:induction false} HeldIsJoined(s: State)
    ensures |Joined(s)| == Held(s)
  {
  }

  /**
   * Records of at most `bound` bytes: a backup was full when it was made, and nothing is lost while there are fewer
   * than two.
   */
  ghost predicate Retains(s: State, bound: nat) {
    && (s.first.Some? ==> |s.first.value| > LIMIT - bound)
    && (s.second.Some? ==> |s.second.value| > LIMIT - bound)
    && (Held(s) < |s.written| ==> s.second.Some?)
  }

  ghost predicate Bounded(es: seq<Event>, bound: nat) {
    forall i :: 0 <= i < |es| && es[i].DoOutput? ==> |Record(es[i].log)| <= bound
  }

  /** Rotation makes a backup only of a file that had no room for the record. */
  lemma {:induction false} PrepareRetains(s: State, size: nat, luck: Luck, bound: nat)
    requires Retains(s, bound) && size <= bound && size <= LIMIT && s.current.Some?
    ensures Retains(Prepare(s, size, luck).0, bound)
  {
  }

  lemma {:induction false} OutputRetains(s: State, log: Bytes, luck: Luck, bound: nat)
    requires Retains(s, bound) && |Record(log)| <= bound && s.current.Some? && s.logging
    ensures Retains(Output(s, log, luck), bound)
  {
    var record := Record(log);
    var (t, ready) := Prepare(s, |record|, luck);
    PrepareRetains(s, |record|, luck, bound);
  }

  lemma {:induction false} StepRetains(s: State, e: Event, bound: nat)
    requires Whole(s) && Retains(s, bound) && (e.DoOutput? ==> |Record(e.log)| <= bound)
    ensures Retains(Step(s, e), bound)
  {
    if e.DoOutput? && s.logging { OutputRetains(s, e.log, e.luck, bound); }
  }

  /** A log without backups, of which nothing is lost yet. */
  ghost predicate Begun(s: State) {
    && s == State(s.current, None, None, s.logging, Text(s.current)) && Small(s.current)
    && (s.logging ==> s.current.Some?)
  }

  lemma {:induction false} BegunIsWhole(s: State)
    requires Begun(s)
    ensures Whole(s)
  {
    assert Joined(s) == s.written;
  }

  lemma {:induction false} RunRetains(s: State, es: seq<Event>, bound: nat)
    requires Begun(s) && Bounded(es, bound)
    ensures Retains(Run(s, es), bound)
    decreases |es|
  {
    if es != [] {
      var front := es[..|es|-1];
      RunRetains(s, front, bound);
      BegunIsWhole(s);
      LogIsSuffix(s, front);
      StepRetains(Run(s, front), es[|es|-1], bound);
    }
  }

  /** From a log without backups: either not a byte is lost, or more than `LIMIT - bound` of the latest are kept. */
  lemma {:induction false} LogRetains(s: State, es: seq<Event>, bound: nat)
    requires Begun(s) && Bounded(es, bound)
    ensures Retains(Run(s, es), bound)
    ensures Joined(Run(s, es)) == Run(s, es).written || |Joined(Run(s, es))| > LIMIT - bound
  {
    var t := Run(s, es);
    RunRetains(s, es, bound);
    HeldIsJoined(t);
    assert EndsWith(t.written, Joined(t)) by {
      BegunIsWhole(s);
      LogIsSuffix(s, es);
    }
    if Held(t) == |t.written| { assert t.written[0..] == t.written; }
  }

  // ------------------------------------------------- what an output must do

  /** Every call that is made succeeds. */
  predicate AllGoesWell(log: Bytes, luck: Luck) {
    luck.stat && luck.shifts && luck.moves && luck.reopens && luck.flushes && luck.stored >= |log|
  }

  /** The first megabyte of it. */
  function FirstMegabyte(log: Bytes): Bytes {
    if |log| <= 1048576 then log else log[..1048576]
  }

  /**
   * A record goes in whole, but for what exceeds a megabyte, behind what is there if both fit in a megabyte; else the
   * files move up by one and it begins a new one. File output goes on.
   */
  lemma {:induction false} OutputKeepsAll(s: State, log: Bytes, luck: Luck)
    requires s.logging && s.current.Some? && |s.current.value| <= 1048576 && AllGoesWell(log, luck)
    ensures
      var t, record := Output(s, log, luck), FirstMegabyte(log);
      && t.logging && t.written == s.written + record
      && if |s.current.value| + |record| <= 1048576 then
           t == s.(current := Some(s.current.value + record), written := t.written)
         else
           && t.current == Some(record) && t.first == s.current
           && t.second == if s.first.Some? then s.first else s.second
  {
    assert [] + FirstMegabyte(log) == FirstMegabyte(log);
  }

  /** It goes on only as long as all that was needed succeeded. */
  lemma {:induction false} OutputGoesOnExactly(s: State, log: Bytes, luck: Luck)
    requires s.logging && s.current.Some? && |s.current.value| <= 1048576
    ensures
      var record := FirstMegabyte(log);
      var full := |s.current.value| + |record| > 1048576;
      Output(s, log, luck).logging <==>
        && luck.stat && luck.stored >= |record| && luck.flushes
        && (full ==> luck.moves && luck.reopens && (s.first.Some? ==> luck.shifts))
  {
    var record := FirstMegabyte(log);
    assert luck.stored < |record| ==> |record[..luck.stored]| < |record|;
  }

  /** Without file output nothing changes. */
  lemma {:induction false} SilentOutput(s: State, log: Bytes, luck: Luck)
    requires !s.logging
    ensures Output(s, log, luck) == s
  {
  }

  /** Opening and closing decide whether file output goes on; what is in the files stays as it is. */
  lemma {:induction false} OpensAndCloses(s: State, opens: bool)
    ensures Init(s, opens).logging == opens && !Deinit(s).logging
    ensures Joined(Init(s, opens)) == Joined(s) == Joined(Deinit(s))
    ensures opens ==> Init(s, opens).current.Some?
  {
  }
}
