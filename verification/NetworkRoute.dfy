/** Failover between two interfaces by one host route, src/network/network_route.cpp. */
module NetworkRoute {
  import opened RouteIdentity
  import P = LinkPolicy
  import N = RouteSignal

  /** What the two reads of /run/gzh_ipc.route give; anything may be left by a write that was cut off. */
  datatype Record = Record(target: string, device: string)

  const BLANK := Record("", "")

  /** What outlives the process: the kernel's table and the record file. */
  class Machine {
    var table: seq<Row>
    var record: Record
  }

  /** The state at one instant; a crash can come after any of them. */
  datatype Snapshot = Snapshot(table: seq<Row>, record: Record, active: int, address: nat, signal: N.Signal)

  /** Which parts of one call of `route` fail; `leftover` is what a failed write leaves in the record. */
  datatype Luck = Luck(recorded: bool, leftover: Record, done: bool)

  /**
   * What one turn of the loop meets. `before`, `meanwhile` and `after` are the table as others leave it since the last
   * turn, after the first inspection and before the second.
   */
  datatype Surroundings = Surroundings(
    wired: bool, wifi: bool, sources: (nat, nat), now: nat, readable: bool, readableAgain: bool,
    before: seq<Row>, meanwhile: seq<Row>, after: seq<Row>, deletion: Luck, addition: Luck, rollback: Luck)

  // ------------------------------------------------------------ crash safety

  /** At most one route for the target; if there is one it is ours and the record names it. */
  predicate CrashSafe(host: string, address: nat, table: seq<Row>, record: Record) {
    var found := Matching(table, address);
    || found == []
    || (exists id :: 0 <= id <= 1 && found == [OwnRow(address, id)] && record == Record(host, Interface(id)))
  }

  datatype Adoption = Adopted(active: int) | Refused

  /** The constructor's scan of the table: at most one route for the target, and the record must own it. */
  function AdoptionOf(host: string, address: nat, lines: seq<Line>, record: Record): Adoption {
    var found := Found(lines, address);
    if found == [] then Adopted(-1)
    else if |found| == 1 && Owns(host, record, found[0])
    then Adopted(if found[0].device == "eth0" then 0 else 1)
    else Refused
  }

  predicate Owns(host: string, record: Record, row: Row) {
    OwnedStreamRoute(host, row.device, record.target, record.device, row.metric, row.gateway, row.flags)
  }

  /** One more line of the table. */
  lemma {:induction false} AdoptionSnoc(host: string, address: nat, seen: seq<Line>, line: Line, record: Record)
    requires AdoptionOf(host, address, seen, record).Adopted?
    ensures
      var was, now := AdoptionOf(host, address, seen, record), AdoptionOf(host, address, seen + [line], record);
      if !(line.Parsed? && ToTarget(line.row, address)) then now == was
      else if was.active < 0 && Owns(host, record, line.row) then
        now == Adopted(if line.row.device == "eth0" then 0 else 1)
      else now == Refused
  {
    FoundSnoc(seen, line, address);
    assert Found(seen, address) == [] <==> AdoptionOf(host, address, seen, record).active < 0;
  }

  /** What is refused on the first lines is refused on all of them. */
  lemma {:induction false} RefusedStays(host: string, address: nat, lines: seq<Line>, n: nat, record: Record)
    requires n <= |lines| && AdoptionOf(host, address, lines[..n], record).Refused?
    ensures AdoptionOf(host, address, lines, record).Refused?
  {
    FoundPrefix(lines, n, address);
    var part, whole := Found(lines[..n], address), Found(lines, address);
    assert part[0] == whole[0];
  }

  method Adopt(host: string, address: nat, lines: seq<Line>, record: Record) returns (result: Adoption)
    ensures result == AdoptionOf(host, address, lines, record)
  {
    var active := -1;
    var n := 0;
    while n < |lines|
      invariant 0 <= n <= |lines|
      invariant AdoptionOf(host, address, lines[..n], record) == Adopted(active)
    {
      assert lines[..n+1] == lines[..n] + [lines[n]];
      AdoptionSnoc(host, address, lines[..n], lines[n], record);
      if lines[n].Parsed? {
        var row := lines[n].row;
        if row.dst == address && row.mask == HOST_MASK {
          if active >= 0 || !OwnedStreamRoute(host, row.device, record.target, record.device, row.metric, row.gateway,
              row.flags) {
            RefusedStays(host, address, lines, n + 1, record);
            return Refused;
          }
          active := if row.device == "eth0" then 0 else 1;
        }
      }
      n := n + 1;
    }
    assert lines[..n] == lines;
    return Adopted(active);
  }

  /** After a crash at a safe instant the next start takes the route over; it never refuses. */
  lemma {:induction false} SafeIsAdopted(host: string, address: nat, table: seq<Row>, record: Record)
    requires CrashSafe(host, address, table, record)
    ensures AdoptionOf(host, address, Printed(table), record).Adopted?
    ensures
      var active := AdoptionOf(host, address, Printed(table), record).active;
      -1 <= active <= 1 && Matching(table, address) == if active < 0 then [] else [OwnRow(address, active)]
  {
    FoundPrinted(table, address);
  }

  /** Conversely, what is taken over on the target is a single route that the record owns. */
  lemma {:induction false} AdoptedIsSafe(host: string, address: nat, table: seq<Row>, record: Record)
    requires AdoptionOf(host, address, Printed(table), record).Adopted?
    ensures CrashSafe(host, address, table, record)
  {
    FoundPrinted(table, address);
    MatchingIn(table, address);
    var found := Matching(table, address);
    if found != [] {
      var id := if found[0].device == "eth0" then 0 else 1;
      assert found[0] == OwnRow(address, id);
    }
  }

  // -------------------------------------------------------------- handshake

  /** One instant to the next: the pair moves by its rules, and while it stays ready the route stays what it was. */
  ghost predicate Follows(a: Snapshot, b: Snapshot) {
    && N.Moves(a.signal, b.signal)
    && (a.signal.ready && b.signal.ready ==> b.active == a.active && (a.address == 0 || b.address == a.address))
  }

  ghost predicate Protocol(trace: seq<Snapshot>) {
    && (forall i :: 0 <= i < |trace| ==> N.Valid(trace[i].signal))
    && forall i :: 0 <= i < |trace| - 1 ==> Follows(trace[i], trace[i+1])
  }

  lemma {:induction false} OverStaysAlong(trace: seq<Snapshot>, i: nat, j: nat, g: nat)
    requires Protocol(trace) && i <= j < |trace| && N.Over(trace[i].signal, g)
    ensures N.Over(trace[j].signal, g)
    decreases j - i
  {
    if i < j {
      assert Follows(trace[i], trace[i+1]);
      N.OverStays(trace[i].signal, trace[i+1].signal, g);
      OverStaysAlong(trace, i + 1, j, g);
    }
  }

  /**
   * If the pair is seen ready twice under one generation, then at every instant in between it was ready under it,
   * on the same interface, and no two different source addresses were recorded.
   */
  lemma {:induction false} Handshake(trace: seq<Snapshot>, i: nat, j: nat, k: nat)
    requires Protocol(trace) && i <= k <= j < |trace|
    requires trace[i].signal.ready && trace[j].signal.ready && trace[i].signal.generation == trace[j].signal.generation
    ensures trace[k].signal == trace[i].signal && trace[k].active == trace[i].active
    ensures forall m :: i <= m <= k && trace[m].address != 0 ==> trace[k].address == trace[m].address
    decreases k - i
  {
    if i < k {
      Handshake(trace, i, j, k - 1);
      assert Follows(trace[k-1], trace[k]);
      var g := trace[i].signal.generation;
      if N.Over(trace[k].signal, g) {
        OverStaysAlong(trace, k, j, g);
      }
    }
  }

  // ------------------------------------------------- the class of the source

  function Without(table: seq<Row>, row: Row): seq<Row> {
    if table == [] then []
    else if table[|table|-1] == row then table[..|table|-1]
    else Without(table[..|table|-1], row) + [table[|table|-1]]
  }

  lemma {:induction false} WithoutOwn(table: seq<Row>, address: nat, id: int)
    requires Matching(table, address) == [OwnRow(address, id)]
    ensures OwnRow(address, id) in table && Matching(Without(table, OwnRow(address, id)), address) == []
  {
    var n := |table| - 1;
    var front := Matching(table[..n], address);
    if ToTarget(table[n], address) {
      assert Matching(table, address) == front + [table[n]];
      assert |front| == 0 && table[n] == (front + [table[n]])[0];
    } else {
      WithoutOwn(table[..n], address, id);
      MatchingSnoc(Without(table[..n], OwnRow(address, id)), table[n], address);
    }
  }

  ghost predicate Chronicle(host: string, address: nat, trace: seq<Snapshot>) {
    && trace != [] && Protocol(trace)
    && forall i :: 0 <= i < |trace| ==> CrashSafe(host, address, trace[i].table, trace[i].record)
  }

  lemma {:induction false} ChronicleLonger(host: string, address: nat, trace: seq<Snapshot>, next: Snapshot)
    requires Chronicle(host, address, trace) && N.Valid(next.signal)
    requires Follows(trace[|trace|-1], next) && CrashSafe(host, address, next.table, next.record)
    ensures Chronicle(host, address, trace + [next])
  {
    forall i | 0 <= i < |trace + [next]| - 1 ensures Follows((trace + [next])[i], (trace + [next])[i+1]) {
      if i < |trace| - 1 { assert Follows(trace[i], trace[i+1]); }
    }
  }

  /** Wherever in its life the process is cut off, the next start takes over exactly the route that is there. */
  lemma {:induction false} CrashAnywhere(host: string, address: nat, trace: seq<Snapshot>, i: nat)
    requires Chronicle(host, address, trace) && i < |trace|
    ensures
      var s := trace[i];
      match AdoptionOf(host, address, Printed(s.table), s.record)
      case Adopted(active) => Matching(s.table, address) == if active < 0 then [] else [OwnRow(address, active)]
      case Refused => false
  {
    SafeIsAdopted(host, address, trace[i].table, trace[i].record);
  }

  /** The table others leave; what they give back is one to which nothing of the target's was added. */
  function Left(table: seq<Row>, address: nat, given: seq<Row>): seq<Row> {
    if Matching(given, address) <= Matching(table, address) then given else table
  }

  /** The interface in use after a switch: the new one, the old one if that is still or again there, or none. */
  function Outcome(was: int, next: int, installed: int, e: Surroundings): int {
    if installed >= 0 && !e.deletion.done then was
    else if e.addition.recorded && e.addition.done then next
    else if e.rollback.recorded && e.rollback.done then was
    else -1
  }

  /** Whether a turn changes the route: there is a reachable candidate, no conflict, something to do, and it is due. */
  predicate MoveDue(active: int, next: int, installed: int, retryAt: int, e: Surroundings) {
    && next >= 0 && (if next == 0 then e.wired else e.wifi)
    && installed != CONFLICT && (next != active || installed != active) && e.now >= retryAt
  }

  /** Our route is there when the turn looks. */
  predicate Present(table: seq<Row>, address: nat, e: Surroundings) {
    Matching(Left(table, address, e.before), address) != []
  }

  /** The link in use after the turn. */
  function ActiveAfter(was: int, next: int, present: bool, retryAt: int, e: Surroundings): int {
    if !Changes(was, next, present, retryAt, e) || (present && !e.deletion.done) then was
    else if e.addition.recorded && e.addition.done then next
    else if e.rollback.recorded && e.rollback.done then was
    else -1
  }

  /** When the route may be changed again. */
  function RetryAfter(was: int, next: int, present: bool, retryAt: int, e: Surroundings): int {
    if Changes(was, next, present, retryAt, e) then e.now + 3000
    else if !e.readable && e.now >= retryAt then e.now + 30000
    else retryAt
  }

  /** The turn changes the route: to the link called for, or to put the missing one back. */
  predicate Changes(active: int, next: int, present: bool, retryAt: int, e: Surroundings) {
    && e.readable && e.now >= retryAt
    && ((next == 0 && e.wired) || (next == 1 && e.wifi))
    && (next != active || !present)
  }

  /** Turn i of a history: the link called for after its sample, and what became of it. */
  ghost predicate TurnAt(es: seq<Surroundings>, samples: seq<P.Sample>, used: seq<int>, present: seq<bool>,
                         retries: seq<int>, i: nat)
    requires i < |es| == |samples| == |present| && |used| == |retries| == |es| + 1
  {
    var next := P.Choice(samples[..i+1], used[i]);
    && samples[i] == P.Sample(es[i].wired, es[i].wifi, es[i].now) && -1 <= used[i] <= 1
    && used[i+1] == ActiveAfter(used[i], next, present[i], retries[i], es[i])
    && retries[i+1] == RetryAfter(used[i], next, present[i], retries[i], es[i])
  }

  ghost predicate Turns(es: seq<Surroundings>, samples: seq<P.Sample>, used: seq<int>, present: seq<bool>,
                        retries: seq<int>)
  {
    && |samples| == |present| == |es| && |used| == |retries| == |es| + 1
    && forall i :: 0 <= i < |es| ==> TurnAt(es, samples, used, present, retries, i)
  }

  lemma {:induction false} TurnsLonger(es: seq<Surroundings>, samples: seq<P.Sample>, used: seq<int>,
                                       present: seq<bool>, retries: seq<int>, e: Surroundings, there: bool)
    requires Turns(es, samples, used, present, retries) && -1 <= used[|es|] <= 1
    ensures
      var after := samples + [P.Sample(e.wired, e.wifi, e.now)];
      var next := P.Choice(after, used[|es|]);
      Turns(es + [e], after, used + [ActiveAfter(used[|es|], next, there, retries[|es|], e)], present + [there],
            retries + [RetryAfter(used[|es|], next, there, retries[|es|], e)])
  {
    var n, after := |es|, samples + [P.Sample(e.wired, e.wifi, e.now)];
    var next := P.Choice(after, used[n]);
    var on := used + [ActiveAfter(used[n], next, there, retries[n], e)];
    var again := retries + [RetryAfter(used[n], next, there, retries[n], e)];
    forall i | 0 <= i < |es + [e]| ensures TurnAt(es + [e], after, on, present + [there], again, i) {
      if i < n {
        assert TurnAt(es, samples, used, present, retries, i) && after[..i+1] == samples[..i+1];
      } else {
        assert after[..i+1] == after;
      }
    }
  }

  /** No call of the turn fails, and no turn of the last half minute can have put it off. */
  ghost predicate Favourable(es: seq<Surroundings>, i: nat)
    requires i < |es|
  {
    && es[i].readable && es[i].deletion.done && es[i].addition.recorded && es[i].addition.done
    && forall j :: 0 <= j < i ==> es[j].now + 30000 <= es[i].now
  }

  lemma {:induction false} RetriesBounded(es: seq<Surroundings>, samples: seq<P.Sample>, used: seq<int>,
                                          present: seq<bool>, retries: seq<int>, n: nat)
    requires Turns(es, samples, used, present, retries) && n <= |es|
    ensures retries[n] == retries[0] || exists j :: 0 <= j < n && retries[n] <= es[j].now + 30000
  {
    if n > 0 {
      RetriesBounded(es, samples, used, present, retries, n - 1);
      assert TurnAt(es, samples, used, present, retries, n - 1);
    }
  }

  /**
   * Whatever link the policy calls for, a favourable turn ends on it: by ChoosesExactly, after three lost wired samples
   * and a reached Wi-Fi there is no staying on the wired link.
   */
  lemma {:induction false} MovesWhenCalled(es: seq<Surroundings>, samples: seq<P.Sample>, used: seq<int>,
                                           present: seq<bool>, retries: seq<int>, i: nat)
    requires Turns(es, samples, used, present, retries) && i < |es| && Favourable(es, i) && retries[0] <= es[i].now
    ensures P.Choice(samples[..i+1], used[i]) != -1 ==> used[i+1] == P.Choice(samples[..i+1], used[i])
  {
    assert TurnAt(es, samples, used, present, retries, i);
    RetriesBounded(es, samples, used, present, retries, i);
    P.ChoosesExactly(samples[..i+1], used[i]);
  }

  lemma {:induction false} ChangesExactly(active: int, next: int, present: bool, retryAt: int, e: Surroundings)
    requires -1 <= active <= 1 && -1 <= next <= 1 && (present ==> active >= 0)
    ensures
      var seen := if !e.readable then CONFLICT else if present then active else -1;
      && (MoveDue(active, next, seen, retryAt, e) <==> Changes(active, next, present, retryAt, e))
      && (Changes(active, next, present, retryAt, e) ==>
            Outcome(active, next, seen, e) == ActiveAfter(active, next, present, retryAt, e))
  {
  }

  /** What the inspection sees of a table with at most our own route. */
  lemma {:induction false} SeenExactly(readable: bool, table: seq<Row>, address: nat, active: int)
    requires Matching(table, address) != [] ==> active >= 0 && Matching(table, address) == [OwnRow(address, active)]
    ensures StateOf(readable, false, Printed(table), address, active) ==
              if !readable then CONFLICT else if Matching(table, address) == [] then -1 else active
  {
    FoundPrinted(table, address);
    assert Malformed !in Printed(table);
  }

  function SourceOf(active: int, sources: (nat, nat)): nat {
    if active == 0 then sources.0 else if active == 1 then sources.1 else 0
  }

  class Route {
    const host: string
    const address: nat
    const machine: Machine
    const policy: P.Policy
    var active: int
    var activeAddress: nat
    var generation: nat
    var ready: bool
    var retryAt: int
    ghost var spent: nat
    /** Every instant so far. */
    ghost var trace: seq<Snapshot>

    ghost function Now(): Snapshot
      reads this, machine
    {
      Snapshot(machine.table, machine.record, active, activeAddress, N.Signal(generation, ready, spent))
    }

    ghost predicate Recorded()
      reads this, machine, policy
    {
      && machine as object != this && policy as object != this && policy as object != machine
      && policy.Valid() && -1 <= active <= 1
      && Chronicle(host, address, trace) && trace[|trace|-1] == Now()
    }

    /** Between turns: a route of ours is on the active interface, and the pair is ready only if there is one. */
    ghost predicate Valid()
      reads this, machine, policy
    {
      && Recorded()
      && (Matching(machine.table, address) != [] ==>
          active >= 0 && Matching(machine.table, address) == [OwnRow(address, active)])
      && (ready ==> active >= 0)
    }

    constructor (host: string, address: nat, machine: Machine, policy: P.Policy, active: int)
      requires policy.Valid() && policy.samples == [] && policy as object != machine
      requires AdoptionOf(host, address, Printed(machine.table), machine.record) == Adopted(active)
      ensures Valid() && this.host == host && this.address == address && this.machine == machine
          && this.policy == policy
      ensures this.active == active && !ready && generation == 0 && activeAddress == 0 && trace == [Now()]
    {
      AdoptedIsSafe(host, address, machine.table, machine.record);
      SafeIsAdopted(host, address, machine.table, machine.record);
      this.host, this.address, this.machine, this.policy, this.active := host, address, machine, policy, active;
      activeAddress, generation, ready, retryAt, spent := 0, 0, false, 0, 1;
      trace := [Snapshot(machine.table, machine.record, active, 0, N.INITIAL)];
    }

    /** Start: read the record and the table, and refuse if that fails or the target has a route that is not ours. */
    static method Start(host: string, address: nat, machine: Machine, readable: bool)
        returns (refused: bool, route: Route?)
      ensures refused <==> !readable || AdoptionOf(host, address, Printed(machine.table), machine.record).Refused?
      ensures !refused ==> route != null && fresh(route) && fresh(route.policy) && route.Valid()
      ensures !refused ==> route.machine == machine && route.host == host && route.address == address
    {
      if !readable {
        return true, null;
      }
      var result := Adopt(host, address, Printed(machine.table), machine.record);
      if result.Refused? {
        return true, null;
      }
      var policy := new P.Policy();
      var started := new Route(host, address, machine, policy, result.active);
      return false, started;
    }

    ghost predicate Extends(was: seq<Snapshot>)
      reads this
    {
      was <= trace
    }

    /** Writes down the instant just reached. */
    ghost method Log()
      requires Chronicle(host, address, trace)
      requires N.Valid(N.Signal(generation, ready, spent)) && Follows(trace[|trace|-1], Now())
      requires CrashSafe(host, address, machine.table, machine.record)
      modifies this`trace
      ensures trace == old(trace) + [Now()] && Chronicle(host, address, trace)
    {
      ChronicleLonger(host, address, trace, Now());
      trace := trace + [Now()];
    }

    // Single stores, each of which is an instant of its own.

    method Lower()
      requires Recorded()
      modifies this`ready, this`trace
      ensures Recorded() && Extends(old(trace)) && !ready
    {
      ready := false;
      Log();
    }

    method CountUp()
      requires Recorded() && !ready
      modifies this`generation, this`trace
      ensures Recorded() && Extends(old(trace)) && generation == old(generation) + 1 && spent <= generation
    {
      generation := generation + 1;
      Log();
    }

    method SetReady(available: bool)
      requires Recorded() && (available ==> ready || spent <= generation)
      modifies this`ready, this`spent, this`trace
      ensures Recorded() && Extends(old(trace)) && ready == available
    {
      if available && !ready {
        spent := generation + 1;
      }
      ready := available;
      Log();
    }

    method SetActive(id: int)
      requires Recorded() && !ready && -1 <= id <= 1
      modifies this`active, this`trace
      ensures Recorded() && Extends(old(trace)) && active == id
    {
      active := id;
      Log();
    }

    method SetAddress(source: nat)
      requires Recorded() && (ready ==> activeAddress == 0 || activeAddress == source)
      modifies this`activeAddress, this`trace
      ensures Recorded() && Extends(old(trace)) && activeAddress == source
    {
      activeAddress := source;
      Log();
    }

    /** Not ready, and a new generation: connections made under the old one are over. */
    method Withdraw()
      requires Recorded()
      modifies this`ready, this`generation, this`trace
      ensures Recorded() && Extends(old(trace))
      ensures !ready && generation == old(generation) + 1 && spent <= generation
    {
      Lower();
      CountUp();
    }

    /** Other programs change other routes; the kernel may drop ours, when its interface goes down. */
    method Elsewhere(table: seq<Row>)
      requires Valid() && Matching(table, address) <= Matching(machine.table, address)
      modifies this`trace, machine`table
      ensures Valid() && Extends(old(trace)) && machine.table == table
    {
      machine.table := table;
      Log();
    }

    /** What may happen between two steps of a turn: nothing of the target's is added. */
    method Interfere(table: seq<Row>)
      requires Valid()
      modifies this`trace, machine`table
      ensures Valid() && Extends(old(trace)) && machine.table == Left(old(machine.table), address, table)
    {
      if Matching(table, address) <= Matching(machine.table, address) {
        Elsewhere(table);
      }
    }

    /** The record is cut off and written anew; a failed write leaves anything. */
    method WriteRecord(id: int, luck: Luck) returns (ok: bool)
      requires Recorded() && 0 <= id <= 1 && Matching(machine.table, address) == []
      modifies this`trace, machine`record
      ensures Recorded() && Extends(old(trace)) && ok == luck.recorded
      ensures machine.record == if luck.recorded then Record(host, Interface(id)) else luck.leftover
    {
      machine.record := BLANK;
      Log();
      machine.record := if luck.recorded then Record(host, Interface(id)) else luck.leftover;
      Log();
      return luck.recorded;
    }

    method Install(id: int)
      requires Recorded() && 0 <= id <= 1 && Matching(machine.table, address) == []
      requires machine.record == Record(host, Interface(id))
      modifies this`trace, machine`table
      ensures Recorded() && Extends(old(trace)) && Matching(machine.table, address) == [OwnRow(address, id)]
    {
      MatchingSnoc(machine.table, OwnRow(address, id), address);
      machine.table := machine.table + [OwnRow(address, id)];
      assert [] + [OwnRow(address, id)] == [OwnRow(address, id)];
      assert CrashSafe(host, address, machine.table, machine.record);
      Log();
    }

    /** The record is written before the route is added. */
    method AddRoute(id: int, luck: Luck) returns (ok: bool)
      requires Recorded() && 0 <= id <= 1 && Matching(machine.table, address) == []
      modifies this`trace, machine
      ensures Recorded() && Extends(old(trace))
      ensures Matching(machine.table, address) == if ok then [OwnRow(address, id)] else []
      ensures ok <==> luck.recorded && luck.done
      ensures machine.record == if luck.recorded then Record(host, Interface(id)) else luck.leftover
    {
      var recorded := WriteRecord(id, luck);
      if !recorded || !luck.done {
        return false;
      }
      Install(id);
      return true;
    }

    /** A route that is already gone counts as deleted. */
    method DeleteRoute(id: int, luck: Luck) returns (ok: bool)
      requires Recorded() && 0 <= id <= 1
      requires Matching(machine.table, address) == [] || Matching(machine.table, address) == [OwnRow(address, id)]
      modifies this`trace, machine
      ensures Recorded() && Extends(old(trace)) && machine.record == old(machine.record)
      ensures ok <==> luck.done
      ensures Matching(machine.table, address) == if ok then [] else old(Matching(machine.table, address))
    {
      if !luck.done {
        return false;
      }
      if Matching(machine.table, address) == [] {
        return true;
      }
      WithoutOwn(machine.table, address, id);
      machine.table := Without(machine.table, OwnRow(address, id));
      Log();
      return true;
    }

    /** The new route could not be added: return to the old one, or to none. */
    method RollBack(luck: Luck)
      requires Recorded() && !ready && Matching(machine.table, address) == []
      modifies this`active, this`trace, machine
      ensures Valid() && Extends(old(trace))
      ensures active == if luck.recorded && luck.done then old(active) else -1
      ensures Matching(machine.table, address) == if active >= 0 then [OwnRow(address, active)] else []
    {
      var restored := false;
      if active >= 0 {
        restored := AddRoute(active, luck);
      }
      if !restored {
        SetActive(-1);
      }
    }

    /** With no route left: add the new one, or roll back. */
    method Replace(next: int, e: Surroundings)
      requires Recorded() && 0 <= next <= 1 && !ready && Matching(machine.table, address) == []
      modifies this`active, this`trace, machine
      ensures Valid() && Extends(old(trace))
      ensures active == Outcome(old(active), next, -1, e)
      ensures Matching(machine.table, address) == if active >= 0 then [OwnRow(address, active)] else []
    {
      var added := AddRoute(next, e.addition);
      if added {
        SetActive(next);
      } else {
        RollBack(e.rollback);
      }
    }

    /** Move to `next`, or put the missing route back. */
    method Switch(next: int, installed: int, e: Surroundings)
      requires Recorded() && 0 <= next <= 1 && !ready
      requires Matching(machine.table, address) == []
          || (active >= 0 && Matching(machine.table, address) == [OwnRow(address, active)])
      requires installed == -1 || (active >= 0 && installed == active)
      requires installed == -1 ==> Matching(machine.table, address) == []
      modifies this`active, this`trace, machine
      ensures Valid() && Extends(old(trace))
      ensures active == Outcome(old(active), next, installed, e)
      ensures Matching(machine.table, address) ==
                if installed >= 0 && !e.deletion.done then old(Matching(machine.table, address))
                else if active >= 0 then [OwnRow(address, active)] else []
    {
      var freed := true;
      if installed >= 0 {
        freed := DeleteRoute(installed, e.deletion);
      }
      if freed {
        Replace(next, e);
      }
    }

    /** The second half of a turn: what the senders are told. */
    method Publish(installed: int, e: Surroundings)
      requires Valid()
      modifies this`ready, this`generation, this`activeAddress, this`spent, this`trace
      ensures Valid() && Extends(old(trace))
      ensures ready <==> active >= 0 && installed == active && P.UsableAfter(policy.samples, active)
      ensures
        var source := SourceOf(active, e.sources);
        && activeAddress == (if ready && source != 0 then source else old(activeAddress))
        && generation == old(generation) +
             if ready != old(ready) || (old(activeAddress) != 0 && activeAddress != old(activeAddress)) then 1 else 0
    {
      var usable := policy.Usable(active);
      var available := active >= 0 && installed == active && usable;
      var source := SourceOf(active, e.sources);
      var ipChanged := available && source != 0 && activeAddress != 0 && source != activeAddress;
      if available != ready || ipChanged {
        Withdraw();
      }
      if available && source != 0 {
        SetAddress(source);
      }
      SetReady(available);
    }

    method Move(next: int, installed: int, e: Surroundings)
      requires Valid() && 0 <= next <= 1
      requires installed == -1 || (active >= 0 && installed == active)
      requires installed == -1 ==> Matching(machine.table, address) == []
      modifies this`active, this`ready, this`generation, this`retryAt, this`trace, machine
      ensures Valid() && Extends(old(trace)) && !ready && retryAt == e.now + 3000
      ensures generation == old(generation) + 1 && active == Outcome(old(active), next, installed, e)
    {
      Withdraw();
      retryAt := e.now + 3000;
      Switch(next, installed, e);
    }

    /** The kernel's table, read and compared with what is expected. */
    method Inspect(readable: bool) returns (installed: int)
      requires Recorded()
      ensures installed == StateOf(readable, false, Printed(machine.table), address, active)
      ensures installed == CONFLICT || installed == -1 || installed == active
      ensures installed == -1 ==> Matching(machine.table, address) == []
      ensures installed >= 0 ==> Matching(machine.table, address) == [OwnRow(address, active)]
    {
      installed := StreamRouteState(readable, false, Printed(machine.table), address, host, active);
      FoundPrinted(machine.table, address);
    }

    /** The move, and the second look at the table. */
    method MoveAndInspect(next: int, seen: int, e: Surroundings) returns (installed: int)
      requires Valid() && 0 <= next <= 1
      requires seen == -1 || (active >= 0 && seen == active)
      requires seen == -1 ==> Matching(machine.table, address) == []
      modifies this`active, this`ready, this`generation, this`retryAt, this`trace, machine
      ensures Valid() && Extends(old(trace)) && !ready && retryAt == e.now + 3000
      ensures generation == old(generation) + 1 && active == Outcome(old(active), next, seen, e)
      ensures installed == StateOf(e.readableAgain, false, Printed(machine.table), address, active)
    {
      Move(next, seen, e);
      Interfere(e.after);
      installed := Inspect(e.readableAgain);
    }

    /** The first half of a turn: the route is moved or repaired when that is wanted, possible and due. */
    method Adjust(next: int, e: Surroundings) returns (installed: int)
      requires Valid() && -1 <= next <= 1
      modifies this`active, this`ready, this`generation, this`retryAt, this`trace, machine
      ensures Valid() && Extends(old(trace))
      ensures
        var seen := StateOf(e.readable, false, Printed(old(machine.table)), address, old(active));
        if MoveDue(old(active), next, seen, old(retryAt), e) then
          && !ready && generation == old(generation) + 1 && retryAt == e.now + 3000
          && active == Outcome(old(active), next, seen, e)
          && installed == StateOf(e.readableAgain, false, Printed(machine.table), address, active)
        else
          && ready == old(ready) && generation == old(generation) && active == old(active) && installed == seen
          && retryAt == if seen == CONFLICT && e.now >= old(retryAt) then e.now + 30000 else old(retryAt)
    {
      installed := Inspect(e.readable);
      Interfere(e.meanwhile);
      var conflict := installed == CONFLICT;
      var candidate := next >= 0 && if next == 0 then e.wired else e.wifi;
      assert installed == -1 ==> Matching(machine.table, address) == [];
      if candidate && !conflict && (next != active || installed != active) && e.now >= retryAt {
        installed := MoveAndInspect(next, installed, e);
      }
      if conflict && e.now >= retryAt {
        retryAt := e.now + 30000;
      }
    }

    /** What a turn does once it knows the link called for. */
    method Act(next: int, e: Surroundings)
      requires Valid() && -1 <= next <= 1
      modifies this`active, this`ready, this`generation, this`activeAddress, this`retryAt, this`spent, this`trace
      modifies machine
      ensures Valid() && Extends(old(trace))
      ensures active == old(active) || active == -1 || active == next
      ensures
        var present := Matching(old(machine.table), address) != [];
        && active == ActiveAfter(old(active), next, present, old(retryAt), e)
        && retryAt == RetryAfter(old(active), next, present, old(retryAt), e)
        && (ready <==>
              && P.UsableAfter(policy.samples, active)
              && if Changes(old(active), next, present, old(retryAt), e)
                 then e.readableAgain && Matching(machine.table, address) != []
                 else e.readable && present)
      ensures
        var source := if active == 0 then e.sources.0 else if active == 1 then e.sources.1 else 0;
        activeAddress == if ready && source != 0 then source else old(activeAddress)
      ensures
        var changes := Changes(old(active), next, Matching(old(machine.table), address) != [], old(retryAt), e);
        generation == old(generation) + (if changes then 1 else 0) +
          if ready != (!changes && old(ready)) || (old(activeAddress) != 0 && activeAddress != old(activeAddress))
          then 1 else 0
    {
      SeenExactly(e.readable, machine.table, address, active);
      ChangesExactly(active, next, Matching(machine.table, address) != [], retryAt, e);
      var installed := Adjust(next, e);
      SeenExactly(e.readableAgain, machine.table, address, active);
      Publish(installed, e);
    }

    /** One turn of the loop. */
    method Turn(e: Surroundings)
      requires Valid()
      modifies this, machine, policy
      ensures Valid() && Extends(old(trace))
      ensures policy.samples == old(policy.samples) + [P.Sample(e.wired, e.wifi, e.now)]
      ensures active == old(active) || active == -1 || active == P.Choice(policy.samples, old(active))
      ensures ready ==> P.UsableAfter(policy.samples, active)
      ensures
        var next := P.Choice(policy.samples, old(active));
        var present := Present(old(machine.table), address, e);
        && active == ActiveAfter(old(active), next, present, old(retryAt), e)
        && retryAt == RetryAfter(old(active), next, present, old(retryAt), e)
        && (ready <==>
              && P.UsableAfter(policy.samples, active)
              && if Changes(old(active), next, present, old(retryAt), e)
                 then e.readableAgain && Matching(machine.table, address) != []
                 else e.readable && present)
      ensures
        var source := if active == 0 then e.sources.0 else if active == 1 then e.sources.1 else 0;
        activeAddress == if ready && source != 0 then source else old(activeAddress)
      ensures
        var next := P.Choice(policy.samples, old(active));
        var changes := Changes(old(active), next, Present(old(machine.table), address, e), old(retryAt), e);
        generation == old(generation) + (if changes then 1 else 0) +
          if ready != (!changes && old(ready)) || (old(activeAddress) != 0 && activeAddress != old(activeAddress))
          then 1 else 0
    {
      Interfere(e.before);
      var next := policy.Choose(active, e.wired, e.wifi, e.now);
      Act(next, e);
    }

    /**
     * Any number of turns. Wherever the process dies, the instant it dies at is in the trace; the links used follow
     * the policy, every move from wired to Wi-Fi is paid for by three failed wired probes, and every move back is
     * earned.
     */
    method Run(es: seq<Surroundings>) returns (ghost used: seq<int>, ghost present: seq<bool>, ghost retries: seq<int>)
      requires Valid() && policy.samples == []
      modifies this, machine, policy
      ensures Valid() && Extends(old(trace))
      ensures |policy.samples| == |es| && P.Follows(policy.samples, used)
      ensures 3 * P.FailOvers(used) <= P.Downs(policy.samples)
      ensures forall i :: 0 <= i < |es| && used[i] == 1 && used[i+1] == 0 ==> P.Earned(policy.samples[..i+1])
      ensures Turns(es, policy.samples, used, present, retries)
      ensures used[0] == old(active) && retries[0] == old(retryAt)
    {
      used, present, retries := [active], [], [retryAt];
      for n := 0 to |es|
        invariant Valid() && Extends(old(trace))
        invariant |policy.samples| == n && P.Follows(policy.samples, used) && used[n] == active
        invariant Turns(es[..n], policy.samples, used, present, retries) && retries[n] == retryAt
        invariant used[0] == old(active) && retries[0] == old(retryAt)
      {
        ghost var samples, s := policy.samples, P.Sample(es[n].wired, es[n].wifi, es[n].now);
        ghost var there := Present(machine.table, address, es[n]);
        Turn(es[n]);
        P.FollowsLonger(samples, used, s, active);
        TurnsLonger(es[..n], samples, used, present, retries, es[n], there);
        assert es[..n] + [es[n]] == es[..n+1];
        used, present, retries := used + [active], present + [there], retries + [retryAt];
      }
      assert es[..|es|] == es;
      P.FailOversArePaidFor(policy.samples, used);
      forall i | 0 <= i < |es| && used[i] == 1 && used[i+1] == 0 ensures P.Earned(policy.samples[..i+1]) {
        P.ReturnsAreEarned(policy.samples, used, i);
      }
    }

    /** The destructor: what is still ours is taken away. */
    method TearDown(readable: bool, luck: Luck)
      requires Valid()
      modifies this`trace, machine
      ensures Recorded() && Extends(old(trace))
      ensures Matching(machine.table, address) ==
                if readable && luck.done then [] else old(Matching(machine.table, address))
    {
      var installed := Inspect(readable);
      FoundPrinted(machine.table, address);
      if active >= 0 && installed == active {
        var ok := DeleteRoute(active, luck);
      }
    }
  }
}
