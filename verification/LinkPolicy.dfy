/** The wired-first choice between eth0 (0) and wlan0 (1), class LinkPolicy in src/network/network_route.hpp. */
module LinkPolicy {

  datatype Sample = Sample(wired: bool, wifi: bool, now: nat)

  // ------------------------------------------------------------- history

  /** How many of the latest samples, in a row, found the wired link down. */
  function WiredDown(samples: seq<Sample>): nat {
    if samples == [] || samples[|samples|-1].wired then 0 else 1 + WiredDown(samples[..|samples|-1])
  }

  function WifiDown(samples: seq<Sample>): nat {
    if samples == [] || samples[|samples|-1].wifi then 0 else 1 + WifiDown(samples[..|samples|-1])
  }

  function WiredUp(samples: seq<Sample>): (n: nat)
    ensures n <= |samples|
  {
    if samples == [] || !samples[|samples|-1].wired then 0 else 1 + WiredUp(samples[..|samples|-1])
  }

  /** When the wired link, if it is up, was first seen up again. */
  function UpSince(samples: seq<Sample>): int {
    var n := WiredUp(samples);
    if n == 0 then -1 else samples[|samples|-n].now
  }

  function Capped(n: nat): nat {
    if n < 3 then n else 3
  }

  /** The link wanted after these samples by one who is on `current`. */
  function Choice(samples: seq<Sample>, current: int): int
    requires samples != []
  {
    var last := samples[|samples|-1];
    if current < 0 then if last.wired then 0 else if last.wifi then 1 else -1
    else if current == 0 then if !last.wired && last.wifi && WiredDown(samples) >= 3 then 1 else 0
    else if last.wired && (WifiDown(samples) >= 3 || last.now - UpSince(samples) >= 10000) then 0 else 1
  }

  predicate UsableAfter(samples: seq<Sample>, current: int) {
    if current == 0 then WiredDown(samples) < 3 else current == 1 && WifiDown(samples) < 3
  }

  /** How one more sample changes the trailing runs. */
  lemma {:induction false} RunsLonger(samples: seq<Sample>, s: Sample)
    ensures WiredDown(samples + [s]) == if s.wired then 0 else 1 + WiredDown(samples)
    ensures WifiDown(samples + [s]) == if s.wifi then 0 else 1 + WifiDown(samples)
    ensures UpSince(samples + [s]) == if !s.wired then -1 else if UpSince(samples) < 0 then s.now else UpSince(samples)
  {
    var longer := samples + [s];
    assert longer[..|longer|-1] == samples;
    if s.wired && WiredUp(samples) > 0 {
      assert longer[|longer| - WiredUp(longer)] == samples[|samples| - WiredUp(samples)];
    }
  }

  // ------------------------------------------------- the class of the source

  class Policy {
    var wifiFailures: nat
    var failures: nat
    var recoveredAt: int
    ghost var samples: seq<Sample>

    /** The counters are the trailing runs capped at three, and the time is the start of the run of successes. */
    ghost predicate Valid()
      reads this
    {
      && wifiFailures == Capped(WifiDown(samples))
      && failures == Capped(WiredDown(samples))
      && recoveredAt == UpSince(samples)
    }

    constructor ()
      ensures Valid() && samples == []
    {
      wifiFailures, failures, recoveredAt := 0, 0, -1;
      samples := [];
    }

    method Choose(current: int, wired: bool, wifi: bool, now: nat) returns (next: int)
      requires Valid()
      modifies this
      ensures Valid() && samples == old(samples) + [Sample(wired, wifi, now)]
      ensures next == Choice(samples, current)
    {
      RunsLonger(samples, Sample(wired, wifi, now));
      samples := samples + [Sample(wired, wifi, now)];
      wifiFailures := if wifi then 0 else if wifiFailures < 3 then wifiFailures + 1 else 3;
      if wired {
        failures := 0;
        if recoveredAt < 0 {
          recoveredAt := now;
        }
      } else {
        if failures < 3 {
          failures := failures + 1;
        }
        recoveredAt := -1;
      }
      if current < 0 {
        return if wired then 0 else if wifi then 1 else -1;
      }
      if current == 0 {
        return if !wired && wifi && failures >= 3 then 1 else 0;
      }
      return if wired && (wifiFailures >= 3 || now - recoveredAt >= 10000) then 0 else 1;
    }

    method Usable(current: int) returns (usable: bool)
      requires Valid()
      ensures usable <==> UsableAfter(samples, current)
    {
      return if current == 0 then failures < 3 else current == 1 && wifiFailures < 3;
    }
  }

  // ------------------------------------------------------ no flapping, ever

  function Downs(samples: seq<Sample>): nat {
    if samples == [] then 0 else Downs(samples[..|samples|-1]) + if samples[|samples|-1].wired then 0 else 1
  }

  /** How often the link in use went from wired to Wi-Fi. */
  function FailOvers(used: seq<int>): nat {
    if |used| < 2 then 0
    else FailOvers(used[..|used|-1]) + if used[|used|-2] == 0 && used[|used|-1] == 1 then 1 else 0
  }

  /** The link in use stays, is lost, or follows the choice made after sample i. */
  ghost predicate FollowsAt(samples: seq<Sample>, used: seq<int>, i: nat)
    requires i < |samples| && i + 1 < |used|
  {
    used[i+1] == used[i] || used[i+1] == -1 || used[i+1] == Choice(samples[..i+1], used[i])
  }

  ghost predicate Follows(samples: seq<Sample>, used: seq<int>) {
    && |used| == |samples| + 1
    && forall i :: 0 <= i < |samples| ==> FollowsAt(samples, used, i)
  }

  lemma {:induction false} FollowsLonger(samples: seq<Sample>, used: seq<int>, s: Sample, next: int)
    requires Follows(samples, used)
    requires next == used[|samples|] || next == -1 || next == Choice(samples + [s], used[|samples|])
    ensures Follows(samples + [s], used + [next])
  {
    var after, on := samples + [s], used + [next];
    forall i | 0 <= i < |after| ensures FollowsAt(after, on, i) {
      if i < |samples| {
        assert FollowsAt(samples, used, i) && after[..i+1] == samples[..i+1];
      } else {
        assert after[..i+1] == after;
      }
    }
  }

  lemma {:induction false} FollowsPrefix(samples: seq<Sample>, used: seq<int>)
    requires samples != [] && Follows(samples, used)
    ensures Follows(samples[..|samples|-1], used[..|samples|])
  {
    var n := |samples| - 1;
    var before, on := samples[..n], used[..n+1];
    forall i | 0 <= i < n ensures FollowsAt(before, on, i) {
      assert FollowsAt(samples, used, i);
      assert before[..i+1] == samples[..i+1];
    }
  }

  /** Every fail-over is paid for by three failed probes of its own. */
  lemma {:induction false} FailOversArePaidFor(samples: seq<Sample>, used: seq<int>)
    requires Follows(samples, used)
    ensures 3 * FailOvers(used) + (if used[|used|-1] == 0 then WiredDown(samples) else 0) <= Downs(samples)
  {
    if samples != [] {
      var n := |samples| - 1;
      FollowsPrefix(samples, used);
      FailOversArePaidFor(samples[..n], used[..n+1]);
      assert used[..|used|-1] == used[..n+1] && samples[..n+1] == samples;
      assert FollowsAt(samples, used, n);
    }
  }

  /** The last n samples, and not the one before them, found the wired link up; the first of them is from `since`. */
  ghost predicate UpThroughout(samples: seq<Sample>, n: nat, since: int) {
    && 0 < n <= |samples| && samples[|samples|-n].now == since
    && (forall i :: |samples| - n <= i < |samples| ==> samples[i].wired)
    && (n < |samples| ==> !samples[|samples|-n-1].wired)
  }

  ghost predicate WifiLost(samples: seq<Sample>) {
    |samples| >= 3 && forall i :: |samples| - 3 <= i < |samples| ==> !samples[i].wifi
  }

  lemma {:induction false} WiredUpMeans(samples: seq<Sample>)
    requires WiredUp(samples) > 0
    ensures UpThroughout(samples, WiredUp(samples), UpSince(samples))
  {
    var n := WiredUp(samples);
    if n > 1 {
      WiredUpMeans(samples[..|samples|-1]);
    }
  }

  /** There is only one such run. */
  lemma {:induction false} OneRun(samples: seq<Sample>, n: nat, since: int)
    requires UpThroughout(samples, n, since)
    ensures n == WiredUp(samples) && since == UpSince(samples)
    decreases n
  {
    if n > 1 {
      var front := samples[..|samples|-1];
      assert UpThroughout(front, n - 1, since);
      OneRun(front, n - 1, since);
    } else {
      assert n < |samples| ==> WiredUp(samples[..|samples|-1]) == 0;
    }
  }

  lemma {:induction false} WifiDownMeans(samples: seq<Sample>)
    ensures WifiDown(samples) <= |samples|
    ensures forall i :: |samples| - WifiDown(samples) <= i < |samples| ==> !samples[i].wifi
  {
    if samples != [] && !samples[|samples|-1].wifi {
      WifiDownMeans(samples[..|samples|-1]);
    }
  }

  /** The wired link is up, and has been for ten unbroken seconds, or Wi-Fi is lost. */
  ghost predicate Earned(samples: seq<Sample>) {
    && samples != [] && samples[|samples|-1].wired
    && (WifiLost(samples) || exists n: nat, since: int ::
          UpThroughout(samples, n, since) && samples[|samples|-1].now - since >= 10000)
  }

  lemma {:induction false} ReturnIsEarned(samples: seq<Sample>)
    requires samples != [] && Choice(samples, 1) == 0
    ensures Earned(samples)
  {
    WifiDownMeans(samples);
    WiredUpMeans(samples);
  }

  /** Every move back to the wired link, in any history, is earned by the samples up to then. */
  lemma {:induction false} ReturnsAreEarned(samples: seq<Sample>, used: seq<int>, i: nat)
    requires Follows(samples, used) && i < |samples| && used[i] == 1 && used[i+1] == 0
    ensures Earned(samples[..i+1])
  {
    assert FollowsAt(samples, used, i);
    ReturnIsEarned(samples[..i+1]);
  }

  // ------------------------------------------------------- what it must choose

  ghost predicate WiredLost(samples: seq<Sample>) {
    |samples| >= 3 && forall i :: |samples| - 3 <= i < |samples| ==> !samples[i].wired
  }

  lemma {:induction false} ThreeDown(samples: seq<Sample>)
    ensures WiredDown(samples) >= 3 <==> WiredLost(samples)
    ensures WifiDown(samples) >= 3 <==> WifiLost(samples)
  {
    var n := |samples|;
    if n >= 3 {
      var a, b, c := samples[..n-1], samples[..n-2], samples[..n-3];
      assert a[..n-2] == b && b[..n-3] == c;
      assert a[n-2] == samples[n-2] && b[n-3] == samples[n-3];
      assert WiredDown(samples) == if samples[n-1].wired then 0 else 1 + WiredDown(a);
      assert WiredDown(a) == if a[n-2].wired then 0 else 1 + WiredDown(b);
      assert WiredDown(b) == if b[n-3].wired then 0 else 1 + WiredDown(c);
      assert WifiDown(samples) == if samples[n-1].wifi then 0 else 1 + WifiDown(a);
      assert WifiDown(a) == if a[n-2].wifi then 0 else 1 + WifiDown(b);
      assert WifiDown(b) == if b[n-3].wifi then 0 else 1 + WifiDown(c);
    } else {
      DownBounds(samples);
    }
  }

  lemma {:induction false} DownBounds(samples: seq<Sample>)
    ensures WiredDown(samples) <= |samples| && WifiDown(samples) <= |samples|
  {
    if samples != [] { DownBounds(samples[..|samples|-1]); }
  }

  /**
   * The choice, exactly. Without a link it is the first that is reachable, wired before Wi-Fi. From the wired link it
   * is Wi-Fi if and only if the last three samples lost the wired link and the last one reached Wi-Fi. From Wi-Fi it
   * is the wired link if and only if that is earned.
   */
  lemma {:induction false} ChoosesExactly(samples: seq<Sample>, current: int)
    requires samples != [] && -1 <= current <= 1
    ensures
      var last, next := samples[|samples|-1], Choice(samples, current);
      && (current == -1 ==> next == if last.wired then 0 else if last.wifi then 1 else -1)
      && (current == 0 ==> next == if WiredLost(samples) && last.wifi then 1 else 0)
      && (current == 1 ==> next == if Earned(samples) then 0 else 1)
  {
    ThreeDown(samples);
    if current == 1 {
      if Choice(samples, 1) == 0 { ReturnIsEarned(samples); }
      if exists n: nat, since: int :: UpThroughout(samples, n, since) {
        var n: nat, since: int :| UpThroughout(samples, n, since);
        forall m: nat, at: int | UpThroughout(samples, m, at) ensures at == UpSince(samples) { OneRun(samples, m, at); }
      }
    }
  }

  /** A link is usable until its last three samples have failed; no link is not. */
  lemma {:induction false} UsableExactly(samples: seq<Sample>, current: int)
    ensures UsableAfter(samples, current) <==>
              (current == 0 && !WiredLost(samples)) || (current == 1 && !WifiLost(samples))
  {
    ThreeDown(samples);
  }
}
