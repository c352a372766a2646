/** What holds of every run of the machine in Publisher: whose steps touch what, and the delay before reconnecting. */
module PublisherSafety {
  import opened Common
  import opened Publisher
  import Q = PublisherQueue
  import C = FfmpegConnection
  import N = RouteSignal

  /** Only the sender's own steps touch the connection and the sessions. */
  predicate Own(e: Event) {
    e.Synchronize? || e.Permit? || e.Proceed? || e.Connect? || e.Deliver? || e.Throw?
  }

  lemma {:induction false} ConnectionFrame(ch: Channel, s: Live, e: Event)
    ensures !Own(e) ==> Step(ch, s, e).connection == s.connection
    ensures !Own(e) || e.Throw? ==> Step(ch, s, e).sessions == s.sessions
    ensures s.clock <= Step(ch, s, e).clock
  {
    match e
    case CaptureVideo(data, pts, key, fault, stamp) =>
    case CaptureAudio(data, pts, lost, stamp) =>
    case DiscardChannel =>
    case Take =>
    case Check =>
    case Synchronize =>
    case Permit =>
    case Proceed =>
    case Connect(opens) =>
    case Deliver(allocates, writes) =>
    case Throw(cached) =>
    case Recover =>
    case Interrupt =>
    case StopQueue =>
    case Network(to) =>
    case Tick(ms) =>
  }

  /** What the loop body does to the connection, told step by step. */
  lemma {:induction false} SendForm(
    cfg: C.Config, c: C.State, p: Q.Packet, epoch: nat, stopping: bool, signal: C.Signal, fate: C.Fate)
    ensures
      var told := Told(cfg, c, p, epoch);
      var d := if cfg.networked then C.Follow(told, signal.generation, fate.syncAt) else told;
      Send(cfg, c, p, epoch, stopping, signal, fate) ==
        if stopping then (told, false)
        else if cfg.networked && !signal.ready then (d, false)
        else
          match VerdictOn(d, p, fate.openAt)
          case Skip => (d, false)
          case Deliver => C.WritePacket(d, fate.allocates, fate.writes, fate.writtenAt)
          case Connect =>
            var e := C.Connected(cfg, C.Close(d), p.pts, fate.opens, fate.openedAt);
            if fate.opens then C.WritePacket(e, fate.allocates, fate.writes, fate.writtenAt) else (e, true)
  {
  }

  /** The loop body up to readiness: generation and readiness are read at two different times. */
  function Asking(ch: Channel, s: Live, to: N.Signal): Live {
    Step(ch, Step(ch, Step(ch, s, Synchronize), Network(to)), Permit)
  }

  /** On to the decision. */
  function Deciding(ch: Channel, s: Live, a: nat): Live {
    Step(ch, Step(ch, s, Tick(a)), Proceed)
  }

  /** The rest of it. */
  function Ending(ch: Channel, s: Live, b: nat, opens: bool, c: nat, allocates: bool, writes: bool): Live {
    Step(ch, Step(ch, Step(ch, Step(ch, s, Tick(b)), Connect(opens)), Tick(c)), Deliver(allocates, writes))
  }

  lemma {:induction false} AskingIs(ch: Channel, s: Live, to: N.Signal)
    requires s.sender.Cleared?
    ensures
      var told := Told(ch.config, s.connection, s.sender.packet, s.sender.epoch);
      var d := if ch.config.networked then C.Follow(told, s.signal.generation, s.clock) else told;
      var t := Asking(ch, s, to);
      && t.clock == s.clock
      && if s.stopping then t.connection == told && t.sender == Idle
         else if ch.config.networked && !Step(ch, s, Network(to)).signal.ready then
           t.connection == d && t.sender == Idle
         else t.connection == d && t.sender.Synced? && t.sender.packet == s.sender.packet
  {
  }

  lemma {:induction false} DecidingIs(ch: Channel, s: Live, a: nat)
    requires s.sender.Idle? || s.sender.Synced?
    ensures
      var t := Deciding(ch, s, a);
      && t.clock == s.clock + a
      && if s.sender.Idle? then t.connection == s.connection && t.sender == Idle
         else
           match VerdictOn(s.connection, s.sender.packet, s.clock + a)
           case Skip => t.connection == s.connection && t.sender == Idle
           case Deliver => t.connection == s.connection && t.sender.Sending? && t.sender.packet == s.sender.packet
           case Connect =>
             && t.connection == C.Close(s.connection)
             && t.sender.Opening? && t.sender.packet == s.sender.packet
  {
  }

  lemma {:induction false} EndingIs(ch: Channel, s: Live, b: nat, opens: bool, c: nat, allocates: bool, writes: bool)
    requires s.sender.Idle? || s.sender.Opening? || s.sender.Sending?
    ensures
      var t := Ending(ch, s, b, opens, c, allocates, writes);
      match s.sender
      case Opening(p, _, _) =>
        var e := C.Connected(ch.config, s.connection, p.pts, opens, s.clock + b);
        if opens then
          var (d, failed) := C.WritePacket(e, allocates, writes, s.clock + b + c);
          t.connection == d && t.sender == if failed then Failing else Idle
        else t.connection == e && t.sender == Failing
      case Sending(_, _, _) =>
        var (d, failed) := C.WritePacket(s.connection, allocates, writes, s.clock + b + c);
        t.connection == d && t.sender == if failed then Failing else Idle
      case _ => t.connection == s.connection && t.sender == Idle
  {
  }

  /**
   * The loop body of the source is the sender's steps in a row, whatever time passes between them, and even if the
   * network moves between the reading of the generation and of readiness.
   */
  lemma {:induction false} LoopBodyInSteps(
    ch: Channel, s: Live, to: N.Signal, a: nat, b: nat, opens: bool, c: nat, allocates: bool, writes: bool)
    requires s.sender.Cleared?
    ensures
      var t := Ending(ch, Deciding(ch, Asking(ch, s, to), a), b, opens, c, allocates, writes);
      var signal := C.Signal(s.signal.generation, Step(ch, s, Network(to)).signal.ready);
      var fate := C.Fate(opens, allocates, writes, s.clock, s.clock + a, s.clock + a + b, s.clock + a + b + c);
      var (d, failed) :=
        Send(ch.config, s.connection, s.sender.packet, s.sender.epoch, s.stopping, signal, fate);
      t.connection == d && t.sender == if failed then Failing else Idle
  {
    var signal := C.Signal(s.signal.generation, Step(ch, s, Network(to)).signal.ready);
    var fate := C.Fate(opens, allocates, writes, s.clock, s.clock + a, s.clock + a + b, s.clock + a + b + c);
    SendForm(ch.config, s.connection, s.sender.packet, s.sender.epoch, s.stopping, signal, fate);
    AskingIs(ch, s, to);
    DecidingIs(ch, Asking(ch, s, to), a);
    EndingIs(ch, Deciding(ch, Asking(ch, s, to), a), b, opens, c, allocates, writes);
  }

  // ------------------------------------------------- reconnection is delayed

  /** The next packet finds a live connection of its own epoch made under another network generation. */
  predicate NetworkCloses(ch: Channel, s: Live) {
    && s.sender.Cleared? && s.connection.context && s.connection.queueEpoch == s.sender.epoch
    && !s.stopping && ch.config.networked && s.signal.generation != s.connection.networkGeneration
  }

  /** Event e is a failed open, a failed write, or the closing of a live connection by the network. */
  predicate Fails(ch: Channel, s: Live, e: Event) {
    || (e.Connect? && s.sender.Opening? && !e.opens)
    || (e.Deliver? && s.sender.Sending? && e.allocates && !e.writes)
    || (e.Synchronize? && NetworkCloses(ch, s))
  }

  /** Event e begins an open. */
  predicate Attempts(ch: Channel, s: Live, e: Event) {
    !s.sender.Opening? && Step(ch, s, e).sender.Opening?
  }

  predicate DelayBounded(s: Live) {
    s.connection.retryAfter <= s.clock + 3000
  }

  ghost predicate Delays(ch: Channel, s: Live, e: Event, t: Live) {
    && DelayBounded(t) && s.clock <= t.clock && s.connection.retryAfter <= t.connection.retryAfter
    && (Fails(ch, s, e) ==> t.connection.retryAfter == s.clock + 3000)
    && (!s.sender.Opening? && t.sender.Opening? ==> s.connection.retryAfter <= s.clock)
  }

  lemma {:induction false} SyncDelays(ch: Channel, s: Live)
    requires DelayBounded(s) && s.sender.Cleared?
    ensures Delays(ch, s, Synchronize, SyncPacket(ch, s))
  {
  }

  lemma {:induction false} OwnDelays(ch: Channel, s: Live, e: Event)
    requires DelayBounded(s) && Own(e)
    ensures Delays(ch, s, e, Step(ch, s, e))
  {
    match e
    case Synchronize => if s.sender.Cleared? { SyncDelays(ch, s); }
    case Permit =>
    case Proceed =>
    case Connect(opens) =>
    case Deliver(allocates, writes) =>
    case Throw(cached) =>
  }

  lemma {:induction false} StepDelays(ch: Channel, s: Live, e: Event)
    requires DelayBounded(s)
    ensures Delays(ch, s, e, Step(ch, s, e))
  {
    if Own(e) {
      OwnDelays(ch, s, e);
    } else {
      ConnectionFrame(ch, s, e);
      SenderFrame(ch, s, e);
    }
  }

  lemma {:induction false} SenderFrame(ch: Channel, s: Live, e: Event)
    requires !Own(e)
    ensures Step(ch, s, e).sender.Opening? <==> s.sender.Opening?
  {
    match e
    case CaptureVideo(data, pts, key, fault, stamp) =>
    case CaptureAudio(data, pts, lost, stamp) =>
    case Take =>
    case Check =>
    case _ =>
  }

  lemma {:induction false} RunDelays(ch: Channel, es: seq<Event>)
    ensures DelayBounded(Run(ch, es))
  {
    if es != [] {
      RunDelays(ch, es[..|es|-1]);
      StepDelays(ch, Run(ch, es[..|es|-1]), es[|es|-1]);
    }
  }

  lemma {:induction false} LastDelays(ch: Channel, es: seq<Event>, e: Event)
    ensures Run(ch, es).connection.retryAfter <= Run(ch, es + [e]).connection.retryAfter
    ensures Fails(ch, Run(ch, es), e) ==> Run(ch, es + [e]).connection.retryAfter == Run(ch, es).clock + 3000
  {
    RunDelays(ch, es);
    RunSnoc(ch, es, e);
    StepDelays(ch, Run(ch, es), e);
  }

  /** The time before which nothing is opened never comes nearer. */
  lemma {:induction false} RetryStays(ch: Channel, es: seq<Event>, more: seq<Event>)
    ensures Run(ch, es).connection.retryAfter <= Run(ch, es + more).connection.retryAfter
  {
    var retry := (xs: seq<Event>) => Run(ch, xs).connection.retryAfter;
    forall xs: seq<Event>, x: Event ensures retry(xs) <= retry(xs + [x]) { LastDelays(ch, xs, x); }
    Climbs(retry, es, more);
  }

  /**
   * Reconnection, over every run: between a failed open, a failed write or the closing of a live connection by a
   * change of network generation (event e), and any later attempt to open (event f), there are three seconds.
   */
  lemma {:induction false} OpensAreDelayed(ch: Channel, es: seq<Event>, e: Event, between: seq<Event>, f: Event)
    requires Fails(ch, Run(ch, es), e) && Attempts(ch, Run(ch, es + [e] + between), f)
    ensures Run(ch, es + [e] + between).clock >= Run(ch, es).clock + 3000
  {
    var t := Run(ch, es + [e] + between);
    assert t.connection.retryAfter >= Run(ch, es).clock + 3000 by {
      LastDelays(ch, es, e);
      RetryStays(ch, es + [e], between);
    }
    assert t.connection.retryAfter <= t.clock by {
      RunDelays(ch, es + [e] + between);
      StepDelays(ch, t, f);
    }
  }

  // -------------------------------------------------- and not delayed longer

  /** Event n is a failure. */
  ghost predicate FailsAt(ch: Channel, es: seq<Event>, n: nat) {
    n < |es| && Fails(ch, Run(ch, es[..n]), es[n])
  }

  /** Nothing but a failure moves the time before which nothing is opened. */
  lemma {:induction false} OnlyFailuresDelay(ch: Channel, s: Live, e: Event)
    requires !Fails(ch, s, e)
    ensures Step(ch, s, e).connection.retryAfter == s.connection.retryAfter
  {
    if Own(e) {
      match e
      case Synchronize => if s.sender.Cleared? { SyncWithoutDelay(ch, s); }
      case Permit =>
      case Proceed =>
      case Connect(opens) =>
      case Deliver(allocates, writes) =>
      case Throw(cached) =>
    } else {
      ConnectionFrame(ch, s, e);
    }
  }

  lemma {:induction false} SyncWithoutDelay(ch: Channel, s: Live)
    requires s.sender.Cleared? && !NetworkCloses(ch, s)
    ensures SyncPacket(ch, s).connection.retryAfter == s.connection.retryAfter
  {
  }

  lemma {:induction false} FailsInMore(ch: Channel, es: seq<Event>, e: Event, n: nat)
    ensures FailsAt(ch, es + [e], n) <==> FailsAt(ch, es, n) || (n == |es| && Fails(ch, Run(ch, es), e))
    ensures n <= |es| ==> Run(ch, (es + [e])[..n]) == Run(ch, es[..n])
    ensures Run(ch, es[..|es|]) == Run(ch, es)
  {
    assert es[..|es|] == es && (n <= |es| ==> (es + [e])[..n] == es[..n]);
    assert n < |es| ==> (es + [e])[..n] == es[..n] && (es + [e])[n] == es[n];
    assert (es + [e])[..|es|] == es;
  }

  /** That time is zero, or three seconds after some failure, and it is three seconds after all of them. */
  ghost predicate RetryIs(ch: Channel, es: seq<Event>, retry: nat) {
    && (retry == 0 || exists n: nat :: FailsAt(ch, es, n) && retry == Run(ch, es[..n]).clock + 3000)
    && forall n: nat :: FailsAt(ch, es, n) ==> Run(ch, es[..n]).clock + 3000 <= retry
  }

  lemma {:induction false} RetryStep(ch: Channel, es: seq<Event>, e: Event)
    requires RetryIs(ch, es, Run(ch, es).connection.retryAfter)
    ensures RetryIs(ch, es + [e], Run(ch, es + [e]).connection.retryAfter)
  {
    LastDelays(ch, es, e);
    RunSnoc(ch, es, e);
    if !Fails(ch, Run(ch, es), e) { OnlyFailuresDelay(ch, Run(ch, es), e); }
    NextRetry(ch, es, e, Run(ch, es).connection.retryAfter, Run(ch, es + [e]).connection.retryAfter);
  }

  lemma {:induction false} NextRetry(ch: Channel, es: seq<Event>, e: Event, was: nat, now: nat)
    requires RetryIs(ch, es, was) && was <= now
    requires now == if Fails(ch, Run(ch, es), e) then Run(ch, es).clock + 3000 else was
    ensures RetryIs(ch, es + [e], now)
  {
    var more := es + [e];
    forall n: nat | FailsAt(ch, more, n) ensures Run(ch, more[..n]).clock + 3000 <= now {
      FailsInMore(ch, es, e, n);
    }
    if Fails(ch, Run(ch, es), e) {
      FailsInMore(ch, es, e, |es|);
    } else if was != 0 {
      var n: nat :| FailsAt(ch, es, n) && was == Run(ch, es[..n]).clock + 3000;
      FailsInMore(ch, es, e, n);
    }
  }

  lemma {:induction false} RetryAlways(ch: Channel, es: seq<Event>)
    ensures RetryIs(ch, es, Run(ch, es).connection.retryAfter)
    decreases |es|
  {
    if |es| > 0 {
      var front, last := es[..|es|-1], es[|es|-1];
      assert es == front + [last];
      RetryAlways(ch, front);
      RetryStep(ch, front, last);
    }
  }

  /**
   * Reconnection, exactly, over every run: a key frame that the network has allowed begins an open on a connection
   * that is not live but knows parameter sets if and only if every failure so far lies at least three seconds back.
   */
  lemma {:induction false} OpensExactly(ch: Channel, es: seq<Event>)
    requires
      var s := Run(ch, es);
      && s.sender.Synced? && s.sender.packet.video && s.sender.packet.key
      && !s.connection.ready && s.connection.codecExtra != []
    ensures Run(ch, es + [Proceed]).sender.Opening? <==>
              forall n: nat :: FailsAt(ch, es, n) ==> Run(ch, es[..n]).clock + 3000 <= Run(ch, es).clock
  {
    RetryAlways(ch, es);
    RunSnoc(ch, es, Proceed);
  }
}
