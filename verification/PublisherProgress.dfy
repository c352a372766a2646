/** What the sender must do: which packets it takes, and which of them it sends when nothing comes in between. */
module PublisherProgress {
  import opened Common
  import opened Publisher
  import opened PublisherSafety
  import opened PublisherSessions
  import opened PublisherGaps
  import A = AnnexB
  import C = FfmpegConnection
  import N = RouteSignal
  import Q = PublisherQueue
  import X = PublisherQueueExact

  /** The sender takes the oldest packet of the queue exactly if there is one, not too old, in a queue not stopped. */
  lemma {:induction false} TakesExactly(ch: Channel, es: seq<Event>)
    requires Run(ch, es).sender.Idle?
    ensures
      var s, t := Run(ch, es), Run(ch, es + [Take]);
      var q := s.world.queue;
      && (t.sender.Holding? <==> !q.stopped && q.items != [] && s.clock <= q.items[0].time + ch.limits.maxAge)
      && (t.sender.Holding? ==> t.sender == Holding(q.items[0].packet, q.generation))
      && (t.sender.Gone? <==> q.stopped)
  {
    RunKeeps(ch, es);
    RunSnoc(ch, es, Take);
    X.PopOutcome(ch.limits, Run(ch, es).world.queue, Run(ch, es).clock);
  }

  // ------------------------------------------------- from the hand to the wire

  /** The connection is live for this epoch and for the generation the network has now. */
  predicate Live(ch: Channel, s: Publisher.Live)
    requires s.sender.Holding?
  {
    && s.connection.ready && s.connection.queueEpoch == s.sender.epoch
    && (ch.config.networked ==> s.connection.networkGeneration == s.signal.generation)
  }

  /** Parameter sets are known: to the connection, with the packet, or from the packet itself. */
  predicate SetsKnown(ch: Channel, s: Publisher.Live)
    requires s.sender.Holding?
  {
    var p := s.sender.packet;
    || s.connection.codecExtra != [] || (p.extra.Some? && p.extra.value != [])
    || (p.key && A.Extract(p.data, ch.config.h265).Complete(ch.config.h265))
  }

  /** Nothing stands in the way of the packet in hand. */
  predicate Clear(ch: Channel, s: Publisher.Live)
    requires s.sender.Holding?
  {
    && !s.stopping && !s.world.queue.stopped && s.world.queue.generation == s.sender.epoch
    && (ch.config.networked ==> s.signal.ready)
  }

  /** The packet can be written on the connection there is. */
  predicate CanWrite(ch: Channel, s: Publisher.Live)
    requires s.sender.Holding?
  {
    Live(ch, s) && (s.sender.packet.video || (ch.config.audio && s.sender.packet.pts >= s.connection.originUs))
  }

  /** A connection can be opened for it: it is a key frame, and the delay after a failure is over. */
  predicate CanOpen(ch: Channel, s: Publisher.Live)
    requires s.sender.Holding?
  {
    && !Live(ch, s) && s.sender.packet.video && s.sender.packet.key && SetsKnown(ch, s)
    && s.connection.retryAfter <= s.clock
    && !(s.connection.ready && s.connection.queueEpoch == s.sender.epoch) // closed by the network just now
  }

  function Synchronized(ch: Channel, s: Publisher.Live): Publisher.Live {
    Step(ch, Step(ch, s, Check), Synchronize)
  }

  function Decided(ch: Channel, s: Publisher.Live): Publisher.Live {
    Step(ch, Step(ch, s, Permit), Proceed)
  }

  lemma {:induction false} SynchronizedIs(ch: Channel, s: Publisher.Live)
    requires s.sender.Holding? && Settled(ch.config, s.connection)
    ensures
      var t, p, c := Synchronized(ch, s), s.sender.packet, s.connection;
      if s.stopping || s.world.queue.stopped || s.world.queue.generation != s.sender.epoch then
        t == s.(sender := Idle)
      else
        && t == s.(sender := Asked(p, s.sender.epoch), connection := t.connection)
        && (t.connection.ready <==> Live(ch, s)) && Settled(ch.config, t.connection)
        && (p.video ==> (t.connection.codecExtra != [] <==> SetsKnown(ch, s)))
        && t.connection.originUs == c.originUs
        && t.connection.retryAfter ==
             if c.ready && c.queueEpoch == s.sender.epoch && !Live(ch, s) then s.clock + 3000 else c.retryAfter
  {
    if Step(ch, s, Check).sender.Cleared? {
      SyncedIs(ch, s, Step(ch, s, Check));
    }
  }

  lemma {:induction false} SyncedIs(ch: Channel, s: Publisher.Live, u: Publisher.Live)
    requires s.sender.Holding? && Settled(ch.config, s.connection) && !s.stopping
    requires u == s.(sender := Cleared(s.sender.packet, s.sender.epoch))
    ensures
      var t, p, c := Step(ch, u, Synchronize), s.sender.packet, s.connection;
      && t == s.(sender := Asked(p, s.sender.epoch), connection := t.connection)
      && (t.connection.ready <==> Live(ch, s)) && Settled(ch.config, t.connection)
      && (p.video ==> (t.connection.codecExtra != [] <==> SetsKnown(ch, s)))
      && t.connection.originUs == c.originUs
      && t.connection.retryAfter ==
           if c.ready && c.queueEpoch == s.sender.epoch && !Live(ch, s) then s.clock + 3000 else c.retryAfter
  {
    ToldIs(ch, s);
  }

  /** The connection once it has met the epoch and the parameter sets of the packet in hand. */
  lemma {:induction false} ToldIs(ch: Channel, s: Publisher.Live)
    requires s.sender.Holding? && Settled(ch.config, s.connection)
    ensures
      var p, c := s.sender.packet, s.connection;
      var d := Told(ch.config, c, p, s.sender.epoch);
      && (d.ready <==> c.ready && c.queueEpoch == s.sender.epoch) && Settled(ch.config, d)
      && (p.video ==> (d.codecExtra != [] <==> SetsKnown(ch, s)))
      && d.originUs == c.originUs && d.retryAfter == c.retryAfter && d.networkGeneration == c.networkGeneration
  {
    if s.sender.packet.key { A.CompleteIsNonEmpty(s.sender.packet.data, ch.config.h265); }
  }

  lemma {:induction false} DecidedIs(ch: Channel, s: Publisher.Live)
    requires s.sender.Asked? && Settled(ch.config, s.connection)
    ensures
      var t, p, c := Decided(ch, s), s.sender.packet, s.connection;
      && t.sessions == s.sessions
      && if ch.config.networked && !s.signal.ready then t.sender == Idle
         else if c.ready then
           if p.video || (ch.config.audio && p.pts >= c.originUs) then t.sender.Sending? && t.sender.packet == p
           else t.sender == Idle
         else if p.video && p.key && c.codecExtra != [] && c.retryAfter <= s.clock then
           t.sender.Opening? && t.sender.packet == p
         else t.sender == Idle
  {
  }

  /** On to the open, if one is needed. */
  lemma {:induction false} ConnectedIs(ch: Channel, s: Publisher.Live)
    requires s.sender.Idle? || s.sender.Opening? || s.sender.Sending?
    ensures
      var t := Step(ch, s, Connect(true));
      && (s.sender.Idle? ==> t == s)
      && (s.sender.Sending? ==> t == s)
      && (s.sender.Opening? ==>
            && t.sender.Sending? && t.sender.packet == s.sender.packet
            && |t.sessions| == |s.sessions| + 1 && t.sessions[..|s.sessions|] == s.sessions
            && Received(t.sessions[|s.sessions|]) == [])
  {
  }

  /** The steps up to the write, with nothing in between. */
  function Ready(es: seq<Event>): seq<Event> {
    es + [Check] + [Synchronize] + [Permit] + [Proceed] + [Connect(true)]
  }

  lemma {:induction false} ReadyIs(ch: Channel, es: seq<Event>)
    ensures Run(ch, Ready(es)) == Step(ch, Decided(ch, Synchronized(ch, Run(ch, es))), Connect(true))
  {
    RunSnoc(ch, es, Check);
    RunSnoc(ch, es + [Check], Synchronize);
    RunSnoc(ch, es + [Check] + [Synchronize], Permit);
    RunSnoc(ch, es + [Check] + [Synchronize] + [Permit], Proceed);
    RunSnoc(ch, es + [Check] + [Synchronize] + [Permit] + [Proceed], Connect(true));
  }

  /** Whether the write is reached, and what the sessions are then. */
  lemma {:induction false} ReachesWrite(ch: Channel, es: seq<Event>)
    requires Run(ch, es).sender.Holding?
    ensures
      var s, t := Run(ch, es), Run(ch, Ready(es));
      && (t.sender.Sending? <==> Clear(ch, s) && (CanWrite(ch, s) || CanOpen(ch, s)))
      && (t.sender.Sending? ==> t.sender.packet == s.sender.packet)
      && (!t.sender.Sending? ==> t.sender.Idle? && t.sessions == s.sessions)
      && (t.sender.Sending? && Live(ch, s) ==> t.sessions == s.sessions)
      && (t.sender.Sending? && !Live(ch, s) ==>
            && |t.sessions| == |s.sessions| + 1 && t.sessions[..|s.sessions|] == s.sessions
            && Received(t.sessions[|s.sessions|]) == [])
  {
    RunKeeps(ch, es);
    ReadyIs(ch, es);
    StepsReach(ch, Run(ch, es));
  }

  lemma {:induction false} StepsReach(ch: Channel, s: Publisher.Live)
    requires s.sender.Holding? && Settled(ch.config, s.connection)
    ensures
      var t := Step(ch, Decided(ch, Synchronized(ch, s)), Connect(true));
      && (t.sender.Sending? <==> Clear(ch, s) && (CanWrite(ch, s) || CanOpen(ch, s)))
      && (t.sender.Sending? ==> t.sender.packet == s.sender.packet)
      && (!t.sender.Sending? ==> t.sender.Idle? && t.sessions == s.sessions)
      && (t.sender.Sending? && Live(ch, s) ==> t.sessions == s.sessions)
      && (t.sender.Sending? && !Live(ch, s) ==>
            && |t.sessions| == |s.sessions| + 1 && t.sessions[..|s.sessions|] == s.sessions
            && Received(t.sessions[|s.sessions|]) == [])
  {
    SynchronizedIs(ch, s);
    var u := Synchronized(ch, s);
    if u.sender.Asked? {
      DecidedIs(ch, u);
      ConnectedIs(ch, Decided(ch, u));
    }
  }

  /**
   * Progress, over every run: if nothing comes between the steps of the sender and no call fails, the packet in hand
   * is sent exactly if nothing stands in its way and it can be written, or a connection opened for it. What the
   * receiver of the session gets then is what it had, or nothing if the session is new, and this packet.
   */
  lemma {:induction false} PacketIsSentExactly(ch: Channel, es: seq<Event>)
    requires Run(ch, es).sender.Holding?
    ensures
      var s, t := Run(ch, es), Run(ch, Ready(es) + [Deliver(true, true)]);
      var n := |s.sessions|;
      if Clear(ch, s) && CanWrite(ch, s) then
        && n > 0 && |t.sessions| == n && t.sessions[..n-1] == s.sessions[..n-1]
        && Received(t.sessions[n-1]) == Received(s.sessions[n-1]) + [s.sender.packet]
      else if Clear(ch, s) && CanOpen(ch, s) then
        && |t.sessions| == n + 1 && t.sessions[..n] == s.sessions
        && Received(t.sessions[n]) == [s.sender.packet]
      else t.sessions == s.sessions
  {
    var s, u := Run(ch, es), Run(ch, Ready(es));
    ReachesWrite(ch, es);
    if u.sender.Sending? {
      SuccessIsReceived(ch, Ready(es));
      assert [] + [s.sender.packet] == [s.sender.packet];
    } else {
      RunSnoc(ch, Ready(es), Deliver(true, true));
      assert Run(ch, Ready(es) + [Deliver(true, true)]) == u;
    }
  }

  // --------------------------------------------------------------- failures

  /** The open or the write in progress fails, or something is thrown on the way. */
  predicate Disrupts(s: Publisher.Live, e: Event) {
    || (e.Connect? && s.sender.Opening? && !e.opens)
    || (e.Deliver? && s.sender.Sending? && !(e.allocates && e.writes))
    || (e.Throw? && (s.sender.Cleared? || s.sender.Synced? || s.sender.Sending?))
  }

  /** Exactly then the sender throws the backlog away and waits for a key frame; only a failed write closes. */
  lemma {:induction false} FailureEndsGroup(ch: Channel, es: seq<Event>, e: Event)
    requires !Run(ch, es).sender.Failing?
    ensures
      var s, t, u := Run(ch, es), Run(ch, es + [e]), Run(ch, es + [e] + [Recover]);
      && (t.sender.Failing? <==> Disrupts(s, e))
      && (t.sender.Failing? ==>
            && u.sender.Idle? && u.world.queue.generation == t.world.queue.generation + 1
            && u.world.queue.items == [] && u.world.queue.waitingKey)
      && (e.Deliver? && s.sender.Sending? ==> (t.connection.ready <==> !e.allocates || e.writes))
  {
    RunKeeps(ch, es);
    RunSnoc(ch, es, e);
    RunSnoc(ch, es + [e], Recover);
    FailingIs(ch, Run(ch, es), e);
    if e.Deliver? { OnlyWritesClose(ch, Run(ch, es), e); }
    RecoveredIs(ch, Run(ch, es + [e]));
  }

  lemma {:induction false} OnlyWritesClose(ch: Channel, s: Publisher.Live, e: Event)
    requires e.Deliver? && Settled(ch.config, s.connection) && (s.sender.Sending? ==> s.connection.ready)
    ensures s.sender.Sending? ==> (Step(ch, s, e).connection.ready <==> !e.allocates || e.writes)
  {
  }

  lemma {:induction false} RecoveredIs(ch: Channel, s: Publisher.Live)
    ensures
      var t := Step(ch, s, Recover);
      s.sender.Failing? ==>
        && t.sender.Idle? && t.world.queue.generation == s.world.queue.generation + 1
        && t.world.queue.items == [] && t.world.queue.waitingKey
  {
  }

  lemma {:induction false} FailingIs(ch: Channel, s: Publisher.Live, e: Event)
    requires !s.sender.Failing?
    ensures Step(ch, s, e).sender.Failing? <==> Disrupts(s, e)
  {
    if !Own(e) { SenderStays(ch, s, e); }
  }

  lemma {:induction false} SenderStays(ch: Channel, s: Publisher.Live, e: Event)
    requires !Own(e) && !s.sender.Failing?
    ensures !Step(ch, s, e).sender.Failing?
  {
    match e
    case CaptureVideo(data, pts, key, fault, stamp) =>
    case CaptureAudio(data, pts, lost, stamp) =>
    case Take =>
    case Check =>
    case _ =>
  }

  /** Once the program is stopping, or the queue has been stopped, it stays so, and no packet is cleared any more. */
  lemma {:induction false} StoppingStays(ch: Channel, es: seq<Event>, stop: Event, more: seq<Event>)
    requires stop.Interrupt? || stop.StopQueue?
    ensures
      var s := Run(ch, es + [stop] + more);
      && (if stop.Interrupt? then s.stopping else s.world.queue.stopped)
      && (s.sender.Holding? ==> Run(ch, es + [stop] + more + [Check]).sender.Idle?)
  {
    RunSnoc(ch, es + [stop] + more, Check);
    StopIsKept(ch, es, stop, more);
    NotCleared(ch, Run(ch, es + [stop] + more));
  }

  lemma {:induction false} NotCleared(ch: Channel, s: Publisher.Live)
    requires s.stopping || s.world.queue.stopped
    ensures s.sender.Holding? ==> Step(ch, s, Check).sender.Idle?
  {
  }

  lemma {:induction false} StopIsKept(ch: Channel, es: seq<Event>, stop: Event, more: seq<Event>)
    requires stop.Interrupt? || stop.StopQueue?
    ensures
      var s := Run(ch, es + [stop] + more);
      if stop.Interrupt? then s.stopping else s.world.queue.stopped
    decreases |more|
  {
    if |more| == 0 {
      assert es + [stop] + more == es + [stop];
      RunSnoc(ch, es, stop);
    } else {
      var front, last := more[..|more|-1], more[|more|-1];
      assert es + [stop] + more == es + [stop] + front + [last];
      StopIsKept(ch, es, stop, front);
      RunSnoc(ch, es + [stop] + front, last);
      RunKeeps(ch, es + [stop] + front);
      StillStopped(ch, Run(ch, es + [stop] + front), last);
    }
  }

  lemma {:induction false} StillStopped(ch: Channel, s: Publisher.Live, e: Event)
    requires Inv(ch, s)
    ensures s.stopping ==> Step(ch, s, e).stopping
    ensures s.world.queue.stopped ==> Step(ch, s, e).world.queue.stopped
  {
    if !Own(e) && !e.Take? && !e.Check? && !e.Recover? {
      AroundStep(ch, s, e);
    } else if e.Take? {
      TakeForm(ch, s);
      TakeWorld(ch, s);
    } else {
      OwnStopped(ch, s, e);
    }
  }

  lemma {:induction false} OwnStopped(ch: Channel, s: Publisher.Live, e: Event)
    requires Own(e) || e.Check? || e.Recover?
    ensures Step(ch, s, e).stopping == s.stopping && Step(ch, s, e).world.queue.stopped == s.world.queue.stopped
  {
    match e
    case Check =>
    case Synchronize =>
    case Permit =>
    case Proceed =>
    case Connect(opens) =>
    case Deliver(allocates, writes) =>
    case Throw(cached) =>
    case Recover =>
  }
}
