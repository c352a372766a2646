/** What the receiver of one connection gets, over every run of the machine in Publisher. */
module PublisherSessions {
  import opened Common
  import opened Publisher
  import opened PublisherSafety
  import Q = PublisherQueue
  import C = FfmpegConnection
  import N = RouteSignal

  /** The packets of ps a connection with this origin writes: all video, and audio from the origin on. */
  function Kept(audio: bool, origin: nat, ps: seq<Q.Packet>): seq<Q.Packet> {
    if ps == [] then []
    else
      var last := ps[|ps|-1];
      Kept(audio, origin, ps[..|ps|-1]) + if last.video || (audio && last.pts >= origin) then [last] else []
  }

  function PacketsOf(written: seq<Write>): (ps: seq<Q.Packet>)
    ensures |ps| == |written|
  {
    seq(|written|, i requires 0 <= i < |written| => written[i].packet)
  }

  lemma {:induction false} KeptSnoc(audio: bool, origin: nat, ps: seq<Q.Packet>, p: Q.Packet)
    ensures Kept(audio, origin, ps + [p]) ==
            Kept(audio, origin, ps) + if p.video || (audio && p.pts >= origin) then [p] else []
  {
    assert (ps + [p])[..|ps|] == ps;
  }

  /** A stray packet comes after the others, and after it the network generation of its session is past. */
  ghost predicate StrayOf(ch: Channel, ps: seq<Q.Packet>, S: Session) {
    S.stray.Stray? ==>
      && ch.config.networked && S.next <= S.stray.at < |ps| && S.stray.write.packet == ps[S.stray.at]
      && S.stray.write.epoch == S.epoch && S.stray.write.generation == S.generation
      && (ps[S.stray.at].video || (ch.config.audio && ps[S.stray.at].pts >= S.origin))
  }

  /** A session, finished or not, against the packets delivered in its epoch. */
  ghost predicate Faithful(ch: Channel, h: Q.History, S: Session) {
    && S.epoch < |h.delivered|
    && var ps := h.delivered[S.epoch];
    && S.first <= S.next <= |ps| && S.first < |ps|
    && S.opener == ps[S.first] && S.opener.video && S.opener.key && S.opener.pts == S.origin
    && PacketsOf(S.written) == Kept(ch.config.audio, S.origin, ps[S.first..S.next])
    && StrayOf(ch, ps, S)
    && forall i :: 0 <= i < |S.written| ==>
         S.written[i].epoch == S.epoch && (ch.config.networked ==> S.written[i].generation == S.generation)
  }

  /** How many packets of the epoch the sender is done with. */
  function Position(s: Live, epoch: nat): int
    requires epoch < |s.world.history.delivered|
  {
    |s.world.history.delivered[epoch]| - if s.sender.Has(epoch) then 1 else 0
  }

  /** Everything so far was written. */
  ghost predicate InStep(ch: Channel, s: Live, S: Session)
    requires S.epoch < |s.world.history.delivered|
  {
    && S.first <= Position(s, S.epoch)
    && PacketsOf(S.written) ==
        Kept(ch.config.audio, S.origin, s.world.history.delivered[S.epoch][S.first..Position(s, S.epoch)])
  }

  /** Nothing more will be written. */
  ghost predicate Finished(ch: Channel, s: Live, S: Session) {
    || ((s.world.queue.generation > S.epoch || s.world.queue.stopped) && !s.sender.Has(S.epoch))
    || s.sender.Failing?
    || (ch.config.networked && N.Over(s.signal, S.generation))
    || s.stopping
  }

  ghost predicate HandFull(s: Live) {
    s.sender.Busy() ==>
      && s.sender.epoch < |s.world.history.delivered|
      && var ps := s.world.history.delivered[s.sender.epoch];
      ps != [] && ps[|ps|-1] == s.sender.packet
  }

  /** The last session against the connection it belongs to. */
  ghost predicate Current(ch: Channel, s: Live, S: Session) {
    && S.epoch == s.connection.queueEpoch && S.origin == s.connection.originUs
    && (ch.config.networked ==> S.generation == s.connection.networkGeneration && S.generation < s.signal.spent)
    && S.epoch < |s.world.history.delivered| && S.next <= Position(s, S.epoch)
    && (InStep(ch, s, S) || Finished(ch, s, S))
    && (S.stray.Stray? ==>
        ch.config.networked && S.generation < s.signal.generation && !s.sender.Asked? && !s.sender.Allowed())
  }

  ghost predicate LiveCurrent(ch: Channel, s: Live) {
    s.connection.ready ==> s.sessions != [] && Current(ch, s, s.sessions[|s.sessions|-1])
  }

  ghost predicate AllFaithful(ch: Channel, h: Q.History, sessions: seq<Session>) {
    forall k :: 0 <= k < |sessions| ==> Faithful(ch, h, sessions[k])
  }

  ghost predicate Plain(ch: Channel, s: Live) {
    && Q.Sound(ch.limits, s.world) && N.Valid(s.signal) && s.signals[|s.signals|-1] == s.signal && HandFull(s)
    && (s.connection.context <==> s.connection.ready)
    && (s.connection.ready ==> s.connection.audioTrack == ch.config.audio)
  }

  /**
   * What a packet on its way knows of the network: the connection's generation was read, and after that, under this
   * generation or a later one, it was ready.
   */
  ghost predicate Allowed(ch: Channel, s: Live) {
    && (s.sender.Asked? || s.sender.Allowed() ==>
          && s.connection.queueEpoch == s.sender.epoch
          && (ch.config.networked ==> s.connection.networkGeneration <= s.signal.generation))
    && (s.sender.Allowed() ==>
          && s.sender.instant < |s.signals|
          && (ch.config.networked ==>
                && s.signals[s.sender.instant].ready && s.connection.networkGeneration < s.signal.spent
                && s.connection.networkGeneration <= s.signals[s.sender.instant].generation <= s.signal.generation))
  }

  /** Why the sender is where it is: it opens for a key frame, and writes what the connection keeps. */
  ghost predicate Decided(ch: Channel, s: Live) {
    && (s.sender.Opening? ==>
          !s.connection.ready && s.sender.packet.video && s.sender.packet.key && s.connection.codecExtra != [])
    && (s.sender.Sending? ==>
          && s.connection.ready
          && (s.sender.packet.video || (ch.config.audio && s.sender.packet.pts >= s.connection.originUs)))
  }

  /** The generation read for the packet in hand is, or will be found to be, past. */
  ghost predicate Late(ch: Channel, s: Live) {
    if s.sender.Asked? then ch.config.networked && N.Over(s.signal, s.connection.networkGeneration)
    else !Fresh(ch, s)
  }

  /** While a packet is on its way to a live connection in time, everything before it was written. */
  ghost predicate Riding(ch: Channel, s: Live) {
    (s.sender.Asked? || s.sender.Synced? || s.sender.Sending?) && s.connection.ready && !Late(ch, s) ==>
      && s.sessions != []
      && var S := s.sessions[|s.sessions|-1];
      S.epoch < |s.world.history.delivered| && InStep(ch, s, S)
  }

  ghost predicate Inv(ch: Channel, s: Live) {
    && Plain(ch, s) && LiveCurrent(ch, s) && AllFaithful(ch, s.world.history, s.sessions)
    && Allowed(ch, s) && Decided(ch, s) && Riding(ch, s)
  }

  // ------------------------------------------------ steps of everybody else

  lemma {:induction false} FaithfulGrows(ch: Channel, h: Q.History, k: Q.History, sessions: seq<Session>)
    requires AllFaithful(ch, h, sessions) && Q.Grows(h, k) && |h.accepted| == |h.delivered|
    ensures AllFaithful(ch, k, sessions)
  {
    forall i | 0 <= i < |sessions| ensures Faithful(ch, k, sessions[i]) {
      var S := sessions[i];
      assert Faithful(ch, h, S);
      assert h.delivered[S.epoch] <= k.delivered[S.epoch];
      assert k.delivered[S.epoch][S.first..S.next] == h.delivered[S.epoch][S.first..S.next];
    }
  }

  /** A packet stays allowed while the sender does nothing. */
  lemma {:induction false} StillAllowed(ch: Channel, s: Live, t: Live)
    requires Allowed(ch, s) && t.connection == s.connection && t.sender == s.sender
    requires s.signals <= t.signals && s.signal.spent <= t.signal.spent
    requires s.signal.generation <= t.signal.generation
    ensures Allowed(ch, t) && (Allowed(ch, s) && s.sender.Allowed() ==> Fresh(ch, t) == Fresh(ch, s))
  {
  }

  /** The sender's place in its session is a matter of what its epoch delivered. */
  lemma {:induction false} SameStep(ch: Channel, s: Live, t: Live, S: Session)
    requires S.epoch < |s.world.history.delivered| && S.epoch < |t.world.history.delivered|
    requires t.world.history.delivered[S.epoch] == s.world.history.delivered[S.epoch]
    requires t.sender.Has(S.epoch) == s.sender.Has(S.epoch)
    ensures InStep(ch, t, S) == InStep(ch, s, S)
  {
  }

  /** What others may do between two steps of the sender. */
  ghost predicate Around(s: Live, t: Live) {
    && t.connection == s.connection && t.sender == s.sender && t.sessions == s.sessions
    && s.signals <= t.signals && s.signal.spent <= t.signal.spent && s.signal.generation <= t.signal.generation
    && (s.stopping ==> t.stopping) && (s.world.queue.stopped ==> t.world.queue.stopped)
    && s.world.queue.generation <= t.world.queue.generation
    && |s.world.history.delivered| <= |t.world.history.delivered|
    && forall g :: 0 <= g < |s.world.history.delivered| ==> t.world.history.delivered[g] == s.world.history.delivered[g]
  }

  lemma {:induction false} AroundSession(ch: Channel, s: Live, t: Live, S: Session)
    requires Around(s, t) && Current(ch, s, S)
        && (ch.config.networked && N.Over(s.signal, S.generation) ==> N.Over(t.signal, S.generation))
    ensures Current(ch, t, S) && (InStep(ch, s, S) ==> InStep(ch, t, S))
  {
    SameStep(ch, s, t, S);
  }

  lemma {:induction false} AroundKeeps(ch: Channel, s: Live, t: Live)
    requires Inv(ch, s) && Around(s, t) && Plain(ch, t) && AllFaithful(ch, t.world.history, t.sessions)
    requires forall g :: N.Over(s.signal, g) ==> N.Over(t.signal, g)
    ensures Inv(ch, t)
  {
    StillAllowed(ch, s, t);
    if s.connection.ready {
      var S := s.sessions[|s.sessions|-1];
      assert N.Over(s.signal, S.generation) ==> N.Over(t.signal, S.generation);
      AroundSession(ch, s, t, S);
    }
  }

  lemma {:induction false} ProducerAround(ch: Channel, s: Live, t: Live, e: Q.Event)
    requires Plain(ch, s) && !e.DoPop?
    requires t.world == Q.Do(ch.limits, s.world, e)
    requires t.connection == s.connection && t.sender == s.sender && t.signal == s.signal && t.signals == s.signals
    requires t.stopping == s.stopping && t.sessions == s.sessions
    ensures Around(s, t) && Q.Grows(s.world.history, t.world.history) && Q.Sound(ch.limits, t.world)
  {
    Q.DoSound(ch.limits, s.world, e);
    Q.DoGrows(ch.limits, s.world, e);
  }

  lemma {:induction false} GrownKeeps(ch: Channel, s: Live, t: Live)
    requires Inv(ch, s) && Around(s, t) && Q.Grows(s.world.history, t.world.history) && Q.Sound(ch.limits, t.world)
    requires t.signal == s.signal && t.signals == s.signals
    ensures Inv(ch, t)
  {
    FaithfulGrows(ch, s.world.history, t.world.history, s.sessions);
    AroundKeeps(ch, s, t);
  }

  /** Calls of the producers, and stopping, leave the sender where it is. */
  lemma {:induction false} ProducerKeeps(ch: Channel, s: Live, t: Live, e: Q.Event)
    requires Inv(ch, s) && !e.DoPop?
    requires t.world == Q.Do(ch.limits, s.world, e)
    requires t.connection == s.connection && t.sender == s.sender && t.signal == s.signal && t.signals == s.signals
    requires t.stopping == s.stopping && t.sessions == s.sessions
    ensures Inv(ch, t)
  {
    ProducerAround(ch, s, t, e);
    GrownKeeps(ch, s, t);
  }

  /** The network, the clock and the request to stop. */
  lemma {:induction false} OutsideKeeps(ch: Channel, s: Live, t: Live)
    requires Inv(ch, s)
    requires t.world == s.world && t.connection == s.connection && t.sender == s.sender && t.sessions == s.sessions
    requires N.Moves(s.signal, t.signal) && s.signals <= t.signals && t.signals[|t.signals|-1] == t.signal
    requires s.stopping ==> t.stopping
    ensures Inv(ch, t)
  {
    N.MovesKeepValid(s.signal, t.signal);
    forall g | N.Over(s.signal, g) ensures N.Over(t.signal, g) { N.OverStays(s.signal, t.signal, g); }
    AroundKeeps(ch, s, t);
  }

  // -------------------------------------------------------- the sender's own

  /** A sender that has no packet on its way past the network has only its sessions to answer for. */
  lemma {:induction false} NothingAllowed(ch: Channel, t: Live)
    requires Plain(ch, t) && LiveCurrent(ch, t) && AllFaithful(ch, t.world.history, t.sessions)
    requires !t.sender.Asked? && !t.sender.Allowed()
    ensures Inv(ch, t)
  {
  }

  /** Taking a packet is a pop of the queue; nothing else changes but the hand. */
  lemma {:induction false} TakeForm(ch: Channel, s: Live)
    ensures TakePacket(ch, s) == QueueDo(ch, s.(sender := TakePacket(ch, s).sender), Q.DoPop(s.clock))
  {
  }

  lemma {:induction false} TakeWorld(ch: Channel, s: Live)
    requires Q.Sound(ch.limits, s.world)
    ensures
      var t := TakePacket(ch, s);
      && Q.Sound(ch.limits, t.world) && Q.Grows(s.world.history, t.world.history)
      && s.world.queue.generation <= t.world.queue.generation
      && (s.world.queue.stopped ==> t.world.queue.stopped)
  {
    TakeForm(ch, s);
    Q.DoSound(ch.limits, s.world, Q.DoPop(s.clock));
    Q.DoGrows(ch.limits, s.world, Q.DoPop(s.clock));
  }

  /** What is popped is what the hand holds then. */
  lemma {:induction false} TakeHand(ch: Channel, s: Live)
    requires Q.Sound(ch.limits, s.world) && s.sender.Idle?
    ensures
      var t, g := TakePacket(ch, s), s.world.queue.generation;
      && !t.sender.Cleared? && !t.sender.Failing?
      && (t.sender.Holding? ==>
            && !s.world.queue.stopped && t.sender.epoch == g
            && t.world.history.delivered == Q.AddLast(s.world.history.delivered, t.sender.packet))
      && (!t.sender.Holding? ==>
            t.world.history.delivered == s.world.history.delivered
                || t.world.history.delivered == s.world.history.delivered + [[]])
  {
    Q.PopForm(ch.limits, s.world, s.clock);
  }

  lemma {:induction false} TakeDelivers(ch: Channel, s: Live)
    requires Q.Sound(ch.limits, s.world) && s.sender.Idle?
    ensures
      var t := TakePacket(ch, s);
      && HandFull(t) && !t.sender.Cleared? && !t.sender.Failing?
      && (t.sender.Holding? ==> !s.world.queue.stopped && t.sender.epoch == s.world.queue.generation)
      && |s.world.history.delivered| <= |t.world.history.delivered|
      && forall g :: 0 <= g < |s.world.history.delivered| ==>
           t.world.history.delivered[g] ==
             s.world.history.delivered[g] + if t.sender.Has(g) then [t.sender.packet] else []
  {
    assert |s.world.history.delivered| == s.world.queue.generation + 1;
    TakeHand(ch, s);
  }

  lemma {:induction false} TakeKeepsFinished(ch: Channel, s: Live, t: Live, S: Session)
    requires t == TakePacket(ch, s) && Q.Sound(ch.limits, s.world) && s.sender.Idle? && Finished(ch, s, S)
    ensures Finished(ch, t, S)
  {
    TakeForm(ch, s);
    TakeWorld(ch, s);
    TakeHand(ch, s);
  }

  lemma {:induction false} TakeKeepsStep(ch: Channel, s: Live, t: Live, S: Session)
    requires t == TakePacket(ch, s) && Q.Sound(ch.limits, s.world) && s.sender.Idle?
    requires S.epoch < |s.world.history.delivered| && InStep(ch, s, S)
    ensures S.epoch < |t.world.history.delivered| && InStep(ch, t, S)
  {
    TakeDelivers(ch, s);
    var was, now := s.world.history.delivered[S.epoch], t.world.history.delivered[S.epoch];
    var more := if t.sender.Has(S.epoch) then [t.sender.packet] else [];
    assert now == was + more;
    assert Position(s, S.epoch) == |was| && Position(t, S.epoch) == |was|;
    SliceOfLonger(was, more, S.first);
  }

  lemma {:induction false} SliceOfLonger(ps: seq<Q.Packet>, more: seq<Q.Packet>, first: nat)
    requires first <= |ps|
    ensures (ps + more)[first..|ps|] == ps[first..|ps|]
  {
  }

  lemma {:induction false} TakeKeepsCurrent(ch: Channel, s: Live, t: Live, S: Session)
    requires t == TakePacket(ch, s) && Q.Sound(ch.limits, s.world) && s.sender.Idle? && Current(ch, s, S)
    ensures Current(ch, t, S)
  {
    TakeForm(ch, s);
    assert S.epoch < |t.world.history.delivered| by { TakeDelivers(ch, s); }
    if InStep(ch, s, S) { TakeKeepsStep(ch, s, t, S); } else { TakeKeepsFinished(ch, s, t, S); }
  }

  lemma {:induction false} TakeKeepsPlain(ch: Channel, s: Live)
    requires Plain(ch, s) && s.sender.Idle?
    ensures Plain(ch, TakePacket(ch, s))
  {
    TakeWorld(ch, s);
    TakeDelivers(ch, s);
  }

  lemma {:induction false} TakeKeepsFaithful(ch: Channel, s: Live)
    requires Q.Sound(ch.limits, s.world) && AllFaithful(ch, s.world.history, s.sessions)
    ensures AllFaithful(ch, TakePacket(ch, s).world.history, TakePacket(ch, s).sessions)
  {
    TakeWorld(ch, s);
    FaithfulGrows(ch, s.world.history, TakePacket(ch, s).world.history, s.sessions);
  }

  lemma {:induction false} TakeKeepsLive(ch: Channel, s: Live)
    requires Plain(ch, s) && LiveCurrent(ch, s) && s.sender.Idle?
    ensures LiveCurrent(ch, TakePacket(ch, s))
        && (TakePacket(ch, s).sender.Busy() ==> TakePacket(ch, s).sender.Holding?)
  {
    TakeForm(ch, s);
    TakeHand(ch, s);
    if s.connection.ready { TakeKeepsCurrent(ch, s, TakePacket(ch, s), s.sessions[|s.sessions|-1]); }
  }

  lemma {:induction false} TakeKeeps(ch: Channel, s: Live)
    requires Inv(ch, s) && s.sender.Idle?
    ensures Inv(ch, TakePacket(ch, s))
  {
    TakeKeepsPlain(ch, s);
    TakeKeepsFaithful(ch, s);
    TakeKeepsLive(ch, s);
    NothingAllowed(ch, TakePacket(ch, s));
  }

  lemma {:induction false} CheckCurrent(ch: Channel, s: Live, S: Session)
    requires Plain(ch, s) && s.sender.Holding? && Current(ch, s, S)
    ensures Current(ch, CheckPacket(s), S)
  {
    var t := CheckPacket(s);
    if t.sender.Idle? && s.sender.Has(S.epoch) {
      assert Finished(ch, t, S);
    } else {
      SameStep(ch, s, t, S);
      assert Finished(ch, s, S) ==> Finished(ch, t, S);
    }
  }

  lemma {:induction false} CheckKeeps(ch: Channel, s: Live)
    requires Inv(ch, s) && s.sender.Holding?
    ensures Inv(ch, CheckPacket(s))
  {
    if s.connection.ready { CheckCurrent(ch, s, s.sessions[|s.sessions|-1]); }
    NothingAllowed(ch, CheckPacket(s));
  }

  lemma {:induction false} RecoverKeeps(ch: Channel, s: Live)
    requires Inv(ch, s) && s.sender.Failing?
    ensures Inv(ch, QueueDo(ch, s, Q.DoReset).(sender := Idle))
  {
    var t := QueueDo(ch, s, Q.DoReset).(sender := Idle);
    Q.DoSound(ch.limits, s.world, Q.DoReset);
    Q.DoGrows(ch.limits, s.world, Q.DoReset);
    FaithfulGrows(ch, s.world.history, t.world.history, s.sessions);
    if s.connection.ready {
      assert Finished(ch, t, s.sessions[|s.sessions|-1]);
    }
  }

  /** A connection that is still live is the one there was. */
  lemma {:induction false} ThrowFacts(s: Live, cached: bool)
    requires (s.sender.Cleared? || s.sender.Synced? || s.sender.Sending?)
        && (s.connection.context <==> s.connection.ready)
    ensures
      var t := ThrowPacket(s, cached);
      && t == s.(connection := t.connection, sender := Failing)
      && (t.connection.context <==> t.connection.ready)
      && (t.connection.ready ==> t.connection == s.connection.(codecExtra := t.connection.codecExtra))
  {
  }

  /** A packet that was thrown at is lost, and its epoch with it. */
  lemma {:induction false} ThrowKeeps(ch: Channel, s: Live, cached: bool)
    requires Inv(ch, s) && (s.sender.Cleared? || s.sender.Synced? || s.sender.Sending?)
    ensures Inv(ch, ThrowPacket(s, cached))
  {
    var t := ThrowPacket(s, cached);
    ThrowFacts(s, cached);
    assert LiveCurrent(ch, t) by {
      if t.connection.ready { assert Finished(ch, t, s.sessions[|s.sessions|-1]); }
    }
    NothingAllowed(ch, t);
  }

  ghost predicate Settled(cfg: C.Config, c: C.State) {
    (c.context <==> c.ready) && (c.ready ==> c.audioTrack == cfg.audio)
  }

  /** d is c, or c closed: if it is still live nothing about the session has changed. */
  ghost predicate SameIfLive(c: C.State, d: C.State) {
    d.ready ==>
      && c.ready && c.queueEpoch == d.queueEpoch && c.originUs == d.originUs
      && c.networkGeneration == d.networkGeneration
  }

  /** The connection and the sender after the packet in hand has met the network. */
  ghost predicate SyncOutcome(ch: Channel, s: Live, t: Live)
    requires s.sender.Cleared?
  {
    var c, d, cfg := s.connection, t.connection, ch.config;
    && t == s.(connection := d, sender := t.sender) && Settled(cfg, d) && SameIfLive(c, d)
        && d.queueEpoch == s.sender.epoch
    && (t.sender == Idle || t.sender == Asked(s.sender.packet, s.sender.epoch))
    && (t.sender.Asked? ==> !s.stopping && (cfg.networked ==> d.networkGeneration == s.signal.generation))
    && (t.sender.Idle? ==> s.stopping)
  }

  lemma {:induction false} SyncFacts(ch: Channel, s: Live)
    requires s.sender.Cleared? && Settled(ch.config, s.connection)
    ensures SyncOutcome(ch, s, SyncPacket(ch, s))
  {
  }

  /** A session that goes on after the meeting: nothing before the packet is missing, or nothing more will come. */
  lemma {:induction false} SyncCurrent(ch: Channel, s: Live, t: Live, S: Session)
    requires s.sender.Cleared? && SyncOutcome(ch, s, t) && t.connection.ready && Current(ch, s, S) && N.Valid(s.signal)
    ensures Current(ch, t, S) && (t.sender.Asked? && !Late(ch, t) ==> InStep(ch, t, S))
  {
    if t.sender.Asked? {
      assert Finished(ch, s, S) ==> Late(ch, t);
      SameStep(ch, s, t, S);
    }
  }

  lemma {:induction false} SyncKeeps(ch: Channel, s: Live)
    requires Inv(ch, s) && s.sender.Cleared?
    ensures Inv(ch, SyncPacket(ch, s))
  {
    var t := SyncPacket(ch, s);
    assert SyncOutcome(ch, s, t) by { SyncFacts(ch, s); }
    assert Plain(ch, t) && Allowed(ch, t);
    if t.connection.ready { SyncCurrent(ch, s, t, s.sessions[|s.sessions|-1]); }
  }

  /** Whatever was allowed by a later generation: the one read for it is past. */
  lemma {:induction false} LateIsOver(ch: Channel, s: Live)
    requires Allowed(ch, s) && s.sender.Allowed() && !Fresh(ch, s) && N.Valid(s.signal)
    ensures ch.config.networked && N.Over(s.signal, s.connection.networkGeneration)
  {
  }

  lemma {:induction false} PermitCurrent(ch: Channel, s: Live, S: Session)
    requires s.sender.Asked? && Plain(ch, s) && Allowed(ch, s) && s.connection.ready && Current(ch, s, S)
    requires Late(ch, s) || InStep(ch, s, S)
    ensures
      var t := PermitPacket(ch, s);
      Current(ch, t, S) && (t.sender.Synced? && Fresh(ch, t) ==> InStep(ch, t, S))
  {
    var t := PermitPacket(ch, s);
    if t.sender.Synced? { SameStep(ch, s, t, S); }
  }

  lemma {:induction false} PermitKeeps(ch: Channel, s: Live)
    requires Inv(ch, s) && s.sender.Asked?
    ensures Inv(ch, PermitPacket(ch, s))
  {
    if s.connection.ready { PermitCurrent(ch, s, s.sessions[|s.sessions|-1]); }
  }

  /** What the connection keeps of its epoch, with the last packet delivered. */
  lemma {:induction false} KeptNext(audio: bool, origin: nat, ps: seq<Q.Packet>, first: nat)
    requires first < |ps|
    ensures
      var p := ps[|ps|-1];
      Kept(audio, origin, ps[first..]) ==
        Kept(audio, origin, ps[first..|ps|-1]) + if p.video || (audio && p.pts >= origin) then [p] else []
  {
    assert ps[first..] == ps[first..|ps|-1] + [ps[|ps|-1]];
    KeptSnoc(audio, origin, ps[first..|ps|-1], ps[|ps|-1]);
  }

  /** With a packet in hand: what is written is what is kept of the packets before it. */
  lemma {:induction false} StepInHand(ch: Channel, s: Live, S: Session)
    requires HandFull(s) && s.sender.Busy() && S.epoch == s.sender.epoch
    ensures
      var ps := s.world.history.delivered[S.epoch];
      InStep(ch, s, S) <==>
        S.first < |ps| && PacketsOf(S.written) == Kept(ch.config.audio, S.origin, ps[S.first..|ps|-1])
  {
  }

  /** Once it is done with: of all of them. */
  lemma {:induction false} StepDone(ch: Channel, t: Live, S: Session)
    requires t.sender.Idle? && S.epoch < |t.world.history.delivered|
    ensures
      var ps := t.world.history.delivered[S.epoch];
      InStep(ch, t, S) <==> S.first <= |ps| && PacketsOf(S.written) == Kept(ch.config.audio, S.origin, ps[S.first..])
  {
    var ps := t.world.history.delivered[S.epoch];
    if S.first <= |ps| { assert ps[S.first..|ps|] == ps[S.first..]; }
  }

  /** A packet the connection does not keep is passed over. */
  lemma {:induction false} PassedOver(ch: Channel, s: Live, t: Live, S: Session)
    requires HandFull(s) && s.sender.Busy() && t.world == s.world && t.sender.Idle? && S.epoch == s.sender.epoch
    requires InStep(ch, s, S)
    requires !(s.sender.packet.video || (ch.config.audio && s.sender.packet.pts >= S.origin))
    ensures InStep(ch, t, S)
  {
    StepInHand(ch, s, S);
    KeptNext(ch.config.audio, S.origin, s.world.history.delivered[S.epoch], S.first);
    StepDone(ch, t, S);
  }

  /** Where the packet goes from here: the connection stays as it was. */
  lemma {:induction false} ProceedFacts(ch: Channel, s: Live)
    requires s.sender.Synced? && Settled(ch.config, s.connection)
    ensures
      var t, p := ProceedPacket(s), s.sender.packet;
      var keep := p.video || (ch.config.audio && p.pts >= s.connection.originUs);
      && t == s.(sender := t.sender)
      && (t.sender == Idle || t.sender == Opening(p, s.sender.epoch, s.sender.instant)
          || t.sender == Sending(p, s.sender.epoch, s.sender.instant))
      && (t.sender.Idle? && s.connection.ready ==> !keep)
      && (t.sender.Sending? ==> s.connection.ready && keep)
      && (t.sender.Opening? ==> !s.connection.ready && p.video && p.key && s.connection.codecExtra != [])
  {
  }

  lemma {:induction false} ProceedCurrent(ch: Channel, s: Live, S: Session)
    requires Plain(ch, s) && Allowed(ch, s) && s.sender.Synced? && s.connection.ready && Current(ch, s, S)
    requires Fresh(ch, s) ==> InStep(ch, s, S)
    ensures
      var t := ProceedPacket(s);
      Current(ch, t, S) && (t.sender.Sending? && Fresh(ch, s) ==> InStep(ch, t, S))
  {
    var t := ProceedPacket(s);
    ProceedFacts(ch, s);
    if !Fresh(ch, s) {
      LateIsOver(ch, s);
    } else if t.sender.Idle? {
      PassedOver(ch, s, t, S);
    } else {
      SameStep(ch, s, t, S);
    }
  }

  lemma {:induction false} ProceedKeeps(ch: Channel, s: Live)
    requires Inv(ch, s) && s.sender.Synced?
    ensures Inv(ch, ProceedPacket(s))
  {
    ProceedFacts(ch, s);
    if s.connection.ready { ProceedCurrent(ch, s, s.sessions[|s.sessions|-1]); }
  }

  lemma {:induction false} AllButLast(ch: Channel, h: Q.History, sessions: seq<Session>, next: seq<Session>)
    requires AllFaithful(ch, h, sessions) && next != [] && next[..|next|-1] <= sessions
    requires Faithful(ch, h, next[|next|-1])
    ensures AllFaithful(ch, h, next)
  {
    forall k | 0 <= k < |next| ensures Faithful(ch, h, next[k]) {
      if k < |next| - 1 { assert next[k] == next[..|next|-1][k] == sessions[k]; }
    }
  }

  /** A connection just opened: its session begins with the packet in hand. */
  lemma {:induction false} OpensSession(ch: Channel, s: Live, t: Live, S: Session)
    requires HandFull(s) && s.sender.Opening? && s.sender.packet.video && s.sender.packet.key
    requires t.world == s.world && t.sender == Sending(s.sender.packet, s.sender.epoch, s.sender.instant)
    requires S.epoch == s.sender.epoch && S.opener == s.sender.packet && S.origin == S.opener.pts && S.written == []
    requires S.stray == NoStray
    requires S.first == S.next == |s.world.history.delivered[S.epoch]| - 1
    ensures Faithful(ch, s.world.history, S) && InStep(ch, t, S)
  {
    assert s.world.history.delivered[S.epoch][S.first..S.first] == [];
  }

  lemma {:induction false} ConnectKeeps(ch: Channel, s: Live, opens: bool)
    requires Inv(ch, s) && s.sender.Opening?
    ensures Inv(ch, ConnectPacket(ch, s, opens))
  {
    if opens {
      var t := ConnectPacket(ch, s, opens);
      var S := t.sessions[|t.sessions|-1];
      OpensSession(ch, s, t, S);
      AllButLast(ch, s.world.history, s.sessions, t.sessions);
    }
  }

  lemma {:induction false} PacketsSnoc(written: seq<Write>, w: Write)
    ensures PacketsOf(written + [w]) == PacketsOf(written) + [w.packet]
  {
  }

  /** A packet written on a live connection. */
  lemma {:induction false} NextWrite(ch: Channel, s: Live, t: Live, p: Q.Packet, S: Session, T: Session, w: Write)
    requires HandFull(s) && s.sender.Busy() && s.sender.packet == p && t.world == s.world && t.sender.Idle?
    requires S.epoch == s.sender.epoch && InStep(ch, s, S) && (p.video || (ch.config.audio && p.pts >= S.origin))
    requires T == S.(next := |s.world.history.delivered[S.epoch]|, written := S.written + [w]) && w.packet == p
    ensures
      var ps := s.world.history.delivered[S.epoch];
      InStep(ch, t, T) && PacketsOf(T.written) == Kept(ch.config.audio, S.origin, ps[S.first..])
  {
    StepInHand(ch, s, S);
    KeptNext(ch.config.audio, S.origin, s.world.history.delivered[S.epoch], S.first);
    PacketsSnoc(S.written, w);
    StepDone(ch, t, T);
  }

  lemma {:induction false} FaithfulNext(ch: Channel, h: Q.History, S: Session, T: Session, w: Write)
    requires Faithful(ch, h, S) && S.stray == NoStray
    requires T == S.(next := |h.delivered[S.epoch]|, written := S.written + [w])
    requires w.epoch == S.epoch && (ch.config.networked ==> w.generation == S.generation)
    requires PacketsOf(T.written) == Kept(ch.config.audio, S.origin, h.delivered[S.epoch][S.first..])
    ensures Faithful(ch, h, T)
  {
    var ps := h.delivered[S.epoch];
    assert ps[S.first..|ps|] == ps[S.first..];
  }

  /** The write a success is logged as. */
  function WriteOf(s: Live): Write
    requires s.sender.Sending?
  {
    Write(s.sender.packet, s.sender.epoch, s.connection.networkGeneration, s.sender.instant, |s.signals| - 1)
  }

  /** The last session after a success. */
  function Written(ch: Channel, s: Live): Session
    requires s.sender.Sending? && s.sessions != [] && HandFull(s)
    requires s.sessions[|s.sessions|-1].epoch == s.sender.epoch
  {
    var S := s.sessions[|s.sessions|-1];
    var n := |s.world.history.delivered[S.epoch]|;
    if Fresh(ch, s) then S.(next := n, written := S.written + [WriteOf(s)]) else S.(stray := Stray(WriteOf(s), n - 1))
  }

  lemma {:induction false} DeliverForm(ch: Channel, s: Live)
    requires s.sender.Sending? && s.sessions != [] && HandFull(s)
    requires s.sessions[|s.sessions|-1].epoch == s.sender.epoch
    ensures DeliverPacket(ch, s, true, true) ==
              s.(sender := Idle, sessions := s.sessions[..|s.sessions|-1] + [Written(ch, s)])
  {
  }

  /** What the invariant says of a packet that is being written. */
  lemma {:induction false} SendingMeans(ch: Channel, s: Live)
    requires Inv(ch, s) && s.sender.Sending?
    ensures s.sessions != [] && s.sender.instant < |s.signals| && HandFull(s)
    ensures
      var p, S := s.sender.packet, s.sessions[|s.sessions|-1];
      && S.epoch == s.sender.epoch && Faithful(ch, s.world.history, S) && Current(ch, s, S)
      && (Fresh(ch, s) ==> InStep(ch, s, S))
      && (p.video || (ch.config.audio && p.pts >= S.origin))
      && (ch.config.networked ==> WriteOf(s).generation == S.generation)
  {
  }

  /** A stray packet, too, is one of its epoch, after all that were written. */
  lemma {:induction false} FaithfulStray(ch: Channel, s: Live, S: Session)
    requires HandFull(s) && s.sender.Sending? && S.epoch == s.sender.epoch && Faithful(ch, s.world.history, S)
    requires ch.config.networked && S.next <= Position(s, S.epoch) && WriteOf(s).generation == S.generation
    requires s.sender.packet.video || (ch.config.audio && s.sender.packet.pts >= S.origin)
    ensures Faithful(ch, s.world.history, S.(stray := Stray(WriteOf(s), |s.world.history.delivered[S.epoch]| - 1)))
  {
  }

  lemma {:induction false} DeliverFaithful(ch: Channel, s: Live, t: Live)
    requires Inv(ch, s) && s.sender.Sending? && t == DeliverPacket(ch, s, true, true)
    requires s.sessions != [] && HandFull(s) && s.sessions[|s.sessions|-1].epoch == s.sender.epoch
    requires t == s.(sender := Idle, sessions := s.sessions[..|s.sessions|-1] + [Written(ch, s)])
    ensures Faithful(ch, s.world.history, Written(ch, s)) && (Fresh(ch, s) ==> InStep(ch, t, Written(ch, s)))
  {
    var S := s.sessions[|s.sessions|-1];
    SendingMeans(ch, s);
    if Fresh(ch, s) {
      NextWrite(ch, s, t, s.sender.packet, S, Written(ch, s), WriteOf(s));
      FaithfulNext(ch, s.world.history, S, Written(ch, s), WriteOf(s));
    } else {
      FaithfulStray(ch, s, S);
    }
  }

  lemma {:induction false} DeliverWrites(ch: Channel, s: Live)
    requires Inv(ch, s) && s.sender.Sending?
    ensures s.sessions != [] && HandFull(s) && s.sessions[|s.sessions|-1].epoch == s.sender.epoch
    ensures
      var t := DeliverPacket(ch, s, true, true);
      && t == s.(sender := Idle, sessions := s.sessions[..|s.sessions|-1] + [Written(ch, s)])
      && AllFaithful(ch, s.world.history, t.sessions) && (Fresh(ch, s) ==> InStep(ch, t, Written(ch, s)))
  {
    SendingMeans(ch, s);
    DeliverForm(ch, s);
    var t := DeliverPacket(ch, s, true, true);
    DeliverFaithful(ch, s, t);
    AllButLast(ch, s.world.history, s.sessions, t.sessions);
  }

  /** After a stray packet nothing is written, since the generation of the session is past. */
  lemma {:induction false} DeliverCurrent(ch: Channel, s: Live, t: Live)
    requires Inv(ch, s) && s.sender.Sending? && t == DeliverPacket(ch, s, true, true)
    requires s.sessions != [] && HandFull(s) && s.sessions[|s.sessions|-1].epoch == s.sender.epoch
    requires t == s.(sender := Idle, sessions := s.sessions[..|s.sessions|-1] + [Written(ch, s)])
    requires Fresh(ch, s) ==> InStep(ch, t, Written(ch, s))
    ensures Current(ch, t, Written(ch, s))
  {
    SendingMeans(ch, s);
    if !Fresh(ch, s) { LateIsOver(ch, s); }
  }

  lemma {:induction false} DeliverKeeps(ch: Channel, s: Live, allocates: bool, writes: bool)
    requires Inv(ch, s) && s.sender.Sending?
    ensures Inv(ch, DeliverPacket(ch, s, allocates, writes))
  {
    var t := DeliverPacket(ch, s, allocates, writes);
    if allocates && writes {
      DeliverWrites(ch, s);
      DeliverCurrent(ch, s, t);
      NothingAllowed(ch, t);
    }
  }

  lemma {:induction false} VideoKeeps(
    ch: Channel, s: Live, data: Bytes, pts: nat, key: bool, fault: Fault, stamp: nat)
    requires Inv(ch, s)
    ensures Inv(ch, EnqueueVideo(ch, s, data, pts, key, fault, stamp))
  {
    var call := VideoCall(ch.config.h265, s.stopping, s.extra, data, pts, key, fault, |s.captures|, stamp).1;
    ProducerKeeps(ch, s, EnqueueVideo(ch, s, data, pts, key, fault, stamp), call);
  }

  lemma {:induction false} AudioKeeps(ch: Channel, s: Live, data: Bytes, pts: nat, lost: bool, stamp: nat)
    requires Inv(ch, s)
    ensures Inv(ch, EnqueueAudio(ch, s, data, pts, lost, stamp))
  {
    var call := AudioCall(s.stopping, data, pts, lost, |s.sounds|, stamp);
    if call.Some? {
      ProducerKeeps(ch, s, EnqueueAudio(ch, s, data, pts, lost, stamp), call.value);
    } else {
      OutsideKeeps(ch, s, EnqueueAudio(ch, s, data, pts, lost, stamp));
    }
  }

  lemma {:induction false} CaptureKeeps(ch: Channel, s: Live, e: Event)
    requires Inv(ch, s) && (e.CaptureVideo? || e.CaptureAudio?)
    ensures Inv(ch, Step(ch, s, e))
  {
    match e
    case CaptureVideo(data, pts, key, fault, stamp) => VideoKeeps(ch, s, data, pts, key, fault, stamp);
    case CaptureAudio(data, pts, lost, stamp) => AudioKeeps(ch, s, data, pts, lost, stamp);
  }

  lemma {:induction false} NetworkStepKeeps(ch: Channel, s: Live, e: Event)
    requires Inv(ch, s) && (e.Synchronize? || e.Permit? || e.Proceed?)
    ensures Inv(ch, Step(ch, s, e))
  {
    match e
    case Synchronize => if s.sender.Cleared? { SyncKeeps(ch, s); }
    case Permit => if s.sender.Asked? { PermitKeeps(ch, s); }
    case Proceed => if s.sender.Synced? { ProceedKeeps(ch, s); }
  }

  lemma {:induction false} OwnKeeps(ch: Channel, s: Live, e: Event)
    requires Inv(ch, s) && Own(e)
    ensures Inv(ch, Step(ch, s, e))
  {
    match e
    case Connect(opens) => if s.sender.Opening? { ConnectKeeps(ch, s, opens); }
    case Deliver(allocates, writes) => if s.sender.Sending? { DeliverKeeps(ch, s, allocates, writes); }
    case Throw(cached) => if s.sender.Cleared? || s.sender.Synced? || s.sender.Sending? { ThrowKeeps(ch, s, cached); }
    case _ => NetworkStepKeeps(ch, s, e);
  }

  lemma {:induction false} QueueKeeps(ch: Channel, s: Live, e: Event)
    requires Inv(ch, s) && (e.DiscardChannel? || e.Take? || e.Check? || e.Recover? || e.StopQueue?)
    ensures Inv(ch, Step(ch, s, e))
  {
    match e
    case DiscardChannel => ProducerKeeps(ch, s, Step(ch, s, e), Q.DoReset);
    case Take => if s.sender.Idle? { TakeKeeps(ch, s); }
    case Check => if s.sender.Holding? { CheckKeeps(ch, s); }
    case Recover => if s.sender.Failing? { RecoverKeeps(ch, s); }
    case StopQueue => ProducerKeeps(ch, s, Step(ch, s, e), Q.DoStop);
  }

  lemma {:induction false} WorldKeeps(ch: Channel, s: Live, e: Event)
    requires Inv(ch, s) && (e.Interrupt? || e.Network? || e.Tick?)
    ensures Inv(ch, Step(ch, s, e))
  {
    OutsideKeeps(ch, s, Step(ch, s, e));
  }

  lemma {:induction false} StepKeeps(ch: Channel, s: Live, e: Event)
    requires Inv(ch, s)
    ensures Inv(ch, Step(ch, s, e))
  {
    if Own(e) {
      OwnKeeps(ch, s, e);
    } else if e.CaptureVideo? || e.CaptureAudio? {
      CaptureKeeps(ch, s, e);
    } else if e.Interrupt? || e.Network? || e.Tick? {
      WorldKeeps(ch, s, e);
    } else {
      QueueKeeps(ch, s, e);
    }
  }

  lemma {:induction false} RunKeeps(ch: Channel, es: seq<Event>)
    ensures Inv(ch, Run(ch, es))
  {
    if es == [] {
      Q.RunSound(ch.limits, []);
    } else {
      RunKeeps(ch, es[..|es|-1]);
      StepKeeps(ch, Run(ch, es[..|es|-1]), es[|es|-1]);
    }
  }
}
