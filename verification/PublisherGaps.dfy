/** When the receiver of a session misses a packet: exactly which refusals tear it, and what rules them out. */
module PublisherGaps {
  import opened Common
  import opened Publisher
  import opened PublisherSafety
  import opened PublisherSessions
  import opened PublisherFrames
  import Q = PublisherQueue
  import C = FfmpegConnection
  import N = RouteSignal

  /** The packets the receiver of a session got. */
  function Received(S: Session): seq<Q.Packet> {
    PacketsOf(S.written) + if S.stray.Stray? then [S.stray.write.packet] else []
  }

  /** The packets that were due to it, up to the last one it got. */
  function Due(h: Q.History, S: Session): seq<Q.Packet>
    requires S.epoch < |h.delivered| && S.first <= S.next <= |h.delivered[S.epoch]|
    requires S.stray.Stray? ==> S.next <= S.stray.at < |h.delivered[S.epoch]|
  {
    h.delivered[S.epoch][S.first..if S.stray.Stray? then S.stray.at + 1 else S.next]
  }

  predicate Keeps(ch: Channel, S: Session, p: Q.Packet) {
    p.video || (ch.config.audio && p.pts >= S.origin)
  }

  /** Nothing a receiver got is missing from that: each success adds its packet, and none comes after a stray one. */
  lemma {:induction false} SuccessIsReceived(ch: Channel, es: seq<Event>)
    requires Run(ch, es).sender.Sending?
    ensures
      var s, t := Run(ch, es), Run(ch, es + [Deliver(true, true)]);
      var n := |s.sessions| - 1;
      && |t.sessions| == |s.sessions| > 0 && t.sessions[..n] == s.sessions[..n] && s.sessions[n].stray == NoStray
      && Received(t.sessions[n]) == Received(s.sessions[n]) + [s.sender.packet]
  {
    var s := Run(ch, es);
    RunKeeps(ch, es);
    RunSnoc(ch, es, Deliver(true, true));
    DeliverWrites(ch, s);
    SendingMeans(ch, s);
    PacketsSnoc(s.sessions[|s.sessions|-1].written, WriteOf(s));
  }

  // ------------------------------------------------------ refused packets

  /** Refusal r is of packet n of the session's epoch; the network was not ready, and all writes lay before. */
  ghost predicate RefusedAt(s: Live, S: Session, n: nat, r: nat)
    requires S.epoch < |s.world.history.delivered| && n < |s.world.history.delivered[S.epoch]|
  {
    && r < |s.refusals| && s.refusals[r].epoch == S.epoch && s.refusals[r].at == n
    && s.refusals[r].packet == s.world.history.delivered[S.epoch][n]
    && s.refusals[r].instant < |s.signals| && !s.signals[s.refusals[r].instant].ready
    && forall i :: 0 <= i < |S.written| ==> S.written[i].done <= s.refusals[r].instant
  }

  /** Every packet from the end of the session up to number `end` is none to keep, or was refused. */
  ghost predicate Accounted(ch: Channel, s: Live, S: Session, end: int)
    requires S.epoch < |s.world.history.delivered| && end <= |s.world.history.delivered[S.epoch]|
  {
    forall n: nat :: S.next <= n < end && Keeps(ch, S, s.world.history.delivered[S.epoch][n]) ==>
      exists r: nat :: RefusedAt(s, S, n, r)
  }

  /** Nothing of this epoch can be on its way again. */
  predicate Hopeless(s: Live, S: Session) {
    || s.sender.Failing?
    || ((s.world.queue.generation > S.epoch || s.world.queue.stopped) && !s.sender.Has(S.epoch))
    || (s.stopping && !s.sender.Asked? && !s.sender.Allowed())
  }

  ghost predicate LastAccounted(ch: Channel, s: Live) {
    s.connection.ready && s.sessions != [] && !Hopeless(s, s.sessions[|s.sessions|-1]) ==>
      var S := s.sessions[|s.sessions|-1];
      S.stray == NoStray ==>
        S.epoch < |s.world.history.delivered| && Accounted(ch, s, S, Position(s, S.epoch))
  }

  /** Refusals are about instants that have been, before the packet in hand was allowed. */
  ghost predicate RefusalsPast(s: Live) {
    forall r :: 0 <= r < |s.refusals| ==>
      s.refusals[r].instant < |s.signals| && (s.sender.Allowed() ==> s.refusals[r].instant <= s.sender.instant)
  }

  /** A stray packet comes after the refusals that account for what it passed over. */
  ghost predicate StrayAccounted(ch: Channel, s: Live, S: Session)
    requires S.epoch < |s.world.history.delivered|
    requires S.stray.Stray? ==> S.stray.at < |s.world.history.delivered[S.epoch]|
  {
    S.stray.Stray? ==>
      forall n: nat :: S.next <= n < S.stray.at && Keeps(ch, S, s.world.history.delivered[S.epoch][n]) ==>
        exists r: nat :: RefusedAt(s, S, n, r) && s.refusals[r].instant <= S.stray.write.allowed
  }

  ghost predicate InPast(s: Live, S: Session) {
    forall i :: 0 <= i < |S.written| ==> S.written[i].done < |s.signals|
  }

  ghost predicate AllAccounted(ch: Channel, s: Live)
    requires AllFaithful(ch, s.world.history, s.sessions)
  {
    forall k :: 0 <= k < |s.sessions| ==>
      Faithful(ch, s.world.history, s.sessions[k]) && StrayAccounted(ch, s, s.sessions[k]) && InPast(s, s.sessions[k])
  }

  ghost predicate GapInv(ch: Channel, s: Live) {
    Inv(ch, s) && LastAccounted(ch, s) && RefusalsPast(s) && AllAccounted(ch, s)
  }

  // --------------------------------------------- nothing is forgotten

  /** t knows all that s did of deliveries, signals and refusals. */
  ghost predicate Later(s: Live, t: Live) {
    && s.signals <= t.signals && s.refusals <= t.refusals
    && |s.world.history.delivered| <= |t.world.history.delivered|
    && forall g :: 0 <= g < |s.world.history.delivered| ==> s.world.history.delivered[g] <= t.world.history.delivered[g]
  }

  lemma {:induction false} StillRefused(s: Live, t: Live, S: Session, n: nat, r: nat)
    requires Later(s, t) && S.epoch < |s.world.history.delivered| && n < |s.world.history.delivered[S.epoch]|
    requires RefusedAt(s, S, n, r)
    ensures RefusedAt(t, S, n, r) && t.refusals[r] == s.refusals[r]
  {
  }

  lemma {:induction false} StillAccounted(ch: Channel, s: Live, t: Live, S: Session, end: int)
    requires Later(s, t) && S.epoch < |s.world.history.delivered| && end <= |s.world.history.delivered[S.epoch]|
    requires Accounted(ch, s, S, end)
    ensures Accounted(ch, t, S, end)
  {
    forall n: nat | S.next <= n < end && Keeps(ch, S, t.world.history.delivered[S.epoch][n])
      ensures exists r: nat :: RefusedAt(t, S, n, r)
    {
      assert t.world.history.delivered[S.epoch][n] == s.world.history.delivered[S.epoch][n];
      var r: nat :| RefusedAt(s, S, n, r);
      StillRefused(s, t, S, n, r);
    }
  }

  lemma {:induction false} StillStrayAccounted(ch: Channel, s: Live, t: Live, S: Session)
    requires Later(s, t) && S.epoch < |s.world.history.delivered|
    requires S.stray.Stray? ==> S.stray.at < |s.world.history.delivered[S.epoch]|
    requires StrayAccounted(ch, s, S)
    ensures StrayAccounted(ch, t, S)
  {
    if S.stray.Stray? {
      forall n: nat | S.next <= n < S.stray.at && Keeps(ch, S, t.world.history.delivered[S.epoch][n])
        ensures exists r: nat :: RefusedAt(t, S, n, r) && t.refusals[r].instant <= S.stray.write.allowed
      {
        assert t.world.history.delivered[S.epoch][n] == s.world.history.delivered[S.epoch][n];
        var r: nat :| RefusedAt(s, S, n, r) && s.refusals[r].instant <= S.stray.write.allowed;
        StillRefused(s, t, S, n, r);
      }
    }
  }

  /** Sessions that were there before are accounted for as they were. */
  lemma {:induction false} StillAllAccounted(ch: Channel, s: Live, t: Live)
    requires GapInv(ch, s) && Later(s, t) && AllFaithful(ch, t.world.history, t.sessions)
    requires t.sessions == s.sessions
    ensures AllAccounted(ch, t)
  {
    forall k | 0 <= k < |t.sessions|
      ensures Faithful(ch, t.world.history, t.sessions[k])
      ensures StrayAccounted(ch, t, t.sessions[k]) && InPast(t, t.sessions[k])
    {
      assert Faithful(ch, s.world.history, s.sessions[k]);
      StillStrayAccounted(ch, s, t, s.sessions[k]);
    }
  }

  // ------------------------------------------------------- step by step

  /** The sender's place and the session are what they were. */
  lemma {:induction false} SameLast(ch: Channel, s: Live, t: Live)
    requires GapInv(ch, s) && Inv(ch, t) && Later(s, t) && t.sessions == s.sessions
    requires t.connection.ready ==> s.connection.ready
    requires
      t.connection.ready ==>
        var S := s.sessions[|s.sessions|-1];
        && (Hopeless(s, S) ==> Hopeless(t, S))
        && (Hopeless(t, S) || Position(t, S.epoch) == Position(s, S.epoch))
    ensures LastAccounted(ch, t)
  {
    if t.connection.ready {
      var S := s.sessions[|s.sessions|-1];
      if !Hopeless(t, S) && S.stray == NoStray { StillAccounted(ch, s, t, S, Position(s, S.epoch)); }
    }
  }

  lemma {:induction false} Collects(ch: Channel, s: Live, t: Live)
    requires GapInv(ch, s) && Inv(ch, t) && Later(s, t) && t.sessions == s.sessions
    requires LastAccounted(ch, t) && RefusalsPast(t)
    ensures GapInv(ch, t)
  {
    StillAllAccounted(ch, s, t);
  }

  /** What is not a step of the sender goes on around it. */
  lemma {:induction false} AroundStep(ch: Channel, s: Live, e: Event)
    requires Inv(ch, s) && !Own(e) && !e.Take? && !e.Check? && !e.Recover?
    ensures Around(s, Step(ch, s, e)) && Step(ch, s, e).refusals == s.refusals
  {
    var t := Step(ch, s, e);
    match e
    case CaptureVideo(data, pts, key, fault, stamp) =>
      ProducerAround(ch, s, t, VideoCall(ch.config.h265, s.stopping, s.extra, data, pts, key, fault, |s.captures|,
          stamp).1);
    case CaptureAudio(data, pts, lost, stamp) =>
      var call := AudioCall(s.stopping, data, pts, lost, |s.sounds|, stamp);
      if call.Some? { ProducerAround(ch, s, t, call.value); }
    case DiscardChannel => ProducerAround(ch, s, t, Q.DoReset);
    case StopQueue => ProducerAround(ch, s, t, Q.DoStop);
    case Network(to) => if N.Moves(s.signal, to) { N.MovesKeepValid(s.signal, to); }
    case Interrupt =>
    case Tick(ms) =>
  }

  lemma {:induction false} AroundGaps(ch: Channel, s: Live, e: Event)
    requires GapInv(ch, s) && !Own(e) && !e.Take? && !e.Check? && !e.Recover?
    ensures GapInv(ch, Step(ch, s, e))
  {
    var t := Step(ch, s, e);
    StepKeeps(ch, s, e);
    AroundStep(ch, s, e);
    SameLast(ch, s, t);
    Collects(ch, s, t);
  }

  lemma {:induction false} TakePlace(ch: Channel, s: Live, S: Session)
    requires Q.Sound(ch.limits, s.world) && s.sender.Idle? && S.epoch < |s.world.history.delivered|
    ensures
      var t := TakePacket(ch, s);
      && Later(s, t) && t.sessions == s.sessions && t.refusals == s.refusals && t.connection == s.connection
      && (Hopeless(s, S) ==> Hopeless(t, S)) && Position(t, S.epoch) == Position(s, S.epoch)
  {
    TakeForm(ch, s);
    TakeWorld(ch, s);
    TakeDelivers(ch, s);
    var was, now := s.world.history.delivered[S.epoch], TakePacket(ch, s).world.history.delivered[S.epoch];
    assert |now| == |was| + if TakePacket(ch, s).sender.Has(S.epoch) then 1 else 0;
  }

  lemma {:induction false} TakeLater(ch: Channel, s: Live)
    requires Q.Sound(ch.limits, s.world) && s.sender.Idle?
    ensures
      var t := TakePacket(ch, s);
      && Later(s, t) && t.sessions == s.sessions && t.refusals == s.refusals && t.connection == s.connection
      && !t.sender.Allowed() && t.signals == s.signals
  {
    TakeForm(ch, s);
    TakeDelivers(ch, s);
    TakeHand(ch, s);
  }

  lemma {:induction false} TakeGaps(ch: Channel, s: Live)
    requires GapInv(ch, s) && s.sender.Idle?
    ensures GapInv(ch, TakePacket(ch, s))
  {
    var t := TakePacket(ch, s);
    TakeKeeps(ch, s);
    TakeLater(ch, s);
    if s.connection.ready { TakePlace(ch, s, s.sessions[|s.sessions|-1]); }
    SameLast(ch, s, t);
    Collects(ch, s, t);
  }

  lemma {:induction false} CheckPlace(ch: Channel, s: Live, S: Session)
    requires Plain(ch, s) && s.sender.Holding? && S.epoch < |s.world.history.delivered|
    ensures
      var t := CheckPacket(s);
      && (Hopeless(s, S) ==> Hopeless(t, S))
      && (Hopeless(t, S) || Position(t, S.epoch) == Position(s, S.epoch))
  {
    assert |s.world.history.delivered| == s.world.queue.generation + 1;
  }

  lemma {:induction false} CheckGaps(ch: Channel, s: Live)
    requires GapInv(ch, s) && s.sender.Holding?
    ensures GapInv(ch, CheckPacket(s))
  {
    var t := CheckPacket(s);
    CheckKeeps(ch, s);
    if s.connection.ready { CheckPlace(ch, s, s.sessions[|s.sessions|-1]); }
    SameLast(ch, s, t);
    Collects(ch, s, t);
  }

  lemma {:induction false} RecoverLater(ch: Channel, s: Live)
    requires Inv(ch, s) && s.sender.Failing?
    ensures
      var t := QueueDo(ch, s, Q.DoReset).(sender := Idle);
      && Later(s, t) && t.sessions == s.sessions && t.refusals == s.refusals && t.connection == s.connection
      && t.signals == s.signals && t.sender == Idle
      && t.world.queue.generation == s.world.queue.generation + 1
  {
    Q.DoGrows(ch.limits, s.world, Q.DoReset);
  }

  lemma {:induction false} RecoverGaps(ch: Channel, s: Live)
    requires GapInv(ch, s) && s.sender.Failing?
    ensures GapInv(ch, QueueDo(ch, s, Q.DoReset).(sender := Idle))
  {
    var t := QueueDo(ch, s, Q.DoReset).(sender := Idle);
    RecoverKeeps(ch, s);
    RecoverLater(ch, s);
    SameLast(ch, s, t);
    Collects(ch, s, t);
  }

  lemma {:induction false} SyncGaps(ch: Channel, s: Live)
    requires GapInv(ch, s) && s.sender.Cleared?
    ensures GapInv(ch, SyncPacket(ch, s))
  {
    var t := SyncPacket(ch, s);
    SyncKeeps(ch, s);
    SyncFacts(ch, s);
    SameLast(ch, s, t);
    Collects(ch, s, t);
  }

  /** The refusal logged is of the packet in hand. */
  lemma {:induction false} RefusalOfHand(ch: Channel, s: Live, S: Session)
    requires Inv(ch, s) && s.sender.Asked? && ch.config.networked && !s.signal.ready && S.epoch == s.sender.epoch
    requires InPast(s, S)
    ensures
      var ps := s.world.history.delivered[S.epoch];
      S.epoch < |s.world.history.delivered| && ps != [] && RefusedAt(PermitPacket(ch, s), S, |ps| - 1, |s.refusals|)
  {
  }

  lemma {:induction false} PermitAccounted(ch: Channel, s: Live, S: Session)
    requires Inv(ch, s) && s.sender.Asked? && ch.config.networked && !s.signal.ready && S.epoch == s.sender.epoch
    requires S.epoch < |s.world.history.delivered| && Accounted(ch, s, S, Position(s, S.epoch)) && InPast(s, S)
    ensures
      var t := PermitPacket(ch, s);
      Accounted(ch, t, S, Position(t, S.epoch))
  {
    var t, m := PermitPacket(ch, s), Position(s, S.epoch);
    RefusalOfHand(ch, s, S);
    StillAccounted(ch, s, t, S, m);
    forall n: nat | S.next <= n < Position(t, S.epoch) && Keeps(ch, S, t.world.history.delivered[S.epoch][n])
      ensures exists r: nat :: RefusedAt(t, S, n, r)
    {
      if n >= m { assert RefusedAt(t, S, n, |s.refusals|); }
    }
  }

  lemma {:induction false} PermitGaps(ch: Channel, s: Live)
    requires GapInv(ch, s) && s.sender.Asked?
    ensures GapInv(ch, PermitPacket(ch, s))
  {
    var t := PermitPacket(ch, s);
    PermitKeeps(ch, s);
    if t.sender.Idle? && s.connection.ready {
      var S := s.sessions[|s.sessions|-1];
      if S.stray == NoStray { PermitAccounted(ch, s, S); }
    } else {
      SameLast(ch, s, t);
    }
    Collects(ch, s, t);
  }

  lemma {:induction false} SkipAccounted(ch: Channel, s: Live, t: Live, S: Session)
    requires HandFull(s) && s.sender.Synced? && t == s.(sender := Idle) && S.epoch == s.sender.epoch
    requires Accounted(ch, s, S, Position(s, S.epoch)) && !Keeps(ch, S, s.sender.packet)
    ensures Accounted(ch, t, S, Position(t, S.epoch))
  {
    StillAccounted(ch, s, t, S, Position(s, S.epoch));
  }

  lemma {:induction false} OnAccounted(ch: Channel, s: Live, t: Live, S: Session)
    requires s.sender.Synced? && t == s.(sender := t.sender) && t.sender.Has(s.sender.epoch)
    requires S.epoch == s.sender.epoch && S.epoch < |s.world.history.delivered|
    requires Accounted(ch, s, S, Position(s, S.epoch))
    ensures Accounted(ch, t, S, Position(t, S.epoch))
  {
    StillAccounted(ch, s, t, S, Position(s, S.epoch));
  }

  lemma {:induction false} ProceedLast(ch: Channel, s: Live)
    requires GapInv(ch, s) && s.sender.Synced? && s.connection.ready
    ensures LastAccounted(ch, ProceedPacket(s))
  {
    var t, S := ProceedPacket(s), s.sessions[|s.sessions|-1];
    ProceedFacts(ch, s);
    if S.stray == NoStray {
      if t.sender.Idle? { SkipAccounted(ch, s, t, S); } else { OnAccounted(ch, s, t, S); }
    }
  }

  lemma {:induction false} ProceedGaps(ch: Channel, s: Live)
    requires GapInv(ch, s) && s.sender.Synced?
    ensures GapInv(ch, ProceedPacket(s))
  {
    ProceedKeeps(ch, s);
    ProceedFacts(ch, s);
    if s.connection.ready { ProceedLast(ch, s); }
    Collects(ch, s, ProceedPacket(s));
  }

  lemma {:induction false} ThrowGaps(ch: Channel, s: Live, cached: bool)
    requires GapInv(ch, s) && (s.sender.Cleared? || s.sender.Synced? || s.sender.Sending?)
    ensures GapInv(ch, ThrowPacket(s, cached))
  {
    ThrowKeeps(ch, s, cached);
    ThrowFacts(s, cached);
    Collects(ch, s, ThrowPacket(s, cached));
  }

  lemma {:induction false} ConnectGaps(ch: Channel, s: Live, opens: bool)
    requires GapInv(ch, s) && s.sender.Opening?
    ensures GapInv(ch, ConnectPacket(ch, s, opens))
  {
    var t := ConnectPacket(ch, s, opens);
    ConnectKeeps(ch, s, opens);
    if opens {
      forall k | 0 <= k < |t.sessions|
        ensures Faithful(ch, t.world.history, t.sessions[k])
        ensures StrayAccounted(ch, t, t.sessions[k]) && InPast(t, t.sessions[k])
      {
        if k < |s.sessions| { StillStrayAccounted(ch, s, t, s.sessions[k]); }
      }
    } else {
      Collects(ch, s, t);
    }
  }

  /** What a success leaves of the last session. */
  lemma {:induction false} StrayIsAccounted(ch: Channel, s: Live, t: Live)
    requires GapInv(ch, s) && s.sender.Sending? && !Fresh(ch, s) && s.sessions != [] && HandFull(s)
    requires s.sessions[|s.sessions|-1].epoch == s.sender.epoch && s.sessions[|s.sessions|-1].stray == NoStray
    requires t == s.(sender := Idle, sessions := s.sessions[..|s.sessions|-1] + [Written(ch, s)])
    ensures StrayAccounted(ch, t, Written(ch, s))
  {
    var S, T := s.sessions[|s.sessions|-1], Written(ch, s);
    forall n: nat | S.next <= n < T.stray.at && Keeps(ch, T, t.world.history.delivered[S.epoch][n])
      ensures exists r: nat :: RefusedAt(t, T, n, r) && t.refusals[r].instant <= T.stray.write.allowed
    {
      var r: nat :| RefusedAt(s, S, n, r);
      assert RefusedAt(t, T, n, r);
    }
  }

  lemma {:induction false} SuccessAccounted(ch: Channel, s: Live, t: Live)
    requires GapInv(ch, s) && s.sender.Sending? && s.sessions != [] && HandFull(s)
    requires s.sessions[|s.sessions|-1].epoch == s.sender.epoch && s.sessions[|s.sessions|-1].stray == NoStray
    requires t == s.(sender := Idle, sessions := s.sessions[..|s.sessions|-1] + [Written(ch, s)])
    requires AllFaithful(ch, t.world.history, t.sessions)
    ensures AllAccounted(ch, t)
  {
    var n := |s.sessions| - 1;
    if !Fresh(ch, s) { StrayIsAccounted(ch, s, t); }
    forall k | 0 <= k < |t.sessions|
      ensures Faithful(ch, t.world.history, t.sessions[k])
      ensures StrayAccounted(ch, t, t.sessions[k]) && InPast(t, t.sessions[k])
    {
      assert Faithful(ch, t.world.history, t.sessions[k]);
      if k < n { StillStrayAccounted(ch, s, t, s.sessions[k]); }
    }
  }

  lemma {:induction false} SuccessGaps(ch: Channel, s: Live)
    requires GapInv(ch, s) && s.sender.Sending?
    ensures GapInv(ch, DeliverPacket(ch, s, true, true))
  {
    DeliverKeeps(ch, s, true, true);
    DeliverWrites(ch, s);
    SendingMeans(ch, s);
    SuccessAccounted(ch, s, DeliverPacket(ch, s, true, true));
  }

  lemma {:induction false} DeliverGaps(ch: Channel, s: Live, allocates: bool, writes: bool)
    requires GapInv(ch, s) && s.sender.Sending?
    ensures GapInv(ch, DeliverPacket(ch, s, allocates, writes))
  {
    if allocates && writes {
      SuccessGaps(ch, s);
    } else {
      DeliverKeeps(ch, s, allocates, writes);
      Collects(ch, s, DeliverPacket(ch, s, allocates, writes));
    }
  }

  lemma {:induction false} OwnGaps(ch: Channel, s: Live, e: Event)
    requires GapInv(ch, s) && Own(e)
    ensures GapInv(ch, Step(ch, s, e))
  {
    match e
    case Synchronize => if s.sender.Cleared? { SyncGaps(ch, s); }
    case Permit => if s.sender.Asked? { PermitGaps(ch, s); }
    case Proceed => if s.sender.Synced? { ProceedGaps(ch, s); }
    case _ => OutputGaps(ch, s, e);
  }

  lemma {:induction false} OutputGaps(ch: Channel, s: Live, e: Event)
    requires GapInv(ch, s) && (e.Connect? || e.Deliver? || e.Throw?)
    ensures GapInv(ch, Step(ch, s, e))
  {
    match e
    case Connect(opens) => if s.sender.Opening? { ConnectGaps(ch, s, opens); }
    case Deliver(allocates, writes) => if s.sender.Sending? { DeliverGaps(ch, s, allocates, writes); }
    case Throw(cached) => if s.sender.Cleared? || s.sender.Synced? || s.sender.Sending? { ThrowGaps(ch, s, cached); }
  }

  lemma {:induction false} StepGaps(ch: Channel, s: Live, e: Event)
    requires GapInv(ch, s)
    ensures GapInv(ch, Step(ch, s, e))
  {
    if Own(e) {
      OwnGaps(ch, s, e);
    } else if e.Take? {
      if s.sender.Idle? { TakeGaps(ch, s); }
    } else if e.Check? {
      if s.sender.Holding? { CheckGaps(ch, s); }
    } else if e.Recover? {
      if s.sender.Failing? { RecoverGaps(ch, s); }
    } else {
      AroundGaps(ch, s, e);
    }
  }

  lemma {:induction false} RunGaps(ch: Channel, es: seq<Event>)
    ensures GapInv(ch, Run(ch, es))
  {
    RunKeeps(ch, es);
    if es != [] {
      RunGaps(ch, es[..|es|-1]);
      StepGaps(ch, Run(ch, es[..|es|-1]), es[|es|-1]);
    }
  }

  // ----------------------------------------------------------- the results

  lemma {:induction false} KeptConcat(audio: bool, origin: nat, x: seq<Q.Packet>, y: seq<Q.Packet>)
    ensures Kept(audio, origin, x + y) == Kept(audio, origin, x) + Kept(audio, origin, y)
    decreases |y|
  {
    if |y| == 0 {
      assert x + y == x;
    } else {
      var front, last := y[..|y|-1], y[|y|-1];
      assert x + y == x + front + [last] && front + [last] == y;
      KeptConcat(audio, origin, x, front);
      KeptSnoc(audio, origin, x + front, last);
    }
  }

  lemma {:induction false} KeptNone(audio: bool, origin: nat, ps: seq<Q.Packet>)
    ensures Kept(audio, origin, ps) == [] <==>
              forall i :: 0 <= i < |ps| ==> !(ps[i].video || (audio && ps[i].pts >= origin))
    decreases |ps|
  {
    if |ps| > 0 {
      KeptNone(audio, origin, ps[..|ps|-1]);
      assert forall i :: 0 <= i < |ps| - 1 ==> ps[..|ps|-1][i] == ps[i];
    }
  }

  lemma {:induction false} ThreeParts(ps: seq<Q.Packet>, a: nat, b: nat, n: nat)
    requires a <= b <= n < |ps|
    ensures ps[a..b] + ps[b..n] + [ps[n]] == ps[a..n + 1]
  {
  }

  /** Refusal r is of a packet the session should have had, between its last regular write and its stray one. */
  ghost predicate Tears(ch: Channel, s: Live, S: Session, r: nat)
    requires S.epoch < |s.world.history.delivered|
    requires S.stray.Stray? ==> S.stray.at < |s.world.history.delivered[S.epoch]|
  {
    && S.stray.Stray? && r < |s.refusals| && S.next <= s.refusals[r].at < S.stray.at
    && RefusedAt(s, S, s.refusals[r].at, r) && Keeps(ch, S, s.refusals[r].packet)
    && s.refusals[r].instant <= S.stray.write.allowed
  }

  lemma {:induction false} NothingMore(S: Session)
    requires S.stray == NoStray
    ensures Received(S) == PacketsOf(S.written)
  {
  }

  lemma {:induction false} ThreeKept(audio: bool, origin: nat, x: seq<Q.Packet>, gap: seq<Q.Packet>, p: Q.Packet)
    requires p.video || (audio && p.pts >= origin)
    ensures Kept(audio, origin, x) + [p] == Kept(audio, origin, x + gap + [p]) <==> Kept(audio, origin, gap) == []
  {
    var a, b := Kept(audio, origin, x), Kept(audio, origin, gap);
    KeptConcat(audio, origin, x, gap);
    KeptSnoc(audio, origin, x + gap, p);
    assert |a + b + [p]| == |a| + |b| + 1;
    assert b == [] ==> a + b == a;
  }

  /** The receiver lacks something exactly if there is something to keep between the two. */
  lemma {:induction false} LacksTheGap(ch: Channel, h: Q.History, S: Session)
    requires Faithful(ch, h, S)
    ensures
      Received(S) == Kept(ch.config.audio, S.origin, Due(h, S)) <==>
        (S.stray.Stray? ==> Kept(ch.config.audio, S.origin, h.delivered[S.epoch][S.next..S.stray.at]) == [])
  {
    if S.stray.Stray? {
      var ps := h.delivered[S.epoch];
      ThreeParts(ps, S.first, S.next, S.stray.at);
      ThreeKept(ch.config.audio, S.origin, ps[S.first..S.next], ps[S.next..S.stray.at], ps[S.stray.at]);
    } else {
      NothingMore(S);
    }
  }

  /** Nothing to keep lies in the gap. */
  ghost predicate EmptyGap(ch: Channel, h: Q.History, S: Session)
    requires S.epoch < |h.delivered| && S.stray.Stray? && S.stray.at < |h.delivered[S.epoch]|
  {
    forall n: nat :: S.next <= n < S.stray.at ==> !Keeps(ch, S, h.delivered[S.epoch][n])
  }

  lemma {:induction false} EmptyGapMeans(ch: Channel, h: Q.History, S: Session)
    requires Faithful(ch, h, S) && S.stray.Stray?
    ensures
      EmptyGap(ch, h, S) <==> Kept(ch.config.audio, S.origin, h.delivered[S.epoch][S.next..S.stray.at]) == []
  {
    var ps := h.delivered[S.epoch];
    var gap := ps[S.next..S.stray.at];
    KeptNone(ch.config.audio, S.origin, gap);
    if EmptyGap(ch, h, S) {
      assert forall i :: 0 <= i < |gap| ==> gap[i] == ps[S.next + i];
    }
    if forall i :: 0 <= i < |gap| ==> !Keeps(ch, S, gap[i]) {
      forall n: nat | S.next <= n < S.stray.at ensures !Keeps(ch, S, ps[n]) {
        assert gap[n - S.next] == ps[n];
      }
    }
  }

  lemma {:induction false} GapIsRefused(ch: Channel, s: Live, S: Session)
    requires Faithful(ch, s.world.history, S) && StrayAccounted(ch, s, S) && S.stray.Stray?
    ensures !EmptyGap(ch, s.world.history, S) <==> exists r: nat :: Tears(ch, s, S, r)
  {
    var ps := s.world.history.delivered[S.epoch];
    if !EmptyGap(ch, s.world.history, S) {
      var n: nat :| S.next <= n < S.stray.at && Keeps(ch, S, ps[n]);
      var r: nat :| RefusedAt(s, S, n, r) && s.refusals[r].instant <= S.stray.write.allowed;
      assert Tears(ch, s, S, r);
    }
    if exists r: nat :: Tears(ch, s, S, r) {
      var r: nat :| Tears(ch, s, S, r);
      assert Keeps(ch, S, ps[s.refusals[r].at]);
    }
  }

  /**
   * Torn exactly, over every run: what was due to the receiver of a session is an unbroken run of offered packets,
   * and it got all of them it should keep, if and only if there was not both a stray packet at the end, allowed by a
   * later network generation than the one read for it, and, between the last regular write and that permission, a
   * packet to keep that was refused at an instant when the network was not ready.
   */
  lemma {:induction false} SessionsTornExactly(ch: Channel, es: seq<Event>, k: nat)
    requires k < |Run(ch, es).sessions|
    ensures
      var s, S := Run(ch, es), Run(ch, es).sessions[k];
      && Faithful(ch, s.world.history, S) && OfferedInARow(s.world.history.calls, Due(s.world.history, S))
      && (Received(S) != Kept(ch.config.audio, S.origin, Due(s.world.history, S)) <==>
          exists r: nat :: Tears(ch, s, S, r))
  {
    var s := Run(ch, es);
    var S, h := s.sessions[k], s.world.history;
    RunGaps(ch, es);
    assert Faithful(ch, h, S) && Q.Groups(h);
    assert Q.Group(h, S.epoch);
    LacksTheGap(ch, h, S);
    if S.stray.Stray? {
      assert StrayAccounted(ch, s, S);
      EmptyGapMeans(ch, h, S);
      GapIsRefused(ch, s, S);
    }
    var ps, end := h.accepted[S.epoch], if S.stray.Stray? then S.stray.at + 1 else S.next;
    assert Due(h, S) == ps[S.first..end];
    StretchOffered(h.calls, ps, S.first, end);
  }

  // ------------------------------------------------------ one reading of both

  /** The generation read for the packet in hand is the one there is, and the one that allowed it. */
  ghost predicate Together(ch: Channel, s: Live) {
    && (forall k :: 0 <= k < |s.sessions| ==> s.sessions[k].stray == NoStray)
    && (s.sender.Asked? && ch.config.networked ==> s.connection.networkGeneration == s.signal.generation)
    && Fresh(ch, s)
  }

  /** No event of the network falls between the reading of the generation and the reading of readiness. */
  ghost predicate Snapshots(ch: Channel, es: seq<Event>) {
    forall n :: 0 <= n < |es| && es[n].Network? ==> !Run(ch, es[..n]).sender.Asked?
  }

  lemma {:induction false} PermitTogether(ch: Channel, s: Live)
    requires Inv(ch, s) && Together(ch, s) && s.sender.Asked?
    ensures Together(ch, PermitPacket(ch, s))
  {
  }

  lemma {:induction false} SyncTogether(ch: Channel, s: Live)
    requires Inv(ch, s) && Together(ch, s) && s.sender.Cleared?
    ensures Together(ch, SyncPacket(ch, s))
  {
    SyncFacts(ch, s);
  }

  lemma {:induction false} ProceedTogether(ch: Channel, s: Live)
    requires Inv(ch, s) && Together(ch, s) && s.sender.Synced?
    ensures Together(ch, ProceedPacket(s))
  {
  }

  lemma {:induction false} ConnectTogether(ch: Channel, s: Live, opens: bool)
    requires Inv(ch, s) && Together(ch, s) && s.sender.Opening?
    ensures Together(ch, ConnectPacket(ch, s, opens))
  {
  }

  lemma {:induction false} DeliverTogether(ch: Channel, s: Live, allocates: bool, writes: bool)
    requires Inv(ch, s) && Together(ch, s) && s.sender.Sending?
    ensures Together(ch, DeliverPacket(ch, s, allocates, writes))
  {
    if allocates && writes {
      DeliverWrites(ch, s);
      assert Written(ch, s).stray == NoStray;
    } else {
      assert DeliverPacket(ch, s, allocates, writes).sessions == s.sessions;
    }
  }

  lemma {:induction false} OwnTogether(ch: Channel, s: Live, e: Event)
    requires Inv(ch, s) && Together(ch, s) && Own(e)
    ensures Together(ch, Step(ch, s, e))
  {
    match e
    case Synchronize => if s.sender.Cleared? { SyncTogether(ch, s); }
    case Permit => if s.sender.Asked? { PermitTogether(ch, s); }
    case Proceed => if s.sender.Synced? { ProceedTogether(ch, s); }
    case Connect(opens) => if s.sender.Opening? { ConnectTogether(ch, s, opens); }
    case Deliver(allocates, writes) => if s.sender.Sending? { DeliverTogether(ch, s, allocates, writes); }
    case Throw(cached) =>
  }

  lemma {:induction false} StepTogether(ch: Channel, s: Live, e: Event)
    requires Inv(ch, s) && Together(ch, s) && (e.Network? ==> !s.sender.Asked?)
    ensures Together(ch, Step(ch, s, e))
  {
    if Own(e) {
      OwnTogether(ch, s, e);
    } else if e.Take? {
      if s.sender.Idle? { TakeLater(ch, s); TakeDelivers(ch, s); TakeKeepsLive(ch, s); }
    } else if !e.Check? && !e.Recover? {
      AroundStep(ch, s, e);
    }
  }

  lemma {:induction false} RunTogether(ch: Channel, es: seq<Event>)
    requires Snapshots(ch, es)
    ensures Together(ch, Run(ch, es))
  {
    if es != [] {
      var front := es[..|es|-1];
      forall n | 0 <= n < |front| && front[n].Network? ensures !Run(ch, front[..n]).sender.Asked? {
        assert front[..n] == es[..n] && front[n] == es[n];
      }
      RunTogether(ch, front);
      RunKeeps(ch, front);
      StepTogether(ch, Run(ch, front), es[|es|-1]);
    }
  }

  /** With generation and readiness read as one, no session is ever torn: its receiver got all that was due. */
  lemma {:induction false} SnapshotsKeepSessionsWhole(ch: Channel, es: seq<Event>, k: nat)
    requires Snapshots(ch, es) && k < |Run(ch, es).sessions|
    ensures
      var h, S := Run(ch, es).world.history, Run(ch, es).sessions[k];
      && Faithful(ch, h, S) && OfferedInARow(h.calls, Due(h, S))
      && Received(S) == Kept(ch.config.audio, S.origin, Due(h, S))
  {
    RunTogether(ch, es);
    SessionsTornExactly(ch, es, k);
  }
}
