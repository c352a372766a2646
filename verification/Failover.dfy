/** The publisher and the failover together: what the network did while a session was being written. */
module Failover {
  import opened Common
  import opened Publisher
  import opened PublisherSafety
  import opened PublisherSessions
  import N = RouteSignal
  import Q = PublisherQueue
  import R = NetworkRoute

  /** The log of signals is an unbroken history of the pair, up to what the senders see now. */
  ghost predicate SignalsLogged(s: Live) {
    && s.signals[|s.signals|-1] == s.signal
    && (forall i :: 0 <= i < |s.signals| ==> N.Valid(s.signals[i]))
    && forall i :: 0 <= i < |s.signals| - 1 ==> N.Moves(s.signals[i], s.signals[i+1])
  }

  /** Each packet was allowed when the pair was ready under the generation noted, and written then or later. */
  ghost predicate WriteNoted(networked: bool, signals: seq<N.Signal>, w: Write) {
    && w.allowed <= w.done < |signals|
    && (networked ==> signals[w.allowed].ready && signals[w.allowed].generation == w.generation)
  }

  /** A packet is allowed only after the one before it was written. */
  ghost predicate Ordered(written: seq<Write>) {
    forall i, j :: 0 <= i < j < |written| ==> written[i].done <= written[j].allowed
  }

  /** A stray packet was allowed after all others were written, when a later generation was ready. */
  ghost predicate StrayNoted(signals: seq<N.Signal>, S: Session) {
    S.stray.Stray? ==>
      var w := S.stray.write;
      && w.allowed <= w.done < |signals| && signals[w.allowed].ready && w.generation < signals[w.allowed].generation
      && forall i :: 0 <= i < |S.written| ==> S.written[i].done <= w.allowed
  }

  ghost predicate SessionNoted(networked: bool, signals: seq<N.Signal>, S: Session) {
    && (forall i :: 0 <= i < |S.written| ==> WriteNoted(networked, signals, S.written[i]))
    && Ordered(S.written) && StrayNoted(signals, S)
  }

  ghost predicate AllNoted(networked: bool, signals: seq<N.Signal>, sessions: seq<Session>) {
    forall k :: 0 <= k < |sessions| ==> SessionNoted(networked, signals, sessions[k])
  }

  /** Everything written so far was written before the packet in hand was allowed. */
  ghost predicate HandLater(s: Live) {
    s.sender.Allowed() ==>
      forall k, i :: 0 <= k < |s.sessions| && 0 <= i < |s.sessions[k].written| ==>
        s.sessions[k].written[i].done <= s.sender.instant
  }

  ghost predicate Noted(ch: Channel, s: Live) {
    SignalsLogged(s) && AllNoted(ch.config.networked, s.signals, s.sessions) && HandLater(s)
  }

  lemma {:induction false} NotedLonger(networked: bool, signals: seq<N.Signal>, to: N.Signal, sessions: seq<Session>)
    requires AllNoted(networked, signals, sessions)
    ensures AllNoted(networked, signals + [to], sessions)
  {
    forall k | 0 <= k < |sessions| ensures SessionNoted(networked, signals + [to], sessions[k]) {
      assert SessionNoted(networked, signals, sessions[k]);
      forall i | 0 <= i < |sessions[k].written| ensures WriteNoted(networked, signals + [to], sessions[k].written[i]) {
        assert WriteNoted(networked, signals, sessions[k].written[i]);
      }
    }
  }

  lemma {:induction false} PermitNotes(ch: Channel, s: Live)
    requires Noted(ch, s) && s.sender.Asked?
    ensures Noted(ch, PermitPacket(ch, s))
  {
    forall k, i | 0 <= k < |s.sessions| && 0 <= i < |s.sessions[k].written|
      ensures s.sessions[k].written[i].done <= |s.signals| - 1
    {
      assert SessionNoted(ch.config.networked, s.signals, s.sessions[k]);
      assert WriteNoted(ch.config.networked, s.signals, s.sessions[k].written[i]);
    }
  }

  lemma {:induction false} ConnectNotes(ch: Channel, s: Live, opens: bool)
    requires Noted(ch, s) && s.sender.Opening?
    ensures Noted(ch, ConnectPacket(ch, s, opens))
  {
    var t := ConnectPacket(ch, s, opens);
    forall k | 0 <= k < |t.sessions| ensures SessionNoted(ch.config.networked, t.signals, t.sessions[k]) {
      if k < |s.sessions| { assert SessionNoted(ch.config.networked, s.signals, s.sessions[k]); }
    }
  }

  lemma {:induction false} SessionLonger(networked: bool, signals: seq<N.Signal>, S: Session, T: Session, w: Write)
    requires SessionNoted(networked, signals, S) && WriteNoted(networked, signals, w)
    requires T == S.(next := T.next, written := S.written + [w]) && S.stray == NoStray
    requires forall i :: 0 <= i < |S.written| ==> S.written[i].done <= w.allowed
    ensures SessionNoted(networked, signals, T)
  {
    forall i | 0 <= i < |T.written| ensures WriteNoted(networked, signals, T.written[i]) {
      if i < |S.written| { assert WriteNoted(networked, signals, S.written[i]); }
    }
  }

  lemma {:induction false} DeliverNoted(ch: Channel, s: Live)
    requires Inv(ch, s) && Noted(ch, s) && s.sender.Sending?
    requires s.sessions != [] && HandFull(s) && s.sessions[|s.sessions|-1].epoch == s.sender.epoch
    ensures SessionNoted(ch.config.networked, s.signals, Written(ch, s))
  {
    var S := s.sessions[|s.sessions|-1];
    SendingMeans(ch, s);
    assert SessionNoted(ch.config.networked, s.signals, S);
    if Fresh(ch, s) { SessionLonger(ch.config.networked, s.signals, S, Written(ch, s), WriteOf(s)); }
  }

  lemma {:induction false} DeliverNotes(ch: Channel, s: Live)
    requires Inv(ch, s) && Noted(ch, s) && s.sender.Sending?
    ensures Noted(ch, DeliverPacket(ch, s, true, true))
  {
    var t, n := DeliverPacket(ch, s, true, true), |s.sessions| - 1;
    DeliverWrites(ch, s);
    forall k | 0 <= k < |t.sessions| ensures SessionNoted(ch.config.networked, t.signals, t.sessions[k]) {
      assert SessionNoted(ch.config.networked, s.signals, s.sessions[k]);
      if k == n { DeliverNoted(ch, s); }
    }
  }

  lemma {:induction false} NetworkNotes(ch: Channel, s: Live, to: N.Signal)
    requires Noted(ch, s) && N.Moves(s.signal, to)
    ensures Noted(ch, s.(signal := to, signals := s.signals + [to]))
  {
    N.MovesKeepValid(s.signal, to);
    NotedLonger(ch.config.networked, s.signals, to, s.sessions);
  }

  lemma {:induction false} SenderFrame(ch: Channel, s: Live, e: Event)
    requires !Own(e) && !e.Network?
    ensures
      var t := Step(ch, s, e);
      && t.signal == s.signal && t.signals == s.signals && t.sessions == s.sessions
      && (t.sender == s.sender || !t.sender.Allowed())
  {
    match e
    case CaptureVideo(data, pts, key, fault, stamp) =>
    case CaptureAudio(data, pts, lost, stamp) =>
    case Take =>
    case Check =>
    case _ =>
  }

  /** Steps of the sender that write nothing and let nothing new through. */
  lemma {:induction false} QuietNotes(ch: Channel, s: Live, t: Live)
    requires Noted(ch, s) && t.signals == s.signals && t.signal == s.signal && t.sessions == s.sessions
    requires
      t.sender.Allowed() ==> s.sender.Allowed() && t.sender.instant == s.sender.instant
    ensures Noted(ch, t)
  {
  }

  lemma {:induction false} NetworkStepNotes(ch: Channel, s: Live, e: Event)
    requires Inv(ch, s) && Noted(ch, s) && (e.Synchronize? || e.Permit? || e.Proceed?)
    ensures Noted(ch, Step(ch, s, e))
  {
    if e.Permit? && s.sender.Asked? { PermitNotes(ch, s); } else { QuietNotes(ch, s, Step(ch, s, e)); }
  }

  lemma {:induction false} DeliverStepNotes(ch: Channel, s: Live, allocates: bool, writes: bool)
    requires Inv(ch, s) && Noted(ch, s) && s.sender.Sending?
    ensures Noted(ch, DeliverPacket(ch, s, allocates, writes))
  {
    if allocates && writes {
      DeliverNotes(ch, s);
    } else {
      QuietNotes(ch, s, DeliverPacket(ch, s, allocates, writes));
    }
  }

  lemma {:induction false} OwnNotes(ch: Channel, s: Live, e: Event)
    requires Inv(ch, s) && Noted(ch, s) && Own(e)
    ensures Noted(ch, Step(ch, s, e))
  {
    match e
    case Connect(opens) => if s.sender.Opening? { ConnectNotes(ch, s, opens); }
    case Deliver(allocates, writes) => if s.sender.Sending? { DeliverStepNotes(ch, s, allocates, writes); }
    case Throw(cached) => QuietNotes(ch, s, Step(ch, s, e));
    case _ => NetworkStepNotes(ch, s, e);
  }

  lemma {:induction false} StepNotes(ch: Channel, s: Live, e: Event)
    requires Inv(ch, s) && Noted(ch, s)
    ensures Noted(ch, Step(ch, s, e))
  {
    if Own(e) {
      OwnNotes(ch, s, e);
    } else if e.Network? {
      if N.Moves(s.signal, e.to) { NetworkNotes(ch, s, e.to); }
    } else {
      SenderFrame(ch, s, e);
      QuietNotes(ch, s, Step(ch, s, e));
    }
  }

  lemma {:induction false} RunNotes(ch: Channel, es: seq<Event>)
    ensures Noted(ch, Run(ch, es))
  {
    if es != [] {
      RunNotes(ch, es[..|es|-1]);
      RunKeeps(ch, es[..|es|-1]);
      StepNotes(ch, Run(ch, es[..|es|-1]), es[|es|-1]);
    }
  }

  /** At instant m the network is what it was at instant `first`: ready, one interface, one source address. */
  ghost predicate SameRoute(trace: seq<R.Snapshot>, generation: nat, first: nat, m: nat)
    requires first < |trace| && m < |trace|
  {
    && trace[m].signal.ready && trace[m].signal.generation == generation
    && trace[m].active == trace[first].active
    && (trace[first].address != 0 ==> trace[m].address == trace[first].address)
  }

  /** The trace is a history of the failover that shows the signals of the run. */
  ghost predicate TraceOf(trace: seq<R.Snapshot>, s: Live) {
    R.Protocol(trace) && |trace| == |s.signals| && forall n :: 0 <= n < |trace| ==> trace[n].signal == s.signals[n]
  }

  /**
   * One session, one route: from the instant its first packet was allowed to the instant its last one was, the
   * network was ready under the session's generation, on one interface, and no two different source addresses were
   * recorded.
   */
  lemma {:induction false} SessionsStayOnOneRoute(ch: Channel, es: seq<Event>, k: nat, trace: seq<R.Snapshot>,
                                                  i: nat, j: nat, m: nat)
    requires ch.config.networked && k < |Run(ch, es).sessions| && TraceOf(trace, Run(ch, es))
    requires i <= j < |Run(ch, es).sessions[k].written|
    requires Run(ch, es).sessions[k].written[i].allowed <= m <= Run(ch, es).sessions[k].written[j].allowed
    ensures
      var S := Run(ch, es).sessions[k];
      S.written[i].allowed < |trace| && m < |trace| && SameRoute(trace, S.generation, S.written[i].allowed, m)
  {
    var s := Run(ch, es);
    var S := s.sessions[k];
    assert SessionNoted(true, s.signals, S) by { RunNotes(ch, es); }
    assert Faithful(ch, s.world.history, S) by { RunKeeps(ch, es); }
    assert WriteNoted(true, s.signals, S.written[i]) && WriteNoted(true, s.signals, S.written[j]);
    R.Handshake(trace, S.written[i].allowed, S.written[j].allowed, m);
  }

  /** Hence of these packets every one but the last was written on that route: only the last can come late. */
  lemma {:induction false} WritesBeforeTheLast(ch: Channel, es: seq<Event>, k: nat, trace: seq<R.Snapshot>, i: nat)
    requires ch.config.networked && k < |Run(ch, es).sessions| && TraceOf(trace, Run(ch, es))
    requires i + 1 < |Run(ch, es).sessions[k].written|
    ensures
      var S := Run(ch, es).sessions[k];
      && S.written[0].allowed <= S.written[i].done < |trace|
      && SameRoute(trace, S.generation, S.written[0].allowed, S.written[i].done)
  {
    var s := Run(ch, es);
    var S := s.sessions[k];
    assert SessionNoted(ch.config.networked, s.signals, S) by { RunNotes(ch, es); }
    assert forall n :: 0 <= n < |S.written| ==> S.written[n].allowed <= S.written[n].done;
    SessionsStayOnOneRoute(ch, es, k, trace, 0, i + 1, S.written[i].done);
  }

  /** A stray packet comes when the network is ready again, under a later generation than its session's. */
  lemma {:induction false} StraysComeLate(ch: Channel, es: seq<Event>, k: nat, i: nat)
    requires k < |Run(ch, es).sessions| && Run(ch, es).sessions[k].stray.Stray?
    requires i < |Run(ch, es).sessions[k].written|
    ensures
      var s := Run(ch, es);
      var S, w := s.sessions[k], s.sessions[k].stray.write;
      && S.written[i].done <= w.allowed < |s.signals|
      && s.signals[w.allowed].ready && S.generation < s.signals[w.allowed].generation
  {
    var s := Run(ch, es);
    assert SessionNoted(ch.config.networked, s.signals, s.sessions[k]) by { RunNotes(ch, es); }
    assert Faithful(ch, s.world.history, s.sessions[k]) by { RunKeeps(ch, es); }
  }
}
