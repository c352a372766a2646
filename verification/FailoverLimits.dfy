/** Two runs that show where the results on sessions end: the late last write, and the stray packet. */
module FailoverLimits {
  import opened Common
  import opened Publisher
  import opened PublisherSessions
  import A = AnnexB
  import C = FfmpegConnection
  import G = PublisherGaps
  import N = RouteSignal
  import Q = PublisherQueue

  lemma {:induction false} Exec1(ch: Channel, s: Live, a: Event)
    ensures Exec(ch, s, [a]) == Step(ch, s, a)
  {
    assert [a][..0] == [];
  }

  lemma {:induction false} Exec3(ch: Channel, s: Live, a: Event, b: Event, c: Event)
    ensures Exec(ch, s, [a, b, c]) == Step(ch, Step(ch, Step(ch, s, a), b), c)
  {
    assert [a, b, c] == [a] + [b] + [c];
    ExecSnoc(ch, s, [a] + [b], c);
    ExecSnoc(ch, s, [a], b);
    Exec1(ch, s, a);
  }

  // ------------------------------------------------------------- the channel

  const CHANNEL := Channel(C.Config(false, false, true), Q.Limits(2 * 1024 * 1024, 128, 1000))

  /** A key frame that is nothing but its parameter sets. */
  const KEY_FRAME: seq<A.Frame> := [A.Frame(false, [7, 1]), A.Frame(false, [8, 1])]

  const WAKING := N.Signal(1, false, 1)
  const UP := N.Signal(1, true, 2)
  const DOWN := N.Signal(1, false, 2)
  const MOVED := N.Signal(2, false, 2)
  const UP_AGAIN := N.Signal(2, true, 3)

  lemma {:induction false} KeyFrameBytes()
    ensures A.Stream(KEY_FRAME) == [0, 0, 1, 7, 1, 0, 0, 1, 8, 1]
  {
    assert A.Stream([]) == [] && KEY_FRAME[1..] == [KEY_FRAME[1]] && [KEY_FRAME[1]][1..] == [];
    assert A.Stream([KEY_FRAME[1]]) == A.Framed(KEY_FRAME[1]) + [];
  }

  lemma {:induction false} KeyFrameWanted()
    requires A.AllClean(KEY_FRAME)
    ensures A.Wanted(KEY_FRAME, false, A.NOTHING).Complete(false)
  {
    var f, g := KEY_FRAME[0], KEY_FRAME[1];
    var acc := A.Put(A.NOTHING, f, false);
    assert acc.found == {1} && A.Put(acc, g, false).found == {1, 2};
    assert KEY_FRAME[1..] == [g] && [g][1..] == [];
    A.WantedStep(KEY_FRAME, false, A.NOTHING);
    A.WantedStep([g], false, acc);
  }

  lemma {:induction false} KeyFrameIsComplete()
    ensures A.Stream(KEY_FRAME) == [0, 0, 1, 7, 1, 0, 0, 1, 8, 1]
    ensures A.Extract(A.Stream(KEY_FRAME), false).Complete(false)
  {
    KeyFrameBytes();
    assert A.AllClean(KEY_FRAME) by { assert A.Clean([7, 1]) && A.Clean([8, 1]); }
    KeyFrameWanted();
    A.FramingRoundTrip(KEY_FRAME, false);
  }

  function Sets(): Bytes {
    A.Extract(A.Stream(KEY_FRAME), false).data
  }

  /** The packets of the run: the key frame, and a frame of one byte each. */
  function Frame(n: nat): Q.Packet {
    if n == 0 then Q.Packet(A.Stream(KEY_FRAME), Some(Sets()), 0, true, true, 0)
    else Q.Packet([1], Some(Sets()), n, true, false, n)
  }

  function Capturing(n: nat): Event {
    CaptureVideo(Frame(n).data, n, n == 0, NoFault, 0)
  }

  /** All packets so far have been taken; nothing has gone wrong and no time has passed. */
  ghost predicate Taken(s: Live, ps: seq<Q.Packet>) {
    && s.clock == 0 && !s.stopping && |s.captures| == |ps| && (|ps| > 0 ==> s.extra == Some(Sets()))
    && s.world.queue == Q.State([], 0, |ps| == 0, false, 0, 0) && s.world.history.delivered == [ps]
  }

  lemma {:induction false} CallOf(n: nat, extra: Option<Bytes>)
    requires n > 0 ==> extra == Some(Sets())
    ensures VideoCall(false, false, extra, Frame(n).data, n, n == 0, NoFault, n, 0) ==
              (Some(Sets()), Q.DoPush(Frame(n), 0))
    ensures 0 < |Frame(n).data| <= 10
  {
    KeyFrameIsComplete();
  }

  lemma {:induction false} Pushed(s: Q.State, p: Q.Packet)
    requires s.items == [] && s.bytes == 0 && !s.stopped && 0 < |p.data| <= 10 && p.video && (p.key || !s.waitingKey)
    ensures Q.PushStep(CHANNEL.limits, s, p, 0) ==
              (s.(items := [Q.Item(p, 0)], bytes := |p.data|, waitingKey := false), true)
    ensures Q.PopStep(CHANNEL.limits, s.(items := [Q.Item(p, 0)], bytes := |p.data|, waitingKey := false), 0) ==
              (s.(waitingKey := false), Q.Taken(p, s.generation))
  {
    assert [] + [Q.Item(p, 0)] == [Q.Item(p, 0)] && [Q.Item(p, 0)][1..] == [];
  }

  /** t has s's sessions, connection and network. */
  ghost predicate Alike(s: Live, t: Live) {
    t.connection == s.connection && t.sessions == s.sessions && t.signal == s.signal && t.signals == s.signals
  }

  lemma {:induction false} CapturedOne(s: Live, ps: seq<Q.Packet>)
    requires Taken(s, ps)
    ensures
      var t, q := Step(CHANNEL, s, Capturing(|ps|)), s.world.queue;
      && t == s.(captures := t.captures, extra := Some(Sets()), world := Q.World(t.world.queue, t.world.history))
      && |t.captures| == |ps| + 1 && t.world.history.delivered == [ps]
      && t.world.queue == q.(items := [Q.Item(Frame(|ps|), 0)], bytes := |Frame(|ps|).data|, waitingKey := false)
  {
    CallOf(|ps|, s.extra);
    Pushed(s.world.queue, Frame(|ps|));
  }

  lemma {:induction false} TakenOne(s: Live, ps: seq<Q.Packet>, p: Q.Packet)
    requires s.sender == Idle && s.clock == 0 && s.world.history.delivered == [ps]
    requires s.world.queue == Q.State([Q.Item(p, 0)], |p.data|, false, false, 0, 0)
    ensures
      var t := Step(CHANNEL, s, Take);
      && t == s.(sender := Holding(p, 0), world := Q.World(t.world.queue, t.world.history))
      && t.world.queue == Q.State([], 0, false, false, 0, 0) && t.world.history.delivered == [ps + [p]]
  {
    assert [Q.Item(p, 0)][1..] == [];
    assert Q.AddLast([ps], p) == [ps + [p]];
  }

  lemma {:induction false} CheckedOne(s: Live, p: Q.Packet)
    requires s.sender == Holding(p, 0) && !s.stopping && s.world.queue == Q.State([], 0, false, false, 0, 0)
    ensures Step(CHANNEL, s, Check) == s.(sender := Cleared(p, 0))
  {
  }

  /** A frame is captured, taken and checked. */
  lemma {:induction false} Passes(s: Live, ps: seq<Q.Packet>)
    requires s.sender == Idle && Taken(s, ps)
    ensures
      var t := Exec(CHANNEL, s, [Capturing(|ps|), Take, Check]);
      Taken(t, ps + [Frame(|ps|)]) && t.sender == Cleared(Frame(|ps|), 0) && Alike(s, t)
  {
    var t := Step(CHANNEL, s, Capturing(|ps|));
    Exec3(CHANNEL, s, Capturing(|ps|), Take, Check);
    CapturedOne(s, ps);
    TakenOne(t, ps, Frame(|ps|));
    CheckedOne(Step(CHANNEL, t, Take), Frame(|ps|));
  }

  // ------------------------------------------------------------ up to the open

  const COMING_UP: seq<Event> := [Network(WAKING), Network(UP)]
  const ALLOWING: seq<Event> := [Synchronize, Permit, Proceed]

  /** The network comes up, a key frame is captured, and the connection opens for it. */
  function Opening(): seq<Event> {
    COMING_UP + [Capturing(0), Take, Check] + ALLOWING + [Connect(true)]
  }

  const KNOWING := C.CLOSED.(codecExtra := Sets(), networkGeneration := 1)
  const LIVE := C.CLOSED.(codecExtra := Sets(), networkGeneration := 1, context := true, ready := true)

  /** A session that was opened for the key frame. */
  function Opened(written: seq<Write>, stray: Stray): Session {
    Session(0, 1, 0, Sets(), Frame(0), 0, |written|, written, stray)
  }

  lemma {:induction false} ComesUp()
    ensures
      var s := Exec(CHANNEL, INITIAL, COMING_UP);
      Taken(s, []) && s == INITIAL.(signal := UP, signals := [N.INITIAL, WAKING, UP])
  {
    assert COMING_UP == [Network(WAKING)] + [Network(UP)];
    ExecSnoc(CHANNEL, INITIAL, [Network(WAKING)], Network(UP));
    Exec1(CHANNEL, INITIAL, Network(WAKING));
    assert [N.INITIAL] + [WAKING] == [N.INITIAL, WAKING] && [N.INITIAL, WAKING] + [UP] == [N.INITIAL, WAKING, UP];
  }

  lemma {:induction false} Learns(s: Live)
    requires !s.stopping && s.clock == 0 && s.sender == Cleared(Frame(0), 0)
    requires s.connection == C.CLOSED && s.signal == UP
    ensures Step(CHANNEL, s, Synchronize) == s.(connection := KNOWING, sender := Asked(Frame(0), 0)) && Sets() != []
  {
    KeyFrameIsComplete();
    A.CompleteIsNonEmpty(A.Stream(KEY_FRAME), false);
  }

  lemma {:induction false} Permits(s: Live, p: Q.Packet)
    requires s.sender == Asked(p, 0) && s.signal.ready && |s.signals| > 0
    ensures Step(CHANNEL, s, Permit) == s.(sender := Synced(p, 0, |s.signals| - 1))
  {
  }

  lemma {:induction false} Decides(s: Live)
    requires s.sender == Synced(Frame(0), 0, 2) && s.connection == KNOWING && s.clock == 0 && Sets() != []
    ensures Step(CHANNEL, s, Proceed) == s.(sender := Sender.Opening(Frame(0), 0, 2))
  {
  }

  lemma {:induction false} Allows(s: Live)
    requires Taken(s, [Frame(0)]) && s.sender == Cleared(Frame(0), 0) && s.connection == C.CLOSED
    requires s.signal == UP && s.signals == [N.INITIAL, WAKING, UP]
    ensures Exec(CHANNEL, s, ALLOWING) == s.(connection := KNOWING, sender := Sender.Opening(Frame(0), 0, 2))
  {
    Exec3(CHANNEL, s, Synchronize, Permit, Proceed);
    Learns(s);
    Permits(s.(connection := KNOWING, sender := Asked(Frame(0), 0)), Frame(0));
    Decides(s.(connection := KNOWING, sender := Synced(Frame(0), 0, 2)));
  }

  lemma {:induction false} Connects(s: Live)
    requires Taken(s, [Frame(0)]) && s.sender == Sender.Opening(Frame(0), 0, 2) && s.connection == KNOWING
    requires s.sessions == []
    ensures Exec(CHANNEL, s, [Connect(true)]) ==
              s.(connection := LIVE, sender := Sending(Frame(0), 0, 2), sessions := [Opened([], NoStray)])
  {
    Exec1(CHANNEL, s, Connect(true));
    assert [] + [Opened([], NoStray)] == [Opened([], NoStray)];
  }

  /** The connection is live and the key frame on its way. */
  ghost predicate Live0(s: Live) {
    && Taken(s, [Frame(0)]) && s.sender == Sending(Frame(0), 0, 2) && s.connection == LIVE
    && s.sessions == [Opened([], NoStray)] && s.signal == UP && s.signals == [N.INITIAL, WAKING, UP]
  }

  lemma {:induction false} Opens()
    ensures Live0(Run(CHANNEL, Opening()))
  {
    assert [] + COMING_UP == COMING_UP;
    RunOn(CHANNEL, [], COMING_UP);
    ComesUp();
    RunOn(CHANNEL, COMING_UP, [Capturing(0), Take, Check]);
    Passes(Run(CHANNEL, COMING_UP), []);
    assert [] + [Frame(0)] == [Frame(0)];
    RunOn(CHANNEL, COMING_UP + [Capturing(0), Take, Check], ALLOWING);
    Allows(Run(CHANNEL, COMING_UP + [Capturing(0), Take, Check]));
    RunOn(CHANNEL, COMING_UP + [Capturing(0), Take, Check] + ALLOWING, [Connect(true)]);
    Connects(Run(CHANNEL, COMING_UP + [Capturing(0), Take, Check] + ALLOWING));
  }

  // -------------------------------------------- the last write can come late

  /** The network goes away while the packet is being written. */
  const LATE: seq<Event> := [Network(DOWN), Network(MOVED), Deliver(true, true)]

  lemma {:induction false} Leaves(s: Live)
    requires s.signal == UP && s.signals == [N.INITIAL, WAKING, UP]
    ensures Step(CHANNEL, Step(CHANNEL, s, Network(DOWN)), Network(MOVED)) ==
              s.(signal := MOVED, signals := [N.INITIAL, WAKING, UP, DOWN, MOVED])
  {
    assert [N.INITIAL, WAKING, UP] + [DOWN] == [N.INITIAL, WAKING, UP, DOWN];
    assert [N.INITIAL, WAKING, UP, DOWN] + [MOVED] == [N.INITIAL, WAKING, UP, DOWN, MOVED];
  }

  lemma {:induction false} WritesLate(t: Live)
    requires Taken(t, [Frame(0)]) && t.sender == Sending(Frame(0), 0, 2) && t.connection == LIVE
    requires t.sessions == [Opened([], NoStray)] && t.signals == [N.INITIAL, WAKING, UP, DOWN, MOVED]
    ensures Step(CHANNEL, t, Deliver(true, true)) ==
              t.(sender := Idle, sessions := [Opened([Write(Frame(0), 0, 1, 2, 4)], NoStray)])
  {
    assert [] + [Write(Frame(0), 0, 1, 2, 4)] == [Write(Frame(0), 0, 1, 2, 4)];
  }

  /** The write succeeds after the network has gone away, and is the last of its session. */
  lemma {:induction false} LastWriteCanBeLate()
    ensures
      var s := Run(CHANNEL, Opening() + LATE);
      && CHANNEL.config.networked && |s.sessions| == 1 && |s.sessions[0].written| == 1
      && var w := s.sessions[0].written[0];
      && w.allowed < w.done < |s.signals|
      && s.signals[w.allowed].ready && !s.signals[w.done].ready && s.signals[w.done].generation != w.generation
  {
    var s := Run(CHANNEL, Opening());
    Opens();
    RunOn(CHANNEL, Opening(), LATE);
    Exec3(CHANNEL, s, Network(DOWN), Network(MOVED), Deliver(true, true));
    Leaves(s);
    WritesLate(s.(signal := MOVED, signals := [N.INITIAL, WAKING, UP, DOWN, MOVED]));
  }

  // ----------------------------------------------- a packet can be passed over

  const WRITING: seq<Event> := [Deliver(true, true)]
  const MISSING: seq<Event> := [Synchronize, Network(DOWN), Permit]
  const READING: seq<Event> := [Synchronize, Network(MOVED), Network(UP_AGAIN)]
  const STRAYING: seq<Event> := [Permit, Proceed, Deliver(true, true)]

  /**
   * The key frame is written. The next frame finds the network down and is passed over. For the one after it the old
   * generation is read; then the network moves and is ready again, and the frame is written on the old connection.
   */
  function Torn(): seq<Event> {
    Halfway() + [Capturing(2), Take, Check] + READING + STRAYING
  }

  function Halfway(): seq<Event> {
    Opening() + WRITING + [Capturing(1), Take, Check] + MISSING
  }

  const FIRST := Write(Frame(0), 0, 1, 2, 2)
  const LAST := Write(Frame(2), 0, 1, 5, 5)

  ghost predicate Between(s: Live, n: nat) {
    && Taken(s, Frames(n)) && s.connection == LIVE && s.sessions == [Opened([FIRST], NoStray)]
  }

  function Frames(n: nat): seq<Q.Packet> {
    seq(n, i requires 0 <= i < n => Frame(i))
  }

  lemma {:induction false} WritesFirst(s: Live)
    requires Live0(s)
    ensures
      var t := Exec(CHANNEL, s, WRITING);
      Between(t, 1) && t.sender == Idle && t.signal == UP && t.signals == [N.INITIAL, WAKING, UP]
  {
    Exec1(CHANNEL, s, Deliver(true, true));
    assert Frames(1) == [Frame(0)] && [] + [FIRST] == [FIRST];
  }

  lemma {:induction false} Misses(s: Live)
    requires Between(s, 2) && s.sender == Cleared(Frame(1), 0) && s.signal == UP && s.signals == [N.INITIAL, WAKING, UP]
    ensures
      var t := Exec(CHANNEL, s, MISSING);
      Between(t, 2) && t.sender == Idle && t.signal == DOWN && t.signals == [N.INITIAL, WAKING, UP, DOWN]
  {
    Exec3(CHANNEL, s, Synchronize, Network(DOWN), Permit);
    assert [N.INITIAL, WAKING, UP] + [DOWN] == [N.INITIAL, WAKING, UP, DOWN];
  }

  lemma {:induction false} ReadsOld(s: Live)
    requires Between(s, 3) && s.sender == Cleared(Frame(2), 0)
    requires s.signal == DOWN && s.signals == [N.INITIAL, WAKING, UP, DOWN]
    ensures
      var t := Exec(CHANNEL, s, READING);
      && Between(t, 3) && t.sender == Asked(Frame(2), 0)
      && t.signal == UP_AGAIN && t.signals == [N.INITIAL, WAKING, UP, DOWN, MOVED, UP_AGAIN]
  {
    Exec3(CHANNEL, s, Synchronize, Network(MOVED), Network(UP_AGAIN));
    assert [N.INITIAL, WAKING, UP, DOWN] + [MOVED] == [N.INITIAL, WAKING, UP, DOWN, MOVED];
    assert [N.INITIAL, WAKING, UP, DOWN, MOVED] + [UP_AGAIN] == [N.INITIAL, WAKING, UP, DOWN, MOVED, UP_AGAIN];
  }

  lemma {:induction false} Strays(s: Live)
    requires Between(s, 3) && s.sender == Asked(Frame(2), 0)
    requires s.signal == UP_AGAIN && s.signals == [N.INITIAL, WAKING, UP, DOWN, MOVED, UP_AGAIN]
    ensures
      var t := Exec(CHANNEL, s, STRAYING);
      t.sessions == [Opened([FIRST], Stray(LAST, 2))] && t.world == s.world
  {
    Exec3(CHANNEL, s, Permit, Proceed, Deliver(true, true));
  }

  lemma {:induction false} FramesSnoc(n: nat)
    ensures Frames(n) + [Frame(n)] == Frames(n + 1)
  {
  }

  lemma {:induction false} BetweenPasses(s: Live, n: nat)
    requires Between(s, n) && s.sender == Idle
    ensures
      var t := Exec(CHANNEL, s, [Capturing(n), Take, Check]);
      Between(t, n + 1) && t.sender == Cleared(Frame(n), 0) && t.signal == s.signal && t.signals == s.signals
  {
    Passes(s, Frames(n));
    FramesSnoc(n);
  }

  lemma {:induction false} MissesOne()
    ensures
      var s := Run(CHANNEL, Halfway());
      Between(s, 2) && s.sender == Idle && s.signal == DOWN && s.signals == [N.INITIAL, WAKING, UP, DOWN]
  {
    var es := Opening() + WRITING;
    Opens();
    RunOn(CHANNEL, Opening(), WRITING);
    WritesFirst(Run(CHANNEL, Opening()));
    RunOn(CHANNEL, es, [Capturing(1), Take, Check]);
    BetweenPasses(Run(CHANNEL, es), 1);
    RunOn(CHANNEL, es + [Capturing(1), Take, Check], MISSING);
    Misses(Run(CHANNEL, es + [Capturing(1), Take, Check]));
  }

  lemma {:induction false} WritesAnother()
    ensures
      var s := Run(CHANNEL, Torn());
      s.sessions == [Opened([FIRST], Stray(LAST, 2))] && s.world.history.delivered == [Frames(3)]
  {
    var es := Halfway();
    MissesOne();
    RunOn(CHANNEL, es, [Capturing(2), Take, Check]);
    BetweenPasses(Run(CHANNEL, es), 2);
    RunOn(CHANNEL, es + [Capturing(2), Take, Check], READING);
    ReadsOld(Run(CHANNEL, es + [Capturing(2), Take, Check]));
    RunOn(CHANNEL, es + [Capturing(2), Take, Check] + READING, STRAYING);
    Strays(Run(CHANNEL, es + [Capturing(2), Take, Check] + READING));
  }

  lemma {:induction false} TornReceives()
    ensures G.Received(Opened([FIRST], Stray(LAST, 2))) == [Frame(0), Frame(2)]
  {
    assert PacketsOf([FIRST]) == [Frame(0)];
    assert [Frame(0)] + [Frame(2)] == [Frame(0), Frame(2)];
  }

  /** Two frames of three reach the receiver: reading generation and readiness one after the other tore the session. */
  lemma {:induction false} SessionsCanBeTorn()
    ensures
      var s := Run(CHANNEL, Torn());
      && s.world.history.delivered == [[Frame(0), Frame(1), Frame(2)]]
      && |s.sessions| == 1 && G.Received(s.sessions[0]) == [Frame(0), Frame(2)]
  {
    WritesAnother();
    TornReceives();
    assert Frames(3) == [Frame(0), Frame(1), Frame(2)];
  }
}
