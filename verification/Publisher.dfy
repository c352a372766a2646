/**
 * One endpoint of the publisher as a machine: capture calls, the sending thread, the network and the clock
 * take turns in any order. src/publisher/ffmpeg_publisher.cpp, classes PublisherManager and PublisherEndpoint.
 */
module Publisher {
  import opened Common
  import AnnexB
  import Q = PublisherQueue
  import C = FfmpegConnection
  import N = RouteSignal

  const MAX_FRAME := 2 * 1024 * 1024

  datatype Channel = Channel(config: C.Config, limits: Q.Limits)

  /**
   * A packet in the sender's hand, from `pop` to the end of the loop body: taken, checked, under a network generation
   * that was read, allowed (the network was seen ready as entry `instant` of its log), waiting for an open, or being
   * written.
   */
  datatype Sender =
    | Idle
    | Holding(packet: Q.Packet, epoch: nat)
    | Cleared(packet: Q.Packet, epoch: nat)
    | Asked(packet: Q.Packet, epoch: nat)
    | Synced(packet: Q.Packet, epoch: nat, instant: nat)
    | Opening(packet: Q.Packet, epoch: nat, instant: nat)
    | Sending(packet: Q.Packet, epoch: nat, instant: nat)
    | Failing
    | Gone
  {
    predicate Busy() {
      Holding? || Cleared? || Asked? || Allowed()
    }

    predicate Has(g: nat) {
      Busy() && epoch == g
    }

    predicate Allowed() {
      Synced? || Opening? || Sending?
    }
  }

  /** One call of capture for a video frame; `analysed` if its parameter sets were looked for. */
  datatype Capture = Capture(data: Bytes, pts: nat, key: bool, analysed: bool)

  /** One call of capture for a piece of audio. */
  datatype Sound = Sound(data: Bytes, pts: nat)

  /**
   * A packet written, with the queue generation it was popped under, the network generation read for it, and the
   * entries of the log of network signals that were current when it was allowed and when its write succeeded.
   */
  datatype Write = Write(packet: Q.Packet, epoch: nat, generation: nat, allowed: nat, done: nat)

  /** A packet that was allowed by a later generation than the one read for it; packet `at` of its epoch. */
  datatype Stray = NoStray | Stray(write: Write, at: nat)

  /**
   * From a successful open to the next close. `opener` is the packet it was opened for, number `first` of its
   * epoch; the packets numbered first..next are those up to the last one written; a stray one may come after them.
   */
  datatype Session = Session(
    epoch: nat, generation: nat, origin: nat, extradata: Bytes,
    opener: Q.Packet, first: nat, next: nat, written: seq<Write>, stray: Stray)

  /** A packet, number `at` of its epoch, that was turned away because the network was not ready at `instant`. */
  datatype Refusal = Refusal(packet: Q.Packet, epoch: nat, at: nat, instant: nat)

  datatype System = System(
    clock: nat, stopping: bool, extra: Option<Bytes>, world: Q.World, connection: C.State, sender: Sender,
    signal: N.Signal, signals: seq<N.Signal>, captures: seq<Capture>, sounds: seq<Sound>,
    sessions: seq<Session>, refusals: seq<Refusal>)

  type Live = s: System | s.world.history.accepted != [] && s.world.history.delivered != [] && s.signals != []
    witness INITIAL

  const INITIAL := System(0, false, None, Q.START, C.CLOSED, Idle, N.INITIAL, [N.INITIAL], [], [], [], [])

  /** Where an allocation can fail while a frame is fanned out. */
  datatype Fault = NoFault | BeforeAnalysis | AfterAnalysis

  /** A packet is stamped before the queue is locked, so stamps may come out of order. */
  datatype Event =
    | CaptureVideo(data: Bytes, pts: nat, key: bool, fault: Fault, stamp: nat)
    | CaptureAudio(data: Bytes, pts: nat, lost: bool, stamp: nat)
    | DiscardChannel
    | Take
    | Check
    | Synchronize
    | Permit
    | Proceed
    | Connect(opens: bool)
    | Deliver(allocates: bool, writes: bool)
    | Throw(cached: bool)
    | Recover
    | Interrupt
    | StopQueue
    | Network(to: N.Signal)
    | Tick(ms: nat)

  // -------------------------------------------------------------- the steps

  function QueueDo(ch: Channel, s: Live, e: Q.Event): Live {
    s.(world := Q.Do(ch.limits, s.world, e))
  }

  /** One call of enqueue_video: the parameter sets known after it, and what it does to each queue of the channel. */
  function VideoCall(h265: bool, stopping: bool, extra: Option<Bytes>, data: Bytes, pts: nat, key: bool, fault: Fault,
                     serial: nat, now: int): (Option<Bytes>, Q.Event)
  {
    if stopping || data == [] || |data| > MAX_FRAME || fault == BeforeAnalysis then (extra, Q.DoReset)
    else
      var sets := AnnexB.Extract(data, h265);
      var known := if key && sets.Complete(h265) then Some(sets.data) else extra;
      (known,
       if fault == AfterAnalysis then Q.DoReset else Q.DoPush(Q.Packet(data, known, pts, true, key, serial), now))
  }

  predicate Analysed(stopping: bool, data: Bytes, key: bool, fault: Fault) {
    !(stopping || data == [] || |data| > MAX_FRAME || fault == BeforeAnalysis) && key
  }

  function EnqueueVideo(ch: Channel, s: Live, data: Bytes, pts: nat, key: bool, fault: Fault, stamp: nat): Live {
    var (extra, e) := VideoCall(ch.config.h265, s.stopping, s.extra, data, pts, key, fault, |s.captures|, stamp);
    var capture := Capture(data, pts, key, Analysed(s.stopping, data, key, fault));
    QueueDo(ch, s.(captures := s.captures + [capture], extra := extra), e)
  }

  /** One call of enqueue_audio: bad audio is only left out, audio that cannot be copied ends the group. */
  function AudioCall(stopping: bool, data: Bytes, pts: nat, lost: bool, serial: nat, now: int): Option<Q.Event> {
    if stopping || data == [] || |data| > MAX_FRAME then None
    else if lost then Some(Q.DoReset)
    else Some(Q.DoPush(Q.Packet(data, None, pts, false, false, serial), now))
  }

  function EnqueueAudio(ch: Channel, s: Live, data: Bytes, pts: nat, lost: bool, stamp: nat): Live {
    var t := s.(sounds := s.sounds + [Sound(data, pts)]);
    match AudioCall(s.stopping, data, pts, lost, |s.sounds|, stamp)
    case None => t
    case Some(e) => QueueDo(ch, t, e)
  }

  function TakePacket(ch: Channel, s: Live): Live {
    var result := Q.PopStep(ch.limits, s.world.queue, s.clock).1;
    var t := QueueDo(ch, s, Q.DoPop(s.clock));
    match result
    case Taken(p, g) => t.(sender := Holding(p, g))
    case Closed => t.(sender := Gone)
    case _ => t
  }

  function CheckPacket(s: Live): Live
    requires s.sender.Holding?
  {
    if s.stopping || Q.Cancelled(s.world.queue, s.sender.epoch) then s.(sender := Idle)
    else s.(sender := Cleared(s.sender.packet, s.sender.epoch))
  }

  /** The connection once it knows the packet: its epoch and its parameter sets. */
  function Told(cfg: C.Config, c: C.State, p: Q.Packet, epoch: nat): C.State {
    var d := C.SyncEpoch(c, epoch, p.extra);
    if p.video then C.Cache(cfg, d, p.data, p.key) else d
  }

  function SyncPacket(ch: Channel, s: Live): Live
    requires s.sender.Cleared?
  {
    var p, epoch := s.sender.packet, s.sender.epoch;
    var c := Told(ch.config, s.connection, p, epoch);
    if s.stopping then s.(connection := c, sender := Idle)
    else s.(connection := if ch.config.networked then C.Follow(c, s.signal.generation, s.clock) else c,
            sender := Asked(p, epoch))
  }

  /** How many packets of the epoch were delivered before the one in hand. */
  function Before(s: Live, epoch: nat): nat {
    var n := if epoch < |s.world.history.delivered| then |s.world.history.delivered[epoch]| else 0;
    if n > 0 then n - 1 else 0
  }

  function PermitPacket(ch: Channel, s: Live): Live
    requires s.sender.Asked?
  {
    if ch.config.networked && !s.signal.ready then
      var p, epoch := s.sender.packet, s.sender.epoch;
      s.(sender := Idle, refusals := s.refusals + [Refusal(p, epoch, Before(s, epoch), |s.signals| - 1)])
    else s.(sender := Synced(s.sender.packet, s.sender.epoch, |s.signals| - 1))
  }

  function VerdictOn(c: C.State, p: Q.Packet, now: nat): C.Verdict {
    if p.video then C.VideoVerdict(c, p.key, now) else C.AudioVerdict(c, p.pts)
  }

  function ProceedPacket(s: Live): Live
    requires s.sender.Synced?
  {
    var p, epoch, instant := s.sender.packet, s.sender.epoch, s.sender.instant;
    match VerdictOn(s.connection, p, s.clock)
    case Skip => s.(sender := Idle)
    case Deliver => s.(sender := Sending(p, epoch, instant))
    case Connect => s.(connection := C.Close(s.connection), sender := Opening(p, epoch, instant))
  }

  function ConnectPacket(ch: Channel, s: Live, opens: bool): Live
    requires s.sender.Opening?
  {
    var p, epoch, n := s.sender.packet, s.sender.epoch, Before(s, s.sender.epoch);
    var c := C.Connected(ch.config, s.connection, p.pts, opens, s.clock);
    if opens then
      s.(connection := c, sender := Sending(p, epoch, s.sender.instant),
         sessions := s.sessions + [Session(epoch, c.networkGeneration, c.originUs, c.codecExtra, p, n, n, [], NoStray)])
    else s.(connection := c, sender := Failing)
  }

  /** The generation that allowed the packet in hand is the one read for it. */
  predicate Fresh(ch: Channel, s: Live) {
    s.sender.Allowed() && ch.config.networked ==>
      s.sender.instant < |s.signals| && s.signals[s.sender.instant].generation == s.connection.networkGeneration
  }

  /** The last session with one more packet written, packet `at` of its epoch. */
  function Extended(sessions: seq<Session>, write: Write, at: nat, regular: bool): seq<Session> {
    if sessions == [] then []
    else
      var last := sessions[|sessions|-1];
      sessions[..|sessions|-1] +
        [if regular then last.(next := at + 1, written := last.written + [write]) else last.(stray := Stray(write, at))]
  }

  function DeliverPacket(ch: Channel, s: Live, allocates: bool, writes: bool): Live
    requires s.sender.Sending?
  {
    var p, epoch := s.sender.packet, s.sender.epoch;
    var (c, failed) := C.WritePacket(s.connection, allocates, writes, s.clock);
    var write := Write(p, epoch, s.connection.networkGeneration, s.sender.instant, |s.signals| - 1);
    s.(connection := c,
       sender := if failed then Failing else Idle,
       sessions :=
         if allocates && writes then Extended(s.sessions, write, Before(s, epoch), Fresh(ch, s)) else s.sessions)
  }

  /** An exception before the packet is looked at, with its parameter sets copied or not, or at a later point. */
  function ThrowPacket(s: Live, cached: bool): Live
    requires s.sender.Cleared? || s.sender.Synced? || s.sender.Sending?
  {
    if s.sender.Cleared? then
      var extra := if cached then s.sender.packet.extra else None;
      s.(connection := C.SyncEpoch(s.connection, s.sender.epoch, extra), sender := Failing)
    else s.(sender := Failing)
  }

  /** The whole loop body on a connection nobody else touches; `fate` holds what it meets on its way. */
  function Send(cfg: C.Config, c: C.State, p: Q.Packet, epoch: nat, stopping: bool, signal: C.Signal, fate: C.Fate)
    : (C.State, bool)
  {
    var d := C.SyncEpoch(c, epoch, p.extra);
    if p.video then C.WriteVideo(cfg, d, stopping, signal, p.data, p.pts, p.key, fate)
    else C.WriteAudio(cfg, d, stopping, signal, p.pts, fate)
  }

  /** An event that cannot happen in the state changes nothing. */
  function Step(ch: Channel, s: Live, e: Event): Live {
    match e
    case CaptureVideo(data, pts, key, fault, stamp) => EnqueueVideo(ch, s, data, pts, key, fault, stamp)
    case CaptureAudio(data, pts, lost, stamp) => EnqueueAudio(ch, s, data, pts, lost, stamp)
    case DiscardChannel => QueueDo(ch, s, Q.DoReset)
    case Take => if s.sender.Idle? then TakePacket(ch, s) else s
    case Check => if s.sender.Holding? then CheckPacket(s) else s
    case Synchronize => if s.sender.Cleared? then SyncPacket(ch, s) else s
    case Permit => if s.sender.Asked? then PermitPacket(ch, s) else s
    case Proceed => if s.sender.Synced? then ProceedPacket(s) else s
    case Connect(opens) => if s.sender.Opening? then ConnectPacket(ch, s, opens) else s
    case Deliver(allocates, writes) => if s.sender.Sending? then DeliverPacket(ch, s, allocates, writes) else s
    case Throw(cached) =>
      if s.sender.Cleared? || s.sender.Synced? || s.sender.Sending? then ThrowPacket(s, cached) else s
    case Recover => if s.sender.Failing? then QueueDo(ch, s, Q.DoReset).(sender := Idle) else s
    case Interrupt => s.(stopping := true)
    case StopQueue => QueueDo(ch, s, Q.DoStop)
    case Network(to) => if N.Moves(s.signal, to) then s.(signal := to, signals := s.signals + [to]) else s
    case Tick(ms) => s.(clock := s.clock + ms)
  }

  function Run(ch: Channel, es: seq<Event>): Live
    decreases |es|
  {
    if es == [] then INITIAL else Step(ch, Run(ch, es[..|es|-1]), es[|es|-1])
  }

  lemma {:induction false} RunSnoc(ch: Channel, es: seq<Event>, e: Event)
    ensures Run(ch, es + [e]) == Step(ch, Run(ch, es), e)
  {
    assert (es + [e])[..|es|] == es;
  }

  // ------------------------------------------------------------- running on

  function Exec(ch: Channel, s: Live, es: seq<Event>): Live
    decreases |es|
  {
    if es == [] then s else Step(ch, Exec(ch, s, es[..|es|-1]), es[|es|-1])
  }

  lemma {:induction false} RunOn(ch: Channel, es: seq<Event>, more: seq<Event>)
    ensures Run(ch, es + more) == Exec(ch, Run(ch, es), more)
    decreases |more|
  {
    if |more| == 0 {
      assert es + more == es;
    } else {
      var front, last := more[..|more|-1], more[|more|-1];
      assert es + more == es + front + [last];
      RunOn(ch, es, front);
      RunSnoc(ch, es + front, last);
    }
  }

  lemma {:induction false} ExecSnoc(ch: Channel, s: Live, es: seq<Event>, e: Event)
    ensures Exec(ch, s, es + [e]) == Step(ch, Exec(ch, s, es), e)
  {
    assert (es + [e])[..|es|] == es;
  }
}
