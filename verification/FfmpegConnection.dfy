/**
 * The connection of one endpoint, class FfmpegConnection in src/publisher/ffmpeg_publisher.cpp.
 * FFmpeg itself is a `Fate`: which of its calls fail, and how long they take.
 */
module FfmpegConnection {
  import opened Common
  import AnnexB

  datatype Config = Config(h265: bool, audio: bool, networked: bool)

  /** What the sender reads of NetworkRoute: the generation and, a moment later, whether it is ready. */
  datatype Signal = Signal(generation: nat, ready: bool)

  datatype State = State(
    context: bool, ready: bool, audioTrack: bool, queueEpoch: nat, networkGeneration: nat,
    originUs: nat, codecExtra: Bytes, retryAfter: nat)

  const CLOSED := State(false, false, false, 0, 0, 0, [], 0)

  const BACKOFF_MS := 3000

  /** Which of the calls of one `write_video` or `write_audio` succeed, and when the clock is read. */
  datatype Fate = Fate(
    opens: bool, allocates: bool, writes: bool, syncAt: nat, openAt: nat, openedAt: nat, writtenAt: nat)

  function Close(c: State): State {
    if c.context then c.(context := false, audioTrack := false, ready := false) else c
  }

  function SyncEpoch(c: State, epoch: nat, extra: Option<Bytes>): State {
    var d := if c.queueEpoch != epoch then Close(c).(queueEpoch := epoch) else c;
    if extra.Some? && extra.value != [] then d.(codecExtra := extra.value) else d
  }

  function Cache(cfg: Config, c: State, data: Bytes, key: bool): State {
    var current := AnnexB.Extract(data, cfg.h265);
    if key && current.Complete(cfg.h265) then c.(codecExtra := current.data) else c
  }

  /** Under a new network generation the old connection is closed, and one that was live is not reopened at once. */
  function Follow(c: State, generation: nat, now: nat): State {
    if generation == c.networkGeneration then c
    else
      var d := Close(c).(networkGeneration := generation);
      if c.context then d.(retryAfter := now + BACKOFF_MS) else d
  }

  /** The state, and whether sending is allowed. */
  function SyncRoute(cfg: Config, c: State, stopping: bool, signal: Signal, now: nat): (State, bool) {
    if stopping then (c, false)
    else if !cfg.networked then (c, true)
    else (Follow(c, signal.generation, now), signal.ready)
  }

  /** What is next for a packet once sending is allowed. */
  datatype Verdict = Skip | Connect | Deliver

  function VideoVerdict(c: State, key: bool, now: nat): Verdict {
    if c.ready then Deliver
    else if !key || c.codecExtra == [] || now < c.retryAfter then Skip
    else Connect
  }

  function AudioVerdict(c: State, pts: nat): Verdict {
    if !c.ready || !c.audioTrack || pts < c.originUs then Skip else Deliver
  }

  function Open(cfg: Config, c: State, pts: nat, opens: bool): State {
    var d := Close(c);
    if opens then d.(context := true, audioTrack := cfg.audio, originUs := pts, ready := true) else d
  }

  /** An open and, if it failed, the delay before the next. */
  function Connected(cfg: Config, c: State, pts: nat, opens: bool, now: nat): State {
    var d := Open(cfg, c, pts, opens);
    if opens then d else d.(retryAfter := now + BACKOFF_MS)
  }

  /** The state, and whether the write is reported as failed. */
  function WritePacket(c: State, allocates: bool, writes: bool, now: nat): (State, bool) {
    if !allocates then (c, true)
    else if !writes then (Close(c).(retryAfter := now + BACKOFF_MS), true)
    else (c, false)
  }

  function WriteVideo(cfg: Config, c: State, stopping: bool, signal: Signal, data: Bytes, pts: nat, key: bool,
      fate: Fate): (State, bool) {
    var (d, up) := SyncRoute(cfg, Cache(cfg, c, data, key), stopping, signal, fate.syncAt);
    if !up then (d, false)
    else
      match VideoVerdict(d, key, fate.openAt)
      case Skip => (d, false)
      case Deliver => WritePacket(d, fate.allocates, fate.writes, fate.writtenAt)
      case Connect =>
        var e := Connected(cfg, d, pts, fate.opens, fate.openedAt);
        if fate.opens then WritePacket(e, fate.allocates, fate.writes, fate.writtenAt) else (e, true)
  }

  function WriteAudio(cfg: Config, c: State, stopping: bool, signal: Signal, pts: nat, fate: Fate): (State, bool) {
    var (d, up) := SyncRoute(cfg, c, stopping, signal, fate.syncAt);
    if !up || AudioVerdict(d, pts) == Skip then (d, false)
    else WritePacket(d, fate.allocates, fate.writes, fate.writtenAt)
  }

  // -------------------------------------------------- what a send depends on

  predicate Allowed(cfg: Config, stopping: bool, signal: Signal) {
    !stopping && (cfg.networked ==> signal.ready)
  }

  /** The network has a new generation for a connection that is open. */
  predicate Outdated(cfg: Config, c: State, signal: Signal) {
    cfg.networked && c.context && signal.generation != c.networkGeneration
  }

  predicate Survives(cfg: Config, c: State, signal: Signal) {
    c.ready && !Outdated(cfg, c, signal)
  }

  /** From when on a connection that is not live may be opened. */
  function Reopens(cfg: Config, c: State, signal: Signal, now: nat): nat {
    if Outdated(cfg, c, signal) then now + 3000 else c.retryAfter
  }

  // ------------------------------------------------- the class of the source

  class Connection {
    const config: Config
    var context: bool
    var ready: bool
    var audioTrack: bool
    var queueEpoch: nat
    var networkGeneration: nat
    var originUs: nat
    var codecExtra: Bytes
    var retryAfter: nat

    ghost function View(): State
      reads this
    {
      State(context, ready, audioTrack, queueEpoch, networkGeneration, originUs, codecExtra, retryAfter)
    }

    constructor (config: Config)
      ensures View() == CLOSED && this.config == config
    {
      this.config := config;
      context, ready, audioTrack := false, false, false;
      queueEpoch, networkGeneration, originUs, codecExtra, retryAfter := 0, 0, 0, [], 0;
    }

    method CloseContext()
      modifies this
      ensures View() == Close(old(View()))
    {
      if !context {
        return;
      }
      context, audioTrack, ready := false, false, false;
    }

    method SynchronizeQueueEpoch(epoch: nat, extra: Option<Bytes>)
      modifies this
      ensures View() == SyncEpoch(old(View()), epoch, extra)
    {
      if queueEpoch != epoch {
        CloseContext();
        queueEpoch := epoch;
      }
      if extra.Some? && extra.value != [] && codecExtra != extra.value {
        codecExtra := extra.value;
      }
    }

    method SynchronizeNetworkRoute(stopping: bool, signal: Signal, now: nat) returns (up: bool)
      modifies this
      ensures (View(), up) == SyncRoute(config, old(View()), stopping, signal, now)
    {
      if stopping {
        return false;
      }
      if !config.networked {
        return true;
      }
      if signal.generation != networkGeneration {
        var hadConnection := context;
        CloseContext();
        networkGeneration := signal.generation;
        if hadConnection {
          retryAfter := now + BACKOFF_MS;
        }
      }
      return signal.ready;
    }

    method OpenOutput(pts: nat, opens: bool) returns (ok: bool)
      modifies this
      ensures View() == Open(config, old(View()), pts, opens) && ok == opens
    {
      CloseContext();
      if !opens {
        return false;
      }
      context, audioTrack := true, config.audio;
      originUs := pts;
      ready := true;
      return true;
    }

    method WritePacketTo(allocates: bool, writes: bool, now: nat) returns (failed: bool)
      modifies this
      ensures (View(), failed) == WritePacket(old(View()), allocates, writes, now)
    {
      if !allocates {
        return true;
      }
      if !writes {
        CloseContext();
        retryAfter := now + BACKOFF_MS;
        return true;
      }
      return false;
    }

    /** The head of `write_video`: a key frame with complete parameter sets replaces the cached ones. */
    method CacheSets(data: Bytes, key: bool)
      modifies this
      ensures View() == Cache(config, old(View()), data, key)
    {
      if key {
        var current := AnnexB.ExtractParameterSets(data, config.h265);
        if current.Complete(config.h265) && current.data != codecExtra {
          codecExtra := current.data;
        }
      }
    }

    method SendVideo(stopping: bool, signal: Signal, data: Bytes, pts: nat, key: bool, fate: Fate)
        returns (failed: bool)
      modifies this
      ensures (View(), failed) == WriteVideo(config, old(View()), stopping, signal, data, pts, key, fate)
      ensures fate.opens && !fate.allocates ==> // then `failed` tells that the write was reached
                (failed <==>
                 && Allowed(config, stopping, signal)
                 && (Survives(config, old(View()), signal)
                     || (key && fate.openAt >= Reopens(config, old(View()), signal, fate.syncAt)
                         && (old(codecExtra) != [] || AnnexB.Extract(data, config.h265).Complete(config.h265)))))
    {
      AnnexB.CompleteIsNonEmpty(data, config.h265);
      CacheSets(data, key);
      var up := SynchronizeNetworkRoute(stopping, signal, fate.syncAt);
      if !up {
        return false;
      }
      if !ready {
        if !key || codecExtra == [] || fate.openAt < retryAfter {
          return false;
        }
        var ok := OpenOutput(pts, fate.opens);
        if !ok {
          retryAfter := fate.openedAt + BACKOFF_MS;
          return true;
        }
      }
      failed := WritePacketTo(fate.allocates, fate.writes, fate.writtenAt);
    }

    method SendAudio(stopping: bool, signal: Signal, pts: nat, fate: Fate) returns (failed: bool)
      modifies this
      ensures (View(), failed) == WriteAudio(config, old(View()), stopping, signal, pts, fate)
      ensures !fate.allocates ==>
                (failed <==>
                 && Allowed(config, stopping, signal) && Survives(config, old(View()), signal)
                 && old(audioTrack) && pts >= old(originUs))
    {
      var up := SynchronizeNetworkRoute(stopping, signal, fate.syncAt);
      if !up || !ready || !audioTrack || pts < originUs {
        return false;
      }
      failed := WritePacketTo(fate.allocates, fate.writes, fate.writtenAt);
    }
  }
}
