/** The classes of src/publisher/ffmpeg_publisher.cpp around the queue and the connection. */
module PublisherEndpoint {
  import opened Common
  import opened Publisher
  import AnnexB
  import Q = PublisherQueue
  import C = FfmpegConnection

  /** A push that the queue takes. */
  predicate Accepts(l: Q.Limits, s: Q.State, e: Q.Event) {
    e.DoPush? && Q.PushStep(l, s, e.packet, e.now).1
  }

  /** PublisherManager, seen from one media channel. */
  class ChannelFanout {
    const h265: bool
    const queues: seq<Q.Queue>
    var extra: Option<Bytes>
    var serial: nat
    var sounds: nat

    ghost predicate Valid()
      reads this, queues
    {
      && (forall i :: 0 <= i < |queues| ==> queues[i].Valid())
      && (forall i, j :: 0 <= i < j < |queues| ==> queues[i] != queues[j])
    }

    constructor (h265: bool, queues: seq<Q.Queue>)
      requires forall i :: 0 <= i < |queues| ==> queues[i].Valid()
      requires forall i, j :: 0 <= i < j < |queues| ==> queues[i] != queues[j]
      ensures Valid() && extra == None && serial == 0 && sounds == 0 && this.queues == queues && this.h265 == h265
    {
      this.h265, this.queues, extra, serial, sounds := h265, queues, None, 0, 0;
    }

    method DiscardChannel()
      requires Valid()
      modifies queues
      ensures Valid()
      ensures forall i :: 0 <= i < |queues| ==> queues[i].View() == Q.ResetStep(old(queues[i].View()))
    {
      for n := 0 to |queues|
        invariant Valid()
        invariant forall i :: 0 <= i < n ==> queues[i].View() == Q.ResetStep(old(queues[i].View()))
        invariant forall i :: n <= i < |queues| ==> queues[i].View() == old(queues[i].View())
      {
        queues[n].Reset();
      }
    }

    /** One push of the loop: the other queues are not touched. */
    method PushTo(n: nat, packet: Q.Packet, now: int) returns (accepted: bool)
      requires Valid() && n < |queues|
      modifies queues[n]
      ensures Valid()
      ensures (queues[n].View(), accepted) == Q.PushStep(queues[n].limits, old(queues[n].View()), packet, now)
      ensures forall i :: 0 <= i < |queues| && i != n ==> queues[i].View() == old(queues[i].View())
    {
      accepted := queues[n].Push(packet, now);
    }

    /** Every queue of the channel gets the same packet; 0 if all of them took it. */
    method FanOut(packet: Q.Packet, now: int) returns (ret: int)
      requires Valid()
      modifies queues
      ensures Valid()
      ensures forall i :: 0 <= i < |queues| ==>
                queues[i].View() == Q.PushStep(queues[i].limits, old(queues[i].View()), packet, now).0
      ensures ret == if forall i :: 0 <= i < |queues| ==>
          Q.PushStep(queues[i].limits, old(queues[i].View()), packet, now).1 then 0 else -1
    {
      ret := 0;
      for n := 0 to |queues|
        invariant Valid()
        invariant forall i :: 0 <= i < n ==>
            queues[i].View() == Q.PushStep(queues[i].limits, old(queues[i].View()), packet, now).0
        invariant forall i :: n <= i < |queues| ==> queues[i].View() == old(queues[i].View())
        invariant ret == if forall i :: 0 <= i < n ==>
            Q.PushStep(queues[i].limits, old(queues[i].View()), packet, now).1 then 0 else -1
      {
        var accepted := PushTo(n, packet, now);
        if !accepted {
          ret := -1;
        }
      }
    }

    method EnqueueVideo(stopping: bool, data: Bytes, pts: nat, key: bool, fault: Fault, now: int) returns (ret: int)
      requires Valid()
      modifies this, queues
      ensures Valid() && serial == old(serial) + 1
      ensures
        var call := VideoCall(h265, stopping, old(extra), data, pts, key, fault, old(serial), now);
        && extra == call.0
        && (forall i :: 0 <= i < |queues| ==>
            queues[i].View() == Q.After(queues[i].limits, old(queues[i].View()), call.1))
        && (ret == 0 <==> call.1.DoPush? && forall i :: 0 <= i < |queues| ==>
            Accepts(queues[i].limits, old(queues[i].View()), call.1))
    {
      var number := serial;
      serial := serial + 1;
      if stopping || |data| == 0 || |data| > MAX_FRAME || fault == BeforeAnalysis {
        DiscardChannel();
        return -1;
      }
      if key {
        var sets := AnnexB.ExtractParameterSets(data, h265);
        if sets.Complete(h265) && extra != Some(sets.data) {
          extra := Some(sets.data);
        }
      }
      if fault == AfterAnalysis {
        DiscardChannel();
        return -1;
      }
      ret := FanOut(Q.Packet(data, extra, pts, true, key, number), now);
    }

    /** Audio goes the same way, without parameter sets; what is refused outright leaves the queues alone. */
    method EnqueueAudio(stopping: bool, data: Bytes, pts: nat, lost: bool, now: int) returns (ret: int)
      requires Valid()
      modifies this`sounds, queues
      ensures Valid() && sounds == old(sounds) + 1
      ensures
        match AudioCall(stopping, data, pts, lost, old(sounds), now)
        case None => ret == -1 && forall i :: 0 <= i < |queues| ==> queues[i].View() == old(queues[i].View())
        case Some(e) =>
          && (forall i :: 0 <= i < |queues| ==> queues[i].View() == Q.After(queues[i].limits, old(queues[i].View()), e))
          && (ret == 0 <==> e.DoPush? && forall i :: 0 <= i < |queues| ==>
              Accepts(queues[i].limits, old(queues[i].View()), e))
    {
      var number := sounds;
      sounds := sounds + 1;
      if stopping || |data| == 0 || |data| > MAX_FRAME {
        return -1;
      }
      if lost {
        DiscardChannel();
        return -1;
      }
      ret := FanOut(Q.Packet(data, None, pts, false, false, number), now);
    }
  }

  /** One endpoint: its queue, its connection, and where its sending thread stands in the loop. */
  class Endpoint {
    const queue: Q.Queue
    const connection: C.Connection
    var sender: Sender

    ghost predicate Valid()
      reads this, queue
    {
      queue.Valid()
    }

    constructor (config: C.Config)
      ensures Valid() && fresh(queue) && fresh(connection) && connection.config == config
      ensures queue.View() == Q.EMPTY && connection.View() == C.CLOSED && sender == Idle
      ensures queue.limits == Q.Limits(2 * 1024 * 1024, 128, 1000)
    {
      queue := new Q.Queue();
      connection := new C.Connection(config);
      sender := Idle;
    }

    /** The top of the loop: wait for a packet, or leave. */
    method Take(now: int)
      requires Valid() && sender.Idle?
      modifies this, queue
      ensures Valid() && queue.View() == Q.PopStep(queue.limits, old(queue.View()), now).0
      ensures sender == match Q.PopStep(queue.limits, old(queue.View()), now).1
                        case Taken(p, g) => Holding(p, g)
                        case Closed => Gone
                        case _ => Idle
    {
      var result := queue.Pop(now);
      match result
      case Taken(p, g) => sender := Holding(p, g);
      case Closed => sender := Gone;
      case _ =>
    }

    method Check(stopping: bool)
      requires Valid() && sender.Holding?
      modifies this
      ensures sender == if stopping || Q.Cancelled(queue.View(), old(sender.epoch)) then Idle
                        else Cleared(old(sender.packet), old(sender.epoch))
    {
      if stopping || queue.stopped || queue.generation != sender.epoch {
        sender := Idle;
      } else {
        sender := Cleared(sender.packet, sender.epoch);
      }
    }

    /** The loop body; `signal` and `fate` are what it meets on its way, which LoopBodyInSteps splits into steps. */
    method Deliver(stopping: bool, signal: C.Signal, fate: C.Fate)
      requires Valid() && sender.Cleared?
      modifies this, connection
      ensures
        var (c, failed) := Send(connection.config, old(connection.View()), old(sender.packet), old(sender.epoch),
            stopping, signal, fate);
        connection.View() == c && sender == if failed then Failing else Idle
    {
      var p := sender.packet;
      connection.SynchronizeQueueEpoch(sender.epoch, p.extra);
      var failed;
      if p.video {
        failed := connection.SendVideo(stopping, signal, p.data, p.pts, p.key, fate);
      } else {
        failed := connection.SendAudio(stopping, signal, p.pts, fate);
      }
      sender := if failed then Failing else Idle;
    }

    /** A failure throws the backlog away, so that the next connection starts at a key frame. */
    method Recover()
      requires Valid() && sender.Failing?
      modifies this, queue
      ensures Valid() && queue.View() == Q.ResetStep(old(queue.View())) && sender == Idle
    {
      queue.Reset();
      sender := Idle;
    }
  }
}
