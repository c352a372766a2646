/** What capture hands to the queue, and that audio packets are what was captured. */
module PublisherCaptures {
  import opened Common
  import opened Publisher
  import opened PublisherSafety
  import opened PublisherSessions
  import opened PublisherFrames
  import Q = PublisherQueue

  /**
   * A video frame of one byte to two megabytes is offered to the queue as it is, with the parameter sets known then;
   * anything else, an allocation that fails, or a stop under way ends the group.
   */
  lemma {:induction false} VideoIsOffered(
    ch: Channel, es: seq<Event>, data: Bytes, pts: nat, key: bool, fault: Fault, stamp: nat)
    ensures
      var s, t := Run(ch, es), Run(ch, es + [CaptureVideo(data, pts, key, fault, stamp)]);
      var good := !s.stopping && 1 <= |data| <= 2097152;
      && t.captures == s.captures + [Capture(data, pts, key, good && fault != BeforeAnalysis && key)]
      && (good && fault == NoFault && !s.world.queue.stopped ==>
            t.world.history.calls == s.world.history.calls +
              [Q.Offer(Q.Packet(data, LatestSets(t.captures, ch.config.h265), pts, true, key, |s.captures|))])
      && (!(good && fault == NoFault) ==> t.world.history.calls == s.world.history.calls + [Q.Discard])
  {
    var e := CaptureVideo(data, pts, key, fault, stamp);
    RunSnoc(ch, es, e);
    RunNumbers(ch, es + [e]);
    VideoIsCalled(ch, Run(ch, es), data, pts, key, fault, stamp);
  }

  lemma {:induction false} VideoIsCalled(
    ch: Channel, s: Live, data: Bytes, pts: nat, key: bool, fault: Fault, stamp: nat)
    ensures
      var t := EnqueueVideo(ch, s, data, pts, key, fault, stamp);
      var good := !s.stopping && 1 <= |data| <= 2097152;
      && t.captures == s.captures + [Capture(data, pts, key, good && fault != BeforeAnalysis && key)]
      && (good && fault == NoFault && !s.world.queue.stopped ==>
            t.world.history.calls ==
              s.world.history.calls + [Q.Offer(Q.Packet(data, t.extra, pts, true, key, |s.captures|))])
      && (!(good && fault == NoFault) ==> t.world.history.calls == s.world.history.calls + [Q.Discard])
  {
  }

  /** Audio of the same sizes is offered as it is; audio of other sizes is passed over. */
  lemma {:induction false} AudioIsOffered(ch: Channel, es: seq<Event>, data: Bytes, pts: nat, lost: bool, stamp: nat)
    ensures
      var s, t := Run(ch, es), Run(ch, es + [CaptureAudio(data, pts, lost, stamp)]);
      var good := !s.stopping && 1 <= |data| <= 2097152;
      && t.sounds == s.sounds + [Sound(data, pts)]
      && (good && !lost && !s.world.queue.stopped ==>
            t.world.history.calls == s.world.history.calls +
              [Q.Offer(Q.Packet(data, None, pts, false, false, |s.sounds|))])
      && (good && lost ==> t.world.history.calls == s.world.history.calls + [Q.Discard])
      && (!good ==> t.world == s.world)
  {
    RunSnoc(ch, es, CaptureAudio(data, pts, lost, stamp));
  }

  /** Discarding the channel ends the group: the backlog is gone, and a key frame is awaited. */
  lemma {:induction false} DiscardEndsGroup(ch: Channel, es: seq<Event>)
    ensures
      var s, t := Run(ch, es), Run(ch, es + [DiscardChannel]);
      && t.world.history.calls == s.world.history.calls + [Q.Discard]
      && t.world.queue.generation == s.world.queue.generation + 1
      && t.world.queue.items == [] && t.world.queue.waitingKey
  {
    RunSnoc(ch, es, DiscardChannel);
  }

  // ------------------------------------------------------------------- audio

  /** An audio packet is one of the pieces captured. */
  ghost predicate Heard(sounds: seq<Sound>, p: Q.Packet) {
    !p.video ==> p.serial < |sounds| && sounds[p.serial] == Sound(p.data, p.pts)
  }

  ghost predicate AllHeard(sounds: seq<Sound>, lists: seq<seq<Q.Packet>>) {
    forall g, i :: 0 <= g < |lists| && 0 <= i < |lists[g]| ==> Heard(sounds, lists[g][i])
  }

  lemma {:induction false} HeardLater(sounds: seq<Sound>, x: Sound, lists: seq<seq<Q.Packet>>)
    requires AllHeard(sounds, lists)
    ensures AllHeard(sounds + [x], lists)
  {
    forall g, i | 0 <= g < |lists| && 0 <= i < |lists[g]| ensures Heard(sounds + [x], lists[g][i]) {
      assert Heard(sounds, lists[g][i]);
    }
  }

  lemma {:induction false} HeardPush(
    sounds: seq<Sound>, was: seq<seq<Q.Packet>>, now: seq<seq<Q.Packet>>, p: Q.Packet)
    requires AllHeard(sounds, was) && Heard(sounds, p) && was != [] && Q.GroupsAfterPush(was, now, p)
    ensures AllHeard(sounds, now)
  {
    forall g, i | 0 <= g < |now| && 0 <= i < |now[g]| ensures Heard(sounds, now[g][i]) {
      if g < |was| && i < |was[g]| { assert Heard(sounds, was[g][i]); }
    }
  }

  lemma {:induction false} DoHeard(l: Q.Limits, w: Q.World, e: Q.Event, sounds: seq<Sound>)
    requires Q.Sound(l, w) && AllHeard(sounds, w.history.accepted) && (e.DoPush? ==> Heard(sounds, e.packet))
    ensures AllHeard(sounds, Q.Do(l, w, e).history.accepted)
  {
    if e.DoPush? {
      Q.PushGroups(l, w, e.packet, e.now);
      if !w.queue.stopped && e.packet.data != [] {
        HeardPush(sounds, w.history.accepted, Q.Do(l, w, e).history.accepted, e.packet);
      }
    } else {
      Q.OtherGroups(l, w, e);
    }
  }

  ghost predicate HeardInv(s: Live) {
    AllHeard(s.sounds, s.world.history.accepted)
  }

  lemma {:induction false} CaptureHeard(ch: Channel, s: Live, e: Event)
    requires Q.Sound(ch.limits, s.world) && HeardInv(s) && (e.CaptureVideo? || e.CaptureAudio?)
    ensures HeardInv(Step(ch, s, e))
  {
    match e
    case CaptureVideo(data, pts, key, fault, stamp) =>
      DoHeard(ch.limits, s.world, VideoCall(ch.config.h265, s.stopping, s.extra, data, pts, key, fault, |s.captures|,
          stamp).1, s.sounds);
    case CaptureAudio(data, pts, lost, stamp) =>
      var sounds, call := s.sounds + [Sound(data, pts)], AudioCall(s.stopping, data, pts, lost, |s.sounds|, stamp);
      HeardLater(s.sounds, Sound(data, pts), s.world.history.accepted);
      if call.Some? { DoHeard(ch.limits, s.world, call.value, sounds); }
  }

  lemma {:induction false} StepHeard(ch: Channel, s: Live, e: Event)
    requires Q.Sound(ch.limits, s.world) && HeardInv(s)
    ensures HeardInv(Step(ch, s, e))
  {
    if e.CaptureVideo? || e.CaptureAudio? {
      CaptureHeard(ch, s, e);
    } else if e.Take? {
      TakeForm(ch, s);
      DoHeard(ch.limits, s.world, Q.DoPop(s.clock), s.sounds);
    } else if e.DiscardChannel? || e.Recover? {
      DoHeard(ch.limits, s.world, Q.DoReset, s.sounds);
    } else if e.StopQueue? {
      DoHeard(ch.limits, s.world, Q.DoStop, s.sounds);
    } else {
      SoundsElsewhere(ch, s, e);
    }
  }

  lemma {:induction false} SoundsElsewhere(ch: Channel, s: Live, e: Event)
    requires e.Check? || Own(e) || e.Interrupt? || e.Network? || e.Tick?
    ensures Step(ch, s, e).world == s.world && Step(ch, s, e).sounds == s.sounds
  {
    match e
    case Check =>
    case Synchronize =>
    case Permit =>
    case Proceed =>
    case Connect(opens) =>
    case Deliver(allocates, writes) =>
    case Throw(cached) =>
    case Interrupt =>
    case Network(to) =>
    case Tick(ms) =>
  }

  /** Over every run, each accepted audio packet is a piece that was captured, with its data and its time. */
  lemma {:induction false} AudioIsCaptured(ch: Channel, es: seq<Event>)
    ensures HeardInv(Run(ch, es))
    decreases |es|
  {
    if |es| > 0 {
      AudioIsCaptured(ch, es[..|es|-1]);
      RunNumbers(ch, es[..|es|-1]);
      StepHeard(ch, Run(ch, es[..|es|-1]), es[|es|-1]);
    }
  }
}
