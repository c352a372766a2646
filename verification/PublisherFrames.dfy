/** Which captured frames, and which parameter sets, a session carries. */
module PublisherFrames {
  import opened Common
  import opened Publisher
  import opened PublisherSafety
  import opened PublisherSessions
  import AnnexB
  import Q = PublisherQueue
  import C = FfmpegConnection

  /** The complete parameter sets of the latest frame that was analysed and carried all of them. */
  function LatestSets(captures: seq<Capture>, h265: bool): Option<Bytes> {
    if captures == [] then None
    else
      var last := captures[|captures|-1];
      var sets := AnnexB.Extract(last.data, h265);
      if last.analysed && sets.Complete(h265) then Some(sets.data) else LatestSets(captures[..|captures|-1], h265)
  }

  lemma {:induction false} LatestSnoc(captures: seq<Capture>, c: Capture, h265: bool)
    ensures
      var sets := AnnexB.Extract(c.data, h265);
      LatestSets(captures + [c], h265) ==
        if c.analysed && sets.Complete(h265) then Some(sets.data) else LatestSets(captures, h265)
  {
    assert (captures + [c])[..|captures|] == captures;
  }

  lemma {:induction false} LatestIsNonEmpty(captures: seq<Capture>, h265: bool)
    ensures LatestSets(captures, h265) != Some([])
  {
    if captures != [] {
      AnnexB.CompleteIsNonEmpty(captures[|captures|-1].data, h265);
      LatestIsNonEmpty(captures[..|captures|-1], h265);
    }
  }

  // --------------------------------------------------- packets and captures

  /** A video packet shows the frame it was made of and the parameter sets known then. */
  ghost predicate Tagged(h265: bool, captures: seq<Capture>, p: Q.Packet) {
    if p.video then
      && p.serial < |captures| && captures[p.serial] == Capture(p.data, p.pts, p.key, p.key)
      && p.extra == LatestSets(captures[..p.serial+1], h265)
    else p.extra == None && !p.key
  }

  ghost predicate AllTagged(h265: bool, captures: seq<Capture>, lists: seq<seq<Q.Packet>>) {
    forall g, i :: 0 <= g < |lists| && 0 <= i < |lists[g]| ==> Tagged(h265, captures, lists[g][i])
  }

  /** The numbers of the frames among the packets. */
  function Frames(ps: seq<Q.Packet>): seq<nat> {
    if ps == [] then [] else Frames(ps[..|ps|-1]) + if ps[|ps|-1].video then [ps[|ps|-1].serial] else []
  }

  ghost predicate Consecutive(ns: seq<nat>) {
    forall i :: 0 <= i < |ns| ==> ns[i] == ns[0] + i
  }

  ghost predicate AllConsecutive(lists: seq<seq<Q.Packet>>) {
    forall g :: 0 <= g < |lists| ==> Consecutive(Frames(lists[g]))
  }

  lemma {:induction false} FramesSnoc(ps: seq<Q.Packet>, p: Q.Packet)
    ensures Frames(ps + [p]) == Frames(ps) + if p.video then [p.serial] else []
  {
    assert (ps + [p])[..|ps|] == ps;
  }

  lemma {:induction false} TaggedLater(h265: bool, captures: seq<Capture>, c: Capture, lists: seq<seq<Q.Packet>>)
    requires AllTagged(h265, captures, lists)
    ensures AllTagged(h265, captures + [c], lists)
  {
    forall g, i | 0 <= g < |lists| && 0 <= i < |lists[g]| ensures Tagged(h265, captures + [c], lists[g][i]) {
      var p := lists[g][i];
      assert Tagged(h265, captures, p);
      if p.video { assert (captures + [c])[..p.serial+1] == captures[..p.serial+1]; }
    }
  }

  /** Groups number their frames without a gap; the one being filled ends with frame `count - 1`. */
  ghost predicate Counted(count: nat, lists: seq<seq<Q.Packet>>, filling: bool) {
    && lists != [] && AllConsecutive(lists)
    && var last := Frames(lists[|lists|-1]);
    (filling && lists[|lists|-1] != [] ==> last != [] && last[|last|-1] == count - 1)
  }

  lemma {:induction false} CountedFresh(count: nat, lists: seq<seq<Q.Packet>>, filling: bool)
    requires AllConsecutive(lists)
    ensures Counted(count, lists + [[]], filling)
  {
    assert Frames([]) == [];
  }

  lemma {:induction false} TaggedLonger(h265: bool, captures: seq<Capture>, lists: seq<seq<Q.Packet>>, p: Q.Packet)
    requires lists != [] && AllTagged(h265, captures, lists) && Tagged(h265, captures, p)
    ensures AllTagged(h265, captures, Q.AddLast(lists, p))
  {
    var now, n := Q.AddLast(lists, p), |lists| - 1;
    forall g, i | 0 <= g < |now| && 0 <= i < |now[g]| ensures Tagged(h265, captures, now[g][i]) {
      if g < n || i < |lists[n]| { assert now[g][i] == lists[g][i]; }
    }
  }

  lemma {:induction false} ConsecutiveSnoc(ns: seq<nat>, n: nat)
    requires Consecutive(ns) && (ns != [] ==> ns[|ns|-1] + 1 == n)
    ensures Consecutive(ns + [n])
  {
  }

  lemma {:induction false} ConsecutiveLonger(lists: seq<seq<Q.Packet>>, p: Q.Packet)
    requires lists != [] && AllConsecutive(lists)
    requires
      var last := Frames(lists[|lists|-1]);
      p.video && last != [] ==> last[|last|-1] + 1 == p.serial
    ensures AllConsecutive(Q.AddLast(lists, p))
  {
    var now, n := Q.AddLast(lists, p), |lists| - 1;
    FramesSnoc(lists[n], p);
    if p.video { ConsecutiveSnoc(Frames(lists[n]), p.serial); }
    forall g | 0 <= g < |now| ensures Consecutive(Frames(now[g])) {
      if g < n { assert now[g] == lists[g]; } else { assert now[g] == lists[n] + [p]; }
    }
  }

  lemma {:induction false} CountedLonger(count: nat, lists: seq<seq<Q.Packet>>, p: Q.Packet)
    requires lists != [] && AllConsecutive(lists)
    requires
      var last := Frames(lists[|lists|-1]);
      if p.video then p.serial == count - 1 && (last != [] ==> last[|last|-1] == count - 2)
      else last != [] && last[|last|-1] == count - 1
    ensures Counted(count, Q.AddLast(lists, p), true)
  {
    ConsecutiveLonger(lists, p);
    FramesSnoc(lists[|lists|-1], p);
  }

  /** The numbering through whatever a push does to the groups. */
  lemma {:induction false} CountedPush(before: nat, count: nat, was: seq<seq<Q.Packet>>, now: seq<seq<Q.Packet>>,
      p: Q.Packet)
    requires Counted(before, was, true) && Q.GroupsAfterPush(was, now, p)
    requires if p.video then p.serial == before == count - 1 else before == count
    ensures Counted(count, now, true)
  {
    assert Frames([]) == [];
    if now == was + [[]] {
      CountedFresh(count, was, true);
    } else if now == was + [[p]] && p.video {
      assert (was + [[]])[..|was|] == was && [] + [p] == [p];
      assert now == Q.AddLast(was + [[]], p);
      CountedFresh(count, was, true);
      CountedLonger(count, was + [[]], p);
    } else if now != was {
      CountedLonger(count, was, p);
    }
  }

  lemma {:induction false} TaggedPush(h265: bool, captures: seq<Capture>, was: seq<seq<Q.Packet>>,
      now: seq<seq<Q.Packet>>, p: Q.Packet)
    requires AllTagged(h265, captures, was) && Tagged(h265, captures, p) && Q.GroupsAfterPush(was, now, p)
    ensures AllTagged(h265, captures, now)
  {
    if now == Q.AddLast(was, p) { TaggedLonger(h265, captures, was, p); }
  }

  ghost predicate FrameInv(ch: Channel, s: Live) {
    && Q.Sound(ch.limits, s.world)
    && s.extra == LatestSets(s.captures, ch.config.h265)
    && AllTagged(ch.config.h265, s.captures, s.world.history.accepted)
    && Counted(|s.captures|, s.world.history.accepted, !s.world.queue.stopped)
  }

  /** Any operation of the queue but a push; a capture whose frame is thrown away is one. */
  lemma {:induction false} NoPushNumbers(ch: Channel, s: Live, u: Live, e: Q.Event)
    requires FrameInv(ch, s) && u == s.(captures := u.captures, extra := u.extra, sender := u.sender)
    requires u.extra == LatestSets(u.captures, ch.config.h265)
    requires AllTagged(ch.config.h265, u.captures, s.world.history.accepted)
    requires e.DoReset? || (u.captures == s.captures && !e.DoPush?)
    ensures FrameInv(ch, QueueDo(ch, u, e))
  {
    Q.DoSound(ch.limits, s.world, e);
    Q.OtherGroups(ch.limits, s.world, e);
    CountedFresh(|u.captures|, s.world.history.accepted, !QueueDo(ch, u, e).world.queue.stopped);
  }

  lemma {:induction false} PushNumbers(ch: Channel, s: Live, u: Live, p: Q.Packet, stamp: nat)
    requires FrameInv(ch, s) && u == s.(captures := u.captures, extra := u.extra) && p.data != []
    requires u.extra == LatestSets(u.captures, ch.config.h265)
    requires AllTagged(ch.config.h265, u.captures, s.world.history.accepted) && Tagged(ch.config.h265, u.captures, p)
    requires if p.video then p.serial == |s.captures| == |u.captures| - 1 else u.captures == s.captures
    ensures FrameInv(ch, QueueDo(ch, u, Q.DoPush(p, stamp)))
  {
    var w, was := Q.Do(ch.limits, s.world, Q.DoPush(p, stamp)), s.world.history.accepted;
    assert Q.Sound(ch.limits, w) by { Q.DoSound(ch.limits, s.world, Q.DoPush(p, stamp)); }
    if s.world.queue.stopped {
      Q.PushGroups(ch.limits, s.world, p, stamp);
    } else {
      assert !w.queue.stopped && Q.GroupsAfterPush(was, w.history.accepted, p) by {
        Q.PushGroups(ch.limits, s.world, p, stamp);
      }
      TaggedPush(ch.config.h265, u.captures, was, w.history.accepted, p);
      CountedPush(|s.captures|, |u.captures|, was, w.history.accepted, p);
    }
  }

  lemma {:induction false} CaptureVideoNumbers(
    ch: Channel, s: Live, data: Bytes, pts: nat, key: bool, fault: Fault, stamp: nat)
    requires FrameInv(ch, s)
    ensures FrameInv(ch, EnqueueVideo(ch, s, data, pts, key, fault, stamp))
  {
    var t, h265 := EnqueueVideo(ch, s, data, pts, key, fault, stamp), ch.config.h265;
    var c := t.captures[|s.captures|];
    assert t.captures == s.captures + [c];
    assert t.extra == LatestSets(t.captures, h265) by { LatestSnoc(s.captures, c, h265); }
    assert AllTagged(h265, t.captures, s.world.history.accepted) by {
      TaggedLater(h265, s.captures, c, s.world.history.accepted);
    }
    var u := s.(captures := t.captures, extra := t.extra);
    if s.stopping || data == [] || |data| > MAX_FRAME || fault != NoFault {
      NoPushNumbers(ch, s, u, Q.DoReset);
    } else {
      var p := Q.Packet(data, u.extra, pts, true, key, |s.captures|);
      assert t.captures[..p.serial+1] == t.captures;
      PushNumbers(ch, s, u, p, stamp);
    }
  }

  /** Steps that leave the queue and the capture log alone. */
  lemma {:induction false} StepElsewhere(ch: Channel, s: Live, e: Event)
    requires e.Check? || Own(e) || e.Interrupt? || e.Network? || e.Tick?
    ensures
      var t := Step(ch, s, e);
      t.world == s.world && t.captures == s.captures && t.extra == s.extra
  {
    match e
    case Check =>
    case Synchronize =>
    case Permit =>
    case Proceed =>
    case Connect(opens) =>
    case Deliver(allocates, writes) =>
    case Throw(cached) =>
    case Interrupt =>
    case Network(to) =>
    case Tick(ms) =>
  }

  lemma {:induction false} CaptureAudioNumbers(ch: Channel, s: Live, data: Bytes, pts: nat, lost: bool, stamp: nat)
    requires FrameInv(ch, s)
    ensures FrameInv(ch, EnqueueAudio(ch, s, data, pts, lost, stamp))
  {
    if !(s.stopping || data == [] || |data| > MAX_FRAME) {
      if lost { NoPushNumbers(ch, s, s, Q.DoReset); }
      else { PushNumbers(ch, s, s, Q.Packet(data, None, pts, false, false, |s.sounds|), stamp); }
    }
  }

  lemma {:induction false} TakeNumbers(ch: Channel, s: Live)
    requires FrameInv(ch, s)
    ensures FrameInv(ch, TakePacket(ch, s))
  {
    TakeForm(ch, s);
    NoPushNumbers(ch, s, s.(sender := TakePacket(ch, s).sender), Q.DoPop(s.clock));
  }

  lemma {:induction false} DiscardNumbers(ch: Channel, s: Live, sender: Sender)
    requires FrameInv(ch, s)
    ensures FrameInv(ch, QueueDo(ch, s, Q.DoReset).(sender := sender))
  {
    NoPushNumbers(ch, s, s, Q.DoReset);
  }

  lemma {:induction false} CaptureNumbers(ch: Channel, s: Live, e: Event)
    requires FrameInv(ch, s) && (e.CaptureVideo? || e.CaptureAudio?)
    ensures FrameInv(ch, Step(ch, s, e))
  {
    match e
    case CaptureVideo(data, pts, key, fault, stamp) => CaptureVideoNumbers(ch, s, data, pts, key, fault, stamp);
    case CaptureAudio(data, pts, lost, stamp) => CaptureAudioNumbers(ch, s, data, pts, lost, stamp);
  }

  lemma {:induction false} DropNumbers(ch: Channel, s: Live, e: Event)
    requires FrameInv(ch, s) && (e.DiscardChannel? || e.Recover? || e.StopQueue?)
    ensures FrameInv(ch, Step(ch, s, e))
  {
    match e
    case DiscardChannel => DiscardNumbers(ch, s, s.sender);
    case Recover => DiscardNumbers(ch, s, Idle);
    case StopQueue => NoPushNumbers(ch, s, s, Q.DoStop);
  }

  lemma {:induction false} StepNumbers(ch: Channel, s: Live, e: Event)
    requires FrameInv(ch, s)
    ensures FrameInv(ch, Step(ch, s, e))
  {
    if e.CaptureVideo? || e.CaptureAudio? {
      CaptureNumbers(ch, s, e);
    } else if e.Take? {
      TakeNumbers(ch, s);
    } else if e.DiscardChannel? || e.Recover? || e.StopQueue? {
      DropNumbers(ch, s, e);
    } else {
      StepElsewhere(ch, s, e);
    }
  }

  lemma {:induction false} RunNumbers(ch: Channel, es: seq<Event>)
    ensures FrameInv(ch, Run(ch, es))
  {
    if es == [] {
      Q.RunSound(ch.limits, []);
      assert Frames([]) == [];
    } else {
      RunNumbers(ch, es[..|es|-1]);
      StepNumbers(ch, Run(ch, es[..|es|-1]), es[|es|-1]);
    }
  }

  // ---------------------------------------------------------- the first result

  /** No frame is left out of what a connection writes. */
  lemma {:induction false} KeptFrames(audio: bool, origin: nat, ps: seq<Q.Packet>)
    ensures Frames(Kept(audio, origin, ps)) == Frames(ps)
  {
    if ps != [] {
      var front, last := ps[..|ps|-1], ps[|ps|-1];
      KeptFrames(audio, origin, front);
      if last.video || (audio && last.pts >= origin) {
        FramesSnoc(Kept(audio, origin, front), last);
      } else {
        assert Kept(audio, origin, ps) == Kept(audio, origin, front);
      }
    }
  }

  ghost predicate NoneEarly(audio: bool, origin: nat, ps: seq<Q.Packet>) {
    forall i :: 0 <= i < |ps| ==> ps[i].video || (audio && ps[i].pts >= origin)
  }

  lemma {:induction false} KeptNoneEarly(audio: bool, origin: nat, ps: seq<Q.Packet>)
    ensures NoneEarly(audio, origin, Kept(audio, origin, ps))
  {
    if ps != [] { KeptNoneEarly(audio, origin, ps[..|ps|-1]); }
  }

  lemma {:induction false} KeptFirst(audio: bool, origin: nat, ps: seq<Q.Packet>)
    requires ps != [] && ps[0].video
    ensures Kept(audio, origin, ps) != [] && Kept(audio, origin, ps)[0] == ps[0]
  {
    if |ps| > 1 { KeptFirst(audio, origin, ps[..|ps|-1]); }
  }

  lemma {:induction false} FramesConcat(x: seq<Q.Packet>, y: seq<Q.Packet>)
    ensures Frames(x + y) == Frames(x) + Frames(y)
  {
    if y == [] {
      assert x + y == x;
    } else {
      FramesConcat(x, y[..|y|-1]);
      FramesSnoc(x + y[..|y|-1], y[|y|-1]);
      assert x + y == (x + y[..|y|-1]) + [y[|y|-1]];
    }
  }

  lemma {:induction false} FramesOfMiddle(x: seq<Q.Packet>, y: seq<Q.Packet>, z: seq<Q.Packet>)
    requires Consecutive(Frames(x + y + z))
    ensures Consecutive(Frames(y))
  {
    FramesConcat(x, y);
    FramesConcat(x + y, z);
    MiddleConsecutive(Frames(x), Frames(y), Frames(z));
  }

  /** A stretch of packets whose frames are consecutive has consecutive frames. */
  lemma {:induction false} StretchConsecutive(ps: seq<Q.Packet>, a: nat, b: nat)
    requires a <= b <= |ps| && Consecutive(Frames(ps))
    ensures Consecutive(Frames(ps[a..b]))
  {
    assert ps == ps[..a] + ps[a..b] + ps[b..];
    FramesOfMiddle(ps[..a], ps[a..b], ps[b..]);
  }

  lemma {:induction false} MiddleConsecutive(x: seq<nat>, y: seq<nat>, z: seq<nat>)
    requires Consecutive(x + y + z)
    ensures Consecutive(y)
  {
    forall i | 0 <= i < |y| ensures y[i] == y[0] + i {
      assert (x + y + z)[|x| + i] == y[i] && (x + y + z)[|x|] == y[0];
    }
  }

  /** ps were offered to the queue one directly after the other. */
  ghost predicate OfferedInARow(calls: seq<Q.Call>, ps: seq<Q.Packet>) {
    exists a: nat :: Q.UnbrokenFrom(calls, a, ps)
  }

  lemma {:induction false} StretchOffered(calls: seq<Q.Call>, ps: seq<Q.Packet>, a: nat, b: nat)
    requires a <= b <= |ps| && OfferedInARow(calls, ps)
    ensures OfferedInARow(calls, ps[a..b])
  {
    var m: nat :| Q.UnbrokenFrom(calls, m, ps);
    var part := calls[m + a..m + b];
    forall i | 0 <= i < b - a ensures part[i] == Q.Offers(ps[a..b])[i] {
      assert part[i] == calls[m..m + |ps|][a + i] == Q.Offers(ps)[a + i];
    }
    assert part == Q.Offers(ps[a..b]);
    assert Q.UnbrokenFrom(calls, m + a, ps[a..b]);
  }

  /** What a session carried, `offered` being everything offered between its first packet and its last. */
  ghost predicate Whole(ch: Channel, calls: seq<Q.Call>, S: Session, offered: seq<Q.Packet>) {
    var written := PacketsOf(S.written);
    && S.opener.video && S.opener.key && S.opener.pts == S.origin
    && OfferedInARow(calls, offered) && written == Kept(ch.config.audio, S.origin, offered)
    && (forall i :: 0 <= i < |written| ==>
          && S.written[i].epoch == S.epoch && (ch.config.networked ==> S.written[i].generation == S.generation)
          && (written[i].video || written[i].pts >= S.origin))
    && (written != [] ==> written[0] == S.opener && Frames(written) != [] && Frames(written)[0] == S.opener.serial)
    && Consecutive(Frames(written))
  }

  lemma {:induction false} OpenerLeads(offered: seq<Q.Packet>)
    requires offered != [] && offered[0].video
    ensures Frames(offered) != [] && Frames(offered)[0] == offered[0].serial
  {
    assert offered == [offered[0]] + offered[1..];
    FramesConcat([offered[0]], offered[1..]);
    FramesSnoc([], offered[0]);
    assert [] + [offered[0]] == [offered[0]];
  }

  /** The stretch of its epoch a faithful session covers. */
  lemma {:induction false} SessionIsWhole(ch: Channel, h: Q.History, S: Session)
    requires Faithful(ch, h, S) && S.epoch < |h.accepted| && Q.Group(h, S.epoch)
    requires Consecutive(Frames(h.accepted[S.epoch]))
    ensures Whole(ch, h.calls, S, h.delivered[S.epoch][S.first..S.next])
  {
    var ps, offered := h.accepted[S.epoch], h.delivered[S.epoch][S.first..S.next];
    assert offered == ps[S.first..S.next];
    assert OfferedInARow(h.calls, offered) by { StretchOffered(h.calls, ps, S.first, S.next); }
    assert Consecutive(Frames(offered)) by { StretchConsecutive(ps, S.first, S.next); }
    KeptFrames(ch.config.audio, S.origin, offered);
    assert NoneEarly(ch.config.audio, S.origin, PacketsOf(S.written)) by {
      KeptNoneEarly(ch.config.audio, S.origin, offered);
    }
    if offered != [] {
      OpenerLeads(offered);
      KeptFirst(ch.config.audio, S.origin, offered);
    }
  }

  /**
   * Session integrity, over every run: between a successful open and the next close, packets of one queue epoch and
   * one network generation are written; the first is the video key frame whose time is the origin; they are all
   * the video, and all the audio from the origin on, of an unbroken run of offered packets; and the frames are
   * consecutive captures. Failed allocations, resets and changes of network can end a session. The one packet that
   * can still follow is the subject of PublisherGaps.
   */
  lemma {:induction false} SessionsAreWhole(ch: Channel, es: seq<Event>, k: nat)
    requires k < |Run(ch, es).sessions|
    ensures exists offered :: Whole(ch, Run(ch, es).world.history.calls, Run(ch, es).sessions[k], offered)
  {
    var s := Run(ch, es);
    var S, h := s.sessions[k], s.world.history;
    assert Faithful(ch, h, S) && Q.Groups(h) by { RunKeeps(ch, es); }
    assert AllConsecutive(h.accepted) by { RunNumbers(ch, es); }
    assert Q.Group(h, S.epoch);
    SessionIsWhole(ch, h, S);
  }

  // --------------------------------------------------------- the second result

  /** Packets the connection has still to see, oldest first. */
  function Pending(s: Live): seq<Q.Packet> {
    (if s.sender.Holding? || s.sender.Cleared? then [s.sender.packet] else []) + Q.Packets(s.world.queue.items)
  }

  /** Once parameter sets are known they stay known: to the connection, then along the queue, then at capture. */
  ghost predicate Ripening(cached: bool, ps: seq<Q.Packet>, known: bool) {
    && (cached ==> known)
    && (forall i :: 0 <= i < |ps| && ps[i].video ==> (cached ==> ps[i].extra.Some?) && (ps[i].extra.Some? ==> known))
    && (forall i, j :: 0 <= i < j < |ps| && ps[i].video && ps[j].video && ps[i].extra.Some? ==> ps[j].extra.Some?)
  }

  ghost predicate Ripe(s: Live) {
    Ripening(s.connection.codecExtra != [], Pending(s), s.extra.Some?)
  }

  ghost predicate ExtraOf(h265: bool, captures: seq<Capture>, S: Session) {
    S.opener.serial < |captures| && Some(S.extradata) == LatestSets(captures[..S.opener.serial+1], h265)
  }

  ghost predicate AllExtra(h265: bool, captures: seq<Capture>, sessions: seq<Session>) {
    forall k :: 0 <= k < |sessions| ==> ExtraOf(h265, captures, sessions[k])
  }

  lemma {:induction false} ExtraLater(h265: bool, captures: seq<Capture>, c: Capture, sessions: seq<Session>)
    requires AllExtra(h265, captures, sessions)
    ensures AllExtra(h265, captures + [c], sessions)
  {
    forall k | 0 <= k < |sessions| ensures ExtraOf(h265, captures + [c], sessions[k]) {
      var n := sessions[k].opener.serial + 1;
      assert ExtraOf(h265, captures, sessions[k]);
      assert (captures + [c])[..n] == captures[..n];
    }
  }

  /** The packet in hand was accepted, so it is tagged. */
  lemma {:induction false} HandTagged(ch: Channel, s: Live)
    requires Inv(ch, s) && FrameInv(ch, s) && (s.sender.Holding? || s.sender.Cleared?)
    ensures Tagged(ch.config.h265, s.captures, s.sender.packet)
  {
    var g, h := s.sender.epoch, s.world.history;
    assert Q.Group(h, g);
    assert h.accepted[g][|h.delivered[g]|-1] == s.sender.packet;
  }

  lemma {:induction false} RipeFewer(cached: bool, ps: seq<Q.Packet>, more: seq<Q.Packet>, known: bool, later: bool)
    requires Ripening(cached, ps + more, known) && (known ==> later)
    ensures Ripening(cached, ps, later) && Ripening(cached, ps + more, later)
  {
    assert forall i :: 0 <= i < |ps| ==> (ps + more)[i] == ps[i];
  }

  lemma {:induction false} RipeMore(cached: bool, ps: seq<Q.Packet>, p: Q.Packet, known: bool)
    requires Ripening(cached, ps, known) && (p.video ==> (p.extra.Some? <==> known))
    ensures Ripening(cached, ps + [p], known)
  {
  }

  lemma {:induction false} RipeTail(cached: bool, ps: seq<Q.Packet>, known: bool, now: bool)
    requires Ripening(cached, ps, known) && ps != [] && (now ==> cached || (ps[0].video && ps[0].extra.Some?))
    ensures Ripening(now, ps[1..], known)
  {
  }

  lemma {:induction false} PushItems(ch: Channel, w: Q.World, p: Q.Packet, now: int)
    requires Q.Sound(ch.limits, w)
    ensures
      var was, next := Q.Packets(w.queue.items), Q.Packets(Q.Do(ch.limits, w, Q.DoPush(p, now)).queue.items);
      next == was || next == [] || next == was + [p] || next == [p]
  {
    var v := Q.PushForm(ch.limits, w, p, now);
    var next := Q.Do(ch.limits, w, Q.DoPush(p, now)).queue.items;
    if next == v.queue.items + [Q.Item(p, now)] {
      assert Q.Packets(next) == Q.Packets(v.queue.items) + [p];
    }
  }

  /** A capture call: the queue is cleared, or gains at most a packet that carries what is known by then. */
  lemma {:induction false} CaptureRipe(ch: Channel, s: Live, u: Live, e: Q.Event)
    requires Q.Sound(ch.limits, s.world) && Ripe(s) && u == s.(captures := u.captures, extra := u.extra)
    requires s.extra.Some? ==> u.extra.Some?
    requires e.DoReset? || e.DoStop? || (e.DoPush? && (e.packet.video ==> e.packet.extra == u.extra))
    ensures Ripe(QueueDo(ch, u, e))
  {
    var t := QueueDo(ch, u, e);
    var hand := if s.sender.Holding? || s.sender.Cleared? then [s.sender.packet] else [];
    var was, next := Q.Packets(s.world.queue.items), Q.Packets(t.world.queue.items);
    var c, known := s.connection.codecExtra != [], u.extra.Some?;
    RipeFewer(c, hand, was, s.extra.Some?, known);
    if e.DoPush? {
      PushItems(ch, s.world, e.packet, e.now);
      RipeMore(c, hand, e.packet, known);
      RipeMore(c, hand + was, e.packet, known);
      assert hand + was + [e.packet] == hand + (was + [e.packet]);
    }
    assert hand + [] == hand;
  }

  lemma {:induction false} FirstAndRest(items: seq<Q.Item>)
    requires items != []
    ensures [items[0].packet] + Q.Packets(items[1..]) == Q.Packets(items)
  {
  }

  /** What is taken is still to be seen by the connection, now from the hand. */
  lemma {:induction false} TakePending(ch: Channel, s: Live)
    requires Q.Sound(ch.limits, s.world) && s.sender.Idle?
    ensures
      var t := TakePacket(ch, s);
      (Pending(t) == Pending(s) || Pending(t) == []) && t.connection == s.connection && t.extra == s.extra
  {
    Q.PopForm(ch.limits, s.world, s.clock);
    if s.world.queue.items != [] { FirstAndRest(s.world.queue.items); }
    assert Q.Packets([]) == [];
  }

  lemma {:induction false} TakeRipe(ch: Channel, s: Live)
    requires Q.Sound(ch.limits, s.world) && Ripe(s) && s.sender.Idle?
    ensures Ripe(TakePacket(ch, s))
  {
    TakePending(ch, s);
  }

  /** What the connection knows after a tagged packet. */
  lemma {:induction false} CachedAfter(cfg: C.Config, captures: seq<Capture>, c: C.State, p: Q.Packet, epoch: nat)
    requires Tagged(cfg.h265, captures, p)
    ensures Told(cfg, c, p, epoch).codecExtra == if p.extra.Some? then p.extra.value else c.codecExtra
    ensures p.extra != Some([])
  {
    if p.video {
      var n := p.serial;
      assert captures[..n+1] == captures[..n] + [captures[n]];
      LatestSnoc(captures[..n], captures[n], cfg.h265);
      LatestIsNonEmpty(captures[..n+1], cfg.h265);
    }
  }

  /** What the connection knows once it has met the packet in hand. */
  lemma {:induction false} SyncCached(ch: Channel, s: Live)
    requires Inv(ch, s) && FrameInv(ch, s) && s.sender.Cleared?
    ensures
      var p := s.sender.packet;
      && Tagged(ch.config.h265, s.captures, p) && p.extra != Some([])
      && SyncPacket(ch, s).connection.codecExtra == if p.extra.Some? then p.extra.value else s.connection.codecExtra
  {
    HandTagged(ch, s);
    CachedAfter(ch.config, s.captures, s.connection, s.sender.packet, s.sender.epoch);
  }

  /** The packet in hand is done with, and may have taught the connection its parameter sets. */
  lemma {:induction false} DoneRipe(s: Live, t: Live)
    requires Ripe(s) && (s.sender.Holding? || s.sender.Cleared?) && !t.sender.Holding? && !t.sender.Cleared?
    requires t.world.queue.items == s.world.queue.items && t.extra == s.extra
    requires
      var p := s.sender.packet;
      t.connection.codecExtra != [] ==> s.connection.codecExtra != [] || (p.video && p.extra.Some?)
    ensures Ripe(t)
  {
    var ps := Pending(s);
    assert ps[0] == s.sender.packet && ps[1..] == Q.Packets(s.world.queue.items) == Pending(t);
    RipeTail(s.connection.codecExtra != [], ps, s.extra.Some?, t.connection.codecExtra != []);
  }

  /** What a connection that has met frame p knows is what was known of the channel up to that frame. */
  ghost predicate Knows(h265: bool, captures: seq<Capture>, p: Q.Packet, codecExtra: Bytes) {
    && p.serial < |captures|
    && (codecExtra != [] ==> Some(codecExtra) == LatestSets(captures[..p.serial+1], h265))
  }

  ghost predicate Informed(ch: Channel, s: Live) {
    (s.sender.Asked? || s.sender.Synced? || s.sender.Opening?) && s.sender.packet.video ==>
      Knows(ch.config.h265, s.captures, s.sender.packet, s.connection.codecExtra)
  }

  ghost predicate ExtraInv(ch: Channel, s: Live) {
    Ripe(s) && AllExtra(ch.config.h265, s.captures, s.sessions) && Informed(ch, s)
  }

  lemma {:induction false} KnowsLater(h265: bool, captures: seq<Capture>, c: Capture, p: Q.Packet, codecExtra: Bytes)
    requires Knows(h265, captures, p, codecExtra)
    ensures Knows(h265, captures + [c], p, codecExtra)
  {
    assert (captures + [c])[..p.serial+1] == captures[..p.serial+1];
  }

  lemma {:induction false} CaptureVideoExtra(
    ch: Channel, s: Live, data: Bytes, pts: nat, key: bool, fault: Fault, stamp: nat)
    requires FrameInv(ch, s) && ExtraInv(ch, s)
    ensures ExtraInv(ch, EnqueueVideo(ch, s, data, pts, key, fault, stamp))
  {
    var t, h265 := EnqueueVideo(ch, s, data, pts, key, fault, stamp), ch.config.h265;
    var c := t.captures[|s.captures|];
    assert t.captures == s.captures + [c];
    ExtraLater(h265, s.captures, c, s.sessions);
    if (s.sender.Asked? || s.sender.Synced? || s.sender.Opening?) && s.sender.packet.video {
      KnowsLater(h265, s.captures, c, s.sender.packet, s.connection.codecExtra);
    }
    var u := s.(captures := t.captures, extra := t.extra);
    CaptureRipe(ch, s, u, if s.stopping || data == [] || |data| > MAX_FRAME || fault != NoFault then Q.DoReset
                          else Q.DoPush(Q.Packet(data, u.extra, pts, true, key, |s.captures|), stamp));
  }

  lemma {:induction false} SyncInforms(ch: Channel, s: Live)
    requires Inv(ch, s) && FrameInv(ch, s) && Ripe(s) && s.sender.Cleared?
    ensures Informed(ch, SyncPacket(ch, s))
  {
    var p := s.sender.packet;
    SyncCached(ch, s);
    if p.video {
      assert p.extra == None ==> s.connection.codecExtra == [] by { assert Pending(s)[0] == p; }
    }
  }

  lemma {:induction false} SyncExtra(ch: Channel, s: Live)
    requires Inv(ch, s) && FrameInv(ch, s) && ExtraInv(ch, s) && s.sender.Cleared?
    ensures ExtraInv(ch, SyncPacket(ch, s))
  {
    SyncInforms(ch, s);
    assert Ripe(SyncPacket(ch, s)) by {
      SyncCached(ch, s);
      DoneRipe(s, SyncPacket(ch, s));
    }
  }

  lemma {:induction false} PermitExtra(ch: Channel, s: Live)
    requires ExtraInv(ch, s) && s.sender.Asked?
    ensures ExtraInv(ch, PermitPacket(ch, s))
  {
    assert Pending(PermitPacket(ch, s)) == Pending(s);
  }

  lemma {:induction false} ProceedExtra(ch: Channel, s: Live)
    requires ExtraInv(ch, s) && s.sender.Synced?
    ensures ExtraInv(ch, ProceedPacket(s))
  {
    assert Pending(ProceedPacket(s)) == Pending(s);
  }

  /** A connection that opens was told the parameter sets of the frame it opens for. */
  lemma {:induction false} ConnectExtra(ch: Channel, s: Live, opens: bool)
    requires Inv(ch, s) && ExtraInv(ch, s) && s.sender.Opening?
    ensures ExtraInv(ch, ConnectPacket(ch, s, opens))
  {
    var t, h265 := ConnectPacket(ch, s, opens), ch.config.h265;
    assert Pending(t) == Pending(s) && t.connection.codecExtra == s.connection.codecExtra;
    forall k | 0 <= k < |t.sessions| ensures ExtraOf(h265, t.captures, t.sessions[k]) {
      if k < |s.sessions| { assert ExtraOf(h265, s.captures, s.sessions[k]); }
    }
  }

  lemma {:induction false} DeliverExtra(ch: Channel, s: Live, allocates: bool, writes: bool)
    requires ExtraInv(ch, s) && s.sender.Sending?
    ensures ExtraInv(ch, DeliverPacket(ch, s, allocates, writes))
  {
    var t, h265 := DeliverPacket(ch, s, allocates, writes), ch.config.h265;
    assert Pending(t) == Pending(s);
    forall k | 0 <= k < |t.sessions| ensures ExtraOf(h265, t.captures, t.sessions[k]) {
      assert ExtraOf(h265, s.captures, s.sessions[k]);
    }
  }

  lemma {:induction false} ThrowRipe(ch: Channel, s: Live, cached: bool)
    requires Inv(ch, s) && FrameInv(ch, s) && Ripe(s) && s.sender.Cleared?
    ensures Ripe(ThrowPacket(s, cached))
  {
    HandTagged(ch, s);
    DoneRipe(s, ThrowPacket(s, cached));
  }

  lemma {:induction false} ThrowLateRipe(s: Live, cached: bool)
    requires Ripe(s) && (s.sender.Synced? || s.sender.Sending?)
    ensures Ripe(ThrowPacket(s, cached))
  {
    assert Pending(ThrowPacket(s, cached)) == Pending(s);
  }

  lemma {:induction false} ThrowExtra(ch: Channel, s: Live, cached: bool)
    requires Inv(ch, s) && FrameInv(ch, s) && ExtraInv(ch, s)
    requires s.sender.Cleared? || s.sender.Synced? || s.sender.Sending?
    ensures ExtraInv(ch, ThrowPacket(s, cached))
  {
    if s.sender.Cleared? { ThrowRipe(ch, s, cached); } else { ThrowLateRipe(s, cached); }
  }

  lemma {:induction false} CheckExtra(ch: Channel, s: Live)
    requires ExtraInv(ch, s) && s.sender.Holding?
    ensures ExtraInv(ch, CheckPacket(s))
  {
    var t := CheckPacket(s);
    if t.sender.Idle? { DoneRipe(s, t); } else { assert Pending(t) == Pending(s); }
  }

  lemma {:induction false} QueueExtra(ch: Channel, s: Live, e: Q.Event)
    requires FrameInv(ch, s) && ExtraInv(ch, s)
    requires e.DoReset? || e.DoStop? || (e.DoPush? && !e.packet.video)
    ensures ExtraInv(ch, QueueDo(ch, s, e))
  {
    CaptureRipe(ch, s, s, e);
  }

  lemma {:induction false} HeardExtra(ch: Channel, s: Live, u: Live)
    requires FrameInv(ch, s) && ExtraInv(ch, s) && u == s.(sounds := u.sounds)
    ensures FrameInv(ch, u) && ExtraInv(ch, u)
  {
    assert Pending(u) == Pending(s);
  }

  lemma {:induction false} CaptureAudioExtra(ch: Channel, s: Live, data: Bytes, pts: nat, lost: bool, stamp: nat)
    requires FrameInv(ch, s) && ExtraInv(ch, s)
    ensures ExtraInv(ch, EnqueueAudio(ch, s, data, pts, lost, stamp))
  {
    var u, n := s.(sounds := s.sounds + [Sound(data, pts)]), |s.sounds|;
    HeardExtra(ch, s, u);
    if s.stopping || data == [] || |data| > MAX_FRAME {
      assert EnqueueAudio(ch, s, data, pts, lost, stamp) == u;
    } else {
      var e := if lost then Q.DoReset else Q.DoPush(Q.Packet(data, None, pts, false, false, n), stamp);
      assert EnqueueAudio(ch, s, data, pts, lost, stamp) == QueueDo(ch, u, e);
      QueueExtra(ch, u, e);
    }
  }

  /** Steps in which nothing a session or a packet shows is touched. */
  lemma {:induction false} OutsideExtra(ch: Channel, s: Live, e: Event)
    requires ExtraInv(ch, s) && (e.Interrupt? || e.Network? || e.Tick?)
    ensures ExtraInv(ch, Step(ch, s, e))
  {
    assert Pending(Step(ch, s, e)) == Pending(s);
  }

  lemma {:induction false} TakeExtra(ch: Channel, s: Live)
    requires FrameInv(ch, s) && ExtraInv(ch, s) && s.sender.Idle?
    ensures ExtraInv(ch, TakePacket(ch, s))
  {
    TakeRipe(ch, s);
  }

  lemma {:induction false} RecoverExtra(ch: Channel, s: Live)
    requires FrameInv(ch, s) && ExtraInv(ch, s) && s.sender.Failing?
    ensures ExtraInv(ch, QueueDo(ch, s, Q.DoReset).(sender := Idle))
  {
    QueueExtra(ch, s, Q.DoReset);
  }

  lemma {:induction false} SyncStepExtra(ch: Channel, s: Live)
    requires Inv(ch, s) && FrameInv(ch, s) && ExtraInv(ch, s)
    ensures ExtraInv(ch, Step(ch, s, Synchronize))
  {
    if s.sender.Cleared? { SyncExtra(ch, s); } else { assert Step(ch, s, Synchronize) == s; }
  }

  lemma {:induction false} PermitStepExtra(ch: Channel, s: Live)
    requires ExtraInv(ch, s)
    ensures ExtraInv(ch, Step(ch, s, Permit))
  {
    if s.sender.Asked? { PermitExtra(ch, s); } else { assert Step(ch, s, Permit) == s; }
  }

  lemma {:induction false} ProceedStepExtra(ch: Channel, s: Live)
    requires ExtraInv(ch, s)
    ensures ExtraInv(ch, Step(ch, s, Proceed))
  {
    if s.sender.Synced? { ProceedExtra(ch, s); } else { assert Step(ch, s, Proceed) == s; }
  }

  lemma {:induction false} NetworkStepExtra(ch: Channel, s: Live, e: Event)
    requires Inv(ch, s) && FrameInv(ch, s) && ExtraInv(ch, s) && (e.Synchronize? || e.Permit? || e.Proceed?)
    ensures ExtraInv(ch, Step(ch, s, e))
  {
    if e.Synchronize? {
      SyncStepExtra(ch, s);
    } else if e.Permit? {
      PermitStepExtra(ch, s);
    } else {
      ProceedStepExtra(ch, s);
    }
  }

  lemma {:induction false} ThrowStepExtra(ch: Channel, s: Live, cached: bool)
    requires Inv(ch, s) && FrameInv(ch, s) && ExtraInv(ch, s)
    ensures ExtraInv(ch, Step(ch, s, Throw(cached)))
  {
    var t := Step(ch, s, Throw(cached));
    if s.sender.Cleared? || s.sender.Synced? || s.sender.Sending? {
      assert t == ThrowPacket(s, cached);
      ThrowExtra(ch, s, cached);
    } else {
      assert t == s;
    }
  }

  lemma {:induction false} OwnExtra(ch: Channel, s: Live, e: Event)
    requires Inv(ch, s) && FrameInv(ch, s) && ExtraInv(ch, s) && Own(e)
    ensures ExtraInv(ch, Step(ch, s, e))
  {
    match e
    case Connect(opens) => if s.sender.Opening? { ConnectExtra(ch, s, opens); }
    case Deliver(allocates, writes) => if s.sender.Sending? { DeliverExtra(ch, s, allocates, writes); }
    case Throw(cached) => ThrowStepExtra(ch, s, cached);
    case _ => NetworkStepExtra(ch, s, e);
  }

  lemma {:induction false} CaptureStepExtra(ch: Channel, s: Live, e: Event)
    requires FrameInv(ch, s) && ExtraInv(ch, s) && (e.CaptureVideo? || e.CaptureAudio?)
    ensures ExtraInv(ch, Step(ch, s, e))
  {
    match e
    case CaptureVideo(data, pts, key, fault, stamp) => CaptureVideoExtra(ch, s, data, pts, key, fault, stamp);
    case CaptureAudio(data, pts, lost, stamp) => CaptureAudioExtra(ch, s, data, pts, lost, stamp);
  }

  /** A step of the queue alone: the channel is discarded, the queue stopped, or emptied after a failure. */
  lemma {:induction false} EmptyStepExtra(ch: Channel, s: Live, e: Event)
    requires FrameInv(ch, s) && ExtraInv(ch, s) && (e.DiscardChannel? || e.Recover? || e.StopQueue?)
    ensures ExtraInv(ch, Step(ch, s, e))
  {
    if e.Recover? {
      RecoverStepExtra(ch, s);
    } else {
      DropStepExtra(ch, s, e, if e.StopQueue? then Q.DoStop else Q.DoReset);
    }
  }

  lemma {:induction false} DropStepExtra(ch: Channel, s: Live, e: Event, call: Q.Event)
    requires FrameInv(ch, s) && ExtraInv(ch, s) && (call.DoStop? || call.DoReset?)
    requires Step(ch, s, e) == QueueDo(ch, s, call)
    ensures ExtraInv(ch, Step(ch, s, e))
  {
    QueueExtra(ch, s, call);
  }

  lemma {:induction false} RecoverStepExtra(ch: Channel, s: Live)
    requires FrameInv(ch, s) && ExtraInv(ch, s)
    ensures ExtraInv(ch, Step(ch, s, Recover))
  {
    var t := Step(ch, s, Recover);
    if s.sender.Failing? {
      assert t == QueueDo(ch, s, Q.DoReset).(sender := Idle);
      RecoverExtra(ch, s);
    } else {
      assert t == s;
    }
  }

  lemma {:induction false} TakeStepExtra(ch: Channel, s: Live)
    requires FrameInv(ch, s) && ExtraInv(ch, s)
    ensures ExtraInv(ch, Step(ch, s, Take))
  {
    if s.sender.Idle? { TakeExtra(ch, s); } else { assert Step(ch, s, Take) == s; }
  }

  lemma {:induction false} CheckStepExtra(ch: Channel, s: Live)
    requires FrameInv(ch, s) && ExtraInv(ch, s)
    ensures ExtraInv(ch, Step(ch, s, Check))
  {
    var t := Step(ch, s, Check);
    if s.sender.Holding? {
      assert t == CheckPacket(s);
      CheckExtra(ch, s);
    } else {
      assert t == s;
    }
  }

  lemma {:induction false} StepExtra(ch: Channel, s: Live, e: Event)
    requires Inv(ch, s) && FrameInv(ch, s) && ExtraInv(ch, s)
    ensures ExtraInv(ch, Step(ch, s, e))
  {
    if Own(e) {
      OwnExtra(ch, s, e);
    } else if e.Interrupt? || e.Network? || e.Tick? {
      OutsideExtra(ch, s, e);
    } else if e.CaptureVideo? || e.CaptureAudio? {
      CaptureStepExtra(ch, s, e);
    } else if e.Take? {
      TakeStepExtra(ch, s);
    } else if e.Check? {
      CheckStepExtra(ch, s);
    } else {
      EmptyStepExtra(ch, s, e);
    }
  }

  lemma {:induction false} RunExtra(ch: Channel, es: seq<Event>)
    ensures ExtraInv(ch, Run(ch, es))
  {
    if es != [] {
      RunKeeps(ch, es[..|es|-1]);
      RunNumbers(ch, es[..|es|-1]);
      RunExtra(ch, es[..|es|-1]);
      StepExtra(ch, Run(ch, es[..|es|-1]), es[|es|-1]);
    }
  }

  /**
   * Parameter sets, over every run: whenever a connection opens on a key frame its extradata is the complete
   * parameter sets of the latest analysed frame up to and including that one, dropped by the queue or not.
   */
  lemma {:induction false} ParameterSetsAreCurrent(ch: Channel, es: seq<Event>, k: nat)
    requires k < |Run(ch, es).sessions|
    ensures ExtraOf(ch.config.h265, Run(ch, es).captures, Run(ch, es).sessions[k])
  {
    RunExtra(ch, es);
  }
}
