/** What the queue must do: when a packet goes in, when one comes out, and what makes a new generation. */
module PublisherQueueExact {
  import opened Common
  import opened PublisherQueue

  /** A packet is good for starting a group. */
  predicate Leads(p: Packet) {
    p.video && p.key
  }

  /** The packet fits behind the backlog: in bytes, in number, and in the age of the oldest one. */
  predicate FitsIn(l: Limits, s: State, p: Packet, now: int) {
    && s.bytes + |p.data| <= l.maxBytes && |s.items| + 1 <= l.maxPackets
    && forall i :: 0 <= i < |s.items| && i == 0 ==> now <= s.items[i].time + l.maxAge
  }

  /** It goes in behind everything that was there, exactly if it fits and does not have to wait for a key frame. */
  lemma {:induction false} PushKeepsExactly(l: Limits, s: State, p: Packet, now: int)
    requires Bounded(l, s) && !s.stopped && p.data != []
    ensures
      var (t, ok) := PushStep(l, s, p, now);
      (ok && t.generation == s.generation && t.drops == s.drops && t.items == s.items + [Item(p, now)]) <==>
      FitsIn(l, s, p, now) && (s.waitingKey ==> Leads(p))
  {
    var (t, ok) := PushStep(l, s, p, now);
    assert t.items == [] + [Item(p, now)] ==> |t.items| == 1;
  }

  /** Every outcome of a push: what it takes, what it throws away, and what it counts. */
  lemma {:induction false} PushOutcome(l: Limits, s: State, p: Packet, now: int)
    requires Bounded(l, s)
    ensures
      var (t, ok) := PushStep(l, s, p, now);
      && t.stopped == s.stopped
      && (ok <==>
            && !s.stopped && p.data != [] && |p.data| <= l.maxBytes && 0 < l.maxPackets
            && (Leads(p) || (!s.waitingKey && FitsIn(l, s, p, now))))
      && (s.stopped || p.data == [] ==> t == s)
      && (!s.stopped && p.data != [] ==>
            && t.generation == s.generation + (if FitsIn(l, s, p, now) then 0 else 1)
            && t.items == (if FitsIn(l, s, p, now) then s.items else []) + (if ok then [Item(p, now)] else [])
            && t.drops == s.drops + (if FitsIn(l, s, p, now) then 0 else |s.items|) + (if ok then 0 else 1)
            && (t.waitingKey <==> !ok && (s.waitingKey || !FitsIn(l, s, p, now))))
  {
    var (t, ok) := PushStep(l, s, p, now);
    assert s.items + [] == s.items;
  }

  /** A packet comes out exactly if there is one, the oldest is not too old, and the queue has not been stopped. */
  lemma {:induction false} PopOutcome(l: Limits, s: State, now: int)
    requires Bounded(l, s)
    ensures
      var (t, r) := PopStep(l, s, now);
      && (r.Closed? <==> s.stopped)
      && (r.Blocked? <==> !s.stopped && s.items == [])
      && (r.Taken? <==> !s.stopped && s.items != [] && now <= s.items[0].time + l.maxAge)
      && (r.Closed? || r.Blocked? ==> t == s)
      && (r.Taken? ==>
            && r == Taken(s.items[0].packet, s.generation) && [s.items[0]] + t.items == s.items
            && t == s.(items := t.items, bytes := t.bytes) && t.bytes + |r.packet.data| == s.bytes)
      && (r.Expired? ==>
            && t.items == [] && t.generation == s.generation + 1 && t.drops == s.drops + |s.items|
            && t.waitingKey && !t.stopped)
  {
    if s.items != [] { FrontFits(s.items); }
  }

  // ------------------------------------------------------------ whole runs

  /** What throws the backlog away: a reset, a packet that does not fit, or an oldest packet that waited too long. */
  predicate Clears(l: Limits, s: State, e: Event) {
    match e
    case DoReset => true
    case DoStop => false
    case DoPush(p, now) => !s.stopped && p.data != [] && !FitsIn(l, s, p, now)
    case DoPop(now) => !s.stopped && s.items != [] && now > s.items[0].time + l.maxAge
  }

  lemma {:induction false} RunSnoc(l: Limits, es: seq<Event>, e: Event)
    ensures Run(l, es + [e]) == Do(l, Run(l, es), e)
  {
    assert (es + [e])[..|es|] == es;
  }

  /** Over every run: the generation goes up exactly at those, and but for them what is queued stays, in its order. */
  lemma {:induction false} GenerationMoves(l: Limits, es: seq<Event>, e: Event)
    ensures
      var s, t := Run(l, es).queue, Run(l, es + [e]).queue;
      && t.generation == s.generation + (if Clears(l, s, e) then 1 else 0)
      && (Clears(l, s, e) ==> t.items == [] || (e.DoPush? && t.items == [Item(e.packet, e.now)]))
      && (!Clears(l, s, e) && !e.DoStop? ==>
            || t.items == s.items
            || (e.DoPush? && t.items == s.items + [Item(e.packet, e.now)])
            || (e.DoPop? && s.items != [] && s.items == [s.items[0]] + t.items))
  {
    var s := Run(l, es).queue;
    RunSnoc(l, es, e);
    RunSound(l, es);
    match e
    case DoPush(p, now) =>
      PushOutcome(l, s, p, now);
      assert [] + [Item(p, now)] == [Item(p, now)] && s.items + [] == s.items;
    case DoPop(now) => PopOutcome(l, s, now);
    case DoReset =>
    case DoStop =>
  }

  /** Once stopped the queue takes nothing and gives nothing, whatever follows. */
  lemma {:induction false} StopsForGood(l: Limits, es: seq<Event>, more: seq<Event>)
    ensures
      var s := Run(l, es + [DoStop] + more).queue;
      && s.stopped && s.items == []
      && (forall now :: PopStep(l, s, now).1 == Closed)
      && (forall p, now :: PushStep(l, s, p, now) == (s, false))
    decreases |more|
  {
    if |more| == 0 {
      assert es + [DoStop] + more == es + [DoStop];
      RunSnoc(l, es, DoStop);
    } else {
      var front, e := more[..|more|-1], more[|more|-1];
      assert es + [DoStop] + more == es + [DoStop] + front + [e];
      StopsForGood(l, es, front);
      RunSnoc(l, es + [DoStop] + front, e);
    }
  }

  /** The packets from the first one that can start a group. */
  function FromKey(ps: seq<Packet>): seq<Packet> {
    if ps == [] || Leads(ps[0]) then ps else FromKey(ps[1..])
  }

  lemma {:induction false} FromKeySnoc(ps: seq<Packet>, p: Packet)
    ensures FromKey(ps + [p]) ==
              if FromKey(ps) != [] then FromKey(ps) + [p] else if Leads(p) then [p] else []
  {
    if ps == [] {
      assert ps + [p] == [p] && [p][1..] == [];
    } else {
      assert (ps + [p])[0] == ps[0] && (ps + [p])[1..] == ps[1..] + [p];
      if !Leads(ps[0]) { FromKeySnoc(ps[1..], p); }
    }
  }

  /** The packets pushed, but for empty ones. */
  function Pushed(es: seq<Event>): seq<Packet>
    decreases |es|
  {
    if es == [] then []
    else
      var e := es[|es|-1];
      Pushed(es[..|es|-1]) + if e.DoPush? && e.packet.data != [] then [e.packet] else []
  }

  /** Nothing in the run throws the backlog away, and the queue is not stopped. */
  ghost predicate Undisturbed(l: Limits, es: seq<Event>) {
    forall n :: 0 <= n < |es| ==> !Clears(l, Run(l, es[..n]).queue, es[n]) && !es[n].DoStop?
  }

  ghost predicate AllThere(w: World, ps: seq<Packet>) {
    && w.queue.generation == 0 && !w.queue.stopped && (w.queue.waitingKey <==> ps == [])
    && |w.history.delivered| == 1 && w.history.delivered[0] + Packets(w.queue.items) == ps
  }

  lemma {:induction false} OneMoreThere(l: Limits, w: World, e: Event, ps: seq<Packet>)
    requires Sound(l, w) && AllThere(w, FromKey(ps)) && !Clears(l, w.queue, e) && !e.DoStop?
    ensures AllThere(Do(l, w, e), FromKey(ps + if e.DoPush? && e.packet.data != [] then [e.packet] else []))
  {
    var t := Do(l, w, e);
    match e
    case DoPush(p, now) =>
      PushOutcome(l, w.queue, p, now);
      if p.data != [] {
        FromKeySnoc(ps, p);
        PushedThere(w.queue, t.queue, p, now);
        var x, y := w.history.delivered[0], Packets(w.queue.items);
        assert x + (y + [p]) == x + y + [p];
      } else {
        assert ps + [] == ps;
      }
    case DoPop(now) =>
      PopOutcome(l, w.queue, now);
      assert ps + [] == ps;
      if w.queue.items != [] {
        PoppedThere(w.queue.items);
        assert t.history.delivered[0] == w.history.delivered[0] + [w.queue.items[0].packet];
        var x, p, y := w.history.delivered[0], w.queue.items[0].packet, Packets(t.queue.items);
        assert x + ([p] + y) == x + [p] + y;
      }
  }

  lemma {:induction false} PushedThere(s: State, t: State, p: Packet, now: int)
    ensures t.items == s.items + [Item(p, now)] ==> Packets(t.items) == Packets(s.items) + [p]
  {
  }

  lemma {:induction false} PoppedThere(items: seq<Item>)
    requires items != []
    ensures Packets(items) == [items[0].packet] + Packets(items[1..])
  {
  }

  /**
   * Nothing is lost without a cause: as long as every packet fits, none waits too long, and nobody resets or stops
   * the queue, what has come out and what is in it are all the packets from the first key frame on.
   */
  lemma {:induction false} NothingIsLost(l: Limits, es: seq<Event>)
    requires Undisturbed(l, es)
    ensures AllThere(Run(l, es), FromKey(Pushed(es)))
    decreases |es|
  {
    if |es| > 0 {
      var front, e := es[..|es|-1], es[|es|-1];
      forall n | 0 <= n < |front| ensures !Clears(l, Run(l, front[..n]).queue, front[n]) && !front[n].DoStop? {
        assert front[..n] == es[..n] && front[n] == es[n];
      }
      NothingIsLost(l, front);
      RunSound(l, front);
      OneMoreThere(l, Run(l, front), e, Pushed(front));
    }
  }
}
