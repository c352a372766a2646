/** The bounded audio/video queue of one endpoint, src/publisher/publisher_queue.hpp. */
module PublisherQueue {
  import opened Common

  /**
   * One encoded packet. `data` is empty where the source holds no buffer: both are refused by the same test.
   * `serial` is not in the source; it numbers the capture call that made the packet.
   */
  datatype Packet = Packet(data: Bytes, extra: Option<Bytes>, pts: nat, video: bool, key: bool, serial: nat)

  datatype Limits = Limits(maxBytes: nat, maxPackets: nat, maxAge: nat)

  datatype Item = Item(packet: Packet, time: int)

  datatype State = State(items: seq<Item>, bytes: nat, waitingKey: bool, stopped: bool, generation: nat, drops: nat)

  const EMPTY := State([], 0, true, false, 0, 0)

  // ------------------------------------------------------------- operations

  function ResetStep(s: State): State {
    s.(items := [], bytes := 0, waitingKey := true, generation := s.generation + 1, drops := s.drops + |s.items|)
  }

  predicate Oversize(l: Limits, p: Packet) {
    |p.data| > l.maxBytes || l.maxPackets == 0
  }

  predicate Overflows(l: Limits, s: State, p: Packet, now: int) {
    || s.bytes > l.maxBytes - |p.data|
    || |s.items| >= l.maxPackets
    || (|s.items| > 0 && now - s.items[0].time > l.maxAge)
  }

  /** The new state, and whether the packet went in. */
  function PushStep(l: Limits, s: State, p: Packet, now: int): (State, bool) {
    if s.stopped || |p.data| == 0 then (s, false)
    else if Oversize(l, p) then
      var r := ResetStep(s);
      (r.(drops := r.drops + 1), false)
    else
      var r := if Overflows(l, s, p, now) then ResetStep(s) else s;
      if r.waitingKey && !(p.video && p.key) then (r.(drops := r.drops + 1), false)
      else (r.(items := r.items + [Item(p, now)], bytes := r.bytes + |p.data|, waitingKey := false), true)
  }

  datatype Popped = Closed | Blocked | Expired | Taken(packet: Packet, generation: nat)

  /** One turn of the loop in `pop`: it waits, gives up, throws the backlog away or takes a packet. */
  function PopStep(l: Limits, s: State, now: int): (State, Popped) {
    if s.stopped then (s, Closed)
    else if |s.items| == 0 then (s, Blocked)
    else if now - s.items[0].time > l.maxAge then (ResetStep(s), Expired)
    else
      var p := s.items[0].packet;
      var left := if |p.data| <= s.bytes then s.bytes - |p.data| else 0;
      (s.(items := s.items[1..], bytes := left), Taken(p, s.generation))
  }

  function StopStep(s: State): State {
    s.(stopped := true, items := [], bytes := 0)
  }

  predicate Cancelled(s: State, epoch: nat) {
    s.stopped || s.generation != epoch
  }

  // ------------------------------------------------- the class of the source

  class Queue {
    const limits: Limits
    var items: seq<Item>
    var bytes: nat
    var waitingKey: bool
    var stopped: bool
    var generation: nat
    var drops: nat

    ghost function View(): State
      reads this
    {
      State(items, bytes, waitingKey, stopped, generation, drops)
    }

    /** `bytes` is exact and both limits hold. */
    ghost predicate Valid()
      reads this
    {
      Bounded(limits, View())
    }

    constructor (maxBytes: nat := 2 * 1024 * 1024, maxPackets: nat := 128, maxAge: nat := 1000)
      ensures Valid() && View() == EMPTY && limits == Limits(maxBytes, maxPackets, maxAge)
    {
      limits := Limits(maxBytes, maxPackets, maxAge);
      items, bytes, waitingKey, stopped, generation, drops := [], 0, true, false, 0, 0;
    }

    method ResetLocked()
      modifies this
      ensures Valid() && View() == ResetStep(old(View()))
    {
      drops := drops + |items|;
      items, bytes, waitingKey := [], 0, true;
      generation := generation + 1;
    }

    method Push(packet: Packet, now: int) returns (accepted: bool)
      requires Valid()
      modifies this
      ensures Valid() && (View(), accepted) == PushStep(limits, old(View()), packet, now)
      ensures !old(stopped) && |packet.data| > 0 ==>
                (accepted && generation == old(generation) && drops == old(drops)
                 && items == old(items) + [Item(packet, now)] <==>
                 && old(bytes) + |packet.data| <= limits.maxBytes && old(|items|) < limits.maxPackets
                 && (old(|items|) > 0 ==> now - old(items)[0].time <= limits.maxAge)
                 && (old(waitingKey) ==> packet.video && packet.key))
    {
      if stopped || |packet.data| == 0 {
        return false;
      }
      if |packet.data| > limits.maxBytes || limits.maxPackets == 0 {
        ResetLocked();
        drops := drops + 1;
        return false;
      }
      MakeRoom(packet, now);
      if waitingKey && (!packet.video || !packet.key) {
        drops := drops + 1;
        return false;
      }
      Append(packet, now);
      return true;
    }

    /** The backlog goes if the packet does not fit, or if it is too old. */
    method MakeRoom(packet: Packet, now: int)
      requires Valid() && !Oversize(limits, packet)
      modifies this
      ensures Valid() && bytes + |packet.data| <= limits.maxBytes && |items| < limits.maxPackets
      ensures View() == if Overflows(limits, old(View()), packet, now) then ResetStep(old(View())) else old(View())
    {
      var room: nat := limits.maxBytes - |packet.data|; // the unsigned subtraction cannot wrap
      if bytes > room || |items| >= limits.maxPackets || (|items| > 0 && now - items[0].time > limits.maxAge) {
        ResetLocked();
      }
    }

    /** The tail of `push`, where there is room. */
    method Append(packet: Packet, now: int)
      requires Valid() && bytes + |packet.data| <= limits.maxBytes && |items| < limits.maxPackets
      modifies this
      ensures Valid()
      ensures View() == old(View()).(items := old(items) + [Item(packet, now)], bytes := old(bytes) + |packet.data|,
          waitingKey := false)
    {
      SizesSnoc(items, Item(packet, now));
      items := items + [Item(packet, now)];
      bytes := bytes + |packet.data|;
      waitingKey := false;
    }

    method Pop(now: int) returns (result: Popped)
      requires Valid()
      modifies this
      ensures Valid() && (View(), result) == PopStep(limits, old(View()), now)
    {
      if stopped {
        return Closed;
      }
      if |items| == 0 {
        return Blocked;
      }
      if now - items[0].time > limits.maxAge {
        ResetLocked();
        return Expired;
      }
      var packet := items[0].packet;
      FrontFits(items);
      bytes := bytes - |packet.data|;
      items := items[1..];
      return Taken(packet, generation);
    }

    method Reset()
      modifies this
      ensures Valid() && View() == ResetStep(old(View()))
    {
      ResetLocked();
    }

    method Stop()
      modifies this
      ensures Valid() && View() == StopStep(old(View()))
    {
      stopped := true;
      items, bytes := [], 0;
    }
  }

  // ----------------------------------------------------------------- bounds

  function Sizes(items: seq<Item>): nat {
    if items == [] then 0 else Sizes(items[..|items|-1]) + |items[|items|-1].packet.data|
  }

  lemma {:induction false} SizesSnoc(items: seq<Item>, item: Item)
    ensures Sizes(items + [item]) == Sizes(items) + |item.packet.data|
  {
    assert (items + [item])[..|items|] == items;
  }

  ghost predicate Bounded(l: Limits, s: State) {
    && s.bytes == Sizes(s.items) <= l.maxBytes
    && |s.items| <= l.maxPackets
    && (s.waitingKey ==> s.items == [])
  }

  lemma {:induction false} FrontFits(items: seq<Item>)
    requires items != []
    ensures Sizes(items) == |items[0].packet.data| + Sizes(items[1..])
  {
    if |items| > 1 {
      FrontFits(items[..|items|-1]);
      assert items[..|items|-1][1..] == items[1..][..|items[1..]|-1];
    }
  }

  lemma {:induction false} PushBounded(l: Limits, s: State, p: Packet, now: int)
    requires Bounded(l, s)
    ensures Bounded(l, PushStep(l, s, p, now).0)
    ensures PushStep(l, s, p, now).1 ==> |p.data| <= l.maxBytes
  {
    var r := if Overflows(l, s, p, now) then ResetStep(s) else s;
    SizesSnoc(r.items, Item(p, now));
  }

  /** Popping keeps the bounds, and what it takes is not older than the limit. */
  lemma {:induction false} PopBounded(l: Limits, s: State, now: int)
    requires Bounded(l, s)
    ensures Bounded(l, PopStep(l, s, now).0)
    ensures PopStep(l, s, now).1.Taken? ==>
        s.items != [] && s.items[0].packet == PopStep(l, s, now).1.packet && now - s.items[0].time <= l.maxAge
  {
    if s.items != [] {
      FrontFits(s.items);
    }
  }

  // -------------------------------------------------------------------- age

  /**
   * A packet is stamped before the queue is locked, so two threads may push out of order; `skew` is how far a stamp
   * can lie before one pushed earlier, and no stamp is later than `latest`. The stamps lie within the age limit, but
   * for that.
   */
  ghost predicate Spans(l: Limits, items: seq<Item>, skew: nat, latest: int) {
    && (forall i :: 0 <= i < |items| ==> items[i].time <= latest)
    && (forall i, j :: 0 <= i < j < |items| ==>
          items[i].time - skew <= items[j].time <= items[i].time + l.maxAge + skew)
  }

  function Later(x: int, y: int): int {
    if x < y then y else x
  }

  /** A stamp within the age limit of the oldest packet is within reach of them all. */
  lemma {:induction false} InReach(l: Limits, items: seq<Item>, skew: nat, latest: int, p: Packet, now: int)
    requires Spans(l, items, skew, latest) && |items| > 0 && latest - skew <= now && now - items[0].time <= l.maxAge
    ensures forall i :: 0 <= i < |items| ==> items[i].time - skew <= now <= items[i].time + l.maxAge + skew
  {
    forall i | 0 <= i < |items| ensures items[i].time - skew <= now <= items[i].time + l.maxAge + skew {
      assert i > 0 ==> items[0].time - skew <= items[i].time;
    }
  }

  lemma {:induction false} AppendSpans(l: Limits, items: seq<Item>, skew: nat, latest: int, p: Packet, now: int)
    requires Spans(l, items, skew, latest)
    requires forall i :: 0 <= i < |items| ==> items[i].time - skew <= now <= items[i].time + l.maxAge + skew
    ensures Spans(l, items + [Item(p, now)], skew, Later(latest, now)) && Spans(l, items, skew, Later(latest, now))
  {
  }

  /** What a push leaves in the queue. */
  lemma {:induction false} PushForms(l: Limits, s: State, p: Packet, now: int)
    ensures
      var (t, ok) := PushStep(l, s, p, now);
      if !ok then t.items == s.items || t.items == []
      else
        || t.items == [] + [Item(p, now)]
        || (t.items == s.items + [Item(p, now)] && (|s.items| > 0 ==> now - s.items[0].time <= l.maxAge))
  {
  }

  lemma {:induction false} PushSpans(l: Limits, s: State, p: Packet, skew: nat, latest: int, now: int)
    requires Spans(l, s.items, skew, latest) && latest - skew <= now
    ensures Spans(l, PushStep(l, s, p, now).0.items, skew, Later(latest, now))
    ensures
      var (t, ok) := PushStep(l, s, p, now);
      ok ==> t.items != [] && t.items[|t.items|-1] == Item(p, now) && now - t.items[0].time <= l.maxAge
  {
    var (t, ok) := PushStep(l, s, p, now);
    PushForms(l, s, p, now);
    if ok && |t.items| > 1 { InReach(l, s.items, skew, latest, p, now); }
    AppendSpans(l, if ok && |t.items| > 1 then s.items else [], skew, latest, p, now);
    assert t.items == s.items ==> Spans(l, t.items, skew, Later(latest, now));
  }

  // ---------------------------------------------------- logs of a whole run

  /** What the producers did to the queue, in order: a non-empty packet, or a group thrown away. */
  datatype Call = Offer(packet: Packet) | Discard

  /** `accepted[g]` and `delivered[g]` are the packets that went in and came out under generation g. */
  datatype History = History(calls: seq<Call>, accepted: seq<seq<Packet>>, delivered: seq<seq<Packet>>)

  datatype World = World(queue: State, history: History)

  const START := World(EMPTY, History([], [[]], [[]]))

  datatype Event = DoPush(packet: Packet, now: int) | DoPop(now: int) | DoReset | DoStop

  /** A list for every generation up to g. */
  function UpTo(lists: seq<seq<Packet>>, g: nat): seq<seq<Packet>> {
    if |lists| <= g then lists + [[]] else lists
  }

  function AddLast(lists: seq<seq<Packet>>, p: Packet): (r: seq<seq<Packet>>)
    requires lists != []
    ensures |r| == |lists|
  {
    lists[..|lists|-1] + [lists[|lists|-1] + [p]]
  }

  function After(l: Limits, s: State, e: Event): State {
    match e
    case DoPush(p, now) => PushStep(l, s, p, now).0
    case DoPop(now) => PopStep(l, s, now).0
    case DoReset => ResetStep(s)
    case DoStop => StopStep(s)
  }

  function Do(l: Limits, w: World, e: Event): (r: World)
    requires w.history.accepted != [] && w.history.delivered != []
    ensures r.history.accepted != [] && r.history.delivered != []
    ensures r.queue == After(l, w.queue, e)
  {
    var s, h := w.queue, w.history;
    match e
    case DoPush(p, now) =>
      var (t, ok) := PushStep(l, s, p, now);
      var accepted := UpTo(h.accepted, t.generation);
      World(t, History(
        if s.stopped || p.data == [] then h.calls else h.calls + [Offer(p)],
        if ok then AddLast(accepted, p) else accepted,
        UpTo(h.delivered, t.generation)))
    case DoPop(now) =>
      var (t, result) := PopStep(l, s, now);
      World(t, History(
        h.calls,
        UpTo(h.accepted, t.generation),
        if result.Taken? then AddLast(h.delivered, result.packet) else UpTo(h.delivered, t.generation)))
    case DoReset =>
      var t := ResetStep(s);
      World(t, History(h.calls + [Discard], UpTo(h.accepted, t.generation), UpTo(h.delivered, t.generation)))
    case DoStop => World(StopStep(s), h)
  }

  function Run(l: Limits, es: seq<Event>): (w: World)
    ensures w.history.accepted != [] && w.history.delivered != []
  {
    if es == [] then START else Do(l, Run(l, es[..|es|-1]), es[|es|-1])
  }

  function Packets(items: seq<Item>): (ps: seq<Packet>)
    ensures |ps| == |items|
  {
    seq(|items|, i requires 0 <= i < |items| => items[i].packet)
  }

  function Offers(ps: seq<Packet>): (cs: seq<Call>)
    ensures |cs| == |ps|
  {
    seq(|ps|, i requires 0 <= i < |ps| => Offer(ps[i]))
  }

  /** The packets ps were offered one directly after the other, from call number a on. */
  ghost predicate UnbrokenFrom(calls: seq<Call>, a: nat, ps: seq<Packet>) {
    a + |ps| <= |calls| && calls[a..a + |ps|] == Offers(ps)
  }

  ghost predicate Group(h: History, g: nat)
    requires g < |h.accepted| && g < |h.delivered|
  {
    && h.delivered[g] <= h.accepted[g]
    && (h.accepted[g] != [] ==> h.accepted[g][0].video && h.accepted[g][0].key)
    && exists a: nat :: UnbrokenFrom(h.calls, a, h.accepted[g])
  }

  ghost predicate Groups(h: History) {
    |h.accepted| == |h.delivered| && forall g :: 0 <= g < |h.accepted| ==> Group(h, g)
  }

  /** The group being filled: what is in the queue, and that nothing offered since it began is missing. */
  ghost predicate Filling(s: State, h: History) {
    && |h.accepted| == |h.delivered| == s.generation + 1
    && var now := h.accepted[s.generation];
    && (s.waitingKey <==> now == [])
    && |now| <= |h.calls| && UnbrokenFrom(h.calls, |h.calls| - |now|, now)
    && (s.stopped ==> s.items == [])
    && (!s.stopped ==> now == h.delivered[s.generation] + Packets(s.items))
  }

  /** What every operation keeps. */
  ghost predicate Sound(l: Limits, w: World) {
    Bounded(l, w.queue) && Groups(w.history) && Filling(w.queue, w.history)
  }

  // The four ways an operation changes the state and its logs.

  function Renewed(w: World, calls: seq<Call>, drops: nat): World {
    var g := w.queue.generation + 1;
    World(ResetStep(w.queue).(drops := drops),
          History(calls, UpTo(w.history.accepted, g), UpTo(w.history.delivered, g)))
  }

  function Refused(w: World, c: Call): World {
    World(w.queue.(drops := w.queue.drops + 1), w.history.(calls := w.history.calls + [c]))
  }

  function Admitted(w: World, p: Packet, now: int): World
    requires w.history.accepted != []
  {
    var s, h := w.queue, w.history;
    World(s.(items := s.items + [Item(p, now)], bytes := s.bytes + |p.data|, waitingKey := false),
          h.(calls := h.calls + [Offer(p)], accepted := AddLast(h.accepted, p)))
  }

  function Shipped(w: World): World
    requires w.queue.items != [] && w.history.delivered != []
  {
    var s, h := w.queue, w.history;
    World(s.(items := s.items[1..], bytes := Sizes(s.items[1..])),
          h.(delivered := AddLast(h.delivered, s.items[0].packet)))
  }

  lemma {:induction false} GroupGrows(h: History, k: History, g: nat)
    requires g < |h.accepted| && g < |h.delivered| && Group(h, g)
    requires g < |k.accepted| && g < |k.delivered| && k.accepted[g] == h.accepted[g] && k.delivered[g] == h.delivered[g]
    requires h.calls <= k.calls
    ensures Group(k, g)
  {
    var a: nat :| UnbrokenFrom(h.calls, a, h.accepted[g]);
    assert k.calls[a..a + |h.accepted[g]|] == h.calls[a..a + |h.accepted[g]|];
    assert UnbrokenFrom(k.calls, a, k.accepted[g]);
  }

  /** Only the last group, shown by its own proof, is new. */
  lemma {:induction false} GroupsGrow(h: History, k: History)
    requires Groups(h) && h.calls <= k.calls && |k.accepted| == |k.delivered| > 0
    requires |k.accepted| - 1 <= |h.accepted|
    requires forall g :: 0 <= g < |k.accepted| - 1 ==>
        k.accepted[g] == h.accepted[g] && k.delivered[g] == h.delivered[g]
    requires Group(k, |k.accepted| - 1)
    ensures Groups(k)
  {
    forall g | 0 <= g < |k.accepted| ensures Group(k, g) {
      if g < |k.accepted| - 1 { GroupGrows(h, k, g); }
    }
  }

  /** A reset starts an empty group, whatever call caused it. */
  lemma {:induction false} RenewedSound(l: Limits, w: World, calls: seq<Call>, drops: nat)
    requires Sound(l, w) && w.history.calls <= calls
    ensures Sound(l, Renewed(w, calls, drops))
  {
    var k := Renewed(w, calls, drops).history;
    assert UnbrokenFrom(k.calls, 0, []);
    GroupsGrow(w.history, k);
  }

  /** While a key frame is awaited the current group stays empty. */
  lemma {:induction false} RefusedSound(l: Limits, w: World, c: Call)
    requires Sound(l, w) && w.queue.waitingKey
    ensures Sound(l, Refused(w, c))
  {
    var k := Refused(w, c).history;
    GroupGrows(w.history, k, w.queue.generation);
    GroupsGrow(w.history, k);
  }

  lemma {:induction false} UnbrokenExtends(calls: seq<Call>, ps: seq<Packet>, p: Packet)
    requires |ps| <= |calls| && UnbrokenFrom(calls, |calls| - |ps|, ps)
    ensures UnbrokenFrom(calls + [Offer(p)], |calls| - |ps|, ps + [p])
  {
    assert (calls + [Offer(p)])[|calls| - |ps|..|calls| + 1] == calls[|calls| - |ps|..|calls|] + [Offer(p)];
    assert Offers(ps + [p]) == Offers(ps) + [Offer(p)];
  }

  lemma {:induction false} AdmittedFills(w: World, p: Packet, now: int)
    requires Filling(w.queue, w.history) && !w.queue.stopped
    ensures Filling(Admitted(w, p, now).queue, Admitted(w, p, now).history)
  {
    var s, h, g := w.queue, w.history, w.queue.generation;
    var t, k := Admitted(w, p, now).queue, Admitted(w, p, now).history;
    assert k.accepted[g] == h.accepted[g] + [p];
    UnbrokenExtends(h.calls, h.accepted[g], p);
    assert Packets(t.items) == Packets(s.items) + [p];
  }

  lemma {:induction false} AdmittedGroups(w: World, p: Packet, now: int)
    requires Groups(w.history) && Filling(w.queue, w.history) && !w.queue.stopped
    requires w.queue.waitingKey ==> p.video && p.key
    ensures Groups(Admitted(w, p, now).history)
  {
    var h, g := w.history, w.queue.generation;
    var k := Admitted(w, p, now).history;
    assert k.accepted[g] == h.accepted[g] + [p];
    assert Group(k, g) by {
      assert Group(h, g);
      AdmittedFills(w, p, now);
    }
    GroupsGrow(h, k);
  }

  lemma {:induction false} AdmittedSound(l: Limits, w: World, p: Packet, now: int)
    requires Sound(l, w) && !w.queue.stopped && (w.queue.waitingKey ==> p.video && p.key)
    requires w.queue.bytes + |p.data| <= l.maxBytes && |w.queue.items| < l.maxPackets
    ensures Sound(l, Admitted(w, p, now))
  {
    SizesSnoc(w.queue.items, Item(p, now));
    AdmittedFills(w, p, now);
    AdmittedGroups(w, p, now);
  }

  lemma {:induction false} ShippedFills(w: World)
    requires Filling(w.queue, w.history) && !w.queue.stopped && w.queue.items != []
    ensures Filling(Shipped(w).queue, Shipped(w).history)
  {
    var s, g := w.queue, w.queue.generation;
    assert Packets(s.items) == [s.items[0].packet] + Packets(s.items[1..]);
    assert w.history.accepted[g] == Shipped(w).history.delivered[g] + Packets(s.items[1..]);
  }

  lemma {:induction false} ShippedSound(l: Limits, w: World)
    requires Sound(l, w) && !w.queue.stopped && w.queue.items != []
    ensures Sound(l, Shipped(w))
  {
    var h, k, g := w.history, Shipped(w).history, w.queue.generation;
    FrontFits(w.queue.items);
    ShippedFills(w);
    assert Group(k, g) by {
      assert Group(h, g);
      assert UnbrokenFrom(k.calls, |h.calls| - |h.accepted[g]|, k.accepted[g]);
    }
    GroupsGrow(h, k);
  }

  /** What a push does, in those terms. */
  lemma {:induction false} PushForm(l: Limits, w: World, p: Packet, now: int) returns (v: World)
    requires Sound(l, w)
    ensures w.queue.stopped || p.data == [] ==> Do(l, w, DoPush(p, now)) == w
    ensures !w.queue.stopped && p.data != [] && Oversize(l, p) ==>
              Do(l, w, DoPush(p, now)) == Renewed(w, w.history.calls + [Offer(p)], w.queue.drops + |w.queue.items| + 1)
    ensures !w.queue.stopped && p.data != [] && !Oversize(l, p) ==>
              && v == (
                if Overflows(l, w.queue, p, now) then Renewed(w, w.history.calls, w.queue.drops + |w.queue.items|)
                else w)
              && v.queue.bytes + |p.data| <= l.maxBytes && |v.queue.items| < l.maxPackets && v.history.accepted != []
              && !v.queue.stopped
              && Do(l, w, DoPush(p, now)) ==
                   if v.queue.waitingKey && !(p.video && p.key) then Refused(v, Offer(p)) else Admitted(v, p, now)
  {
    v := if Overflows(l, w.queue, p, now) then Renewed(w, w.history.calls, w.queue.drops + |w.queue.items|) else w;
  }

  lemma {:induction false} PopForm(l: Limits, w: World, now: int)
    requires Sound(l, w)
    ensures Do(l, w, DoPop(now)) ==
              if w.queue.stopped || w.queue.items == [] then w
              else if now - w.queue.items[0].time > l.maxAge then
                  Renewed(w, w.history.calls, w.queue.drops + |w.queue.items|)
              else Shipped(w)
  {
    if w.queue.items != [] { FrontFits(w.queue.items); }
  }

  lemma {:induction false} PushSound(l: Limits, w: World, p: Packet, now: int)
    requires Sound(l, w)
    ensures Sound(l, Do(l, w, DoPush(p, now)))
  {
    var h, kept := w.history, w.queue.drops + |w.queue.items|;
    var v := PushForm(l, w, p, now);
    if !w.queue.stopped && p.data != [] {
      if Oversize(l, p) {
        RenewedSound(l, w, h.calls + [Offer(p)], kept + 1);
      } else {
        assert Sound(l, v) by { if v != w { RenewedSound(l, w, h.calls, kept); } }
        if v.queue.waitingKey && !(p.video && p.key) {
          RefusedSound(l, v, Offer(p));
        } else {
          AdmittedSound(l, v, p, now);
        }
      }
    }
  }

  lemma {:induction false} PopSound(l: Limits, w: World, now: int)
    requires Sound(l, w)
    ensures Sound(l, Do(l, w, DoPop(now)))
  {
    PopForm(l, w, now);
    if !w.queue.stopped && w.queue.items != [] {
      if now - w.queue.items[0].time > l.maxAge {
        RenewedSound(l, w, w.history.calls, w.queue.drops + |w.queue.items|);
      } else {
        ShippedSound(l, w);
      }
    }
  }

  lemma {:induction false} DoSound(l: Limits, w: World, e: Event)
    requires Sound(l, w)
    ensures Sound(l, Do(l, w, e))
  {
    match e
    case DoPush(p, now) => PushSound(l, w, p, now);
    case DoPop(now) => PopSound(l, w, now);
    case DoReset => RenewedSound(l, w, w.history.calls + [Discard], w.queue.drops + |w.queue.items|);
    case DoStop =>
  }

  lemma {:induction false} RunSound(l: Limits, es: seq<Event>)
    ensures Sound(l, Run(l, es))
  {
    if es == [] {
      assert UnbrokenFrom([], 0, []);
    } else {
      RunSound(l, es[..|es|-1]);
      DoSound(l, Run(l, es[..|es|-1]), es[|es|-1]);
    }
  }

  /**
   * Delivery of groups, over every interleaving of push, pop, reset and stop: what comes out under a generation
   * is a prefix of what went in, which starts at a video key frame and is an unbroken run of the offered packets.
   */
  lemma {:induction false} GroupsAreDeliveredWhole(l: Limits, es: seq<Event>, g: nat)
    requires g <= Run(l, es).queue.generation
    ensures |Run(l, es).history.accepted| == |Run(l, es).history.delivered| == Run(l, es).queue.generation + 1
    ensures
      var h := Run(l, es).history;
      && h.delivered[g] <= h.accepted[g]
      && (h.accepted[g] != [] ==> h.accepted[g][0].video && h.accepted[g][0].key)
      && exists a: nat :: UnbrokenFrom(h.calls, a, h.accepted[g])
  {
    RunSound(l, es);
    assert Group(Run(l, es).history, g);
  }

  /** Logs only grow: each group's lists are extended at the end, and only popping adds to what was delivered. */
  ghost predicate Grows(h: History, k: History) {
    && |h.accepted| <= |k.accepted| && |h.delivered| <= |k.delivered| && h.calls <= k.calls
    && forall g :: 0 <= g < |h.accepted| && g < |h.delivered| ==>
        h.accepted[g] <= k.accepted[g] && h.delivered[g] <= k.delivered[g]
  }

  ghost predicate DoesGrow(w: World, t: World, popped: bool) {
    && Grows(w.history, t.history) && w.queue.generation <= t.queue.generation && (w.queue.stopped ==> t.queue.stopped)
    && (!popped ==> forall g :: 0 <= g < |w.history.delivered| ==> t.history.delivered[g] == w.history.delivered[g])
  }

  lemma {:induction false} PushGrows(l: Limits, w: World, p: Packet, now: int)
    requires Sound(l, w)
    ensures DoesGrow(w, Do(l, w, DoPush(p, now)), false)
  {
    var v := PushForm(l, w, p, now);
  }

  lemma {:induction false} PopGrows(l: Limits, w: World, now: int)
    requires Sound(l, w)
    ensures DoesGrow(w, Do(l, w, DoPop(now)), true)
  {
    PopForm(l, w, now);
  }

  lemma {:induction false} DoGrows(l: Limits, w: World, e: Event)
    requires Sound(l, w)
    ensures DoesGrow(w, Do(l, w, e), e.DoPop?)
  {
    match e
    case DoPush(p, now) => PushGrows(l, w, p, now);
    case DoPop(now) => PopGrows(l, w, now);
    case DoReset =>
    case DoStop =>
  }

  /** What a push does to the groups: a fresh one, nothing, or the packet added to the last or to a fresh one. */
  ghost predicate GroupsAfterPush(was: seq<seq<Packet>>, now: seq<seq<Packet>>, p: Packet) {
    && was != []
    && (|| now == was + [[]] || (now == was && was[|was|-1] == [])
        || (now == AddLast(was, p) && (was[|was|-1] == [] ==> p.video && p.key))
        || (now == was + [[p]] && p.video && p.key))
  }

  lemma {:induction false} PushGroups(l: Limits, w: World, p: Packet, now: int)
    requires Sound(l, w)
    ensures w.queue.stopped || p.data == [] ==> Do(l, w, DoPush(p, now)) == w
    ensures !w.queue.stopped && p.data != [] ==>
              && !Do(l, w, DoPush(p, now)).queue.stopped
              && GroupsAfterPush(w.history.accepted, Do(l, w, DoPush(p, now)).history.accepted, p)
  {
    var was := w.history.accepted;
    var v := PushForm(l, w, p, now);
    assert (was + [[]])[..|was|] == was && [] + [p] == [p];
    assert AddLast(was + [[]], p) == was + [[p]];
  }

  /** What the other operations do to the groups. */
  lemma {:induction false} OtherGroups(l: Limits, w: World, e: Event)
    requires Sound(l, w) && !e.DoPush?
    ensures e.DoPop? ==> Do(l, w, e).queue.stopped == w.queue.stopped
    ensures Do(l, w, e).history.accepted == w.history.accepted
        || Do(l, w, e).history.accepted == w.history.accepted + [[]]
    ensures e.DoReset? ==> Do(l, w, e).history.accepted == w.history.accepted + [[]]
    ensures e.DoStop? ==> Do(l, w, e).queue.stopped && Do(l, w, e).history.accepted == w.history.accepted
  {
    match e
    case DoPop(now) => PopForm(l, w, now);
    case DoReset =>
    case DoStop =>
  }

  // ------------------------------------------------------------ age, in a run

  /** The clock at the last push. */
  /** The latest stamp of a push so far. */
  function Latest(es: seq<Event>): int {
    if es == [] then 0
    else
      var before := Latest(es[..|es|-1]);
      if es[|es|-1].DoPush? then Later(before, es[|es|-1].now) else before
  }

  /** No stamp lies more than `skew` before an earlier one. */
  ghost predicate Skewed(es: seq<Event>, skew: nat) {
    forall n :: 0 <= n < |es| && es[n].DoPush? ==> Latest(es[..n]) - skew <= es[n].now
  }

  /** Over every run, no two packets of the backlog are further apart than the age limit and the skew of the stamps. */
  lemma {:induction false} BacklogSpans(l: Limits, es: seq<Event>, skew: nat)
    requires Skewed(es, skew)
    ensures Spans(l, Run(l, es).queue.items, skew, Latest(es))
  {
    if es != [] {
      var front, e := es[..|es|-1], es[|es|-1];
      forall n | 0 <= n < |front| && front[n].DoPush? ensures Latest(front[..n]) - skew <= front[n].now {
        assert front[..n] == es[..n] && front[n] == es[n];
      }
      BacklogSpans(l, front, skew);
      if e.DoPush? { PushSpans(l, Run(l, front).queue, e.packet, skew, Latest(front), e.now); }
    }
  }

  // ------------------------------------------------------------ conservation

  function OfferCount(calls: seq<Call>): nat {
    if calls == [] then 0 else OfferCount(calls[..|calls|-1]) + if calls[|calls|-1].Offer? then 1 else 0
  }

  function Total(lists: seq<seq<Packet>>): nat {
    if lists == [] then 0 else Total(lists[..|lists|-1]) + |lists[|lists|-1]|
  }

  ghost predicate Balanced(w: World) {
    !w.queue.stopped ==> OfferCount(w.history.calls) == Total(w.history.delivered) + w.queue.drops + |w.queue.items|
  }

  lemma {:induction false} TotalUpTo(lists: seq<seq<Packet>>, g: nat)
    ensures Total(UpTo(lists, g)) == Total(lists)
  {
    if |lists| <= g { assert (lists + [[]])[..|lists|] == lists; }
  }

  lemma {:induction false} TotalAddLast(lists: seq<seq<Packet>>, p: Packet)
    requires lists != []
    ensures Total(AddLast(lists, p)) == Total(lists) + 1
  {
    assert AddLast(lists, p)[..|lists|-1] == lists[..|lists|-1];
  }

  lemma {:induction false} OfferCountSnoc(calls: seq<Call>, c: Call)
    ensures OfferCount(calls + [c]) == OfferCount(calls) + if c.Offer? then 1 else 0
  {
    assert (calls + [c])[..|calls|] == calls;
  }

  lemma {:induction false} RenewedTotal(w: World, calls: seq<Call>, drops: nat)
    ensures Total(Renewed(w, calls, drops).history.delivered) == Total(w.history.delivered)
  {
    TotalUpTo(w.history.delivered, w.queue.generation + 1);
  }

  lemma {:induction false} DoBalanced(l: Limits, w: World, e: Event)
    requires Sound(l, w) && Balanced(w)
    ensures Balanced(Do(l, w, e))
  {
    var h, d := w.history, w.queue.drops + |w.queue.items|;
    match e
    case DoPush(p, now) =>
      var v := PushForm(l, w, p, now);
      OfferCountSnoc(h.calls, Offer(p));
      RenewedTotal(w, h.calls + [Offer(p)], d + 1);
      RenewedTotal(w, h.calls, d);
    case DoPop(now) =>
      PopForm(l, w, now);
      RenewedTotal(w, h.calls, d);
      if w.queue.items != [] { TotalAddLast(h.delivered, w.queue.items[0].packet); }
    case DoReset =>
      OfferCountSnoc(h.calls, Discard);
      RenewedTotal(w, h.calls + [Discard], d);
    case DoStop =>
  }

  /** Until the queue stops, every packet offered was delivered, counted as dropped, or is still queued. */
  lemma {:induction false} OfferedIsAccountedFor(l: Limits, es: seq<Event>)
    ensures Balanced(Run(l, es)) && Bounded(l, Run(l, es).queue)
  {
    RunSound(l, es);
    if es == [] {
      assert Total([[]]) == Total([[]][..0]) + 0;
    } else {
      OfferedIsAccountedFor(l, es[..|es|-1]);
      RunSound(l, es[..|es|-1]);
      DoBalanced(l, Run(l, es[..|es|-1]), es[|es|-1]);
    }
  }
}
