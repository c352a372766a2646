/** Which bytes begin a parameter set, by the header fields of the standards, and when a stream holds all of them. */
module AnnexBTypes {
  import opened Common
  import opened AnnexB

  /**
   * The first byte of a unit. H.264 (section 7.3.1 of ITU-T H.264): forbidden bit, two bits of reference, five of
   * type. H.265 (section 7.3.1.2 of ITU-T H.265): forbidden bit, six bits of type, the first bit of the layer.
   */
  datatype Header = H264(forbidden: nat, reference: nat, kind: nat) | H265(forbidden: nat, kind: nat, layer: nat)

  predicate Fits(h: Header) {
    match h
    case H264(f, r, k) => f < 2 && r < 4 && k < 32
    case H265(f, k, l) => f < 2 && k < 64 && l < 2
  }

  function Octet(h: Header): byte
    requires Fits(h)
  {
    match h
    case H264(f, r, k) => 128 * f + 32 * r + k
    case H265(f, k, l) => 128 * f + 2 * k + l
  }

  lemma {:induction false} PartsOfH264(f: nat, r: nat, k: nat, b: nat)
    requires f < 2 && r < 4 && k < 32 && 128 * f + 32 * r + k == b
    ensures f == b / 128 && r == b % 128 / 32 && k == b % 32
  {
    assert b == 32 * (4 * f + r) + k;
    assert b / 32 == 4 * f + r;
  }

  lemma {:induction false} PartsOfH265(f: nat, k: nat, l: nat, b: nat)
    requires f < 2 && k < 64 && l < 2 && 128 * f + 2 * k + l == b
    ensures f == b / 128 && k == b % 128 / 2 && l == b % 2
  {
    assert b == 2 * (64 * f + k) + l;
    assert b / 2 == 64 * f + k;
  }

  /** Every byte is such a header, and only one. */
  lemma {:induction false} HeaderOf(b: byte, h265: bool) returns (h: Header)
    ensures Fits(h) && h.H265? == h265 && Octet(h) == b
    ensures forall g :: Fits(g) && g.H265? == h265 && Octet(g) == b ==> g == h
  {
    if h265 {
      h := H265(b / 128, b % 128 / 2, b % 2);
    } else {
      h := H264(b / 128, b % 128 / 32, b % 32);
    }
    forall g | Fits(g) && g.H265? == h265 && Octet(g) == b ensures g == h {
      match g
      case H264(f, r, k) => PartsOfH264(f, r, k, b);
      case H265(f, k, l) => PartsOfH265(f, k, l, b);
    }
  }

  /** H.264: sequence parameter sets have type 7, picture parameter sets 8; everything else is passed over. */
  lemma {:induction false} H264Flags(f: nat, r: nat, k: nat)
    requires f < 2 && r < 4 && k < 32
    ensures Flag(128 * f + 32 * r + k, false) == if k == 7 then 1 else if k == 8 then 2 else 0
  {
    assert (128 * f + 32 * r + k) % 32 == k by { assert 128 * f + 32 * r == 32 * (4 * f + r); }
  }

  /** H.265: video parameter sets have type 32, sequence parameter sets 33, picture parameter sets 34. */
  lemma {:induction false} H265Flags(f: nat, k: nat, l: nat)
    requires f < 2 && k < 64 && l < 2
    ensures Flag(128 * f + 2 * k + l, true) == if k == 32 then 1 else if k == 33 then 2 else if k == 34 then 4 else 0
  {
    assert (128 * f + 2 * k + l) / 2 == 64 * f + k;
    assert (64 * f + k) % 64 == k;
  }

  // ------------------------------------------------------------- completeness

  /** The types a decoder needs before the first frame. */
  function Required(h265: bool): set<nat> {
    if h265 then {32, 33, 34} else {7, 8}
  }

  /** The byte begins a unit of this type. */
  ghost predicate Begins(b: byte, h265: bool, kind: nat) {
    exists h :: Fits(h) && h.H265? == h265 && h.kind == kind && Octet(h) == b
  }

  function FlagFor(h265: bool, kind: nat): nat {
    if h265 then (if kind == 32 then 1 else if kind == 33 then 2 else 4) else if kind == 7 then 1 else 2
  }

  lemma {:induction false} FlagsTell(b: byte, h265: bool, kind: nat)
    requires kind in Required(h265)
    ensures Flag(b, h265) == FlagFor(h265, kind) <==> Begins(b, h265, kind)
  {
    var h := HeaderOf(b, h265);
    if h265 { H265Flags(h.forbidden, h.kind, h.layer); } else { H264Flags(h.forbidden, h.reference, h.kind); }
  }

  lemma {:induction false} CompleteIs(p: ParameterSets, h265: bool)
    ensures p.Complete(h265) <==> forall kind :: kind in Required(h265) ==> FlagFor(h265, kind) in p.found
  {
    if h265 {
      assert 32 in Required(true) && 33 in Required(true) && 34 in Required(true);
    } else {
      assert 7 in Required(false) && 8 in Required(false);
    }
  }

  /** One of the units found in the bytes has this type. */
  ghost predicate Holds(d: Bytes, h265: bool, kind: nat) {
    exists i :: 0 <= i < |Units(d, 0)| && HoldsAt(d, h265, kind, i)
  }

  ghost predicate HoldsAt(d: Bytes, h265: bool, kind: nat, i: nat)
    requires i < |Units(d, 0)|
  {
    var u := Units(d, 0)[i];
    u.start + u.prefix < |d| && Begins(d[u.start + u.prefix], h265, kind)
  }

  lemma {:induction false} OccursIsHeld(d: Bytes, h265: bool, kind: nat)
    requires kind in Required(h265)
    ensures Occurs(d, Units(d, 0), h265, FlagFor(h265, kind)) <==> Holds(d, h265, kind)
  {
    var units := Units(d, 0);
    UnitsInBounds(d, 0);
    forall i | 0 <= i < |units|
      ensures FlagOf(d, units[i], h265) == FlagFor(h265, kind) <==> HoldsAt(d, h265, kind, i)
    {
      assert Inside(d, units[i]);
      FlagsTell(d[units[i].start + units[i].prefix], h265, kind);
    }
  }

  /** On any bytes: the result is complete exactly if every required type occurs among the units found. */
  lemma {:induction false} CompleteExactly(d: Bytes, h265: bool)
    ensures Extract(d, h265).Complete(h265) <==> forall kind :: kind in Required(h265) ==> Holds(d, h265, kind)
  {
    UnitsInBounds(d, 0);
    CollectKeepsFirsts(d, Units(d, 0), h265);
    CompleteIs(Extract(d, h265), h265);
    forall kind | kind in Required(h265)
      ensures FlagFor(h265, kind) in Extract(d, h265).found <==> Holds(d, h265, kind)
    {
      OccursIsHeld(d, h265, kind);
    }
  }

  /** Frame i begins with a header of this type. */
  ghost predicate Sent(frames: seq<Frame>, h265: bool, kind: nat, i: nat) {
    i < |frames| && frames[i].nal != [] && Begins(frames[i].nal[0], h265, kind)
  }

  lemma {:induction false} WantedFound(frames: seq<Frame>, h265: bool, acc: ParameterSets, kind: nat)
    requires AllClean(frames) && kind in Required(h265)
    ensures FlagFor(h265, kind) in Wanted(frames, h265, acc).found <==>
              FlagFor(h265, kind) in acc.found || exists i: nat :: Sent(frames, h265, kind, i)
  {
    if frames != [] {
      var f, rest := frames[0], frames[1..];
      assert Clean(f.nal);
      WantedFound(rest, h265, Put(acc, f, h265), kind);
      FlagsTell(f.nal[0], h265, kind);
      assert Sent(frames, h265, kind, 0) <==> Begins(f.nal[0], h265, kind);
      forall i: nat ensures Sent(rest, h265, kind, i) <==> Sent(frames, h265, kind, i + 1) {}
      if exists i: nat :: Sent(frames, h265, kind, i) {
        var i: nat :| Sent(frames, h265, kind, i);
        assert i > 0 ==> Sent(rest, h265, kind, i - 1);
      }
      if exists i: nat :: Sent(rest, h265, kind, i) {
        var i: nat :| Sent(rest, h265, kind, i);
        assert Sent(frames, h265, kind, i + 1);
      }
    }
  }

  /** Of a stream of frames: exactly if a frame of each required type was sent and looked at. */
  lemma {:induction false} StreamCompleteExactly(frames: seq<Frame>, h265: bool)
    requires AllClean(frames)
    ensures Extract(Stream(frames), h265).Complete(h265) <==>
              forall kind :: kind in Required(h265) ==> exists i: nat :: Sent(Seen(frames), h265, kind, i)
  {
    FramingRoundTrip(frames, h265);
    CompleteIs(Extract(Stream(frames), h265), h265);
    forall kind | kind in Required(h265)
      ensures FlagFor(h265, kind) in Extract(Stream(frames), h265).found <==>
                exists i: nat :: Sent(Seen(frames), h265, kind, i)
    {
      WantedFound(Seen(frames), h265, NOTHING, kind);
    }
  }
}
