/** The string dictionary of common/param/dictionary.c: three parallel arrays searched from end to end. */
module Dictionary {
  import opened Common

  /** A slot in use: its key, and its value if it has one. */
  datatype Entry = Entry(key: string, val: Option<string>)

  const MIN_SIZE := 128

  function Mixed(h: bv32, key: string): bv32
    decreases |key|
  {
    if key == [] then h
    else
      var a := h + (key[0] as int % 256) as bv32;
      var b := a + (a << 10);
      Mixed(b ^ (b >> 6), key[1..])
  }

  /** Characters are octets, unsigned as they are on the ARM target. */
  function Hash(key: string): bv32 {
    var h := Mixed(0, key);
    var a := h + (h << 3);
    var b := a ^ (a >> 11);
    b + (b << 15)
  }

  // ------------------------------------------------------- what slots mean

  type Slots = seq<Option<Entry>>

  function Used(slots: Slots): nat {
    if slots == [] then 0 else Used(slots[..|slots|-1]) + if slots[|slots|-1].Some? then 1 else 0
  }

  ghost predicate Distinct(slots: Slots) {
    forall i, j :: 0 <= i < j < |slots| && slots[i].Some? && slots[j].Some? ==> slots[i].value.key != slots[j].value.key
  }

  ghost predicate Holds(slots: Slots, key: string, i: nat) {
    i < |slots| && slots[i].Some? && slots[i].value.key == key
  }

  /** The map the slots stand for. */
  function MapOf(slots: Slots): map<string, Option<string>> {
    if slots == [] then map[]
    else
      var last := slots[|slots|-1];
      var front := MapOf(slots[..|slots|-1]);
      if last.Some? then front[last.value.key := last.value.val] else front
  }

  lemma {:induction false} MapHolds(slots: Slots, key: string)
    requires Distinct(slots)
    ensures key in MapOf(slots) <==> exists i: nat :: Holds(slots, key, i)
    ensures forall i: nat :: Holds(slots, key, i) ==> MapOf(slots)[key] == slots[i].value.val
  {
    if slots != [] {
      var n := |slots| - 1;
      MapHolds(slots[..n], key);
      assert forall i: nat :: i < n ==> (Holds(slots, key, i) <==> Holds(slots[..n], key, i));
      if Holds(slots, key, n) {
      } else if key in MapOf(slots[..n]) {
        var i: nat :| Holds(slots[..n], key, i);
        assert Holds(slots, key, i);
      }
    }
  }

  lemma {:induction false} UsedBounds(slots: Slots)
    ensures Used(slots) <= |slots|
    ensures Used(slots) == |slots| ==> forall i :: 0 <= i < |slots| ==> slots[i].Some?
    ensures Used(slots) == 0 ==> forall i :: 0 <= i < |slots| ==> slots[i].None?
  {
    if slots != [] {
      UsedBounds(slots[..|slots|-1]);
      assert forall i :: 0 <= i < |slots| - 1 ==> slots[i] == slots[..|slots|-1][i];
    }
  }

  lemma {:induction false} UsedUpdate(slots: Slots, i: nat, e: Option<Entry>)
    requires i < |slots|
    ensures Used(slots[i := e]) == Used(slots) - (if slots[i].Some? then 1 else 0) + (if e.Some? then 1 else 0)
  {
    var n := |slots| - 1;
    if i < n {
      UsedUpdate(slots[..n], i, e);
      assert slots[i := e][..n] == slots[..n][i := e];
    } else {
      assert slots[i := e][..n] == slots[..n];
    }
  }

  lemma {:induction false} UsedPadded(slots: Slots, more: Slots)
    requires forall i :: 0 <= i < |more| ==> more[i].None?
    ensures Used(slots + more) == Used(slots) && MapOf(slots + more) == MapOf(slots)
  {
    if more == [] {
      assert slots + more == slots;
    } else {
      UsedPadded(slots, more[..|more|-1]);
      assert (slots + more)[..|slots + more|-1] == slots + more[..|more|-1];
    }
  }

  /** Replacing a value, filling a free slot and freeing one are update, insertion and removal. */
  lemma {:induction false} MapUpdate(slots: Slots, i: nat, e: Entry)
    requires i < |slots| && Distinct(slots)
    requires if slots[i].Some? then slots[i].value.key == e.key else e.key !in MapOf(slots)
    ensures Distinct(slots[i := Some(e)]) && MapOf(slots[i := Some(e)]) == MapOf(slots)[e.key := e.val]
  {
    var next := slots[i := Some(e)];
    MapHolds(slots, e.key);
    forall j | 0 <= j < |slots| && j != i && slots[j].Some? ensures slots[j].value.key != e.key {
      assert slots[i].None? ==> !Holds(slots, e.key, j);
    }
    assert Distinct(next);
    SameMap(next, MapOf(slots)[e.key := e.val], slots, i);
  }

  lemma {:induction false} SameMap(next: Slots, m: map<string, Option<string>>, slots: Slots, i: nat)
    requires i < |slots| == |next| && Distinct(slots) && Distinct(next) && next[i].Some? && next == slots[i := next[i]]
    requires slots[i].Some? ==> slots[i].value.key == next[i].value.key
    requires m == MapOf(slots)[next[i].value.key := next[i].value.val]
    ensures MapOf(next) == m
  {
    forall key ensures key in MapOf(next) <==> key in m
               ensures key in m && key in MapOf(next) ==> MapOf(next)[key] == m[key]
    {
      MapHolds(slots, key);
      MapHolds(next, key);
      if key == next[i].value.key {
        assert Holds(next, key, i);
      } else {
        assert forall j: nat :: Holds(next, key, j) <==> Holds(slots, key, j);
      }
    }
  }

  lemma {:induction false} MapRemove(slots: Slots, i: nat)
    requires i < |slots| && Distinct(slots) && slots[i].Some?
    ensures Distinct(slots[i := None]) && MapOf(slots[i := None]) == MapOf(slots) - {slots[i].value.key}
  {
    var next, gone := slots[i := None], slots[i].value.key;
    forall key ensures key in MapOf(next) <==> key in MapOf(slots) && key != gone
               ensures key in MapOf(next) ==> MapOf(next)[key] == MapOf(slots)[key]
    {
      MapHolds(slots, key);
      MapHolds(next, key);
      if key == gone {
        assert forall j: nat :: !Holds(next, key, j);
      } else {
        assert forall j: nat :: Holds(next, key, j) <==> Holds(slots, key, j);
      }
    }
  }

  lemma {:induction false} UsedIsSize(slots: Slots)
    requires Distinct(slots)
    ensures Used(slots) == |MapOf(slots)|
  {
    if slots != [] {
      var n := |slots| - 1;
      UsedIsSize(slots[..n]);
      if slots[n].Some? {
        MapHolds(slots[..n], slots[n].value.key);
        assert forall i: nat :: i < n ==> !Holds(slots[..n], slots[n].value.key, i);
      }
    }
  }

  // ------------------------------------------------- the class of the source

  lemma {:induction false} AllFree(slots: Slots)
    requires forall i :: 0 <= i < |slots| ==> slots[i].None?
    ensures Used(slots) == 0 && MapOf(slots) == map[] && Distinct(slots)
  {
    UsedPadded([], slots);
    assert [] + slots == slots;
  }

  lemma {:induction false} DistinctPadded(slots: Slots, more: Slots)
    requires Distinct(slots) && forall i :: 0 <= i < |more| ==> more[i].None?
    ensures Distinct(slots + more)
  {
  }

  function Slot(key: Option<string>, val: Option<string>): Option<Entry> {
    if key.Some? then Some(Entry(key.value, val)) else None
  }

  lemma {:induction false} SomeFree(slots: Slots) returns (i: nat)
    requires Used(slots) < |slots|
    ensures i < |slots| && slots[i].None?
  {
    UsedFull(slots);
    i :| i < |slots| && slots[i].None?;
  }

  lemma {:induction false} UsedFull(slots: Slots)
    ensures (forall i :: 0 <= i < |slots| ==> slots[i].Some?) ==> Used(slots) == |slots|
  {
    if slots != [] {
      UsedFull(slots[..|slots|-1]);
      assert forall i :: 0 <= i < |slots| - 1 ==> slots[i] == slots[..|slots|-1][i];
    }
  }

  class Dictionary {
    var n: nat
    var size: nat
    var key: array<Option<string>>
    var val: array<Option<string>>
    var hash: array<bv32>
    /** What the arrays hold, slot by slot. */
    ghost var slots: Slots

    ghost predicate Valid()
      reads this, key, val, hash
    {
      && key.Length == val.Length == hash.Length == size == |slots| && size > 0
      && key != val && hash as object != key && hash as object != val
      && (forall i :: 0 <= i < size ==> slots[i] == Slot(key[i], val[i]))
      && (forall i :: 0 <= i < size && key[i].Some? ==> hash[i] == Hash(key[i].value))
      && Distinct(slots) && n == Used(slots)
    }

    ghost function Map(): map<string, Option<string>>
      reads this
    {
      MapOf(slots)
    }

    constructor (size: nat)
      ensures Valid() && Map() == map[] && n == 0 && this.size == if size < MIN_SIZE then MIN_SIZE else size
      ensures fresh(key) && fresh(val) && fresh(hash)
    {
      var actual := if size < MIN_SIZE then MIN_SIZE else size;
      this.n, this.size := 0, actual;
      key := new Option<string>[actual](_ => None);
      val := new Option<string>[actual](_ => None);
      hash := new bv32[actual](_ => 0);
      slots := seq(actual, _ => None);
      new;
      AllFree(slots);
    }

    /** The slot that holds the key, or `size`. */
    method Find(k: string) returns (i: nat)
      requires Valid()
      ensures i <= size
      ensures i < size ==> Holds(slots, k, i)
      ensures i < size <==> k in Map()
    {
      MapHolds(slots, k);
      var h := Hash(k);
      i := 0;
      while i < size
        invariant i <= size
        invariant forall j: nat :: j < i ==> !Holds(slots, k, j)
      {
        if key[i].Some? && h == hash[i] && k == key[i].value {
          assert Holds(slots, k, i);
          return;
        }
        i := i + 1;
      }
    }

    method Get(k: string) returns (found: bool, v: Option<string>)
      requires Valid()
      ensures found <==> k in Map()
      ensures v == if found then Map()[k] else None
    {
      var i := Find(k);
      if i == size {
        return false, None;
      }
      MapHolds(slots, k);
      return true, val[i];
    }

    method Grow()
      requires Valid()
      modifies this
      ensures Valid() && Map() == old(Map()) && n == old(n) && size == 2 * old(size)
      ensures fresh(key) && fresh(val) && fresh(hash)
    {
      var newVal, newKey, newHash := new Option<string>[2 * size], new Option<string>[2 * size], new bv32[2 * size];
      forall i | 0 <= i < 2 * size {
        newVal[i] := if i < size then val[i] else None;
      }
      forall i | 0 <= i < 2 * size {
        newKey[i] := if i < size then key[i] else None;
      }
      forall i | 0 <= i < 2 * size {
        newHash[i] := if i < size then hash[i] else 0;
      }
      ghost var more: Slots := seq(size, _ => None);
      assert Used(slots + more) == Used(slots) && MapOf(slots + more) == MapOf(slots) by { UsedPadded(slots, more); }
      assert Distinct(slots + more) by { DistinctPadded(slots, more); }
      slots := slots + more;
      size := 2 * size;
      val, key, hash := newVal, newKey, newHash;
    }

    /** From slot n round to the start: the search ends because some slot is free. */
    method FreeSlot() returns (i: nat)
      requires Valid() && n < size
      ensures i < size && key[i].None?
    {
      ghost var free := SomeFree(slots);
      i := n;
      while key[i].Some?
        invariant i < size
        decreases if free >= i then free - i else free + size - i
      {
        assert slots[i] != slots[free];
        i := i + 1;
        if i == size {
          i := 0;
        }
      }
    }

    /** Replaces the value in slot i, or fills it. */
    method Put(i: nat, k: string, v: Option<string>)
      requires Valid() && i < size
      requires if slots[i].Some? then slots[i].value.key == k else k !in Map()
      modifies this`n, this`slots, key, val, hash
      ensures Valid() && Map() == old(Map())[k := v]
    {
      MapUpdate(slots, i, Entry(k, v));
      UsedUpdate(slots, i, Some(Entry(k, v)));
      val[i] := v;
      if key[i].None? {
        key[i] := Some(k);
        hash[i] := Hash(k);
        n := n + 1;
      }
      slots := slots[i := Some(Entry(k, v))];
    }

    method Set(k: string, v: Option<string>)
      requires Valid()
      modifies this, key, val, hash
      ensures Valid() && Map() == old(Map())[k := v]
      ensures (key == old(key) || fresh(key)) && (val == old(val) || fresh(val)) && (hash == old(hash) || fresh(hash))
    {
      UsedIsSize(slots);
      if n > 0 {
        var i := Find(k);
        if i < size {
          Put(i, k, v);
          return;
        }
      }
      if n == size {
        Grow();
      }
      UsedBounds(slots);
      var i := FreeSlot();
      Put(i, k, v);
    }

    method Clear(i: nat)
      requires Valid() && i < size && slots[i].Some?
      modifies this`n, this`slots, key, val, hash
      ensures Valid() && Map() == old(Map()) - {old(slots[i].value.key)}
    {
      UsedUpdate(slots, i, None);
      MapRemove(slots, i);
      key[i] := None;
      val[i] := None;
      hash[i] := 0;
      slots := slots[i := None];
      n := n - 1;
    }

    method Unset(k: string)
      requires Valid()
      modifies this, key, val, hash
      ensures Valid() && Map() == old(Map()) - {k} && n == |Map()|
    {
      var i := Find(k);
      if i < size {
        Clear(i);
      }
      UsedIsSize(slots);
    }
  }
}
