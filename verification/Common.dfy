/** Types shared by the modules of the model. */
module Common {

  datatype Option<+T> = None | Some(value: T)

  /** One octet; `int` based, so `&` and `>>` of the source become `%` and `/`. */
  type byte = x: int | 0 <= x < 256

  type Bytes = seq<byte>

  lemma {:induction false} MiddleOf<T>(a: seq<T>, b: seq<T>, c: seq<T>)
    ensures a + (b + c) == a + b + c
    ensures (a + b + c)[|a|..|a| + |b|] == b
  {
  }

  /** What does not fall with one more element does not fall with any number. */
  lemma {:induction false} Climbs<T(!new)>(f: seq<T> -> nat, xs: seq<T>, more: seq<T>)
    requires forall ys: seq<T>, y: T :: f(ys) <= f(ys + [y])
    ensures f(xs) <= f(xs + more)
    decreases |more|
  {
    if more == [] {
      assert xs + more == xs;
    } else {
      var front, last := more[..|more|-1], more[|more|-1];
      Climbs(f, xs, front);
      assert xs + front + [last] == xs + more;
    }
  }
}
