/** The (generation, ready) pair through which NetworkRoute speaks to the senders. */
module RouteSignal {

  /**
   * `spent` is not in the source: every generation under which the pair was ever ready is below it. The first one is
   * spent from the start, since the pair is counted up before it is raised for the first time.
   */
  datatype Signal = Signal(generation: nat, ready: bool, spent: nat)

  const INITIAL := Signal(0, false, 1)

  ghost predicate Valid(s: Signal) {
    s.spent <= s.generation + 1 && (s.ready ==> s.generation + 1 == s.spent)
  }

  /** The only ways the pair changes: it is lowered, then counted up, and raised under a new generation. */
  predicate Moves(a: Signal, b: Signal) {
    || b == a
    || b == a.(ready := false)
    || (!a.ready && b == a.(generation := a.generation + 1))
    || (!a.ready && a.spent <= a.generation && b == a.(ready := true, spent := a.generation + 1))
  }

  lemma {:induction false} MovesKeepValid(a: Signal, b: Signal)
    requires Valid(a) && Moves(a, b)
    ensures Valid(b) && a.generation <= b.generation && a.spent <= b.spent
  {
  }

  /** Generation g was ready once and is not ready now. */
  predicate Over(s: Signal, g: nat) {
    g < s.spent && !(s.ready && s.generation == g)
  }

  /** It never is again. */
  lemma {:induction false} OverStays(a: Signal, b: Signal, g: nat)
    requires Valid(a) && Moves(a, b) && Over(a, g)
    ensures Over(b, g)
  {
  }
}
