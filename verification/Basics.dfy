// Shared vocabulary: optional values, bytes and initial segments of the naturals.

module Options {
  datatype Option<+T> = None | Some(value: T)
}

module Octets {
  newtype byte = x: int | 0 <= x < 256
}

module Ranges {

  /** 0, 1, ... up to but not including n. */
  function Range(n: nat): seq<nat> {
    seq(n, i => i)
  }

  lemma RangeStep(n: nat)
    ensures Range(n + 1) == Range(n) + [n]
  {
  }

  lemma {:induction false} RangeCounts(n: nat)
    ensures forall i: nat :: multiset(Range(n))[i] == if i < n then 1 else 0
  {
    if n > 0 {
      RangeCounts(n - 1);
      RangeStep(n - 1);
    }
  }
}
