// The wrapping loopback-port allocator of the peer tests.
//
// A global int32 counter is bumped atomically and its remainder is folded into
// [20000, 50000).  The counter wraps at 2^31, and 2^32 is not a multiple of
// 30000, so the sequence of ports jumps at the wrap.

module AdminPort {
  const ADMIN_PORT_BASE := 20000
  const ADMIN_PORT_COUNT := 30000
  const TWO_31 := 0x8000_0000
  const TWO_32 := 0x1_0000_0000

  newtype int32 = x: int | -0x8000_0000 <= x < 0x8000_0000

  /** Two's-complement truncation to 32 bits, which is what atomic.AddInt32 does on overflow. */
  function Wrap32(x: int): (r: int)
    ensures -TWO_31 <= r < TWO_31 && (x - r) % TWO_32 == 0
    ensures -TWO_31 <= x < TWO_31 ==> r == x
  {
    (x + TWO_31) % TWO_32 - TWO_31
  }

  /** Go's remainder by the port count: it takes the sign of the dividend. */
  function GoRem(a: int): (r: int)
    ensures -ADMIN_PORT_COUNT < r < ADMIN_PORT_COUNT
    ensures (a - r) % ADMIN_PORT_COUNT == 0 && (r != 0 ==> (r < 0 <==> a < 0))
  {
    if a >= 0 then a % ADMIN_PORT_COUNT else -((-a) % ADMIN_PORT_COUNT)
  }

  /** The port a counter value stands for: the base plus the residue of the counter. */
  function PortOf(counter: int): int {
    ADMIN_PORT_BASE + counter % ADMIN_PORT_COUNT
  }

  /** Folding a negative remainder once gives the residue. */
  lemma FoldedRemainder(p: int)
    ensures var r := GoRem(p);
      PortOf(p) == ADMIN_PORT_BASE + if r < 0 then r + ADMIN_PORT_COUNT else r
  {
    var r := GoRem(p);
    var k := if r < 0 then r + ADMIN_PORT_COUNT else r;
    assert (p - k) % ADMIN_PORT_COUNT == 0;
    SameResidue(k, p);
  }

  class Allocator {
    var nextAdminPort: int32

    constructor ()
      ensures nextAdminPort == 0
    {
      nextAdminPort := 0;
    }

    method GetUniqueAdminPort() returns (port: int)
      modifies this
      ensures nextAdminPort as int == Wrap32(old(nextAdminPort) as int + 1)
      ensures port == PortOf(nextAdminPort as int)
      ensures 20000 <= port < 50000 && port == 20000 + nextAdminPort as int % 30000
    {
      if nextAdminPort == 0x7fff_ffff {
        nextAdminPort := -0x8000_0000;
      } else {
        nextAdminPort := nextAdminPort + 1;
      }
      var p := nextAdminPort as int;
      FoldedRemainder(p);
      var r := GoRem(p);
      if r < 0 {
        r := r + ADMIN_PORT_COUNT;
      }
      port := ADMIN_PORT_BASE + r;
    }
  }

  /** `counters` are the values the counter takes over consecutive calls. */
  ghost predicate Consecutive(counters: seq<int>) {
    && (forall i :: 0 <= i < |counters| ==> -TWO_31 <= counters[i] < TWO_31)
    && (forall i :: 0 < i < |counters| ==> counters[i] == Wrap32(counters[i - 1] + 1))
  }

  /** The wrap falls between calls i and j when the counter went down. */
  predicate WrapBetween(counters: seq<int>, i: nat, j: nat)
    requires i < j < |counters|
  {
    counters[j] < counters[i]
  }

  lemma {:induction false} CounterAt(counters: seq<int>, i: nat, j: nat)
    requires Consecutive(counters) && i <= j < |counters|
    ensures counters[j] == Wrap32(counters[i] + (j - i))
  {
    if i < j {
      CounterAt(counters, i, j - 1);
      assert counters[j] == Wrap32(counters[j - 1] + 1);
    }
  }

  /** The exact collision law: two calls fewer than 30000 apart share a port if and only if
      the wrap falls between them and they are 17296 calls apart. */
  lemma CollisionLaw(counters: seq<int>, i: nat, j: nat)
    requires Consecutive(counters) && i < j < |counters| && j - i < ADMIN_PORT_COUNT
    ensures PortOf(counters[i]) == PortOf(counters[j]) <==> WrapBetween(counters, i, j) && j - i == 17296
  {
    CounterAt(counters, i, j);
    var c, d := counters[i], j - i;
    if c + d < TWO_31 {
      SameResidue(c, c + d);
    } else {
      SameResidue(c, c + d - TWO_32);
      WrapShift(d);
    }
  }

  /** The wrap moves the residue by 17296. */
  lemma WrapShift(d: int)
    requires 0 < d < ADMIN_PORT_COUNT
    ensures (d - TWO_32) % ADMIN_PORT_COUNT == 0 <==> d == 17296
  {
    assert d - TWO_32 == (d - 17296) - 143165 * ADMIN_PORT_COUNT;
    SameResidue(d - 17296, d - TWO_32);
  }

  lemma SameResidue(x: int, y: int)
    ensures x % ADMIN_PORT_COUNT == y % ADMIN_PORT_COUNT <==> (y - x) % ADMIN_PORT_COUNT == 0
  {
  }

  /** Any 17296 consecutive calls give pairwise distinct ports, across the wrap too. */
  lemma DistinctAcrossWrap(counters: seq<int>)
    requires Consecutive(counters) && |counters| <= 17296
    ensures forall i, j :: 0 <= i < j < |counters| ==> PortOf(counters[i]) != PortOf(counters[j])
  {
    forall i, j | 0 <= i < j < |counters|
      ensures PortOf(counters[i]) != PortOf(counters[j])
    {
      CollisionLaw(counters, i, j);
    }
  }

  /** Any 30000 consecutive calls do so when the counter never wrapped among them. */
  lemma DistinctWithoutWrap(counters: seq<int>)
    requires Consecutive(counters) && |counters| <= ADMIN_PORT_COUNT
    requires forall i, j :: 0 <= i < j < |counters| ==> !WrapBetween(counters, i, j)
    ensures forall i, j :: 0 <= i < j < |counters| ==> PortOf(counters[i]) != PortOf(counters[j])
  {
    forall i, j | 0 <= i < j < |counters|
      ensures PortOf(counters[i]) != PortOf(counters[j])
    {
      CollisionLaw(counters, i, j);
    }
  }

  /** 17296 is the best possible bound: the 17297 calls that end just after the wrap repeat a port. */
  lemma BoundIsTight() returns (counters: seq<int>)
    ensures Consecutive(counters) && |counters| == 17297
    ensures PortOf(counters[0]) == PortOf(counters[17296])
  {
    counters := seq(17296, i => TWO_31 - 17296 + i) + [-TWO_31];
    forall i | 0 < i < |counters|
      ensures counters[i] == Wrap32(counters[i - 1] + 1)
    {
      assert counters[i - 1] == TWO_31 - 17296 + (i - 1);
    }
    CollisionLaw(counters, 0, 17296);
  }
}
