// Ranking and filtering of the results of a batch.

module Ranking {
  import opened Options
  import opened Text

  /** One peer's result; a measurement that was not taken is None, and an empty error means success. */
  datatype SpeedResult = SpeedResult(
    peer: string, error: string,
    handshakeMs: Option<real>, pingMs: Option<real>, downloadMbps: Option<real>, peakMbps: Option<real>)

  datatype SortKey = BySpeed | ByPeak | ByPing | ByHandshake

  function KeyOf(sortBy: string): SortKey {
    var k := ToLower(sortBy);
    if k == "ping" then ByPing
    else if k == "handshake" then ByHandshake
    else if k == "peak" then ByPeak
    else BySpeed
  }

  function PingOf(p: Option<real>): real {
    match p case None => 1073741824.0 case Some(v) => v
  }

  function SpeedOf(p: Option<real>): real {
    match p case None => 0.0 case Some(v) => v
  }

  /** Go's comparison of strings: by the first difference, a proper prefix first. */
  predicate StringLess(a: string, b: string) {
    if b == "" then false
    else if a == "" then true
    else if a[0] != b[0] then a[0] < b[0]
    else StringLess(a[1..], b[1..])
  }

  predicate DiffersAt(a: string, b: string, k: nat) {
    k < |a| && k < |b| && a[..k] == b[..k] && a[k] < b[k]
  }

  predicate ProperPrefix(a: string, b: string) {
    |a| < |b| && b[..|a|] == a
  }

  /** The order spelled out: a proper prefix, or a smaller character at the first difference. */
  ghost predicate Precedes(a: string, b: string) {
    ProperPrefix(a, b) || exists k: nat :: DiffersAt(a, b, k)
  }

  lemma DiffersTail(a: string, b: string, k: nat)
    requires a != "" && b != "" && a[0] == b[0] && k > 0
    ensures DiffersAt(a, b, k) <==> DiffersAt(a[1..], b[1..], k - 1)
  {
    if k < |a| && k < |b| {
      assert a[..k] == [a[0]] + a[1..][..k - 1] && b[..k] == [b[0]] + b[1..][..k - 1];
      assert a[1..][..k - 1] == a[..k][1..] && b[1..][..k - 1] == b[..k][1..];
    }
  }

  lemma PrefixTail(a: string, b: string)
    requires a != "" && b != "" && a[0] == b[0]
    ensures ProperPrefix(a, b) <==> ProperPrefix(a[1..], b[1..])
  {
    if |a| < |b| {
      assert a == [a[0]] + a[1..] && b[..|a|] == [b[0]] + b[1..][..|a| - 1];
      assert b[1..][..|a| - 1] == b[..|a|][1..];
    }
  }

  lemma PrecedesTail(a: string, b: string)
    requires a != "" && b != "" && a[0] == b[0]
    ensures Precedes(a, b) <==> Precedes(a[1..], b[1..])
  {
    hide DiffersAt, ProperPrefix;
    PrefixTail(a, b);
    NotAtFirst(a, b);
    if k: nat :| DiffersAt(a, b, k) {
      DiffersTail(a, b, k);
    }
    if k: nat :| DiffersAt(a[1..], b[1..], k) {
      DiffersTail(a, b, k + 1);
    }
  }

  lemma NotAtFirst(a: string, b: string)
    requires a != "" && b != "" && a[0] == b[0]
    ensures !DiffersAt(a, b, 0)
  {
  }

  lemma FirstDiffers(a: string, b: string)
    requires a != "" && b != "" && a[0] != b[0]
    ensures Precedes(a, b) <==> a[0] < b[0]
  {
    if |a| < |b| {
      assert b[..|a|][0] == b[0];
    }
    assert a[..0] == b[..0];
    assert DiffersAt(a, b, 0) <==> a[0] < b[0];
    forall k: nat | 0 < k
      ensures !DiffersAt(a, b, k)
    {
      if k < |a| && k < |b| {
        assert a[..k][0] != b[..k][0];
      }
    }
  }

  lemma {:induction false} StringLessIsLexicographic(a: string, b: string)
    ensures StringLess(a, b) <==> Precedes(a, b)
    decreases |a|
  {
    if a != "" && b != "" {
      hide Precedes;
      if a[0] == b[0] {
        StringLessIsLexicographic(a[1..], b[1..]);
        PrecedesTail(a, b);
      } else {
        FirstDiffers(a, b);
      }
    }
  }

  predicate LessResult(a: SpeedResult, b: SpeedResult, key: SortKey) {
    if a.error != "" && b.error != "" then StringLess(a.peer, b.peer)
    else if a.error != "" then false
    else if b.error != "" then true
    else match key
      case ByPing => PingOf(a.pingMs) < PingOf(b.pingMs)
      case ByHandshake => PingOf(a.handshakeMs) < PingOf(b.handshakeMs)
      case ByPeak => SpeedOf(a.peakMbps) > SpeedOf(b.peakMbps)
      case BySpeed => SpeedOf(a.downloadMbps) > SpeedOf(b.downloadMbps)
  }

  // ----- orders -------------------------------------------------------------

  /** A strict weak order: ties form classes, and the classes are ranked. */
  ghost predicate StrictWeak<T(!new)>(less: (T, T) -> bool) {
    && (forall a :: !less(a, a))
    && (forall a, b, c :: less(a, b) && less(b, c) ==> less(a, c))
    && (forall a, b, c :: less(a, c) ==> less(a, b) || less(b, c))
  }

  lemma {:induction false} StringLessIsStrict(a: string, b: string, c: string)
    ensures !StringLess(a, a)
    ensures StringLess(a, b) && StringLess(b, c) ==> StringLess(a, c)
    ensures StringLess(a, c) ==> StringLess(a, b) || StringLess(b, c)
    ensures a != b ==> StringLess(a, b) || StringLess(b, a)
    decreases |a| + |b| + |c|
  {
    if a != "" && b != "" && c != "" {
      StringLessIsStrict(a[1..], b[1..], c[1..]);
      if a[0] == b[0] && a != b {
        assert a == [a[0]] + a[1..] && b == [b[0]] + b[1..];
      }
    } else {
      if a != "" {
        StringLessIsStrict(a[1..], if b == "" then b else b[1..], if c == "" then c else c[1..]);
      }
      if a != "" && b != "" && a != b {
        assert a == [a[0]] + a[1..] && b == [b[0]] + b[1..];
      }
    }
  }

  function Less(key: SortKey): (SpeedResult, SpeedResult) -> bool {
    (a, b) => LessResult(a, b, key)
  }

  /** lessResult is a strict weak order for every key, so a stable sort by it is well defined. */
  lemma LessIsStrictWeak(key: SortKey)
    ensures StrictWeak(Less(key))
  {
    forall a: SpeedResult, b: SpeedResult, c: SpeedResult
      ensures !Less(key)(a, a)
      ensures Less(key)(a, b) && Less(key)(b, c) ==> Less(key)(a, c)
      ensures Less(key)(a, c) ==> Less(key)(a, b) || Less(key)(b, c)
    {
      StringLessIsStrict(a.peer, b.peer, c.peer);
    }
  }

  // ----- the stable sort ----------------------------------------------------

  function Insert<T>(x: T, s: seq<T>, less: (T, T) -> bool): seq<T> {
    if s == [] || !less(s[0], x) then [x] + s else [s[0]] + Insert(x, s[1..], less)
  }

  /** The stable sort: each element goes in front of the first later element it does not follow. */
  function Sort<T>(s: seq<T>, less: (T, T) -> bool): seq<T> {
    if s == [] then [] else Insert(s[0], Sort(s[1..], less), less)
  }

  ghost predicate Ordered<T>(s: seq<T>, less: (T, T) -> bool) {
    forall i, j :: 0 <= i < j < |s| ==> !less(s[j], s[i])
  }

  function Filter<T>(s: seq<T>, keep: T -> bool): seq<T> {
    if s == [] then [] else (if keep(s[0]) then [s[0]] else []) + Filter(s[1..], keep)
  }

  /** The elements tied with x. */
  function Tie<T>(x: T, less: (T, T) -> bool): T -> bool {
    y => !less(x, y) && !less(y, x)
  }

  /** What makes r the stable sort of s: r is in order, and each class of ties keeps its sequence. */
  ghost predicate StableSortOf<T(!new)>(s: seq<T>, r: seq<T>, less: (T, T) -> bool) {
    && Ordered(r, less)
    && forall x :: Filter(r, Tie(x, less)) == Filter(s, Tie(x, less))
  }

  lemma {:induction false} FilterConcat<T>(a: seq<T>, b: seq<T>, keep: T -> bool)
    ensures Filter(a + b, keep) == Filter(a, keep) + Filter(b, keep)
  {
    if a == [] {
      assert a + b == b;
    } else {
      FilterConcat(a[1..], b, keep);
      assert (a + b)[1..] == a[1..] + b;
      var first := if keep(a[0]) then [a[0]] else [];
      assert first + (Filter(a[1..], keep) + Filter(b, keep)) == (first + Filter(a[1..], keep)) + Filter(b, keep);
    }
  }

  lemma {:induction false} FilterMembers<T>(s: seq<T>, keep: T -> bool)
    ensures forall x :: x in Filter(s, keep) <==> x in s && keep(x)
  {
    if s != [] {
      FilterMembers(s[1..], keep);
    }
  }

  lemma {:induction false} InsertMembers<T>(x: T, s: seq<T>, less: (T, T) -> bool)
    ensures forall y :: y in Insert(x, s, less) <==> y == x || y in s
    ensures multiset(Insert(x, s, less)) == multiset(s) + multiset{x}
  {
    if s != [] && less(s[0], x) {
      InsertMembers(x, s[1..], less);
      assert s == [s[0]] + s[1..];
    }
  }

  lemma OrderedCons<T(!new)>(x: T, s: seq<T>, less: (T, T) -> bool)
    requires Ordered(s, less) && forall y | y in s :: !less(y, x)
    ensures Ordered([x] + s, less)
  {
  }

  lemma OrderedTail<T(!new)>(s: seq<T>, less: (T, T) -> bool)
    requires s != [] && Ordered(s, less)
    ensures Ordered(s[1..], less) && forall y | y in s[1..] :: !less(y, s[0])
  {
  }

  lemma {:induction false} InsertOrdered<T(!new)>(x: T, s: seq<T>, less: (T, T) -> bool)
    requires StrictWeak(less) && Ordered(s, less)
    ensures Ordered(Insert(x, s, less), less)
  {
    if s == [] || !less(s[0], x) {
      forall y | y in s
        ensures !less(y, x)
      {
        OrderedTail(s, less);
      }
      OrderedCons(x, s, less);
    } else {
      OrderedTail(s, less);
      InsertOrdered(x, s[1..], less);
      InsertMembers(x, s[1..], less);
      OrderedCons(s[0], Insert(x, s[1..], less), less);
    }
  }

  lemma {:induction false} SortOrdered<T(!new)>(s: seq<T>, less: (T, T) -> bool)
    requires StrictWeak(less)
    ensures Ordered(Sort(s, less), less) && multiset(Sort(s, less)) == multiset(s)
  {
    if s != [] {
      SortOrdered(s[1..], less);
      InsertOrdered(s[0], Sort(s[1..], less), less);
      InsertMembers(s[0], Sort(s[1..], less), less);
      assert s == [s[0]] + s[1..];
    }
  }

  /** Keeping some elements of an insertion is an insertion into the kept ones. */
  lemma {:induction false} InsertFilter<T(!new)>(x: T, s: seq<T>, keep: T -> bool, less: (T, T) -> bool)
    requires StrictWeak(less) && Ordered(s, less)
    ensures Filter(Insert(x, s, less), keep)
         == if keep(x) then Insert(x, Filter(s, keep), less) else Filter(s, keep)
  {
    if s == [] || !less(s[0], x) {
      assert ([x] + s)[1..] == s;
      var kept := Filter(s, keep);
      FilterMembers(s, keep);
      if kept != [] {
        assert kept[0] in s;
        OrderedTail(s, less);
      }
    } else {
      OrderedTail(s, less);
      InsertFilter(x, s[1..], keep, less);
      var inserted := [s[0]] + Insert(x, s[1..], less);
      assert inserted[1..] == Insert(x, s[1..], less);
      if keep(s[0]) {
        var kept := [s[0]] + Filter(s[1..], keep);
        assert kept[1..] == Filter(s[1..], keep);
      } else {
        assert Filter(s, keep) == Filter(s[1..], keep);
      }
    }
  }

  /** Filtering commutes with sorting. */
  lemma {:induction false} SortFilter<T(!new)>(s: seq<T>, keep: T -> bool, less: (T, T) -> bool)
    requires StrictWeak(less)
    ensures Filter(Sort(s, less), keep) == Sort(Filter(s, keep), less)
  {
    if s != [] {
      SortFilter(s[1..], keep, less);
      SortOrdered(s[1..], less);
      InsertFilter(s[0], Sort(s[1..], less), keep, less);
      if keep(s[0]) {
        assert ([s[0]] + Filter(s[1..], keep))[1..] == Filter(s[1..], keep);
      } else {
        assert Filter(s, keep) == Filter(s[1..], keep);
      }
    }
  }

  /** A sequence in which all elements tie is left alone. */
  lemma {:induction false} SortTies<T(!new)>(s: seq<T>, less: (T, T) -> bool)
    requires forall a, b | a in s && b in s :: !less(a, b)
    ensures Sort(s, less) == s
  {
    if s != [] {
      SortTies(s[1..], less);
      assert s == [s[0]] + s[1..];
    }
  }

  lemma SortIsStable<T(!new)>(s: seq<T>, less: (T, T) -> bool)
    requires StrictWeak(less)
    ensures StableSortOf(s, Sort(s, less), less)
  {
    SortOrdered(s, less);
    forall x
      ensures Filter(Sort(s, less), Tie(x, less)) == Filter(s, Tie(x, less))
    {
      SortFilter(s, Tie(x, less), less);
      FilterMembers(s, Tie(x, less));
      SortTies(Filter(s, Tie(x, less)), less);
    }
  }

  lemma TailStable<T(!new)>(r: seq<T>, q: seq<T>, less: (T, T) -> bool)
    requires r != [] && q != [] && r[0] == q[0]
    requires forall x :: Filter(r, Tie(x, less)) == Filter(q, Tie(x, less))
    ensures forall x :: Filter(r[1..], Tie(x, less)) == Filter(q[1..], Tie(x, less))
  {
    forall x
      ensures Filter(r[1..], Tie(x, less)) == Filter(q[1..], Tie(x, less))
    {
      var keep := Tie(x, less);
      var a, b := Filter(r[1..], keep), Filter(q[1..], keep);
      assert Filter(r, keep) == Filter(q, keep);
      if keep(r[0]) {
        assert ([r[0]] + a)[1..] == a && ([q[0]] + b)[1..] == b;
      } else {
        assert [] + a == a && [] + b == b;
      }
    }
  }

  lemma HeadsAgree<T(!new)>(r: seq<T>, q: seq<T>, less: (T, T) -> bool)
    requires StrictWeak(less) && Ordered(r, less) && Ordered(q, less) && r != []
    requires forall x :: Filter(r, Tie(x, less)) == Filter(q, Tie(x, less))
    ensures q != [] && q[0] == r[0]
  {
    var keep := Tie(r[0], less);
    assert Filter(r, keep) == Filter(q, keep);
    FilterMembers(q, keep);
    assert Filter(r, keep)[0] == r[0];
    assert r[0] in q;
    var other := Tie(q[0], less);
    assert Filter(r, other) == Filter(q, other);
    FilterMembers(r, other);
    assert Filter(q, other)[0] == q[0];
    assert q[0] in r;
    assert keep(q[0]);
    assert Filter(q, keep)[0] == q[0];
  }

  /** The stable sort is unique. */
  lemma {:induction false} StableSortUnique<T(!new)>(r: seq<T>, q: seq<T>, less: (T, T) -> bool)
    requires StrictWeak(less) && Ordered(r, less) && Ordered(q, less)
    requires forall x :: Filter(r, Tie(x, less)) == Filter(q, Tie(x, less))
    ensures r == q
  {
    if r != [] {
      HeadsAgree(r, q, less);
      TailStable(r, q, less);
      OrderedTail(r, less);
      OrderedTail(q, less);
      StableSortUnique(r[1..], q[1..], less);
      assert r == [r[0]] + r[1..] && q == [q[0]] + q[1..];
    } else if q != [] {
      HeadsAgree(q, r, less);
    }
  }

  lemma StableSortIsSort<T(!new)>(s: seq<T>, r: seq<T>, less: (T, T) -> bool)
    requires StrictWeak(less) && StableSortOf(s, r, less)
    ensures r == Sort(s, less)
  {
    SortIsStable(s, less);
    StableSortUnique(r, Sort(s, less), less);
  }

  // ----- sorting in place ---------------------------------------------------

  lemma SwapKeepsClasses<T(!new)>(p: seq<T>, u: T, v: T, q: seq<T>, less: (T, T) -> bool)
    requires StrictWeak(less) && less(v, u)
    ensures forall x :: Filter(p + [u, v] + q, Tie(x, less)) == Filter(p + [v, u] + q, Tie(x, less))
  {
    forall x
      ensures Filter(p + [u, v] + q, Tie(x, less)) == Filter(p + [v, u] + q, Tie(x, less))
    {
      var keep := Tie(x, less);
      FilterConcat(p + [u, v], q, keep);
      FilterConcat(p, [u, v], keep);
      FilterConcat(p + [v, u], q, keep);
      FilterConcat(p, [v, u], keep);
      assert [u, v] == [u] + [v] && [v, u] == [v] + [u];
      FilterConcat([u], [v], keep);
      FilterConcat([v], [u], keep);
      assert !(keep(u) && keep(v));
    }
  }

  /** The prefix up to i is in order but for the element at j, which may still have to move down. */
  ghost predicate OrderedBut<T>(s: seq<T>, i: nat, j: nat, less: (T, T) -> bool) {
    j <= i < |s| && forall p, q :: 0 <= p < q <= i && q != j ==> !less(s[q], s[p])
  }

  lemma MoveDown<T(!new)>(s: seq<T>, r: seq<T>, i: nat, j: nat, less: (T, T) -> bool)
    requires StrictWeak(less) && OrderedBut(s, i, j, less) && j > 0 && less(s[j], s[j - 1])
    requires r == s[j := s[j - 1]][j - 1 := s[j]]
    ensures OrderedBut(r, i, j - 1, less)
  {
  }

  lemma InPlace<T(!new)>(s: seq<T>, i: nat, j: nat, less: (T, T) -> bool)
    requires StrictWeak(less) && OrderedBut(s, i, j, less) && (j > 0 ==> !less(s[j], s[j - 1]))
    ensures Ordered(s[..i + 1], less)
  {
    forall p | 0 <= p < j
      ensures !less(s[j], s[p])
    {
      assert p < j - 1 ==> !less(s[j - 1], s[p]);
    }
  }

  /** SortResults: the slice is sorted in place, here by the insertion steps of the library's stable sort. */
  method SortResults(a: array<SpeedResult>, sortBy: string)
    modifies a
    ensures a[..] == Sort(old(a[..]), Less(KeyOf(sortBy)))
  {
    hide StrictWeak, LessResult, KeyOf;
    var key := KeyOf(sortBy);
    ghost var less := Less(key);
    LessIsStrictWeak(key);
    var i := 0;
    while i < a.Length
      invariant 0 <= i <= a.Length
      invariant Ordered(a[..i], less)
      invariant forall x :: Filter(a[..], Tie(x, less)) == Filter(old(a[..]), Tie(x, less))
    {
      var j := i;
      while j > 0 && LessResult(a[j], a[j - 1], key)
        invariant OrderedBut(a[..], i, j, less)
        invariant forall x :: Filter(a[..], Tie(x, less)) == Filter(old(a[..]), Tie(x, less))
      {
        ghost var s := a[..];
        a[j], a[j - 1] := a[j - 1], a[j];
        assert a[..] == s[j := s[j - 1]][j - 1 := s[j]];
        MoveDown(s, a[..], i, j, less);
        SwapKeepsClasses(s[..j - 1], s[j - 1], s[j], s[j + 1..], less);
        assert s == s[..j - 1] + [s[j - 1], s[j]] + s[j + 1..];
        assert a[..] == s[..j - 1] + [s[j], s[j - 1]] + s[j + 1..];
        j := j - 1;
      }
      InPlace(a[..], i, j, less);
      assert a[..][..i + 1] == a[..i + 1];
      i := i + 1;
    }
    assert a[..i] == a[..];
    StableSortIsSort(old(a[..]), a[..], less);
  }

  // ----- subsequences -------------------------------------------------------

  function Tagged<T>(s: seq<T>): seq<(nat, T)> {
    seq(|s|, i requires 0 <= i < |s| => (i, s[i]))
  }

  function Untagged<T>(s: seq<(nat, T)>): seq<T> {
    seq(|s|, i requires 0 <= i < |s| => s[i].1)
  }

  function LessTagged<T>(less: (T, T) -> bool): ((nat, T), (nat, T)) -> bool {
    (a: (nat, T), b: (nat, T)) => less(a.1, b.1)
  }

  lemma {:induction false} InsertUntagged<T>(x: (nat, T), s: seq<(nat, T)>, less: (T, T) -> bool)
    ensures Untagged(Insert(x, s, LessTagged(less))) == Insert(x.1, Untagged(s), less)
  {
    if s != [] && less(s[0].1, x.1) {
      InsertUntagged(x, s[1..], less);
      assert Untagged(s)[1..] == Untagged(s[1..]);
      var inserted := Insert(x, s[1..], LessTagged(less));
      assert Untagged([s[0]] + inserted) == [s[0].1] + Untagged(inserted);
    } else {
      assert Untagged([x] + s) == [x.1] + Untagged(s);
    }
  }

  /** Sorting does not look at the tags. */
  lemma {:induction false} SortUntagged<T>(s: seq<(nat, T)>, less: (T, T) -> bool)
    ensures Untagged(Sort(s, LessTagged(less))) == Sort(Untagged(s), less)
  {
    if s != [] {
      SortUntagged(s[1..], less);
      assert Untagged(s)[1..] == Untagged(s[1..]);
      InsertUntagged(s[0], Sort(s[1..], LessTagged(less)), less);
    }
  }

  lemma StrictWeakAt<T(!new)>(less: (T, T) -> bool, a: T, b: T, c: T)
    requires StrictWeak(less)
    ensures !less(a, a)
    ensures less(a, b) && less(b, c) ==> less(a, c)
    ensures less(a, c) ==> less(a, b) || less(b, c)
  {
  }

  lemma TaggedIsStrictWeak<T(!new)>(less: (T, T) -> bool)
    requires StrictWeak(less)
    ensures StrictWeak(LessTagged(less))
  {
    var tagged := LessTagged(less);
    forall a: (nat, T), b: (nat, T), c: (nat, T)
      ensures !tagged(a, a)
      ensures tagged(a, b) && tagged(b, c) ==> tagged(a, c)
      ensures tagged(a, c) ==> tagged(a, b) || tagged(b, c)
    {
      StrictWeakAt(less, a.1, b.1, c.1);
    }
  }

  function AtPositions<T>(kept: set<nat>): ((nat, T)) -> bool {
    (x: (nat, T)) => x.0 in kept
  }

  /** The elements of s at the kept positions, in their order. */
  function Subsequence<T>(s: seq<T>, kept: set<nat>): seq<T> {
    Untagged(Filter(Tagged(s), AtPositions(kept)))
  }

  /** An interrupted run and a full run rank their common results alike: the ranking of the results at some
      positions is what the full ranking shows of those positions. */
  lemma SubsequenceRanksAlike<T(!new)>(s: seq<T>, kept: set<nat>, less: (T, T) -> bool)
    requires StrictWeak(less)
    ensures Untagged(Sort(Tagged(s), LessTagged(less))) == Sort(s, less)
    ensures Sort(Subsequence(s, kept), less) == Untagged(Filter(Sort(Tagged(s), LessTagged(less)), AtPositions(kept)))
  {
    TaggedIsStrictWeak(less);
    SortUntagged(Tagged(s), less);
    assert Untagged(Tagged(s)) == s;
    SortFilter(Tagged(s), AtPositions(kept), LessTagged(less));
    SortUntagged(Filter(Tagged(s), AtPositions(kept)), less);
  }

  // ----- thresholds ---------------------------------------------------------

  /** A missing measurement fails a threshold that is set. */
  predicate PassesFilters(r: SpeedResult, minSpeed: real, maxPing: real) {
    && !(minSpeed > 0.0 && (r.downloadMbps.None? || r.downloadMbps.value < minSpeed))
    && !(maxPing > 0.0 && (r.pingMs.None? || r.pingMs.value > maxPing))
  }

  predicate Failed(r: SpeedResult) {
    r.error != ""
  }

  function Survives(minSpeed: real, maxPing: real): SpeedResult -> bool {
    r => Failed(r) || PassesFilters(r, minSpeed, maxPing)
  }

  lemma {:induction false} FilterAll<T>(s: seq<T>, keep: T -> bool)
    requires forall x | x in s :: keep(x)
    ensures Filter(s, keep) == s
  {
    if s != [] {
      FilterAll(s[1..], keep);
      assert s == [s[0]] + s[1..];
    }
  }

  /** finishRun: thresholds first, then the ranking. */
  method FinishRun(results: seq<SpeedResult>, minSpeed: real, maxPing: real, sortBy: string)
    returns (out: seq<SpeedResult>)
    ensures out == Sort(Filter(results, Survives(minSpeed, maxPing)), Less(KeyOf(sortBy)))
  {
    hide KeyOf, Sort;
    var kept := results;
    if minSpeed > 0.0 || maxPing > 0.0 {
      kept := [];
      ghost var survives := Survives(minSpeed, maxPing);
      for i := 0 to |results|
        invariant kept == Filter(results[..i], survives)
      {
        var r := results[i];
        assert results[..i + 1] == results[..i] + [r];
        FilterConcat(results[..i], [r], survives);
        if r.error != "" {
          kept := kept + [r];
          continue;
        }
        if !PassesFilters(r, minSpeed, maxPing) {
          continue;
        }
        kept := kept + [r];
      }
      assert results[..|results|] == results;
    } else {
      FilterAll(results, Survives(minSpeed, maxPing));
    }
    var a := new SpeedResult[|kept|](i requires 0 <= i < |kept| => kept[i]);
    assert a[..] == kept;
    SortResults(a, sortBy);
    out := a[..];
  }

  /** Thresholds and ranking commute, and the thresholds never drop a failure: the failures of a finished
      run are those measured, ranked. */
  lemma FilterThenSort(results: seq<SpeedResult>, minSpeed: real, maxPing: real, key: SortKey)
    ensures var keep := Survives(minSpeed, maxPing);
      && Sort(Filter(results, keep), Less(key)) == Filter(Sort(results, Less(key)), keep)
      && Filter(Sort(Filter(results, keep), Less(key)), Failed) == Sort(Filter(results, Failed), Less(key))
  {
    var keep := Survives(minSpeed, maxPing);
    LessIsStrictWeak(key);
    SortFilter(results, keep, Less(key));
    SortFilter(Filter(results, keep), Failed, Less(key));
    FilterFilter(results, keep, Failed);
  }

  lemma {:induction false} FilterFilter<T>(s: seq<T>, keep: T -> bool, only: T -> bool)
    requires forall x | x in s && only(x) :: keep(x)
    ensures Filter(Filter(s, keep), only) == Filter(s, only)
  {
    if s != [] {
      FilterFilter(s[1..], keep, only);
      if keep(s[0]) {
        assert ([s[0]] + Filter(s[1..], keep))[1..] == Filter(s[1..], keep);
      } else {
        assert Filter(s, keep) == Filter(s[1..], keep);
        assert Filter(s, only) == Filter(s[1..], only);
      }
    }
  }

  lemma {:induction false} SortMembers<T(!new)>(s: seq<T>, less: (T, T) -> bool)
    ensures forall x :: x in Sort(s, less) <==> x in s
  {
    if s != [] {
      SortMembers(s[1..], less);
      InsertMembers(s[0], Sort(s[1..], less), less);
      assert s == [s[0]] + s[1..];
    }
  }

  /** A result is in the ranking exactly when it was measured and either failed or, where a threshold is set,
      has a measurement on the right side of it. */
  lemma RankedIffQualified(results: seq<SpeedResult>, minSpeed: real, maxPing: real, key: SortKey, x: SpeedResult)
    ensures x in Sort(Filter(results, Survives(minSpeed, maxPing)), Less(key)) <==>
            && x in results
            && (|| x.error != ""
                || ((minSpeed <= 0.0 || exists v :: x.downloadMbps == Some(v) && v >= minSpeed)
                    && (maxPing <= 0.0 || exists v :: x.pingMs == Some(v) && v <= maxPing)))
  {
    FilterMembers(results, Survives(minSpeed, maxPing));
    SortMembers(Filter(results, Survives(minSpeed, maxPing)), Less(key));
    assert x.downloadMbps.Some? ==> x.downloadMbps == Some(x.downloadMbps.value);
    assert x.pingMs.Some? ==> x.pingMs == Some(x.pingMs.value);
  }

  /** At least as fast: a missing speed counts as none at all. */
  predicate Faster(a: Option<real>, b: Option<real>) {
    match (a, b)
    case (Some(x), Some(y)) => x >= y
    case (Some(x), None) => x >= 0.0
    case (None, Some(y)) => y <= 0.0
    case (None, None) => true
  }

  /** At least as soon: a missing time counts as 2^30 milliseconds. */
  predicate Sooner(a: Option<real>, b: Option<real>) {
    match (a, b)
    case (Some(x), Some(y)) => x <= y
    case (Some(x), None) => x <= 1073741824.0
    case (None, Some(y)) => y >= 1073741824.0
    case (None, None) => true
  }

  /** Among the successes the named measurement never gets worse down the ranking, whatever the letter case
      of the name; any other name ranks by average speed. */
  lemma RankedByMeasure(results: seq<SpeedResult>, sortBy: string, i: nat, j: nat)
    requires i < j < |Sort(results, Less(KeyOf(sortBy)))|
    ensures var r, k := Sort(results, Less(KeyOf(sortBy))), ToLower(sortBy);
      r[i].error == "" && r[j].error == "" ==>
        if k == "ping" then Sooner(r[i].pingMs, r[j].pingMs)
        else if k == "handshake" then Sooner(r[i].handshakeMs, r[j].handshakeMs)
        else if k == "peak" then Faster(r[i].peakMbps, r[j].peakMbps)
        else Faster(r[i].downloadMbps, r[j].downloadMbps)
  {
    hide ToLower, Sort;
    var key := KeyOf(sortBy);
    LessIsStrictWeak(key);
    SortOrdered(results, Less(key));
    var r := Sort(results, Less(key));
    assert !Less(key)(r[j], r[i]);
  }

  predicate SameSpeed(a: Option<real>, b: Option<real>) {
    Faster(a, b) && Faster(b, a)
  }

  predicate SameTime(a: Option<real>, b: Option<real>) {
    Sooner(a, b) && Sooner(b, a)
  }

  /** What a tie is, whose order the stable sort keeps: two failures of one peer, or two successes with the same
      named measurement. */
  lemma TiesAre(a: SpeedResult, b: SpeedResult, sortBy: string)
    ensures var less, k := Less(KeyOf(sortBy)), ToLower(sortBy);
      !less(a, b) && !less(b, a) <==>
        || (a.error != "" && b.error != "" && a.peer == b.peer)
        || (a.error == "" && b.error == ""
            && if k == "ping" then SameTime(a.pingMs, b.pingMs)
               else if k == "handshake" then SameTime(a.handshakeMs, b.handshakeMs)
               else if k == "peak" then SameSpeed(a.peakMbps, b.peakMbps)
               else SameSpeed(a.downloadMbps, b.downloadMbps))
  {
    hide ToLower, StringLess;
    StringLessIsStrict(a.peer, b.peer, a.peer);
  }

  /** In a ranking the failures form the tail, in the lexicographic order of their peers. */
  lemma FailuresAreTheTail(results: seq<SpeedResult>, key: SortKey)
    ensures var r := Sort(results, Less(key));
      forall i, j :: 0 <= i < j < |r| && r[i].error != "" ==>
        r[j].error != "" && (r[i].peer == r[j].peer || Precedes(r[i].peer, r[j].peer))
  {
    hide Precedes;
    LessIsStrictWeak(key);
    SortOrdered(results, Less(key));
    var r := Sort(results, Less(key));
    forall i, j | 0 <= i < j < |r| && r[i].error != ""
      ensures r[j].error != "" && (r[i].peer == r[j].peer || Precedes(r[i].peer, r[j].peer))
    {
      assert !Less(key)(r[j], r[i]);
      StringLessIsStrict(r[i].peer, r[j].peer, r[i].peer);
      StringLessIsLexicographic(r[i].peer, r[j].peer);
    }
  }

  /** A missing ping ranks below a measured one exactly when that one is under 2^30 ms: the placeholder is
      a large number, not the worst value. */
  lemma MissingPingRanksLast(a: SpeedResult, b: SpeedResult)
    requires !Failed(a) && !Failed(b) && a.pingMs.Some? && b.pingMs.None?
    ensures LessResult(a, b, ByPing) <==> a.pingMs.value < 1073741824.0
    ensures LessResult(b, a, ByPing) <==> a.pingMs.value > 1073741824.0
  {
  }
}
