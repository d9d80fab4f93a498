/** Vocabulary shared by every component: optional values, Rust's fixed-width integers and
    sums over finite collections. */
module Base {
  datatype Option<+T> = None | Some(value: T)

  datatype Result<+T, +E> = Ok(value: T) | Err(error: E)

  // ---------------------------------------------------------------- fixed-width integers

  const TWO_63: int := 0x8000_0000_0000_0000
  const TWO_64: int := 0x1_0000_0000_0000_0000

  predicate IsI64(x: int) {
    -TWO_63 <= x < TWO_63
  }

  predicate IsU64(x: int) {
    0 <= x < TWO_64
  }

  /** The i64 congruent to `x` modulo 2^64: `as i64`, and wrapping i64 arithmetic. */
  function ToI64(x: int): (r: int)
    ensures IsI64(r)
    ensures IsI64(x) ==> r == x
  {
    (x + TWO_63) % TWO_64 - TWO_63
  }

  /** The u64 congruent to `x` modulo 2^64: `as u64`, and wrapping u64 arithmetic. */
  function ToU64(x: int): (r: int)
    ensures IsU64(r)
    ensures IsU64(x) ==> r == x
  {
    x % TWO_64
  }

  /** Rust's signed division, which truncates toward zero. */
  function TruncDiv(a: int, b: int): int
    requires b > 0
  {
    if a >= 0 then a / b else -((-a) / b)
  }

  function Max(a: int, b: int): int {
    if a >= b then a else b
  }

  // ---------------------------------------------------------------- sums

  function SumSeq<T>(s: seq<T>, f: T -> int): int {
    if s == [] then 0 else SumSeq(s[..|s| - 1], f) + f(s[|s| - 1])
  }

  lemma {:induction false} SumSeqConcat<T>(s: seq<T>, t: seq<T>, f: T -> int)
    ensures SumSeq(s + t, f) == SumSeq(s, f) + SumSeq(t, f)
    decreases |t|
  {
    if t == [] {
      assert s + t == s;
    } else {
      SumSeqConcat(s, t[..|t| - 1], f);
      assert (s + t)[..|s + t| - 1] == s + t[..|t| - 1];
    }
  }

  lemma SumSeqHead<T>(s: seq<T>, f: T -> int)
    requires s != []
    ensures SumSeq(s, f) == f(s[0]) + SumSeq(s[1..], f)
  {
    SumSeqConcat([s[0]], s[1..], f);
    assert s == [s[0]] + s[1..];
    assert SumSeq([s[0]], f) == f(s[0]) by {
      assert [s[0]][..0] == [];
    }
  }

  lemma SumSeqPush<T>(s: seq<T>, x: T, f: T -> int)
    ensures SumSeq(s + [x], f) == SumSeq(s, f) + f(x)
  {
    assert (s + [x])[..|s|] == s;
  }

  lemma SumSeqSplit<T>(pre: seq<T>, x: T, post: seq<T>, f: T -> int)
    ensures SumSeq(pre + [x] + post, f) == SumSeq(pre, f) + f(x) + SumSeq(post, f)
  {
    hide SumSeq;
    SumSeqPush(pre, x, f);
    SumSeqConcat(pre + [x], post, f);
  }

  function RemoveAt<T>(s: seq<T>, i: nat): (r: seq<T>)
    requires i < |s|
    ensures |r| == |s| - 1
  {
    s[..i] + s[i + 1..]
  }

  lemma RemoveAtBag<T>(s: seq<T>, i: nat)
    requires i < |s|
    ensures multiset(RemoveAt(s, i)) == multiset(s) - multiset{s[i]}
  {
    RemoveAtSplit(s, i);
  }

  lemma SumSeqRemove<T>(s: seq<T>, i: nat, f: T -> int)
    requires i < |s|
    ensures SumSeq(RemoveAt(s, i), f) == SumSeq(s, f) - f(s[i])
  {
    hide SumSeq, RemoveAt;
    var r := RemoveAt(s, i);
    RemoveAtSplit(s, i);
    SumSeqSplit(s[..i], s[i], s[i + 1..], f);
    SumSeqConcat(s[..i], s[i + 1..], f);
  }

  lemma RemoveAtSplit<T>(s: seq<T>, i: nat)
    requires i < |s|
    ensures s == s[..i] + [s[i]] + s[i + 1..]
    ensures RemoveAt(s, i) == s[..i] + s[i + 1..]
  {
  }

  lemma {:induction false} SumSeqNonNegative<T>(s: seq<T>, f: T -> int)
    requires forall x :: x in s ==> f(x) >= 0
    ensures SumSeq(s, f) >= 0
  {
    if s != [] {
      SumSeqNonNegative(s[..|s| - 1], f);
    }
  }

  /** A sum without negative terms is zero exactly when all of its terms are. */
  lemma {:induction false} SumSeqZeroIff<T>(s: seq<T>, f: T -> int)
    requires forall x :: x in s ==> f(x) >= 0
    ensures SumSeq(s, f) == 0 <==> forall x :: x in s ==> f(x) == 0
  {
    if s != [] {
      var init, last := s[..|s| - 1], s[|s| - 1];
      assert s == init + [last];
      SumSeqZeroIff(init, f);
      SumSeqNonNegative(init, f);
    }
  }

  ghost function SumBag<T(!new)>(m: multiset<T>, f: T -> int): int
    decreases |m|
  {
    if m == multiset{} then 0
    else
      var x :| x in m;
      f(x) + SumBag(m - multiset{x}, f)
  }

  /** The sum does not depend on the order in which the elements are picked. */
  lemma {:induction false} SumBagRemove<T(!new)>(m: multiset<T>, x: T, f: T -> int)
    requires x in m
    ensures SumBag(m - multiset{x}, f) == SumBag(m, f) - f(x)
    decreases |m|
  {
    var y :| y in m && SumBag(m, f) == f(y) + SumBag(m - multiset{y}, f);
    if y != x {
      var a, b := m - multiset{y}, m - multiset{x};
      assert x in a && y in b && a - multiset{x} == b - multiset{y};
      hide SumBag;
      SumBagRemove(a, x, f);
      SumBagRemove(b, y, f);
    }
  }

  lemma SumBagAdd<T(!new)>(m: multiset<T>, x: T, f: T -> int)
    ensures SumBag(m + multiset{x}, f) == SumBag(m, f) + f(x)
  {
    SumBagRemove(m + multiset{x}, x, f);
    assert m + multiset{x} - multiset{x} == m;
  }

  lemma {:induction false} SumBagNonNegative<T(!new)>(m: multiset<T>, f: T -> int)
    requires forall x :: x in m ==> f(x) >= 0
    ensures SumBag(m, f) >= 0
    decreases |m|
  {
    if m != multiset{} {
      var x :| x in m && SumBag(m, f) == f(x) + SumBag(m - multiset{x}, f);
      SumBagNonNegative(m - multiset{x}, f);
    }
  }

  lemma {:induction false} SumBagZero<T(!new)>(m: multiset<T>, f: T -> int)
    requires forall x :: x in m ==> f(x) == 0
    ensures SumBag(m, f) == 0
    decreases |m|
  {
    if m != multiset{} {
      var x :| x in m && SumBag(m, f) == f(x) + SumBag(m - multiset{x}, f);
      SumBagZero(m - multiset{x}, f);
    }
  }

  ghost function SumMap<K(!new), V>(m: map<K, V>, f: (K, V) -> int): int
    decreases |m|
  {
    if m == map[] then 0
    else
      var k :| k in m;
      f(k, m[k]) + SumMap(m - {k}, f)
  }

  lemma {:induction false} SumMapRemove<K(!new), V>(m: map<K, V>, k: K, f: (K, V) -> int)
    requires k in m
    ensures SumMap(m - {k}, f) == SumMap(m, f) - f(k, m[k])
    decreases |m|
  {
    var y :| y in m && SumMap(m, f) == f(y, m[y]) + SumMap(m - {y}, f);
    if y != k {
      SumMapRemove(m - {y}, k, f);
      SumMapRemove(m - {k}, y, f);
      assert m - {y} - {k} == m - {k} - {y};
    }
  }

  lemma SumMapUpsert<K(!new), V>(m: map<K, V>, k: K, v: V, f: (K, V) -> int)
    ensures SumMap(m[k := v], f) == SumMap(m, f) - (if k in m then f(k, m[k]) else 0) + f(k, v)
  {
    SumMapRemove(m[k := v], k, f);
    if k in m {
      SumMapRemove(m, k, f);
      assert m[k := v] - {k} == m - {k};
    } else {
      assert m[k := v] - {k} == m;
    }
  }
}
