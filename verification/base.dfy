/**
 * Helpers shared by every revision of the engine: an optional value,
 * sequence filtering and reversal, in-place swap on a sequence value,
 * Go's truncating remainder and Go's decimal formatting of an `int`.
 */
module Base {

  datatype Option<+T> = None | Some(value: T)

  /** The elements of `s` that satisfy `p`, in their original order. */
  function Filter<T>(s: seq<T>, p: T -> bool): (r: seq<T>)
    ensures |r| <= |s|
    ensures forall x :: x in r ==> x in s && p(x)
    ensures forall x :: x in s && p(x) ==> x in r
  {
    if s == [] then []
    else
      var init := s[..|s| - 1];
      assert s == init + [s[|s| - 1]];
      Filter(init, p) + (if p(s[|s| - 1]) then [s[|s| - 1]] else [])
  }

  /** One more element at the end of the input extends the filter by that element or by nothing. */
  lemma FilterSnoc<T>(s: seq<T>, x: T, p: T -> bool)
    ensures Filter(s + [x], p) == Filter(s, p) + (if p(x) then [x] else [])
  {
    assert (s + [x])[..|s + [x]| - 1] == s;
  }

  /** The filter of a prefix one element longer: the same, plus that element when it passes. */
  lemma FilterPrefix<T>(s: seq<T>, i: nat, p: T -> bool)
    requires i < |s|
    ensures Filter(s[..i + 1], p) == Filter(s[..i], p) + (if p(s[i]) then [s[i]] else [])
  {
    FilterSnoc(s[..i], s[i], p);
    assert s[..i + 1] == s[..i] + [s[i]];
  }

  /** Filtering keeps everything exactly when every element passes. */
  lemma {:induction false} FilterAll<T>(s: seq<T>, p: T -> bool)
    requires forall x :: x in s ==> p(x)
    ensures Filter(s, p) == s
  {
    if s != [] {
      var init := s[..|s| - 1];
      assert s == init + [s[|s| - 1]];
      FilterAll(init, p);
    }
  }

  /** Filtering keeps nothing exactly when no element passes. */
  lemma FilterNone<T>(s: seq<T>, p: T -> bool)
    requires forall x :: x in s ==> !p(x)
    ensures Filter(s, p) == []
  {
  }

  /**
   * `a` is a subsequence of `b`: `a` is `b` with some elements deleted and
   * the rest left in order (matched greedily from the end).
   */
  predicate Subsequence<T(==)>(a: seq<T>, b: seq<T>)
    decreases |b|
  {
    if a == [] then true
    else if b == [] then false
    else if a[|a| - 1] == b[|b| - 1] then Subsequence(a[..|a| - 1], b[..|b| - 1])
    else Subsequence(a, b[..|b| - 1])
  }

  lemma {:induction false} SubsequenceRefl<T>(s: seq<T>)
    ensures Subsequence(s, s)
  {
    if s != [] {
      SubsequenceRefl(s[..|s| - 1]);
    }
  }

  /** A filter result is a subsequence of its input. */
  lemma {:induction false} FilterSubsequence<T>(s: seq<T>, p: T -> bool)
    ensures Subsequence(Filter(s, p), s)
  {
    if s != [] {
      var init := s[..|s| - 1];
      var x := s[|s| - 1];
      assert s == init + [x];
      FilterSubsequence(init, p);
      assert s[..|s| - 1] == init;
      if !p(x) {
        var f := Filter(init, p);
        assert Filter(s, p) == f;
        if f != [] {
          assert f[|f| - 1] in f;
          assert p(f[|f| - 1]);
        }
      }
    }
  }

  /** The number of elements of `s` that satisfy `p`. */
  function Count<T>(s: seq<T>, p: T -> bool): nat
  {
    |Filter(s, p)|
  }

  lemma {:induction false} CountAppend<T>(a: seq<T>, b: seq<T>, p: T -> bool)
    ensures Filter(a + b, p) == Filter(a, p) + Filter(b, p)
    ensures Count(a + b, p) == Count(a, p) + Count(b, p)
    decreases |b|
  {
    if b != [] {
      var init := b[..|b| - 1];
      var x := b[|b| - 1];
      assert b == init + [x];
      assert a + b == (a + init) + [x];
      CountAppend(a, init, p);
      FilterSnoc(a + init, x, p);
      FilterSnoc(init, x, p);
    } else {
      assert a + b == a;
    }
  }

  /** `s` back to front. */
  function Reversed<T>(s: seq<T>): (r: seq<T>)
    ensures |r| == |s|
    ensures forall k :: 0 <= k < |s| ==> r[k] == s[|s| - 1 - k]
  {
    if s == [] then [] else Reversed(s[1..]) + [s[0]]
  }

  lemma {:induction false} ReversedMultiset<T>(s: seq<T>)
    ensures multiset(Reversed(s)) == multiset(s)
  {
    if s != [] {
      ReversedMultiset(s[1..]);
      assert s == [s[0]] + s[1..];
    }
  }

  /** Drawing `n` elements from the end and appending them back in drawn order keeps the size and the elements. */
  lemma DrawReturnConserves<T>(s: seq<T>, n: nat)
    requires n <= |s|
    ensures |s[..|s| - n] + Reversed(s[|s| - n..])| == |s|
    ensures multiset(s[..|s| - n] + Reversed(s[|s| - n..])) == multiset(s)
  {
    ReversedMultiset(s[|s| - n..]);
    assert s == s[..|s| - n] + s[|s| - n..];
  }

  /**
   * The position of the winner when a non-empty sequence is scanned left to
   * right and the current best is replaced only by a strictly greater value:
   * a maximum, and the first one.
   */
  function BestIndex<T>(s: seq<T>, value: T -> int): (i: nat)
    requires |s| > 0
    ensures i < |s|
    ensures forall j :: 0 <= j < |s| ==> value(s[j]) <= value(s[i])
    ensures forall j :: 0 <= j < i ==> value(s[j]) < value(s[i])
  {
    if |s| == 1 then 0
    else
      var p := BestIndex(s[..|s| - 1], value);
      if value(s[|s| - 1]) > value(s[p]) then |s| - 1 else p
  }

  /** One more element: the scan keeps its winner unless the new element is strictly better. */
  lemma BestIndexSnoc<T>(s: seq<T>, x: T, value: T -> int)
    requires |s| > 0
    ensures BestIndex(s + [x], value) ==
              if value(x) > value(s[BestIndex(s, value)]) then |s| else BestIndex(s, value)
  {
    assert (s + [x])[..|s|] == s;
  }

  /** Four elements scanned with strict replacement: the winner is the one `BestIndex` picks. */
  lemma ScanOfFour<T>(a: T, b: T, c: T, d: T, value: T -> int, w2: T, w3: T, w4: T)
    requires w2 == if value(b) > value(a) then b else a
    requires w3 == if value(c) > value(w2) then c else w2
    requires w4 == if value(d) > value(w3) then d else w3
    ensures w4 == [a, b, c, d][BestIndex([a, b, c, d], value)]
  {
    BestIndexSnoc([a], b, value);
    assert [a] + [b] == [a, b];
    BestIndexSnoc([a, b], c, value);
    assert [a, b] + [c] == [a, b, c];
    BestIndexSnoc([a, b, c], d, value);
    assert [a, b, c] + [d] == [a, b, c, d];
  }

  /**
   * A random source: `rng(seed, k, n)` is the value the k-th call of
   * `Intn(n)` returns on a generator created from `seed`.
   */
  type Rng = (int, nat, nat) -> nat

  /** Go's contract for `Intn(n)`: a value in `[0, n)`. Nothing else is assumed. */
  ghost predicate ValidRng(rng: Rng)
  {
    forall seed, k, n :: 0 < n ==> rng(seed, k, n) < n
  }

  /** `s` with the elements at `i` and `j` exchanged. */
  function Swap<T>(s: seq<T>, i: nat, j: nat): (r: seq<T>)
    requires i < |s| && j < |s|
    ensures |r| == |s|
    ensures r[i] == s[j] && r[j] == s[i]
    ensures forall k :: 0 <= k < |s| && k != i && k != j ==> r[k] == s[k]
  {
    s[i := s[j]][j := s[i]]
  }

  lemma SwapMultiset<T>(s: seq<T>, i: nat, j: nat)
    requires i < |s| && j < |s|
    ensures multiset(Swap(s, i, j)) == multiset(s)
  {
    var t := s[i := s[j]];
    assert multiset(t) == multiset(s) - multiset{s[i]} + multiset{s[j]};
  }

  /**
   * Go's `%` on `int`: truncated toward zero, so the remainder takes the
   * sign of the dividend (Dafny's own `%` is Euclidean).
   */
  function GoRem(a: int, b: int): (r: int)
    requires b > 0
    ensures 0 <= a ==> 0 <= r < b
    ensures a < 0 ==> -b < r <= 0
    ensures 0 <= a ==> r == a % b
  {
    if a >= 0 then a % b else -((-a) % b)
  }

  function DigitChar(d: int): (c: char)
    requires 0 <= d < 10
    ensures '0' <= c <= '9'
  {
    "0123456789"[d]
  }

  /** Decimal digits of a natural number, most significant first, no leading zeros. */
  function NatDigits(n: nat): (r: string)
    ensures |r| >= 1
    ensures forall k :: 0 <= k < |r| ==> '0' <= r[k] <= '9'
    ensures n >= 10 ==> r[0] != '0'
    decreases n
  {
    if n < 10 then [DigitChar(n)]
    else
      var front := NatDigits(n / 10);
      front + [DigitChar(n % 10)]
  }

  /** Go's `%d` formatting of an `int`. */
  function DecimalString(n: int): (r: string)
    ensures |r| >= 1
    ensures n < 0 <==> r[0] == '-'
  {
    if n < 0 then "-" + NatDigits(-n) else NatDigits(n)
  }
}
