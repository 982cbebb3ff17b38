/**
 * Generic helpers shared by the point-of-sale model: an Option type and the
 * four sequence operations the application leans on everywhere, namely
 * `find`/`findIndex` by id, `filter` by id, `reduce` to a sum and the
 * running maximum from 0 that both id generators compute.
 */
module Base {

  datatype Option<+T> = None | Some(value: T)

  /** Index of the first element whose key is `k` (JavaScript `findIndex`). */
  function IndexOf<T>(s: seq<T>, key: T -> int, k: int): (r: Option<nat>)
    ensures r.Some? ==> r.value < |s| && key(s[r.value]) == k
    ensures r.Some? ==> forall j :: 0 <= j < r.value ==> key(s[j]) != k
    ensures r.None? <==> forall j :: 0 <= j < |s| ==> key(s[j]) != k
  {
    if |s| == 0 then None
    else if key(s[0]) == k then Some(0)
    else
      match IndexOf(s[1..], key, k)
      case None => None
      case Some(i) => Some(i + 1)
  }

  /** The first match in `s` is the first match in all but its last element, else that last element if it matches. */
  lemma {:induction false} IndexOfSnoc<T>(s: seq<T>, key: T -> int, k: int)
    requires |s| > 0
    ensures var init := s[..|s| - 1];
      IndexOf(s, key, k) ==
        if IndexOf(init, key, k).Some? then IndexOf(init, key, k)
        else if key(s[|s| - 1]) == k then Some(|s| - 1)
        else None
  {
    var init := s[..|s| - 1];
    var a, r := IndexOf(init, key, k), IndexOf(s, key, k);
    if a.Some? {
      assert s[a.value] == init[a.value];
      assert r.Some? && r.value <= a.value;
      assert s[r.value] == init[r.value];
    } else if key(s[|s| - 1]) == k {
      assert forall j :: 0 <= j < |s| - 1 ==> s[j] == init[j];
    } else {
      assert forall j :: 0 <= j < |s| - 1 ==> s[j] == init[j];
    }
  }

  /** The elements whose key is not `k`, in their original order (JavaScript `filter(x => x.id != k)`). */
  function Without<T>(s: seq<T>, key: T -> int, k: int): (r: seq<T>)
    ensures |r| <= |s|
  {
    if |s| == 0 then []
    else if key(s[0]) == k then Without(s[1..], key, k)
    else [s[0]] + Without(s[1..], key, k)
  }

  /** Exactly the elements whose key is not `k` survive the filter. */
  lemma {:induction false} WithoutContents<T>(s: seq<T>, key: T -> int, k: int)
    ensures forall j :: 0 <= j < |Without(s, key, k)| ==>
      Without(s, key, k)[j] in s && key(Without(s, key, k)[j]) != k
    ensures forall j :: 0 <= j < |s| && key(s[j]) != k ==> s[j] in Without(s, key, k)
  {
    if |s| > 0 {
      WithoutContents(s[1..], key, k);
      assert s == [s[0]] + s[1..];
    }
  }

  /** Filtering distributes over concatenation, so the survivors keep their relative order. */
  lemma {:induction false} WithoutAppend<T>(a: seq<T>, b: seq<T>, key: T -> int, k: int)
    ensures Without(a + b, key, k) == Without(a, key, k) + Without(b, key, k)
  {
    if |a| == 0 {
      assert a + b == b;
    } else {
      assert (a + b)[1..] == a[1..] + b;
      WithoutAppend(a[1..], b, key, k);
    }
  }

  /** Filtering out a key that no element carries changes nothing. */
  lemma {:induction false} WithoutAbsent<T>(s: seq<T>, key: T -> int, k: int)
    requires forall j :: 0 <= j < |s| ==> key(s[j]) != k
    ensures Without(s, key, k) == s
  {
    if |s| > 0 {
      WithoutAbsent(s[1..], key, k);
      assert s == [s[0]] + s[1..];
    }
  }

  /** When the key is carried by element `i` alone, filtering removes exactly that element. */
  lemma {:induction false} WithoutUnique<T>(s: seq<T>, key: T -> int, i: nat)
    requires i < |s|
    requires forall j :: 0 <= j < |s| && j != i ==> key(s[j]) != key(s[i])
    ensures Without(s, key, key(s[i])) == s[..i] + s[i + 1..]
  {
    var k, a, b := key(s[i]), s[..i], s[i + 1..];
    assert s == (a + [s[i]]) + b;
    forall j | 0 <= j < |a| ensures key(a[j]) != k { assert a[j] == s[j]; }
    forall j | 0 <= j < |b| ensures key(b[j]) != k { assert b[j] == s[i + 1 + j]; }
    calc {
      Without(s, key, k);
      { WithoutAppend(a + [s[i]], b, key, k); }
      Without(a + [s[i]], key, k) + Without(b, key, k);
      { WithoutAppend(a, [s[i]], key, k); }
      Without(a, key, k) + Without([s[i]], key, k) + Without(b, key, k);
      { WithoutAbsent(a, key, k); WithoutAbsent(b, key, k); assert Without([s[i]], key, k) == []; }
      a + [] + b;
      { assert a + [] == a; }
      a + b;
    }
  }

  /** Left fold `s.reduce((sum, x) => sum + f(x), 0)`. */
  function SumOf<T>(s: seq<T>, f: T -> real): real
  {
    if |s| == 0 then 0.0 else SumOf(s[..|s| - 1], f) + f(s[|s| - 1])
  }

  lemma {:induction false} SumOfAppend<T>(a: seq<T>, b: seq<T>, f: T -> real)
    ensures SumOf(a + b, f) == SumOf(a, f) + SumOf(b, f)
  {
    if |b| == 0 {
      assert a + b == a;
    } else {
      assert (a + b)[..|a + b| - 1] == a + b[..|b| - 1];
      SumOfAppend(a, b[..|b| - 1], f);
    }
  }

  lemma {:induction false} SumOfSingle<T>(x: T, f: T -> real)
    ensures SumOf([x], f) == f(x)
  {
    assert [x][..0] == [];
  }

  /** Replacing one element changes the sum by the difference of the two terms. */
  lemma {:induction false} SumOfUpdate<T>(s: seq<T>, i: nat, x: T, f: T -> real)
    requires i < |s|
    ensures SumOf(s[i := x], f) == SumOf(s, f) - f(s[i]) + f(x)
  {
    var a, b := s[..i], s[i + 1..];
    assert s == (a + [s[i]]) + b;
    assert s[i := x] == (a + [x]) + b;
    SumOfAppend(a + [s[i]], b, f);
    SumOfAppend(a, [s[i]], f);
    SumOfAppend(a + [x], b, f);
    SumOfAppend(a, [x], f);
    SumOfSingle(s[i], f);
    SumOfSingle(x, f);
  }

  /** Removing one element takes its term out of the sum. */
  lemma {:induction false} SumOfRemove<T>(s: seq<T>, i: nat, f: T -> real)
    requires i < |s|
    ensures SumOf(s[..i] + s[i + 1..], f) == SumOf(s, f) - f(s[i])
  {
    var a, b := s[..i], s[i + 1..];
    assert s == (a + [s[i]]) + b;
    calc {
      SumOf(s, f);
      SumOf((a + [s[i]]) + b, f);
      { SumOfAppend(a + [s[i]], b, f); }
      SumOf(a + [s[i]], f) + SumOf(b, f);
      { SumOfAppend(a, [s[i]], f); SumOfSingle(s[i], f); }
      SumOf(a, f) + f(s[i]) + SumOf(b, f);
      { SumOfAppend(a, b, f); }
      SumOf(a + b, f) + f(s[i]);
    }
  }

  /** A sum of non-negative terms is non-negative. */
  lemma {:induction false} SumOfNonNegative<T>(s: seq<T>, f: T -> real)
    requires forall j :: 0 <= j < |s| ==> f(s[j]) >= 0.0
    ensures SumOf(s, f) >= 0.0
  {
    if |s| > 0 {
      SumOfNonNegative(s[..|s| - 1], f);
    }
  }

  /** Termwise `f = g - h` gives `sum f = sum g - sum h`. */
  lemma {:induction false} SumOfDifference<T>(s: seq<T>, f: T -> real, g: T -> real, h: T -> real)
    requires forall j :: 0 <= j < |s| ==> f(s[j]) == g(s[j]) - h(s[j])
    ensures SumOf(s, f) == SumOf(s, g) - SumOf(s, h)
  {
    if |s| > 0 {
      SumOfDifference(s[..|s| - 1], f, g, h);
    }
  }

  /**
   * Running maximum over the numbers `num` finds in the elements, starting
   * from 0: `let max = 0; s.forEach(x => { if (num(x) > max) max = num(x) })`
   * where `num` may find nothing.
   */
  function MaxOf<T>(s: seq<T>, num: T -> Option<int>): nat
  {
    if |s| == 0 then 0
    else
      var m := MaxOf(s[..|s| - 1], num);
      var x := num(s[|s| - 1]);
      if x.Some? && x.value > m then x.value else m
  }

  /** No number found in the elements exceeds the maximum. */
  lemma {:induction false} MaxOfBounds<T>(s: seq<T>, num: T -> Option<int>, j: nat)
    requires j < |s| && num(s[j]).Some?
    ensures num(s[j]).value <= MaxOf(s, num)
  {
    var n := |s|;
    var init := s[..n - 1];
    if j < n - 1 {
      assert init[j] == s[j];
      MaxOfBounds(init, num, j);
    }
  }

  /** The maximum is 0 or one of the numbers found. */
  lemma {:induction false} MaxOfAttained<T>(s: seq<T>, num: T -> Option<int>)
    ensures MaxOf(s, num) == 0 || exists j :: 0 <= j < |s| && num(s[j]) == Some(MaxOf(s, num))
  {
    var n := |s|;
    if n > 0 {
      var init := s[..n - 1];
      MaxOfAttained(init, num);
      if MaxOf(s, num) != 0 && MaxOf(s, num) == MaxOf(init, num) {
        var j :| 0 <= j < |init| && num(init[j]) == Some(MaxOf(init, num));
        assert s[j] == init[j];
      }
    }
  }
}
