/**
 * The arithmetic the scorer borrows from Python's `statistics` module and
 * built-in `sorted`: sums and means over exact reals, an ascending and a
 * descending sort of base scores, and the median of a non-empty list.
 */
module Stats {

  function Min(a: nat, b: nat): nat { if a <= b then a else b }

  /** Sum of a list of reals, left to right. */
  function Sum(s: seq<real>): real
  {
    if |s| == 0 then 0.0 else s[0] + Sum(s[1..])
  }

  /** Every element in [lo, hi] puts the sum in [n*lo, n*hi]. */
  lemma {:induction false} SumBounds(s: seq<real>, lo: real, hi: real)
    requires forall i :: 0 <= i < |s| ==> lo <= s[i] <= hi
    ensures |s| as real * lo <= Sum(s) <= |s| as real * hi
  {
    if |s| > 0 {
      SumBounds(s[1..], lo, hi);
      assert (|s| - 1) as real * lo + lo == |s| as real * lo;
      assert (|s| - 1) as real * hi + hi == |s| as real * hi;
    }
  }

  /** Indices of a smallest and a largest element. */
  lemma {:induction false} Extremes(s: seq<real>) returns (lo: nat, hi: nat)
    requires |s| > 0
    ensures lo < |s| && hi < |s|
    ensures forall i :: 0 <= i < |s| ==> s[lo] <= s[i] <= s[hi]
  {
    if |s| == 1 {
      lo, hi := 0, 0;
    } else {
      var l, h := Extremes(s[1..]);
      lo := if s[0] <= s[1..][l] then 0 else l + 1;
      hi := if s[0] >= s[1..][h] then 0 else h + 1;
      forall i | 1 <= i < |s| ensures s[lo] <= s[i] <= s[hi] {
        assert s[i] == s[1..][i - 1];
      }
    }
  }

  /**
   * Arithmetic mean (`statistics.mean`), which raises on an empty list:
   * the result times the length is the sum.
   */
  function Mean(s: seq<real>): (r: real)
    requires |s| > 0
    ensures r * |s| as real == Sum(s)
  {
    Sum(s) / |s| as real
  }

  /** A sum between n*lo and n*hi, divided by n, lies between lo and hi. */
  lemma DivWithin(sum: real, n: real, lo: real, hi: real)
    requires n > 0.0 && n * lo <= sum <= n * hi
    ensures lo <= sum / n <= hi
  {
  }

  /** The mean lies between a smallest and a largest element. */
  lemma MeanWithinRange(s: seq<real>)
    requires |s| > 0
    ensures exists i :: 0 <= i < |s| && s[i] <= Mean(s)
    ensures exists j :: 0 <= j < |s| && Mean(s) <= s[j]
  {
    var lo, hi := Extremes(s);
    SumBounds(s, s[lo], s[hi]);
    DivWithin(Sum(s), |s| as real, s[lo], s[hi]);
  }

  /** The mean of a list whose elements are all c is c. */
  lemma MeanOfConstant(s: seq<real>, c: real)
    requires |s| > 0
    requires forall i :: 0 <= i < |s| ==> s[i] == c
    ensures Mean(s) == c
  {
    SumBounds(s, c, c);
    var n := |s| as real;
    assert Mean(s) * n == c * n;
  }

  /** The reals that a list of integer scores stands for. */
  function ToReals(s: seq<nat>): (r: seq<real>)
    ensures |r| == |s|
    ensures forall i :: 0 <= i < |s| ==> r[i] == s[i] as real && r[i] >= 0.0
  {
    seq(|s|, i requires 0 <= i < |s| => s[i] as real)
  }

  ghost predicate SortedAscending(s: seq<nat>)
  {
    forall i, j :: 0 <= i < j < |s| ==> s[i] <= s[j]
  }

  ghost predicate SortedDescending(s: seq<nat>)
  {
    forall i, j :: 0 <= i < j < |s| ==> s[i] >= s[j]
  }

  /** Insert x into an ascending list before the first element not below it. */
  function InsertAscending(x: nat, s: seq<nat>): (r: seq<nat>)
    ensures |r| == |s| + 1
  {
    if |s| == 0 || x <= s[0] then [x] + s
    else [s[0]] + InsertAscending(x, s[1..])
  }

  /** Inserting into an ascending list keeps it ascending; the head is x or the old head. */
  lemma {:induction false} InsertKeepsAscending(x: nat, s: seq<nat>)
    requires SortedAscending(s)
    ensures SortedAscending(InsertAscending(x, s))
    ensures InsertAscending(x, s)[0] == x || (|s| > 0 && InsertAscending(x, s)[0] == s[0])
  {
    if |s| > 0 && x > s[0] {
      var tail := InsertAscending(x, s[1..]);
      InsertKeepsAscending(x, s[1..]);
      var r := [s[0]] + tail;
      assert InsertAscending(x, s) == r;
      forall i, j | 0 <= i < j < |r| ensures r[i] <= r[j] {
        if i == 0 {
          assert r[j] == tail[j - 1];
          assert tail[0] == x || tail[0] == s[1];
        } else {
          assert r[i] == tail[i - 1] && r[j] == tail[j - 1];
        }
      }
    } else {
      var r := [x] + s;
      forall i, j | 0 <= i < j < |r| ensures r[i] <= r[j] {
        if i > 0 {
          assert r[i] == s[i - 1] && r[j] == s[j - 1];
        } else {
          assert r[j] == s[j - 1];
        }
      }
    }
  }

  /** Inserting x adds one x to the list. */
  lemma {:induction false} InsertAscendingAddsOne(x: nat, s: seq<nat>)
    ensures multiset(InsertAscending(x, s)) == multiset(s) + multiset{x}
  {
    if |s| > 0 && x > s[0] {
      var tail := InsertAscending(x, s[1..]);
      InsertAscendingAddsOne(x, s[1..]);
      assert InsertAscending(x, s) == [s[0]] + tail;
      assert s == [s[0]] + s[1..];
    }
  }

  /** `sorted(s)`: an ascending permutation of s. */
  function SortAscending(s: seq<nat>): (r: seq<nat>)
    ensures |r| == |s|
    ensures SortedAscending(r)
    ensures multiset(r) == multiset(s)
  {
    if |s| == 0 then []
    else
      var rest := SortAscending(s[1..]);
      InsertKeepsAscending(s[0], rest);
      InsertAscendingAddsOne(s[0], rest);
      assert s == [s[0]] + s[1..];
      InsertAscending(s[0], rest)
  }

  /** The list read back to front. */
  function Reverse(s: seq<nat>): (r: seq<nat>)
    ensures |r| == |s|
    ensures forall i {:trigger r[i]} :: 0 <= i < |s| ==> r[i] == s[|s| - 1 - i]
    ensures multiset(r) == multiset(s)
  {
    if |s| == 0 then []
    else
      assert s == [s[0]] + s[1..];
      Reverse(s[1..]) + [s[0]]
  }

  /** `sorted(s, reverse=True)`: a descending permutation of s. */
  function SortDescending(s: seq<nat>): (r: seq<nat>)
    ensures |r| == |s|
    ensures SortedDescending(r)
    ensures multiset(r) == multiset(s)
  {
    Reverse(SortAscending(s))
  }

  /** Cutting a descending list in two: the parts make up the list, and the front part dominates the back. */
  lemma DescendingSplit(s: seq<nat>, k: nat)
    requires SortedDescending(s) && k <= |s|
    ensures multiset(s[..k]) + multiset(s[k..]) == multiset(s)
    ensures forall i, j :: 0 <= i < k && 0 <= j < |s| - k ==> s[..k][i] >= s[k..][j]
  {
    assert s == s[..k] + s[k..];
    forall i, j | 0 <= i < k && 0 <= j < |s| - k ensures s[..k][i] >= s[k..][j] {
      assert s[k..][j] == s[k + j];
    }
  }

  /** The middle value of a list, or the mean of its two middle values when the length is even. */
  function Middle(t: seq<nat>): real
    requires |t| > 0
  {
    var n := |t|;
    if n % 2 == 1 then t[n / 2] as real else (t[n / 2 - 1] + t[n / 2]) as real / 2.0
  }

  /** `statistics.median`: the middle of the sorted list. */
  function Median(s: seq<nat>): (r: real)
    requires |s| > 0
    ensures r >= 0.0
    ensures |s| == 1 ==> r == s[0] as real
  {
    var t := SortAscending(s);
    assert |s| == 1 ==> t == s;
    Middle(t)
  }

  /** The median lies between a smallest and a largest element. */
  lemma MedianWithinRange(s: seq<nat>)
    requires |s| > 0
    ensures exists i :: 0 <= i < |s| && s[i] as real <= Median(s)
    ensures exists j :: 0 <= j < |s| && Median(s) <= s[j] as real
  {
    var t := SortAscending(s);
    var n := |t|;
    var lower := if n % 2 == 1 then t[n / 2] else t[n / 2 - 1];
    assert Median(s) == Middle(t);
    assert lower in multiset(s) && t[n / 2] in multiset(s);
  }

  /** Which side of a threshold an element is counted on. */
  datatype Side = Below | Above

  predicate Beyond(x: nat, r: real, side: Side)
  {
    match side
    case Below => (x as real) < r
    case Above => (x as real) > r
  }

  /** How many elements of s lie strictly on the given side of r. */
  function CountBeyond(s: seq<nat>, r: real, side: Side): (c: nat)
    ensures c <= |s|
  {
    if |s| == 0 then 0 else (if Beyond(s[0], r, side) then 1 else 0) + CountBeyond(s[1..], r, side)
  }

  lemma {:induction false} CountInsert(x: nat, s: seq<nat>, r: real, side: Side)
    ensures CountBeyond(InsertAscending(x, s), r, side) == (if Beyond(x, r, side) then 1 else 0) + CountBeyond(s, r, side)
  {
    if |s| > 0 && x > s[0] {
      var tail := InsertAscending(x, s[1..]);
      CountInsert(x, s[1..], r, side);
      assert InsertAscending(x, s) == [s[0]] + tail;
      assert ([s[0]] + tail)[1..] == tail;
    } else if |s| > 0 {
      assert InsertAscending(x, s) == [x] + s;
      assert ([x] + s)[1..] == s;
    }
  }

  /** Sorting does not change how many elements lie beyond r. */
  lemma {:induction false} CountSort(s: seq<nat>, r: real, side: Side)
    ensures CountBeyond(SortAscending(s), r, side) == CountBeyond(s, r, side)
  {
    if |s| > 0 {
      CountSort(s[1..], r, side);
      CountInsert(s[0], SortAscending(s[1..]), r, side);
    }
  }

  /** If nothing from index m on lies beyond r, at most m elements do. */
  lemma {:induction false} CountPrefixBound(s: seq<nat>, r: real, side: Side, m: nat)
    requires m <= |s|
    requires forall j :: m <= j < |s| ==> !Beyond(s[j], r, side)
    ensures CountBeyond(s, r, side) <= m
  {
    if |s| > 0 {
      if m == 0 {
        CountPrefixBound(s[1..], r, side, 0);
      } else {
        CountPrefixBound(s[1..], r, side, m - 1);
      }
    }
  }

  /** If nothing before index m lies beyond r, at most |s| - m elements do. */
  lemma {:induction false} CountSuffixBound(s: seq<nat>, r: real, side: Side, m: nat)
    requires m <= |s|
    requires forall j :: 0 <= j < m ==> !Beyond(s[j], r, side)
    ensures CountBeyond(s, r, side) <= |s| - m
  {
    if m > 0 {
      CountSuffixBound(s[1..], r, side, m - 1);
    }
  }

  /** In a sorted list of odd length, at most half of the elements lie strictly on either side of the middle one. */
  lemma OddMiddleSplitsInHalf(t: seq<nat>)
    requires |t| % 2 == 1 && SortedAscending(t)
    ensures CountBeyond(t, Middle(t), Below) <= |t| / 2
    ensures CountBeyond(t, Middle(t), Above) <= |t| / 2
  {
    var r := Middle(t);
    var h := |t| / 2;
    assert r == t[h] as real;
    forall j | h <= j < |t| ensures !Beyond(t[j], r, Below) {
      assert t[h] <= t[j];
    }
    forall j | 0 <= j < h + 1 ensures !Beyond(t[j], r, Above) {
      assert t[j] <= t[h];
    }
    CountPrefixBound(t, r, Below, h);
    CountSuffixBound(t, r, Above, h + 1);
  }

  /** In a sorted list of even length, at most half of the elements lie strictly on either side of the two middle ones' mean. */
  lemma EvenMiddleSplitsInHalf(t: seq<nat>)
    requires |t| > 0 && |t| % 2 == 0 && SortedAscending(t)
    ensures CountBeyond(t, Middle(t), Below) <= |t| / 2
    ensures CountBeyond(t, Middle(t), Above) <= |t| / 2
  {
    var r := Middle(t);
    var h := |t| / 2;
    assert r == (t[h - 1] + t[h]) as real / 2.0;
    assert t[h - 1] as real <= r <= t[h] as real;
    CountPrefixBound(t, r, Below, h);
    CountSuffixBound(t, r, Above, h);
  }

  /**
   * The median splits the list in halves: at most half of the elements lie
   * strictly below it and at most half strictly above it.
   */
  lemma {:induction false} MedianSplitsInHalf(s: seq<nat>)
    requires |s| > 0
    ensures CountBeyond(s, Median(s), Below) <= |s| / 2
    ensures CountBeyond(s, Median(s), Above) <= |s| / 2
  {
    var t := SortAscending(s);
    assert Median(s) == Middle(t);
    CountSort(s, Median(s), Below);
    CountSort(s, Median(s), Above);
    if |t| % 2 == 1 {
      OddMiddleSplitsInHalf(t);
    } else {
      EvenMiddleSplitsInHalf(t);
    }
  }
}
