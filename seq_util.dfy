/**
 * Small sequence helpers shared by the model: Python's `sum`, `list.index`,
 * membership-preserving de-duplication and integer formatting.
 */
module SeqUtil {
  import opened Wrappers

  /** Python `sum` over a list of numbers (starting from 0). */
  function Sum(s: seq<real>): real
  {
    if |s| == 0 then 0.0 else Sum(s[..|s| - 1]) + s[|s| - 1]
  }

  lemma {:induction false} SumAppend(a: seq<real>, b: seq<real>)
    ensures Sum(a + b) == Sum(a) + Sum(b)
  {
    if |b| == 0 {
      assert a + b == a;
    } else {
      assert (a + b)[..|a + b| - 1] == a + b[..|b| - 1];
      SumAppend(a, b[..|b| - 1]);
    }
  }

  lemma SumSingleton(x: real)
    ensures Sum([x]) == x
  {
    assert [x][..0] == [];
  }

  /** Sum of a sequence whose every element is zero. */
  lemma {:induction false} SumZeros(s: seq<real>)
    requires forall i :: 0 <= i < |s| ==> s[i] == 0.0
    ensures Sum(s) == 0.0
  {
    if |s| > 0 {
      SumZeros(s[..|s| - 1]);
    }
  }

  /** Changing one entry by `d` changes the sum by `d`. */
  lemma {:induction false} SumUpdate(s: seq<real>, i: nat, d: real)
    requires i < |s|
    ensures Sum(s[i := s[i] + d]) == Sum(s) + d
  {
    var t := s[i := s[i] + d];
    if i == |s| - 1 {
      assert t[..|t| - 1] == s[..|s| - 1];
    } else {
      assert t[..|t| - 1] == s[..|s| - 1][i := s[i] + d];
      SumUpdate(s[..|s| - 1], i, d);
    }
  }

  /** Python `list.index`: position of the first occurrence, `ValueError` when absent. */
  function IndexOf<T(==)>(s: seq<T>, x: T): (r: Result<nat>)
    ensures r.Ok? <==> x in s
    ensures r.Ok? ==> r.value < |s| && s[r.value] == x
    ensures r.Ok? ==> forall j :: 0 <= j < r.value ==> s[j] != x
    ensures r.Err? ==> r.error == ValueError
  {
    if |s| == 0 then Err(ValueError)
    else if s[0] == x then Ok(0)
    else match IndexOf(s[1..], x)
      case Ok(k) => Ok(k + 1)
      case Err(e) => Err(e)
  }

  /** Python list indexing `s[i]`: negative indices count from the end. */
  function PyIndex<T>(s: seq<T>, i: int): (r: Result<T>)
    ensures r.Ok? <==> -|s| <= i < |s|
    ensures 0 <= i < |s| ==> r == Ok(s[i])
    ensures -|s| <= i < 0 ==> r == Ok(s[|s| + i])
    ensures r.Err? ==> r.error == IndexError
  {
    if 0 <= i < |s| then Ok(s[i])
    else if -|s| <= i < 0 then Ok(s[|s| + i])
    else Err(IndexError)
  }

  /** The index of an element of a duplicate-free list is the one position holding it. */
  lemma IndexOfUnique<T>(s: seq<T>, k: nat)
    requires NoDuplicates(s) && k < |s|
    ensures IndexOf(s, s[k]) == Ok(k)
  {
  }

  predicate NoDuplicates<T(==)>(s: seq<T>)
  {
    forall i, j :: 0 <= i < j < |s| ==> s[i] != s[j]
  }

  /** `acc` extended with `x` unless `x` is already listed. */
  function AppendUnique<T(==)>(acc: seq<T>, x: T): seq<T>
  {
    if x in acc then acc else acc + [x]
  }

  /** The list of distinct elements of `s` in first-appearance order. */
  function Dedup<T(==)>(s: seq<T>): (r: seq<T>)
  {
    if |s| == 0 then [] else AppendUnique(Dedup(s[..|s| - 1]), s[|s| - 1])
  }

  lemma {:induction false} DedupSpec<T>(s: seq<T>)
    ensures NoDuplicates(Dedup(s))
    ensures forall x :: x in Dedup(s) <==> x in s
  {
    if |s| > 0 {
      DedupSpec(s[..|s| - 1]);
      assert s == s[..|s| - 1] + [s[|s| - 1]];
    }
  }

  /** Python `min` of a non-empty list of integers. */
  function MinInt(s: seq<int>): (r: int)
    requires |s| > 0
    ensures r in s && forall x :: x in s ==> r <= x
  {
    if |s| == 1 then s[0]
    else
      var m := MinInt(s[..|s| - 1]);
      assert forall x :: x in s ==> x in s[..|s| - 1] || x == s[|s| - 1];
      if s[|s| - 1] < m then s[|s| - 1] else m
  }

  /** Python `max` of a non-empty list of integers. */
  function MaxInt(s: seq<int>): (r: int)
    requires |s| > 0
    ensures r in s && forall x :: x in s ==> x <= r
  {
    if |s| == 1 then s[0]
    else
      var m := MaxInt(s[..|s| - 1]);
      assert forall x :: x in s ==> x in s[..|s| - 1] || x == s[|s| - 1];
      if s[|s| - 1] > m then s[|s| - 1] else m
  }

  /** Python `min` of a non-empty list of numbers. */
  function MinReal(s: seq<real>): (r: real)
    requires |s| > 0
    ensures r in s && forall x :: x in s ==> r <= x
  {
    if |s| == 1 then s[0]
    else
      var m := MinReal(s[..|s| - 1]);
      assert forall x :: x in s ==> x in s[..|s| - 1] || x == s[|s| - 1];
      if s[|s| - 1] < m then s[|s| - 1] else m
  }

  /** Python `max` of a non-empty list of numbers. */
  function MaxReal(s: seq<real>): (r: real)
    requires |s| > 0
    ensures r in s && forall x :: x in s ==> x <= r
  {
    if |s| == 1 then s[0]
    else
      var m := MaxReal(s[..|s| - 1]);
      assert forall x :: x in s ==> x in s[..|s| - 1] || x == s[|s| - 1];
      if s[|s| - 1] > m then s[|s| - 1] else m
  }

  function DigitChar(d: nat): char
    requires d < 10
  {
    "0123456789"[d]
  }

  function NatToString(n: nat): string
    decreases n
  {
    if n < 10 then [DigitChar(n)] else NatToString(n / 10) + [DigitChar(n % 10)]
  }

  /** Python `str(int)`. */
  function IntToString(n: int): string
  {
    if n < 0 then "-" + NatToString(-n) else NatToString(n)
  }
}
