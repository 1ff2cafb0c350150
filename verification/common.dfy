/** Small shared vocabulary: optional values, results with an error value, and sums of counts. */
module Common {

  datatype Option<T> = None | Some(value: T)

  datatype Result<T, E> = Ok(value: T) | Err(error: E)

  /** The sum of a sequence of counts. */
  function Sum(s: seq<nat>): nat {
    if s == [] then 0 else s[0] + Sum(s[1..])
  }

  /** Taking one unit away from a positive entry lowers the sum by exactly one. */
  lemma {:induction false} SumDecrement(s: seq<nat>, i: nat)
    requires i < |s| && s[i] > 0
    ensures Sum(s[i := s[i] - 1]) + 1 == Sum(s)
  {
    if i == 0 {
      assert s[i := s[i] - 1][1..] == s[1..];
    } else {
      assert s[i := s[i] - 1][1..] == s[1..][i - 1 := s[i] - 1];
      SumDecrement(s[1..], i - 1);
    }
  }

  /** A sequence of n equal counts d sums to n * d. */
  lemma {:induction false} SumConstant(n: nat, d: nat)
    ensures Sum(seq(n, _ => d)) == n * d
  {
    if n > 0 {
      assert seq(n, _ => d)[1..] == seq(n - 1, _ => d);
      SumConstant(n - 1, d);
    }
  }

  /** Every entry is bounded by the sum. */
  lemma {:induction false} SumBoundsEntry(s: seq<nat>, i: nat)
    requires i < |s|
    ensures s[i] <= Sum(s)
  {
    if i > 0 {
      SumBoundsEntry(s[1..], i - 1);
    }
  }

  /** A positive sum has a positive entry. */
  lemma {:induction false} SumPositiveHasPositiveEntry(s: seq<nat>)
    requires Sum(s) > 0
    ensures exists i :: 0 <= i < |s| && s[i] > 0
  {
    if s[0] == 0 {
      SumPositiveHasPositiveEntry(s[1..]);
      var i :| 0 <= i < |s[1..]| && s[1..][i] > 0;
      assert s[i + 1] > 0;
    }
  }
}
