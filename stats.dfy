/** The extrema that `print_stats` reports over a measurement. */
module Stats {

  /** The largest sample, as `samples.iter().max()`; the `expect` makes a
      non-empty sequence a precondition. */
  function Max(s: seq<nat>): (m: nat)
    requires |s| > 0
    ensures m in s
    ensures forall x :: x in s ==> x <= m
  {
    if |s| == 1 then s[0]
    else
      var rest := Max(s[1..]);
      assert forall x :: x in s ==> x == s[0] || x in s[1..];
      if s[0] > rest then s[0] else rest
  }

  /** The smallest sample, as `samples.iter().min()`. */
  function Min(s: seq<nat>): (m: nat)
    requires |s| > 0
    ensures m in s
    ensures forall x :: x in s ==> m <= x
  {
    if |s| == 1 then s[0]
    else
      var rest := Min(s[1..]);
      assert forall x :: x in s ==> x == s[0] || x in s[1..];
      if s[0] < rest then s[0] else rest
  }

  /** Every sample lies between the reported minimum and maximum. */
  lemma Bracketed(s: seq<nat>)
    requires |s| > 0
    ensures forall x :: x in s ==> Min(s) <= x <= Max(s)
    ensures Min(s) <= Max(s)
  {
  }

  /** Min and Max depend only on which values occur, so reordering the
      samples does not change them. */
  lemma {:induction false} OrderIrrelevant(s: seq<nat>, t: seq<nat>)
    requires |s| > 0 && multiset(s) == multiset(t)
    ensures |t| > 0 && Min(s) == Min(t) && Max(s) == Max(t)
  {
    assert s[0] in multiset(t);
    assert forall x :: x in s <==> x in multiset(s);
    assert forall x :: x in t <==> x in multiset(t);
    assert Min(s) in t && Min(t) in s;
    assert Max(s) in t && Max(t) in s;
  }

  /** The measurement scenario: ten readings around 100 W. */
  lemma MeasureExample()
    ensures Min([100, 110, 90, 105, 95, 100, 100, 110, 90, 100]) == 90
    ensures Max([100, 110, 90, 105, 95, 100, 100, 110, 90, 100]) == 110
  {
    var s: seq<nat> := [100, 110, 90, 105, 95, 100, 100, 110, 90, 100];
    assert forall x :: x in s ==> 90 <= x <= 110;
    assert s[2] == 90 && s[1] == 110;
    Bracketed(s);
  }
}
