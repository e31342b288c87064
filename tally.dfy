/** `COUNT(*) ... WHERE p` and `SUM(col) ... WHERE p` over a table held as a sequence,
    with the facts the dashboard counters need when one row is appended or replaced. */
module Tally {

  function CountIf<T>(s: seq<T>, p: T -> bool): (n: nat)
    ensures n <= |s|
  {
    if s == [] then 0 else (if p(s[0]) then 1 else 0) + CountIf(s[1..], p)
  }

  /** Sum of `w` over the rows satisfying `p`. */
  function SumIf<T>(s: seq<T>, p: T -> bool, w: T -> nat): nat
  {
    if s == [] then 0 else (if p(s[0]) then w(s[0]) else 0) + SumIf(s[1..], p, w)
  }

  /** The positions of the rows that satisfy `p`. */
  ghost function Matching<T>(s: seq<T>, p: T -> bool): set<int> {
    set i | 0 <= i < |s| && p(s[i])
  }

  lemma {:induction false} CountIsMatchingPositions<T>(s: seq<T>, p: T -> bool)
    ensures CountIf(s, p) == |Matching(s, p)|
  {
    if s != [] {
      var n := |s| - 1;
      var init := s[..n];
      assert s == init + [s[n]];
      CountIsMatchingPositions(init, p);
      CountAppend(init, s[n], p);
      assert Matching(s, p) == Matching(init, p) + (if p(s[n]) then {n} else {});
      assert n !in Matching(init, p);
    }
  }

  lemma {:induction false} CountZeroIff<T>(s: seq<T>, p: T -> bool)
    ensures CountIf(s, p) == 0 <==> forall i :: 0 <= i < |s| ==> !p(s[i])
  {
    if s != [] {
      CountZeroIff(s[1..], p);
      assert forall i :: 1 <= i < |s| ==> s[i] == s[1..][i - 1];
    }
  }

  lemma {:induction false} SumZeroWhenNoneMatch<T>(s: seq<T>, p: T -> bool, w: T -> nat)
    requires CountIf(s, p) == 0
    ensures SumIf(s, p, w) == 0
  {
    if s != [] {
      SumZeroWhenNoneMatch(s[1..], p, w);
    }
  }

  lemma {:induction false} CountAppend<T>(s: seq<T>, x: T, p: T -> bool)
    ensures CountIf(s + [x], p) == CountIf(s, p) + (if p(x) then 1 else 0)
  {
    if s != [] {
      assert (s + [x])[1..] == s[1..] + [x];
      CountAppend(s[1..], x, p);
    }
  }

  lemma {:induction false} CountConcat<T>(s: seq<T>, t: seq<T>, p: T -> bool)
    ensures CountIf(s + t, p) == CountIf(s, p) + CountIf(t, p)
  {
    if s == [] {
      assert s + t == t;
    } else {
      assert (s + t)[1..] == s[1..] + t;
      CountConcat(s[1..], t, p);
    }
  }

  lemma {:induction false} SumAppend<T>(s: seq<T>, x: T, p: T -> bool, w: T -> nat)
    ensures SumIf(s + [x], p, w) == SumIf(s, p, w) + (if p(x) then w(x) else 0)
  {
    if s != [] {
      assert (s + [x])[1..] == s[1..] + [x];
      SumAppend(s[1..], x, p, w);
    }
  }

  lemma {:induction false} SumConcat<T>(s: seq<T>, t: seq<T>, p: T -> bool, w: T -> nat)
    ensures SumIf(s + t, p, w) == SumIf(s, p, w) + SumIf(t, p, w)
  {
    if s == [] {
      assert s + t == t;
    } else {
      assert (s + t)[1..] == s[1..] + t;
      SumConcat(s[1..], t, p, w);
    }
  }

  /** Replacing row `i` changes the count only by what the old and the new row contribute. */
  lemma {:induction false} CountUpdate<T>(s: seq<T>, i: nat, x: T, p: T -> bool)
    requires i < |s|
    ensures CountIf(s[i := x], p) + (if p(s[i]) then 1 else 0)
         == CountIf(s, p) + (if p(x) then 1 else 0)
  {
    if i > 0 {
      assert s[i := x][1..] == s[1..][i - 1 := x];
      CountUpdate(s[1..], i - 1, x, p);
    } else {
      assert s[i := x][1..] == s[1..];
    }
  }

  lemma {:induction false} SumUpdate<T>(s: seq<T>, i: nat, x: T, p: T -> bool, w: T -> nat)
    requires i < |s|
    ensures SumIf(s[i := x], p, w) + (if p(s[i]) then w(s[i]) else 0)
         == SumIf(s, p, w) + (if p(x) then w(x) else 0)
  {
    if i > 0 {
      assert s[i := x][1..] == s[1..][i - 1 := x];
      SumUpdate(s[1..], i - 1, x, p, w);
    } else {
      assert s[i := x][1..] == s[1..];
    }
  }

  /** Rows that satisfy `p` and rows that do not add up to the whole table. */
  lemma {:induction false} CountSplit<T>(s: seq<T>, p: T -> bool, q: T -> bool)
    requires forall x :: q(x) == !p(x)
    ensures CountIf(s, p) + CountIf(s, q) == |s|
  {
    if s != [] {
      CountSplit(s[1..], p, q);
    }
  }
}
