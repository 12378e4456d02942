/** Small shared vocabulary. */
module Basics {
  datatype Option<+T> = None | Some(value: T)

  datatype Result<+T, +E> = Ok(value: T) | Err(error: E)

  /** The naturals less than n. */
  function Below(n: nat): (r: set<nat>)
    ensures forall j: nat :: j in r <==> j < n
  {
    if n == 0 then {} else Below(n - 1) + {n - 1}
  }

  lemma {:induction false} RangeSize(n: nat)
    ensures |Below(n)| == n
  {
    if n != 0 {
      RangeSize(n - 1);
    }
  }

  lemma {:induction false} Downward(m: set<nat>, i: nat, j: nat)
    requires forall x | x in m :: x == 0 || x - 1 in m
    requires i in m && j <= i
    ensures j in m
    decreases i
  {
    if j < i { Downward(m, i - 1, j); }
  }

  /** A set of naturals that holds the predecessor of each of its members is an initial segment. */
  lemma InitialSegment(m: set<nat>)
    requires forall x | x in m :: x == 0 || x - 1 in m
    ensures forall i: nat :: i in m <==> i < |m|
  {
    forall i: nat ensures i in m <==> i < |m| {
      if i in m {
        forall j: nat | j < i + 1 ensures j in m { Downward(m, i, j); }
        RangeSize(i + 1);
        Contained(Below(i + 1), m);
      } else {
        forall j | j in m ensures j < i { if j >= i { Downward(m, j, i); } }
        RangeSize(i);
        Contained(m, Below(i));
      }
    }
  }

  lemma {:induction false} Contained(a: set<nat>, b: set<nat>)
    requires a <= b
    ensures |a| <= |b|
    decreases |a|
  {
    if a != {} {
      var x :| x in a;
      Contained(a - {x}, b - {x});
    }
  }
}
