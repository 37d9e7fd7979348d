/** Small shapes every other module uses. */
module Common {

  datatype Option<+T> = None | Some(value: T)

  /** What becomes of a command sent to another process: run and answered, run with the
      answer lost, or never run. Both losses reach the sender as the same exception. */
  datatype Hearing = Answered | RanUnheard | NeverRan

  function Max(a: int, b: int): int {
    if a < b then b else a
  }

  function Min(a: int, b: int): int {
    if a < b then a else b
  }

  /** The naturals below n; there are n of them. */
  function Below(n: nat): (s: set<nat>)
    ensures forall x: nat :: x in s <==> x < n
    ensures |s| == n
  {
    if n == 0 then {} else Below(n - 1) + {n - 1}
  }

  lemma {:induction false} SubsetIsSmaller<T>(a: set<T>, b: set<T>)
    requires a <= b
    ensures |a| <= |b|
  {
    if a != {} {
      var x :| x in a;
      SubsetIsSmaller(a - {x}, b - {x});
    }
  }

  lemma SubsetOfSameSize<T>(a: set<T>, b: set<T>)
    requires a <= b
    ensures |a| == |b| <==> a == b
  {
    if x :| x in b && x !in a {
      SubsetIsSmaller(a, b - {x});
    }
  }

  /** An injective image has as many members as its source. */
  lemma {:induction false} InjectiveImage<T, U>(s: set<T>, f: T -> U, image: set<U>)
    requires forall x, y :: x in s && y in s && f(x) == f(y) ==> x == y
    requires forall x :: x in s ==> f(x) in image
    ensures |s| <= |image|
    decreases s
  {
    if s != {} {
      var x :| x in s;
      InjectiveImage(s - {x}, f, image - {f(x)});
    }
  }

  // ---- Sums over a set ----

  ghost function SumOver<T>(s: set<T>, f: T -> nat): nat {
    if s == {} then 0 else
    var x :| x in s;
    f(x) + SumOver(s - {x}, f)
  }

  lemma {:induction false} SumAdds<T>(s: set<T>, f: T -> nat, g: T -> nat, both: T -> nat)
    requires forall x :: x in s ==> both(x) == f(x) + g(x)
    ensures SumOver(s, both) == SumOver(s, f) + SumOver(s, g)
  {
    if s != {} {
      SumTakesOut(s, f, Picked(s));
      SumTakesOut(s, g, Picked(s));
      SumTakesOut(s, both, Picked(s));
      SumAdds(s - {Picked(s)}, f, g, both);
    }
  }

  ghost function Picked<T>(s: set<T>): (x: T)
    requires s != {}
    ensures x in s
  {
    var x :| x in s;
    x
  }

  lemma {:induction false} SumTakesOut<T>(s: set<T>, f: T -> nat, x: T)
    requires x in s
    ensures SumOver(s, f) == f(x) + SumOver(s - {x}, f)
  {
    var y :| y in s && SumOver(s, f) == f(y) + SumOver(s - {y}, f);
    if x != y {
      SumTakesOut(s - {y}, f, x);
      SumTakesOut(s - {x}, f, y);
      assert s - {y} - {x} == s - {x} - {y};
    }
  }

  lemma {:induction false} SumIsOrdered<T>(s: set<T>, f: T -> nat, g: T -> nat)
    requires forall x :: x in s ==> f(x) <= g(x)
    ensures SumOver(s, f) <= SumOver(s, g)
    ensures SumOver(s, f) == SumOver(s, g) <==> forall x :: x in s ==> f(x) == g(x)
  {
    if s != {} {
      SumTakesOut(s, f, Picked(s));
      SumTakesOut(s, g, Picked(s));
      SumIsOrdered(s - {Picked(s)}, f, g);
    }
  }

  lemma {:induction false} SumOfOne<T>(s: set<T>, f: T -> nat, x: T)
    requires forall y :: y in s && y != x ==> f(y) == 0
    ensures SumOver(s, f) == if x in s then f(x) else 0
  {
    if s != {} {
      SumTakesOut(s, f, Picked(s));
      SumOfOne(s - {Picked(s)}, f, x);
    }
  }
}
