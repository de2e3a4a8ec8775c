/** Small shared vocabulary: optional values, a little arithmetic, money, and real-valued sums over sequences and finite sets. */
module Sums {

  datatype Option<+T> = None | Some(value: T)

  function Abs(x: real): real { if x < 0.0 then -x else x }

  function Max(a: real, b: real): real { if a < b then b else a }

  lemma Scale(a: real, b: real, c: real)
    requires a <= b && c >= 0.0
    ensures a * c <= b * c
  {
  }

  lemma ScaleStrict(a: real, b: real, c: real)
    requires a < b && c > 0.0
    ensures a * c < b * c
  {
  }

  lemma Distribute(k: real, a: real, b: real)
    ensures k * (a + b) == k * a + k * b
  {
  }

  lemma Whole(a: real, b: real)
    requires b != 0.0
    ensures a / b * b == a
  {
  }

  lemma {:induction false} Smaller<T>(a: set<T>, b: set<T>)
    requires a <= b
    ensures |a| <= |b|
    decreases |a|
  {
    if a != {} {
      var x :| x in a;
      Smaller(a - {x}, b - {x});
    }
  }

  // ----- Money -----

  /** How far below zero cash may fall in the simulations. */
  const TOLERANCE: real := 0.000001

  function Value(shares: int, price: real): real {
    shares as real * price
  }

  function Profit(shares: int, entry: real, exit: real): real {
    (exit - entry) * shares as real
  }

  lemma ProfitIsDifference(shares: int, entry: real, exit: real)
    ensures Profit(shares, entry, exit) == Value(shares, exit) - Value(shares, entry)
  {
  }

  lemma ValueNotNegative(shares: int, price: real)
    requires shares >= 0 && price >= 0.0
    ensures Value(shares, price) >= 0.0
  {
  }

  lemma MoreCostMore(m: int, n: int, price: real)
    requires m <= n && price > 0.0
    ensures Value(m, price) <= Value(n, price)
  {
    Scale(m as real, n as real, price);
  }

  lemma FloorFits(room: real, price: real)
    requires price > 0.0
    ensures var n := (room / price).Floor; Value(n, price) <= room < Value(n + 1, price)
  {
    var n := (room / price).Floor;
    Between(room / price, n, price);
    assert room / price * price == room;
  }

  lemma Between(q: real, n: int, price: real)
    requires price > 0.0 && n == q.Floor
    ensures Value(n, price) <= q * price < Value(n + 1, price)
  {
    Scale(n as real, q, price);
    var m := n + 1;
    ScaleStrict(q, m as real, price);
  }

  /** The most whole shares for a room, told by their cost. */
  lemma FloorIs(room: real, price: real, n: int)
    requires price > 0.0
    ensures n == (room / price).Floor <==> Value(n, price) <= room < Value(n + 1, price)
  {
    hide Value;
    var f := (room / price).Floor;
    FloorFits(room, price);
    if n < f { MoreCostMore(n + 1, f, price); } else if n > f { MoreCostMore(f + 1, n, price); }
  }

  // ----- Sequences -----

  ghost predicate NoDup<T>(xs: seq<T>) {
    forall i, j :: 0 <= i < j < |xs| ==> xs[i] != xs[j]
  }

  lemma Assoc<T>(a: seq<T>, b: seq<T>, c: seq<T>)
    ensures a + b + c == a + (b + c)
  {
  }

  function SeqSum<T>(xs: seq<T>, f: T -> real): real {
    if xs == [] then 0.0 else SeqSum(xs[..|xs| - 1], f) + f(xs[|xs| - 1])
  }

  lemma SeqSumMore<T>(xs: seq<T>, x: T, f: T -> real)
    ensures SeqSum(xs + [x], f) == SeqSum(xs, f) + f(x)
  {
    assert (xs + [x])[..|xs|] == xs;
  }

  lemma {:induction false} SeqSumFront<T>(xs: seq<T>, f: T -> real)
    requires xs != []
    ensures SeqSum(xs, f) == f(xs[0]) + SeqSum(xs[1..], f)
    decreases |xs|
  {
    var l := |xs| - 1;
    if l > 0 {
      SeqSumFront(xs[..l], f);
      assert xs[1..][..l - 1] == xs[..l][1..];
    }
  }

  // ----- Finite sets -----

  /** The sum of `f` over `s`, in whatever order the elements are met. */
  ghost function SumOver<T(!new)>(s: set<T>, f: T -> real): real {
    if s == {} then 0.0
    else
      var x :| x in s;
      f(x) + SumOver(s - {x}, f)
  }

  lemma {:induction false} Pick<T(!new)>(s: set<T>, x: T, f: T -> real)
    requires x in s
    ensures SumOver(s, f) == f(x) + SumOver(s - {x}, f)
    decreases |s|
  {
    var y :| y in s && SumOver(s, f) == f(y) + SumOver(s - {y}, f);
    if y != x {
      Pick(s - {y}, x, f);
      Pick(s - {x}, y, f);
      assert s - {y} - {x} == s - {x} - {y};
    }
  }

  lemma Added<T(!new)>(s: set<T>, x: T, f: T -> real)
    requires x !in s
    ensures SumOver(s + {x}, f) == f(x) + SumOver(s, f)
  {
    Pick(s + {x}, x, f);
    assert s + {x} - {x} == s;
  }

  lemma {:induction false} Congruent<T(!new)>(s: set<T>, f: T -> real, g: T -> real)
    requires forall x :: x in s ==> f(x) == g(x)
    ensures SumOver(s, f) == SumOver(s, g)
    decreases |s|
  {
    if s != {} {
      var x :| x in s;
      Pick(s, x, f);
      Pick(s, x, g);
      Congruent(s - {x}, f, g);
    }
  }

  lemma {:induction false} SumsAdd<T(!new)>(s: set<T>, f: T -> real, g: T -> real, h: T -> real)
    requires forall x :: x in s ==> f(x) == g(x) + h(x)
    ensures SumOver(s, f) == SumOver(s, g) + SumOver(s, h)
    decreases |s|
  {
    if s != {} {
      var x :| x in s;
      Pick(s, x, f);
      Pick(s, x, g);
      Pick(s, x, h);
      SumsAdd(s - {x}, f, g, h);
    }
  }

  /** Changing one summand changes the sum by exactly that much. */
  lemma Changed<T(!new)>(s: set<T>, x: T, f: T -> real, g: T -> real)
    requires x in s
    requires forall y :: y in s && y != x ==> f(y) == g(y)
    ensures SumOver(s, g) == SumOver(s, f) + g(x) - f(x)
  {
    Pick(s, x, f);
    Pick(s, x, g);
    Congruent(s - {x}, f, g);
  }
}
