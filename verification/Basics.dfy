/** Options, sums over a fleet of workers, and concatenation of the queues in priority order. */
module Basics {

  datatype Option<+T> = None | Some(value: T)

  ghost predicate Distinct<T(!new)>(xs: seq<T>) {
    forall i, j :: 0 <= i < j < |xs| ==> xs[i] != xs[j]
  }

  lemma {:induction false} DistinctCount<T(!new)>(xs: seq<T>, x: T)
    requires Distinct(xs)
    ensures multiset(xs)[x] <= 1
  {
    if xs == [] {
    } else {
      var rest := xs[1..];
      assert xs == [xs[0]] + rest;
      DistinctCount(rest, x);
      assert forall i :: 0 <= i < |rest| ==> rest[i] == xs[i + 1];
    }
  }

  lemma TwiceCount<T>(xs: seq<T>, i: nat, j: nat)
    requires i < j < |xs| && xs[i] == xs[j]
    ensures multiset(xs)[xs[i]] >= 2
  {
    assert xs == xs[..j] + [xs[j]] + xs[j + 1..];
    assert xs[..j][i] == xs[i];
  }

  /** Shuffling does not make elements equal. */
  lemma DistinctShuffle<T(!new)>(xs: seq<T>, ys: seq<T>)
    requires Distinct(ys) && multiset(xs) == multiset(ys)
    ensures Distinct(xs)
  {
    forall i, j | 0 <= i < j < |xs| ensures xs[i] != xs[j] {
      if xs[i] == xs[j] {
        DistinctCount(ys, xs[i]);
        TwiceCount(xs, i, j);
      }
    }
  }

  /** The sum of `f` over `xs`. */
  function Total<T>(f: T -> nat, xs: seq<T>): nat {
    if xs == [] then 0 else f(xs[0]) + Total(f, xs[1..])
  }

  lemma {:induction false} TotalUpdate<T>(f: T -> nat, xs: seq<T>, i: nat, x: T)
    requires i < |xs|
    ensures Total(f, xs[i := x]) + f(xs[i]) == Total(f, xs) + f(x)
  {
    if i == 0 {
      assert xs[i := x][1..] == xs[1..];
    } else {
      assert xs[i := x][1..] == xs[1..][i - 1 := x];
      TotalUpdate(f, xs[1..], i - 1, x);
    }
  }

  lemma {:induction false} TotalMember<T>(f: T -> nat, xs: seq<T>, i: nat)
    requires i < |xs|
    ensures f(xs[i]) <= Total(f, xs)
  {
    if i == 0 {
    } else {
      TotalMember(f, xs[1..], i - 1);
    }
  }

  lemma {:induction false} TotalAppend<T>(f: T -> nat, xs: seq<T>, x: T)
    ensures Total(f, xs + [x]) == Total(f, xs) + f(x)
  {
    if xs == [] {
      assert [x][1..] == [];
    } else {
      assert (xs + [x])[1..] == xs[1..] + [x];
      TotalAppend(f, xs[1..], x);
    }
  }

  lemma {:induction false} TotalAtMost<T>(f: T -> nat, xs: seq<T>, bound: nat)
    requires forall i :: 0 <= i < |xs| ==> f(xs[i]) <= bound
    ensures Total(f, xs) <= |xs| * bound
  {
    if xs == [] {
    } else {
      TotalAtMost(f, xs[1..], bound);
      assert |xs| * bound == |xs[1..]| * bound + bound;
    }
  }

  lemma {:induction false} TotalAtLeast<T>(f: T -> nat, xs: seq<T>, bound: nat)
    requires forall i :: 0 <= i < |xs| ==> f(xs[i]) >= bound
    ensures Total(f, xs) >= |xs| * bound
  {
    if xs == [] {
    } else {
      TotalAtLeast(f, xs[1..], bound);
      assert |xs| * bound == |xs[1..]| * bound + bound;
    }
  }

  /** A sum is zero exactly when every term is. */
  lemma {:induction false} TotalZero<T>(f: T -> nat, xs: seq<T>)
    ensures Total(f, xs) == 0 <==> forall i :: 0 <= i < |xs| ==> f(xs[i]) == 0
  {
    if xs == [] {
    } else {
      TotalZero(f, xs[1..]);
      assert forall i :: 0 < i < |xs| ==> xs[i] == xs[1..][i - 1];
      if forall i :: 0 <= i < |xs| ==> f(xs[i]) == 0 {
        assert forall i :: 0 <= i < |xs[1..]| ==> f(xs[1..][i]) == 0;
      }
    }
  }

  /** The lists one after the other, in priority order. */
  function Flatten<T>(xss: seq<seq<T>>): seq<T> {
    if xss == [] then [] else xss[0] + Flatten(xss[1..])
  }

  ghost predicate EmptyBelow<T>(xss: seq<seq<T>>, k: nat) {
    forall i :: 0 <= i < k && i < |xss| ==> xss[i] == []
  }

  /** Popping the head of list `i` removes exactly that element. */
  lemma {:induction false} FlattenPop<T>(xss: seq<seq<T>>, i: nat)
    requires i < |xss| && xss[i] != []
    ensures multiset(Flatten(xss)) == multiset{xss[i][0]} + multiset(Flatten(xss[i := xss[i][1..]]))
  {
    var yss := xss[i := xss[i][1..]];
    if i == 0 {
      assert yss[1..] == xss[1..];
      assert Flatten(xss) == [xss[0][0]] + Flatten(yss);
    } else {
      assert yss[1..] == xss[1..][i - 1 := xss[1..][i - 1][1..]];
      FlattenPop(xss[1..], i - 1);
    }
  }

  lemma {:induction false} FlattenPush<T>(xss: seq<seq<T>>, i: nat, x: T)
    requires i < |xss|
    ensures multiset(Flatten(xss[i := xss[i] + [x]])) == multiset(Flatten(xss)) + multiset{x}
  {
    var yss := xss[i := xss[i] + [x]];
    if i == 0 {
      assert yss[1..] == xss[1..];
    } else {
      assert yss[1..] == xss[1..][i - 1 := xss[1..][i - 1] + [x]];
      FlattenPush(xss[1..], i - 1, x);
    }
  }

  /** If all lists before `i` are empty, the head of list `i` is the head of the concatenation. */
  lemma {:induction false} FlattenPopFirst<T>(xss: seq<seq<T>>, i: nat)
    requires i < |xss| && xss[i] != [] && EmptyBelow(xss, i)
    ensures Flatten(xss) == [xss[i][0]] + Flatten(xss[i := xss[i][1..]])
  {
    var yss := xss[i := xss[i][1..]];
    if i == 0 {
      assert yss[1..] == xss[1..];
    } else {
      assert yss[1..] == xss[1..][i - 1 := xss[1..][i - 1][1..]];
      FlattenPopFirst(xss[1..], i - 1);
    }
  }

  lemma {:induction false} FlattenEmpty<T>(xss: seq<seq<T>>)
    ensures Flatten(xss) == [] <==> EmptyBelow(xss, |xss|)
  {
    if xss == [] {
    } else {
      FlattenEmpty(xss[1..]);
      assert forall i :: 0 < i < |xss| ==> xss[i] == xss[1..][i - 1];
      if EmptyBelow(xss, |xss|) {
        assert EmptyBelow(xss[1..], |xss[1..]|);
      }
    }
  }

  /** Where the elements of list `i` sit in the concatenation. */
  lemma {:induction false} FlattenLength<T>(xss: seq<seq<T>>)
    ensures |Flatten(xss)| == Total((xs: seq<T>) => |xs|, xss)
  {
    if xss == [] {
    } else {
      FlattenLength(xss[1..]);
    }
  }

  lemma {:induction false} MulGap(d': nat, d: nat, m: nat)
    requires d' < d
    ensures d' * m + m <= d * m
  {
    assert d * m == (d - 1) * m + m;
    if d' == d - 1 {
    } else {
      MulGap(d', d - 1, m);
    }
  }
}
