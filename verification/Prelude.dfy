/** Definitions the other modules share: results, non-empty strings, and sums over sequences. */
module Prelude {
  datatype Option<+T> = None | Some(value: T)

  datatype Result<+T> = Ok(value: T) | Err(error: string)

  type NonEmpty = s: string | s != "" witness "id"

  function RemoveAt<T>(xs: seq<T>, k: nat): seq<T>
    requires k < |xs|
  {
    xs[..k] + xs[k + 1..]
  }

  function Reversed<T>(xs: seq<T>): (r: seq<T>)
    ensures |r| == |xs|
  {
    if xs == [] then [] else Reversed(xs[1..]) + [xs[0]]
  }

  lemma {:induction false} ReversedSnoc<T>(xs: seq<T>, x: T)
    ensures Reversed(xs + [x]) == [x] + Reversed(xs)
  {
    if xs == [] {
      assert xs + [x] == [x];
    } else {
      assert (xs + [x])[1..] == xs[1..] + [x];
      ReversedSnoc(xs[1..], x);
    }
  }

  lemma ConcatAssoc<T>(a: seq<T>, b: seq<T>, c: seq<T>)
    ensures (a + b) + c == a + (b + c)
  {
  }

  lemma {:induction false} ReversedConcat<T>(a: seq<T>, b: seq<T>)
    ensures Reversed(a + b) == Reversed(b) + Reversed(a)
  {
    if a == [] {
      assert a + b == b;
    } else {
      assert (a + b)[1..] == a[1..] + b;
      ReversedConcat(a[1..], b);
    }
  }

  lemma {:induction false} ReversedTwice<T>(xs: seq<T>)
    ensures Reversed(Reversed(xs)) == xs
  {
    if xs != [] {
      ReversedTwice(xs[1..]);
      ReversedSnoc(Reversed(xs[1..]), xs[0]);
    }
  }

  /** Two stretches of a queue's history, one after the other. */
  lemma Chain<T>(q: seq<T>, a: seq<T>, more: seq<T>, h: seq<T>, q': seq<T>, handed: seq<T>, rest: seq<T>)
    requires q + a == h + q' && q' + more == handed + rest
    ensures q + (a + more) == (h + handed) + rest
  {
    assert q + (a + more) == (q + a) + more;
    assert (h + q') + more == h + (q' + more);
    assert h + (handed + rest) == (h + handed) + rest;
  }

  // ---- sums -------------------------------------------------------------

  /** The weights of all elements together; with weights 0 and 1, how many elements count. */
  function Sum<T>(weight: T -> nat, xs: seq<T>): nat {
    if xs == [] then 0 else weight(xs[0]) + Sum(weight, xs[1..])
  }

  lemma SumOne<T>(weight: T -> nat, x: T)
    ensures Sum(weight, [x]) == weight(x)
  {
    assert [x][1..] == [];
  }

  lemma {:induction false} SumConcat<T>(weight: T -> nat, a: seq<T>, b: seq<T>)
    ensures Sum(weight, a + b) == Sum(weight, a) + Sum(weight, b)
  {
    if a == [] {
      assert a + b == b;
    } else {
      assert (a + b)[1..] == a[1..] + b;
      SumConcat(weight, a[1..], b);
    }
  }

  lemma SumCons<T>(weight: T -> nat, x: T, xs: seq<T>)
    ensures Sum(weight, [x] + xs) == weight(x) + Sum(weight, xs)
  {
    assert ([x] + xs)[1..] == xs;
  }

  lemma SumSnoc<T>(weight: T -> nat, xs: seq<T>, x: T)
    ensures Sum(weight, xs + [x]) == Sum(weight, xs) + weight(x)
  {
    SumConcat(weight, xs, [x]);
    SumOne(weight, x);
  }

  lemma SumLast<T>(weight: T -> nat, xs: seq<T>)
    requires xs != []
    ensures Sum(weight, xs) == Sum(weight, xs[..|xs| - 1]) + weight(xs[|xs| - 1])
  {
    assert xs == xs[..|xs| - 1] + [xs[|xs| - 1]];
    SumSnoc(weight, xs[..|xs| - 1], xs[|xs| - 1]);
  }

  lemma {:induction false} SumRemoveAt<T>(weight: T -> nat, xs: seq<T>, k: nat)
    requires k < |xs|
    ensures Sum(weight, xs) == Sum(weight, RemoveAt(xs, k)) + weight(xs[k])
  {
    var rest := RemoveAt(xs, k);
    if k == 0 {
      assert rest == xs[1..];
    } else {
      assert rest[0] == xs[0] && rest[1..] == RemoveAt(xs[1..], k - 1);
      SumRemoveAt(weight, xs[1..], k - 1);
    }
  }

  lemma {:induction false} SumUpdate<T>(weight: T -> nat, xs: seq<T>, k: nat, x: T)
    requires k < |xs|
    ensures Sum(weight, xs[k := x]) + weight(xs[k]) == Sum(weight, xs) + weight(x)
  {
    var after := xs[k := x];
    if k == 0 {
      assert after[1..] == xs[1..];
    } else {
      assert after[0] == xs[0] && after[1..] == xs[1..][k - 1 := x];
      SumUpdate(weight, xs[1..], k - 1, x);
    }
  }

  lemma {:induction false} SumReversed<T>(weight: T -> nat, xs: seq<T>)
    ensures Sum(weight, Reversed(xs)) == Sum(weight, xs)
  {
    if xs != [] {
      SumReversed(weight, xs[1..]);
      SumSnoc(weight, Reversed(xs[1..]), xs[0]);
    }
  }

  lemma {:induction false} SumZero<T>(weight: T -> nat, xs: seq<T>)
    ensures Sum(weight, xs) == 0 <==> forall i :: 0 <= i < |xs| ==> weight(xs[i]) == 0
  {
    if xs != [] {
      SumZero(weight, xs[1..]);
      assert forall i :: 0 < i < |xs| ==> xs[i] == xs[1..][i - 1];
    }
  }
}
