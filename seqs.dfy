/** `Array.prototype.filter` on sequences, with the facts the routes rely on. */
module Seqs {

  /** `xs.filter(keep)`: the elements that pass, in order. */
  function Select<T>(xs: seq<T>, keep: T -> bool): (ys: seq<T>)
    ensures |ys| <= |xs|
    ensures forall i :: 0 <= i < |ys| ==> keep(ys[i])
  {
    if xs == [] then [] else (if keep(xs[0]) then [xs[0]] else []) + Select(xs[1..], keep)
  }

  /** Filtering a concatenation is concatenating the filtered parts. */
  lemma {:induction false} SelectAppend<T>(a: seq<T>, b: seq<T>, keep: T -> bool)
    ensures Select(a + b, keep) == Select(a, keep) + Select(b, keep)
  {
    if a == [] {
      assert a + b == b;
    } else {
      var h := if keep(a[0]) then [a[0]] else [];
      assert (a + b)[0] == a[0] && (a + b)[1..] == a[1..] + b;
      assert Select(a + b, keep) == h + Select(a[1..] + b, keep);
      SelectAppend(a[1..], b, keep);
      assert h + (Select(a[1..], keep) + Select(b, keep)) == (h + Select(a[1..], keep)) + Select(b, keep);
    }
  }

  /** Nothing that passes is dropped. */
  lemma {:induction false} SelectComplete<T>(xs: seq<T>, keep: T -> bool)
    ensures forall i :: 0 <= i < |xs| && keep(xs[i]) ==> xs[i] in Select(xs, keep)
  {
    if xs != [] {
      SelectComplete(xs[1..], keep);
      assert forall i :: 1 <= i < |xs| ==> xs[i] == xs[1..][i - 1];
    }
  }

  /** How many elements pass. */
  function Count<T>(xs: seq<T>, keep: T -> bool): (n: nat)
    ensures n <= |xs|
  {
    |Select(xs, keep)|
  }

  /** Counting a concatenation is adding the counts. */
  lemma CountAppend<T>(a: seq<T>, b: seq<T>, keep: T -> bool)
    ensures Count(a + b, keep) == Count(a, keep) + Count(b, keep)
  {
    SelectAppend(a, b, keep);
  }

  /** One element counts once if it passes. */
  lemma CountOne<T>(x: T, keep: T -> bool)
    ensures Count([x], keep) == if keep(x) then 1 else 0
  {
    assert [x][1..] == [];
  }

  /** Counting one element further along a prefix. */
  lemma CountPrefix<T>(xs: seq<T>, i: nat, keep: T -> bool)
    requires i < |xs|
    ensures Count(xs[..i + 1], keep) == Count(xs[..i], keep) + if keep(xs[i]) then 1 else 0
  {
    assert xs[..i + 1] == xs[..i] + [xs[i]];
    CountAppend(xs[..i], [xs[i]], keep);
    CountOne(xs[i], keep);
  }

  /** Counting up to the last element. */
  lemma CountLast<T>(xs: seq<T>, keep: T -> bool)
    requires xs != []
    ensures Count(xs, keep) == Count(xs[..|xs| - 1], keep) + if keep(xs[|xs| - 1]) then 1 else 0
  {
    assert xs == xs[..|xs| - 1] + [xs[|xs| - 1]];
    CountAppend(xs[..|xs| - 1], [xs[|xs| - 1]], keep);
    CountOne(xs[|xs| - 1], keep);
  }

  /** A stricter test counts no more. */
  lemma {:induction false} CountMono<T>(xs: seq<T>, strict: T -> bool, loose: T -> bool)
    requires forall x :: strict(x) ==> loose(x)
    ensures Count(xs, strict) <= Count(xs, loose)
  {
    if xs != [] {
      CountMono(xs[1..], strict, loose);
    }
  }

  /** When everything passes, everything counts. */
  lemma {:induction false} CountEvery<T>(xs: seq<T>, keep: T -> bool)
    requires forall i :: 0 <= i < |xs| ==> keep(xs[i])
    ensures Count(xs, keep) == |xs|
  {
    if xs != [] {
      CountEvery(xs[1..], keep);
    }
  }
}
