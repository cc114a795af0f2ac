/** The array operations the store's listener list uses: `indexOf`,
    `splice(pos, 1)`, and the subsequence order that describes what
    `push` and `splice` do to the relative order of the remaining entries. */
module Sequences {

  /** `xs.indexOf(x)`: the position of the first occurrence of `x`, or -1. */
  function IndexOf<T(==)>(xs: seq<T>, x: T): (r: int)
    ensures -1 <= r < |xs|
    ensures r == -1 <==> x !in xs
    ensures 0 <= r ==> xs[r] == x && x !in xs[..r]
  {
    if |xs| == 0 then -1
    else if xs[0] == x then 0
    else
      var i := IndexOf(xs[1..], x);
      assert xs[1..][..i + 1] == xs[1..i + 2] by {
        assert forall j :: 1 <= j < i + 2 ==> xs[1..][..i + 1][j - 1] == xs[j];
      }
      if i == -1 then -1 else i + 1
  }

  /** `xs.splice(i, 1)`: the sequence with the entry at `i` taken out and
      every other entry kept in its order. */
  function RemoveAt<T>(xs: seq<T>, i: nat): (r: seq<T>)
    requires i < |xs|
    ensures |r| == |xs| - 1
    ensures forall j :: 0 <= j < i ==> r[j] == xs[j]
    ensures forall j :: i <= j < |r| ==> r[j] == xs[j + 1]
    ensures multiset(r) == multiset(xs) - multiset{xs[i]}
  {
    assert xs == xs[..i] + [xs[i]] + xs[i + 1..];
    xs[..i] + xs[i + 1..]
  }

  /** `xs` can be obtained from `ys` by deleting entries: every entry of
      `xs` appears in `ys`, in the same relative order. */
  predicate Subseq<T(==)>(xs: seq<T>, ys: seq<T>)
    decreases |ys|
  {
    if |xs| == 0 then true
    else if |ys| == 0 then false
    else (xs[0] == ys[0] && Subseq(xs[1..], ys[1..])) || Subseq(xs, ys[1..])
  }

  /** Dropping the head of the larger sequence only widens the choice. */
  lemma {:induction false} SubseqOfTail<T>(xs: seq<T>, ys: seq<T>)
    requires |ys| > 0 && Subseq(xs, ys[1..])
    ensures Subseq(xs, ys)
  {
  }

  /** Deleting one entry keeps a subsequence a subsequence. */
  lemma {:induction false} SubseqRemoveAt<T>(xs: seq<T>, ys: seq<T>, i: nat)
    requires i < |xs| && Subseq(xs, ys)
    ensures Subseq(RemoveAt(xs, i), ys)
    decreases |ys|
  {
    var r := RemoveAt(xs, i);
    if |r| == 0 {
    } else if xs[0] == ys[0] && Subseq(xs[1..], ys[1..]) {
      if i == 0 {
        assert r == xs[1..];
        SubseqOfTail(r, ys);
      } else {
        SubseqRemoveAt(xs[1..], ys[1..], i - 1);
        assert r[0] == ys[0];
        assert r[1..] == RemoveAt(xs[1..], i - 1);
      }
    } else {
      SubseqRemoveAt(xs, ys[1..], i);
      SubseqOfTail(r, ys);
    }
  }

  /** Pushing the same entry onto both sequences keeps the order. */
  lemma {:induction false} SubseqAppend<T>(xs: seq<T>, ys: seq<T>, a: T)
    requires Subseq(xs, ys)
    ensures Subseq(xs + [a], ys + [a])
    decreases |ys|
  {
    if |xs| == 0 {
      if |ys| == 0 {
        assert Subseq(([] + [a])[1..], ([] + [a])[1..]);
      } else if ys[0] == a {
        assert Subseq((xs + [a])[1..], (ys + [a])[1..]);
      } else {
        SubseqAppend(xs, ys[1..], a);
        assert (ys + [a])[1..] == ys[1..] + [a];
      }
    } else if xs[0] == ys[0] && Subseq(xs[1..], ys[1..]) {
      SubseqAppend(xs[1..], ys[1..], a);
      assert (xs + [a])[1..] == xs[1..] + [a];
      assert (ys + [a])[1..] == ys[1..] + [a];
    } else {
      SubseqAppend(xs, ys[1..], a);
      assert (ys + [a])[1..] == ys[1..] + [a];
    }
  }
}
