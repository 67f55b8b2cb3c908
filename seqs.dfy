/** Sequence helpers shared by the generators of the model: mapping,
    flattening a sequence of sequences, and the index arithmetic of a
    flattened nest of loops. */
module Seqs {

  /** `[f(x) for x in xs]`. */
  function Map<A, B>(xs: seq<A>, f: A -> B): (r: seq<B>)
    ensures |r| == |xs|
    ensures forall i :: 0 <= i < |xs| ==> r[i] == f(xs[i])
  {
    seq(|xs|, i requires 0 <= i < |xs| => f(xs[i]))
  }

  /** The concatenation of all the sequences in `ss`, in order. */
  function Flatten<T>(ss: seq<seq<T>>): seq<T>
  {
    if ss == [] then [] else ss[0] + Flatten(ss[1..])
  }

  lemma {:induction false} FlattenAppend<T>(a: seq<seq<T>>, b: seq<seq<T>>)
    ensures Flatten(a + b) == Flatten(a) + Flatten(b)
  {
    if a == [] {
      assert a + b == b;
    } else {
      assert (a + b)[1..] == a[1..] + b;
      FlattenAppend(a[1..], b);
    }
  }

  lemma FlattenSingle<T>(x: seq<T>)
    ensures Flatten([x]) == x
  {
    assert [x][1..] == [];
  }

  /** Adding one more element to the mapped prefix adds its image at the end. */
  lemma FlattenMapSnoc<A, T>(xs: seq<A>, f: A -> seq<T>, k: nat)
    requires k < |xs|
    ensures Flatten(Map(xs[..k + 1], f)) == Flatten(Map(xs[..k], f)) + f(xs[k])
  {
    assert Map(xs[..k + 1], f) == Map(xs[..k], f) + [f(xs[k])];
    FlattenAppend(Map(xs[..k], f), [f(xs[k])]);
    FlattenSingle(f(xs[k]));
  }

  /** Taking the head off a non-empty front part. */
  lemma ConsSplit<T>(v: seq<T>, later: seq<T>)
    requires v != []
    ensures v + later == [v[0]] + (v[1..] + later)
  {
    assert v == [v[0]] + v[1..];
  }

  /** One more row of `b`: the step every length-by-count proof takes. */
  lemma MulStep(a: nat, b: nat)
    ensures (a + 1) * b == a * b + b
  {
  }

  /** When every piece has length `m`, the flattened sequence has length
      `|ss| * m` and its element `i * m + j` is element `j` of piece `i`. */
  lemma {:induction false} FlattenUniformLength<T>(ss: seq<seq<T>>, m: nat)
    requires forall k :: 0 <= k < |ss| ==> |ss[k]| == m
    ensures |Flatten(ss)| == |ss| * m
  {
    if ss != [] {
      FlattenUniformLength(ss[1..], m);
      assert |ss| * m == m + (|ss| - 1) * m;
    }
  }

  lemma {:induction false} FlattenUniformAt<T>(ss: seq<seq<T>>, m: nat, i: nat, j: nat)
    requires forall k :: 0 <= k < |ss| ==> |ss[k]| == m
    requires i < |ss| && j < m
    ensures i * m + j < |Flatten(ss)|
    ensures Flatten(ss)[i * m + j] == ss[i][j]
  {
    FlattenUniformLength(ss, m);
    if i > 0 {
      FlattenUniformAt(ss[1..], m, i - 1, j);
      assert i * m + j == m + ((i - 1) * m + j);
    }
  }
}
