/** Sequence helpers shared by the models: the index filter behind `np.where(...)[0]` and
    the row-major flattening behind `reshape(len(X), -1)`. */
module Sequences {

  /** The positions of `s` whose element satisfies `p`, in increasing order. */
  function Where<T>(s: seq<T>, p: T -> bool): (idx: seq<nat>)
    ensures forall j | 0 <= j < |idx| :: idx[j] < |s| && p(s[idx[j]])
    ensures forall i | 0 <= i < |s| && p(s[i]) :: i in idx
    ensures forall j, k | 0 <= j < k < |idx| :: idx[j] < idx[k]
    decreases |s|
  {
    if s == [] then []
    else
      var front := Where(s[..|s| - 1], p);
      assert forall i | 0 <= i < |s| - 1 :: s[..|s| - 1][i] == s[i];
      front + (if p(s[|s| - 1]) then [|s| - 1] else [])
  }

  /** The rows laid end to end. */
  function Flatten<T>(rows: seq<seq<T>>): seq<T>
    decreases |rows|
  {
    if rows == [] then [] else rows[0] + Flatten(rows[1..])
  }

  /** Every row has `width` entries. */
  predicate Uniform<T>(rows: seq<seq<T>>, width: nat) {
    forall i | 0 <= i < |rows| :: |rows[i]| == width
  }

  lemma {:induction false} FlattenAppend<T>(a: seq<seq<T>>, b: seq<seq<T>>)
    ensures Flatten(a + b) == Flatten(a) + Flatten(b)
    decreases |a|
  {
    if a != [] {
      assert (a + b)[1..] == a[1..] + b;
      FlattenAppend(a[1..], b);
    } else {
      assert a + b == b;
    }
  }

  /** Flattening `n` rows of width `w` gives `n * w` values. */
  lemma {:induction false} FlattenLength<T>(rows: seq<seq<T>>, width: nat)
    requires Uniform(rows, width)
    ensures |Flatten(rows)| == |rows| * width
    decreases |rows|
  {
    if rows != [] {
      var tail := rows[1..];
      assert Uniform(tail, width) by {
        forall i | 0 <= i < |tail| ensures |tail[i]| == width { assert tail[i] == rows[i + 1]; }
      }
      FlattenLength(tail, width);
      calc {
        |Flatten(rows)|;
        width + |tail| * width;
        { assert |rows| == |tail| + 1; }
        (|tail| + 1) * width;
      }
    }
  }
}
