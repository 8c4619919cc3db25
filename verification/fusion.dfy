/** The per-timestep fusion head of Transformer.forward: the first five timesteps are dropped,
    time is folded into the batch axis, every retained timestep is concatenated with the static
    features and the diagnosis encoding of its sequence, each fused row is scored, and the
    scores are reshaped back to B × (T − 5) and sent through the output link. The learnt layers
    are given functions; only the layout and the clamp are modelled exactly. */
module Fusion {
  import opened Common
  import opened Output

  /** Timesteps before this one never receive a prediction. */
  const Window: nat := 5

  /** Row of the flattened (B·n) × w layout holding step k of sequence b. */
  function FlatIndex(b: nat, k: nat, n: nat, batch: nat): (i: nat)
    requires b < batch && k < n
    ensures i < batch * n
    ensures i / n == b && i % n == k
  {
    MulMonotone(b + 1, batch, n);
    DivideFlat(b, k, n);
    b * n + k
  }

  lemma MulMonotone(a: nat, c: nat, n: nat)
    requires a <= c
    ensures a * n <= c * n
  {
  }

  /** Quotient and remainder of b·n + k by n, from the uniqueness of Euclidean division. */
  lemma DivideFlat(b: nat, k: nat, n: nat)
    requires k < n
    ensures (b * n + k) / n == b && (b * n + k) % n == k
  {
    var i := b * n + k;
    var q, r := i / n, i % n;
    assert i == q * n + r;
    if q > b {
      MulMonotone(b + 1, q, n);
      assert false;
    }
    if q < b {
      MulMonotone(q + 1, b, n);
      assert false;
    }
  }

  /** Every row of a (batch·n)-row layout is the flat index of exactly its quotient and
      remainder by n. */
  lemma FlatIndexCovers(i: nat, n: nat, batch: nat)
    requires i < batch * n
    ensures n > 0 && i / n < batch && i % n < n
    ensures FlatIndex(i / n, i % n, n, batch) == i
  {
  }

  /** `view(B * n, ...)` of a B × n × ... tensor: the blocks laid one after another. */
  function Flatten<T>(blocks: seq<seq<T>>, n: nat): (r: seq<T>)
    requires forall b :: 0 <= b < |blocks| ==> |blocks[b]| == n
    ensures |r| == |blocks| * n
    ensures forall b, k :: 0 <= b < |blocks| && 0 <= k < n ==>
      r[FlatIndex(b, k, n, |blocks|)] == blocks[b][k]
  {
    if blocks == [] then []
    else
      var rest := Flatten(blocks[1..], n);
      var r := blocks[0] + rest;
      assert forall b, k :: 1 <= b < |blocks| && 0 <= k < n ==>
        FlatIndex(b, k, n, |blocks|) == n + FlatIndex(b - 1, k, n, |blocks| - 1);
      r
  }

  /** `view(B, n)` of a vector of B·n scores. */
  function View(scores: seq<real>, batch: nat, n: nat): (r: Matrix)
    requires |scores| == batch * n
    ensures IsMatrix(r, batch, n)
  {
    seq(batch, b requires 0 <= b < batch =>
      seq(n, k requires 0 <= k < n => scores[FlatIndex(b, k, n, batch)]))
  }

  /** Reshaping B·n scores to B × n and laying the rows out again gives back the scores: the
      two reshapes are inverse. */
  lemma ViewFlattenRoundTrip(scores: seq<real>, batch: nat, n: nat)
    requires |scores| == batch * n
    ensures Flatten(View(scores, batch, n), n) == scores
  {
    var grid := View(scores, batch, n);
    var flat := Flatten(grid, n);
    forall i | 0 <= i < batch * n
      ensures flat[i] == scores[i]
    {
      FlatIndexCovers(i, n, batch);
      assert flat[FlatIndex(i / n, i % n, n, batch)] == grid[i / n][i % n];
    }
  }

  /** Laying out B blocks of n rows and reshaping to B × n gives back the blocks. */
  lemma FlattenViewRoundTrip(grid: Matrix, batch: nat, n: nat)
    requires IsMatrix(grid, batch, n)
    ensures View(Flatten(grid, n), batch, n) == grid
  {
    var back := View(Flatten(grid, n), batch, n);
    forall b | 0 <= b < batch
      ensures back[b] == grid[b]
    {
      assert |back[b]| == n;
    }
  }

  /** The channels of one sequence at timestep t. */
  function TimeColumn(xb: Matrix, t: nat): seq<real>
    requires forall c :: 0 <= c < |xb| ==> t < |xb[c]|
  {
    seq(|xb|, c requires 0 <= c < |xb| => xb[c][t])
  }

  /** `x[b, :, 5:]`: every channel without its first five steps. */
  function Trim(xb: Matrix): Matrix
    requires forall c :: 0 <= c < |xb| ==> Window <= |xb[c]|
  {
    seq(|xb|, c requires 0 <= c < |xb| => xb[c][Window..])
  }

  /** The retained timesteps of one sequence, one row each. */
  function RetainedSteps(xb: Matrix, d: nat, t: nat): (r: Matrix)
    requires t >= Window && IsMatrix(xb, d, t)
    ensures IsMatrix(r, t - Window, d)
    ensures forall k :: 0 <= k < t - Window ==> r[k] == TimeColumn(xb, k + Window)
  {
    Transpose(Trim(xb), d, t - Window)
  }

  /** `repeat_interleave(n, dim=0)`: each row repeated n times in place. */
  function RepeatInterleave(m: Matrix, n: nat): (r: Matrix)
    ensures |r| == |m| * n
    ensures forall b, k :: 0 <= b < |m| && 0 <= k < n ==> r[FlatIndex(b, k, n, |m|)] == m[b]
  {
    Flatten(seq(|m|, b requires 0 <= b < |m| => seq(n, _ => m[b])), n)
  }

  /** `cat((a, b, c), dim=1)`. */
  function ConcatRows(a: Matrix, b: Matrix, c: Matrix): Matrix
    requires |a| == |b| == |c|
  {
    seq(|a|, i requires 0 <= i < |a| => a[i] + b[i] + c[i])
  }

  /** Number of timesteps that receive a prediction. */
  function Retained(t: nat): nat
    requires t >= Window
  {
    t - Window
  }

  /** The fused feature matrix: row b·(T − 5) + k is the static features of sequence b, then
      its diagnosis encoding, then the encoder output of its timestep k + 5. */
  function Fuse(flat: Matrix, diag: Matrix, x: Tensor3, s: nat, dz: nat, d: nat, t: nat): (r: Matrix)
    requires t >= Window
    requires IsMatrix(flat, |x|, s) && IsMatrix(diag, |x|, dz) && IsTensor3(x, |x|, d, t)
    ensures IsMatrix(r, |x| * Retained(t), s + dz + d)
    ensures forall b, k :: 0 <= b < |x| && 0 <= k < Retained(t) ==>
      r[FlatIndex(b, k, Retained(t), |x|)] == flat[b] + diag[b] + TimeColumn(x[b], k + Window)
  {
    var n := Retained(t);
    var steps := Flatten(seq(|x|, b requires 0 <= b < |x| => RetainedSteps(x[b], d, t)), n);
    var r := ConcatRows(RepeatInterleave(flat, n), RepeatInterleave(diag, n), steps);
    assert IsMatrix(r, |x| * n, s + dz + d) by {
      forall i | 0 <= i < |r|
        ensures |r[i]| == s + dz + d
      {
        FlatIndexCovers(i, n, |x|);
      }
    }
    r
  }

  /** Every fused row splits into three parts: the static features of its sequence, the
      diagnosis encoding of its sequence, and the encoder output of one retained timestep. */
  lemma FusedRowParts(flat: Matrix, diag: Matrix, x: Tensor3, s: nat, dz: nat, d: nat, t: nat, i: nat)
    requires t >= Window
    requires IsMatrix(flat, |x|, s) && IsMatrix(diag, |x|, dz) && IsTensor3(x, |x|, d, t)
    requires i < |x| * Retained(t)
    ensures i / Retained(t) < |x|
    ensures Fuse(flat, diag, x, s, dz, d, t)[i][..s] == flat[i / Retained(t)]
    ensures Fuse(flat, diag, x, s, dz, d, t)[i][s..s + dz] == diag[i / Retained(t)]
    ensures Fuse(flat, diag, x, s, dz, d, t)[i][s + dz..] ==
            TimeColumn(x[i / Retained(t)], i % Retained(t) + Window)
  {
    var n := Retained(t);
    FlatIndexCovers(i, n, |x|);
    var b, k := i / n, i % n;
    var row := Fuse(flat, diag, x, s, dz, d, t)[FlatIndex(b, k, n, |x|)];
    assert row == flat[b] + diag[b] + TimeColumn(x[b], k + Window);
    assert row[..s] == flat[b];
    assert row[s..s + dz] == diag[b];
    assert row[s + dz..] == TimeColumn(x[b], k + Window);
  }

  /** All retained rows of one sequence carry the same static and diagnosis sub-vector. */
  lemma StaticPartShared(flat: Matrix, diag: Matrix, x: Tensor3, s: nat, dz: nat, d: nat, t: nat,
                         i: nat, j: nat)
    requires t >= Window
    requires IsMatrix(flat, |x|, s) && IsMatrix(diag, |x|, dz) && IsTensor3(x, |x|, d, t)
    requires i < |x| * Retained(t) && j < |x| * Retained(t)
    requires i / Retained(t) == j / Retained(t)
    ensures Fuse(flat, diag, x, s, dz, d, t)[i][..s + dz] == Fuse(flat, diag, x, s, dz, d, t)[j][..s + dz]
  {
    var r := Fuse(flat, diag, x, s, dz, d, t);
    FusedRowParts(flat, diag, x, s, dz, d, t, i);
    FusedRowParts(flat, diag, x, s, dz, d, t, j);
    assert r[i][..s + dz] == r[i][..s] + r[i][s..s + dz];
    assert r[j][..s + dz] == r[j][..s] + r[j][s..s + dz];
  }
}
