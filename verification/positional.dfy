/** The sinusoidal positional table of the sequence encoder (PositionalEncoding) and its
    addition to a B × d_model × T batch. The sine and cosine values themselves are
    transcendental floating-point numbers and enter the model as given functions. */
module Positional {
  import opened Common

  /** Length of the table: two weeks of hourly timesteps. */
  const MaxLen: nat := 14 * 24

  /** The table with its leading singleton axis dropped: d_model rows, one column per position. */
  predicate IsTable(pe: Matrix, dModel: nat) {
    IsMatrix(pe, dModel, MaxLen)
  }

  /** Builds the table once, at construction: a max_len × d_model block is filled column by
      column and then transposed. Channel 2i holds sinAt(pos, i) and channel 2i + 1 holds
      cosAt(pos, i), the sine and cosine of pos times the i-th frequency. The frequency scale
      divides by d_model, so d_model == 0 fails before any column is filled. The odd-channel
      slice has d_model / 2 columns while the cosine block assigned to it has (d_model + 1) / 2:
      for an odd d_model above 1 the assignment fails; for d_model == 1 the single cosine column
      broadcasts into the empty slice. */
  function BuildTable(dModel: nat, sinAt: (nat, nat) -> real, cosAt: (nat, nat) -> real): (r: Result<Matrix>)
    ensures r.Ok? <==> (dModel % 2 == 0 && dModel > 0) || dModel == 1
    ensures dModel == 0 ==> r == Err(ZeroModelWidth)
    ensures dModel > 1 && dModel % 2 == 1 ==> r == Err(OddModelWidth(dModel))
    ensures r.Ok? ==> IsTable(r.value, dModel)
    ensures r.Ok? ==> forall c, pos :: 0 <= c < dModel && 0 <= pos < MaxLen ==>
      r.value[c][pos] == (if c % 2 == 0 then sinAt(pos, c / 2) else cosAt(pos, c / 2))
  {
    var frequencies := (dModel + 1) / 2;
    var oddColumns := dModel / 2;
    ColumnCounts(dModel);
    if dModel == 0 then
      Err(ZeroModelWidth)
    else if frequencies != oddColumns && frequencies != 1 then
      Err(OddModelWidth(dModel))
    else
      // sin(position * div_term) and cos(position * div_term): max_len × frequencies
      var sinBlock := seq(MaxLen, pos requires 0 <= pos < MaxLen =>
        seq(frequencies, i requires 0 <= i < frequencies => sinAt(pos, i)));
      var cosBlock := seq(MaxLen, pos requires 0 <= pos < MaxLen =>
        seq(frequencies, i requires 0 <= i < frequencies => cosAt(pos, i)));
      // pe[:, 0::2] = sinBlock; pe[:, 1::2] = cosBlock
      var pe := seq(MaxLen, pos requires 0 <= pos < MaxLen =>
        seq(dModel, c requires 0 <= c < dModel =>
          if c % 2 == 0 then sinBlock[pos][c / 2] else cosBlock[pos][c / 2]));
      var table := Transpose(pe, MaxLen, dModel);
      assert IsTable(table, dModel);
      Ok(table)
  }

  /** The sine block has one column more than the odd-channel slice exactly when d_model is odd. */
  lemma ColumnCounts(dModel: nat)
    ensures (dModel + 1) / 2 == dModel / 2 <==> dModel % 2 == 0
    ensures (dModel + 1) / 2 == 1 <==> dModel == 1 || dModel == 2
  {
  }

  /** `x[:, :, :t]` on a 3-axis tensor, and `pe[:, :, :t]` on the table: the first t
      positions, or all of them when there are fewer. */
  function TakeTime(m: Matrix, t: nat): Matrix {
    seq(|m|, c requires 0 <= c < |m| => if t <= |m[c]| then m[c][..t] else m[c])
  }

  function TruncateTime(x: Tensor3, t: nat): Tensor3 {
    seq(|x|, b requires 0 <= b < |x| => TakeTime(x[b], t))
  }

  /** PositionalEncoding.forward: adds the first T table columns to every batch element. The
      slice of the table has min(T, MaxLen) columns; when that is not T the sum cannot be
      broadcast and the call fails. */
  function AddPositional(x: Tensor3, pe: Matrix, dModel: nat, t: nat): (r: Result<Tensor3>)
    requires IsTable(pe, dModel) && IsTensor3(x, |x|, dModel, t)
    ensures r.Ok? <==> t <= MaxLen
    ensures r.Err? ==> r.error == SequenceTooLong(t)
    ensures r.Ok? ==> IsTensor3(r.value, |x|, dModel, t)
    ensures r.Ok? ==> forall b, c, p :: 0 <= b < |x| && 0 <= c < dModel && 0 <= p < t ==>
      r.value[b][c][p] == x[b][c][p] + pe[c][p]
  {
    var window := TakeTime(pe, t);
    var width := if t <= MaxLen then t else MaxLen;
    if width != t then
      Err(SequenceTooLong(t))
    else
      Ok(seq(|x|, b requires 0 <= b < |x| =>
        seq(dModel, c requires 0 <= c < dModel =>
          seq(t, p requires 0 <= p < t => x[b][c][p] + window[c][p]))))
  }

  /** The signal added at position p does not depend on how long the batch is: encoding the
      first t' steps of a batch gives the first t' steps of encoding the whole batch. */
  lemma PositionalPrefixConsistent(x: Tensor3, pe: Matrix, dModel: nat, t: nat, t': nat)
    requires IsTable(pe, dModel) && IsTensor3(x, |x|, dModel, t)
    requires t' <= t <= MaxLen
    ensures IsTensor3(TruncateTime(x, t'), |x|, dModel, t')
    ensures AddPositional(TruncateTime(x, t'), pe, dModel, t') ==
            Ok(TruncateTime(AddPositional(x, pe, dModel, t).value, t'))
  {
    var short := TruncateTime(x, t');
    var whole := AddPositional(x, pe, dModel, t).value;
    assert IsTensor3(short, |x|, dModel, t');
    var lhs := AddPositional(short, pe, dModel, t').value;
    var rhs := TruncateTime(whole, t');
    forall b | 0 <= b < |x|
      ensures lhs[b] == rhs[b]
    {
      forall c | 0 <= c < dModel
        ensures lhs[b][c] == rhs[b][c]
      {
        assert |lhs[b][c]| == |rhs[b][c]| == t';
        forall p | 0 <= p < t'
          ensures lhs[b][c][p] == rhs[b][c][p]
        {
          assert short[b][c][p] == x[b][c][p];
          assert rhs[b][c][p] == whole[b][c][p];
        }
      }
    }
    assert lhs == rhs;
  }
}
