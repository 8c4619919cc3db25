/** Shapes and result types shared by the model of the transformer length-of-stay predictor.
    Tensors are nested sequences of reals; a B × C × T tensor is a sequence of B matrices,
    each a sequence of C rows of length T. */
module Common {

  type Matrix = seq<seq<real>>
  type Tensor3 = seq<Matrix>

  datatype Option<T> = None | Some(value: T)

  /** The ways a modelled operation fails instead of returning a value. */
  datatype Error =
    | ZeroModelWidth                         // the frequency scale divides by d_model = 0
    | OddModelWidth(dModel: nat)             // sin/cos columns of the positional table do not fit
    | DropoutOutOfRange(rate: real)          // a dropout probability outside [0, 1]
    | SequenceTooLong(length: nat)           // more timesteps than the positional table holds
    | EmptyPredictionWindow(batch: nat, length: nat)  // no retained timestep to reshape
    | UnknownLossType(name: string)          // the loss dispatch has no branch for this name

  datatype Result<T> = Ok(value: T) | Err(error: Error)

  predicate IsMatrix(m: Matrix, rows: nat, cols: nat) {
    |m| == rows && forall i :: 0 <= i < |m| ==> |m[i]| == cols
  }

  predicate IsTensor3(x: Tensor3, batch: nat, channels: nat, time: nat) {
    |x| == batch && forall b :: 0 <= b < |x| ==> IsMatrix(x[b], channels, time)
  }

  /** Swaps the two axes of a rows × cols matrix (`transpose(0, 1)`, `permute(1, 0)`). */
  function Transpose<T>(m: seq<seq<T>>, rows: nat, cols: nat): seq<seq<T>>
    requires |m| == rows && forall i :: 0 <= i < rows ==> |m[i]| == cols
  {
    seq(cols, j requires 0 <= j < cols => seq(rows, i requires 0 <= i < rows => m[i][j]))
  }
}
