/** The causal attention mask of the sequence encoder (TransformerEncoder._causal_mask) and
    what it does to one row of attention: a query never puts weight on a later key. */
module CausalMask {
  import opened Common

  /** An entry of the additive float mask: 0.0, or −∞. */
  datatype MaskEntry = Zero | NegInf

  /** `torch.triu(torch.ones(n, n)) == 1`: true on and above the diagonal. */
  function UpperOnes(n: nat): seq<seq<bool>> {
    seq(n, i => seq(n, j => i <= j))
  }

  /** `.float().masked_fill(mask == 0, -inf).masked_fill(mask == 1, 0.0)`. */
  function Fill(m: seq<seq<bool>>): seq<seq<MaskEntry>> {
    seq(|m|, i requires 0 <= i < |m| =>
      seq(|m[i]|, j requires 0 <= j < |m[i]| => if m[i][j] then Zero else NegInf))
  }

  /** The T × T mask handed to every encoder layer: query i may attend to key j exactly
      when j <= i. */
  function Mask(size: nat): (m: seq<seq<MaskEntry>>)
    ensures |m| == size
    ensures forall i :: 0 <= i < size ==> |m[i]| == size
    ensures forall i, j :: 0 <= i < size && 0 <= j < size ==> (m[i][j] == Zero <==> j <= i)
    ensures forall i, j :: 0 <= i < size && 0 <= j < size ==> (m[i][j] == NegInf <==> i < j)
  {
    Fill(Transpose(UpperOnes(size), size, size))
  }

  /** Number of finite (0.0) entries of a mask row. */
  function CountFinite(row: seq<MaskEntry>): nat {
    if row == [] then 0 else (if row[0] == Zero then 1 else 0) + CountFinite(row[1..])
  }

  /** A row whose finite entries are exactly its first k has k finite entries. */
  lemma {:induction false} CountFinitePrefix(row: seq<MaskEntry>, k: nat)
    requires k <= |row|
    requires forall j :: 0 <= j < |row| ==> (row[j] == Zero <==> j < k)
    ensures CountFinite(row) == k
  {
    if row != [] {
      CountFinitePrefix(row[1..], if k == 0 then 0 else k - 1);
    }
  }

  /** Row i of the mask has i + 1 finite entries: the keys 0..i, diagonal included. */
  lemma MaskRowFiniteCount(size: nat, i: nat)
    requires i < size
    ensures CountFinite(Mask(size)[i]) == i + 1
  {
    CountFinitePrefix(Mask(size)[i], i + 1);
  }

  function Sum(s: seq<real>): real {
    if s == [] then 0.0 else s[0] + Sum(s[1..])
  }

  /** A sum of non-negative terms is at least each of its terms. */
  lemma {:induction false} SumAtLeastTerm(s: seq<real>, k: nat)
    requires k < |s|
    requires forall j :: 0 <= j < |s| ==> s[j] >= 0.0
    ensures Sum(s) >= s[k]
  {
    if k == 0 {
      SumNonNegative(s[1..]);
    } else {
      SumAtLeastTerm(s[1..], k - 1);
    }
  }

  lemma {:induction false} SumNonNegative(s: seq<real>)
    requires forall j :: 0 <= j < |s| ==> s[j] >= 0.0
    ensures Sum(s) >= 0.0
  {
    if s != [] {
      SumNonNegative(s[1..]);
    }
  }

  /** Every term divided by the same non-zero total. */
  function Normalise(w: seq<real>, total: real): (p: seq<real>)
    requires total != 0.0
    ensures |p| == |w|
    ensures forall j :: 0 <= j < |w| ==> p[j] == w[j] / total
  {
    if w == [] then [] else [w[0] / total] + Normalise(w[1..], total)
  }

  /** Normalising divides the total by the same factor. */
  lemma {:induction false} SumNormalise(w: seq<real>, total: real)
    requires total != 0.0
    ensures Sum(Normalise(w, total)) == Sum(w) / total
  {
    if w != [] {
      var p := Normalise(w, total);
      assert p[1..] == Normalise(w[1..], total);
      SumNormalise(w[1..], total);
      DivideSum(w[0], Sum(w[1..]), total);
    }
  }

  /** Dividing by a positive total keeps zero terms zero and positive terms positive. */
  lemma NormaliseSigns(w: seq<real>, total: real)
    requires total > 0.0
    ensures forall j :: 0 <= j < |w| && w[j] == 0.0 ==> Normalise(w, total)[j] == 0.0
    ensures forall j :: 0 <= j < |w| && w[j] > 0.0 ==> Normalise(w, total)[j] > 0.0
  {
  }

  lemma DivideSelf(t: real)
    requires t != 0.0
    ensures t / t == 1.0
  {
  }

  lemma DivideSum(a: real, b: real, t: real)
    requires t != 0.0
    ensures a / t + b / t == (a + b) / t
  {
  }

  /** Unnormalised attention weights of one query row: adding −∞ to a score makes its
      exponential 0, adding 0.0 leaves it; `expScores` are the exponentials of the raw scores. */
  function MaskedWeights(row: seq<MaskEntry>, expScores: seq<real>): seq<real>
    requires |row| == |expScores|
  {
    seq(|row|, j requires 0 <= j < |row| => if row[j] == Zero then expScores[j] else 0.0)
  }

  /** Softmax of query i's scores under the causal mask of size T: a probability distribution
      that is zero on every later key and positive on every earlier key. */
  function AttentionWeights(size: nat, i: nat, expScores: seq<real>): (p: seq<real>)
    requires i < size && |expScores| == size
    requires forall j :: 0 <= j < size ==> expScores[j] > 0.0
    ensures |p| == size
    ensures forall j :: i < j < size ==> p[j] == 0.0
    ensures forall j :: 0 <= j <= i ==> p[j] > 0.0
    ensures Sum(p) == 1.0
  {
    var w := MaskedWeights(Mask(size)[i], expScores);
    var total := Sum(w);
    SumAtLeastTerm(w, i);
    SumNormalise(w, total);
    NormaliseSigns(w, total);
    DivideSelf(total);
    Normalise(w, total)
  }

  /** One channel of the attention output: the weighted sum of the values. */
  function Mix(p: seq<real>, v: seq<real>): real
    requires |p| == |v|
  {
    if p == [] then 0.0 else p[0] * v[0] + Mix(p[1..], v[1..])
  }

  lemma {:induction false} MixIgnoresZeroWeights(p: seq<real>, v: seq<real>, v': seq<real>)
    requires |p| == |v| == |v'|
    requires forall j :: 0 <= j < |p| ==> p[j] == 0.0 || v[j] == v'[j]
    ensures Mix(p, v) == Mix(p, v')
  {
    if p != [] {
      MixIgnoresZeroWeights(p[1..], v[1..], v'[1..]);
    }
  }

  /** Causality: the output at query i is the same for any two inputs that agree on
      positions 0..i, whatever scores and values the later positions carry. */
  lemma FutureDoesNotLeak(size: nat, i: nat, e: seq<real>, e': seq<real>, v: seq<real>, v': seq<real>)
    requires i < size && |e| == |e'| == |v| == |v'| == size
    requires forall j :: 0 <= j < size ==> e[j] > 0.0 && e'[j] > 0.0
    requires forall j :: 0 <= j <= i ==> e[j] == e'[j] && v[j] == v'[j]
    ensures AttentionWeights(size, i, e) == AttentionWeights(size, i, e')
    ensures Mix(AttentionWeights(size, i, e), v) == Mix(AttentionWeights(size, i, e'), v')
  {
    var row := Mask(size)[i];
    assert MaskedWeights(row, e) == MaskedWeights(row, e');
    var p := AttentionWeights(size, i, e);
    MixIgnoresZeroWeights(p, v, v');
  }
}
