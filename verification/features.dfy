/**
 * Frame-level feature arrays and the operations on them that the synthesis code
 * performs with numpy: standardisation by a scaler, concatenation of streams along
 * the feature axis, and flattening.
 */
module Features {
  import opened Common

  /** A 2-D float array: one row per frame, one column per feature dimension. */
  type Matrix = seq<seq<real>>

  /** Every row of m has exactly `cols` entries. */
  predicate IsRect(m: Matrix, cols: nat)
  {
    forall i :: 0 <= i < |m| ==> |m[i]| == cols
  }

  /** a and b have the same shape, so a boolean mask computed from one can index the other. */
  predicate SameShape(a: Matrix, b: Matrix)
  {
    |a| == |b| && forall i :: 0 <= i < |a| ==> |a[i]| == |b[i]|
  }

  /** Row-major `reshape(-1)`. */
  function Flatten(m: Matrix): seq<real>
  {
    if m == [] then [] else m[0] + Flatten(m[1..])
  }

  /** A rectangular array of width w flattens to |m| * w values. */
  lemma {:induction false} FlattenLength(m: Matrix, w: nat)
    requires IsRect(m, w)
    ensures |Flatten(m)| == |m| * w
  {
    if m != [] {
      FlattenLength(m[1..], w);
      assert |m| * w == w + (|m| - 1) * w;
    }
  }

  /** Multiplying by a width is monotone. */
  lemma {:induction false} MulMonotone(a: nat, b: nat, w: nat)
    requires a <= b
    ensures a * w <= b * w
    decreases b - a
  {
    if a < b {
      MulMonotone(a + 1, b, w);
      assert (a + 1) * w == a * w + w;
    }
  }

  /** Entry j of frame i sits at i * w + j, inside an array of n frames of width w. */
  lemma FlatIndexBound(i: nat, j: nat, n: nat, w: nat)
    requires i < n && j < w
    ensures i * w + j < n * w
  {
    MulMonotone(i + 1, n, w);
    assert (i + 1) * w == i * w + w;
  }

  /** Entry j of frame i of a width-w array is entry i * w + j of its flattening. */
  lemma {:induction false} FlattenLayout(m: Matrix, w: nat, i: nat, j: nat)
    requires IsRect(m, w) && i < |m| && j < w
    ensures i * w + j < |Flatten(m)|
    ensures Flatten(m)[i * w + j] == m[i][j]
  {
    FlattenLength(m, w);
    FlatIndexBound(i, j, |m|, w);
    if i > 0 {
      var k := (i - 1) * w + j;
      assert i * w + j == w + k;
      FlattenLayout(m[1..], w, i - 1, j);
    }
  }

  /** Flattening a single-column array (a per-frame V/UV stream) lists its column, frame by frame. */
  lemma {:induction false} FlattenColumn(m: Matrix)
    requires IsRect(m, 1)
    ensures |Flatten(m)| == |m|
    ensures forall i :: 0 <= i < |m| ==> Flatten(m)[i] == m[i][0]
  {
    if m != [] {
      FlattenColumn(m[1..]);
    }
  }

  /** The parameters of a standard scaler as loaded from disk. */
  datatype ScalerParams = ScalerParams(mean: seq<real>, variance: seq<real>, scale: seq<real>)

  /** Parallel vectors of one width, and a scale that can be divided by. */
  predicate ValidScaler(p: ScalerParams)
  {
    && |p.mean| == |p.variance| == |p.scale|
    && forall j :: 0 <= j < |p.scale| ==> p.scale[j] != 0.0
  }

  type Scaler = p: ScalerParams | ValidScaler(p) witness ScalerParams([], [], [])

  /**
   * `transform`: standardise every row column-wise. A row whose width differs from
   * the scaler's is a broadcasting error.
   */
  function Transform(s: Scaler, m: Matrix): (r: Result<Matrix>)
    ensures r.Ok? <==> IsRect(m, |s.mean|)
    ensures r.Ok? ==> |r.value| == |m| && IsRect(r.value, |s.mean|)
    ensures r.Ok? ==> forall i, j :: 0 <= i < |m| && 0 <= j < |s.mean| ==>
                        r.value[i][j] * s.scale[j] + s.mean[j] == m[i][j]
    ensures r.Err? ==> r.error == ShapeMismatch
  {
    if IsRect(m, |s.mean|) then
      Ok(seq(|m|, i requires 0 <= i < |m| =>
        seq(|s.mean|, j requires 0 <= j < |s.mean| => (m[i][j] - s.mean[j]) / s.scale[j])))
    else
      Err(ShapeMismatch)
  }

  /** `inverse_transform`: undo the standardisation. */
  function InverseTransform(s: Scaler, m: Matrix): (r: Result<Matrix>)
    ensures r.Ok? <==> IsRect(m, |s.mean|)
    ensures r.Ok? ==> |r.value| == |m| && IsRect(r.value, |s.mean|)
    ensures r.Ok? ==> forall i, j :: 0 <= i < |m| && 0 <= j < |s.mean| ==>
                        (r.value[i][j] - s.mean[j]) / s.scale[j] == m[i][j]
  {
    if IsRect(m, |s.mean|) then
      Ok(seq(|m|, i requires 0 <= i < |m| =>
        seq(|s.mean|, j requires 0 <= j < |s.mean| => m[i][j] * s.scale[j] + s.mean[j])))
    else
      Err(ShapeMismatch)
  }

  /** Standardising and then de-standardising gives back the original array. */
  lemma TransformRoundTrip(s: Scaler, m: Matrix)
    requires IsRect(m, |s.mean|)
    ensures Transform(s, m).Ok?
    ensures InverseTransform(s, Transform(s, m).value) == Ok(m)
  {
    var t := Transform(s, m).value;
    var back := InverseTransform(s, t).value;
    forall i | 0 <= i < |m|
      ensures back[i] == m[i]
    {
      forall j | 0 <= j < |s.mean|
        ensures back[i][j] == m[i][j]
      {
        assert t[i][j] * s.scale[j] + s.mean[j] == m[i][j];
      }
    }
    assert back == m;
  }

  /** All parts have as many rows as the first, as concatenation along the feature axis needs. */
  predicate SameRows(parts: seq<Matrix>)
    requires |parts| > 0
  {
    forall k :: 0 <= k < |parts| ==> |parts[k]| == |parts[0]|
  }

  /** Row t of the concatenation: row t of every part, in order. */
  function JoinRow(parts: seq<Matrix>, t: nat): seq<real>
    requires forall k :: 0 <= k < |parts| ==> t < |parts[k]|
  {
    if parts == [] then [] else parts[0][t] + JoinRow(parts[1..], t)
  }

  /** `np.concatenate(parts, axis=-1)`. */
  function Concat(parts: seq<Matrix>): (r: Result<Matrix>)
    requires |parts| > 0
    ensures r.Ok? <==> SameRows(parts)
    ensures r.Ok? ==> |r.value| == |parts[0]|
    ensures r.Err? ==> r.error == ShapeMismatch
  {
    if SameRows(parts) then
      Ok(seq(|parts[0]|, t requires 0 <= t < |parts[0]| => JoinRow(parts, t)))
    else
      Err(ShapeMismatch)
  }

  function SumWidths(widths: seq<nat>): nat
  {
    if widths == [] then 0 else widths[0] + SumWidths(widths[1..])
  }

  /** A concatenated row is exactly as wide as all parts together. */
  lemma {:induction false} JoinRowWidth(parts: seq<Matrix>, widths: seq<nat>, t: nat)
    requires |parts| == |widths|
    requires forall q :: 0 <= q < |parts| ==> t < |parts[q]| && |parts[q][t]| == widths[q]
    ensures |JoinRow(parts, t)| == SumWidths(widths)
  {
    if parts != [] {
      JoinRowWidth(parts[1..], widths[1..], t);
    }
  }

  /**
   * Part k occupies columns [SumWidths(widths[..k]), SumWidths(widths[..k]) + widths[k])
   * of every concatenated row: the parts appear in the order given.
   */
  lemma {:induction false} JoinRowLayout(parts: seq<Matrix>, widths: seq<nat>, t: nat, k: nat, j: nat)
    requires |parts| == |widths|
    requires forall q :: 0 <= q < |parts| ==> t < |parts[q]| && |parts[q][t]| == widths[q]
    requires k < |parts| && j < widths[k]
    ensures SumWidths(widths[..k]) + j < |JoinRow(parts, t)|
    ensures JoinRow(parts, t)[SumWidths(widths[..k]) + j] == parts[k][t][j]
  {
    JoinRowWidth(parts, widths, t);
    if k == 0 {
      assert widths[..0] == [];
    } else {
      JoinRowLayout(parts[1..], widths[1..], t, k - 1, j);
      assert widths[..k][1..] == widths[1..][..k - 1];
      assert SumWidths(widths[..k]) == widths[0] + SumWidths(widths[1..][..k - 1]);
    }
  }

  /** Concatenate the parts along the feature axis and standardise the result. */
  function ScaledConcat(s: Scaler, parts: seq<Matrix>): (r: Result<Matrix>)
    requires |parts| > 0
    ensures r.Ok? ==> SameRows(parts) && |r.value| == |parts[0]| && IsRect(r.value, |s.mean|)
    ensures r.Err? ==> r.error == ShapeMismatch
  {
    match Concat(parts)
    case Err(e) => Err(e)
    case Ok(joined) => Transform(s, joined)
  }

  /** Every part has the frame count of the first and the given width. */
  predicate AlignedParts(parts: seq<Matrix>, widths: seq<nat>)
  {
    && |parts| == |widths| > 0
    && forall k :: 0 <= k < |parts| ==> |parts[k]| == |parts[0]| && IsRect(parts[k], widths[k])
  }

  /** Column j of part k in a concatenated row: it follows the widths of parts 0..k-1. */
  function Column(widths: seq<nat>, k: nat, j: nat): nat
    requires k < |widths|
  {
    SumWidths(widths[..k]) + j
  }

  /** A column of part k lies inside the concatenated row. */
  lemma {:induction false} ColumnBound(widths: seq<nat>, k: nat, j: nat)
    requires k < |widths| && j < widths[k]
    ensures Column(widths, k, j) < SumWidths(widths)
  {
    if k == 0 {
      assert widths[..0] == [];
    } else {
      ColumnBound(widths[1..], k - 1, j);
      assert widths[..k][1..] == widths[1..][..k - 1];
    }
  }

  /**
   * For frame-aligned parts and a scaler as wide as all of them together, the
   * standardised concatenation exists and de-standardises, in every frame, to part
   * k at the columns following the widths of parts 0..k-1.
   */
  lemma ScaledConcatLayout(s: Scaler, parts: seq<Matrix>, widths: seq<nat>)
    requires AlignedParts(parts, widths)
    requires |s.mean| == SumWidths(widths)
    ensures ScaledConcat(s, parts).Ok?
    ensures |ScaledConcat(s, parts).value| == |parts[0]|
    ensures IsRect(ScaledConcat(s, parts).value, |s.mean|)
    ensures forall k, j :: 0 <= k < |parts| && 0 <= j < widths[k] ==> Column(widths, k, j) < |s.mean|
    ensures forall t, k, j :: 0 <= t < |parts[0]| && 0 <= k < |parts| && 0 <= j < widths[k] ==>
              ScaledConcat(s, parts).value[t][Column(widths, k, j)] * s.scale[Column(widths, k, j)]
                + s.mean[Column(widths, k, j)] == parts[k][t][j]
  {
    assert SameRows(parts);
    var joined := Concat(parts).value;
    forall t | 0 <= t < |parts[0]|
      ensures |joined[t]| == |s.mean|
    {
      JoinRowWidth(parts, widths, t);
    }
    assert IsRect(joined, |s.mean|);
    var r := Transform(s, joined).value;
    assert ScaledConcat(s, parts) == Ok(r);
    forall k, j | 0 <= k < |parts| && 0 <= j < widths[k]
      ensures Column(widths, k, j) < |s.mean|
    {
      ColumnBound(widths, k, j);
    }
    forall t, k, j | 0 <= t < |parts[0]| && 0 <= k < |parts| && 0 <= j < widths[k]
      ensures r[t][Column(widths, k, j)] * s.scale[Column(widths, k, j)] + s.mean[Column(widths, k, j)] == parts[k][t][j]
    {
      JoinRowLayout(parts, widths, t, k, j);
      var c := Column(widths, k, j);
      assert r[t][c] * s.scale[c] + s.mean[c] == joined[t][c];
    }
  }

  /**
   * The layout of a standardised concatenation in which part `idx` was replaced by
   * `x`: every column de-standardises to `x` inside part idx and to the original part
   * everywhere else.
   */
  lemma ScaledConcatReplaceLayout(s: Scaler, parts: seq<Matrix>, widths: seq<nat>, idx: nat, x: Matrix)
    requires idx < |parts| && AlignedParts(parts[idx := x], widths)
    requires |s.mean| == SumWidths(widths)
    ensures ScaledConcat(s, parts[idx := x]).Ok?
    ensures |ScaledConcat(s, parts[idx := x]).value| == |parts[idx := x][0]|
    ensures forall k, j :: 0 <= k < |parts| && 0 <= j < widths[k] ==> Column(widths, k, j) < |s.mean|
    ensures forall t, k, j {:trigger ScaledConcat(s, parts[idx := x]).value[t][Column(widths, k, j)]} ::
              0 <= t < |parts[idx := x][0]| && 0 <= k < |parts| && 0 <= j < widths[k] ==>
              ScaledConcat(s, parts[idx := x]).value[t][Column(widths, k, j)] * s.scale[Column(widths, k, j)]
                + s.mean[Column(widths, k, j)]
              == (if k == idx then x[t][j] else parts[k][t][j])
  {
    var replaced := parts[idx := x];
    ScaledConcatLayout(s, replaced, widths);
    forall t, k, j | 0 <= t < |replaced[0]| && 0 <= k < |parts| && 0 <= j < widths[k]
      ensures replaced[k][t][j] == (if k == idx then x[t][j] else parts[k][t][j])
    {
    }
  }

  /** The parameters handed to the WORLD synthesiser: f0 track, spectrogram, aperiodicity. */
  datatype WorldParams = WorldParams(f0: seq<real>, spectrogram: Matrix, aperiodicity: Matrix)
}
