/** The rules of the data insights page: the heat-map colour classifier, the
    lower-triangular correlation matrix and how its cells render, the
    intensity-legend ticks and the top correlated factors. Numbers are Dafny
    `real`s, so the comparisons are exact. */
module DataInsights {

  function Abs(x: real): (r: real)
    ensures r >= 0.0 && (r == x || r == -x)
  {
    if x < 0.0 then -x else x
  }

  const White: string := "bg-white"
  const Neutral: string := "bg-zinc-100"
  const Red5: string := "bg-[#d35a5a]"
  const Red4: string := "bg-[#da7d7d]"
  const Red3: string := "bg-[#e2a0a0]"
  const Red2: string := "bg-[#eac4c4]"
  const Red1: string := "bg-[#f1e7e7]"
  const Blue4: string := "bg-[#5a8cd3]"
  const Blue3: string := "bg-[#7da1da]"
  const Blue2: string := "bg-[#a0bae2]"
  const Blue1: string := "bg-[#c4d4eb]"

  /** `getCorrelationColor`: the background class of a heat-map cell. */
  function CorrelationColor(value: real): string {
    var a := Abs(value);
    if value == 1.0 then White
    else if value > 0.0 then
      if a > 0.8 then Red5
      else if a > 0.6 then Red4
      else if a > 0.4 then Red3
      else if a > 0.2 then Red2
      else if a > 0.1 then Red1
      else Neutral
    else
      if a > 0.6 then Blue4
      else if a > 0.4 then Blue3
      else if a > 0.2 then Blue2
      else if a > 0.1 then Blue1
      else Neutral
  }

  // A table-driven reference for the classifier: a scale lists its buckets
  // from the strongest down; a magnitude takes the colour of the first
  // bucket whose threshold it strictly exceeds.

  datatype Bucket = Bucket(threshold: real, color: string)

  const PositiveScale: seq<Bucket> :=
    [Bucket(0.8, Red5), Bucket(0.6, Red4), Bucket(0.4, Red3), Bucket(0.2, Red2), Bucket(0.1, Red1)]

  const NegativeScale: seq<Bucket> :=
    [Bucket(0.6, Blue4), Bucket(0.4, Blue3), Bucket(0.2, Blue2), Bucket(0.1, Blue1)]

  ghost predicate Descending(scale: seq<Bucket>) {
    forall i, j :: 0 <= i < j < |scale| ==> scale[j].threshold < scale[i].threshold
  }

  /** The position of the first bucket that `a` exceeds, or `|scale|`. */
  function BucketIndex(scale: seq<Bucket>, a: real): (i: nat)
    ensures i <= |scale|
    ensures i < |scale| ==> a > scale[i].threshold
    ensures forall j :: 0 <= j < i ==> a <= scale[j].threshold
  {
    if scale == [] then 0
    else if a > scale[0].threshold then 0
    else 1 + BucketIndex(scale[1..], a)
  }

  function ColorAt(scale: seq<Bucket>, i: nat): string {
    if i < |scale| then scale[i].color else Neutral
  }

  function ScaleColor(scale: seq<Bucket>, a: real): string {
    ColorAt(scale, BucketIndex(scale, a))
  }

  lemma ScalesDescending()
    ensures Descending(PositiveScale) && Descending(NegativeScale)
  {
  }

  /** The if-chain is the table lookup: exactly 1 is white, a positive value
      takes the first of the five red buckets its magnitude exceeds, and
      every other value the first of the four blue ones; a magnitude that
      exceeds none of them is neutral. */
  lemma CorrelationColorByScale(value: real)
    ensures CorrelationColor(value) ==
      if value == 1.0 then White
      else if value > 0.0 then ScaleColor(PositiveScale, Abs(value))
      else ScaleColor(NegativeScale, Abs(value))
  {
    var a := Abs(value);
    var p, n := PositiveScale, NegativeScale;
    if value != 1.0 {
      if value > 0.0 {
        if a > 0.8 { BucketIndexIs(p, a, 0); }
        else if a > 0.6 { BucketIndexIs(p, a, 1); }
        else if a > 0.4 { BucketIndexIs(p, a, 2); }
        else if a > 0.2 { BucketIndexIs(p, a, 3); }
        else if a > 0.1 { BucketIndexIs(p, a, 4); }
        else { BucketIndexIs(p, a, 5); }
      } else {
        if a > 0.6 { BucketIndexIs(n, a, 0); }
        else if a > 0.4 { BucketIndexIs(n, a, 1); }
        else if a > 0.2 { BucketIndexIs(n, a, 2); }
        else if a > 0.1 { BucketIndexIs(n, a, 3); }
        else { BucketIndexIs(n, a, 4); }
      }
    }
  }

  /** The bucket index is the one position that `a` exceeds with every
      earlier threshold not exceeded. */
  lemma BucketIndexIs(scale: seq<Bucket>, a: real, k: nat)
    requires k <= |scale|
    requires k < |scale| ==> a > scale[k].threshold
    requires forall j :: 0 <= j < k ==> a <= scale[j].threshold
    ensures BucketIndex(scale, a) == k
  {
  }

  /** On a descending scale a stronger magnitude never lands in a weaker
      bucket. */
  lemma {:induction false} BucketIndexAntitone(scale: seq<Bucket>, a: real, b: real)
    requires Descending(scale)
    requires a <= b
    ensures BucketIndex(scale, b) <= BucketIndex(scale, a)
  {
    if scale != [] && !(b > scale[0].threshold) {
      BucketIndexAntitone(scale[1..], a, b);
    }
  }

  /** The scale a value other than 1 is coloured on. */
  function ScaleOf(value: real): seq<Bucket> {
    if value > 0.0 then PositiveScale else NegativeScale
  }

  /** How many steps from neutral a cell's colour is on its side of the
      scale: 0 for neutral, up to 5 for the strongest red and 4 for the
      strongest blue. */
  function Strength(value: real): nat
    requires value != 1.0
  {
    |ScaleOf(value)| - BucketIndex(ScaleOf(value), Abs(value))
  }

  /** Of two correlations of the same sign, the stronger one is never drawn
      lighter: each cell's colour is the colour its scale has at its
      strength, and the strength does not decrease with the magnitude. */
  lemma StrongerIsNotLighter(v: real, w: real)
    requires v != 1.0 && w != 1.0
    requires (v > 0.0 && w > 0.0) || (v <= 0.0 && w <= 0.0)
    requires Abs(v) <= Abs(w)
    ensures CorrelationColor(v) == ColorAt(ScaleOf(v), |ScaleOf(v)| - Strength(v))
    ensures CorrelationColor(w) == ColorAt(ScaleOf(w), |ScaleOf(w)| - Strength(w))
    ensures Strength(v) <= Strength(w)
  {
    CorrelationColorByScale(v);
    CorrelationColorByScale(w);
    ScalesDescending();
    BucketIndexAntitone(ScaleOf(v), Abs(v), Abs(w));
  }

  /** The negative side has no bucket above 0.6: -0.9 and -0.7 share the
      strongest blue, while 0.9 and 0.7 get different reds; 0 is neutral. */
  lemma ScaleAsymmetry()
    ensures CorrelationColor(1.0) == White
    ensures CorrelationColor(0.0) == Neutral
    ensures CorrelationColor(-0.9) == CorrelationColor(-0.7) == Blue4
    ensures CorrelationColor(0.9) == Red5 && CorrelationColor(0.7) == Red4
    ensures forall v :: v <= 0.0 ==> CorrelationColor(v) != Red5
  {
  }

  /** The heat map's row and column labels. */
  const Features: seq<string> :=
    ["age", "gender", "height", "weight", "ap_hi", "ap_lo", "cholesterol", "gluc",
     "smoke", "alco", "active", "cardio", "bmi", "pulse_pressure", "high_bp"]

  const CorrelationMatrix: seq<seq<real>> := [
    [1.00],
    [-0.02, 1.00],
    [-0.09, 0.53, 1.00],
    [0.06, 0.15, 0.31, 1.00],
    [0.21, 0.06, 0.02, 0.27, 1.00],
    [0.16, 0.07, 0.03, 0.25, 0.73, 1.00],
    [0.16, -0.04, -0.06, 0.13, 0.19, 0.16, 1.00],
    [0.10, -0.03, -0.02, 0.10, 0.09, 0.07, 0.44, 1.00],
    [-0.05, 0.34, 0.20, 0.06, 0.02, 0.02, 0.00, -0.01, 1.00],
    [-0.03, 0.17, 0.10, 0.06, 0.03, 0.04, 0.03, 0.01, 0.34, 1.00],
    [-0.01, 0.01, -0.01, -0.01, 0.00, 0.00, 0.02, -0.00, 0.03, 0.03, 1.00],
    [0.24, 0.00, -0.01, 0.18, 0.43, 0.34, 0.21, 0.08, -0.02, -0.01, -0.03, 1.00],
    [0.11, -0.12, -0.20, 0.86, 0.27, 0.24, 0.17, 0.12, -0.04, 0.01, -0.01, 0.19, 1.00],
    [0.18, 0.03, -0.00, 0.18, 0.84, 0.24, 0.14, 0.07, 0.01, 0.02, 0.00, 0.33, 0.18, 1.00],
    [0.11, 0.03, -0.01, 0.17, 0.73, 0.56, 0.12, 0.05, 0.01, 0.02, 0.01, 0.30, 0.18, 0.59, 1.00]
  ]

  /** Row `i` holds the correlations of feature `i` with features `0..i`;
      the last of them is its correlation with itself, exactly 1, and no
      other entry is 1 or beyond. */
  ghost predicate LowerTriangular(m: seq<seq<real>>) {
    && (forall i :: 0 <= i < |m| ==> |m[i]| == i + 1)
    && (forall i :: 0 <= i < |m| ==> m[i][i] == 1.0)
    && (forall i, j :: 0 <= j < i < |m| ==> -1.0 < m[i][j] < 1.0)
  }

  /** The shape the heat map relies on: one row per feature, and row `i`
      of length `i + 1`, so every visible cell (column at most row) is an
      entry of its row. */
  lemma MatrixShape()
    ensures |Features| == |CorrelationMatrix| == 15
    ensures LowerTriangular(CorrelationMatrix)
  {
    var m := CorrelationMatrix;
    forall i, j | 0 <= j < i < |m| ensures -1.0 < m[i][j] < 1.0 {
      RowInRange(i);
    }
  }

  lemma RowInRange(i: nat)
    requires 0 < i < |CorrelationMatrix|
    ensures forall j :: 0 <= j < i ==> -1.0 < CorrelationMatrix[i][j] < 1.0
  {
  }

  /** The text of a visible cell: a dash for a correlation of exactly 1,
      otherwise the number (formatted to two places, which is not modelled). */
  datatype CellText = Dash | Number(value: real)

  datatype Cell =
    | Hidden
    | Shown(color: string, whiteText: bool, text: CellText)

  /** The cell in row `row`, column `col` of the grid. */
  function RenderCell(m: seq<seq<real>>, row: nat, col: nat): (c: Cell)
    requires LowerTriangular(m)
    requires row < |m| && col < |m|
    ensures c.Shown? <==> col <= row
    ensures c.Shown? ==> (c.text == Dash <==> col == row)
    ensures c.Shown? ==> c.color == CorrelationColor(m[row][col])
    ensures c.Shown? ==> c.whiteText == (Abs(m[row][col]) > 0.4)
    ensures c.Shown? && col < row ==> c.text == Number(m[row][col])
    ensures c.Shown? && col == row ==> c.color == White && c.whiteText
  {
    if col <= row then
      var value := m[row][col];
      Shown(CorrelationColor(value), Abs(value) > 0.4,
            if value == 1.0 then Dash else Number(value))
    else Hidden
  }

  /** The nine reference ticks of the intensity legend, top to bottom. */
  const Ticks: seq<real> := [1.0, 0.75, 0.5, 0.25, 0.0, -0.25, -0.5, -0.75, -1.0]

  /** The tick's distance from the top of the legend, in percent. */
  function TickOffset(tick: real): (r: real)
    ensures -1.0 <= tick <= 1.0 ==> 0.0 <= r <= 100.0
    ensures tick == 1.0 ==> r == 0.0
    ensures tick == -1.0 ==> r == 100.0
  {
    ((1.0 - tick) / 2.0) * 100.0
  }

  /** A higher value sits higher on the legend. */
  lemma TickOffsetDecreasing(s: real, t: real)
    requires s < t
    ensures TickOffset(t) < TickOffset(s)
  {
  }

  /** The nine ticks cover the bar from top to bottom in steps of 12.5%. */
  lemma TicksEvenlySpaced()
    ensures |Ticks| == 9
    ensures forall k :: 0 <= k < |Ticks| ==> TickOffset(Ticks[k]) == 12.5 * (k as real)
  {
  }

  /** An entry of "Top Correlated Factors". */
  datatype Factor = Factor(name: string, value: real, positive: bool)

  const CorrelatedFactors: seq<Factor> := [
    Factor("ap_hi", 0.43, true),
    Factor("ap_lo", 0.34, true),
    Factor("age", 0.24, true),
    Factor("cholesterol", 0.22, true),
    Factor("bmi", 0.19, true),
    Factor("weight", 0.18, true),
    Factor("gluc", 0.09, true),
    Factor("active", -0.04, false),
    Factor("smoke", -0.02, false)
  ]

  /** A factor's chip: red for a positive factor, blue otherwise, and the
      sign prefix of its value. */
  datatype Chip = Chip(red: bool, sign: string)

  function FactorChip(f: Factor): (c: Chip)
    ensures c.red <==> f.positive
    ensures c.sign == "+" <==> f.value > 0.0
  {
    Chip(f.positive, if f.value > 0.0 then "+" else "")
  }

  /** In the table every `positive` flag agrees with the sign of its value,
      so a chip is red exactly when it shows a '+'; the factors are listed
      from the strongest correlation down. */
  lemma FactorsConsistent()
    ensures forall k :: 0 <= k < |CorrelatedFactors| ==>
      CorrelatedFactors[k].positive == (CorrelatedFactors[k].value > 0.0)
    ensures forall k :: 0 <= k < |CorrelatedFactors| ==>
      (FactorChip(CorrelatedFactors[k]).red <==> FactorChip(CorrelatedFactors[k]).sign == "+")
    ensures forall k :: 0 < k < |CorrelatedFactors| ==>
      Abs(CorrelatedFactors[k].value) <= Abs(CorrelatedFactors[k - 1].value)
  {
  }
}
