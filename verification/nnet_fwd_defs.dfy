/** The core definitions of nnet_lib: the layer and activation enumerations,
    their printable names, the max/min helpers used by the pooling layers,
    ceiling division, and the row-major flattening of 2-, 3- and 4-dimensional
    subscripts into offsets of a flat array. */
module NnetFwdDefs {
  import opened Results

  /* ----------------------------------------------------------------------
     Enumerations. C assigns the enumerators consecutive codes from 0 in
     declaration order; `Code` gives that number, because the string macros
     below compare an arbitrary int against these codes.
     ---------------------------------------------------------------------- */

  datatype PoolType = Max | Avg

  datatype ActivationType =
    | NoActivation | Relu | ReluThreshold | Lrelu | Elu | Selu | Tanh | Sigmoid | Softmax
  {
    function Code(): int {
      match this
      case NoActivation => 0
      case Relu => 1
      case ReluThreshold => 2
      case Lrelu => 3
      case Elu => 4
      case Selu => 5
      case Tanh => 6
      case Sigmoid => 7
      case Softmax => 8
    }
  }

  datatype LayerType = Conv | Pooling | Fc | BatchNorm | Output | Input | End
  {
    function Code(): int {
      match this
      case Conv => 0
      case Pooling => 1
      case Fc => 2
      case BatchNorm => 3
      case Output => 4
      case Input => 5
      case End => 6
    }
  }

  /* ----------------------------------------------------------------------
     Printable names.
     ---------------------------------------------------------------------- */

  /** LAYER_TYPE_STR: a chain of comparisons against the enumerator codes.
      Only five of the seven layer types have a name of their own. */
  function LayerTypeStr(arg: int): (r: string)
    ensures r != "UNKNOWN" <==>
              arg == Conv.Code() || arg == Pooling.Code() || arg == Fc.Code()
              || arg == Output.Code() || arg == Input.Code()
  {
    if arg == Conv.Code() then "CONV"
    else if arg == Pooling.Code() then "POOLING"
    else if arg == Fc.Code() then "FC"
    else if arg == Output.Code() then "OUTPUT"
    else if arg == Input.Code() then "INPUT"
    else "UNKNOWN"
  }

  /** Reads a layer-type name back; the inverse of LayerTypeStr on the named types. */
  function ParseLayerType(name: string): Option<LayerType> {
    if name == "CONV" then Some(Conv)
    else if name == "POOLING" then Some(Pooling)
    else if name == "FC" then Some(Fc)
    else if name == "OUTPUT" then Some(Output)
    else if name == "INPUT" then Some(Input)
    else None
  }

  /** Every layer type except BATCH_NORM and END has a name that identifies it;
      those two print as "UNKNOWN". */
  lemma LayerTypeStrRoundTrip(t: LayerType)
    ensures ParseLayerType(LayerTypeStr(t.Code()))
            == if t == BatchNorm || t == End then None else Some(t)
    ensures t == BatchNorm || t == End <==> LayerTypeStr(t.Code()) == "UNKNOWN"
  {
  }

  /** ACTIVATION_TYPE_STR: every enumerator has its own name; any other code
      prints as "UNKNOWN". */
  function ActivationTypeStr(arg: int): (r: string)
    ensures r != "UNKNOWN" <==> NoActivation.Code() <= arg <= Softmax.Code()
  {
    if arg == NoActivation.Code() then "NONE"
    else if arg == Relu.Code() then "RELU"
    else if arg == ReluThreshold.Code() then "RELU_THRESHOLD"
    else if arg == Lrelu.Code() then "LRELU"
    else if arg == Elu.Code() then "ELU"
    else if arg == Selu.Code() then "SELU"
    else if arg == Tanh.Code() then "TANH"
    else if arg == Sigmoid.Code() then "SIGMOID"
    else if arg == Softmax.Code() then "SOFTMAX"
    else "UNKNOWN"
  }

  /** Reads an activation name back; the inverse of ActivationTypeStr. */
  function ParseActivationType(name: string): Option<ActivationType> {
    if name == "NONE" then Some(NoActivation)
    else if name == "RELU" then Some(Relu)
    else if name == "RELU_THRESHOLD" then Some(ReluThreshold)
    else if name == "LRELU" then Some(Lrelu)
    else if name == "ELU" then Some(Elu)
    else if name == "SELU" then Some(Selu)
    else if name == "TANH" then Some(Tanh)
    else if name == "SIGMOID" then Some(Sigmoid)
    else if name == "SOFTMAX" then Some(Softmax)
    else None
  }

  lemma ActivationTypeStrRoundTrip(a: ActivationType)
    ensures ParseActivationType(ActivationTypeStr(a.Code())) == Some(a)
    ensures ActivationTypeStr(a.Code()) != "UNKNOWN"
  {
  }

  /** The nine activation names are pairwise distinct. */
  lemma ActivationTypeStrInjective(a: ActivationType, b: ActivationType)
    ensures ActivationTypeStr(a.Code()) == ActivationTypeStr(b.Code()) ==> a == b
  {
    ActivationTypeStrRoundTrip(a);
    ActivationTypeStrRoundTrip(b);
  }

  /* ----------------------------------------------------------------------
     Maximum and minimum. The wider maxima are trees of max2, as in the
     macros; on a tie max2 and min2 both yield their second argument.
     ---------------------------------------------------------------------- */

  function Max2(a: int, b: int): (r: int)
    ensures r >= a && r >= b
    ensures r == a || r == b
  {
    if a > b then a else b
  }

  function Min2(a: int, b: int): (r: int)
    ensures r <= a && r <= b
    ensures r == a || r == b
  {
    if a < b then a else b
  }

  function Max4(e0: int, e1: int, e2: int, e3: int): (r: int)
    ensures r >= e0 && r >= e1 && r >= e2 && r >= e3
    ensures r == e0 || r == e1 || r == e2 || r == e3
  {
    Max2(Max2(e0, e1), Max2(e2, e3))
  }

  function Max8(e0: int, e1: int, e2: int, e3: int, e4: int, e5: int, e6: int, e7: int): (r: int)
    ensures r >= e0 && r >= e1 && r >= e2 && r >= e3
    ensures r >= e4 && r >= e5 && r >= e6 && r >= e7
    ensures r == e0 || r == e1 || r == e2 || r == e3
            || r == e4 || r == e5 || r == e6 || r == e7
  {
    Max2(Max4(e0, e1, e2, e3), Max4(e4, e5, e6, e7))
  }

  function Max9(e0: int, e1: int, e2: int, e3: int, e4: int, e5: int, e6: int, e7: int,
                e8: int): (r: int)
    ensures r >= e0 && r >= e1 && r >= e2 && r >= e3
    ensures r >= e4 && r >= e5 && r >= e6 && r >= e7 && r >= e8
    ensures r == e0 || r == e1 || r == e2 || r == e3
            || r == e4 || r == e5 || r == e6 || r == e7 || r == e8
  {
    Max2(Max8(e0, e1, e2, e3, e4, e5, e6, e7), e8)
  }

  /** Reference maximum of a non-empty sequence, folded from the left. */
  function SeqMax(s: seq<int>): (r: int)
    requires |s| > 0
    ensures r in s
    ensures forall i :: 0 <= i < |s| ==> s[i] <= r
  {
    if |s| == 1 then s[0] else Max2(SeqMax(s[..|s| - 1]), s[|s| - 1])
  }

  /** A maximum that is itself an element is unique. */
  lemma MaxElementUnique(s: seq<int>, x: int, y: int)
    requires x in s && y in s
    requires forall i :: 0 <= i < |s| ==> s[i] <= x && s[i] <= y
    ensures x == y
  {
  }

  /** The 3x3 pooling tree computes the maximum of its nine elements. */
  lemma Max9IsSeqMax(e0: int, e1: int, e2: int, e3: int, e4: int, e5: int, e6: int,
                     e7: int, e8: int)
    ensures Max9(e0, e1, e2, e3, e4, e5, e6, e7, e8)
            == SeqMax([e0, e1, e2, e3, e4, e5, e6, e7, e8])
  {
    var s := [e0, e1, e2, e3, e4, e5, e6, e7, e8];
    MaxElementUnique(s, Max9(e0, e1, e2, e3, e4, e5, e6, e7, e8), SeqMax(s));
  }

  /* ----------------------------------------------------------------------
     Ceiling division. C's `/` and `%` truncate toward zero, which Dafny's
     Euclidean operators do not for negative operands, so they are spelt out.
     ---------------------------------------------------------------------- */

  function Abs(x: int): nat {
    if x < 0 then -x else x
  }

  /** C integer division: the quotient truncated toward zero. */
  function CDiv(a: int, b: int): int
    requires b != 0
  {
    var q := Abs(a) / Abs(b);
    if (a < 0) == (b < 0) then q else -q
  }

  /** C remainder: has the sign of the dividend. */
  function CMod(a: int, b: int): int
    requires b != 0
  {
    a - b * CDiv(a, b)
  }

  /** FRAC_CEIL: the truncated quotient, plus one when the remainder is non-zero. */
  function FracCeil(a: int, b: int): int
    requires b != 0
  {
    CDiv(a, b) + (if CMod(a, b) != 0 then 1 else 0)
  }

  lemma CDivNonNegative(a: int, b: int)
    requires a >= 0 && b > 0
    ensures CDiv(a, b) == a / b && CMod(a, b) == a % b
  {
  }

  lemma MulMonotone(a: int, b: int, n: int)
    requires a <= b && n >= 0
    ensures a * n <= b * n
  {
    assert b * n - a * n == (b - a) * n;
  }

  /** For a size a and a positive divisor b, FracCeil(a, b) is the least q with
      q * b >= a, and it is the exact quotient precisely when b divides a. */
  lemma FracCeilIsCeiling(a: int, b: int)
    requires a >= 0 && b > 0
    ensures FracCeil(a, b) * b >= a
    ensures (FracCeil(a, b) - 1) * b < a
    ensures FracCeil(a, b) == a / b <==> a % b == 0
  {
    CDivNonNegative(a, b);
    var q, m := a / b, a % b;
    assert a == q * b + m;
    if m == 0 {
      assert FracCeil(a, b) == q;
      assert (q - 1) * b == q * b - b;
    } else {
      assert FracCeil(a, b) == q + 1;
      assert (q + 1) * b == q * b + b;
    }
  }

  /** For a negative dividend that b does not divide, the macro yields one more
      than the mathematical ceiling -((-a) / b). */
  lemma FracCeilNegativeDividend(a: int, b: int)
    requires a < 0 && b > 0
    ensures FracCeil(a, b) == -((-a) / b) + (if (-a) % b != 0 then 1 else 0)
  {
    var q := (-a) / b;
    assert CDiv(a, b) == -q;
    assert CMod(a, b) == a + b * q;
    assert -a == q * b + (-a) % b;
  }

  /** With a negative divisor the macro follows no single rule: 3 / -2 = -1.5
      has ceiling -1 but the macro gives 0, while -3 / -2 = 1.5 has ceiling 2,
      which the macro gives. */
  lemma FracCeilNegativeDivisorExamples()
    ensures FracCeil(3, -2) == 0
    ensures FracCeil(-3, -2) == 2
  {
  }

  /* ----------------------------------------------------------------------
     Row-major flattening. Offsets of in-range subscripts form a bijection onto
     [0, product of extents), ordered lexicographically by subscript.
     ---------------------------------------------------------------------- */

  /** sub2ind: data[r][c] in an array with nColumns columns. */
  function Sub2Ind(r: int, c: int, nColumns: int): int {
    r * nColumns + c
  }

  /** sub3ind: data[h][r][c]. */
  function Sub3Ind(h: int, r: int, c: int, nRows: int, nCols: int): int {
    Sub2Ind(r, c, nCols) + h * (nRows * nCols)
  }

  /** sub4ind: data[d][h][r][c]; nHgt, nRows and nCols are the extents of h, r, c. */
  function Sub4Ind(d: int, h: int, r: int, c: int, nHgt: int, nRows: int, nCols: int): int {
    Sub3Ind(h, r, c, nRows, nCols) + d * (nRows * nCols * nHgt)
  }

  /** Inverse of Sub2Ind for a positive column count. */
  function Ind2Sub(i: int, nColumns: int): (int, int)
    requires nColumns > 0
  {
    (i / nColumns, i % nColumns)
  }

  function Ind3Sub(i: int, nRows: int, nCols: int): (int, int, int)
    requires nRows > 0 && nCols > 0
  {
    var (h, rc) := Ind2Sub(i, nRows * nCols);
    var (r, c) := Ind2Sub(rc, nCols);
    (h, r, c)
  }

  function Ind4Sub(i: int, nHgt: int, nRows: int, nCols: int): (int, int, int, int)
    requires nHgt > 0 && nRows > 0 && nCols > 0
  {
    var (d, hrc) := Ind2Sub(i, nRows * nCols * nHgt);
    var (h, r, c) := Ind3Sub(hrc, nRows, nCols);
    (d, h, r, c)
  }

  lemma Sub2IndBounds(r: int, c: int, nRows: int, nCols: int)
    requires 0 <= r < nRows && 0 <= c < nCols
    ensures 0 <= Sub2Ind(r, c, nCols) < nRows * nCols
  {
    MulMonotone(0, r, nCols);
    MulMonotone(r + 1, nRows, nCols);
    assert (r + 1) * nCols == r * nCols + nCols;
  }

  /** With columns in range, offsets compare as the (row, column) pairs do
      lexicographically. */
  lemma Sub2IndLexOrder(r1: int, c1: int, r2: int, c2: int, nCols: int)
    requires 0 <= c1 < nCols && 0 <= c2 < nCols
    ensures Sub2Ind(r1, c1, nCols) < Sub2Ind(r2, c2, nCols)
            <==> r1 < r2 || (r1 == r2 && c1 < c2)
  {
    if r1 < r2 {
      MulMonotone(r1 + 1, r2, nCols);
      assert (r1 + 1) * nCols == r1 * nCols + nCols;
    } else if r2 < r1 {
      MulMonotone(r2 + 1, r1, nCols);
      assert (r2 + 1) * nCols == r2 * nCols + nCols;
    }
  }

  lemma Sub2IndInjective(r1: int, c1: int, r2: int, c2: int, nCols: int)
    requires 0 <= c1 < nCols && 0 <= c2 < nCols
    requires Sub2Ind(r1, c1, nCols) == Sub2Ind(r2, c2, nCols)
    ensures r1 == r2 && c1 == c2
  {
    Sub2IndLexOrder(r1, c1, r2, c2, nCols);
    Sub2IndLexOrder(r2, c2, r1, c1, nCols);
  }

  /** Every offset in [0, nRows * nCols) comes from exactly one in-range
      subscript pair, which Ind2Sub recovers. */
  lemma Sub2IndRoundTrip(i: int, nRows: int, nCols: int)
    requires nCols > 0 && 0 <= i < nRows * nCols
    ensures 0 <= Ind2Sub(i, nCols).0 < nRows && 0 <= Ind2Sub(i, nCols).1 < nCols
    ensures Sub2Ind(Ind2Sub(i, nCols).0, Ind2Sub(i, nCols).1, nCols) == i
  {
    var (r, c) := Ind2Sub(i, nCols);
    assert i == r * nCols + c;
    if r >= nRows {
      MulMonotone(nRows, r, nCols);
      assert false;
    }
    if r < 0 {
      MulMonotone(r, -1, nCols);
      assert false;
    }
  }

  lemma Ind2SubRoundTrip(r: int, c: int, nCols: int)
    requires 0 <= c < nCols
    ensures Ind2Sub(Sub2Ind(r, c, nCols), nCols) == (r, c)
  {
    var i := Sub2Ind(r, c, nCols);
    var (q, m) := Ind2Sub(i, nCols);
    assert i == q * nCols + m;
    Sub2IndInjective(q, m, r, c, nCols);
  }

  lemma Sub3IndBounds(h: int, r: int, c: int, nHgt: int, nRows: int, nCols: int)
    requires 0 <= h < nHgt && 0 <= r < nRows && 0 <= c < nCols
    ensures 0 <= Sub3Ind(h, r, c, nRows, nCols) < nHgt * nRows * nCols
  {
    Sub2IndBounds(r, c, nRows, nCols);
    Sub2IndBounds(h, Sub2Ind(r, c, nCols), nHgt, nRows * nCols);
    assert nHgt * (nRows * nCols) == nHgt * nRows * nCols;
  }

  /** Offsets of in-range 3-D subscripts follow the lexicographic order of the
      subscripts; in particular distinct subscripts give distinct offsets. */
  lemma Sub3IndLexOrder(h1: int, r1: int, c1: int, h2: int, r2: int, c2: int,
                        nRows: int, nCols: int)
    requires 0 <= r1 < nRows && 0 <= c1 < nCols
    requires 0 <= r2 < nRows && 0 <= c2 < nCols
    ensures Sub3Ind(h1, r1, c1, nRows, nCols) < Sub3Ind(h2, r2, c2, nRows, nCols)
            <==> h1 < h2 || (h1 == h2 && (r1 < r2 || (r1 == r2 && c1 < c2)))
  {
    Sub2IndBounds(r1, c1, nRows, nCols);
    Sub2IndBounds(r2, c2, nRows, nCols);
    Sub2IndLexOrder(r1, c1, r2, c2, nCols);
    Sub2IndLexOrder(h1, Sub2Ind(r1, c1, nCols), h2, Sub2Ind(r2, c2, nCols), nRows * nCols);
  }

  lemma Sub3IndRoundTrip(i: int, nHgt: int, nRows: int, nCols: int)
    requires nRows > 0 && nCols > 0 && 0 <= i < nHgt * nRows * nCols
    ensures var (h, r, c) := Ind3Sub(i, nRows, nCols);
            0 <= h < nHgt && 0 <= r < nRows && 0 <= c < nCols
            && Sub3Ind(h, r, c, nRows, nCols) == i
  {
    assert nHgt * nRows * nCols == nHgt * (nRows * nCols);
    MulMonotone(1, nRows, nCols);
    Sub2IndRoundTrip(i, nHgt, nRows * nCols);
    var (h, rc) := Ind2Sub(i, nRows * nCols);
    Sub2IndRoundTrip(rc, nRows, nCols);
  }

  lemma Ind3SubRoundTrip(h: int, r: int, c: int, nRows: int, nCols: int)
    requires 0 <= r < nRows && 0 <= c < nCols
    ensures Ind3Sub(Sub3Ind(h, r, c, nRows, nCols), nRows, nCols) == (h, r, c)
  {
    Sub2IndBounds(r, c, nRows, nCols);
    Ind2SubRoundTrip(h, Sub2Ind(r, c, nCols), nRows * nCols);
    Ind2SubRoundTrip(r, c, nCols);
  }

  lemma Sub4IndBounds(d: int, h: int, r: int, c: int, nDepth: int, nHgt: int, nRows: int,
                      nCols: int)
    requires 0 <= d < nDepth && 0 <= h < nHgt && 0 <= r < nRows && 0 <= c < nCols
    ensures 0 <= Sub4Ind(d, h, r, c, nHgt, nRows, nCols) < nDepth * nHgt * nRows * nCols
  {
    var inner := nRows * nCols * nHgt;
    Sub3IndBounds(h, r, c, nHgt, nRows, nCols);
    assert nHgt * nRows * nCols == inner;
    Sub2IndBounds(d, Sub3Ind(h, r, c, nRows, nCols), nDepth, inner);
    assert nDepth * inner == nDepth * nHgt * nRows * nCols;
  }

  /** A positive product of four naturals has positive factors, whatever the
      grouping. */
  lemma ProductFactors(a: nat, b: nat, c: nat, d: nat)
    requires a * (b * (c * d)) > 0
    ensures a > 0 && b > 0 && c > 0 && d > 0
    ensures a * (b * (c * d)) == a * b * c * d
  {
  }

  /** Offsets of in-range 4-D subscripts follow the lexicographic order of the
      subscripts (d, h, r, c); in particular sub4ind is injective on the box. */
  lemma Sub4IndLexOrder(d1: int, h1: int, r1: int, c1: int, d2: int, h2: int, r2: int,
                        c2: int, nHgt: int, nRows: int, nCols: int)
    requires 0 <= h1 < nHgt && 0 <= r1 < nRows && 0 <= c1 < nCols
    requires 0 <= h2 < nHgt && 0 <= r2 < nRows && 0 <= c2 < nCols
    ensures Sub4Ind(d1, h1, r1, c1, nHgt, nRows, nCols)
            < Sub4Ind(d2, h2, r2, c2, nHgt, nRows, nCols)
            <==> d1 < d2 || (d1 == d2 && (h1 < h2 || (h1 == h2 &&
                   (r1 < r2 || (r1 == r2 && c1 < c2)))))
  {
    var inner := nRows * nCols * nHgt;
    Sub3IndBounds(h1, r1, c1, nHgt, nRows, nCols);
    Sub3IndBounds(h2, r2, c2, nHgt, nRows, nCols);
    assert nHgt * nRows * nCols == inner;
    Sub3IndLexOrder(h1, r1, c1, h2, r2, c2, nRows, nCols);
    Sub2IndLexOrder(d1, Sub3Ind(h1, r1, c1, nRows, nCols),
                    d2, Sub3Ind(h2, r2, c2, nRows, nCols), inner);
  }

  lemma Sub4IndInjective(d1: int, h1: int, r1: int, c1: int, d2: int, h2: int, r2: int,
                         c2: int, nHgt: int, nRows: int, nCols: int)
    requires 0 <= h1 < nHgt && 0 <= r1 < nRows && 0 <= c1 < nCols
    requires 0 <= h2 < nHgt && 0 <= r2 < nRows && 0 <= c2 < nCols
    requires Sub4Ind(d1, h1, r1, c1, nHgt, nRows, nCols)
             == Sub4Ind(d2, h2, r2, c2, nHgt, nRows, nCols)
    ensures d1 == d2 && h1 == h2 && r1 == r2 && c1 == c2
  {
    Sub4IndLexOrder(d1, h1, r1, c1, d2, h2, r2, c2, nHgt, nRows, nCols);
    Sub4IndLexOrder(d2, h2, r2, c2, d1, h1, r1, c1, nHgt, nRows, nCols);
  }

  /** Every offset in [0, nDepth * nHgt * nRows * nCols) is the offset of the
      in-range subscript that Ind4Sub recovers. */
  lemma Sub4IndRoundTrip(i: int, nDepth: int, nHgt: int, nRows: int, nCols: int)
    requires nHgt > 0 && nRows > 0 && nCols > 0
    requires 0 <= i < nDepth * nHgt * nRows * nCols
    ensures var (d, h, r, c) := Ind4Sub(i, nHgt, nRows, nCols);
            0 <= d < nDepth && 0 <= h < nHgt && 0 <= r < nRows && 0 <= c < nCols
            && Sub4Ind(d, h, r, c, nHgt, nRows, nCols) == i
  {
    var inner := nRows * nCols * nHgt;
    assert nDepth * nHgt * nRows * nCols == nDepth * inner;
    assert inner == nHgt * nRows * nCols;
    MulMonotone(1, nRows, nCols);
    MulMonotone(1, nRows * nCols, nHgt);
    Sub2IndRoundTrip(i, nDepth, inner);
    var (d, hrc) := Ind2Sub(i, inner);
    Sub3IndRoundTrip(hrc, nHgt, nRows, nCols);
  }

  lemma Ind4SubRoundTrip(d: int, h: int, r: int, c: int, nHgt: int, nRows: int, nCols: int)
    requires 0 <= h < nHgt && 0 <= r < nRows && 0 <= c < nCols
    ensures Ind4Sub(Sub4Ind(d, h, r, c, nHgt, nRows, nCols), nHgt, nRows, nCols)
            == (d, h, r, c)
  {
    Sub3IndBounds(h, r, c, nHgt, nRows, nCols);
    assert nHgt * nRows * nCols == nRows * nCols * nHgt;
    Ind2SubRoundTrip(d, Sub3Ind(h, r, c, nRows, nCols), nRows * nCols * nHgt);
    Ind3SubRoundTrip(h, r, c, nRows, nCols);
  }

  /** Consecutive columns are adjacent in memory. */
  lemma Sub4IndColumnStep(d: int, h: int, r: int, c: int, nHgt: int, nRows: int, nCols: int)
    ensures Sub4Ind(d, h, r, c + 1, nHgt, nRows, nCols)
            == Sub4Ind(d, h, r, c, nHgt, nRows, nCols) + 1
  {
  }
}
