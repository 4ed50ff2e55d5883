/**
  What the bits of a worker's words mean (section 3.4 of IEEE 754-2019, as fpclassify and the
  reference's _normal_or_zero of examples/bounded_dag_c11.py read them), and the arithmetic of
  round_f32 on them: the checks of the generated workers in terms of values.
 */
module Binary32 {
  import opened Wrappers
  import opened Rounding
  import opened Arithmetic
  import opened CProgram
  import opened NumericContract

  // ----- Decoding -----

  /** Sign and significand of a finite word, as one integer. */
  function Significand(w: Word): int {
    var m := if ExponentField(w) == 0 then FractionField(w) else 0x800000 + FractionField(w);
    if Negative(w) then -m else m
  }

  /** The exponent of the significand's last bit. */
  function LastBit(w: Word): int {
    (if ExponentField(w) == 0 then 1 else ExponentField(w)) - 150
  }

  /** The exact value; no value for infinities and NaN. */
  function WordFraction(w: Word): Option<Fraction> {
    if ExponentField(w) == 0xff then None else Some(Dyadic(Significand(w), LastBit(w)))
  }

  function WordValue(w: Word): Option<real> {
    match WordFraction(w)
    case None => None
    case Some(f) => Some(Value(f))
  }

  lemma WordQuanta(w: Word)
    requires ExponentField(w) != 0xff
    ensures WordValue(w) == Some(Quanta(Significand(w), Pow2(LastBit(w))))
  {
    DyadicValue(Significand(w), LastBit(w));
  }

  lemma Fields(w: Word)
    ensures w == (if Negative(w) then 0x80000000 else 0) + ExponentField(w) * 0x800000 + FractionField(w)
    ensures ExponentField(w) <= 0xff && FractionField(w) < 0x800000
    ensures Unsigned(w) == ExponentField(w) * 0x800000 + FractionField(w)
  {
  }

  lemma BinadeQuanta(i: int)
    ensures Quanta(TWO_23, Pow2(i)) == Pow2(i + 23) && Quanta(-TWO_23, Pow2(i)) == -Pow2(i + 23)
    ensures Quanta(TWO_24, Pow2(i)) == Pow2(i + 24) && Quanta(-TWO_24, Pow2(i)) == -Pow2(i + 24)
  {
    BinadeScale(i);
    QuantaProduct(TWO_23, Pow2(i));
    QuantaProduct(TWO_24, Pow2(i));
    QuantaNegated(TWO_23, Pow2(i));
    QuantaNegated(TWO_24, Pow2(i));
  }

  lemma Ordered(m: int, n: int, q: real)
    requires q > 0.0
    ensures m < n ==> Quanta(m, q) < Quanta(n, q)
    ensures m > n ==> Quanta(m, q) > Quanta(n, q)
  {
    if m <= n {
      QuantaMonotone(m, n, q);
    } else {
      QuantaMonotone(n, m, q);
    }
  }

  /** How large m quanta of 2^i are, by the bits of m. */
  lemma QuantaSize(m: int, i: int)
    ensures m == 0 ==> Quanta(m, Pow2(i)) == 0.0
    ensures m > 0 ==> Quanta(m, Pow2(i)) >= Pow2(i)
    ensures m < 0 ==> Quanta(m, Pow2(i)) <= -Pow2(i)
    ensures -TWO_23 < m < TWO_23 ==> Abs(Quanta(m, Pow2(i))) < Pow2(i + 23)
    ensures TWO_23 <= m || m <= -TWO_23 ==> Abs(Quanta(m, Pow2(i))) >= Pow2(i + 23)
    ensures -TWO_24 < m < TWO_24 ==> Abs(Quanta(m, Pow2(i))) < Pow2(i + 24)
    ensures -TWO_24 <= m <= TWO_24 ==> Abs(Quanta(m, Pow2(i))) <= Pow2(i + 24)
  {
    QuantaAtLeast(m, Pow2(i));
    BinadeQuanta(i);
    Ordered(m, TWO_23, Pow2(i));
    Ordered(m, -TWO_23, Pow2(i));
    Ordered(m, TWO_24, Pow2(i));
    Ordered(m, -TWO_24, Pow2(i));
  }

  /** The check of the workers, in terms of values: fpclassify's FP_ZERO and FP_NORMAL are zero of either
      sign and everything finite from 2^-126 up, of either sign. */
  lemma NormalMeans(w: Word)
    ensures NormalWord(w)
       <==> && WordValue(w).Some?
            && (WordValue(w).value == 0.0 || Pow2(-126) <= WordValue(w).value || WordValue(w).value <= -Pow2(-126))
  {
    Fields(w);
    if ExponentField(w) != 0xff {
      WordQuanta(w);
      QuantaSize(Significand(w), LastBit(w));
      if ExponentField(w) > 0 {
        Pow2Monotone(-126, LastBit(w) + 23);
      }
    }
  }

  /** The word with the other sign. */
  function OtherSign(w: Word): Word {
    if Negative(w) then w - 0x80000000 else w + 0x80000000
  }

  lemma OtherFields(w: Word)
    ensures ExponentField(OtherSign(w)) == ExponentField(w) && LastBit(OtherSign(w)) == LastBit(w)
    ensures Significand(OtherSign(w)) == -Significand(w) && Unsigned(OtherSign(w)) == Unsigned(w)
  {
    Fields(w);
    Fields(OtherSign(w));
  }

  /** The sign bit is the sign: it negates, and the check does not look at it. */
  lemma SignMeans(w: Word)
    requires WordValue(w).Some?
    ensures WordValue(OtherSign(w)) == Some(-WordValue(w).value)
    ensures NormalWord(OtherSign(w)) <==> NormalWord(w)
    ensures if Negative(w) then WordValue(w).value <= 0.0 else WordValue(w).value >= 0.0
  {
    OtherFields(w);
    WordQuanta(w);
    WordQuanta(OtherSign(w));
    QuantaNegated(Significand(w), Pow2(LastBit(w)));
    QuantaSize(Significand(w), LastBit(w));
  }

  /** A normal word's value lies in the binade of its exponent field. */
  lemma Binade(w: Word)
    requires 0 < ExponentField(w) < 0xff
    ensures WordValue(w).Some?
    ensures Pow2(ExponentField(w) - 127) <= Abs(WordValue(w).value) < Pow2(ExponentField(w) - 126)
  {
    WordQuanta(w);
    QuantaSize(Significand(w), LastBit(w));
  }

  lemma SameField(a: Word, b: Word)
    requires 0 < ExponentField(a) < 0xff && 0 < ExponentField(b) < 0xff
    requires WordValue(a) == WordValue(b)
    ensures ExponentField(a) == ExponentField(b)
  {
    Binade(a);
    Binade(b);
    if ExponentField(a) < ExponentField(b) {
      Pow2Monotone(ExponentField(a) - 126, ExponentField(b) - 127);
    } else if ExponentField(b) < ExponentField(a) {
      Pow2Monotone(ExponentField(b) - 126, ExponentField(a) - 127);
    }
  }

  lemma ZeroValue(w: Word)
    requires WordValue(w).Some?
    ensures WordValue(w).value == 0.0 <==> Unsigned(w) == 0
  {
    Fields(w);
    WordQuanta(w);
    QuantaSize(Significand(w), LastBit(w));
  }

  /** Normal words with one value are one word, but for the two zeros. */
  lemma SameValueSameWord(a: Word, b: Word)
    requires NormalWord(a) && NormalWord(b) && WordValue(a) == WordValue(b) && WordValue(a).Some?
    ensures a == b || (Unsigned(a) == 0 && Unsigned(b) == 0)
  {
    ZeroValue(a);
    ZeroValue(b);
    Fields(a);
    Fields(b);
    if Unsigned(a) != 0 {
      SameField(a, b);
      WordQuanta(a);
      WordQuanta(b);
      var q := Pow2(LastBit(a));
      if Significand(a) < Significand(b) {
        QuantaMonotone(Significand(a), Significand(b), q);
      } else if Significand(b) < Significand(a) {
        QuantaMonotone(Significand(b), Significand(a), q);
      }
      assert Significand(a) == Significand(b);
    }
  }

  /** tuc_check on one element, in terms of values: a normal or zero result, equal to the constant. */
  lemma MatchMeans(actual: Word, expected: Word)
    ensures MatchesWord(actual, expected)
       <==> NormalWord(actual) && WordValue(expected) == WordValue(actual)
  {
    Fields(actual);
    Fields(expected);
    if NormalWord(actual) {
      NormalMeans(actual);
      if Unsigned(actual) == 0 && Unsigned(expected) == 0 {
        ZeroValue(actual);
        ZeroValue(expected);
      }
      if WordValue(expected) == WordValue(actual) {
        NormalMeans(expected);
        SameValueSameWord(actual, expected);
      }
    }
  }

  /** The words of one and minus one. */
  lemma UnitWord(w: Word, i: int)
    requires (w == 0x3f800000 || w == 0xbf800000) && i == -23
    ensures WordValue(w) == Some(if w == 0x3f800000 then 1.0 else -1.0)
  {
    Fields(w);
    assert LastBit(w) == i && Significand(w) == if w == 0x3f800000 then TWO_23 else -TWO_23;
    WordQuanta(w);
    BinadeQuanta(i);
    assert Pow2(i + 23) == 1.0;
  }

  /** The smallest normal word is worth 2^-126. */
  lemma SmallestNormal(w: Word)
    requires w == 0x00800000
    ensures WordValue(w) == Some(Pow2(LastBit(w) + 23)) && LastBit(w) == -149
  {
    Fields(w);
    assert Significand(w) == TWO_23;
    WordQuanta(w);
    BinadeQuanta(LastBit(w));
  }

  /** Both zeros. */
  lemma ZeroAt(w: Word)
    requires Unsigned(w) == 0
    ensures WordValue(w) == Some(0.0) && NormalWord(w)
  {
    Fields(w);
    WordQuanta(w);
  }

  lemma ZeroWord()
    ensures WordValue(0) == Some(0.0) && NormalWord(0)
  {
    ZeroAt(0);
  }

  // ----- Encoding roundings -----

  /** The word of m quanta of 2^i, for m of 24 bits; a full 2^24 carries into the exponent. */
  function Packed(m: int, i: int): Word {
    var n := if m < 0 then -m else m;
    if TWO_23 <= n <= TWO_24 && -149 <= i <= 102
    then (if m < 0 then 0x80000000 else 0) + (i + 149) * 0x800000 + n
    else POISON
  }

  lemma PackedFields(m: int, i: int)
    requires TWO_23 <= m <= TWO_24 || -TWO_24 <= m <= -TWO_23
    requires -149 <= i <= 102
    ensures
      var n := if m < 0 then -m else m;
      var w := Packed(m, i);
      && (Negative(w) <==> m < 0)
      && ExponentField(w) == (if n == TWO_24 then i + 151 else i + 150)
      && FractionField(w) == (if n == TWO_24 then 0 else n - TWO_23)
      && Significand(w) == (if m == TWO_24 then TWO_23 else if m == -TWO_24 then -TWO_23 else m)
      && LastBit(w) == (if n == TWO_24 then i + 1 else i)
  {
  }

  lemma PackedValue(m: int, i: int)
    requires TWO_23 <= m <= TWO_24 || -TWO_24 <= m <= -TWO_23
    requires -149 <= i <= 102
    ensures NormalWord(Packed(m, i)) && WordValue(Packed(m, i)) == Some(Quanta(m, Pow2(i)))
  {
    PackedFields(m, i);
    WordQuanta(Packed(m, i));
    FullQuanta(m, i);
  }

  /** 2^24 quanta are 2^23 of twice the size. */
  lemma FullQuanta(m: int, i: int)
    ensures m == TWO_24 ==> Quanta(TWO_23, Pow2(i + 1)) == Quanta(m, Pow2(i))
    ensures m == -TWO_24 ==> Quanta(-TWO_23, Pow2(i + 1)) == Quanta(m, Pow2(i))
  {
    Pow2Step(i);
    QuantaHalved(TWO_23, Pow2(i + 1), Pow2(i));
    QuantaHalved(-TWO_23, Pow2(i + 1), Pow2(i));
  }

  /** The word of a rounding; NaN where round_f32 raises. */
  function RoundedWord(f: Fraction): Word {
    if RoundF32(f).Err? then POISON
    else if f.num == 0 then 0
    else
      var j := Exponent(Magnitude(f)) - (PRECISION - 1);
      Packed(RoundHalfEven(Value(f) / Pow2(j)), j)
  }

  lemma BitRange(f: Fraction, x: real, j: int)
    requires x == Value(f) && InDomain(x) && 8388608.0 * Pow2(j) <= Abs(x) < 16777216.0 * Pow2(j)
    ensures -149 <= j <= 102
  {
    BinadeScale(j);
    if j < -149 {
      Pow2Monotone(j + 24, -100);
    }
    if j > 102 {
      Pow2Monotone(101, j + 23);
      Pow2Monotone(100, 101);
    }
  }

  lemma RoundingParts(f: Fraction) returns (k: int, j: int)
    requires f.num != 0 && RoundF32(f).Ok?
    ensures j == Exponent(Magnitude(f)) - (PRECISION - 1) && k == RoundHalfEven(Value(f) / Pow2(j))
    ensures Value(RoundF32(f).value) == Quanta(k, Pow2(j)) && RoundedWord(f) == Packed(k, j)
    ensures (TWO_23 <= k <= TWO_24 || -TWO_24 <= k <= -TWO_23) && -149 <= j <= 102
  {
    ValueZero(f);
    k, j := RoundF32Rounds(f);
    QuotientRange(Value(f), Value(f) / Pow2(j), Pow2(j), k);
    BitRange(f, Value(f), j);
  }

  /** The word of every rounding is zero or normal, and has the rounding's value. */
  lemma RoundingIsNormal(f: Fraction)
    requires RoundF32(f).Ok?
    ensures NormalWord(RoundedWord(f)) && WordValue(RoundedWord(f)) == Some(Value(RoundF32(f).value))
  {
    if f.num == 0 {
      ZeroWord();
    } else {
      var k, j := RoundingParts(f);
      PackedValue(k, j);
    }
  }

  // ----- round_f32 arithmetic on words -----

  function AddWords(a: Word, b: Word): Word {
    match (WordFraction(a), WordFraction(b))
    case (Some(x), Some(y)) => RoundedWord(Plus(x, y))
    case _ => POISON
  }

  function MulWords(a: Word, b: Word): Word {
    match (WordFraction(a), WordFraction(b))
    case (Some(x), Some(y)) => RoundedWord(Times(x, y))
    case _ => POISON
  }

  /** value < 0 ? 0 : value; not less are both zeros and NaN. */
  function ReluWord(w: Word): Word {
    if Negative(w) && 0 < Unsigned(w) <= 0x7f800000 then 0 else w
  }

  const WORD_OPS: Ops<Word> := Ops(0, (a: Word, b: Word) => AddWords(a, b), (a: Word, b: Word) => MulWords(a, b),
                                   (a: Word) => ReluWord(a))

  /** A word that passes the workers' check and has the value the reference computed. */
  ghost predicate Shows(w: Word, a: F32) {
    a.Rounded? && NormalWord(w) && WordValue(w) == Some(Value(a.value))
  }

  lemma AddShows(w: Word, v: Word, a: F32, b: F32)
    requires Shows(w, a) && Shows(v, b) && Add32(a, b).Rounded?
    ensures Shows(AddWords(w, v), Add32(a, b))
  {
    var x, y := WordFraction(w).value, WordFraction(v).value;
    PlusValue(x, y);
    PlusValue(a.value, b.value);
    RoundingIsOfTheValue(Plus(x, y), Plus(a.value, b.value));
    RoundingIsNormal(Plus(x, y));
  }

  lemma MulShows(w: Word, v: Word, a: F32, b: F32)
    requires Shows(w, a) && Shows(v, b) && Mul32(a, b).Rounded?
    ensures Shows(MulWords(w, v), Mul32(a, b))
  {
    var x, y := WordFraction(w).value, WordFraction(v).value;
    SameTimes(x, y, a.value, b.value);
    RoundingIsOfTheValue(Times(x, y), Times(a.value, b.value));
    RoundingIsNormal(Times(x, y));
  }

  lemma SameTimes(x: Fraction, y: Fraction, a: Fraction, b: Fraction)
    requires Value(x) == Value(a) && Value(y) == Value(b)
    ensures Value(Times(x, y)) == Value(Times(a, b))
  {
    var t, p, q := NamedTimes(x, y);
    var t', p', q' := NamedTimes(a, b);
    SameProduct(t, p, q, t', p', q');
  }

  lemma ReluShows(w: Word, a: F32)
    requires Shows(w, a)
    ensures Shows(ReluWord(w), Relu32(a))
  {
    SignMeans(w);
    ZeroValue(w);
    Fields(w);
    PositiveValue(a.value);
    ZeroWord();
  }

  lemma SumNext(ws: Words, xs: seq<F32>, n: nat)
    requires 0 < n <= |ws| == |xs| && Sum(OPS32, xs, n).Rounded? && Shows(ws[n - 1], xs[n - 1])
    ensures Sum(OPS32, xs, n - 1).Rounded?
    ensures Shows(Sum(WORD_OPS, ws, n - 1), Sum(OPS32, xs, n - 1)) ==> Shows(Sum(WORD_OPS, ws, n), Sum(OPS32, xs, n))
  {
    var w, x := Sum(WORD_OPS, ws, n - 1), Sum(OPS32, xs, n - 1);
    assert Sum(OPS32, xs, n) == Add32(x, xs[n - 1]) && Sum(WORD_OPS, ws, n) == AddWords(w, ws[n - 1]);
    if Shows(w, x) {
      AddShows(w, ws[n - 1], x, xs[n - 1]);
    }
  }

  /** A whole sum, as long as the reference's stays in its domain. */
  lemma {:induction false} SumShows(ws: Words, xs: seq<F32>, n: nat)
    requires n <= |ws| == |xs| && Sum(OPS32, xs, n).Rounded?
    requires forall i | 0 <= i < n :: Shows(ws[i], xs[i])
    ensures Shows(Sum(WORD_OPS, ws, n), Sum(OPS32, xs, n))
  {
    if n == 0 {
      ZeroWord();
    } else {
      SumNext(ws, xs, n);
      SumShows(ws, xs, n - 1);
    }
  }

  // ----- The contract's inputs, as bits -----

  /** What the contract admits, read off the bits: zero of either sign, or a word from 2^-24 to 2^16. */
  predicate AdmittedWord(w: Word) {
    Unsigned(w) == 0 || 0x33800000 <= Unsigned(w) <= 0x47800000
  }

  lemma Bounds()
    ensures Pow2(-24) == 1.0 / 16777216.0 && Pow2(16) == 65536.0
  {
    BinadeScale(-24);
    assert Pow2(-24 + 24) == 1.0;
    Pow2Eight(0);
    Pow2Eight(8);
  }

  lemma TopBinade(w: Word, i: int)
    requires ExponentField(w) == 143 && i == -7
    ensures WordValue(w).Some? && (Abs(WordValue(w).value) <= Pow2(i + 23) <==> FractionField(w) == 0)
  {
    Fields(w);
    WordQuanta(w);
    BinadeQuanta(i);
    Ordered(Significand(w), TWO_23, Pow2(i));
    Ordered(Significand(w), -TWO_23, Pow2(i));
  }

  lemma InputRange(w: Word)
    requires ExponentField(w) != 0xff && Unsigned(w) != 0
    ensures WordValue(w).Some?
    ensures Pow2(-24) <= Abs(WordValue(w).value) <= Pow2(16) <==> 0x33800000 <= Unsigned(w) <= 0x47800000
  {
    Fields(w);
    var e: int := ExponentField(w);
    if e == 0 {
      WordQuanta(w);
      QuantaSize(Significand(w), LastBit(w));
      Pow2Monotone(-126, -24);
    } else {
      Binade(w);
      if e <= 102 {
        Pow2Monotone(e - 126, -24);
      } else {
        Pow2Monotone(-24, e - 127);
        if e <= 142 {
          Pow2Monotone(e - 126, 16);
        } else if e == 143 {
          TopBinade(w, -7);
        } else {
          Pow2Monotone(17, e - 127);
          Pow2Monotone(16, 17);
        }
      }
    }
  }

  /** The contract's input check on a word's value is this test of its bits. */
  lemma AdmittedBits(w: Word)
    requires WordFraction(w).Some?
    ensures Admitted(WordFraction(w).value) <==> AdmittedWord(w)
  {
    AdmittedMeans(WordFraction(w).value);
    Fields(w);
    Bounds();
    ZeroValue(w);
    WordQuanta(w);
    var v := WordValue(w).value;
    if Unsigned(w) != 0 {
      InputRange(w);
      assert v == Quanta(Significand(w), Pow2(LastBit(w))) && -16777216 <= Significand(w) <= 16777216;
    }
  }

  function InputOf(w: Word): F32 {
    match WordFraction(w)
    case Some(f) => Rounded(f)
    case None => Rejected("FP32 input rejected")
  }

  lemma InputShows(w: Word)
    requires AdmittedWord(w)
    ensures InputOf(w).Rounded? && Admitted(InputOf(w).value) && Shows(w, InputOf(w))
  {
    Fields(w);
    AdmittedBits(w);
  }
}
