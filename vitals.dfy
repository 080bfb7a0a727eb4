/** Derived vital signs shown on the dashboard: body-mass index (IMC), mean
    arterial pressure (PAM), pulse pressure (PP) and proportional pulse
    pressure (PPP). Weight is in kg, height in whole centimetres, systolic
    (PAS) and diastolic (PAD) pressures in whole mmHg. Arithmetic is exact;
    the display rounding is not part of the model.
 */
module Vitals {

  function Square(x: real): real {
    x * x
  }

  /** Height in metres from height in centimetres: a hundredth of it. */
  function Metres(talla: int): (m: real)
    ensures 100.0 * m == talla as real
  {
    talla as real / 100.0
  }

  /** Body-mass index: weight over the square of height in metres, or 0 when
      the height is not positive. Where it is defined it is the unique value
      that, multiplied back by the squared height, gives the weight. */
  function Imc(peso: real, talla: int): (r: real)
    ensures talla <= 0 ==> r == 0.0
    ensures talla > 0 ==> r * Square(Metres(talla)) == peso
  {
    if talla > 0 then peso / Square(Metres(talla)) else 0.0
  }

  /** Mean arterial pressure: diastolic plus a third of the pulse pressure.
      Three times it is twice the diastolic plus the systolic. */
  function Pam(pas: int, pad: int): (r: real)
    ensures 3.0 * r == (2 * pad + pas) as real
    ensures r - pad as real == PulsePressure(pas, pad) as real / 3.0
  {
    (2 * pad + pas) as real / 3.0
  }

  /** Pulse pressure: systolic minus diastolic, so that adding it back to the
      diastolic gives the systolic. */
  function PulsePressure(pas: int, pad: int): (r: int)
    ensures pad + r == pas
  {
    pas - pad
  }

  /** Proportional pulse pressure: pulse pressure as a fraction of the
      systolic, or 0 when the systolic is not positive. Where it is defined,
      multiplied back by the systolic it gives the pulse pressure. */
  function Ppp(pas: int, pad: int): (r: real)
    ensures pas <= 0 ==> r == 0.0
    ensures pas > 0 ==> r * pas as real == PulsePressure(pas, pad) as real
  {
    if pas > 0 then PulsePressure(pas, pad) as real / pas as real else 0.0
  }

  /** The four derived values the dashboard computes in one pass. */
  datatype Derived = Derived(imc: real, pam: real, pp: int, ppp: real)

  function Derive(peso: real, talla: int, pas: int, pad: int): (d: Derived)
    ensures d.pam - pad as real == d.pp as real / 3.0
    ensures pad + d.pp == pas
    ensures pas > 0 ==> d.ppp * pas as real == d.pp as real
    ensures talla > 0 ==> d.imc * Square(Metres(talla)) == peso
    ensures talla <= 0 ==> d.imc == 0.0
    ensures pas <= 0 ==> d.ppp == 0.0
  {
    Derived(Imc(peso, talla), Pam(pas, pad), PulsePressure(pas, pad), Ppp(pas, pad))
  }

  /** The ranges the weight and height widgets enforce: 20 to 200 kg and
      100 to 220 cm. Within them the weight is positive and the height lies
      between 1 and 2.2 metres, so the IMC guard always passes. */
  predicate BodySizeInputs(peso: real, talla: int): (ok: bool)
    ensures ok ==> peso > 0.0 && talla > 0 && 1.0 <= Metres(talla) <= 2.2
  {
    20.0 <= peso <= 200.0 && 100 <= talla <= 220
  }

  /** The ranges the blood-pressure widgets enforce: systolic at least 50 and
      diastolic at least 30 mmHg. Within them both pressures are positive, so
      the PPP guard always passes. */
  predicate PressureInputs(pas: int, pad: int): (ok: bool)
    ensures ok ==> pas > 0 && pad > 0
  {
    pas >= 50 && pad >= 30
  }

  // ---------------------------------------------------------------------
  // Mean arterial pressure and pulse pressure

  /** When the diastolic does not exceed the systolic, the mean arterial
      pressure lies between them, one third of the way up from the diastolic. */
  lemma PamBetween(pas: int, pad: int)
    requires pad <= pas
    ensures pad as real <= Pam(pas, pad) <= pas as real
    ensures pas as real - Pam(pas, pad) == 2.0 * (Pam(pas, pad) - pad as real)
  {
  }

  /** When the diastolic is below the systolic, the mean arterial pressure
      lies strictly between them. */
  lemma PamStrictlyBetween(pas: int, pad: int)
    requires pad < pas
    ensures pad as real < Pam(pas, pad) < pas as real
  {
  }

  /** Mean arterial pressure rises with either pressure, the diastolic
      weighing twice as much as the systolic. */
  lemma PamMonotone(pas1: int, pad1: int, pas2: int, pad2: int)
    requires pas1 <= pas2 && pad1 <= pad2
    ensures Pam(pas1, pad1) <= Pam(pas2, pad2)
    ensures Pam(pas2, pad2) - Pam(pas1, pad1)
         == ((pas2 - pas1) + 2 * (pad2 - pad1)) as real / 3.0
  {
  }

  /** Given the systolic, the mean arterial pressure determines the
      diastolic: the formula can be inverted. */
  lemma PamDeterminesDiastolic(pas: int, pad: int)
    ensures (3.0 * Pam(pas, pad) - pas as real) / 2.0 == pad as real
  {
  }

  // ---------------------------------------------------------------------
  // Proportional pulse pressure

  /** Where it is defined, the proportional pulse pressure is one minus the
      diastolic-to-systolic ratio. */
  lemma PppAsRatio(pas: int, pad: int)
    requires pas > 0
    ensures Ppp(pas, pad) == 1.0 - pad as real / pas as real
  {
    var s, d := pas as real, pad as real;
    calc {
      Ppp(pas, pad);
      (s - d) / s;
      s / s - d / s;
      1.0 - d / s;
    }
  }

  /** With a positive systolic, the proportional pulse pressure is negative
      exactly when the diastolic exceeds the systolic, and zero exactly when
      the two are equal. */
  lemma PppSign(pas: int, pad: int)
    requires pas > 0
    ensures Ppp(pas, pad) < 0.0 <==> pad > pas
    ensures Ppp(pas, pad) == 0.0 <==> pad == pas
  {
  }

  /** With a positive diastolic not above the systolic, the proportional
      pulse pressure lies in [0, 1). */
  lemma PppUnitInterval(pas: int, pad: int)
    requires 0 < pad <= pas
    ensures 0.0 <= Ppp(pas, pad) < 1.0
  {
  }

  /** For a fixed positive diastolic, a higher systolic never lowers the
      proportional pulse pressure. */
  lemma PppMonotoneInSystolic(pas1: int, pas2: int, pad: int)
    requires 0 < pas1 <= pas2 && pad > 0
    ensures Ppp(pas1, pad) <= Ppp(pas2, pad)
  {
    PppAsRatio(pas1, pad);
    PppAsRatio(pas2, pad);
    RatioAntitone(pad as real, pas1 as real, pas2 as real);
  }

  /** For a fixed positive systolic, a higher diastolic never raises the
      proportional pulse pressure. */
  lemma PppAntitoneInDiastolic(pas: int, pad1: int, pad2: int)
    requires pas > 0 && pad1 <= pad2
    ensures Ppp(pas, pad2) <= Ppp(pas, pad1)
  {
  }

  /** Within the widget ranges the systolic is positive, so the fallback 0 is
      never taken, and the proportional pulse pressure is below 1. */
  lemma PppUnderWidgetInputs(pas: int, pad: int)
    requires PressureInputs(pas, pad)
    ensures Ppp(pas, pad) == 1.0 - pad as real / pas as real
    ensures Ppp(pas, pad) < 1.0
  {
    PppAsRatio(pas, pad);
    PositiveRatio(pad as real, pas as real);
  }

  // ---------------------------------------------------------------------
  // Body-mass index

  /** With positive weight and height the index is strictly positive. */
  lemma ImcPositive(peso: real, talla: int)
    requires peso > 0.0 && talla > 0
    ensures Imc(peso, talla) > 0.0
  {
  }

  /** For a fixed positive weight, a greater height never raises the index. */
  lemma ImcAntitoneInHeight(peso: real, talla1: int, talla2: int)
    requires peso > 0.0 && 0 < talla1 <= talla2
    ensures Imc(peso, talla2) <= Imc(peso, talla1)
  {
    var m1, m2 := Metres(talla1), Metres(talla2);
    SquareMonotone(m1, m2);
    RatioAntitone(peso, Square(m1), Square(m2));
  }

  /** For a fixed positive height, the index is proportional to the weight. */
  lemma ImcLinearInWeight(peso: real, k: real, talla: int)
    requires talla > 0
    ensures Imc(k * peso, talla) == k * Imc(peso, talla)
  {
  }

  /** Within the widget ranges the index lies between 20 / 2.2² and 200. */
  lemma ImcUnderWidgetInputs(peso: real, talla: int)
    requires BodySizeInputs(peso, talla)
    ensures 20.0 / Square(2.2) <= Imc(peso, talla) <= 200.0
  {
    var m := Metres(talla);
    assert 1.0 <= m <= 2.2;
    SquareMonotone(1.0, m);
    SquareMonotone(m, 2.2);
    // Upper bound: the lightest denominator and the heaviest weight.
    RatioAntitone(peso, 1.0, Square(m));
    assert peso / 1.0 == peso;
    // Lower bound: the heaviest denominator and the lightest weight.
    RatioAntitone(peso, Square(m), Square(2.2));
    RatioMonotoneInNumerator(20.0, peso, Square(2.2));
  }

  // ---------------------------------------------------------------------
  // Arithmetic helpers

  /** A ratio of positives is positive, and at most 1 when the numerator is
      the smaller. */
  lemma PositiveRatio(a: real, b: real)
    requires a > 0.0 && b > 0.0
    ensures a / b > 0.0
    ensures a <= b ==> a / b <= 1.0
  {
  }

  /** A larger denominator gives a smaller ratio. */
  lemma RatioAntitone(a: real, b1: real, b2: real)
    requires a > 0.0 && 0.0 < b1 <= b2
    ensures a / b2 <= a / b1
  {
  }

  /** A larger numerator gives a larger ratio. */
  lemma RatioMonotoneInNumerator(a1: real, a2: real, b: real)
    requires a1 <= a2 && b > 0.0
    ensures a1 / b <= a2 / b
  {
  }

  /** Squaring preserves order on non-negative reals. */
  lemma SquareMonotone(x: real, y: real)
    requires 0.0 <= x <= y
    ensures Square(x) <= Square(y)
  {
  }

  // ---------------------------------------------------------------------
  // Worked values

  /** Systolic 180 over diastolic 60: mean 100, pulse pressure 120 and
      proportional pulse pressure two thirds. */
  lemma WideningPulsePressureExample()
    ensures Pam(180, 60) == 100.0
    ensures PulsePressure(180, 60) == 120
    ensures Ppp(180, 60) == 2.0 / 3.0
  {
  }

  /** Systolic 80 over diastolic 60: mean 200/3 and a proportional pulse
      pressure of one quarter. */
  lemma NarrowPulsePressureExample()
    ensures Pam(80, 60) == 200.0 / 3.0
    ensures Ppp(80, 60) == 0.25
  {
  }
}
