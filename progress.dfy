/** The progress value of a graded submission, `Math.round((marks / totalMarks) * 100)`,
    over integer marks. `Math.round(q)` is the integer r with r <= q + 1/2 < r + 1 (halves
    round up, also for negative q), computed here exactly with integer division. */
module Progress {

  /** What the expression evaluates to: a whole number, or one of the IEEE values that a
      zero `totalMarks` produces. */
  datatype Percent = Finite(value: int) | NotANumber | PlusInfinity | MinusInfinity

  /** `r` is `Math.round(num / den)` for a positive `den`, stated without division. */
  ghost predicate RoundsTo(r: int, num: int, den: int)
  {
    den > 0 && 2 * r * den <= 2 * num + den < 2 * (r + 1) * den
  }

  lemma DivBounds(a: int, d: int)
    requires d > 0
    ensures d * (a / d) <= a < d * (a / d) + d
  {
  }

  /** Round half up of num / den, by one floor division. */
  function RoundHalfUp(num: int, den: int): (r: int)
    requires den > 0
    ensures RoundsTo(r, num, den)
  {
    DivBounds(2 * num + den, 2 * den);
    (2 * num + den) / (2 * den)
  }

  /** `Math.round((marks / totalMarks) * 100)`. The source does not guard a zero
      `totalMarks`; there the quotient is NaN (0 / 0) or an infinity, which `Math.round`
      returns unchanged. */
  function ProgressPercent(marks: int, totalMarks: int): (p: Percent)
    ensures p.Finite? <==> totalMarks != 0
    ensures totalMarks > 0 ==> RoundsTo(p.value, 100 * marks, totalMarks)
    ensures totalMarks < 0 ==> RoundsTo(p.value, -100 * marks, -totalMarks)
    ensures totalMarks == 0 ==> (p == NotANumber <==> marks == 0)
    ensures totalMarks == 0 ==> (p == PlusInfinity <==> marks > 0)
  {
    if totalMarks > 0 then Finite(RoundHalfUp(100 * marks, totalMarks))
    else if totalMarks < 0 then Finite(RoundHalfUp(-100 * marks, -totalMarks))
    else if marks == 0 then NotANumber
    else if marks > 0 then PlusInfinity
    else MinusInfinity
  }

  /** Multiplying by a positive factor preserves strict order, read backwards. */
  lemma MulCancel(a: int, b: int, t: int)
    requires t > 0 && a * t < b * t
    ensures a < b
  {
    if a >= b {
      MulMono(b, a, t);
    }
  }

  lemma MulMono(a: int, b: int, t: int)
    requires t > 0 && a <= b
    ensures a * t <= b * t
  {
    assert b * t == a * t + (b - a) * t;
  }

  /** `Math.round` has one answer: the rounding property fixes the integer. */
  lemma RoundsToUnique(r1: int, r2: int, num: int, den: int)
    requires RoundsTo(r1, num, den) && RoundsTo(r2, num, den)
    ensures r1 == r2
  {
  }

  /** Marks between zero and the total give a progress value between 0 and 100; the
      source does not clamp anything else. */
  lemma ProgressInRange(marks: int, totalMarks: int)
    requires 0 <= marks <= totalMarks && totalMarks > 0
    ensures ProgressPercent(marks, totalMarks).Finite?
    ensures 0 <= ProgressPercent(marks, totalMarks).value <= 100
  {
    var r := ProgressPercent(marks, totalMarks).value;
    assert 2 * r * totalMarks <= 200 * marks + totalMarks < 2 * (r + 1) * totalMarks;
    MulMono(marks, totalMarks, 200);
    assert (2 * r) * totalMarks < 202 * totalMarks;
    MulCancel(2 * r, 202, totalMarks);
    assert 1 * totalMarks < (2 * (r + 1)) * totalMarks;
    MulCancel(1, 2 * (r + 1), totalMarks);
  }

  /** More marks never show less progress. */
  lemma ProgressMonotone(m1: int, m2: int, totalMarks: int)
    requires m1 <= m2 && totalMarks > 0
    ensures ProgressPercent(m1, totalMarks).value <= ProgressPercent(m2, totalMarks).value
  {
    var r1 := ProgressPercent(m1, totalMarks).value;
    var r2 := ProgressPercent(m2, totalMarks).value;
    MulCancel(2 * r1, 2 * (r2 + 1), totalMarks);
  }

  /** Sample values: 45 of 50 is 90; marks above the total are not clamped. */
  lemma ProgressExamples()
    ensures ProgressPercent(45, 50) == Finite(90)
    ensures ProgressPercent(1, 3) == Finite(33)
    ensures ProgressPercent(2, 3) == Finite(67)
    ensures ProgressPercent(60, 50) == Finite(120)
    ensures ProgressPercent(0, 0) == NotANumber
  {
  }
}
