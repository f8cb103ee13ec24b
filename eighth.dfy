/**
 * `CircleEighthBuilder`: one eighth of a circle outline, as vertical lines walking
 * from column radius - 1 towards the diagonal.
 */
module CircleEighth {
  import opened Lines

  // ---------------------------------------------------------------------------
  // Distance metric and the growth test
  // ---------------------------------------------------------------------------

  /** n * n, written through `Scale` so that it is unfolded only where a proof needs it. */
  function Square(n: int): int {
    if n < 0 then Scale(-n, -n) else Scale(n, n)
  }

  lemma SquareIsProduct(n: int)
    ensures Square(n) == n * n
  {
    if n < 0 {
      ScaleIsProduct(-n, -n);
    } else {
      ScaleIsProduct(n, n);
    }
  }

  /** How far the outer corner of pixel (x, y) lies off the circle (`diff_to_perfect_circle`). */
  function Diff(radius: int, x: int, y: int): nat {
    var e := Square(x + 1) + Square(y + 1) - Square(radius);
    if e < 0 then -e else e
  }

  /**
   * The metric is the absolute error |(x+1)^2 + (y+1)^2 - radius^2|: zero exactly
   * when the corner lies on the circle, and never below the signed error either way.
   */
  lemma DiffIsCornerError(radius: int, x: int, y: int)
    ensures var e := (x + 1) * (x + 1) + (y + 1) * (y + 1) - radius * radius;
      Diff(radius, x, y) == if e < 0 then -e else e
    ensures Diff(radius, x, y) == 0 <==> (x + 1) * (x + 1) + (y + 1) * (y + 1) == radius * radius
    ensures Diff(radius, x, y) >= (x + 1) * (x + 1) + (y + 1) * (y + 1) - radius * radius
    ensures Diff(radius, x, y) >= radius * radius - (x + 1) * (x + 1) - (y + 1) * (y + 1)
  {
    SquareIsProduct(x + 1);
    SquareIsProduct(y + 1);
    SquareIsProduct(radius);
  }

  lemma DiffSymmetric(radius: int, x: int, y: int)
    ensures Diff(radius, x, y) == Diff(radius, y, x)
  {
  }

  /** The test of the growth loop: row y + 1 fits column x better than column x - 1. */
  predicate Grows(radius: int, x: int, y: int) {
    Diff(radius, x, y + 1) < Diff(radius, x - 1, y + 1)
  }

  /** In a column x >= 0 the growth test is the polynomial inequality below. */
  lemma GrowsIff(radius: int, x: int, y: int)
    requires x >= 0
    ensures Grows(radius, x, y) <==> 2 * ((y + 2) * (y + 2)) + x * x + (x + 1) * (x + 1) < 2 * (radius * radius)
  {
    SquareIsProduct(x + 1);
    SquareIsProduct(x);
    SquareIsProduct(y + 2);
    SquareIsProduct(radius);
    var a := (y + 2) * (y + 2) - radius * radius;
    var p := (x + 1) * (x + 1);
    var q := x * x;
    assert p == q + 2 * x + 1;
    assert Diff(radius, x, y + 1) == if p + a < 0 then -(p + a) else p + a;
    assert Diff(radius, x - 1, y + 1) == if q + a < 0 then -(q + a) else q + a;
  }

  /** A growing column never passes row radius - 3, so the growth loop terminates. */
  lemma GrowsBound(radius: int, x: int, y: int)
    requires radius >= 1 && x >= 0 && Grows(radius, x, y)
    ensures y + 2 < radius
  {
    GrowsIff(radius, x, y);
    SquareMono(radius, y + 2);
  }

  lemma SquareMono(a: int, b: int)
    ensures 0 <= a <= b ==> a * a <= b * b
  {
    if 0 <= a <= b {
      assert a * a <= a * b <= b * b;
    }
  }

  /**
   * Column -1 at radius 1 grows at every row: this is where the source's
   * growth loop runs forever for diameters 1 and 2.
   */
  lemma GrowsForeverLeftOfColumnZero(y: int)
    requires y >= 0
    ensures Grows(1, -1, y)
  {
    SquareIsProduct(y + 2);
    assert Square(0) == 0 && Square(-1) == 1 && Square(1) == 1;
    assert Diff(1, -1, y + 1) == (y + 2) * (y + 2) - 1;
    assert Diff(1, -2, y + 1) == (y + 2) * (y + 2);
  }

  /** The row where the growth loop stops when it starts at row y in column x. */
  function GrowEnd(radius: int, x: int, y: int): (end: int)
    requires radius >= 1 && x >= 0
    ensures y <= end
    ensures forall k :: y <= k < end ==> Grows(radius, x, k)
    ensures !Grows(radius, x, end)
    ensures end == y || end + 1 < radius
    decreases radius - y
  {
    if Grows(radius, x, y) then
      GrowsBound(radius, x, y);
      GrowEnd(radius, x, y + 1)
    else
      y
  }

  // ---------------------------------------------------------------------------
  // One step of the builder's loop
  // ---------------------------------------------------------------------------

  /** The line `build_next_line` builds after `lines`. */
  function NextLine(radius: int, lines: seq<Line>): Line
    requires radius >= 1 && (lines == [] || Last(lines).x1 >= 1)
  {
    var x := if lines == [] then radius - 1 else Last(lines).x1 - 1;
    var y1 := if lines == [] then 0 else Last(lines).y2 + 1;
    Line(x, y1, x, GrowEnd(radius, x, y1))
  }

  /** The loop test as the source writes it (`last_line_in_0_to_45_degree_segment?`). */
  predicate InOctant(l: Line) {
    l.y2 <= l.x1
  }

  /** The corrected loop test: as written, and stop once column 0 has been built. */
  predicate Continues(l: Line) {
    InOctant(l) && l.x1 > 0
  }

  /** `longer_than_last_line?` */
  predicate LongerThanLast(lines: seq<Line>, l: Line) {
    lines != [] && Length(l) > Length(Last(lines))
  }

  /** The index `find_index` returns in `revert_to_first_line_shorter_than`. */
  function FirstShorter(lines: seq<Line>, len: int): (i: nat)
    requires lines != [] && Length(Last(lines)) < len
    ensures i < |lines| && Length(lines[i]) < len
    ensures forall j :: 0 <= j < i ==> Length(lines[j]) >= len
  {
    if Length(lines[0]) < len then 0 else 1 + FirstShorter(lines[1..], len)
  }

  /** One pass of the loop in `build`: append the next line, or revert and lengthen. */
  function Step(radius: int, lines: seq<Line>): seq<Line>
    requires radius >= 1 && (lines == [] || Continues(Last(lines)))
  {
    var next := NextLine(radius, lines);
    if LongerThanLast(lines, next) then
      var kept := lines[..FirstShorter(lines, Length(next)) + 1];
      kept[..|kept| - 1] + [Lengthened(Last(kept))]
    else
      lines + [next]
  }

  /** Line i sits in column radius - 1 - i, and there are at most radius lines. */
  predicate Columns(radius: int, lines: seq<Line>) {
    && |lines| <= radius
    && forall i :: 0 <= i < |lines| ==> lines[i].x1 == lines[i].x2 == radius - 1 - i
  }

  /**
   * Every line runs from row y1 to row y2 >= y1 within rows 0 to radius - 1. The
   * first starts at row 0, and is a single pixel or ends by row radius - 2.
   */
  predicate Rows(radius: int, lines: seq<Line>) {
    && (forall i :: 0 <= i < |lines| ==> 0 <= lines[i].y1 <= lines[i].y2 < radius)
    && (lines != [] ==> lines[0].y1 == 0 && (lines[0].y2 == 0 || lines[0].y2 + 2 <= radius))
  }

  /** Each line starts at row y2 + 1 of the line before it. */
  predicate Chained(lines: seq<Line>) {
    forall i, j :: 0 <= i && j == i + 1 < |lines| ==> lines[j].y1 == lines[i].y2 + 1
  }

  /** No line is longer than the line before it. */
  predicate NonIncreasing(lines: seq<Line>) {
    forall i, j :: 0 <= i && j == i + 1 < |lines| ==> Length(lines[j]) <= Length(lines[i])
  }

  /** Every line but the last passed the loop test. */
  predicate ContinuedBeforeLast(lines: seq<Line>) {
    forall i :: 0 <= i < |lines| - 1 ==> Continues(lines[i])
  }

  /** What holds of the builder's lines at the head of every loop pass. */
  predicate Inv(radius: int, lines: seq<Line>) {
    && radius >= 1
    && Columns(radius, lines)
    && Rows(radius, lines)
    && Chained(lines)
    && NonIncreasing(lines)
    && ContinuedBeforeLast(lines)
  }

  /** A line that may follow `lines`: next column, chained, within the rows, no longer than the last. */
  predicate Fits(radius: int, lines: seq<Line>, l: Line) {
    && l.x1 == l.x2 == radius - 1 - |lines|
    && l.y1 == (if lines == [] then 0 else Last(lines).y2 + 1)
    && l.y1 <= l.y2 < radius
    && (lines == [] ==> l.y2 == 0 || l.y2 + 2 <= radius)
    && (lines != [] ==> Length(l) <= Length(Last(lines)))
  }

  // ---------------------------------------------------------------------------
  // Termination: run lengths grow lexicographically
  // ---------------------------------------------------------------------------

  /**
   * d copies of p added up: d * p for d >= 0, written as a recursion so that
   * the potential below stays linear until a proof asks for the product.
   */
  function Scale(d: int, p: int): int
    decreases if d > 0 then d else 0
  {
    if d <= 0 then 0 else p + Scale(d - 1, p)
  }

  lemma {:induction false} ScaleIsProduct(d: int, p: int)
    requires d >= 0
    ensures Scale(d, p) == d * p
  {
    if d > 0 {
      ScaleIsProduct(d - 1, p);
    }
  }

  function Pow(b: int, n: nat): int {
    if n == 0 then 1 else Scale(b, Pow(b, n - 1))
  }

  lemma {:induction false} PowPositive(b: int, n: nat)
    requires b >= 1
    ensures Pow(b, n) >= 1
  {
    if n > 0 {
      PowPositive(b, n - 1);
      ScaleIsProduct(b, Pow(b, n - 1));
      assert b * Pow(b, n - 1) >= Pow(b, n - 1);
    }
  }

  /** The run lengths read as the digits of an n-digit number in base m. */
  function Pot(lines: seq<Line>, n: nat, m: int): int
    requires |lines| <= n
  {
    if lines == [] then 0 else Scale(Length(lines[0]), Pow(m, n - 1)) + Pot(lines[1..], n - 1, m)
  }

  predicate LengthsBelow(lines: seq<Line>, m: int) {
    forall i :: 0 <= i < |lines| ==> 0 <= Length(lines[i]) < m
  }

  lemma DigitBound(d: int, p: int, m: int, rest: int)
    requires 0 <= d < m && 0 <= rest < p
    ensures 0 <= Scale(d, p) + rest < Scale(m, p)
  {
    ScaleIsProduct(d, p);
    ScaleIsProduct(m, p);
    assert d * p <= (m - 1) * p;
  }

  lemma {:induction false} PotBound(lines: seq<Line>, n: nat, m: int)
    requires |lines| <= n && m >= 1 && LengthsBelow(lines, m)
    ensures 0 <= Pot(lines, n, m) < Pow(m, n)
  {
    PowPositive(m, n);
    if lines != [] {
      assert LengthsBelow(lines[1..], m);
      PotBound(lines[1..], n - 1, m);
      DigitBound(Length(lines[0]), Pow(m, n - 1), m, Pot(lines[1..], n - 1, m));
    }
  }

  lemma {:induction false} PotAppend(lines: seq<Line>, l: Line, n: nat, m: int)
    requires |lines| < n
    ensures Pot(lines + [l], n, m) == Pot(lines, n, m) + Scale(Length(l), Pow(m, n - 1 - |lines|))
  {
    if lines == [] {
      assert [l][1..] == [];
    } else {
      assert (lines + [l])[1..] == lines[1..] + [l];
      PotAppend(lines[1..], l, n - 1, m);
    }
  }

  lemma {:induction false} PotRevert(lines: seq<Line>, i: nat, n: nat, m: int)
    requires i < |lines| <= n && m >= 1 && LengthsBelow(lines, m)
    ensures Pot(lines[..i] + [Lengthened(lines[i])], n, m) > Pot(lines, n, m)
  {
    var t := lines[..i] + [Lengthened(lines[i])];
    assert LengthsBelow(lines[1..], m);
    if i == 0 {
      assert t == [Lengthened(lines[0])];
      assert t[1..] == [];
      PotBound(lines[1..], n - 1, m);
      assert Scale(Length(t[0]), Pow(m, n - 1)) == Pow(m, n - 1) + Scale(Length(lines[0]), Pow(m, n - 1));
    } else {
      assert t[0] == lines[0];
      assert t[1..] == lines[1..][..i - 1] + [Lengthened(lines[1..][i - 1])];
      PotRevert(lines[1..], i - 1, n - 1, m);
    }
  }

  lemma InvLengths(radius: int, lines: seq<Line>)
    requires Inv(radius, lines)
    ensures LengthsBelow(lines, radius + 2)
  {
  }

  lemma AppendColumns(radius: int, lines: seq<Line>, l: Line)
    requires Columns(radius, lines) && |lines| < radius && l.x1 == l.x2 == radius - 1 - |lines|
    ensures Columns(radius, lines + [l])
  {
    var t := lines + [l];
    assert forall i :: 0 <= i < |lines| ==> t[i] == lines[i];
  }

  lemma AppendRows(radius: int, lines: seq<Line>, l: Line)
    requires Rows(radius, lines) && 0 <= l.y1 <= l.y2 < radius
    requires lines == [] ==> l.y1 == 0 && (l.y2 == 0 || l.y2 + 2 <= radius)
    ensures Rows(radius, lines + [l])
  {
    var t := lines + [l];
    assert forall i :: 0 <= i < |lines| ==> t[i] == lines[i];
  }

  lemma AppendChained(lines: seq<Line>, l: Line)
    requires Chained(lines) && (lines != [] ==> l.y1 == Last(lines).y2 + 1)
    ensures Chained(lines + [l])
  {
    var t := lines + [l];
    assert forall i :: 0 <= i < |lines| ==> t[i] == lines[i];
  }

  lemma AppendNonIncreasing(lines: seq<Line>, l: Line)
    requires NonIncreasing(lines) && (lines != [] ==> Length(l) <= Length(Last(lines)))
    ensures NonIncreasing(lines + [l])
  {
    var t := lines + [l];
    assert forall i :: 0 <= i < |lines| ==> t[i] == lines[i];
  }

  lemma AppendContinued(lines: seq<Line>, l: Line)
    requires ContinuedBeforeLast(lines) && (lines != [] ==> Continues(Last(lines)))
    ensures ContinuedBeforeLast(lines + [l])
  {
    var t := lines + [l];
    assert forall i :: 0 <= i < |lines| ==> t[i] == lines[i];
  }

  /** Appending a fitting line after a line that passed the loop test keeps the invariant. */
  lemma AppendKeepsInv(radius: int, lines: seq<Line>, l: Line)
    requires Inv(radius, lines) && (lines == [] || Continues(Last(lines)))
    requires Fits(radius, lines, l)
    ensures Inv(radius, lines + [l])
  {
    if lines != [] {
      assert Last(lines).x1 == radius - |lines|;
      assert 0 <= Last(lines).y2;
    }
    AppendColumns(radius, lines, l);
    AppendRows(radius, lines, l);
    AppendChained(lines, l);
    AppendNonIncreasing(lines, l);
    AppendContinued(lines, l);
  }

  /** Every prefix of lines that keep the invariant keeps it too. */
  lemma PrefixKeepsInv(radius: int, lines: seq<Line>, i: nat)
    requires Inv(radius, lines) && i <= |lines|
    ensures Inv(radius, lines[..i])
  {
    var p := lines[..i];
    assert forall k :: 0 <= k < i ==> p[k] == lines[k];
  }

  /**
   * The line `build_next_line` builds fits after the lines so far, except perhaps
   * in length; a line that grew ends by row radius - 2.
   */
  lemma NextLineShape(radius: int, lines: seq<Line>)
    requires Inv(radius, lines) && (lines == [] || Continues(Last(lines)))
    ensures var l := NextLine(radius, lines);
      && l.x1 == l.x2 == radius - 1 - |lines|
      && l.y1 == (if lines == [] then 0 else Last(lines).y2 + 1)
      && l.y1 <= l.y2 < radius
      && (l.y2 == l.y1 || l.y2 + 1 < radius)
  {
    if lines != [] {
      assert Last(lines).x1 == radius - |lines|;
      if |lines| == 1 {
        assert Last(lines) == lines[0];
      }
    }
  }

  /** Reverting to line i, the first shorter than the rejected line, and lengthening it keeps the invariant. */
  lemma RevertKeepsInv(radius: int, lines: seq<Line>, len: int, i: nat)
    requires Inv(radius, lines) && lines != [] && Continues(Last(lines))
    requires Length(Last(lines)) < len && i == FirstShorter(lines, len)
    requires Last(lines).y2 + len + 1 < radius
    ensures Inv(radius, lines[..i] + [Lengthened(lines[i])])
  {
    var p := lines[..i];
    var l := Lengthened(lines[i]);
    PrefixKeepsInv(radius, lines, i);
    assert Continues(lines[i]);
    assert lines[i].y2 <= lines[i].x1 == radius - 1 - i;
    if i == 0 {
      assert Length(lines[0]) < len && 0 <= Last(lines).y2;
    } else {
      assert Last(p) == lines[i - 1];
      assert Continues(lines[i - 1]);
      assert Length(lines[i - 1]) >= len;
      assert lines[i].y1 == lines[i - 1].y2 + 1;
    }
    assert Fits(radius, p, l);
    AppendKeepsInv(radius, p, l);
  }

  /** The revert branch keeps the invariant and raises the potential within its bound. */
  lemma RevertPass(radius: int, lines: seq<Line>, len: int, i: nat)
    requires Inv(radius, lines) && lines != [] && Continues(Last(lines))
    requires Length(Last(lines)) < len && i == FirstShorter(lines, len)
    requires Last(lines).y2 + len + 1 < radius
    ensures var t := lines[..i] + [Lengthened(lines[i])];
      && Inv(radius, t)
      && Pot(lines, radius, radius + 2) < Pot(t, radius, radius + 2) < Pow(radius + 2, radius)
  {
    var t := lines[..i] + [Lengthened(lines[i])];
    RevertKeepsInv(radius, lines, len, i);
    RevertRaisesPot(radius, lines, i);
    InvLengths(radius, t);
    PotBound(t, radius, radius + 2);
  }

  /** The append branch keeps the invariant and raises the potential within its bound. */
  lemma AppendPass(radius: int, lines: seq<Line>, l: Line)
    requires Inv(radius, lines) && (lines == [] || Continues(Last(lines)))
    requires Fits(radius, lines, l)
    ensures Inv(radius, lines + [l])
    ensures Pot(lines, radius, radius + 2) < Pot(lines + [l], radius, radius + 2) < Pow(radius + 2, radius)
  {
    AppendKeepsInv(radius, lines, l);
    AppendRaisesPot(radius, lines, l);
    InvLengths(radius, lines + [l]);
    PotBound(lines + [l], radius, radius + 2);
  }

  /** A loop pass keeps the invariant and strictly raises the potential. */
  lemma StepPreserves(radius: int, lines: seq<Line>)
    requires Inv(radius, lines) && (lines == [] || Continues(Last(lines)))
    ensures Inv(radius, Step(radius, lines))
    ensures Pot(lines, radius, radius + 2) < Pot(Step(radius, lines), radius, radius + 2) < Pow(radius + 2, radius)
  {
    var next := NextLine(radius, lines);
    NextLineShape(radius, lines);
    if LongerThanLast(lines, next) {
      var i := FirstShorter(lines, Length(next));
      assert 1 <= Length(Last(lines));
      RevertPass(radius, lines, Length(next), i);
      assert Step(radius, lines) == lines[..i] + [Lengthened(lines[i])];
    } else {
      AppendPass(radius, lines, next);
      assert Step(radius, lines) == lines + [next];
    }
  }

  lemma RevertRaisesPot(radius: int, lines: seq<Line>, i: nat)
    requires Inv(radius, lines) && i < |lines|
    ensures Pot(lines, radius, radius + 2) < Pot(lines[..i] + [Lengthened(lines[i])], radius, radius + 2)
  {
    InvLengths(radius, lines);
    PotRevert(lines, i, radius, radius + 2);
  }

  lemma AppendRaisesPot(radius: int, lines: seq<Line>, next: Line)
    requires |lines| < radius && Length(next) >= 1
    ensures Pot(lines, radius, radius + 2) < Pot(lines + [next], radius, radius + 2)
  {
    var p := Pow(radius + 2, radius - 1 - |lines|);
    PotAppend(lines, next, radius, radius + 2);
    PowPositive(radius + 2, radius - 1 - |lines|);
    ScaleIsProduct(Length(next), p);
    assert Length(next) * p >= p;
  }

  /** The lines `build` ends with when its loop is entered with `lines`. */
  function BuildFrom(radius: int, lines: seq<Line>): seq<Line>
    requires Inv(radius, lines)
    decreases Pow(radius + 2, radius) - Pot(lines, radius, radius + 2)
  {
    if lines != [] && !Continues(Last(lines)) then
      lines
    else
      InvLengths(radius, lines);
      PotBound(lines, radius, radius + 2);
      StepPreserves(radius, lines);
      BuildFrom(radius, Step(radius, lines))
  }

  /** The lines `CircleEighthBuilder.new(radius).lines`. */
  function Eighth(radius: int): seq<Line>
    requires radius >= 1
  {
    BuildFrom(radius, [])
  }

  lemma {:induction false} BuildFromDone(radius: int, lines: seq<Line>)
    requires Inv(radius, lines)
    ensures Inv(radius, BuildFrom(radius, lines))
    ensures BuildFrom(radius, lines) != [] && !Continues(Last(BuildFrom(radius, lines)))
    decreases Pow(radius + 2, radius) - Pot(lines, radius, radius + 2)
  {
    if lines == [] || Continues(Last(lines)) {
      InvLengths(radius, lines);
      PotBound(lines, radius, radius + 2);
      StepPreserves(radius, lines);
      BuildFromDone(radius, Step(radius, lines));
    }
  }

  // ---------------------------------------------------------------------------
  // What the finished eighth looks like
  // ---------------------------------------------------------------------------

  /**
   * The eighth is a chain of vertical lines: the first starts at row 0 in column
   * radius - 1, each next one sits in column x - 1 of the previous one and
   * starts at its row y2 + 1; no column is negative.
   */
  lemma EighthChained(radius: int)
    requires radius >= 1
    ensures var e := Eighth(radius);
      && e != []
      && e[0].x1 == radius - 1 && e[0].y1 == 0
      && (forall i :: 0 <= i < |e| ==> e[i].x1 == e[i].x2 >= 0 && e[i].y1 <= e[i].y2)
      && (forall i :: 0 < i < |e| ==> e[i].x1 == e[i - 1].x1 - 1 && e[i].y1 == e[i - 1].y2 + 1)
  {
    BuildFromDone(radius, []);
  }

  /** Every line of the eighth lies within columns and rows 0 to radius - 1. */
  lemma EighthWithinRadius(radius: int)
    requires radius >= 1
    ensures var e := Eighth(radius);
      forall i :: 0 <= i < |e| ==> 0 <= e[i].x1 == e[i].x2 < radius && 0 <= e[i].y1 <= e[i].y2 < radius
  {
    BuildFromDone(radius, []);
  }

  /** Run lengths never increase along the eighth. */
  lemma EighthRunLengthsNonIncreasing(radius: int)
    requires radius >= 1
    ensures var e := Eighth(radius);
      forall i, j :: 0 <= i <= j < |e| ==> Length(e[j]) <= Length(e[i])
  {
    BuildFromDone(radius, []);
    var e := Eighth(radius);
    forall i, j | 0 <= i <= j < |e| ensures Length(e[j]) <= Length(e[i]) {
      var k := j;
      while k > i
        invariant i <= k <= j
        invariant Length(e[j]) <= Length(e[k])
      {
        k := k - 1;
      }
    }
  }

  /** From radius 2 on, a last line with y2 <= x is never in column 0. */
  lemma InOctantLeavesColumnZero(radius: int, lines: seq<Line>)
    requires radius >= 2 && Inv(radius, lines) && lines != [] && InOctant(Last(lines))
    ensures Last(lines).x1 > 0
  {
    var k := |lines| - 1;
    if k > 0 {
      assert lines[k].y1 == lines[k - 1].y2 + 1 >= 1;
    }
  }

  /**
   * Every line but the last ends at a row y2 <= x, on the near side of the
   * diagonal; from radius 2 on, the last one crosses it (y2 > x).
   */
  lemma EighthEndsAcrossDiagonal(radius: int)
    requires radius >= 1
    ensures var e := Eighth(radius);
      && e != []
      && (forall i :: 0 <= i < |e| - 1 ==> e[i].y2 <= e[i].x1)
      && (radius >= 2 ==> Last(e).y2 > Last(e).x1)
  {
    var e := Eighth(radius);
    BuildFromDone(radius, []);
    if radius >= 2 && InOctant(Last(e)) {
      InOctantLeavesColumnZero(radius, e);
    }
  }

  /** Radius 2 gives exactly the lines [1, 0, 1, 0] and [0, 1, 0, 1]. */
  lemma EighthOfRadiusTwo()
    ensures Eighth(2) == [Line(1, 0, 1, 0), Line(0, 1, 0, 1)]
  {
    var s0: seq<Line> := [];
    var s1 := [Line(1, 0, 1, 0)];
    var s2 := [Line(1, 0, 1, 0), Line(0, 1, 0, 1)];
    RadiusTwoFirstPass(s0, s1);
    RadiusTwoSecondPass(s1, s2);
    RadiusTwoStops(s2);
  }

  // The three passes of the loop at radius 2. Sequences are passed as
  // parameters so that the verifier does not evaluate the literals eagerly.

  lemma RadiusTwoFirstPass(s0: seq<Line>, s1: seq<Line>)
    requires s0 == [] && s1 == [Line(1, 0, 1, 0)]
    ensures BuildFrom(2, s0) == BuildFrom(2, s1)
  {
    FirstStepOfRadiusTwo();
    BuildFromUnfold(2, s0);
  }

  lemma RadiusTwoSecondPass(s1: seq<Line>, s2: seq<Line>)
    requires s1 == [Line(1, 0, 1, 0)] && s2 == [Line(1, 0, 1, 0), Line(0, 1, 0, 1)]
    ensures BuildFrom(2, s1) == BuildFrom(2, s2)
  {
    assert Inv(2, s1) && Continues(Last(s1));
    SecondStepOfRadiusTwo();
    BuildFromUnfold(2, s1);
  }

  lemma RadiusTwoStops(s2: seq<Line>)
    requires s2 == [Line(1, 0, 1, 0), Line(0, 1, 0, 1)]
    ensures Inv(2, s2) && BuildFrom(2, s2) == s2
  {
    RadiusTwoInv(s2);
  }

  lemma RadiusTwoInv(s2: seq<Line>)
    requires s2 == [Line(1, 0, 1, 0), Line(0, 1, 0, 1)]
    ensures Inv(2, s2)
  {
  }

  lemma BuildFromUnfold(radius: int, lines: seq<Line>)
    requires Inv(radius, lines) && (lines == [] || Continues(Last(lines)))
    ensures Inv(radius, Step(radius, lines))
    ensures BuildFrom(radius, lines) == BuildFrom(radius, Step(radius, lines))
  {
    StepPreserves(radius, lines);
  }

  lemma FirstStepOfRadiusTwo()
    ensures Step(2, []) == [Line(1, 0, 1, 0)]
  {
    assert Diff(2, 1, 1) == 4 && Diff(2, 0, 1) == 1;
    assert GrowEnd(2, 1, 0) == 0;
  }

  lemma SecondStepOfRadiusTwo()
    ensures Step(2, [Line(1, 0, 1, 0)]) == [Line(1, 0, 1, 0), Line(0, 1, 0, 1)]
  {
    assert Diff(2, 0, 2) == 6 && Diff(2, -1, 2) == 5;
    assert GrowEnd(2, 0, 1) == 1;
    assert NextLine(2, [Line(1, 0, 1, 0)]) == Line(0, 1, 0, 1);
  }

  // ---------------------------------------------------------------------------
  // The loop test: as written versus corrected
  // ---------------------------------------------------------------------------

  /**
   * As written, radius 1 (diameters 1 and 2) never finishes: the first line is
   * [0, 0, 0, 0], the source's loop test still holds for it, and the next line,
   * in column -1 starting at row 1, grows at every row.
   */
  lemma RadiusOneNeverFinishesAsWritten()
    ensures NextLine(1, []) == Line(0, 0, 0, 0)
    ensures InOctant(Line(0, 0, 0, 0))
    ensures forall y :: y >= 1 ==> Grows(1, -1, y)
  {
    assert !Grows(1, 0, 0);
    forall y | y >= 1 ensures Grows(1, -1, y) {
      GrowsForeverLeftOfColumnZero(y);
    }
  }

  /** With the corrected test, radius 1 gives the single pixel [0, 0, 0, 0]. */
  lemma EighthOfRadiusOne()
    ensures Eighth(1) == [Line(0, 0, 0, 0)]
  {
    var s0: seq<Line> := [];
    var s1 := [Line(0, 0, 0, 0)];
    RadiusOneFirstPass(s0, s1);
    RadiusOneStops(s1);
  }

  lemma RadiusOneFirstPass(s0: seq<Line>, s1: seq<Line>)
    requires s0 == [] && s1 == [Line(0, 0, 0, 0)]
    ensures BuildFrom(1, s0) == BuildFrom(1, s1)
  {
    FirstStepOfRadiusOne();
    BuildFromUnfold(1, s0);
  }

  lemma FirstStepOfRadiusOne()
    ensures Step(1, []) == [Line(0, 0, 0, 0)]
  {
    assert !Grows(1, 0, 0);
  }

  lemma RadiusOneStops(s1: seq<Line>)
    requires s1 == [Line(0, 0, 0, 0)]
    ensures Inv(1, s1) && BuildFrom(1, s1) == s1
  {
  }

  /** From radius 2 on, the corrected loop test is exactly the source's. */
  lemma ContinuesAgreesFromRadiusTwo(radius: int, lines: seq<Line>)
    requires radius >= 2 && Inv(radius, lines) && lines != []
    ensures Continues(Last(lines)) <==> InOctant(Last(lines))
  {
    if InOctant(Last(lines)) {
      InOctantLeavesColumnZero(radius, lines);
    }
  }

  // ---------------------------------------------------------------------------
  // The builder object
  // ---------------------------------------------------------------------------

  class CircleEighthBuilder {
    const radius: int
    var lines: seq<Line>

    constructor (radius: int)
      requires radius >= 1
      ensures this.radius == radius && lines == Eighth(radius)
    {
      this.radius := radius;
      lines := [];
      new;
      Build();
    }

    /** `build`: the loop that appends, reverts and lengthens lines. */
    method Build()
      requires radius >= 1 && lines == []
      modifies this
      ensures lines == Eighth(radius)
    {
      ghost var start := lines;
      while lines == [] || Continues(Last(lines))
        invariant Inv(radius, lines)
        invariant BuildFrom(radius, lines) == BuildFrom(radius, start)
        decreases Pow(radius + 2, radius) - Pot(lines, radius, radius + 2)
      {
        BuildPass();
      }
    }

    /**
     * One pass of the loop in `build`: the lines take one step, keep the loop
     * invariant, leave the same final result, and raise the potential.
     */
    method BuildPass()
      requires Inv(radius, lines) && (lines == [] || Continues(Last(lines)))
      modifies this
      ensures lines == Step(radius, old(lines))
      ensures Inv(radius, lines)
      ensures BuildFrom(radius, lines) == BuildFrom(radius, old(lines))
      ensures 0 <= Pot(old(lines), radius, radius + 2) < Pot(lines, radius, radius + 2) < Pow(radius + 2, radius)
    {
      InvLengths(radius, lines);
      PotBound(lines, radius, radius + 2);
      BuildFromUnfold(radius, lines);
      StepPreserves(radius, lines);
      AppendOrRevert();
    }

    /**
     * The statements of the loop body: the next line is appended, or, when it is
     * longer than the last line, the lines are reverted and the kept last line is
     * lengthened instead (the `next` branch).
     */
    method AppendOrRevert()
      requires radius >= 1 && (lines == [] || Continues(Last(lines)))
      modifies this
      ensures lines == Step(radius, old(lines))
    {
      var nextLine := BuildNextLine();
      if LongerThanLastLine(nextLine) {
        RevertToFirstLineShorterThan(nextLine);
        LengthenLastLine();
        return;
      }
      lines := lines + [nextLine];
    }

    /** `build_next_line`: the growth loop for the next column. */
    method BuildNextLine() returns (line: Line)
      requires radius >= 1 && (lines == [] || Last(lines).x1 >= 1)
      ensures line == NextLine(radius, lines)
      ensures line.x1 == line.x2 == if lines == [] then radius - 1 else Last(lines).x1 - 1
      ensures line.y1 == (if lines == [] then 0 else Last(lines).y2 + 1) <= line.y2
      ensures forall k :: line.y1 <= k < line.y2 ==> Grows(radius, line.x1, k)
      ensures !Grows(radius, line.x1, line.y2)
      ensures line.y2 == line.y1 || line.y2 < radius
    {
      var x := if lines == [] then radius - 1 else Last(lines).x1 - 1;
      var y1 := if lines == [] then 0 else Last(lines).y2 + 1;
      var y2 := y1;
      while Diff(radius, x, y2 + 1) < Diff(radius, x - 1, y2 + 1)
        invariant y1 <= y2
        invariant GrowEnd(radius, x, y2) == GrowEnd(radius, x, y1)
        decreases radius - y2
      {
        GrowsBound(radius, x, y2);
        y2 := y2 + 1;
      }
      line := Line(x, y1, x, y2);
    }

    /** `longer_than_last_line?` */
    predicate LongerThanLastLine(line: Line)
      reads this
    {
      LongerThanLast(lines, line)
    }

    /** `revert_to_first_line_shorter_than`: keep lines up to the first one shorter than `tooLong`. */
    method RevertToFirstLineShorterThan(tooLong: Line)
      requires lines != [] && Length(Last(lines)) < Length(tooLong)
      modifies this
      ensures lines == old(lines[..FirstShorter(lines, Length(tooLong)) + 1])
    {
      var index := FirstShorter(lines, Length(tooLong));
      lines := lines[..index + 1];
    }

    /** `lengthen_last_line`: the last line now ends at row y2 + 1. */
    method LengthenLastLine()
      requires lines != []
      modifies this
      ensures lines == old(lines[..|lines| - 1]) + [Lengthened(old(Last(lines)))]
    {
      lines := lines[..|lines| - 1] + [Lengthened(Last(lines))];
    }
  }
}
