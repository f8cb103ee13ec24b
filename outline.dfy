/**
 * `CircleBuilder`: mirrors the eighth into a full outline inside a
 * diameter x diameter render target and turns its lines into line primitives.
 */
module CircleOutline {
  import opened Lines
  import opened RenderTargets
  import CircleEighth

  /** `(diameter / 2).ceil`, the host's `/` being fractional. */
  function Radius(diameter: int): (radius: int)
    ensures 2 * radius - 1 <= diameter <= 2 * radius
  {
    (diameter + 1) / 2
  }

  // ---------------------------------------------------------------------------
  // The coordinate maps
  // ---------------------------------------------------------------------------

  function Shift(l: Line, dx: int, dy: int): Line {
    Line(l.x1 + dx, l.y1 + dy, l.x2 + dx, l.y2 + dy)
  }

  /** Mirror across the diagonal (`mirror_around_diagonal` on one line). */
  function Swap(l: Line): Line {
    Line(l.y1, l.x1, l.y2, l.x2)
  }

  /** Mirror across the boundary between rows -1 and 0 (`mirror_vertically` on one line). */
  function FlipY(l: Line): Line {
    Line(l.x1, -l.y1 - 1, l.x2, -l.y2 - 1)
  }

  /** Mirror across the column boundary left of column 0 (`mirror_horizontally` on one line). */
  function FlipX(l: Line): Line {
    Line(-l.x1 - 1, l.y1, -l.x2 - 1, l.y2)
  }

  function Translated(lines: seq<Line>, dx: int, dy: int): seq<Line> {
    seq(|lines|, i requires 0 <= i < |lines| => Shift(lines[i], dx, dy))
  }

  function Swapped(lines: seq<Line>): seq<Line> {
    seq(|lines|, i requires 0 <= i < |lines| => Swap(lines[i]))
  }

  function FlippedY(lines: seq<Line>): seq<Line> {
    seq(|lines|, i requires 0 <= i < |lines| => FlipY(lines[i]))
  }

  function FlippedX(lines: seq<Line>): seq<Line> {
    seq(|lines|, i requires 0 <= i < |lines| => FlipX(lines[i]))
  }

  /** Translating back undoes a translation. */
  lemma TranslatedRoundTrip(lines: seq<Line>, dx: int, dy: int)
    ensures Translated(Translated(lines, dx, dy), -dx, -dy) == lines
  {
    var back := Translated(Translated(lines, dx, dy), -dx, -dy);
    assert forall i :: 0 <= i < |lines| ==> back[i] == lines[i];
  }

  /** Each mirror, applied twice, gives the lines back. */
  lemma MirrorsAreInvolutions(lines: seq<Line>)
    ensures Swapped(Swapped(lines)) == lines
    ensures FlippedY(FlippedY(lines)) == lines
    ensures FlippedX(FlippedX(lines)) == lines
  {
    assert forall i :: 0 <= i < |lines| ==> Swapped(Swapped(lines))[i] == lines[i];
    assert forall i :: 0 <= i < |lines| ==> FlippedY(FlippedY(lines))[i] == lines[i];
    assert forall i :: 0 <= i < |lines| ==> FlippedX(FlippedX(lines))[i] == lines[i];
  }

  // ---------------------------------------------------------------------------
  // The outline
  // ---------------------------------------------------------------------------

  predicate Odd(diameter: int) {
    diameter % 2 == 1
  }

  /** `build_quarter`: the eighth followed by its mirror image across the diagonal. */
  function Quarter(eighth: seq<Line>): seq<Line> {
    eighth + Swapped(eighth)
  }

  /**
   * `mirror_vertically`: the mirror images of the lines are taken first and
   * appended; for odd diameters the original lines then move to y - 1.
   */
  function MirroredVertically(lines: seq<Line>, diameter: int): seq<Line> {
    (if Odd(diameter) then Translated(lines, 0, -1) else lines) + FlippedY(lines)
  }

  /**
   * `mirror_horizontally`: the mirror images of the lines are taken first and
   * appended; for odd diameters the original lines then move to x - 1.
   */
  function MirroredHorizontally(lines: seq<Line>, diameter: int): seq<Line> {
    (if Odd(diameter) then Translated(lines, -1, 0) else lines) + FlippedX(lines)
  }

  /** The lines `CircleBuilder.new(diameter)` holds after `build`. */
  function Outline(diameter: int): seq<Line>
    requires diameter >= 1
  {
    var radius := Radius(diameter);
    var quarter := Quarter(CircleEighth.Eighth(radius));
    Translated(MirroredHorizontally(MirroredVertically(quarter, diameter), diameter), radius, radius)
  }

  /** The outline has eight lines for every line of the eighth. */
  lemma OutlineSize(diameter: int)
    requires diameter >= 1
    ensures |Outline(diameter)| == 8 * |CircleEighth.Eighth(Radius(diameter))|
  {
  }

  /** Mirror images about the centre of the diameter x diameter square. */
  function MirrorLeftRight(diameter: int, l: Line): Line {
    Line(diameter - 1 - l.x1, l.y1, diameter - 1 - l.x2, l.y2)
  }

  function MirrorTopBottom(diameter: int, l: Line): Line {
    Line(l.x1, diameter - 1 - l.y1, l.x2, diameter - 1 - l.y2)
  }

  function OddShift(diameter: int): int {
    if Odd(diameter) then -1 else 0
  }

  /**
   * Where line l of the quarter lands in the outline: flipped or shifted by the
   * vertical step, flipped or shifted by the horizontal step, then translated.
   */
  function Place(l: Line, diameter: int, flipY: bool, flipX: bool): Line {
    var s := OddShift(diameter);
    var r := Radius(diameter);
    var v := if flipY then FlipY(l) else Shift(l, 0, s);
    var h := if flipX then FlipX(v) else Shift(v, s, 0);
    Shift(h, r, r)
  }

  function PlaceIndex(n: nat, k: nat, flipY: bool, flipX: bool): nat {
    (if flipX then 2 * n else 0) + (if flipY then n else 0) + k
  }

  /** The outline is the quarter placed in all four ways. */
  lemma OutlineAt(diameter: int, k: nat, flipY: bool, flipX: bool)
    requires diameter >= 1
    requires k < |Quarter(CircleEighth.Eighth(Radius(diameter)))|
    ensures var quarter := Quarter(CircleEighth.Eighth(Radius(diameter)));
      var i := PlaceIndex(|quarter|, k, flipY, flipX);
      i < |Outline(diameter)| && Outline(diameter)[i] == Place(quarter[k], diameter, flipY, flipX)
  {
    var r := Radius(diameter);
    var quarter := Quarter(CircleEighth.Eighth(r));
    var n := |quarter|;
    var v := MirroredVertically(quarter, diameter);
    var h := MirroredHorizontally(v, diameter);
    var j := (if flipY then n else 0) + k;
    assert v[j] == if flipY then FlipY(quarter[k]) else Shift(quarter[k], 0, OddShift(diameter));
    var i := PlaceIndex(n, k, flipY, flipX);
    assert h[i] == if flipX then FlipX(v[j]) else Shift(v[j], OddShift(diameter), 0);
  }

  lemma OutlineMember(diameter: int, l: Line) returns (k: nat, flipY: bool, flipX: bool)
    requires diameter >= 1 && l in Outline(diameter)
    ensures k < |Quarter(CircleEighth.Eighth(Radius(diameter)))|
    ensures l == Place(Quarter(CircleEighth.Eighth(Radius(diameter)))[k], diameter, flipY, flipX)
  {
    var n := |Quarter(CircleEighth.Eighth(Radius(diameter)))|;
    var i :| 0 <= i < |Outline(diameter)| && Outline(diameter)[i] == l;
    flipX := i >= 2 * n;
    var j := if flipX then i - 2 * n else i;
    flipY := j >= n;
    k := if flipY then j - n else j;
    assert i == PlaceIndex(n, k, flipY, flipX);
    OutlineAt(diameter, k, flipY, flipX);
  }

  lemma PlaceInOutline(diameter: int, k: nat, flipY: bool, flipX: bool)
    requires diameter >= 1 && k < |Quarter(CircleEighth.Eighth(Radius(diameter)))|
    ensures Place(Quarter(CircleEighth.Eighth(Radius(diameter)))[k], diameter, flipY, flipX) in Outline(diameter)
  {
    OutlineAt(diameter, k, flipY, flipX);
  }

  /** The outline is symmetric about the vertical centre line of the target. */
  lemma OutlineSymmetricLeftRight(diameter: int, l: Line)
    requires diameter >= 1 && l in Outline(diameter)
    ensures MirrorLeftRight(diameter, l) in Outline(diameter)
  {
    var k, flipY, flipX := OutlineMember(diameter, l);
    var q := Quarter(CircleEighth.Eighth(Radius(diameter)))[k];
    assert MirrorLeftRight(diameter, l) == Place(q, diameter, flipY, !flipX);
    PlaceInOutline(diameter, k, flipY, !flipX);
  }

  /** The outline is symmetric about the horizontal centre line of the target. */
  lemma OutlineSymmetricTopBottom(diameter: int, l: Line)
    requires diameter >= 1 && l in Outline(diameter)
    ensures MirrorTopBottom(diameter, l) in Outline(diameter)
  {
    var k, flipY, flipX := OutlineMember(diameter, l);
    var q := Quarter(CircleEighth.Eighth(Radius(diameter)))[k];
    assert MirrorTopBottom(diameter, l) == Place(q, diameter, !flipY, flipX);
    PlaceInOutline(diameter, k, !flipY, flipX);
  }

  /** The quarter is its own mirror image across the diagonal. */
  lemma QuarterSwapClosed(eighth: seq<Line>, k: nat)
    requires k < |Quarter(eighth)|
    ensures var j := if k < |eighth| then k + |eighth| else k - |eighth|;
      j < |Quarter(eighth)| && Quarter(eighth)[j] == Swap(Quarter(eighth)[k])
  {
  }

  /** The outline is symmetric about the diagonal of the target. */
  lemma OutlineSymmetricDiagonal(diameter: int, l: Line)
    requires diameter >= 1 && l in Outline(diameter)
    ensures Swap(l) in Outline(diameter)
  {
    var eighth := CircleEighth.Eighth(Radius(diameter));
    var k, flipY, flipX := OutlineMember(diameter, l);
    var j := if k < |eighth| then k + |eighth| else k - |eighth|;
    QuarterSwapClosed(eighth, k);
    assert Swap(l) == Place(Quarter(eighth)[j], diameter, flipX, flipY);
    PlaceInOutline(diameter, j, flipX, flipY);
  }

  /** Every pixel of line l lies within columns and rows lo to hi. */
  predicate WithinSquare(l: Line, lo: int, hi: int) {
    && lo <= l.x1 <= hi && lo <= l.x2 <= hi
    && lo <= l.y1 <= hi && lo <= l.y2 <= hi
  }

  lemma QuarterWithinRadius(radius: int, k: nat)
    requires radius >= 1 && k < |Quarter(CircleEighth.Eighth(radius))|
    ensures WithinSquare(Quarter(CircleEighth.Eighth(radius))[k], 0, radius - 1)
  {
    CircleEighth.EighthWithinRadius(radius);
  }

  /** The outline lies inside the diameter x diameter target it is drawn into. */
  lemma OutlineInTarget(diameter: int, l: Line)
    requires diameter >= 1 && l in Outline(diameter)
    ensures WithinSquare(l, 0, diameter - 1)
  {
    var k, flipY, flipX := OutlineMember(diameter, l);
    QuarterWithinRadius(Radius(diameter), k);
  }

  // ---------------------------------------------------------------------------
  // Line primitives
  // ---------------------------------------------------------------------------

  /** Pixel t lies between a and b, both included. */
  predicate Inclusive(a: int, b: int, t: int) {
    if a <= b then a <= t <= b else b <= t <= a
  }

  /** Pixel t lies between a and b, a included and b not: how the host draws a line. */
  predicate Exclusive(a: int, b: int, t: int) {
    if a <= b then a <= t < b else b < t <= a
  }

  /**
   * One line as a white line primitive at y + 1 (`primitives` with
   * `lengthen_by_one`): the start is kept, and along a vertical (horizontal)
   * line the end moves one pixel further out, so that the host, which leaves
   * out the end pixel, draws exactly the line's rows (columns). A single pixel
   * gets both moves.
   */
  function ToPrimitive(l: Line): (p: Primitive)
    ensures p.x1 == l.x1 && p.y1 == l.y1 + 1
    ensures p.r == p.g == p.b == 255
    ensures l.x1 == l.x2 ==> forall y :: Exclusive(p.y1, p.y2, y) <==> Inclusive(l.y1 + 1, l.y2 + 1, y)
    ensures l.y1 == l.y2 ==> forall x :: Exclusive(p.x1, p.x2, x) <==> Inclusive(l.x1, l.x2, x)
    ensures l.x1 != l.x2 ==> p.y2 == l.y2 + 1
    ensures l.y1 != l.y2 ==> p.x2 == l.x2
    ensures l.x1 == l.x2 && l.y1 == l.y2 ==> p.x2 == l.x2 + 1 && p.y2 == l.y2 + 2
  {
    var p0 := LinePrimitive(l.x1, l.y1 + 1, l.x2, l.y2 + 1, 255, 255, 255);
    var p1 := if l.y1 == l.y2 then p0.(x2 := p0.x2 + (if l.x2 >= l.x1 then 1 else -1)) else p0;
    if l.x1 == l.x2 then p1.(y2 := p1.y2 + (if l.y2 >= l.y1 then 1 else -1)) else p1
  }

  /** `primitives`: one primitive per line, in order. */
  function Primitives(lines: seq<Line>): seq<Primitive> {
    seq(|lines|, i requires 0 <= i < |lines| => ToPrimitive(lines[i]))
  }

  // ---------------------------------------------------------------------------
  // The builder object
  // ---------------------------------------------------------------------------

  class CircleBuilder {
    const diameter: int
    const radius: int
    var lines: seq<Line>

    constructor (diameter: int)
      requires diameter >= 1
      ensures this.diameter == diameter && radius == Radius(diameter)
      ensures lines == Outline(diameter)
    {
      this.diameter := diameter;
      radius := Radius(diameter);
      lines := [];
      new;
      Build();
    }

    /** `prepare_target`: a diameter x diameter target holding the primitives; its name is now drawing. */
    method PrepareTarget(registry: Registry)
      requires registry.Valid()
      modifies registry, registry.drawing
      ensures registry.Valid()
      ensures registry.targets == old(registry.targets)[RenderTargetName(diameter) := Target(diameter, diameter, Primitives(lines))]
      ensures registry.drawing.values == old(registry.drawing.values) + {RenderTargetName(diameter)}
      ensures registry.ready.values == old(registry.ready.values)
    {
      var name := RenderTargetName(diameter);
      registry.targets := registry.targets[name := Target(diameter, diameter, Primitives(lines))];
      registry.drawing.Add(name);
    }

    /** `build` */
    method Build()
      requires diameter >= 1 && radius == Radius(diameter)
      modifies this
      ensures lines == Outline(diameter)
    {
      lines := BuildQuarter();
      MirrorVertically();
      MirrorHorizontally();
      Translate(radius, radius);
    }

    /** `build_quarter` */
    method BuildQuarter() returns (quarter: seq<Line>)
      requires radius >= 1
      ensures quarter == Quarter(CircleEighth.Eighth(radius))
      ensures |quarter| == 2 * |CircleEighth.Eighth(radius)|
    {
      var eighthBuilder := new CircleEighth.CircleEighthBuilder(radius);
      var eighth := eighthBuilder.lines;
      quarter := eighth + Swapped(eighth);
    }

    /** `mirror_vertically` */
    method MirrorVertically()
      modifies this
      ensures lines == MirroredVertically(old(lines), diameter)
    {
      var mirrored := FlippedY(lines);
      if Odd(diameter) {
        Translate(0, -1);
      }
      lines := lines + mirrored;
    }

    /** `mirror_horizontally` */
    method MirrorHorizontally()
      modifies this
      ensures lines == MirroredHorizontally(old(lines), diameter)
    {
      var mirrored := FlippedX(lines);
      if Odd(diameter) {
        Translate(-1, 0);
      }
      lines := lines + mirrored;
    }

    /** `translate`: moves every line, one at a time. */
    method Translate(offsetX: int, offsetY: int)
      modifies this
      ensures lines == Translated(old(lines), offsetX, offsetY)
    {
      var i := 0;
      while i < |lines|
        invariant 0 <= i <= |lines| == |old(lines)|
        invariant forall j :: 0 <= j < i ==> lines[j] == Shift(old(lines)[j], offsetX, offsetY)
        invariant forall j :: i <= j < |lines| ==> lines[j] == old(lines)[j]
      {
        lines := lines[i := Shift(lines[i], offsetX, offsetY)];
        i := i + 1;
      }
    }
  }

  /** The target `prepare_circle_border` leaves for a diameter: d x d, holding the primitives of its outline. */
  function CircleTarget(diameter: int): Target
    requires diameter >= 1
  {
    Target(diameter, diameter, Primitives(Outline(diameter)))
  }

  /** `CirclePrimitives.prepare_circle_border` */
  method PrepareCircleBorder(registry: Registry, diameter: int)
    requires registry.Valid() && diameter >= 1
    modifies registry, registry.drawing
    ensures registry.Valid()
    ensures registry.targets == old(registry.targets)[RenderTargetName(diameter) := CircleTarget(diameter)]
    ensures registry.drawing.values == old(registry.drawing.values) + {RenderTargetName(diameter)}
    ensures registry.ready.values == old(registry.ready.values)
  {
    var builder := new CircleBuilder(diameter);
    builder.PrepareTarget(registry);
  }
}
