/** The battery icon drawn at the left of the display: a filled contact tab,
    an outlined rounded casing, and filled segments stacked from the bottom
    of the casing upwards. Coordinates are pixels with y growing downwards;
    a box is its top-left and bottom-right corners, as the imaging library
    takes them. */
module BatteryIcon {

  const LineThickness := 2
  const Radius := 5
  const Margin := 3
  const Spacing := 2
  const Height := 106
  const Width := 50
  const TopInset := 10
  const TopHeight := 10
  const SegmentCount := 5
  const SegmentHeight := 18

  const SegmentX := Margin + LineThickness + Spacing
  const SegmentY := Margin + TopHeight + LineThickness
  /** The right edge of every segment (`segment_width` in the program). */
  const SegmentRight := Margin + Width - LineThickness - Spacing
  /** The bottom edge of the lowest segment. */
  const SegmentMax := SegmentY + (SegmentHeight * SegmentCount) + (Spacing * SegmentCount)

  datatype Rect = Rect(x0: int, y0: int, x1: int, y1: int)

  datatype Corners = Corners(topLeft: bool, topRight: bool, bottomRight: bool, bottomLeft: bool)

  /** Filled in black, or outlined in black with a line width. */
  datatype Paint = Filled | Outlined(lineWidth: int)

  datatype Shape =
    | RoundedRect(box: Rect, radius: int, corners: Corners, paint: Paint)
    | PlainRect(box: Rect, paint: Paint)

  /** The contact tab on top of the casing, rounded on its upper corners. */
  const TopContact: Shape :=
    RoundedRect(Rect(TopInset + Margin, Margin, Margin + Width - TopInset, Margin + TopHeight),
                5, Corners(true, true, false, false), Filled)

  const CasingBox: Rect := Rect(Margin, Margin + TopHeight, Margin + Width, Margin + TopHeight + Height)

  const Casing: Shape :=
    RoundedRect(CasingBox, Radius, Corners(true, true, true, true), Outlined(LineThickness))

  /** The pixels inside the casing's outline. */
  const CasingInterior: Rect :=
    Rect(CasingBox.x0 + LineThickness, CasingBox.y0 + LineThickness,
         CasingBox.x1 - LineThickness, CasingBox.y1 - LineThickness)

  /** The contact tab is a filled 30 by 10 box rounded on its upper corners,
      centred on the casing and resting on it; the casing is a 50 by 106 box
      with all four corners rounded, outlined two pixels wide. */
  lemma IconOutline()
    ensures TopContact == RoundedRect(Rect(13, 3, 43, 13), 5, Corners(true, true, false, false), Filled)
    ensures Casing == RoundedRect(Rect(3, 13, 53, 119), 5, Corners(true, true, true, true), Outlined(2))
    ensures TopContact.box.y1 == Casing.box.y0
    ensures TopContact.box.x0 - Casing.box.x0 == Casing.box.x1 - TopContact.box.x1
  {
  }

  predicate Within(inner: Rect, outer: Rect)
  {
    outer.x0 <= inner.x0 <= inner.x1 <= outer.x1 && outer.y0 <= inner.y0 <= inner.y1 <= outer.y1
  }

  /** The box of segment `i`, counted from the bottom: every segment spans
      the same columns and is `SegmentHeight` tall, and the lowest one ends
      on `SegmentMax`, 115. */
  function SegmentRect(i: nat): (r: Rect)
    ensures r.x0 == 7 && r.x1 == 49
    ensures r.y1 == 115 - 20 * i
    ensures r.y1 - r.y0 == SegmentHeight
  {
    Rect(SegmentX, SegmentMax - (i * Spacing) - ((i + 1) * SegmentHeight),
         SegmentRight, SegmentMax - (i * Spacing) - (i * SegmentHeight))
  }

  /** Segments stack upwards with exactly `Spacing` pixels between
      neighbours, and never overlap. */
  lemma SegmentsStack(i: nat, j: nat)
    ensures SegmentRect(i + 1).y1 + Spacing == SegmentRect(i).y0
    ensures i < j ==> SegmentRect(j).y1 < SegmentRect(i).y0
  {
  }

  /** The first `SegmentCount` segments lie inside the casing's outline and
      below the contact tab. */
  lemma SegmentInsideCasing(i: nat)
    requires i < SegmentCount
    ensures Within(SegmentRect(i), CasingInterior)
    ensures TopContact.box.y1 < SegmentRect(i).y0
  {
  }

  /** The loop condition of the segment loop: `i < draw_segments - 1`, with
      `draw_segments = charge / 100 * segment_count`. */
  predicate Guard(charge: real, i: nat)
    ensures Guard(charge, i) <==> 20.0 * (i as real + 1.0) < charge
  {
    (i as real) < (charge / 100.0) * (SegmentCount as real) - 1.0
  }

  /** How many segments the loop draws for a charge: the condition holds
      exactly for the indices below the result. */
  function DrawnCount(charge: real): (n: nat)
    ensures forall i: nat :: Guard(charge, i) <==> i < n
  {
    var q := (charge / 100.0) * (SegmentCount as real);
    var f := q.Floor;
    var ceiling := if f as real == q then f else f + 1;
    if ceiling <= 1 then 0 else ceiling - 1
  }

  /** The segments drawn for a charge, bottom first: the reference the
      segment loop is held against. */
  function Segments(charge: real): seq<Rect>
  {
    seq(DrawnCount(charge), i requires 0 <= i => SegmentRect(i))
  }

  /** The segment loop as written: one rectangle per pass while the loop
      condition holds. */
  method DrawSegments(charge: real) returns (rects: seq<Rect>)
    ensures |rects| == DrawnCount(charge)
    ensures forall i :: 0 <= i < |rects| ==> rects[i] == SegmentRect(i)
    ensures rects == Segments(charge)
  {
    var drawSegments := (charge / 100.0) * (SegmentCount as real);
    rects := [];
    var i := 0;
    while (i as real) < drawSegments - 1.0
      invariant i == |rects| <= DrawnCount(charge)
      invariant forall k :: 0 <= k < i ==> rects[k] == SegmentRect(k)
      decreases DrawnCount(charge) - i
    {
      assert Guard(charge, i);
      var rectIndex := i + 1;
      rects := rects + [Rect(SegmentX, SegmentMax - (i * Spacing) - (rectIndex * SegmentHeight),
                             SegmentRight, SegmentMax - (i * Spacing) - (i * SegmentHeight))];
      i := i + 1;
    }
    assert !Guard(charge, i);
  }

  /** A higher charge never draws fewer segments. */
  lemma DrawnCountMonotone(a: real, b: real)
    requires a <= b
    ensures DrawnCount(a) <= DrawnCount(b)
  {
  }

  /** Up to 20% no segment is drawn; up to 100% at most four of the five
      are, and above 80% (up to 100%) exactly four: the top segment is never
      drawn for a charge in range. */
  lemma DrawnCountBounds(charge: real)
    ensures charge <= 20.0 ==> DrawnCount(charge) == 0
    ensures charge <= 100.0 ==> DrawnCount(charge) <= SegmentCount - 1
    ensures 80.0 < charge <= 100.0 ==> DrawnCount(charge) == SegmentCount - 1
  {
    if 80.0 < charge <= 100.0 {
      assert Guard(charge, SegmentCount - 2);
    }
  }

  /** For a whole-number charge, segment `i` is drawn exactly when the charge
      exceeds `20 * (i + 1)` percent. */
  lemma DrawnCountWholeCharge(charge: int, i: nat)
    ensures i < DrawnCount(charge as real) <==> 20 * (i + 1) < charge
  {
    assert Guard(charge as real, i) <==> i < DrawnCount(charge as real);
  }

  /** Against the rule "floor(charge / 20) segments": the loop draws one
      fewer exactly when the charge is a positive multiple of 20 percent,
      and the same number otherwise. */
  lemma DrawnCountAgainstFloorRule(charge: real)
    requires 0.0 <= charge
    ensures (charge / 20.0).Floor as real == charge / 20.0 && charge > 0.0 ==>
              DrawnCount(charge) == (charge / 20.0).Floor - 1
    ensures (charge / 20.0).Floor as real != charge / 20.0 ==>
              DrawnCount(charge) == (charge / 20.0).Floor
  {
    assert (charge / 100.0) * (SegmentCount as real) == charge / 20.0;
  }

  /** Every segment drawn for a charge of at most 100% lies inside the
      casing. */
  lemma DrawnSegmentsInsideCasing(charge: real)
    requires charge <= 100.0
    ensures forall i :: 0 <= i < |Segments(charge)| ==> Within(Segments(charge)[i], CasingInterior)
  {
    DrawnCountBounds(charge);
    forall i | 0 <= i < |Segments(charge)|
      ensures Within(Segments(charge)[i], CasingInterior)
    {
      SegmentInsideCasing(i);
    }
  }

  /** The segments drawn at 0, 20, 40, 60, 80 and 100 percent, and at 75
      percent. */
  lemma DrawnCountExamples()
    ensures DrawnCount(0.0) == 0 && DrawnCount(20.0) == 0 && DrawnCount(40.0) == 1
    ensures DrawnCount(60.0) == 2 && DrawnCount(80.0) == 3 && DrawnCount(100.0) == 4
    ensures DrawnCount(75.0) == 3
  {
  }
}
