/** One display update (`update_display`): telemetry in, the shapes and text
    lines of one frame out, or the error that aborts the update. The NUT
    query, the imaging library and the e-paper driver are outside the model;
    the telemetry arrives already fetched and the frame is returned as
    drawing data. */
module Display {
  import opened Wrappers
  import Status
  import Classify
  import Text
  import BatteryIcon

  const TextMargin := 10
  /** The column of every text line, right of the battery icon. */
  const TextOffset := (2 * BatteryIcon.Margin) + BatteryIcon.Width + TextMargin
  const TextSpacing := 4
  const FontSize := 20

  /** The values read from the NUT daemon. `chargeText` and `loadText` are
      the strings as reported; `charge` is the value the charge string
      denotes, as an exact real, and `runtimeSeconds` the whole number of
      seconds the reported runtime denotes. The model takes `chargeText`
      and `charge` as two independent fields and does not tie one to the
      other. */
  datatype Telemetry = Telemetry(
    chargeText: string,
    charge: real,
    runtimeSeconds: int,
    loadText: string,
    statusCode: string)

  datatype TextItem = TextItem(x: int, y: int, text: string)

  /** Which driver call receives the frame: the full refresh or the partial
      one. */
  datatype Refresh = FullRefresh | PartialRefresh

  datatype Frame = Frame(shapes: seq<BatteryIcon.Shape>, texts: seq<TextItem>, refresh: Refresh)

  /** The top edge of text line `k`: the first line at the top, and each
      further line one font height plus the spacing below the one above. */
  function RowY(k: nat): (y: int)
    ensures y == 24 * k
    ensures k > 0 ==> y == RowY(k - 1) + FontSize + TextSpacing
  {
    (k * FontSize) + (k * TextSpacing)
  }

  /** The text lines go strictly downwards, in one column right of the
      casing. */
  lemma TextRows(k: nat)
    ensures RowY(k) < RowY(k + 1)
    ensures TextOffset == 66 && BatteryIcon.CasingBox.x1 < TextOffset
  {
  }

  function SegmentShape(r: BatteryIcon.Rect): BatteryIcon.Shape
  {
    BatteryIcon.PlainRect(r, BatteryIcon.Filled)
  }

  /** One filled rectangle per segment box, in order. */
  function SegmentShapes(rects: seq<BatteryIcon.Rect>): (shapes: seq<BatteryIcon.Shape>)
    ensures |shapes| == |rects|
    ensures forall i :: 0 <= i < |rects| ==> shapes[i] == SegmentShape(rects[i])
  {
    if |rects| == 0 then [] else [SegmentShape(rects[0])] + SegmentShapes(rects[1..])
  }

  /** The text lines placed one below the other in the text column: line
      `k` keeps its text and sits at x = 66, y = 24k. */
  function PlaceLines(ls: seq<string>): (items: seq<TextItem>)
    ensures |items| == |ls|
    ensures forall k :: 0 <= k < |ls| ==> items[k] == TextItem(66, 24 * k, ls[k])
  {
    seq(|ls|, k requires 0 <= k < |ls| => TextItem(TextOffset, RowY(k), ls[k]))
  }

  /** The shapes of the battery icon: the contact tab, the casing, then
      one filled rectangle per drawn segment, bottom first. */
  function IconShapes(charge: real): (shapes: seq<BatteryIcon.Shape>)
    ensures |shapes| == 2 + BatteryIcon.DrawnCount(charge)
    ensures shapes[0] == BatteryIcon.TopContact && shapes[1] == BatteryIcon.Casing
    ensures forall i :: 2 <= i < |shapes| ==> shapes[i] == SegmentShape(BatteryIcon.SegmentRect(i - 2))
  {
    [BatteryIcon.TopContact, BatteryIcon.Casing] + SegmentShapes(BatteryIcon.Segments(charge))
  }

  /** The five text lines for the facets of a recognised status. */
  function Lines(t: Telemetry, f: Classify.Facets, uptimeText: string): seq<string>
  {
    [Text.StatusText(f.online, f.other),
     Text.BatteryText(t.chargeText, f.charge),
     Text.RemainingText(t.runtimeSeconds),
     "Load: " + t.loadText + "W",
     "Up: " + uptimeText]
  }

  /** Line by line, what `Lines` holds for the facets of a member. */
  lemma LinesOfStatus(t: Telemetry, s: Status.UpsStatus, uptimeText: string)
    ensures var ls := Lines(t, Classify.Classify(s), uptimeText);
            && |ls| == 5
            && ls[0] == Text.StatusText(Classify.OnlineStatusOf(s), Classify.OtherStatusOf(s))
            && ls[1] == Text.BatteryText(t.chargeText, Classify.ChargeStatusOf(s))
            && ls[2] == Text.RemainingText(t.runtimeSeconds)
            && ls[3] == "Load: " + t.loadText + "W"
            && ls[4] == "Up: " + uptimeText
  {
    var f := Classify.Classify(s);
    assert f == Classify.Facets(Classify.OnlineStatusOf(s), Classify.ChargeStatusOf(s), Classify.OtherStatusOf(s));
  }

  /** The frame one update draws, or `ValueError` when the status string is
      not one the enum knows: the update is not fail-open. */
  function Render(t: Telemetry, uptimeText: string, full: bool): (r: Result<Frame, Status.Error>)
    ensures r.Failure? <==> forall s: Status.UpsStatus :: Status.Value(s) != t.statusCode
    ensures r.Failure? ==> r.error == Status.ValueError(t.statusCode)
    ensures r.Success? ==>
      && |r.value.shapes| == 2 + BatteryIcon.DrawnCount(t.charge)
      && |r.value.texts| == 5
      && (r.value.refresh == FullRefresh <==> full)
  {
    match Status.Parse(t.statusCode)
    case Failure(e) => Failure(e)
    case Success(s) =>
      Success(Frame(IconShapes(t.charge), PlaceLines(Lines(t, Classify.Classify(s), uptimeText)),
                    if full then FullRefresh else PartialRefresh))
  }

  /** A status string that is some member's value renders; the frame draws
      the battery icon for the charge and places its lines 24 pixels apart
      in the text column. */
  lemma RenderedShapes(t: Telemetry, s: Status.UpsStatus, uptimeText: string, full: bool)
    requires Status.Value(s) == t.statusCode
    ensures Render(t, uptimeText, full).Success?
    ensures var frame := Render(t, uptimeText, full).value;
            && frame.shapes[0] == BatteryIcon.TopContact
            && frame.shapes[1] == BatteryIcon.Casing
            && (forall i :: 2 <= i < |frame.shapes| ==>
                  frame.shapes[i] == SegmentShape(BatteryIcon.SegmentRect(i - 2)))
            && (forall k :: 0 <= k < 5 ==> frame.texts[k].x == TextOffset && frame.texts[k].y == 24 * k)
  {
    Status.ParseValue(s);
    var ls := Lines(t, Classify.Classify(s), uptimeText);
    assert |ls| == 5;
    assert Render(t, uptimeText, full).value.shapes == IconShapes(t.charge);
    assert Render(t, uptimeText, full).value.texts == PlaceLines(ls);
  }

  /** The lines of the frame rendered for member `s`'s status string say
      what that string means: the status line names the online and other
      facets of `s`, the battery line its charge facet, the remaining line
      the rounded runtime. */
  lemma RenderedLines(t: Telemetry, s: Status.UpsStatus, uptimeText: string, full: bool)
    requires Status.Value(s) == t.statusCode
    ensures Render(t, uptimeText, full).Success?
    ensures var texts := Render(t, uptimeText, full).value.texts;
            && texts[0].text == Text.StatusText(Classify.OnlineStatusOf(s), Classify.OtherStatusOf(s))
            && texts[1].text == Text.BatteryText(t.chargeText, Classify.ChargeStatusOf(s))
            && texts[2].text == Text.RemainingText(t.runtimeSeconds)
            && texts[3].text == "Load: " + t.loadText + "W"
            && texts[4].text == "Up: " + uptimeText
  {
    Status.ParseValue(s);
    LinesOfStatus(t, s, uptimeText);
    assert Render(t, uptimeText, full).value.texts == PlaceLines(Lines(t, Classify.Classify(s), uptimeText));
  }

  /** `update_display` step by step: draw the tab and the casing, run the
      segment loop, then convert the status string, which raises before the
      text is drawn when the string is unknown. */
  method UpdateDisplay(t: Telemetry, uptimeText: string, full: bool) returns (r: Result<Frame, Status.Error>)
    ensures r == Render(t, uptimeText, full)
  {
    var rects := BatteryIcon.DrawSegments(t.charge);
    assert rects == BatteryIcon.Segments(t.charge);
    var shapes := [BatteryIcon.TopContact, BatteryIcon.Casing] + SegmentShapes(rects);
    assert shapes == IconShapes(t.charge);
    var parsed := Status.Parse(t.statusCode);
    if parsed.Failure? {
      return Failure(parsed.error);
    }
    var texts := PlaceLines(Lines(t, Classify.Classify(parsed.value), uptimeText));
    r := Success(Frame(shapes, texts, if full then FullRefresh else PartialRefresh));
  }

  /** A load of "120" reads "Load: 120W". */
  lemma LoadTextExample(load: string)
    requires load == "120"
    ensures "Load: " + load + "W" == "Load: 120W"
  {
  }

  /** A UPS on line power at 75% with half an hour of runtime: "Online",
      "75%", "Remaining: 30 mins", "Load: 120W", and three segments. */
  lemma ExampleOnline(t: Telemetry, uptimeText: string)
    requires t == Telemetry("75", 75.0, 1800, "120", "OL")
    ensures Render(t, uptimeText, false).Success?
    ensures Render(t, uptimeText, false).value.texts[0].text == "Online"
    ensures Render(t, uptimeText, false).value.texts[1].text == "75%"
    ensures Render(t, uptimeText, false).value.texts[2].text == "Remaining: 30 mins"
    ensures Render(t, uptimeText, false).value.texts[3].text == "Load: 120W"
    ensures |Render(t, uptimeText, false).value.shapes| == 2 + 3
  {
    var s := Status.Online;
    assert t.statusCode == Status.Value(s);
    RenderedLines(t, s, uptimeText, false);
    var texts := Render(t, uptimeText, false).value.texts;
    assert texts[0].text == "Online" by {
      Classify.OnlineTable(s);
      Classify.OtherTable(s);
      Text.StatusTextExample();
    }
    assert texts[1].text == "75%" by {
      Classify.ChargeTable(s);
      Text.BatteryTextExample();
    }
    assert texts[2].text == "Remaining: 30 mins" by {
      Text.RemainingTextExample();
    }
    LoadTextExample(t.loadText);
    BatteryIcon.DrawnCountExamples();
  }

  /** A status string the enum does not know aborts the update. */
  lemma ExampleUnknownCode(t: Telemetry)
    requires t.statusCode == "WEIRD"
    ensures Render(t, "", true) == Failure(Status.ValueError("WEIRD"))
  {
    forall s: Status.UpsStatus ensures Status.Value(s) != t.statusCode {
      Status.ValueFirstChar(s);
    }
  }
}
