// components/Company_Chart.tsx: the 110-trading-day window and the
// colouring of the close line into rising-or-flat ("red") and falling
// ("blue") runs.

module CompanyChart {
  import opened Common
  import Seqs

  /** One row of the `/combined` response. */
  datatype ChartItem = ChartItem(
    date: string, open: int, high: int, low: int, close: int,
    ma5: Option<int>, ma20: Option<int>, ma60: Option<int>, ma120: Option<int>)

  const WindowSize: nat := 110

  /** `data.length > 110 ? data.slice(-110) : data`. */
  function Last110(data: seq<ChartItem>): (r: seq<ChartItem>)
    ensures |r| == Min(|data|, WindowSize)
    ensures forall k :: 0 <= k < |r| ==> r[k] == data[|data| - |r| + k]
  {
    Seqs.TakeLast(data, WindowSize)
  }

  function Dates(items: seq<ChartItem>): (r: seq<string>)
    ensures |r| == |items| && forall k :: 0 <= k < |items| ==> r[k] == items[k].date
  {
    seq(|items|, k requires 0 <= k < |items| => items[k].date)
  }

  function Closes(items: seq<ChartItem>): (r: seq<int>)
    ensures |r| == |items| && forall k :: 0 <= k < |items| ==> r[k] == items[k].close
  {
    seq(|items|, k requires 0 <= k < |items| => items[k].close)
  }

  datatype Color = Red | Blue {
    function Name(): string
    {
      match this
      case Red => "red"
      case Blue => "blue"
    }
  }

  /** The colour of the step into point `i`: red when the close did not fall. */
  function StepColor(close: seq<int>, i: int): Color
    requires 1 <= i < |close|
  {
    if close[i] >= close[i - 1] then Red else Blue
  }

  /** A `LineSegment`: parallel date and close lists with one colour. */
  datatype Segment = Segment(x: seq<string>, y: seq<int>, color: Color)

  /** Every step inside `y` has colour `c`. */
  predicate Monotone(y: seq<int>, c: Color)
  {
    forall j :: 1 <= j < |y| ==> (if c == Red then y[j] >= y[j - 1] else y[j] < y[j - 1])
  }

  /** A finished segment: at least two points, lists of equal length,
      every step of its own colour. */
  predicate WellFormed(s: Segment)
  {
    |s.x| == |s.y| >= 2 && Monotone(s.y, s.color)
  }

  /** `b` follows `a`: the colour changes and `b` starts at `a`'s last point. */
  predicate Follows(a: Segment, b: Segment)
  {
    a.color != b.color
    && |a.x| >= 1 && |a.y| >= 1 && |b.x| >= 1 && |b.y| >= 1
    && b.x[0] == a.x[|a.x| - 1] && b.y[0] == a.y[|a.y| - 1]
  }

  function DropFirst<T>(s: seq<T>): seq<T>
  {
    if s == [] then [] else s[1..]
  }

  /** The segments' dates joined back together, each later segment's
      shared first point dropped. */
  function GlueX(segs: seq<Segment>): seq<string>
  {
    if |segs| == 0 then []
    else if |segs| == 1 then segs[0].x
    else GlueX(segs[..|segs| - 1]) + DropFirst(segs[|segs| - 1].x)
  }

  /** The segments' closes joined back together in the same way. */
  function GlueY(segs: seq<Segment>): seq<int>
  {
    if |segs| == 0 then []
    else if |segs| == 1 then segs[0].y
    else GlueY(segs[..|segs| - 1]) + DropFirst(segs[|segs| - 1].y)
  }

  /** Extending the open segment by one point extends the joined series by that point. */
  lemma GlueExtend(done: seq<Segment>, x: seq<string>, y: seq<int>, c: Color, d: string, v: int)
    requires |x| >= 1 && |y| >= 1
    ensures GlueX(done + [Segment(x + [d], y + [v], c)]) == GlueX(done + [Segment(x, y, c)]) + [d]
    ensures GlueY(done + [Segment(x + [d], y + [v], c)]) == GlueY(done + [Segment(x, y, c)]) + [v]
  {
    var a := done + [Segment(x + [d], y + [v], c)];
    var b := done + [Segment(x, y, c)];
    assert a[..|a| - 1] == done && b[..|b| - 1] == done;
    assert (x + [d])[1..] == x[1..] + [d];
    assert (y + [v])[1..] == y[1..] + [v];
  }

  /** `GlueExtend` read against the input series: one more point of the
      open segment covers one more input point. */
  lemma GlueExtendAt(date: seq<string>, close: seq<int>, i: int, segs: seq<Segment>, cur: Segment)
    requires 0 <= i < |date| && i < |close| && |cur.x| >= 1 && |cur.y| >= 1
    requires GlueX(segs + [cur]) == date[..i] && GlueY(segs + [cur]) == close[..i]
    ensures GlueX(segs + [Segment(cur.x + [date[i]], cur.y + [close[i]], cur.color)]) == date[..i + 1]
    ensures GlueY(segs + [Segment(cur.x + [date[i]], cur.y + [close[i]], cur.color)]) == close[..i + 1]
  {
    GlueExtend(segs, cur.x, cur.y, cur.color, date[i], close[i]);
    assert date[..i + 1] == date[..i] + [date[i]];
    assert close[..i + 1] == close[..i] + [close[i]];
  }

  /** Starting a new two-point segment extends the joined series by its second point. */
  lemma GlueStart(done: seq<Segment>, s: Segment, d0: string, d1: string, v0: int, v1: int, c: Color)
    ensures GlueX(done + [s] + [Segment([d0, d1], [v0, v1], c)]) == GlueX(done + [s]) + [d1]
    ensures GlueY(done + [s] + [Segment([d0, d1], [v0, v1], c)]) == GlueY(done + [s]) + [v1]
  {
    var a := done + [s] + [Segment([d0, d1], [v0, v1], c)];
    assert a[..|a| - 1] == done + [s];
  }

  /** Finished segments are well formed and each follows the one before,
      and the open segment follows the last finished one. */
  ghost predicate Chained(segs: seq<Segment>, cur: Segment)
  {
    && (forall k :: 0 <= k < |segs| ==> WellFormed(segs[k]))
    && (forall k :: 0 <= k < |segs| - 1 ==> Follows(segs[k], segs[k + 1]))
    && (segs != [] ==> Follows(segs[|segs| - 1], cur))
  }

  /** What the builder loop keeps true after handling the points before
      `i`: `segs` are the finished segments and `cur` the open one. */
  ghost predicate Building(date: seq<string>, close: seq<int>, i: int, segs: seq<Segment>, cur: Segment)
  {
    && |date| == |close|
    && 1 <= i <= |close|
    && |cur.x| == |cur.y| >= 1
    && (i == 1 ==> segs == [] && |cur.y| == 1)
    && (i >= 2 ==> |cur.y| >= 2)
    && cur.x[|cur.x| - 1] == date[i - 1] && cur.y[|cur.y| - 1] == close[i - 1]
    && Monotone(cur.y, cur.color)
    && (|close| >= 2 ==> (if segs == [] then cur.color else segs[0].color) == StepColor(close, 1))
    && Chained(segs, cur)
    && Glued(segs + [cur]) == (date[..i], close[..i])
  }

  ghost function Glued(all: seq<Segment>): (seq<string>, seq<int>)
  {
    (GlueX(all), GlueY(all))
  }

  /** A step of colour `c` onto a run of colour `c` keeps it a run. */
  lemma MonotoneAppend(y: seq<int>, c: Color, v: int)
    requires |y| >= 1 && Monotone(y, c)
    requires c == (if v >= y[|y| - 1] then Red else Blue)
    ensures Monotone(y + [v], c)
  {
    var y' := y + [v];
    forall j | 1 <= j < |y'|
      ensures if c == Red then y'[j] >= y'[j - 1] else y'[j] < y'[j - 1]
    {
      if j < |y| {
        assert y'[j] == y[j] && y'[j - 1] == y[j - 1];
      }
    }
  }

  /** Growing the open segment at its end keeps the chain. */
  lemma ChainedGrow(segs: seq<Segment>, cur: Segment, next: Segment)
    requires Chained(segs, cur)
    requires next.color == cur.color && |next.x| >= 1 && |next.y| >= 1 && |cur.x| >= 1 && |cur.y| >= 1
    requires next.x[0] == cur.x[0] && next.y[0] == cur.y[0]
    ensures Chained(segs, next)
  {
  }

  /** A step of the open segment's colour extends it by the point. */
  lemma ExtendStep(date: seq<string>, close: seq<int>, i: int, segs: seq<Segment>, cur: Segment)
    requires Building(date, close, i, segs, cur) && i < |close|
    requires StepColor(close, i) == cur.color
    ensures Building(date, close, i + 1, segs, Segment(cur.x + [date[i]], cur.y + [close[i]], cur.color))
  {
    var next := Segment(cur.x + [date[i]], cur.y + [close[i]], cur.color);
    GlueExtendAt(date, close, i, segs, cur);
    ChainedGrow(segs, cur, next);
    MonotoneAppend(cur.y, cur.color, close[i]);
  }

  /** A step of the other colour closes the open segment and opens
      `[point i-1, point i]` in the new colour. */
  lemma SplitStep(date: seq<string>, close: seq<int>, i: int, segs: seq<Segment>, cur: Segment)
    requires Building(date, close, i, segs, cur) && i < |close|
    requires StepColor(close, i) != cur.color
    ensures Building(date, close, i + 1, segs + [cur],
      Segment([date[i - 1], date[i]], [close[i - 1], close[i]], StepColor(close, i)))
  {
    GlueStart(segs, cur, date[i - 1], date[i], close[i - 1], close[i], StepColor(close, i));
    assert date[..i + 1] == date[..i] + [date[i]];
    assert close[..i + 1] == close[..i] + [close[i]];
    var segs' := segs + [cur];
    assert forall k :: 0 <= k < |segs| ==> segs'[k] == segs[k];
  }

  /** The loop starts with the first point as the open segment. */
  lemma StartBuilding(date: seq<string>, close: seq<int>)
    requires |date| == |close| >= 2
    ensures Building(date, close, 1, [], Segment([date[0]], [close[0]], StepColor(close, 1)))
  {
    assert date[..1] == [date[0]] && close[..1] == [close[0]];
  }

  /** When every point is handled, closing the open segment gives a
      segmentation of the whole series. */
  lemma FinishBuilding(date: seq<string>, close: seq<int>, segs: seq<Segment>, cur: Segment)
    requires Building(date, close, |close|, segs, cur) && |close| >= 2
    ensures var all := segs + [cur];
      && all[0].color == StepColor(close, 1)
      && (forall k :: 0 <= k < |all| ==> WellFormed(all[k]))
      && (forall k :: 0 <= k < |all| - 1 ==> Follows(all[k], all[k + 1]))
      && GlueX(all) == date && GlueY(all) == close
  {
    var all := segs + [cur];
    assert date[..|close|] == date && close[..|close|] == close;
    assert forall k :: 0 <= k < |segs| ==> all[k] == segs[k];
  }

  /** One pass of the `closeSegments` loop body at point `i`: a step of
      the open segment's colour extends it, another colour closes it and
      opens `[point i-1, point i]`. */
  method Step(date: seq<string>, close: seq<int>, i: int, segs: seq<Segment>, cur: Segment)
    returns (segs': seq<Segment>, cur': Segment)
    requires Building(date, close, i, segs, cur) && i < |close|
    ensures Building(date, close, i + 1, segs', cur')
    ensures StepColor(close, i) == cur.color ==>
      segs' == segs && cur' == Segment(cur.x + [date[i]], cur.y + [close[i]], cur.color)
    ensures StepColor(close, i) != cur.color ==>
      segs' == segs + [cur] && cur' == Segment([date[i - 1], date[i]], [close[i - 1], close[i]], StepColor(close, i))
  {
    var nowColor := StepColor(close, i);
    if nowColor == cur.color {
      ExtendStep(date, close, i, segs, cur);
      segs', cur' := segs, Segment(cur.x + [date[i]], cur.y + [close[i]], cur.color);
    } else {
      SplitStep(date, close, i, segs, cur);
      segs', cur' := segs + [cur], Segment([date[i - 1], date[i]], [close[i - 1], close[i]], nowColor);
    }
  }

  /** The `closeSegments` builder loop, over the `date` and `close`
      columns of the windowed rows (two maps of one array, hence of equal
      length). `cur` is the open segment, the source's `segX`, `segY` and
      `prevColor`. */
  method SegmentCloses(date: seq<string>, close: seq<int>) returns (segs: seq<Segment>)
    requires |date| == |close|
    ensures |close| <= 1 ==> segs == []
    ensures |close| >= 2 ==> (segs != [] && (segs[0].color == Red <==> close[1] >= close[0]))
    ensures forall k :: 0 <= k < |segs| ==> WellFormed(segs[k])
    ensures forall k :: 0 <= k < |segs| - 1 ==> Follows(segs[k], segs[k + 1])
    ensures |close| >= 2 ==> GlueX(segs) == date && GlueY(segs) == close
  {
    segs := [];
    if |close| > 1 {
      var cur := Segment([date[0]], [close[0]], StepColor(close, 1));
      StartBuilding(date, close);
      var i := 1;
      while i < |close|
        invariant 1 <= i <= |close|
        invariant Building(date, close, i, segs, cur)
      {
        segs, cur := Step(date, close, i, segs, cur);
        i := i + 1;
      }
      FinishBuilding(date, close, segs, cur);
      segs := segs + [cur];
    }
  }

  /** The chart's close segments for the rows it shows. */
  method BuildCloseSegments(data: seq<ChartItem>) returns (segs: seq<Segment>)
    ensures |Last110(data)| <= 1 ==> segs == []
    ensures forall k :: 0 <= k < |segs| ==> WellFormed(segs[k])
    ensures forall k :: 0 <= k < |segs| - 1 ==> Follows(segs[k], segs[k + 1])
    ensures |Last110(data)| >= 2 ==>
      GlueX(segs) == Dates(Last110(data)) && GlueY(segs) == Closes(Last110(data))
  {
    var shown := Last110(data);
    segs := SegmentCloses(Dates(shown), Closes(shown));
  }

  /** One Plotly scatter trace of the close line. */
  datatype Trace = Trace(x: seq<string>, y: seq<int>, color: string, name: Option<string>, showLegend: bool)

  /** The `closeSegments.map` into traces: only the first carries the
      legend entry "종가". */
  function Traces(segs: seq<Segment>): (r: seq<Trace>)
    ensures |r| == |segs|
    ensures forall k :: 0 <= k < |r| ==>
      (r[k].x == segs[k].x && r[k].y == segs[k].y && r[k].color == segs[k].color.Name())
    ensures forall k :: 0 <= k < |r| ==>
      ((r[k].showLegend <==> k == 0) && (r[k].name.Some? <==> k == 0))
    ensures |r| > 0 ==> r[0].name == Some("종가")
  {
    seq(|segs|, k requires 0 <= k < |segs| =>
      Trace(segs[k].x, segs[k].y, segs[k].color.Name(), if k == 0 then Some("종가") else None, k == 0))
  }
}
