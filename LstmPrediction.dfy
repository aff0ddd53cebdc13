// components/predict/LSTMPredictionModal.tsx: the CSV the download
// button writes, the sample data generated when the prediction request
// fails, and the clamped "tomorrow confidence" figure.

module LstmPrediction {
  import opened Common

  datatype PricePoint = PricePoint(date: string, price: int)
  datatype Interval = Interval(date: string, lower: int, upper: int)
  datatype Metrics = Metrics(mse: real, mae: real, accuracy: real)

  /** `LSTMPredictionData`. */
  datatype Prediction = Prediction(
    historical: seq<PricePoint>, predicted: seq<PricePoint>,
    confidence: seq<Interval>, metrics: Metrics)

  /** What the download anchor receives. */
  datatype CsvFile = CsvFile(name: string, mime: string, content: string)

  const CsvHeader: string := "Date,Predicted Price"

  /** The text a string has no line break in. */
  predicate OneLine(s: string)
  {
    '\n' !in s
  }

  /** `${item.date},${item.price}`; `render` is how the number is printed. */
  function Row(p: PricePoint, render: int -> string): string
  {
    p.date + "," + render(p.price)
  }

  function Rows(points: seq<PricePoint>, render: int -> string): (r: seq<string>)
    ensures |r| == |points|
    ensures forall k :: 0 <= k < |points| ==> r[k] == Row(points[k], render)
  {
    seq(|points|, k requires 0 <= k < |points| => Row(points[k], render))
  }

  /** `Array.prototype.join("\n")`. */
  function Join(lines: seq<string>): string
  {
    if |lines| == 0 then []
    else if |lines| == 1 then lines[0]
    else lines[0] + "\n" + Join(lines[1..])
  }

  /** `String.prototype.split("\n")`: the pieces between line breaks; the
      empty string is one empty piece. */
  function Split(s: string): (r: seq<string>)
    ensures |r| >= 1
    decreases |s|
  {
    if s == [] then [[]]
    else if s[0] == '\n' then [[]] + Split(s[1..])
    else
      var t := Split(s[1..]);
      [[s[0]] + t[0]] + t[1..]
  }

  /** `Date,Predicted Price\n${csvData}`. */
  function CsvText(points: seq<PricePoint>, render: int -> string): string
  {
    CsvHeader + "\n" + Join(Rows(points, render))
  }

  /** `handleDownload`: nothing without prediction data; otherwise the
      CSV of the predicted points under `<code>_lstm_prediction.csv`. */
  function Download(data: Option<Prediction>, code: string, render: int -> string): (r: Option<CsvFile>)
    ensures data.None? <==> r.None?
    ensures r.Some? ==> r.value.name == code + "_lstm_prediction.csv" && r.value.mime == "text/csv"
    ensures r.Some? ==> r.value.content == CsvText(data.value.predicted, render)
    ensures r.Some? ==> Split(r.value.content)[0] == CsvHeader
  {
    match data
    case None => None
    case Some(d) =>
      var text := CsvText(d.predicted, render);
      SplitLineBreak(CsvHeader, Join(Rows(d.predicted, render)));
      Some(CsvFile(code + "_lstm_prediction.csv", "text/csv", text))
  }

  lemma {:induction false} SplitOneLine(a: string)
    requires OneLine(a)
    ensures Split(a) == [a]
    decreases |a|
  {
    if a != [] {
      SplitOneLine(a[1..]);
      assert [a[0]] + a[1..] == a;
    }
  }

  /** A line break ends the first piece. */
  lemma {:induction false} SplitLineBreak(a: string, b: string)
    requires OneLine(a)
    ensures Split(a + "\n" + b) == [a] + Split(b)
    decreases |a|
  {
    if a == [] {
      assert (a + "\n" + b)[1..] == b;
    } else {
      var s := a + "\n" + b;
      assert s[1..] == a[1..] + "\n" + b;
      SplitLineBreak(a[1..], b);
      assert [a[0]] + a[1..] == a;
    }
  }

  /** Joining one-line pieces with line breaks and splitting again gives
      the pieces back. */
  lemma {:induction false} SplitJoin(lines: seq<string>)
    requires |lines| >= 1
    requires forall k :: 0 <= k < |lines| ==> OneLine(lines[k])
    ensures Split(Join(lines)) == lines
  {
    if |lines| == 1 {
      SplitOneLine(lines[0]);
    } else {
      SplitJoin(lines[1..]);
      SplitLineBreak(lines[0], Join(lines[1..]));
      assert [lines[0]] + lines[1..] == lines;
    }
  }

  /** The file's lines are the header and then one `date,price` row per
      predicted point, in order, with no trailing line break; with no
      points it is the header and a single line break. */
  lemma CsvLines(points: seq<PricePoint>, render: int -> string)
    requires forall k :: 0 <= k < |points| ==> OneLine(points[k].date) && OneLine(render(points[k].price))
    ensures points == [] ==> CsvText(points, render) == CsvHeader + "\n"
    ensures points != [] ==> Split(CsvText(points, render)) == [CsvHeader] + Rows(points, render)
  {
    var rows := Rows(points, render);
    SplitLineBreak(CsvHeader, Join(rows));
    if points != [] {
      forall k | 0 <= k < |rows| ensures OneLine(rows[k]) {
        var p := points[k];
        assert rows[k] == p.date + "," + render(p.price);
        assert OneLine(p.date) && OneLine(render(p.price));
      }
      SplitJoin(rows);
    }
  }

  /** The UTF-16 code units `split("")` and `charCodeAt` see for one
      character, summed: a character outside the Basic Multilingual Plane
      is a surrogate pair. */
  function CodeUnitSum(c: char): (r: nat)
    ensures (c as int) < 0x1_0000 ==> r == c as int
  {
    if (c as int) < 0x1_0000 then c as int
    else
      var v := c as int - 0x1_0000;
      (0xD800 + v / 0x400) + (0xDC00 + v % 0x400)
  }

  /** `stockCode.split("").reduce((a, b) => a + b.charCodeAt(0), 0)`. */
  function Seed(code: string): nat
  {
    if code == [] then 0 else Seed(code[..|code| - 1]) + CodeUnitSum(code[|code| - 1])
  }

  /** The seed is a sum over the characters: it adds up over concatenation. */
  lemma {:induction false} SeedConcat(a: string, b: string)
    ensures Seed(a + b) == Seed(a) + Seed(b)
    decreases |b|
  {
    if b != [] {
      var b' := b[..|b| - 1];
      SeedConcat(a, b');
      assert (a + b)[..|a + b| - 1] == a + b';
      assert (a + b)[|a + b| - 1] == b[|b| - 1];
      assert b[..|b| - 1] == b';
    } else {
      assert a + b == a;
    }
  }

  /** `50000 + (seed % 100000)`. */
  function BasePrice(code: string): (r: int)
    ensures 50000 <= r <= 149999
    ensures r - 50000 == Seed(code) % 100000
  {
    50000 + Seed(code) % 100000
  }

  /** `Math.round`: the nearest integer, halves rounded up. */
  function Round(x: real): (r: int)
    ensures r as real <= x + 0.5 < r as real + 1.0
  {
    (x + 0.5).Floor
  }

  lemma RoundMonotone(x: real, y: real)
    requires x <= y
    ensures Round(x) <= Round(y)
  {
  }

  /** The running price after the first `n` historical steps
      (i = 60, 59, …): each multiplies it by that step's factor. */
  function HistPrice(base: real, factor: int -> real, n: nat): real
  {
    if n == 0 then base else HistPrice(base, factor, n - 1) * factor(60 - (n - 1))
  }

  /** The running price after the first `n` predicted steps (i = 1, 2, …). */
  function PredPrice(start: real, factor: int -> real, n: nat): real
  {
    if n == 0 then start else PredPrice(start, factor, n - 1) * factor(n)
  }

  lemma PositiveProduct(a: real, b: real)
    requires a > 0.0 && b > 0.0
    ensures a * b > 0.0
  {
  }

  /** `generateSampleLSTMData`. `histFactor(i)` is `1 + noise` of
      historical step i, `predFactor(i)` is `1 + trend + noise` of
      predicted step i, `dateAt(d)` is the ISO date `d` days from today,
      and `metrics` the three random figures. Both factors are positive,
      as `1 ± 0.04` and `1 ± 0.0125` are. */
  method GenerateSample(code: string, histFactor: int -> real, predFactor: int -> real,
                        dateAt: int -> string, metrics: Metrics) returns (data: Prediction)
    requires forall i :: histFactor(i) > 0.0
    requires forall i :: predFactor(i) > 0.0
    ensures |data.historical| == 61 && |data.predicted| == 30 && |data.confidence| == 30
    ensures forall k :: 0 <= k < 61 ==>
      data.historical[k].date == dateAt(-(60 - k))
      && data.historical[k].price == Round(HistPrice(BasePrice(code) as real, histFactor, k + 1))
    ensures forall k :: 0 <= k < 30 ==>
      data.predicted[k].date == dateAt(k + 1) && data.confidence[k].date == dateAt(k + 1)
      && data.predicted[k].price
         == Round(PredPrice(HistPrice(BasePrice(code) as real, histFactor, 61), predFactor, k + 1))
    ensures forall k :: 0 <= k < 30 ==>
      0 <= data.confidence[k].lower <= data.predicted[k].price <= data.confidence[k].upper
    ensures data.metrics == metrics
  {
    var base := BasePrice(code) as real;
    var historical: seq<PricePoint> := [];
    var currentPrice := base;
    var i := 60;
    while i >= 0
      invariant -1 <= i <= 60
      invariant |historical| == 60 - i
      invariant currentPrice == HistPrice(base, histFactor, 60 - i) && currentPrice > 0.0
      invariant forall k :: 0 <= k < |historical| ==>
        historical[k].date == dateAt(-(60 - k))
        && historical[k].price == Round(HistPrice(base, histFactor, k + 1))
    {
      PositiveProduct(currentPrice, histFactor(i));
      currentPrice := currentPrice * histFactor(i);
      historical := historical + [PricePoint(dateAt(-i), Round(currentPrice))];
      i := i - 1;
    }
    var start := currentPrice;
    var predicted: seq<PricePoint> := [];
    var intervals: seq<Interval> := [];
    var j := 1;
    while j <= 30
      invariant 1 <= j <= 31
      invariant |predicted| == j - 1 && |intervals| == j - 1
      invariant currentPrice == PredPrice(start, predFactor, j - 1) && currentPrice > 0.0
      invariant forall k :: 0 <= k < |predicted| ==>
        predicted[k].date == dateAt(k + 1) && intervals[k].date == dateAt(k + 1)
        && predicted[k].price == Round(PredPrice(start, predFactor, k + 1))
      invariant forall k :: 0 <= k < |predicted| ==>
        0 <= intervals[k].lower <= predicted[k].price <= intervals[k].upper
    {
      PositiveProduct(currentPrice, predFactor(j));
      currentPrice := currentPrice * predFactor(j);
      var confidence := currentPrice * 0.05;
      RoundMonotone(0.0, currentPrice - confidence);
      RoundMonotone(currentPrice - confidence, currentPrice);
      RoundMonotone(currentPrice, currentPrice + confidence);
      predicted := predicted + [PricePoint(dateAt(j), Round(currentPrice))];
      intervals := intervals + [Interval(dateAt(j), Round(currentPrice - confidence), Round(currentPrice + confidence))];
      j := j + 1;
    }
    data := Prediction(historical, predicted, intervals, metrics);
  }

  /** `Math.min(95, Math.max(60, accuracy * 100 + random * 10))`. */
  function TomorrowConfidence(accuracy: real, random: real): (r: real)
    ensures 60.0 <= r <= 95.0
    ensures 60.0 <= accuracy * 100.0 + random * 10.0 <= 95.0 ==> r == accuracy * 100.0 + random * 10.0
    ensures accuracy * 100.0 + random * 10.0 < 60.0 ==> r == 60.0
    ensures accuracy * 100.0 + random * 10.0 > 95.0 ==> r == 95.0
  {
    var raw := accuracy * 100.0 + random * 10.0;
    var lifted := if raw >= 60.0 then raw else 60.0;
    if lifted <= 95.0 then lifted else 95.0
  }
}
