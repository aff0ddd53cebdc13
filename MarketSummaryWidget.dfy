// components/MarketSummaryWidget.tsx: the colour of a change value by its
// sign, the chart colour by sign and then by market key, the colour of the
// selected market, and the four index buttons.

module MarketSummaryWidget {
  import opened Common
  import Strs

  /** One entry of `/api/market-summary` as the widget reads it. */
  datatype MarketSummary = MarketSummary(key: string, name: string, value: string, changeValue: string, changeRate: string)

  datatype IndexEntry = IndexEntry(key: string, caption: string)

  /** `INDEXES`: the buttons, in display order. */
  const Indexes: seq<IndexEntry> := [
    IndexEntry("kospi", "코스피"),
    IndexEntry("kosdaq", "코스닥"),
    IndexEntry("nasdaq", "나스닥"),
    IndexEntry("sp500", "S&P500")
  ]

  const Gray: string := "#a3a3a3"

  /** `getColor`: the sign of the trimmed change value picks the text colour. */
  function GetColor(changeValue: string): (r: string)
    ensures r == "text-red-500" <==> Strs.StartsWith(Strs.Trim(changeValue), "+")
    ensures r == "text-blue-500" <==> Strs.StartsWith(Strs.Trim(changeValue), "-")
    ensures r == "text-gray-800" <==>
      !Strs.StartsWith(Strs.Trim(changeValue), "+") && !Strs.StartsWith(Strs.Trim(changeValue), "-")
  {
    var v := Strs.Trim(changeValue);
    if Strs.StartsWith(v, "+") then "text-red-500"
    else if Strs.StartsWith(v, "-") then "text-blue-500"
    else "text-gray-800"
  }

  /** The colour table consulted for an unsigned change value: each key of
      the table has its colour, and every other key is grey. */
  function KeyColor(key: string): (r: string)
    ensures key == "nasdaq" <==> r == "#10b981"
    ensures key == "usdkrw" || key == "sp500" || key == "jpkrw" <==> r == "#6366f1"
    ensures key == "dji" <==> r == "#f59e42"
    ensures key == "cnykrw" <==> r == "#fb7185"
    ensures key == "eurkrw" <==> r == "#64748b"
    ensures r == Gray <==> key !in {"nasdaq", "usdkrw", "sp500", "dji", "jpkrw", "cnykrw", "eurkrw"}
    ensures r != "#ef4444" && r != "#2563eb"
  {
    if key == "nasdaq" then "#10b981"
    else if key == "usdkrw" then "#6366f1"
    else if key == "sp500" then "#6366f1"
    else if key == "dji" then "#f59e42"
    else if key == "jpkrw" then "#6366f1"
    else if key == "cnykrw" then "#fb7185"
    else if key == "eurkrw" then "#64748b"
    else Gray
  }

  /** `getChartColor`: the sign is checked before the key. The chart is red
      exactly when the text is red and blue exactly when the text is blue,
      whatever the market, since no key's colour is a sign colour. */
  function GetChartColor(changeValue: string, key: string): (r: string)
    ensures Strs.StartsWith(Strs.Trim(changeValue), "+") ==> r == "#ef4444"
    ensures Strs.StartsWith(Strs.Trim(changeValue), "-") ==> r == "#2563eb"
    ensures !Strs.StartsWith(Strs.Trim(changeValue), "+") && !Strs.StartsWith(Strs.Trim(changeValue), "-")
      ==> r == KeyColor(key)
    ensures r == "#ef4444" <==> GetColor(changeValue) == "text-red-500"
    ensures r == "#2563eb" <==> GetColor(changeValue) == "text-blue-500"
  {
    var v := Strs.Trim(changeValue);
    if Strs.StartsWith(v, "+") then "#ef4444"
    else if Strs.StartsWith(v, "-") then "#2563eb"
    else KeyColor(key)
  }

  /** Whitespace around a change value never affects its colours. */
  lemma ColorsIgnorePadding(a: string, changeValue: string, b: string, key: string)
    requires Strs.IsBlank(a) && Strs.IsBlank(b)
    ensures GetColor(a + changeValue + b) == GetColor(changeValue)
    ensures GetChartColor(a + changeValue + b, key) == GetChartColor(changeValue, key)
  {
    Strs.TrimPadded(a, changeValue, b);
  }

  /** `summaries.find(s => s.key === key)`. */
  function Find(summaries: seq<MarketSummary>, key: string): Option<MarketSummary>
  {
    if summaries == [] then None
    else if summaries[0].key == key then Some(summaries[0])
    else Find(summaries[1..], key)
  }

  /** `find` yields nothing exactly when no summary has the key, and
      otherwise the first summary that has it. */
  lemma {:induction false} FindSpec(summaries: seq<MarketSummary>, key: string)
    ensures Find(summaries, key).None? <==> forall i :: 0 <= i < |summaries| ==> summaries[i].key != key
    ensures Find(summaries, key).Some? ==>
      exists i :: (0 <= i < |summaries| && summaries[i] == Find(summaries, key).value
        && summaries[i].key == key && forall j :: 0 <= j < i ==> summaries[j].key != key)
  {
    if summaries != [] && summaries[0].key != key {
      var rest := summaries[1..];
      FindSpec(rest, key);
      if Find(rest, key).Some? {
        var i :| 0 <= i < |rest| && rest[i] == Find(rest, key).value
          && rest[i].key == key && forall j :: 0 <= j < i ==> rest[j].key != key;
        assert summaries[i + 1] == rest[i];
        forall j | 0 <= j < i + 1 ensures summaries[j].key != key {
          if j > 0 { assert summaries[j] == rest[j - 1]; }
        }
      } else {
        forall i | 0 <= i < |summaries| ensures summaries[i].key != key {
          if i > 0 { assert summaries[i] == rest[i - 1]; }
        }
      }
    }
  }

  /** `selectedColor`: the chart colour of the selected market's summary,
      or grey when no summary has the selected key. */
  function SelectedColor(summaries: seq<MarketSummary>, selected: string): (r: string)
    ensures (forall i :: 0 <= i < |summaries| ==> summaries[i].key != selected) ==> r == Gray
    ensures Find(summaries, selected).Some? ==> r == GetChartColor(Find(summaries, selected).value.changeValue, selected)
  {
    FindSpec(summaries, selected);
    match Find(summaries, selected)
    case Some(s) => GetChartColor(s.changeValue, selected)
    case None => Gray
  }

  /** A rendered index button: its key and caption, whether it is the
      selected one, its text colour, and the value and change texts shown
      when the market has a summary. */
  datatype Button = Button(key: string, caption: string, isSelected: bool, color: string,
                           shown: Option<(string, string, string)>)

  function ButtonFor(idx: IndexEntry, summaries: seq<MarketSummary>, selected: string): Button
  {
    match Find(summaries, idx.key)
    case Some(s) =>
      Button(idx.key, idx.caption, selected == idx.key, GetColor(s.changeValue),
             Some((s.value, Strs.Trim(s.changeValue), Strs.Trim(s.changeRate))))
    case None => Button(idx.key, idx.caption, selected == idx.key, "text-gray-800", None)
  }

  /** The buttons follow the fixed four-market order; a market without a
      summary is grey and shows no value; the selected key is highlighted. */
  function IndexButtons(summaries: seq<MarketSummary>, selected: string): (r: seq<Button>)
    ensures |r| == |Indexes| == 4
    ensures forall i :: 0 <= i < 4 ==>
      r[i].key == Indexes[i].key && r[i].caption == Indexes[i].caption && (r[i].isSelected <==> selected == Indexes[i].key)
    ensures forall i :: 0 <= i < 4 && Find(summaries, Indexes[i].key).None? ==>
      r[i].color == "text-gray-800" && r[i].shown.None?
    ensures forall i :: 0 <= i < 4 && Find(summaries, Indexes[i].key).Some? ==>
      r[i].color == GetColor(Find(summaries, Indexes[i].key).value.changeValue)
      && r[i].shown == Some((Find(summaries, Indexes[i].key).value.value,
                             Strs.Trim(Find(summaries, Indexes[i].key).value.changeValue),
                             Strs.Trim(Find(summaries, Indexes[i].key).value.changeRate)))
  {
    seq(|Indexes|, i requires 0 <= i < |Indexes| => ButtonFor(Indexes[i], summaries, selected))
  }
}
