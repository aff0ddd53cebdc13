// main/Financial.tsx: the signed percentage pulled out of a market's
// change text by `/[-+]\d+(\.\d+)?%/`, the up/down colour it gives, the
// chart query key of a market name, and the dot colour.

module MarketIndex {
  import opened Common

  /** `\d` in a JavaScript regular expression: an ASCII digit. */
  predicate IsDigit(c: char)
  {
    '0' <= c <= '9'
  }

  predicate IsSign(c: char)
  {
    c == '+' || c == '-'
  }

  /** Every character of `s[lo..hi]` is a digit. */
  predicate DigitsIn(s: string, lo: int, hi: int)
    requires 0 <= lo <= hi <= |s|
  {
    forall i :: lo <= i < hi ==> IsDigit(s[i])
  }

  /** The number part `\d+(\.\d+)?` spans `s[lo..hi]`: digits, optionally
      a dot and more digits. */
  predicate NumberIn(s: string, lo: int, hi: int)
    requires 0 <= lo <= hi <= |s|
  {
    (lo < hi && DigitsIn(s, lo, hi))
    || (exists k :: lo < k < hi - 1 && s[k] == '.' && DigitsIn(s, lo, k) && DigitsIn(s, k + 1, hi))
  }

  /** The whole pattern spans `s[p..e]`: a sign, a number, a `%`. */
  predicate TokenIn(s: string, p: int, e: int)
    requires 0 <= p <= e <= |s|
  {
    e - p >= 3 && IsSign(s[p]) && s[e - 1] == '%' && NumberIn(s, p + 1, e - 1)
  }

  /** A string the whole pattern matches. */
  predicate IsPercentToken(t: string)
  {
    TokenIn(t, 0, |t|)
  }

  /** How many digits follow position `i`. */
  function DigitRun(s: string, i: nat): (n: nat)
    requires i <= |s|
    ensures i + n <= |s| && DigitsIn(s, i, i + n)
    ensures i + n == |s| || !IsDigit(s[i + n])
    decreases |s| - i
  {
    if i < |s| && IsDigit(s[i]) then 1 + DigitRun(s, i + 1) else 0
  }

  /** A run of digits that stops before a non-digit is the whole run. */
  lemma {:induction false} DigitRunExact(s: string, i: nat, n: nat)
    requires i + n <= |s| && DigitsIn(s, i, i + n)
    requires i + n == |s| || !IsDigit(s[i + n])
    ensures DigitRun(s, i) == n
    decreases n
  {
    if n > 0 {
      DigitRunExact(s, i + 1, n - 1);
    }
  }

  /** Where the pattern's match starting at `p` ends, if there is one. The
      digit runs are maximal, and a shorter run would leave a digit where
      `.` or `%` must be, so this is the only possible end. */
  function MatchAt(s: string, p: nat): Option<nat>
  {
    if p < |s| && IsSign(s[p]) then
      var a := p + 1 + DigitRun(s, p + 1);
      if a == p + 1 then None
      else if a < |s| && s[a] == '%' then Some(a + 1)
      else if a < |s| && s[a] == '.' then
        var b := a + 1 + DigitRun(s, a + 1);
        if b > a + 1 && b < |s| && s[b] == '%' then Some(b + 1) else None
      else None
    else None
  }

  /** A match found at `p` is a percentage token there. */
  lemma MatchAtSound(s: string, p: nat)
    requires MatchAt(s, p).Some?
    ensures p < MatchAt(s, p).value <= |s| && TokenIn(s, p, MatchAt(s, p).value)
  {
    var a := p + 1 + DigitRun(s, p + 1);
    if s[a] != '%' {
      var b := a + 1 + DigitRun(s, a + 1);
      assert DigitsIn(s, p + 1, a) && DigitsIn(s, a + 1, b);
    }
  }

  /** Every percentage token starting at `p` is the one `MatchAt` finds. */
  lemma MatchAtComplete(s: string, p: nat, e: nat)
    requires p <= e <= |s| && TokenIn(s, p, e)
    ensures MatchAt(s, p) == Some(e)
  {
    if p + 1 < e - 1 && DigitsIn(s, p + 1, e - 1) {
      CompleteWithoutFraction(s, p, e);
    } else {
      var k :| p + 1 < k < e - 2 && s[k] == '.' && DigitsIn(s, p + 1, k) && DigitsIn(s, k + 1, e - 1);
      CompleteWithFraction(s, p, e, k);
    }
  }

  /** `MatchAtComplete` for a number without a fraction. */
  lemma CompleteWithoutFraction(s: string, p: nat, e: nat)
    requires p + 1 < e - 1 && e <= |s| && IsSign(s[p]) && s[e - 1] == '%'
    requires DigitsIn(s, p + 1, e - 1)
    ensures MatchAt(s, p) == Some(e)
  {
    DigitRunExact(s, p + 1, e - 1 - (p + 1));
  }

  /** `MatchAtComplete` for a number whose dot is at `k`. */
  lemma CompleteWithFraction(s: string, p: nat, e: nat, k: nat)
    requires p + 1 < k < e - 2 && e <= |s| && IsSign(s[p]) && s[e - 1] == '%'
    requires s[k] == '.' && DigitsIn(s, p + 1, k) && DigitsIn(s, k + 1, e - 1)
    ensures MatchAt(s, p) == Some(e)
  {
    DigitRunExact(s, p + 1, k - (p + 1));
    DigitRunExact(s, k + 1, e - 1 - (k + 1));
  }

  /** Reading a token in a slice is reading it in place. */
  lemma TokenInSlice(s: string, p: nat, e: nat)
    requires p <= e <= |s|
    ensures IsPercentToken(s[p..e]) <==> TokenIn(s, p, e)
  {
    var t := s[p..e];
    if e - p >= 3 {
      assert t[0] == s[p] && t[|t| - 1] == s[e - 1];
      DigitsShift(s, p, e, 1, |t| - 1);
      if NumberIn(t, 1, |t| - 1) && !DigitsIn(t, 1, |t| - 1) {
        var k :| 1 < k < |t| - 2 && t[k] == '.' && DigitsIn(t, 1, k) && DigitsIn(t, k + 1, |t| - 1);
        DigitsShift(s, p, e, 1, k);
        DigitsShift(s, p, e, k + 1, |t| - 1);
        assert s[p + k] == '.' && DigitsIn(s, p + 1, p + k) && DigitsIn(s, p + k + 1, e - 1);
      }
      if NumberIn(s, p + 1, e - 1) && !DigitsIn(s, p + 1, e - 1) {
        var k :| p + 1 < k < e - 2 && s[k] == '.' && DigitsIn(s, p + 1, k) && DigitsIn(s, k + 1, e - 1);
        DigitsShift(s, p, e, 1, k - p);
        DigitsShift(s, p, e, k - p + 1, |t| - 1);
        assert t[k - p] == '.' && DigitsIn(t, 1, k - p) && DigitsIn(t, k - p + 1, |t| - 1);
      }
    }
  }

  /** Digits of a slice are digits of the string, shifted by its start. */
  lemma DigitsShift(s: string, p: nat, e: nat, lo: nat, hi: nat)
    requires p <= e <= |s| && lo <= hi <= e - p
    ensures DigitsIn(s[p..e], lo, hi) <==> DigitsIn(s, p + lo, p + hi)
  {
    var t := s[p..e];
    if DigitsIn(s, p + lo, p + hi) {
      forall i | lo <= i < hi ensures IsDigit(t[i]) {
        assert t[i] == s[p + i];
      }
    }
    if DigitsIn(t, lo, hi) {
      forall i | p + lo <= i < p + hi ensures IsDigit(s[i]) {
        assert s[i] == t[i - p];
      }
    }
  }

  /** The leftmost match from position `p` on: its start and end. */
  function FindFrom(s: string, p: nat): (r: Option<(nat, nat)>)
    requires p <= |s|
    ensures r.Some? ==> p <= r.value.0 && MatchAt(s, r.value.0) == Some(r.value.1)
    ensures r.Some? ==> forall q :: p <= q < r.value.0 ==> MatchAt(s, q).None?
    ensures r.None? ==> forall q :: p <= q ==> MatchAt(s, q).None?
    decreases |s| - p
  {
    if p == |s| then None
    else match MatchAt(s, p)
      case Some(e) => Some((p, e))
      case None => FindFrom(s, p + 1)
  }

  /** `item.change.match(/[-+]\d+(\.\d+)?%/)?.[0] || ''`. */
  function Percent(change: string): string
  {
    match FindFrom(change, 0)
    case None => []
    case Some((p, e)) =>
      MatchAtSound(change, p);
      change[p..e]
  }

  /** `t` occurs in `s` at position `p`. */
  predicate TokenAt(s: string, p: int, t: string)
  {
    0 <= p <= |s| - |t| && s[p..p + |t|] == t
  }

  /** No percentage token starts before position `p`. */
  predicate NoTokenBefore(s: string, p: int)
  {
    forall q, e :: 0 <= q < p && q <= e <= |s| ==> !IsPercentToken(s[q..e])
  }

  /** `percent` is a percentage token or empty. It is empty exactly when no
      substring of the change text is a token; otherwise it is the token
      that starts leftmost. */
  lemma PercentSpec(change: string)
    ensures Percent(change) == [] || IsPercentToken(Percent(change))
    ensures Percent(change) == [] <==> forall p, e :: 0 <= p <= e <= |change| ==> !IsPercentToken(change[p..e])
    ensures Percent(change) != [] ==> exists p :: TokenAt(change, p, Percent(change)) && NoTokenBefore(change, p)
  {
    match FindFrom(change, 0)
    case None =>
      forall p, e | 0 <= p <= e <= |change| ensures !IsPercentToken(change[p..e]) {
        TokenInSlice(change, p, e);
        if TokenIn(change, p, e) {
          MatchAtComplete(change, p, e);
        }
      }
    case Some((p, e)) =>
      MatchAtSound(change, p);
      TokenInSlice(change, p, e);
      forall q, e' | 0 <= q < p && q <= e' <= |change| ensures !IsPercentToken(change[q..e']) {
        TokenInSlice(change, q, e');
        if TokenIn(change, q, e') {
          MatchAtComplete(change, q, e');
        }
      }
      assert TokenAt(change, p, Percent(change));
  }

  /** `percent.startsWith('+')`. */
  predicate IsUp(change: string)
  {
    |Percent(change)| > 0 && Percent(change)[0] == '+'
  }

  /** A market is up exactly when the leftmost percentage token of its
      change text carries a '+' sign; a text without any token is not up. */
  lemma IsUpSpec(change: string)
    ensures IsUp(change) <==>
      exists p, e :: 0 <= p < e <= |change| && IsPercentToken(change[p..e]) && NoTokenBefore(change, p) && change[p] == '+'
  {
    PercentSpec(change);
    var t := Percent(change);
    if IsUp(change) {
      var p :| TokenAt(change, p, t) && NoTokenBefore(change, p);
      assert change[p..p + |t|] == t;
      assert change[p] == t[0];
    }
    if exists p, e :: 0 <= p < e <= |change| && IsPercentToken(change[p..e]) && NoTokenBefore(change, p) && change[p] == '+' {
      var p, e :| 0 <= p < e <= |change| && IsPercentToken(change[p..e]) && NoTokenBefore(change, p) && change[p] == '+';
      assert t != [];
      var p' :| TokenAt(change, p', t) && NoTokenBefore(change, p');
      assert change[p'..p' + |t|] == t;
      assert p == p';
      assert t[0] == change[p];
    }
  }

  /** Value and percentage are red when up and blue otherwise, including
      when there is no percentage at all. */
  function ChangeClass(change: string): (r: string)
    ensures r == "text-red-500" <==> IsUp(change)
    ensures r == "text-blue-500" <==> !IsUp(change)
  {
    if IsUp(change) then "text-red-500" else "text-blue-500"
  }

  /** `displayNameToQueryKey[selectedMarket] || 'kospi'`. */
  function QueryKey(name: string): (r: string)
    ensures name == "코스피" ==> r == "kospi"
    ensures name == "코스닥" ==> r == "kosdaq"
    ensures name == "코스피200" ==> r == "kospi200"
    ensures name != "코스피" && name != "코스닥" && name != "코스피200" ==> r == "kospi"
  {
    if name == "코스피" then "kospi"
    else if name == "코스닥" then "kosdaq"
    else if name == "코스피200" then "kospi200"
    else "kospi"
  }

  /** The dot beside a market's name. */
  function DotColor(name: string): (r: string)
    ensures r == "bg-orange-500" <==> name == "코스피"
    ensures r == "bg-teal-500" <==> name != "코스피"
  {
    if name == "코스피" then "bg-orange-500" else "bg-teal-500"
  }

  /** A `/api/financials` entry. */
  datatype MarketItem = MarketItem(name: string, value: string, change: string)

  /** One index button: name, value and percentage with their colour, the
      dot, and whether it is the selected market. */
  datatype Button = Button(name: string, value: string, percent: string, colorClass: string,
                           dot: string, selected: bool)

  /** What `FinancialTable` renders; `chartTitle` is `None` when no chart
      is drawn. */
  datatype FinancialView = FinancialView(buttons: seq<Button>, chartTitle: Option<string>)

  function ButtonFor(item: MarketItem, selectedMarket: string): Button
  {
    Button(item.name, item.value, Percent(item.change), ChangeClass(item.change), DotColor(item.name),
           item.name == selectedMarket)
  }

  /** One button per market entry, in order, and the chart titled
      "<market> 추이" only when there are chart points. */
  function View<T>(market: seq<MarketItem>, chartData: seq<T>, selectedMarket: string): (r: FinancialView)
    ensures |r.buttons| == |market|
    ensures forall i :: 0 <= i < |market| ==>
      r.buttons[i].name == market[i].name && r.buttons[i].value == market[i].value
      && r.buttons[i].percent == Percent(market[i].change)
      && (r.buttons[i].colorClass == "text-red-500" <==> IsUp(market[i].change))
      && (r.buttons[i].selected <==> market[i].name == selectedMarket)
    ensures r.chartTitle.None? <==> chartData == []
    ensures r.chartTitle.Some? ==> r.chartTitle.value == selectedMarket + " 추이"
  {
    FinancialView(seq(|market|, i requires 0 <= i < |market| => ButtonFor(market[i], selectedMarket)),
                  if |chartData| > 0 then Some(selectedMarket + " 추이") else None)
  }
}
