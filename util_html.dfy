/** The values `signals_to_html` puts into the signal report: the summary
    counts, the filter labels, and one table row per signal.

    A signal is a dictionary from field name to text; the page template
    around these values (styles, headings, timestamps) is constant text and
    is not modelled. */
module UtilHtml {
  import opened Wrappers
  import Text

  type SignalDict = map<string, string>

  /** `d.get(key, default)`. */
  function Get(d: SignalDict, key: string, default: string): (r: string)
    ensures key in d ==> r == d[key]
    ensures key !in d ==> r == default
  {
    if key in d then d[key] else default
  }

  /** `s.get('signal_type') and word in s.get('signal_type')`: the type is
      present, non-empty and contains `word`. */
  predicate TypeHas(d: SignalDict, word: string) {
    "signal_type" in d && d["signal_type"] != "" && Text.Contains(d["signal_type"], word)
  }

  /** The number of signals whose type contains `word`. */
  function CountType(signals: seq<SignalDict>, word: string): (n: nat)
    ensures n <= |signals|
    decreases |signals|
  {
    if signals == [] then 0
    else CountType(signals[..|signals| - 1], word) + (if TypeHas(signals[|signals| - 1], word) then 1 else 0)
  }

  /** The positions of the signals whose type contains `word`. */
  function IndicesWith(signals: seq<SignalDict>, word: string): set<int> {
    set k | 0 <= k < |signals| && TypeHas(signals[k], word)
  }

  /** The count is the number of signals whose type contains `word`. */
  lemma {:induction false} CountTypeIndices(signals: seq<SignalDict>, word: string)
    ensures CountType(signals, word) == |IndicesWith(signals, word)|
    decreases |signals|
  {
    if signals != [] {
      var last := |signals| - 1;
      var init := signals[..last];
      CountTypeIndices(init, word);
      var before, after := IndicesWith(init, word), IndicesWith(signals, word);
      assert forall k :: 0 <= k < last ==> init[k] == signals[k];
      if TypeHas(signals[last], word) {
        assert after == before + {last};
        assert last !in before;
      } else {
        assert after == before;
      }
    }
  }

  /** The distinct `stock_info` values, a missing one read as "". */
  function StockInfos(signals: seq<SignalDict>): (r: set<string>)
    ensures |r| <= |signals|
    ensures |signals| > 0 ==> |r| >= 1
    decreases |signals|
  {
    if signals == [] then {}
    else
      var init := signals[..|signals| - 1];
      var before := StockInfos(init);
      var x := Get(signals[|signals| - 1], "stock_info", "");
      var r := before + {x};
      assert |r| <= |before| + 1 by {
        if x in before {
          assert r == before;
        }
      }
      assert x in r;
      r
  }

  /** The set holds exactly the stock values of the signals. */
  lemma {:induction false} StockInfosMembers(signals: seq<SignalDict>, x: string)
    ensures x in StockInfos(signals) <==> exists k :: 0 <= k < |signals| && x == Get(signals[k], "stock_info", "")
    decreases |signals|
  {
    if signals != [] {
      var init := signals[..|signals| - 1];
      StockInfosMembers(init, x);
      var last := |signals| - 1;
      if x in StockInfos(init) {
        var k :| 0 <= k < |init| && x == Get(init[k], "stock_info", "");
        assert signals[k] == init[k];
      } else if x == Get(signals[last], "stock_info", "") {
      } else {
        forall k | 0 <= k < |signals| ensures x != Get(signals[k], "stock_info", "") {
          if k < last {
            assert signals[k] == init[k];
          }
        }
      }
    }
  }

  /** The report's four statistics. */
  datatype Summary = Summary(total: int, buy: int, sell: int, uniqueStocks: int)

  /** The summary computed when the caller gives none. */
  function DefaultSummary(signals: seq<SignalDict>): (s: Summary)
    ensures s.total == |signals|
    ensures 0 <= s.buy <= s.total && 0 <= s.sell <= s.total
    ensures 0 <= s.uniqueStocks <= s.total
    ensures s.total > 0 ==> s.uniqueStocks >= 1
    ensures s.buy == |IndicesWith(signals, "buy")| && s.sell == |IndicesWith(signals, "sell")|
    ensures s.uniqueStocks == |StockInfos(signals)|
  {
    CountTypeIndices(signals, "buy");
    CountTypeIndices(signals, "sell");
    Summary(|signals|, CountType(signals, "buy"), CountType(signals, "sell"), |StockInfos(signals)|)
  }

  /** `summary.get(key, 0)`. */
  function SummaryValue(summary: map<string, int>, key: string): (v: int)
    ensures key !in summary ==> v == 0
    ensures key in summary ==> v == summary[key]
  {
    if key in summary then summary[key] else 0
  }

  /** The summary shown: computed when none is given, otherwise read from the
      given one with missing entries as 0. */
  function ShownSummary(signals: seq<SignalDict>, summary: Option<map<string, int>>): (s: Summary)
    ensures summary.None? ==> s == DefaultSummary(signals)
    ensures summary.Some? ==> s == Summary(SummaryValue(summary.value, "total_signals"), SummaryValue(summary.value, "buy_signals"),
                                           SummaryValue(summary.value, "sell_signals"), SummaryValue(summary.value, "unique_stocks"))
  {
    match summary
    case None => DefaultSummary(signals)
    case Some(m) =>
      Summary(SummaryValue(m, "total_signals"), SummaryValue(m, "buy_signals"),
              SummaryValue(m, "sell_signals"), SummaryValue(m, "unique_stocks"))
  }

  /** `filters.get(key, '') or label`. */
  function FilterLabel(filters: map<string, string>, key: string, placeholder: string): (r: string)
    ensures key in filters && filters[key] != "" ==> r == filters[key]
    ensures key !in filters || filters[key] == "" ==> r == placeholder
  {
    var v := if key in filters then filters[key] else "";
    if v != "" then v else placeholder
  }

  /** The CSS class of a signal's type cell: buy first, then sell. */
  function RowClass(d: SignalDict): (c: string)
    ensures c == "price-up" <==> TypeHas(d, "buy")
    ensures c == "price-down" <==> !TypeHas(d, "buy") && TypeHas(d, "sell")
    ensures c == "" <==> !TypeHas(d, "buy") && !TypeHas(d, "sell")
  {
    if TypeHas(d, "buy") then "price-up"
    else if TypeHas(d, "sell") then "price-down"
    else ""
  }

  /** The six cells of a row in column order; a missing field shows "-". */
  function Cells(d: SignalDict): (c: seq<string>)
    ensures |c| == 6
    ensures forall k :: 0 <= k < 6 ==> (CellKeys[k] in d ==> c[k] == d[CellKeys[k]]) && (CellKeys[k] !in d ==> c[k] == "-")
  {
    seq(6, k requires 0 <= k < 6 => Get(d, CellKeys[k], "-"))
  }

  const CellKeys: seq<string> := ["date", "signal_type", "description", "stock_info", "data_source", "strategy_name"]

  const RowIndent: string := "                "
  const CellIndent: string := "                    "

  /** The text of a list of pieces, in order. */
  function Concat(pieces: seq<string>): string
    decreases |pieces|
  {
    if pieces == [] then "" else pieces[0] + Concat(pieces[1..])
  }

  function Td(content: string): string {
    CellIndent + "<td>" + content + "</td>\n"
  }

  /** The lines of a row: the row opens, six cells follow, the type cell
      carrying the row class, and the row closes. */
  function RowPieces(cells: seq<string>, cls: string): (p: seq<string>)
    requires |cells| == 6
    ensures |p| == 8
  {
    [RowIndent + "<tr>\n", Td(cells[0]), CellIndent + "<td class='" + cls + "'>" + cells[1] + "</td>\n",
     Td(cells[2]), Td(cells[3]), Td(cells[4]), Td(cells[5]), RowIndent + "</tr>"]
  }

  function RenderRow(d: SignalDict): string {
    Concat(RowPieces(Cells(d), RowClass(d)))
  }

  /** Text found in a string is found in any extension of it. */
  lemma {:induction false} ContainsAfter(a: string, s: string, part: string)
    requires Text.Contains(s, part)
    ensures Text.Contains(a + s, part)
    decreases |a|
  {
    if |a| > 0 {
      ContainsAfter(a[1..], s, part);
      assert (a + s)[1..] == a[1..] + s;
    } else {
      assert a + s == s;
    }
  }

  lemma {:induction false} ContainsBefore(s: string, b: string, part: string)
    requires Text.Contains(s, part)
    ensures Text.Contains(s + b, part)
    decreases |s|
  {
    if Text.StartsWith(s, part) {
      assert (s + b)[..|part|] == s[..|part|];
    } else {
      ContainsBefore(s[1..], b, part);
      assert (s + b)[1..] == s[1..] + b;
    }
  }

  /** Containment is transitive. */
  lemma {:induction false} ContainsTrans(s: string, mid: string, part: string)
    requires Text.Contains(s, mid) && Text.Contains(mid, part)
    ensures Text.Contains(s, part)
    decreases |s|
  {
    if Text.StartsWith(s, mid) {
      ContainsBefore(mid, s[|mid|..], part);
      assert mid + s[|mid|..] == s;
    } else {
      ContainsTrans(s[1..], mid, part);
    }
  }

  lemma ContainsSelf(s: string)
    ensures Text.Contains(s, s)
  {
    assert s[..|s|] == s;
  }

  /** The text of the pieces holds every piece. */
  lemma {:induction false} ConcatHoldsPieces(pieces: seq<string>, i: int)
    requires 0 <= i < |pieces|
    ensures Text.Contains(Concat(pieces), pieces[i])
    decreases |pieces|
  {
    if i == 0 {
      ContainsSelf(pieces[0]);
      ContainsBefore(pieces[0], Concat(pieces[1..]), pieces[0]);
    } else {
      ConcatHoldsPieces(pieces[1..], i - 1);
      ContainsAfter(pieces[0], Concat(pieces[1..]), pieces[i]);
    }
  }

  /** A cell line holds its `<td>` element. */
  lemma TdHoldsCell(content: string)
    ensures Text.Contains(Td(content), "<td>" + content + "</td>")
  {
    var e := "<td>" + content + "</td>";
    ContainsSelf(e);
    ContainsBefore(e, "\n", e);
    ContainsAfter(CellIndent, e + "\n", e);
    assert CellIndent + (e + "\n") == Td(content);
  }

  /** A row opens with `<tr>`, closes with `</tr>`, and shows each of the
      signal's six cells in its column, the type cell carrying the row class. */
  lemma RowShowsCells(d: SignalDict)
    ensures Text.StartsWith(RenderRow(d), RowIndent + "<tr>\n")
    ensures var c := Cells(d);
      && Text.Contains(RenderRow(d), CellIndent + "<td class='" + RowClass(d) + "'>" + c[1] + "</td>\n")
      && forall k :: 0 <= k < 6 && k != 1 ==> Text.Contains(RenderRow(d), "<td>" + c[k] + "</td>")
    ensures Text.Contains(RenderRow(d), RowIndent + "</tr>")
  {
    var c := Cells(d);
    var pieces := RowPieces(c, RowClass(d));
    assert RenderRow(d) == pieces[0] + Concat(pieces[1..]);
    assert (pieces[0] + Concat(pieces[1..]))[..|pieces[0]|] == pieces[0];
    ConcatHoldsPieces(pieces, 2);
    ConcatHoldsPieces(pieces, 7);
    forall k | 0 <= k < 6 && k != 1 ensures Text.Contains(RenderRow(d), "<td>" + c[k] + "</td>") {
      var i := if k == 0 then 1 else k + 1;
      assert pieces[i] == Td(c[k]);
      ConcatHoldsPieces(pieces, i);
      TdHoldsCell(c[k]);
      ContainsTrans(RenderRow(d), Td(c[k]), "<td>" + c[k] + "</td>");
    }
  }

  /** The number of rows with class `cls`. */
  function CountClass(signals: seq<SignalDict>, cls: string): (n: nat)
    ensures n <= |signals|
    decreases |signals|
  {
    if signals == [] then 0
    else CountClass(signals[..|signals| - 1], cls) + (if RowClass(signals[|signals| - 1]) == cls then 1 else 0)
  }

  /** The buy count of the default summary is the number of rows marked as
      price-up; the price-down rows are at most the sell count (a type with
      both words is counted as buy and as sell but marked price-up). */
  lemma {:induction false} CountsMatchRowClasses(signals: seq<SignalDict>)
    ensures DefaultSummary(signals).buy == CountClass(signals, "price-up")
    ensures CountClass(signals, "price-down") <= DefaultSummary(signals).sell
    decreases |signals|
  {
    if signals != [] {
      CountsMatchRowClasses(signals[..|signals| - 1]);
    }
  }

  /** The interpolated values of the report page. */
  datatype Report = Report(strategy: string, stock: string, signalType: string, startDate: string, endDate: string,
                           summary: Summary, tableRows: seq<string>, tableBody: string)

  /** `signals_to_html(signals_data, filters, summary)`: the labels of the
      filters, the statistics, and the table body built row by row. */
  method SignalsToHtml(signals: seq<SignalDict>, filters: Option<map<string, string>>, summary: Option<map<string, int>>)
    returns (r: Report)
    ensures r.summary == ShownSummary(signals, summary)
    ensures var f := filters.GetOr(map[]);
      && r.strategy == FilterLabel(f, "strategy_name", "全部策略")
      && r.stock == FilterLabel(f, "stock_code", "全部股票")
      && r.signalType == FilterLabel(f, "signal_type", "全部类型")
      && r.startDate == FilterLabel(f, "start_date", "不限制")
      && r.endDate == FilterLabel(f, "end_date", "不限制")
    ensures |r.tableRows| == |signals|
    ensures forall k :: 0 <= k < |signals| ==> r.tableRows[k] == RenderRow(signals[k])
    ensures r.tableBody == Text.Join(r.tableRows, '\n')
  {
    var f := if filters.None? then map[] else filters.value;
    var s := ShownSummary(signals, summary);
    var tableRows: seq<string> := [];
    var i := 0;
    while i < |signals|
      invariant 0 <= i <= |signals|
      invariant |tableRows| == i
      invariant forall k :: 0 <= k < i ==> tableRows[k] == RenderRow(signals[k])
    {
      var signal := signals[i];
      var signalTypeClass := "";
      if TypeHas(signal, "buy") {
        signalTypeClass := "price-up";
      } else if TypeHas(signal, "sell") {
        signalTypeClass := "price-down";
      }
      var tableRow := Concat(RowPieces(Cells(signal), signalTypeClass));
      tableRows := tableRows + [tableRow];
      i := i + 1;
    }
    r := Report(FilterLabel(f, "strategy_name", "全部策略"), FilterLabel(f, "stock_code", "全部股票"),
                FilterLabel(f, "signal_type", "全部类型"), FilterLabel(f, "start_date", "不限制"),
                FilterLabel(f, "end_date", "不限制"), s, tableRows, Text.Join(tableRows, '\n'));
  }
}
