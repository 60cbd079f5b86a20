/** The one-line, human-readable summary of a query's result rows: the row
    count and the first row's column names, in Chinese. */
module ResultSummary {
  import opened Strings
  import opened JsonValues

  /** A result row: its columns in order, each with its value. Values are
      never looked at, so their type is left open. */
  type Row<V> = seq<(string, V)>

  /** The column names of a row, in order. */
  function Columns<V>(row: Row<V>): (cs: seq<string>)
    ensures |cs| == |row|
    ensures forall k | 0 <= k < |row| :: cs[k] == row[k].0
  {
    seq(|row|, k requires 0 <= k < |row| => row[k].0)
  }

  /** "No data at all." */
  function EmptySummary(): string
  {
    "\U{6C92}\U{6709}\U{4EFB}\U{4F55}\U{8CC7}\U{6599}\U{3002}"
  }

  /** "In total " */
  function CountOpening(): string
  {
    "\U{5171} "
  }

  /** " rows of data, the columns include " */
  function ColumnsOpening(): string
  {
    " \U{7B46}\U{8CC7}\U{6599}\U{FF0C}\U{6B04}\U{4F4D}\U{5305}\U{542B} "
  }

  /** The closing full stop. */
  function FullStop(): string
  {
    "\U{3002}"
  }

  /** `summarize_results`: the fixed no-data text for no rows; otherwise
      the row count in decimal and the first row's column names joined by
      `", "`, inside the fixed sentence. */
  function SummarizeResults<V>(results: seq<Row<V>>): (r: string)
    ensures r == EmptySummary() <==> results == []
  {
    if results == [] then EmptySummary()
    else
      var r := CountOpening() + NatToString(|results|) + ColumnsOpening()
        + Join(", ", Columns(results[0])) + FullStop();
      assert r[0] != EmptySummary()[0];
      r
  }

  /** The summary of some rows opens with the row count, which reads back
      as that count and is followed by a space. */
  lemma SummaryCount<V>(results: seq<Row<V>>)
    requires results != []
    ensures var r := SummarizeResults(results);
      var digits := NatToString(|results|);
      var start := |CountOpening()|;
      start + |digits| < |r| && r[start..start + |digits|] == digits
      && DecimalValue(digits) == |results| && r[start + |digits|] == ' '
      && Contains(r, digits)
  {
    var r := SummarizeResults(results);
    var digits := NatToString(|results|);
    var rest := ColumnsOpening() + Join(", ", Columns(results[0])) + FullStop();
    assert r == CountOpening() + digits + rest;
    assert r[|CountOpening()|..|CountOpening()| + |digits|] == digits;
    DecimalRoundTrip(|results|);
    ContainsSelf(digits);
    ContainsWithin(CountOpening(), digits, rest, digits);
  }

  /** The summary of some rows names every column of the first row. */
  lemma SummaryColumns<V>(results: seq<Row<V>>, k: nat)
    requires results != [] && k < |results[0]|
    ensures Contains(SummarizeResults(results), results[0][k].0)
  {
    var cols := Columns(results[0]);
    var front := CountOpening() + NatToString(|results|) + ColumnsOpening();
    JoinContains(", ", cols, k);
    ContainsWithin(front, Join(", ", cols), FullStop(), cols[k]);
  }

  /** The summary names the first row's columns in that row's order, joined
      by `", "`. */
  lemma SummaryColumnOrder<V>(results: seq<Row<V>>)
    requires results != []
    ensures Contains(SummarizeResults(results), Join(", ", Columns(results[0])))
  {
    var cols := Join(", ", Columns(results[0]));
    var front := CountOpening() + NatToString(|results|) + ColumnsOpening();
    ContainsSelf(cols);
    ContainsWithin(front, cols, FullStop(), cols);
  }

  /** Only the number of rows and the first row's column names matter:
      later rows and every value are ignored. */
  lemma SummaryFirstRowOnly<V, W>(a: seq<Row<V>>, b: seq<Row<W>>)
    requires |a| == |b| && (a == [] || Columns(a[0]) == Columns(b[0]))
    ensures SummarizeResults(a) == SummarizeResults(b)
  {
  }

  /** Two rows with columns `id` and `name`: the summary names the count
      and both columns. */
  lemma TwoRowExample(rows: seq<Row<Json>>)
    requires rows == [[("id", JNumber(1)), ("name", JString("Alice"))], [("id", JNumber(2)), ("name", JString("Bob"))]]
    ensures Contains(SummarizeResults(rows), "2")
    ensures Contains(SummarizeResults(rows), "id") && Contains(SummarizeResults(rows), "name")
  {
    SummaryCount(rows);
    assert NatToString(|rows|) == "2";
    SummaryColumns(rows, 0);
    SummaryColumns(rows, 1);
  }
}
