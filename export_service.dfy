/** The CSV text `exportToCsv` in src/utils/exportService.ts builds from
    the daily records: a fixed header line, then one line per record in
    input order, fields separated by ',' and lines by '\n'. Handing the
    text to the browser as a download is not modelled. */
module ExportService {
  import opened Common
  import opened Market
  import Text
  import Dates

  /** The header cells, in column order. */
  const Headers: seq<string> := ["Date", "Open", "High", "Low", "Close", "Volume", "Change %", "Volatility"]

  /** `row.volatility ? row.volatility.toFixed(4) : ''`: an absent or zero
      volatility leaves the cell empty. */
  function VolatilityCell(v: Option<real>): (cell: string)
    ensures cell == "" <==> v.None? || v.value == 0.0
  {
    if v.Some? && v.value != 0.0 then Text.ToFixed(v.value, 4) else ""
  }

  /** Numbers rendered with `toFixed(digits)`, in order. */
  function FixedCells(xs: seq<real>, digits: nat): (cells: seq<string>)
    ensures |cells| == |xs|
    ensures forall k :: 0 <= k < |xs| ==> cells[k] == Text.ToFixed(xs[k], digits)
  {
    if xs == [] then []
    else FixedCells(xs[..|xs| - 1], digits) + [Text.ToFixed(xs[|xs| - 1], digits)]
  }

  /** The cells of one record: the `YYYY-MM-DD` date, then open, high,
      low, close, volume and change to two decimals, then the volatility
      cell. */
  function Cells(r: DailyMetrics): (cells: seq<string>)
    ensures |cells| == |Headers|
    ensures cells[0] == Dates.IsoDate(r.date)
    ensures forall k :: 1 <= k <= 6 ==>
              cells[k] == Text.ToFixed([r.open, r.high, r.low, r.close, r.volume, r.changePercent][k - 1], 2)
    ensures cells[7] == VolatilityCell(r.volatility)
  {
    [Dates.IsoDate(r.date)]
      + FixedCells([r.open, r.high, r.low, r.close, r.volume, r.changePercent], 2)
      + [VolatilityCell(r.volatility)]
  }

  /** A cell that holds neither the field separator nor a line break. */
  ghost predicate Plain(cell: string)
  {
    ',' !in cell && '\n' !in cell
  }

  /** A number rendered with `toFixed` is a plain cell. */
  lemma FixedIsPlain(x: real, digits: nat)
    ensures Plain(Text.ToFixed(x, digits))
  {
    var t := Text.ToFixed(x, digits);
    forall i | 0 <= i < |t| ensures t[i] != ',' && t[i] != '\n' {
      assert Text.IsDigit(t[i]) || t[i] == '.' || t[i] == '-';
    }
  }

  lemma {:induction false} FixedCellsArePlain(xs: seq<real>, digits: nat)
    ensures forall k :: 0 <= k < |xs| ==> Plain(FixedCells(xs, digits)[k])
  {
    if xs != [] {
      FixedCellsArePlain(xs[..|xs| - 1], digits);
      FixedIsPlain(xs[|xs| - 1], digits);
    }
  }

  /** A record has one cell per header, and every cell is plain. */
  lemma CellsArePlain(r: DailyMetrics)
    ensures |Cells(r)| == |Headers|
    ensures forall k :: 0 <= k < |Cells(r)| ==> Plain(Cells(r)[k])
  {
    var xs := [r.open, r.high, r.low, r.close, r.volume, r.changePercent];
    var fixed := FixedCells(xs, 2);
    FixedCellsArePlain(xs, 2);
    var last := VolatilityCell(r.volatility);
    assert Plain(last) by {
      if r.volatility.Some? && r.volatility.value != 0.0 {
        FixedIsPlain(r.volatility.value, 4);
      }
    }
    var c := Cells(r);
    forall k | 0 <= k < |c| ensures Plain(c[k]) {
      if 1 <= k <= 6 {
        assert c[k] == fixed[k - 1];
      }
    }
  }

  /** One data line: the cells joined by ','. No cell holds a ',' or a
      line break, so the line splits back into exactly its cells. */
  function Row(r: DailyMetrics): (row: string)
    ensures Text.Split(row, ',') == Cells(r)
    ensures '\n' !in row
  {
    var cells := Cells(r);
    CellsArePlain(r);
    Text.SplitJoin(cells, ',');
    JoinKeepsOut(cells, ',', '\n');
    Text.Join(cells, ',')
  }

  function HeaderRow(): string
  {
    Text.Join(Headers, ',')
  }

  /** The lines of the file: the header, then one row per record in input
      order (`data.map(...)`). */
  function Lines(data: seq<DailyMetrics>): seq<string>
  {
    [HeaderRow()] + Rows(data)
  }

  /** One row per record, in input order (`data.map(...)`). */
  function Rows(data: seq<DailyMetrics>): (rows: seq<string>)
    ensures |rows| == |data|
  {
    seq(|data|, k requires 0 <= k < |data| => Row(data[k]))
  }

  /** `exportToCsv` up to the download: no text at all for no records,
      otherwise the lines joined by '\n'. */
  function CsvContent(data: seq<DailyMetrics>): (csv: Option<string>)
    ensures csv.None? <==> |data| == 0
  {
    if |data| == 0 then None else Some(Text.Join(Lines(data), '\n'))
  }

  /** Every header is a plain cell. */
  lemma HeadersArePlain()
    ensures forall k :: 0 <= k < |Headers| ==> Plain(Headers[k])
  {
    forall k | 0 <= k < |Headers| ensures Plain(Headers[k]) {
      var h := Headers[k];
      assert h == "Date" || h == "Open" || h == "High" || h == "Low" || h == "Close"
        || h == "Volume" || h == "Change %" || h == "Volatility";
    }
  }

  /** The header line splits at ',' back into the eight headers, and holds
      no line break. */
  lemma HeaderSplits()
    ensures Text.Split(HeaderRow(), ',') == Headers
    ensures '\n' !in HeaderRow()
  {
    HeadersArePlain();
    Text.SplitJoin(Headers, ',');
    JoinKeepsOut(Headers, ',', '\n');
  }

  /** No line contains a line break, so splitting the file at '\n' gives
      back the lines: the header, then one row per record in input order. */
  lemma CsvLines(data: seq<DailyMetrics>)
    requires |data| > 0
    ensures Text.Split(CsvContent(data).value, '\n') == Lines(data)
    ensures |Lines(data)| == |data| + 1
  {
    LinesHaveNoBreak(data);
    Text.SplitJoin(Lines(data), '\n');
  }

  lemma LinesHaveNoBreak(data: seq<DailyMetrics>)
    ensures forall k :: 0 <= k < |Lines(data)| ==> '\n' !in Lines(data)[k]
  {
    var rows := Rows(data);
    HeaderHasNoBreak();
    forall i | 0 <= i < |rows| ensures '\n' !in rows[i] {
      assert rows[i] == Row(data[i]);
    }
    PrependKeepsOut(HeaderRow(), rows, '\n');
  }

  /** A line list keeps a character out when its first line and all the
      others do. */
  lemma PrependKeepsOut(first: string, rest: seq<string>, c: char)
    requires c !in first
    requires forall i :: 0 <= i < |rest| ==> c !in rest[i]
    ensures forall k :: 0 <= k < |[first] + rest| ==> c !in ([first] + rest)[k]
  {
  }

  lemma HeaderHasNoBreak()
    ensures '\n' !in HeaderRow()
  {
    HeadersArePlain();
    JoinKeepsOut(Headers, ',', '\n');
  }

  /** Joining pieces that lack a character `c` with a separator other than
      `c` gives a text without `c`. */
  lemma {:induction false} JoinKeepsOut(parts: seq<string>, sep: char, c: char)
    requires |parts| >= 1 && sep != c
    requires forall k :: 0 <= k < |parts| ==> c !in parts[k]
    ensures c !in Text.Join(parts, sep)
  {
    if |parts| > 1 {
      JoinKeepsOut(parts[1..], sep, c);
    }
  }
}
