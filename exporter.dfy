/** The CSV export of transactions: a header line, then one line per
    transaction in input order, every data cell in double quotes, cells
    separated by commas and lines by a line feed.  Date, timestamp and number
    formatting are library calls and come in as `Formatters`. */
module Exporter {
  import opened Calendar
  import opened Domain
  import opened Text
  import Projections

  /** `format(d, 'yyyy-MM-dd')`, `format(t, 'yyyy-MM-dd HH:mm:ss')` and
      `Number.prototype.toString`. */
  datatype Formatters = Formatters(day: Date -> string, stamp: int -> string, number: real -> string)

  /** The export window the caller passes; the serialiser never reads it. */
  datatype DateRange = DateRange(from: Date, to: Date)

  const Headers: seq<string> := ["Date", "Type", "Amount", "Currency", "Stream", "Description", "Tags", "Created At"]

  /** `headers.join(',')`. */
  const HeaderLine: string := Join(Headers, ",")

  function KindName(k: TxType): string {
    match k
    case Income => "income"
    case Expense => "expense"
  }

  /** `stream?.name || 'Unknown'`: the first matching stream's name, unless
      there is none or its name is empty. */
  function StreamCell(streams: seq<Stream>, id: string): (cell: string)
  {
    match Projections.FindStream(streams, id)
    case Some(s) => if s.name != "" then s.name else "Unknown"
    case None => "Unknown"
  }

  /** The stream cell is never empty: it is the first matching stream's name,
      or "Unknown" when no stream has the id. */
  lemma StreamCellIsFirstMatch(streams: seq<Stream>, id: string)
    ensures StreamCell(streams, id) != ""
    ensures (forall i :: 0 <= i < |streams| ==> streams[i].id != id) ==> StreamCell(streams, id) == "Unknown"
    ensures forall i :: (0 <= i < |streams| && streams[i].id == id && streams[i].name != "" &&
                         (forall j :: 0 <= j < i ==> streams[j].id != id)) ==> StreamCell(streams, id) == streams[i].name
  {
  }

  /** The eight cells of a transaction's row, in header order. */
  function Row(tx: Transaction, streams: seq<Stream>, fmt: Formatters): seq<string> {
    [fmt.day(tx.applicabilityDate), KindName(tx.kind), fmt.number(tx.amount), tx.currency,
     StreamCell(streams, tx.streamId), OrElse(tx.description, ""), Join(tx.tags, "; "),
     fmt.stamp(tx.createdAt)]
  }

  function Quote(cell: string): string {
    "\"" + cell + "\""
  }

  /** A data line: the quoted cells joined by commas. */
  function DataLine(tx: Transaction, streams: seq<Stream>, fmt: Formatters): string {
    var row := Row(tx, streams, fmt);
    Join(seq(|row|, i requires 0 <= i < |row| => Quote(row[i])), ",")
  }

  /** One data line per transaction, in input order. */
  function DataLines(txs: seq<Transaction>, streams: seq<Stream>, fmt: Formatters): (lines: seq<string>)
    ensures |lines| == |txs|
    ensures forall i :: 0 <= i < |txs| ==> lines[i] == DataLine(txs[i], streams, fmt)
  {
    seq(|txs|, i requires 0 <= i < |txs| => DataLine(txs[i], streams, fmt))
  }

  /** The lines of the export: the header line, then one per transaction. */
  function Lines(txs: seq<Transaction>, streams: seq<Stream>, fmt: Formatters): (lines: seq<string>)
    ensures |lines| == |txs| + 1 && lines[0] == HeaderLine
    ensures forall i :: 0 <= i < |txs| ==> lines[i + 1] == DataLine(txs[i], streams, fmt)
  {
    var data := DataLines(txs, streams, fmt);
    assert forall i :: 0 <= i < |txs| ==> ([HeaderLine] + data)[i + 1] == data[i];
    [HeaderLine] + data
  }

  /** `exportToCSV`. */
  function ExportToCsv(txs: seq<Transaction>, streams: seq<Stream>, dateRange: DateRange, fmt: Formatters): string {
    Join(Lines(txs, streams, fmt), "\n")
  }

  /** A character that occurs neither in the separator nor in any part does
      not occur in the joined text. */
  lemma {:induction false} JoinAvoids(parts: seq<string>, sep: string, c: char)
    requires c !in sep
    requires forall i :: 0 <= i < |parts| ==> c !in parts[i]
    ensures c !in Join(parts, sep)
  {
    if |parts| > 1 {
      JoinAvoids(parts[1..], sep, c);
    }
  }

  /** No cell of the transaction's row holds character `c`. */
  predicate CellsAvoid(tx: Transaction, streams: seq<Stream>, fmt: Formatters, c: char) {
    forall i :: 0 <= i < 8 ==> c !in Row(tx, streams, fmt)[i]
  }

  /** Cutting the export at line feeds gives back the header line and one
      line per transaction, in input order, whenever no cell holds a line
      feed; the window argument plays no part. */
  lemma CsvLines(txs: seq<Transaction>, streams: seq<Stream>, dateRange: DateRange, fmt: Formatters)
    requires forall i :: 0 <= i < |txs| ==> CellsAvoid(txs[i], streams, fmt, '\n')
    ensures Split(ExportToCsv(txs, streams, dateRange, fmt), '\n') == Lines(txs, streams, fmt)
    ensures |Split(ExportToCsv(txs, streams, dateRange, fmt), '\n')| == |txs| + 1
  {
    var lines := Lines(txs, streams, fmt);
    HeaderLineAvoidsLineFeed();
    forall i | 0 <= i < |lines|
      ensures '\n' !in lines[i]
    {
      if i > 0 {
        DataLineAvoids(txs[i - 1], streams, fmt, '\n');
      }
    }
    assert "\n" == ['\n'];
    SplitJoin(lines, '\n');
  }

  /** No header holds a line feed. */
  lemma HeaderLineAvoidsLineFeed()
    ensures '\n' !in HeaderLine
  {
    forall i | 0 <= i < |Headers|
      ensures '\n' !in Headers[i]
    {
    }
    JoinAvoids(Headers, ",", '\n');
  }

  lemma DataLineAvoids(tx: Transaction, streams: seq<Stream>, fmt: Formatters, c: char)
    requires c != ',' && c != '"' && CellsAvoid(tx, streams, fmt, c)
    ensures c !in DataLine(tx, streams, fmt)
  {
    var row := Row(tx, streams, fmt);
    var quoted := seq(|row|, i requires 0 <= i < |row| => Quote(row[i]));
    forall i | 0 <= i < |quoted|
      ensures c !in quoted[i]
    {
      assert quoted[i] == "\"" + row[i] + "\"";
    }
    JoinAvoids(quoted, ",", c);
  }

  /** The header line is the eight headers, comma-separated. */
  lemma HeaderCells()
    ensures Split(HeaderLine, ',') == Headers
  {
    assert "," == [','];
    SplitJoin(Headers, ',');
  }

  /** A data line cut at commas gives the row's eight cells, each wrapped in
      double quotes, whenever no cell holds a comma; the fifth is the
      stream's name, or "Unknown" for a stream that is not in the list. */
  lemma DataCells(tx: Transaction, streams: seq<Stream>, fmt: Formatters)
    requires CellsAvoid(tx, streams, fmt, ',')
    ensures |Split(DataLine(tx, streams, fmt), ',')| == 8
    ensures forall i :: 0 <= i < 8 ==>
      Split(DataLine(tx, streams, fmt), ',')[i] == "\"" + Row(tx, streams, fmt)[i] + "\""
    ensures Split(DataLine(tx, streams, fmt), ',')[4] == "\"" + StreamCell(streams, tx.streamId) + "\""
    ensures Split(DataLine(tx, streams, fmt), ',')[6] == "\"" + Join(tx.tags, "; ") + "\""
  {
    var row := Row(tx, streams, fmt);
    var quoted := seq(|row|, i requires 0 <= i < |row| => Quote(row[i]));
    forall i | 0 <= i < |quoted|
      ensures ',' !in quoted[i]
    {
      assert quoted[i] == "\"" + row[i] + "\"";
    }
    assert "," == [','];
    SplitJoin(quoted, ',');
  }
}
