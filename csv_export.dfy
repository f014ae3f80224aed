/**
 * The CSV encoding the cashier uses for its pending-bills export: every cell is wrapped in double
 * quotes with each inner quote doubled, cells are joined by commas and records by line feeds.
 * The reader below is the encoding's partner: it reads such a text back into its records.
 */
module CsvExport {
  import opened Wrappers
  import opened Js

  const DQuote: char := '"'
  const Comma: char := ','
  const LineFeed: char := '\n'

  /** `String(c).replace(/"/g, '""')` */
  function EscapeQuotes(c: string): (e: string)
    ensures |e| >= |c|
  {
    if c == [] then []
    else (if c[0] == DQuote then [DQuote, DQuote] else [c[0]]) + EscapeQuotes(c[1..])
  }

  /** One cell as written: `"` + escaped text + `"`. */
  function QuoteCell(c: string): string
  {
    [DQuote] + EscapeQuotes(c) + [DQuote]
  }

  /** `r.map(quote)` */
  function QuoteAll(cells: seq<string>): (q: seq<string>)
    ensures |q| == |cells|
  {
    if cells == [] then [] else [QuoteCell(cells[0])] + QuoteAll(cells[1..])
  }

  /** One record: its quoted cells joined by `,`. */
  function Record(cells: seq<string>): string
  {
    Join(QuoteAll(cells), [Comma])
  }

  /** `rows.map(record)` */
  function RecordAll(rows: seq<seq<string>>): (r: seq<string>)
    ensures |r| == |rows|
  {
    if rows == [] then [] else [Record(rows[0])] + RecordAll(rows[1..])
  }

  /** The whole file: records joined by `\n`. */
  function Csv(rows: seq<seq<string>>): (r: string)
    ensures rows == [] ==> r == []
    ensures |rows| == 1 ==> r == Record(rows[0])
  {
    Join(RecordAll(rows), [LineFeed])
  }

  /** Reads the text of a quoted cell after its opening quote: a doubled quote is one quote, a
      single quote closes the cell. Gives the cell and what follows the closing quote. */
  function Unescape(t: string): (r: Option<(string, string)>)
    ensures r.Some? ==> |r.value.1| < |t|
  {
    if t == [] then None
    else if t[0] == DQuote then
      if |t| >= 2 && t[1] == DQuote then
        match Unescape(t[2..])
        case None => None
        case Some((c, rest)) => Some(([DQuote] + c, rest))
      else Some(([], t[1..]))
    else
      match Unescape(t[1..])
      case None => None
      case Some((c, rest)) => Some(([t[0]] + c, rest))
  }

  /** Reads the comma-separated quoted cells of one record, up to the first character after a
      closing quote that is not a comma. */
  function ParseCells(t: string): (r: Option<(seq<string>, string)>)
    ensures r.Some? ==> |r.value.1| < |t|
    decreases |t|
  {
    if t == [] || t[0] != DQuote then None
    else
      match Unescape(t[1..])
      case None => None
      case Some((c, rest)) =>
        if rest != [] && rest[0] == Comma then
          match ParseCells(rest[1..])
          case None => None
          case Some((cs, after)) => Some(([c] + cs, after))
        else Some(([c], rest))
  }

  /** Reads a whole file: records separated by line feeds, nothing left over. */
  function ParseRows(t: string): Option<seq<seq<string>>>
    decreases |t|
  {
    match ParseCells(t)
    case None => None
    case Some((cells, rest)) =>
      if rest == [] then Some([cells])
      else if rest[0] == LineFeed then
        match ParseRows(rest[1..])
        case None => None
        case Some(rows) => Some([cells] + rows)
      else None
  }

  /** A cell's escaped text followed by its closing quote reads back as the cell, provided what
      comes next does not start with a quote (as a comma, a line feed or the end never do). */
  lemma {:induction false} UnescapeEscape(c: string, rest: string)
    requires rest == [] || rest[0] != DQuote
    ensures Unescape(EscapeQuotes(c) + [DQuote] + rest) == Some((c, rest))
    decreases |c|
  {
    var t := EscapeQuotes(c) + [DQuote] + rest;
    if c == [] {
      assert t == [DQuote] + rest;
      assert t[1..] == rest;
    } else {
      UnescapeEscape(c[1..], rest);
      var tail := EscapeQuotes(c[1..]) + [DQuote] + rest;
      if c[0] == DQuote {
        assert t == [DQuote, DQuote] + tail;
        assert t[2..] == tail;
        assert [DQuote] + c[1..] == c;
      } else {
        assert t == [c[0]] + tail;
        assert t[1..] == tail;
        assert [c[0]] + c[1..] == c;
      }
    }
  }

  /** A quoted cell followed by text that does not start with a quote: the reader finds the
      opening quote and then the cell. */
  lemma QuotedCell(c: string, after: string)
    requires after == [] || after[0] != DQuote
    ensures var t := QuoteCell(c) + after;
            t != [] && t[0] == DQuote && Unescape(t[1..]) == Some((c, after))
  {
    var t := QuoteCell(c) + after;
    assert t == [DQuote] + (EscapeQuotes(c) + [DQuote] + after);
    assert t[1..] == EscapeQuotes(c) + [DQuote] + after;
    UnescapeEscape(c, after);
  }

  /** A record of several cells is its first quoted cell, a comma and the record of the rest. */
  lemma RecordSplit(cells: seq<string>)
    requires |cells| > 1
    ensures Record(cells) == QuoteCell(cells[0]) + [Comma] + Record(cells[1..])
  {
    var q := QuoteAll(cells);
    assert q[0] == QuoteCell(cells[0]);
    assert q[1..] == QuoteAll(cells[1..]);
  }

  /** A cell that is not followed by a comma ends the record. */
  lemma LastCell(t: string, c: string, rest: string)
    requires t != [] && t[0] == DQuote && Unescape(t[1..]) == Some((c, rest))
    requires rest == [] || rest[0] != Comma
    ensures ParseCells(t) == Some(([c], rest))
  {
  }

  /** A cell followed by a comma is the first of the cells read after the comma. */
  lemma NextCell(t: string, c: string, rest: string, cs: seq<string>, after: string)
    requires t != [] && t[0] == DQuote && Unescape(t[1..]) == Some((c, rest))
    requires rest != [] && rest[0] == Comma && ParseCells(rest[1..]) == Some((cs, after))
    ensures ParseCells(t) == Some(([c] + cs, after))
  {
  }

  /** A one-cell record reads back as that cell. */
  lemma SingleRecordParse(cells: seq<string>, rest: string)
    requires |cells| == 1
    requires rest == [] || (rest[0] != Comma && rest[0] != DQuote)
    ensures ParseCells(Record(cells) + rest) == Some((cells, rest))
  {
    var q := QuoteAll(cells);
    assert q == [QuoteCell(cells[0])];
    assert Record(cells) == QuoteCell(cells[0]);
    QuotedCell(cells[0], rest);
    LastCell(Record(cells) + rest, cells[0], rest);
    assert [cells[0]] == cells;
  }

  /** A quoted cell, a comma and cells that read back read back as one more cell. */
  lemma ConsCell(c: string, tail: string, cs: seq<string>, after: string)
    requires ParseCells(tail) == Some((cs, after))
    ensures ParseCells(QuoteCell(c) + ([Comma] + tail)) == Some(([c] + cs, after))
  {
    var rest := [Comma] + tail;
    QuotedCell(c, rest);
    assert rest[1..] == tail;
    NextCell(QuoteCell(c) + rest, c, rest, cs, after);
  }

  lemma Regroup(x: string, head: string, body: string, rest: string)
    requires x == head + [Comma] + body
    ensures x + rest == head + ([Comma] + (body + rest))
  {
  }

  lemma HeadTail<T>(s: seq<T>)
    requires s != []
    ensures [s[0]] + s[1..] == s
  {
  }

  /** If the record of the later cells reads back, so does the whole record. */
  lemma RecordParseStep(cells: seq<string>, rest: string)
    requires |cells| > 1
    requires ParseCells(Record(cells[1..]) + rest) == Some((cells[1..], rest))
    ensures ParseCells(Record(cells) + rest) == Some((cells, rest))
  {
    RecordSplit(cells);
    Regroup(Record(cells), QuoteCell(cells[0]), Record(cells[1..]), rest);
    ConsCell(cells[0], Record(cells[1..]) + rest, cells[1..], rest);
    HeadTail(cells);
  }

  /** The record of a non-empty row reads back as that row, whatever follows that does not
      start with a comma or a quote. */
  lemma {:induction false} RecordParse(cells: seq<string>, rest: string)
    requires cells != []
    requires rest == [] || (rest[0] != Comma && rest[0] != DQuote)
    ensures ParseCells(Record(cells) + rest) == Some((cells, rest))
    decreases |cells|
  {
    if |cells| == 1 {
      SingleRecordParse(cells, rest);
    } else {
      RecordParse(cells[1..], rest);
      RecordParseStep(cells, rest);
    }
  }

  /** Every record begins with a quote. */
  lemma RecordStartsWithQuote(cells: seq<string>)
    requires cells != []
    ensures |Record(cells)| > 0 && Record(cells)[0] == DQuote
  {
    var q := QuoteAll(cells);
    assert q[0] == QuoteCell(cells[0]);
    if |cells| > 1 {
      assert Record(cells) == q[0] + [Comma] + Join(q[1..], [Comma]);
    }
  }

  /** A file of several records is the first record, a line feed and the file of the rest. */
  lemma CsvSplit(rows: seq<seq<string>>)
    requires |rows| > 1
    ensures Csv(rows) == Record(rows[0]) + ([LineFeed] + Csv(rows[1..]))
  {
    var r := RecordAll(rows);
    assert r[0] == Record(rows[0]);
    assert r[1..] == RecordAll(rows[1..]);
  }

  /** A record that reaches the end of the text is the last row. */
  lemma LastRow(t: string, cells: seq<string>)
    requires ParseCells(t) == Some((cells, []))
    ensures ParseRows(t) == Some([cells])
  {
  }

  /** A record followed by a line feed is the first of the rows read after it. */
  lemma NextRow(t: string, cells: seq<string>, rest: string, rows: seq<seq<string>>)
    requires ParseCells(t) == Some((cells, rest))
    requires rest != [] && rest[0] == LineFeed && ParseRows(rest[1..]) == Some(rows)
    ensures ParseRows(t) == Some([cells] + rows)
  {
  }

  /** The reader undoes the writer: a file of non-empty rows reads back as exactly those rows,
      inner quotes, commas and line feeds included. */
  lemma {:induction false} CsvRoundTrip(rows: seq<seq<string>>)
    requires rows != []
    requires forall i :: 0 <= i < |rows| ==> rows[i] != []
    ensures ParseRows(Csv(rows)) == Some(rows)
    decreases |rows|
  {
    if |rows| == 1 {
      var r := RecordAll(rows);
      assert r == [Record(rows[0])];
      assert Csv(rows) == Record(rows[0]) + [];
      RecordParse(rows[0], []);
      LastRow(Csv(rows), rows[0]);
      assert [rows[0]] == rows;
    } else {
      var after := [LineFeed] + Csv(rows[1..]);
      CsvSplit(rows);
      RecordParse(rows[0], after);
      assert after[1..] == Csv(rows[1..]);
      CsvRoundTrip(rows[1..]);
      NextRow(Csv(rows), rows[0], after, rows[1..]);
      HeadTail(rows);
    }
  }
}
