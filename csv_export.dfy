/**
 * The calendar export of `GET /api/export/csv` (server/routes.ts:178-185): a
 * fixed header line, then one line per content item with its five cells in
 * double quotes, the lines joined by line feeds.  Cell text is written as it
 * is: a double quote inside a cell is not doubled.
 *
 * Next to the writer sits a reader of records made of quoted fields, as
 * section 2 of RFC 4180 describes them; the lemmas say which exports it
 * reads back and what happens to one it does not.
 */
module CsvExport {
  import opened Wrappers
  import opened Schema
  import opened Text

  const ColumnNames: seq<string> := ["Title", "Description", "Platform", "Scheduled Date", "Status"]

  /** `Title,Description,Platform,Scheduled Date,Status`. */
  const HeaderLine: string := Join(ColumnNames, ",")

  /** The header of the export, with its line feed. */
  const Header: string := HeaderLine + "\n"

  /** `item.description || ''`: NULL and the empty string both give an empty cell. */
  function DescriptionCell(d: Option<string>): (c: string)
    ensures d.None? ==> c == ""
    ensures d.Some? ==> c == d.value
  {
    d.GetOr("")
  }

  /** The five cells of an item's line, in column order; `dateString` is how a Date prints in a template literal. */
  function Cells(item: ContentItem, dateString: Date -> string): (cs: seq<string>)
    ensures |cs| == |ColumnNames|
  {
    [item.title, DescriptionCell(item.description), item.platform, dateString(item.scheduledDate), item.status]
  }

  /** `"<s>"`, with nothing inside escaped. */
  function Quoted(s: string): string
  {
    "\"" + s + "\""
  }

  function QuotedCells(cells: seq<string>): (qs: seq<string>)
    ensures |qs| == |cells|
    ensures forall i :: 0 <= i < |cells| ==> qs[i] == Quoted(cells[i])
  {
    seq(|cells|, i requires 0 <= i < |cells| => Quoted(cells[i]))
  }

  /** One line of the export: the quoted cells separated by commas. */
  function Row(item: ContentItem, dateString: Date -> string): (r: string)
    ensures |r| >= |item.title| + 2 && r[..|item.title| + 2] == Quoted(item.title)
  {
    Join(QuotedCells(Cells(item, dateString)), ",")
  }

  /** `items.map(...)`: one line per item, in the order the items came. */
  function Rows(items: seq<ContentItem>, dateString: Date -> string): (rows: seq<string>)
    ensures |rows| == |items|
    ensures forall i :: 0 <= i < |items| ==> rows[i] == Row(items[i], dateString)
  {
    seq(|items|, i requires 0 <= i < |items| => Row(items[i], dateString))
  }

  /** The body the export sends: header, then the lines joined by line feeds, with no line feed after the last. */
  function Csv(items: seq<ContentItem>, dateString: Date -> string): (r: string)
    ensures |r| >= |Header| && r[..|Header|] == Header
  {
    Header + Join(Rows(items, dateString), "\n")
  }

  // ----- Reading quoted records back (RFC 4180, section 2) -----

  /**
   * The inside of a quoted field, `s` starting just after its opening quote:
   * the text up to the closing quote, a doubled quote standing for one quote,
   * and what follows the closing quote.  None when the quote is never closed.
   */
  function ReadQuoted(s: string): (r: Option<(string, string)>)
    ensures r.Some? ==> |r.value.1| < |s|
    decreases |s|
  {
    if |s| == 0 then None
    else if s[0] == '"' then
      if |s| >= 2 && s[1] == '"' then
        match ReadQuoted(s[2..])
        case Some((c, rest)) => Some(("\"" + c, rest))
        case None => None
      else Some(("", s[1..]))
    else
      match ReadQuoted(s[1..])
      case Some((c, rest)) => Some(([s[0]] + c, rest))
      case None => None
  }

  /** A record of quoted fields separated by commas; None when it is not one. */
  function ReadRecord(s: string): (r: Option<seq<string>>)
    ensures r.Some? ==> |r.value| >= 1
    decreases |s|
  {
    if |s| == 0 || s[0] != '"' then None
    else
      match ReadQuoted(s[1..])
      case None => None
      case Some((c, rest)) =>
        if rest == "" then Some([c])
        else if rest[0] != ',' then None
        else
          match ReadRecord(rest[1..])
          case None => None
          case Some(fs) => Some([c] + fs)
  }

  /** A field without quotes inside is read up to its closing quote, when no quote follows that one. */
  lemma {:induction false} ReadQuotedPlain(c: string, rest: string)
    requires '"' !in c
    requires |rest| == 0 || rest[0] != '"'
    ensures ReadQuoted(c + "\"" + rest) == Some((c, rest))
    decreases |c|
  {
    var s := c + "\"" + rest;
    if |c| == 0 {
      assert s == "\"" + rest;
      assert s[1..] == rest;
    } else {
      assert s[0] == c[0] && s[0] != '"';
      assert s[1..] == c[1..] + "\"" + rest;
      assert '"' !in c[1..] by {
        forall i | 0 <= i < |c[1..]| ensures c[1..][i] != '"' { assert c[1..][i] == c[i + 1]; }
      }
      ReadQuotedPlain(c[1..], rest);
      assert [c[0]] + c[1..] == c;
    }
  }

  /** Quoting cells without quotes and joining them with commas is read back as those cells. */
  lemma {:induction false} ReadRecordJoin(cells: seq<string>)
    requires |cells| >= 1
    requires NoneContains(cells, '"')
    ensures ReadRecord(Join(QuotedCells(cells), ",")) == Some(cells)
    decreases |cells|
  {
    var qs := QuotedCells(cells);
    assert '"' !in cells[0];
    if |cells| == 1 {
      var s := Join(qs, ",");
      assert s == "\"" + (cells[0] + "\"" + "");
      assert s[1..] == cells[0] + "\"" + "";
      ReadQuotedPlain(cells[0], "");
      assert cells == [cells[0]];
    } else {
      var tail := Join(qs[1..], ",");
      var s := Join(qs, ",");
      assert s == "\"" + cells[0] + "\"" + "," + tail;
      assert s[1..] == cells[0] + "\"" + ("," + tail);
      ReadQuotedPlain(cells[0], "," + tail);
      assert ("," + tail)[1..] == tail;
      assert QuotedCells(cells[1..]) == qs[1..];
      assert NoneContains(cells[1..], '"') by {
        forall i | 0 <= i < |cells[1..]| ensures '"' !in cells[1..][i] { assert cells[1..][i] == cells[i + 1]; }
      }
      ReadRecordJoin(cells[1..]);
      assert [cells[0]] + cells[1..] == cells;
    }
  }

  /** A line whose cells hold no double quote reads back as the item's five cells. */
  lemma RowRoundTrip(item: ContentItem, dateString: Date -> string)
    requires NoneContains(Cells(item, dateString), '"')
    ensures ReadRecord(Row(item, dateString)) == Some(Cells(item, dateString))
  {
    ReadRecordJoin(Cells(item, dateString));
  }

  /**
   * A title holding `","` is not escaped, so its line reads back with one
   * field too many: the two halves of the title become two columns and every
   * later cell moves one column to the right.
   */
  lemma {:induction false} QuoteInTitleShiftsCells(item: ContentItem, dateString: Date -> string, a: string, b: string)
    requires item.title == a + "\",\"" + b
    requires '"' !in a && '"' !in b
    requires NoneContains(Cells(item, dateString)[1..], '"')
    ensures ReadRecord(Row(item, dateString)) == Some([a, b] + Cells(item, dateString)[1..])
    ensures |ReadRecord(Row(item, dateString)).value| == |ColumnNames| + 1
  {
    var cells := Cells(item, dateString);
    var shifted := [a, b] + cells[1..];
    assert shifted[2..] == cells[1..];
    assert QuotedCells(cells)[1..] == QuotedCells(shifted)[2..];
    var rest := Join(QuotedCells(cells)[1..], ",");
    assert Join(QuotedCells(shifted)[1..], ",") == Quoted(b) + "," + rest;
    assert Quoted(item.title) == Quoted(a) + "," + Quoted(b);
    assert Row(item, dateString) == Join(QuotedCells(shifted), ",");
    assert NoneContains(shifted, '"') by {
      forall i | 0 <= i < |shifted| ensures '"' !in shifted[i] {
        if i >= 2 { assert shifted[i] == cells[1..][i - 2]; }
      }
    }
    ReadRecordJoin(shifted);
  }

  // ----- Lines of the export -----

  /** The header line splits at its commas into the column names. */
  lemma HeaderColumns()
    ensures Split(HeaderLine, ',') == ColumnNames
  {
    assert NoneContains(ColumnNames, ',');
    SplitJoin(ColumnNames, ',');
  }

  /** With no items the export is the header alone, line feed included. */
  lemma EmptyExport(dateString: Date -> string)
    ensures Csv([], dateString) == Header
  {
    assert Join(Rows([], dateString), "\n") == "";
  }

  /** A line holds no line feed when no cell does. */
  lemma {:induction false} RowSingleLine(item: ContentItem, dateString: Date -> string)
    requires NoneContains(Cells(item, dateString), '\n')
    ensures '\n' !in Row(item, dateString)
  {
    var cells := Cells(item, dateString);
    var qs := QuotedCells(cells);
    forall i | 0 <= i < |qs| ensures '\n' !in qs[i] {
      AbsentFromConcat("\"", cells[i], '\n');
      AbsentFromConcat("\"" + cells[i], "\"", '\n');
    }
    AbsentFromJoin(qs, ",", '\n');
  }

  lemma {:induction false} HeaderSingleLine()
    ensures '\n' !in HeaderLine
  {
    assert NoneContains(ColumnNames, '\n');
    AbsentFromJoin(ColumnNames, ",", '\n');
  }

  /**
   * N items whose cells hold no line feed give N + 1 lines: the header line,
   * then the items' lines in order, with N line feeds in all and none at the end.
   */
  lemma {:induction false} CsvLines(items: seq<ContentItem>, dateString: Date -> string)
    requires |items| >= 1
    requires forall i :: 0 <= i < |items| ==> NoneContains(Cells(items[i], dateString), '\n')
    ensures Lines(Csv(items, dateString)) == [HeaderLine] + Rows(items, dateString)
    ensures |Lines(Csv(items, dateString))| == |items| + 1
    ensures Count(Csv(items, dateString), '\n') == |items|
  {
    var rows := Rows(items, dateString);
    forall i | 0 <= i < |rows| ensures '\n' !in rows[i] {
      RowSingleLine(items[i], dateString);
    }
    assert NoneContains(rows, '\n');
    SplitJoin(rows, '\n');
    HeaderSingleLine();
    SplitAtFirst(HeaderLine, '\n', Join(rows, "\n"));
    assert Csv(items, dateString) == HeaderLine + ['\n'] + Join(rows, "\n");
    SplitCount(Csv(items, dateString), '\n');
  }

  /**
   * An export whose cells hold no line feed and no double quote is read back
   * line by line: the header, then each item's five cells in item order.
   */
  lemma {:induction false} CsvRoundTrip(items: seq<ContentItem>, dateString: Date -> string)
    requires |items| >= 1
    requires forall i :: 0 <= i < |items| ==> NoneContains(Cells(items[i], dateString), '\n')
    requires forall i :: 0 <= i < |items| ==> NoneContains(Cells(items[i], dateString), '"')
    ensures |Lines(Csv(items, dateString))| == |items| + 1
    ensures Split(Lines(Csv(items, dateString))[0], ',') == ColumnNames
    ensures forall i :: 0 <= i < |items| ==>
      ReadRecord(Lines(Csv(items, dateString))[i + 1]) == Some(Cells(items[i], dateString))
  {
    CsvLines(items, dateString);
    HeaderColumns();
    forall i | 0 <= i < |items|
      ensures ReadRecord(Lines(Csv(items, dateString))[i + 1]) == Some(Cells(items[i], dateString))
    {
      assert Lines(Csv(items, dateString))[i + 1] == Row(items[i], dateString);
      RowRoundTrip(items[i], dateString);
    }
  }
}
