/**
 * The spreadsheet handler: which spreadsheet and worksheet are targeted, and
 * where a transcript is saved — a cell of the selected worksheet, a row of
 * the local CSV file, or nowhere when the cell address does not match.
 * The spreadsheet service is represented by the listings it returns and by
 * whether a cell write succeeds; handles are plain values.
 */
module Sheets {
  import opened Util
  import opened CellAddress

  datatype Spreadsheet = Spreadsheet(title: string, id: string)
  datatype Worksheet = Worksheet(title: string, id: nat)

  /** What a listing call to the service produced: the items, or an exception. */
  datatype Listing<T> = Listed(items: seq<T>) | ListFailed

  /** The list the handler works with: the listed items, or `[]` when the call failed. */
  function Items<T>(l: Listing<T>): seq<T> {
    if l.Listed? then l.items else []
  }

  /** The titles of a listing, in order (`[x['title'] for x in items]`). */
  function Titles<T>(items: seq<T>, title: T -> string): (r: seq<string>)
    ensures |r| == |items| && forall i :: 0 <= i < |items| ==> r[i] == title(items[i])
  {
    seq(|items|, i requires 0 <= i < |items| => title(items[i]))
  }

  function SpreadsheetTitle(s: Spreadsheet): string { s.title }
  function SheetTitle(s: Worksheet): string { s.title }

  function SpreadsheetTitles(s: seq<Spreadsheet>): seq<string> { Titles(s, SpreadsheetTitle) }
  function SheetTitles(s: seq<Worksheet>): seq<string> { Titles(s, SheetTitle) }

  /** Index of the first title equal to `t`, if any. */
  function FirstIndex(titles: seq<string>, t: string): (r: Option<nat>)
    ensures r.Some? ==> r.value < |titles| && titles[r.value] == t
    ensures r.Some? ==> forall k :: 0 <= k < r.value ==> titles[k] != t
    ensures r.None? <==> t !in titles
  {
    if titles == [] then None
    else if titles[0] == t then Some(0)
    else match FirstIndex(titles[1..], t)
      case None => None
      case Some(k) => Some(k + 1)
  }

  /** One `update_cell(row, col, value)` call on a worksheet. */
  datatype CellUpdate = CellUpdate(sheet: Worksheet, row: nat, col: nat, value: string)

  /** A row of the local CSV file: the header, or (timestamp, transcript, confidence). */
  datatype CsvRow = Header | Record(timestamp: string, text: string, confidence: real)

  /** Where one save went. */
  datatype SaveAction = Written(update: CellUpdate) | Fallback(record: CsvRow) | Dropped

  /** The clock reading and the outcomes of the two writes a save may attempt. */
  datatype SinkEnv = SinkEnv(timestamp: string, sheetWriteOk: bool, localWritable: bool)

  /**
   * The routing of a save. With a worksheet selected and a matching address,
   * exactly the text goes to (row, column); a failed write falls back to the
   * local file; an address that does not match is dropped without fallback.
   * Without a worksheet the save goes to the local file.
   */
  function PlanSave(sheet: Option<Worksheet>, text: string, confidence: real, target: string, env: SinkEnv): (a: SaveAction)
    ensures sheet.None? ==> a == Fallback(Record(env.timestamp, text, confidence))
    ensures sheet.Some? && Parse(target).None? ==> a == Dropped
    ensures sheet.Some? && Parse(target).Some? && !env.sheetWriteOk ==> a == Fallback(Record(env.timestamp, text, confidence))
    ensures sheet.Some? && Parse(target).Some? && env.sheetWriteOk ==>
              a.Written? && a.update.sheet == sheet.value && a.update.value == text &&
              a.update.row == Parse(target).value.row && a.update.col >= 1 &&
              ColumnLetters(a.update.col) == Parse(target).value.letters
  {
    if sheet.Some? then
      match Parse(target)
      case None => Dropped
      case Some(c) =>
        if env.sheetWriteOk then
          LettersOfColumn(c.letters);
          ColumnValueInjective(c.letters, c.letters);
          Written(CellUpdate(sheet.value, c.row, ColumnValue(c.letters), text))
        else Fallback(Record(env.timestamp, text, confidence))
    else Fallback(Record(env.timestamp, text, confidence))
  }

  /** The local file after appending `row`: a new file starts with the header row. */
  function AfterAppend(file: Option<seq<CsvRow>>, row: CsvRow): seq<CsvRow> {
    if file.None? then [Header, row] else file.value + [row]
  }

  /** A CSV file as this program writes it: the header once, at the top, then records. */
  predicate WellFormedCsv(rows: seq<CsvRow>) {
    |rows| > 0 && rows[0] == Header && forall i :: 0 < i < |rows| ==> rows[i].Record?
  }

  lemma AppendKeepsCsvShape(file: Option<seq<CsvRow>>, row: CsvRow)
    requires file.None? || WellFormedCsv(file.value)
    requires row.Record?
    ensures WellFormedCsv(AfterAppend(file, row))
    ensures AfterAppend(file, row)[|AfterAppend(file, row)| - 1] == row
    ensures |AfterAppend(file, row)| == if file.None? then 2 else |file.value| + 1
  {
  }

  class SheetHandler {
    var spreadsheet: Option<Spreadsheet>
    var sheet: Option<Worksheet>
    /** The cell writes sent to the service, in order. */
    var updates: seq<CellUpdate>
    /** The local CSV file; None while it does not exist. */
    var localFile: Option<seq<CsvRow>>

    /** Start-up leaves the worksheet unselected, whatever spreadsheet it could open. */
    constructor (connected: Option<Spreadsheet>, existing: Option<seq<CsvRow>>)
      ensures spreadsheet == connected && sheet == None
      ensures updates == [] && localFile == existing
    {
      spreadsheet := connected;
      sheet := None;
      updates := [];
      localFile := existing;
    }

    /** The handler's notion of the current cell is fixed. */
    function CurrentCellPosition(): (cell: string)
      ensures Parse(cell) == Some(Cell("A", 1)) && ColumnValue(Parse(cell).value.letters) == 1
    {
      ParseGreedy("A", "1", "");
      assert "A1" == "A" + "1" + "";
      assert "1"[..0] == "";
      "A1"
    }

    /** The listed spreadsheets; a failed listing gives none. */
    function AllSpreadsheets(listing: Listing<Spreadsheet>): (r: seq<Spreadsheet>)
      ensures listing.Listed? ==> r == listing.items
      ensures listing.ListFailed? ==> r == []
    {
      Items(listing)
    }

    /** The worksheets of the current spreadsheet; none without one. */
    function AllSheets(listing: Listing<Worksheet>): (r: seq<Worksheet>)
      reads this
      ensures spreadsheet.None? ==> r == []
      ensures spreadsheet.Some? ==> r == Items(listing)
    {
      if spreadsheet.None? then [] else Items(listing)
    }

    /**
     * Selects the first listed spreadsheet with this title and clears the
     * worksheet, so that saves go to the local file until one is chosen.
     */
    method SetTargetSpreadsheet(title: string, listing: Listing<Spreadsheet>) returns (found: bool)
      modifies this`spreadsheet, this`sheet
      ensures found <==> title in SpreadsheetTitles(Items(listing))
      ensures found ==> spreadsheet == Some(Items(listing)[FirstIndex(SpreadsheetTitles(Items(listing)), title).value])
      ensures found ==> sheet == None
      ensures !found ==> spreadsheet == old(spreadsheet) && sheet == old(sheet)
    {
      var all := AllSpreadsheets(listing);
      ghost var titles := SpreadsheetTitles(all);
      var i := 0;
      while i < |all|
        invariant 0 <= i <= |all|
        invariant forall k :: 0 <= k < i ==> titles[k] != title
      {
        if all[i].title == title {
          assert titles[i] == title;
          assert FirstIndex(titles, title) == Some(i);
          spreadsheet := Some(all[i]);
          sheet := None;
          return true;
        }
        i := i + 1;
      }
      return false;
    }

    /** Selects the first worksheet of the current spreadsheet with this title. */
    method SetTargetSheet(title: string, listing: Listing<Worksheet>) returns (found: bool)
      modifies this`sheet
      ensures spreadsheet.None? ==> !found
      ensures spreadsheet.Some? ==> (found <==> title in SheetTitles(Items(listing)))
      ensures found ==> sheet == Some(Items(listing)[FirstIndex(SheetTitles(Items(listing)), title).value])
      ensures !found ==> sheet == old(sheet)
    {
      if spreadsheet.None? {
        return false;
      }
      var worksheets := Items(listing);
      ghost var titles := SheetTitles(worksheets);
      var i := 0;
      while i < |worksheets|
        invariant 0 <= i <= |worksheets|
        invariant forall k :: 0 <= k < i ==> titles[k] != title
      {
        if worksheets[i].title == title {
          assert titles[i] == title;
          assert FirstIndex(titles, title) == Some(i);
          sheet := Some(worksheets[i]);
          return true;
        }
        i := i + 1;
      }
      return false;
    }

    /** Appends one record, preceded by the header when the file did not exist yet. */
    method SaveToLocalFile(timestamp: string, text: string, confidence: real, writable: bool)
      modifies this`localFile
      ensures writable ==> localFile == Some(AfterAppend(old(localFile), Record(timestamp, text, confidence)))
      ensures !writable ==> localFile == old(localFile)
    {
      if !writable {
        return;
      }
      var fileExists := localFile.Some?;
      var rows := if fileExists then localFile.value else [];
      if !fileExists {
        rows := rows + [Header];
      }
      rows := rows + [Record(timestamp, text, confidence)];
      assert !fileExists ==> rows == [Header, Record(timestamp, text, confidence)];
      localFile := Some(rows);
    }

    /** Saves a transcript as `PlanSave` routes it. */
    method SaveToSheet(text: string, confidence: real, target: string, env: SinkEnv) returns (action: SaveAction)
      modifies this`updates, this`localFile
      ensures action == PlanSave(sheet, text, confidence, target, env)
      ensures updates == old(updates) + (if action.Written? then [action.update] else [])
      ensures localFile == if action.Fallback? && env.localWritable
                           then Some(AfterAppend(old(localFile), action.record))
                           else old(localFile)
    {
      if sheet.Some? {
        var matched := Parse(target);
        if matched.Some? {
          var col := ColumnNumber(matched.value.letters);
          if env.sheetWriteOk {
            var update := CellUpdate(sheet.value, matched.value.row, col, text);
            updates := updates + [update];
            action := Written(update);
          } else {
            SaveToLocalFile(env.timestamp, text, confidence, env.localWritable);
            action := Fallback(Record(env.timestamp, text, confidence));
          }
        } else {
          action := Dropped;
        }
      } else {
        SaveToLocalFile(env.timestamp, text, confidence, env.localWritable);
        action := Fallback(Record(env.timestamp, text, confidence));
      }
    }
  }
}
