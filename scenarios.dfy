/**
 * Whole sessions run against concrete inputs: the wiring the start-up code
 * performs, then a sequence of clicks and thread bodies.
 */
module Scenarios {
  import opened Util
  import opened CellAddress
  import opened Settings
  import opened Sheets
  import opened Recognition
  import opened Session

  /** A capture that runs to the bound without a stop or a failed read. */
  function FullCapture(): (ticks: seq<Tick>)
    ensures |ticks| >= MaxReads
  {
    MaxReadsValue();
    seq(234, i => Tick(true, ReadOk([0 as byte])))
  }

  const Greeting := "안녕하세요"

  function GreetingResponse(): Response {
    Responded([SpeechResult([Alternative(Greeting, 0.91)])])
  }

  /** Two spreadsheets; only the first has worksheets, "요약" and "시트1". */
  function StartUpService(): Service {
    Service(Listed([Spreadsheet("업무", "s1"), Spreadsheet("음성기록", "s2")]),
            map["s1" := Listed([Worksheet("요약", 0), Worksheet("시트1", 1)])])
  }

  /**
   * The pickers' choices for `StartUpService`: without a store the first
   * spreadsheet is chosen; with the defaults store the spreadsheet's sheet
   * picker follows `last_sheet`, storing it again, and `last_spreadsheet`
   * still names the other spreadsheet.
   */
  lemma StartUpChoices(p: SpreadsheetPicker, q: SheetPicker)
    ensures RefreshedSpreadsheets(StartUpService(), None, p).choice == "업무"
    ensures RefreshedSpreadsheets(StartUpService(), None, p).spreadsheet == Some(Spreadsheet("업무", "s1"))
    ensures var r := RefreshedSheets(StartUpService(), Some(Spreadsheet("업무", "s1")), q.(store := Some(DefaultSettings())));
            r.choice == "시트1" && r.store == Some(DefaultSettings()["last_sheet" := Text("시트1")])
    ensures Lookup(DefaultSettings()["last_sheet" := Text("시트1")], "last_spreadsheet", Null) == Text("음성기록")
  {
    assert SpreadsheetTitles(Items(StartUpService().spreadsheets)) == ["업무", "음성기록"];
    assert SheetTitles(Items(StartUpService().worksheets["s1"])) == ["요약", "시트1"];
    assert Lookup(DefaultSettings(), "last_sheet", Null) == Text("시트1");
  }

  /**
   * The start-up order: the handler is attached, and both pickers reloaded,
   * before the settings store. The spreadsheet picker therefore takes the
   * first listed spreadsheet although the store's defaults name the second
   * one as `last_spreadsheet`; the later store attachment reloads only the
   * sheet picker, which then follows the stored `last_sheet`.
   */
  method StartUpIgnoresStoredSpreadsheet() returns (spreadsheet: string, sheet: string, stored: Setting)
    ensures spreadsheet == "업무" && sheet == "시트1" && stored == Text("음성기록")
  {
    var service := StartUpService();
    var store := new SettingsManager(Missing);
    var gui := AttachHandlerAtStartUp(service);
    StartUpChoices(gui.SpreadsheetPickerNow(), gui.SheetPickerNow());
    gui.SetSettingsManager(store, service);
    spreadsheet := gui.spreadsheetChoice;
    sheet := gui.sheetChoice;
    stored := store.GetSetting("last_spreadsheet");
  }

  /**
   * The first half of start-up: a new window gets its voice processor and
   * then a sheet handler, before any settings store is attached.
   */
  method AttachHandlerAtStartUp(service: Service) returns (gui: Gui)
    requires service == StartUpService()
    ensures fresh(gui) && gui.handler != null && fresh(gui.handler) && gui.settings == null
    ensures gui.spreadsheetChoice == "업무" && gui.handler.spreadsheet == Some(Spreadsheet("업무", "s1"))
  {
    var processor := new VoiceProcessor(true);
    var handler := new SheetHandler(None, None);
    gui := new Gui();
    gui.SetVoiceProcessor(processor);
    processor.SetGui(gui);
    StartUpChoices(gui.SpreadsheetPickerNow(), gui.SheetPickerNow());
    gui.SetSheetHandler(handler, service);
  }

  /**
   * A user stop lowers both flags while the first capture thread has not
   * yet transcribed, so the next start is accepted and a second capture
   * thread is started beside the pending one.
   */
  method RestartWhileTranscribing() returns (first: bool, second: bool, captures: nat)
    ensures first && second && captures == 2
  {
    var processor := new VoiceProcessor(true);
    var gui := new Gui();
    gui.SetVoiceProcessor(processor);
    processor.SetGui(gui);
    first := gui.StartRecording();
    gui.StopRecording();
    assert !gui.isRecording && !processor.isRecording;
    second := gui.StartRecording();
    captures := processor.captures;
  }

  /** A full capture with the flag still raised afterwards is transcribed. */
  lemma FullCaptureTranscribes(hasClient: bool, response: Response)
    ensures SessionOutcome(CaptureEnv(Opened, FullCapture(), WavWritten), true, hasClient, response).Transcribed?
    ensures |Captured(FullCapture())| == 234
  {
    CapturedBounds(FullCapture());
  }

  /**
   * A capture that runs to the bound leaves the processor's flag raised:
   * the window is reset, but the next start click shows a recording window
   * while no capture thread is started.
   */
  method StartAfterTimeout() returns (transcribed: bool, spawned: bool, windowRecording: bool)
    ensures transcribed && !spawned && windowRecording
  {
    var processor := new VoiceProcessor(true);
    var gui := new Gui();
    gui.SetVoiceProcessor(processor);
    processor.SetGui(gui);
    var started := gui.StartRecording();
    transcribed := CaptureToTheBound(processor, gui);
    spawned := gui.StartRecording();
    windowRecording := gui.isRecording;
  }

  /** The capture thread of `StartAfterTimeout`, run to the bound and transcribed. */
  method CaptureToTheBound(processor: VoiceProcessor, gui: Gui) returns (transcribed: bool)
    requires processor.gui == gui && gui.processor == processor && processor.isRecording
    requires gui.handler == null && gui.settings == null
    modifies processor, gui
    ensures transcribed
    ensures processor.gui == gui && gui.processor == processor && processor.isRecording && gui.Idle()
  {
    FullCaptureTranscribes(true, GreetingResponse());
    var outcome := processor.RecordAndRecognize(CaptureEnv(Opened, FullCapture(), WavWritten),
                                                GreetingResponse(), "t0", "t1", SinkEnv("t2", true, true));
    transcribed := outcome.Transcribed?;
  }

  /** A save from an entry reading A1 writes to row 1, column 1 and moves the entry to A2. */
  lemma FirstCellSave(sheet: Worksheet, sink: SinkEnv)
    requires sink.sheetWriteOk
    ensures SaveTarget("A1") == "A1"
    ensures PlanSave(Some(sheet), Greeting, 0.91, "A1", sink) == Written(CellUpdate(sheet, 1, 1, Greeting))
    ensures Advance("A1").Some? && NextEntry("A1") == "A2"
  {
    assert Format(Cell("A", 1)) == "A1" && Format(Cell("A", 2)) == "A2";
    NormalizeFormat(Cell("A", 1));
    ParseFormat(Cell("A", 1));
    assert ColumnValue("A") == 1;
    AdvanceMovesDownOneRow("A1");
  }

  /**
   * Showing a greeting in a linked window whose entry reads A1 appends the
   * write to row 1, column 1, stores A1 as `last_cell` and moves to A2.
   */
  lemma FirstCellShow(d: Document, timestamp: string, sink: SinkEnv)
    requires d.linked && d.cellEntry == "A1" && d.sheet.Some? && d.store.Some? && sink.sheetWriteOk
    ensures var e := AfterShow(d, Greeting, Some(0.91), timestamp, sink);
            e.updates == d.updates + [CellUpdate(d.sheet.value, 1, 1, Greeting)] &&
            e.cellEntry == "A2" && e.store == Some(d.store.value["last_cell" := Text("A1")])
  {
    FirstCellSave(d.sheet.value, sink);
    assert ConfidenceOrZero(Some(0.91)) == 0.91;
  }

  /** One spreadsheet, 음성기록, with the one worksheet 시트1. */
  function SingleSheetService(): Service {
    Service(Listed([Spreadsheet("음성기록", "sheet-id")]), map["sheet-id" := Listed([Worksheet("시트1", 0)])])
  }

  /**
   * The pickers' choices for `SingleSheetService`: the only spreadsheet and
   * the only worksheet are taken; with the defaults store the worksheet is
   * stored again and `last_cell` puts A1 into the entry.
   */
  lemma SingleSheetChoices(p: SpreadsheetPicker, q: SheetPicker)
    ensures RefreshedSpreadsheets(SingleSheetService(), None, p).spreadsheet == Some(Spreadsheet("음성기록", "sheet-id"))
    ensures RefreshedSheets(SingleSheetService(), Some(Spreadsheet("음성기록", "sheet-id")), q.(store := None)).sheet ==
            Some(Worksheet("시트1", 0))
    ensures var r := RefreshedSheets(SingleSheetService(), Some(Spreadsheet("음성기록", "sheet-id")),
                                     q.(store := Some(DefaultSettings())));
            r.sheet == Some(Worksheet("시트1", 0)) && r.entry == "A1" &&
            r.store == Some(DefaultSettings()["last_sheet" := Text("시트1")])
  {
    assert SpreadsheetTitles(Items(SingleSheetService().spreadsheets)) == ["음성기록"];
    assert SheetTitles(Items(SingleSheetService().worksheets["sheet-id"])) == ["시트1"];
    assert Lookup(DefaultSettings(), "last_sheet", Null) == Text("시트1");
    assert Lookup(DefaultSettings(), "last_cell", Text("A1")) == Text("A1");
  }

  /**
   * Start-up against `SingleSheetService`: the handler and then a store
   * holding the defaults are attached through the setters, so the window
   * targets 시트1 and its entry reads A1; nothing has been written yet.
   */
  method AttachSingleSheet() returns (gui: Gui, handler: SheetHandler, store: SettingsManager)
    ensures fresh(gui) && fresh(handler) && fresh(store)
    ensures gui.handler == handler && gui.settings == store
    ensures handler.sheet == Some(Worksheet("시트1", 0)) && handler.updates == []
    ensures gui.cellEntry == "A1" && store.settings == DefaultSettings()["last_sheet" := Text("시트1")]
  {
    var service := SingleSheetService();
    handler := new SheetHandler(None, None);
    store := new SettingsManager(Missing);
    gui := new Gui();
    SingleSheetChoices(gui.SpreadsheetPickerNow(), gui.SheetPickerNow());
    gui.SetSheetHandler(handler, service);
    SingleSheetChoices(gui.SpreadsheetPickerNow(), gui.SheetPickerNow());
    gui.SetSettingsManager(store, service);
  }

  /**
   * With the window wired to a single worksheet and the entry on A1,
   * showing a recognised greeting writes it to row 1, column 1, stores A1
   * as `last_cell` and moves the entry to A2.
   */
  method SaveToFirstCell() returns (updates: seq<CellUpdate>, entry: string, lastCell: Setting)
    ensures updates == [CellUpdate(Worksheet("시트1", 0), 1, 1, Greeting)]
    ensures entry == "A2" && lastCell == Text("A1")
  {
    var gui, handler, store := AttachSingleSheet();
    var sink := SinkEnv("t1", true, true);
    FirstCellShow(gui.DocumentNow(), "t0", sink);
    gui.DisplayResult(Greeting, Some(0.91), "t0", sink);
    updates := handler.updates;
    entry := gui.cellEntry;
    lastCell := store.GetSetting("last_cell");
  }
}
