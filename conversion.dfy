/** The conversion task record, the sequence of writes one conversion makes
    to it, the process-wide task map, and the progress lookup. */
module Conversion {
  import opened Common
  import opened FileNames

  /** Task ids are opaque strings (the text of a fresh UUID). */
  type TaskId = string

  /** Timestamps are opaque ISO-8601 strings supplied by the clock. */
  type Timestamp = string

  /** The statuses a conversion writes. The status stays `Iniciando` while
      the sheets are converted; there is no separate "running" status. */
  datatype Status = Iniciando | Concluindo | Completo | Erro {
    /** The text sent to the client. */
    function Text(): string
    {
      match this
      case Iniciando => "iniciando"
      case Concluindo => "concluindo"
      case Completo => "completo"
      case Erro => "erro"
    }

    /** The statuses after which the client stops polling. */
    predicate Terminal()
    {
      this == Completo || this == Erro
    }
  }

  /** Distinct statuses are sent as distinct texts, so the client's string
      comparisons tell them apart. */
  lemma StatusTextInjective(a: Status, b: Status)
    ensures a.Text() == b.Text() <==> a == b
  {
    if a != b {
      assert a.Text()[0] != b.Text()[0] || a.Text()[2] != b.Text()[2];
    }
  }

  /** The messages a conversion writes, by the step that writes them. Sheet
      positions are counted from 0; the text shows them from 1. */
  datatype Message =
    | StartingMsg
    | ReadingMsg
    | FoundMsg(count: nat)
    | SheetMsg(name: string, index: nat, count: nat)
    | ClosingMsg
    | DoneMsg
    | ErrorMsg(reason: string)
  {
    /** The text sent to the client. */
    function Text(): string
    {
      match this
      case StartingMsg => "Iniciando conversão..."
      case ReadingMsg => "Lendo arquivo XLSB..."
      case FoundMsg(n) => "Encontradas " + NatToString(n) + " planilha(s)"
      case SheetMsg(name, i, n) =>
        "Convertendo planilha: " + name + " (" + NatToString(i + 1) + "/" + NatToString(n) + ")"
      case ClosingMsg => "Finalizando conversão..."
      case DoneMsg => "Conversão concluída com sucesso!"
      case ErrorMsg(reason) => "Erro na conversão: " + reason
    }
  }

  /** One entry of the task map. `endTime` is None while the key is absent. */
  datatype Record = Record(
    status: Status,
    progress: real,
    message: Message,
    filename: Option<string>,
    error: Option<string>,
    startTime: Timestamp,
    endTime: Option<Timestamp>)

  /** What the progress endpoint answers: a stored record, or the fixed
      "not found" reply. */
  datatype Reply = Found(record: Record) | NotFound {
    function StatusText(): string
    {
      if Found? then record.status.Text() else "nao_encontrado"
    }

    function Progress(): real
    {
      if Found? then record.progress else 0.0
    }

    function MessageText(): string
    {
      if Found? then record.message.Text() else "Tarefa não encontrada"
    }

    /** The `error` key; the "not found" reply has none. */
    function Error(): Option<string>
    {
      if Found? then record.error else None
    }

    /** The `filename` key; the "not found" reply has none. */
    function Filename(): Option<string>
    {
      if Found? then record.filename else None
    }
  }

  /** One sheet of the input workbook: its name and, when reading or
      writing it raises, the text of that exception. */
  datatype Sheet = Sheet(name: string, failure: Option<string>)

  /** What the spreadsheet library does with one input file: whether the
      file exists, the exception opening it raises (if any), the exception
      creating the output writer raises (if any), the ordered sheets, and
      the exception saving the output raises (if any). */
  datatype Workbook = Workbook(
    present: bool,
    openFailure: Option<string>,
    writerFailure: Option<string>,
    sheets: seq<Sheet>,
    saveFailure: Option<string>)

  /** The record a conversion's first write stores, replacing any earlier
      record under the same id. */
  function Started(start: Timestamp): Record
  {
    Record(Iniciando, 0.0, StartingMsg, None, None, start, None)
  }

  function MissingInputText(inPath: string): string
  {
    "Arquivo de entrada não encontrado: " + inPath
  }

  /** Step 1: the input is about to be read. */
  function Reading(r: Record): Record
  {
    r.(progress := 10.0, message := ReadingMsg)
  }

  /** Step 2: the sheet names are known. */
  function SheetsFound(r: Record, n: nat): Record
  {
    r.(progress := 20.0, message := FoundMsg(n))
  }

  /** The update made when sheet `i` of `sheets` starts. */
  function SheetStarted(r: Record, sheets: seq<Sheet>, i: nat): Record
    requires i < |sheets|
  {
    r.(progress := SheetProgress(i, |sheets|), message := SheetMsg(sheets[i].name, i, |sheets|))
  }

  /** The update made once every sheet is written. */
  function Closing(r: Record): Record
  {
    r.(progress := 95.0, message := ClosingMsg, status := Concluindo)
  }

  /** The last update of a successful conversion; `outName` is the base
      name of the output path. */
  function Done(r: Record, outName: string, end: Timestamp): Record
  {
    r.(progress := 100.0, message := DoneMsg, status := Completo,
       filename := Some(outName), endTime := Some(end))
  }

  /** The exception handler's update: status, message, error and end time
      change; progress and filename keep their last values. */
  function Failed(r: Record, reason: string, end: Timestamp): Record
  {
    r.(status := Erro, message := ErrorMsg(reason),
       error := Some(reason), endTime := Some(end))
  }

  /** Progress reported when sheet `i` of `n` starts: 20 + i*70/n, with
      Python's true division. Only defined for i < n, so n is never 0. */
  function SheetProgress(i: nat, n: nat): (p: real)
    requires i < n
    ensures 20.0 <= p < 90.0
  {
    DivBelow((i * 70) as real, n as real, 70.0);
    20.0 + (i * 70) as real / n as real
  }

  lemma DivBelow(x: real, y: real, c: real)
    requires y > 0.0 && x < c * y
    ensures x / y < c
  {
    var q := x / y;
    assert q * y == x;
    assert (c - q) * y > 0.0;
  }

  /** Later sheets report strictly more progress. */
  lemma SheetProgressIncreasing(i: nat, j: nat, n: nat)
    requires i < j < n
    ensures SheetProgress(i, n) < SheetProgress(j, n)
  {
    var a, b, d := (i * 70) as real, (j * 70) as real, n as real;
    DivBelow(a, d, b / d);
    assert (b / d) * d == b;
  }

  /** The writes after the last sheet: a failed save, or 95 with
      `concluindo` and then 100 with `completo` and the output's base name. */
  function Finish(r: Record, wb: Workbook, outName: string, end: Timestamp): seq<Record>
  {
    match wb.saveFailure
    case Some(e) => [Failed(r, e, end)]
    case None => [Closing(r), Done(Closing(r), outName, end)]
  }

  /** The writes made from sheet `i` on, given the record `r` stored so far;
      `outName` is the base name of the output path. */
  function SheetsFrom(r: Record, wb: Workbook, i: nat, outName: string, end: Timestamp): seq<Record>
    requires i <= |wb.sheets|
    decreases |wb.sheets| - i
  {
    if i == |wb.sheets| then Finish(r, wb, outName, end)
    else
      var step := SheetStarted(r, wb.sheets, i);
      match wb.sheets[i].failure
      case Some(e) => [step, Failed(step, e, end)]
      case None => [step] + SheetsFrom(step, wb, i + 1, outName, end)
  }

  /** Every record a conversion of `inPath` into `outPath` stores under its
      task id, in order; the last one is what stays in the map. */
  function Writes(inPath: string, outPath: string, wb: Workbook, start: Timestamp, end: Timestamp): seq<Record>
  {
    var started := Started(start);
    if !wb.present then [started, Failed(started, MissingInputText(inPath), end)]
    else
      var reading := Reading(started);
      if wb.openFailure.Some? then [started, reading, Failed(reading, wb.openFailure.value, end)]
      else
        var found := SheetsFound(reading, |wb.sheets|);
        if wb.writerFailure.Some? then [started, reading, found, Failed(found, wb.writerFailure.value, end)]
        else [started, reading, found] + SheetsFrom(found, wb, 0, Basename(outPath), end)
  }

  function Last<T>(s: seq<T>): T
    requires s != []
  {
    s[|s| - 1]
  }

  // ---------------------------------------------------------------------
  // An independent statement of which exception ends a conversion.

  function FirstSheetFailure(sheets: seq<Sheet>): Option<string>
  {
    if sheets == [] then None
    else if sheets[0].failure.Some? then sheets[0].failure
    else FirstSheetFailure(sheets[1..])
  }

  /** The exception that ends the conversion, in the order the steps run:
      missing input, opening, creating the writer, the first failing sheet,
      saving. None when the conversion succeeds. */
  function FirstFailure(inPath: string, wb: Workbook): Option<string>
  {
    if !wb.present then Some(MissingInputText(inPath))
    else if wb.openFailure.Some? then wb.openFailure
    else if wb.writerFailure.Some? then wb.writerFailure
    else if FirstSheetFailure(wb.sheets).Some? then FirstSheetFailure(wb.sheets)
    else wb.saveFailure
  }

  /** How many sheets a conversion starts, counted from sheet `i`: up to and
      including the first that fails, or all of them. */
  function AttemptedFrom(sheets: seq<Sheet>, i: nat): (m: nat)
    requires i <= |sheets|
    ensures i <= m <= |sheets|
    ensures forall j :: i <= j < m - 1 ==> sheets[j].failure == None
    ensures m < |sheets| ==> i < m && sheets[m - 1].failure.Some?
    ensures m == |sheets| && i < m && sheets[m - 1].failure == None ==>
      forall j :: i <= j < m ==> sheets[j].failure == None
    decreases |sheets| - i
  {
    if i == |sheets| then i
    else if sheets[i].failure.Some? then i + 1
    else AttemptedFrom(sheets, i + 1)
  }

  // ---------------------------------------------------------------------
  // The lifecycle every conversion's writes follow.

  /** Progress stays within [0, 100] and never decreases; every record but
      the last has a non-terminal status; the last is terminal. */
  predicate Lifecycle(w: seq<Record>)
  {
    && |w| >= 2
    && (forall k :: 0 <= k < |w| ==> 0.0 <= w[k].progress <= 100.0)
    && (forall k :: 0 < k < |w| ==> w[k - 1].progress <= w[k].progress)
    && (forall k :: 0 <= k < |w| - 1 ==> !w[k].status.Terminal())
    && w[|w| - 1].status.Terminal()
  }

  lemma LifecycleCons(r: Record, w: seq<Record>)
    requires Lifecycle(w)
    requires !r.status.Terminal() && 0.0 <= r.progress <= w[0].progress
    ensures Lifecycle([r] + w)
  {
    var v := [r] + w;
    forall k | 0 < k < |v| ensures v[k - 1].progress <= v[k].progress {
      assert v[k] == w[k - 1];
      if k > 1 { assert v[k - 1] == w[k - 2]; }
    }
  }

  lemma {:induction false} SheetsFromLifecycle(r: Record, wb: Workbook, i: nat, outName: string, end: Timestamp)
    requires i <= |wb.sheets|
    requires !r.status.Terminal() && 0.0 <= r.progress
    requires r.progress <= if i < |wb.sheets| then SheetProgress(i, |wb.sheets|) else 95.0
    ensures Lifecycle([r] + SheetsFrom(r, wb, i, outName, end))
    decreases |wb.sheets| - i
  {
    var n := |wb.sheets|;
    if i < n {
      var step := SheetStarted(r, wb.sheets, i);
      if wb.sheets[i].failure.None? {
        if i + 1 < n { SheetProgressIncreasing(i, i + 1, n); }
        SheetsFromLifecycle(step, wb, i + 1, outName, end);
        assert [r] + SheetsFrom(r, wb, i, outName, end) == [r] + ([step] + SheetsFrom(step, wb, i + 1, outName, end));
        LifecycleCons(r, [step] + SheetsFrom(step, wb, i + 1, outName, end));
      }
    }
  }

  /** Every conversion starts by resetting the record to `iniciando` at 0
      and then follows the lifecycle. */
  lemma WritesLifecycle(inPath: string, outPath: string, wb: Workbook, start: Timestamp, end: Timestamp)
    ensures var w := Writes(inPath, outPath, wb, start, end);
      && Lifecycle(w)
      && w[0] == Started(start)
      && w[0].status == Iniciando && w[0].progress == 0.0
      && w[0].filename == None && w[0].error == None
  {
    if wb.present && wb.openFailure.None? && wb.writerFailure.None? {
      ConvertedLifecycle(inPath, outPath, wb, start, end);
    } else {
      EarlyFailureLifecycle(inPath, outPath, wb, start, end);
    }
  }

  lemma EarlyFailureLifecycle(inPath: string, outPath: string, wb: Workbook, start: Timestamp, end: Timestamp)
    requires !wb.present || wb.openFailure.Some? || wb.writerFailure.Some?
    ensures Lifecycle(Writes(inPath, outPath, wb, start, end))
  {
    var w := Writes(inPath, outPath, wb, start, end);
    var started := Started(start);
    var reading := Reading(started);
    var found := SheetsFound(reading, |wb.sheets|);
    if !wb.present {
      LifecyclePair(started, Failed(started, MissingInputText(inPath), end));
    } else if wb.openFailure.Some? {
      var failed := Failed(reading, wb.openFailure.value, end);
      LifecyclePair(reading, failed);
      LifecycleCons(started, [reading, failed]);
      assert w == [started] + [reading, failed];
    } else {
      var failed := Failed(found, wb.writerFailure.value, end);
      LifecyclePair(found, failed);
      LifecycleCons(reading, [found, failed]);
      LifecycleCons(started, [reading] + [found, failed]);
      assert w == [started] + ([reading] + [found, failed]);
    }
  }

  lemma ConvertedLifecycle(inPath: string, outPath: string, wb: Workbook, start: Timestamp, end: Timestamp)
    requires wb.present && wb.openFailure.None? && wb.writerFailure.None?
    ensures Lifecycle(Writes(inPath, outPath, wb, start, end))
  {
    var w := Writes(inPath, outPath, wb, start, end);
    var started := Started(start);
    var reading := Reading(started);
    var found := SheetsFound(reading, |wb.sheets|);
    var rest := SheetsFrom(found, wb, 0, Basename(outPath), end);
    if 0 < |wb.sheets| { assert SheetProgress(0, |wb.sheets|) == 20.0; }
    SheetsFromLifecycle(found, wb, 0, Basename(outPath), end);
    LifecycleCons(reading, [found] + rest);
    LifecycleCons(started, [reading] + ([found] + rest));
    assert w == [started] + ([reading] + ([found] + rest));
  }

  lemma LifecyclePair(a: Record, b: Record)
    requires !a.status.Terminal() && b.status.Terminal()
    requires 0.0 <= a.progress <= b.progress <= 100.0
    ensures Lifecycle([a, b])
  {
  }

  // ---------------------------------------------------------------------
  // How a conversion ends.

  lemma {:induction false} SheetsFromOutcome(r: Record, wb: Workbook, i: nat, outName: string, end: Timestamp)
    requires i <= |wb.sheets|
    requires r.error == None && r.filename == None
    ensures var s := [r] + SheetsFrom(r, wb, i, outName, end);
      var f := if FirstSheetFailure(wb.sheets[i..]).Some? then FirstSheetFailure(wb.sheets[i..]) else wb.saveFailure;
      && |s| >= 2
      && Last(s).error == f
      && (f.Some? ==> (|s| >= 2 && Last(s) == Failed(s[|s| - 2], f.value, end)))
      && (f.None? ==> (|s| >= 2
            && s[|s| - 2].status == Concluindo && s[|s| - 2].progress == 95.0
            && Last(s).status == Completo && Last(s).progress == 100.0
            && Last(s).filename == Some(outName)))
    decreases |wb.sheets| - i
  {
    var n := |wb.sheets|;
    if i < n {
      var step := SheetStarted(r, wb.sheets, i);
      assert wb.sheets[i..][0] == wb.sheets[i];
      if wb.sheets[i].failure.None? {
        assert wb.sheets[i..][1..] == wb.sheets[i + 1..];
        SheetsFromOutcome(step, wb, i + 1, outName, end);
        var rest := SheetsFrom(step, wb, i + 1, outName, end);
        assert [r] + SheetsFrom(r, wb, i, outName, end) == [r] + ([step] + rest);
      }
    } else {
      assert wb.sheets[i..] == [];
    }
  }

  /** The last record carries the first exception raised, or none; the
      conversion completes exactly when nothing raised. A failed run's last
      write keeps the progress and filename of the write before it; a
      successful run passes through `concluindo` at 95 and ends at 100 with
      the output's base name. */
  lemma WritesOutcome(inPath: string, outPath: string, wb: Workbook, start: Timestamp, end: Timestamp)
    ensures var w := Writes(inPath, outPath, wb, start, end);
      var f := FirstFailure(inPath, wb);
      && |w| >= 2
      && Last(w).error == f
      && (Last(w).status == Completo <==> f == None)
      && (Last(w).status == Erro <==> f != None)
      && (f.Some? ==> (Last(w) == Failed(w[|w| - 2], f.value, end)
                       && Last(w).message.Text() == "Erro na conversão: " + f.value
                       && Last(w).progress == w[|w| - 2].progress
                       && Last(w).filename == w[|w| - 2].filename))
      && (f.None? ==> (w[|w| - 2].status == Concluindo && w[|w| - 2].progress == 95.0
                       && Last(w).progress == 100.0
                       && Last(w).filename == Some(Basename(outPath))))
  {
    if wb.present && wb.openFailure.None? && wb.writerFailure.None? {
      ConvertedOutcome(inPath, outPath, wb, start, end);
    }
  }

  /** How the writes `w` end when `f` is the exception that stops them. */
  predicate EndsBy(w: seq<Record>, f: Option<string>, outName: string, end: Timestamp)
  {
    && |w| >= 2
    && Last(w).error == f
    && (f.Some? ==> Last(w) == Failed(w[|w| - 2], f.value, end))
    && (f.None? ==> (w[|w| - 2].status == Concluindo && w[|w| - 2].progress == 95.0
                     && Last(w).status == Completo && Last(w).progress == 100.0
                     && Last(w).filename == Some(outName)))
  }

  lemma ConvertedOutcome(inPath: string, outPath: string, wb: Workbook, start: Timestamp, end: Timestamp)
    requires wb.present && wb.openFailure.None? && wb.writerFailure.None?
    ensures EndsBy(Writes(inPath, outPath, wb, start, end), FirstFailure(inPath, wb), Basename(outPath), end)
  {
    var w := Writes(inPath, outPath, wb, start, end);
    var started := Started(start);
    var reading := Reading(started);
    var found := SheetsFound(reading, |wb.sheets|);
    var rest := SheetsFrom(found, wb, 0, Basename(outPath), end);
    SheetsFromOutcome(found, wb, 0, Basename(outPath), end);
    assert wb.sheets[0..] == wb.sheets;
    var tail := [found] + rest;
    assert w == [started, reading] + tail;
    assert Last(w) == Last(tail) && w[|w| - 2] == tail[|tail| - 2];
  }

  /** A missing input ends the conversion after one update: progress stays
      0 and no filename is set. */
  lemma MissingInputKeepsZero(inPath: string, outPath: string, wb: Workbook, start: Timestamp, end: Timestamp)
    requires !wb.present
    ensures var w := Writes(inPath, outPath, wb, start, end);
      && |w| == 2
      && Last(w).status == Erro
      && Last(w).progress == 0.0
      && Last(w).filename == None
      && Last(w).error == Some(MissingInputText(inPath))
      && Last(w).message.Text() == "Erro na conversão: " + MissingInputText(inPath)
  {
  }

  // ---------------------------------------------------------------------
  // The progress values written.

  function Progresses(w: seq<Record>): (ps: seq<real>)
    ensures |ps| == |w| && forall k :: 0 <= k < |w| ==> ps[k] == w[k].progress
  {
    seq(|w|, k requires 0 <= k < |w| => w[k].progress)
  }

  lemma ProgressesAppend(a: seq<Record>, b: seq<Record>)
    ensures Progresses(a + b) == Progresses(a) + Progresses(b)
  {
    assert forall k :: 0 <= k < |a| + |b| ==> Progresses(a + b)[k] == (Progresses(a) + Progresses(b))[k];
  }

  /** The per-sheet progress values from sheet `i` to the last of `n`. */
  function SheetProgresses(i: nat, n: nat): seq<real>
    requires i <= n
    decreases n - i
  {
    if i == n then [] else [SheetProgress(i, n)] + SheetProgresses(i + 1, n)
  }

  lemma {:induction false} SheetsFromProgresses(r: Record, wb: Workbook, i: nat, outName: string, end: Timestamp)
    requires i <= |wb.sheets|
    requires FirstSheetFailure(wb.sheets[i..]) == None && wb.saveFailure == None
    ensures Progresses(SheetsFrom(r, wb, i, outName, end)) == SheetProgresses(i, |wb.sheets|) + [95.0, 100.0]
    decreases |wb.sheets| - i
  {
    var n := |wb.sheets|;
    if i < n {
      assert wb.sheets[i..][0] == wb.sheets[i];
      assert wb.sheets[i..][1..] == wb.sheets[i + 1..];
      var step := SheetStarted(r, wb.sheets, i);
      var rest := SheetsFrom(step, wb, i + 1, outName, end);
      assert SheetsFrom(r, wb, i, outName, end) == [step] + rest;
      SheetsFromProgresses(step, wb, i + 1, outName, end);
      ProgressesAppend([step], rest);
      assert Progresses([step]) == [SheetProgress(i, n)];
    } else {
      var done := [Closing(r), Done(Closing(r), outName, end)];
      assert SheetsFrom(r, wb, i, outName, end) == done;
    }
  }

  /** A successful conversion writes progress 0, 10, 20, then 20 + i*70/n
      for each sheet i in order, then 95 and 100. */
  lemma SuccessProgressSequence(inPath: string, outPath: string, wb: Workbook, start: Timestamp, end: Timestamp)
    requires FirstFailure(inPath, wb) == None
    ensures Progresses(Writes(inPath, outPath, wb, start, end))
      == [0.0, 10.0, 20.0] + SheetProgresses(0, |wb.sheets|) + [95.0, 100.0]
  {
    var started := Started(start);
    var reading := Reading(started);
    var found := SheetsFound(reading, |wb.sheets|);
    var rest := SheetsFrom(found, wb, 0, Basename(outPath), end);
    assert wb.sheets[0..] == wb.sheets;
    SheetsFromProgresses(found, wb, 0, Basename(outPath), end);
    ProgressesAppend([started, reading, found], rest);
    assert Progresses([started, reading, found]) == [0.0, 10.0, 20.0];
  }

  // ---------------------------------------------------------------------
  // The sheets are worked through in order, and a failure stops the loop.

  lemma {:induction false} SheetsFromLength(r: Record, wb: Workbook, i: nat, outName: string, end: Timestamp)
    requires i <= |wb.sheets|
    ensures var m := AttemptedFrom(wb.sheets, i);
      |SheetsFrom(r, wb, i, outName, end)|
        == (m - i) + (if (i < m && wb.sheets[m - 1].failure.Some?) || wb.saveFailure.Some? then 1 else 2)
    decreases |wb.sheets| - i
  {
    if i < |wb.sheets| && wb.sheets[i].failure.None? {
      var step := SheetStarted(r, wb.sheets, i);
      SheetsFromLength(step, wb, i + 1, outName, end);
      assert |SheetsFrom(r, wb, i, outName, end)| == 1 + |SheetsFrom(step, wb, i + 1, outName, end)|;
    }
  }

  /** `rec` is the write reporting the start of sheet `j`. */
  predicate SheetWrite(rec: Record, sheets: seq<Sheet>, j: nat)
  {
    j < |sheets| &&
    rec.progress == SheetProgress(j, |sheets|) &&
    rec.message == SheetMsg(sheets[j].name, j, |sheets|)
  }

  /** The write at offset `j` from sheet `i` reports sheet i + j, for every
      sheet the loop reaches. */
  lemma {:induction false} SheetsFromAt(r: Record, wb: Workbook, i: nat, j: nat, outName: string, end: Timestamp)
    requires i <= |wb.sheets| && i + j < AttemptedFrom(wb.sheets, i)
    ensures j < |SheetsFrom(r, wb, i, outName, end)|
    ensures SheetWrite(SheetsFrom(r, wb, i, outName, end)[j], wb.sheets, i + j)
    decreases j
  {
    if j > 0 {
      var step := SheetStarted(r, wb.sheets, i);
      SheetsFromAt(step, wb, i + 1, j - 1, outName, end);
      assert SheetsFrom(r, wb, i, outName, end) == [step] + SheetsFrom(step, wb, i + 1, outName, end);
    }
  }

  /** When the input opens and the writer is created, the writes after the
      first three are one per sheet, in the order of the sheet names, each
      reporting its position, up to and including the first sheet that
      fails; after it nothing but the error is written. */
  lemma SheetsInOrder(inPath: string, outPath: string, wb: Workbook, start: Timestamp, end: Timestamp)
    requires wb.present && wb.openFailure == None && wb.writerFailure == None
    ensures var w := Writes(inPath, outPath, wb, start, end);
      var n := |wb.sheets|;
      var m := AttemptedFrom(wb.sheets, 0);
      && (forall j :: 0 <= j < m - 1 ==> wb.sheets[j].failure == None)
      && (m < n ==> wb.sheets[m - 1].failure.Some?)
      && |w| == 3 + m + (if FirstFailure(inPath, wb) == None then 2 else 1)
      && (forall j :: 3 <= j < 3 + m ==> SheetWrite(w[j], wb.sheets, j - 3))
  {
    var w := Writes(inPath, outPath, wb, start, end);
    var started := Started(start);
    var reading := Reading(started);
    var found := SheetsFound(reading, |wb.sheets|);
    var rest := SheetsFrom(found, wb, 0, Basename(outPath), end);
    SheetsFromLength(found, wb, 0, Basename(outPath), end);

    assert w == [started, reading, found] + rest;
    var m := AttemptedFrom(wb.sheets, 0);
    NoFailureBefore(wb.sheets, m);
    assert wb.sheets[0..] == wb.sheets;
    forall j | 3 <= j < 3 + m ensures SheetWrite(w[j], wb.sheets, j - 3) {
      SheetsFromAt(found, wb, 0, j - 3, Basename(outPath), end);
      assert w[j] == rest[j - 3];
    }
  }

  /** Relates the count of sheets started to the first sheet failure. */
  lemma {:induction false} NoFailureBefore(sheets: seq<Sheet>, m: nat)
    requires m == AttemptedFrom(sheets, 0)
    ensures FirstSheetFailure(sheets) == None <==> (m == 0 || sheets[m - 1].failure == None)
  {
    FirstSheetFailureIsFirst(sheets);
  }

  /** The failure found is that of the first failing sheet, and none is
      found exactly when every sheet succeeds. */
  lemma {:induction false} FirstSheetFailureIsFirst(sheets: seq<Sheet>)
    ensures FirstSheetFailure(sheets) == None <==> forall j :: 0 <= j < |sheets| ==> sheets[j].failure == None
    ensures FirstSheetFailure(sheets).Some? ==>
      exists j :: 0 <= j < |sheets| && sheets[j].failure == FirstSheetFailure(sheets)
        && forall k :: 0 <= k < j ==> sheets[k].failure == None
  {
    if sheets != [] {
      FirstSheetFailureIsFirst(sheets[1..]);
      assert forall j :: 1 <= j < |sheets| ==> sheets[j] == sheets[1..][j - 1];
      if sheets[0].failure.None? && FirstSheetFailure(sheets[1..]).Some? {
        var j :| 0 <= j < |sheets[1..]| && sheets[1..][j].failure == FirstSheetFailure(sheets[1..])
          && forall k :: 0 <= k < j ==> sheets[1..][k].failure == None;
        assert sheets[j + 1].failure == FirstSheetFailure(sheets);
      }
    }
  }

  // ---------------------------------------------------------------------
  // The process-wide task map.

  class TaskStore {
    /** Task id to its current record. */
    var tasks: map<TaskId, Record>
    /** Every record ever stored under each id, oldest first. */
    ghost var history: map<TaskId, seq<Record>>

    constructor ()
      ensures tasks == map[] && history == map[]
    {
      tasks := map[];
      history := map[];
    }

    ghost function Past(id: TaskId): seq<Record>
      reads this
    {
      Prior(history, id)
    }

    /** One assignment to `conversion_progress[id]`. */
    method Store(id: TaskId, r: Record)
      modifies this
      ensures tasks == old(tasks)[id := r]
      ensures history == old(history)[id := old(Past(id)) + [r]]
    {
      tasks := tasks[id := r];
      history := history[id := Past(id) + [r]];
    }

    /** The progress endpoint: the stored record, or the "not found" reply
        for an unknown id. It never fails. */
    function GetProgress(id: TaskId): (reply: Reply)
      reads this
      ensures reply.Found? <==> id in tasks
      ensures reply.Found? ==> reply.record == tasks[id]
      ensures id !in tasks ==>
        reply.StatusText() == "nao_encontrado" && reply.Progress() == 0.0 &&
        reply.MessageText() == "Tarefa não encontrada"
    {
      if id in tasks then Found(tasks[id]) else NotFound
    }

    /** The map and the history hold, under `id`, exactly the records of
        `log` written after the state (`t0`, `h0`); nothing else changed. */
    ghost predicate Logged(t0: map<TaskId, Record>, h0: map<TaskId, seq<Record>>, id: TaskId, log: seq<Record>)
      reads this
    {
      LoggedIn(tasks, history, t0, h0, id, log)
    }

    /** A store made by the conversion, with the records written so far. */
    method Log(id: TaskId, r: Record, ghost t0: map<TaskId, Record>, ghost h0: map<TaskId, seq<Record>>, ghost log: seq<Record>)
        returns (ghost log': seq<Record>)
      requires Logged(t0, h0, id, log)
      modifies this
      ensures log' == log + [r] && Logged(t0, h0, id, log')
    {
      LogStep(tasks, history, t0, h0, id, log, r);
      Store(id, r);
      log' := log + [r];
    }

    /** Runs one conversion to its end against the map. Each step stores a
        record under `id`; an exception stores the error record and stops. */
    method Convert(inPath: string, outPath: string, id: TaskId, wb: Workbook, start: Timestamp, end: Timestamp)
      modifies this
      ensures tasks == old(tasks)[id := Last(Writes(inPath, outPath, wb, start, end))]
      ensures history == old(history)[id := old(Past(id)) + Writes(inPath, outPath, wb, start, end)]
    {
      ghost var t0, h0 := tasks, history;
      ghost var w := Writes(inPath, outPath, wb, start, end);
      var started := Started(start);
      ghost var done := Log(id, started, t0, h0, []);
      assert done == [started];
      if !wb.present {
        var failed := Failed(tasks[id], MissingInputText(inPath), end);
        done := Log(id, failed, t0, h0, done);
        assert done == [started, failed] == w;
        return;
      }
      var reading := Reading(tasks[id]);
      done := Log(id, reading, t0, h0, done);
      assert done == [started, reading];
      if wb.openFailure.Some? {
        var failed := Failed(tasks[id], wb.openFailure.value, end);
        done := Log(id, failed, t0, h0, done);
        assert done == [started, reading, failed] == w;
        return;
      }
      var n := |wb.sheets|;
      var found := SheetsFound(tasks[id], n);
      done := Log(id, found, t0, h0, done);
      assert done == [started, reading, found];
      if wb.writerFailure.Some? {
        var failed := Failed(tasks[id], wb.writerFailure.value, end);
        done := Log(id, failed, t0, h0, done);
        assert done == [started, reading, found, failed] == w;
        return;
      }
      done := ConvertSheets(id, wb, Basename(outPath), end, t0, h0, done);
      assert done == w;
    }

    /** The sheet loop of a conversion, then the save: from the record
        stored last, writes exactly what `SheetsFrom` lists. */
    method ConvertSheets(id: TaskId, wb: Workbook, outName: string, end: Timestamp,
                         ghost t0: map<TaskId, Record>, ghost h0: map<TaskId, seq<Record>>, ghost log: seq<Record>)
        returns (ghost log': seq<Record>)
      requires log != [] && Logged(t0, h0, id, log)
      modifies this
      ensures Logged(t0, h0, id, log') && log' == log + SheetsFrom(Last(log), wb, 0, outName, end)
    {
      ghost var w := log + SheetsFrom(Last(log), wb, 0, outName, end);
      log' := log;
      var n := |wb.sheets|;
      var i := 0;
      while i < n
        invariant 0 <= i <= n && log' != []
        invariant Logged(t0, h0, id, log')
        invariant log' + SheetsFrom(Last(log'), wb, i, outName, end) == w
      {
        var sheet := wb.sheets[i];
        var step := SheetStarted(tasks[id], wb.sheets, i);
        ghost var prefix := log';
        log' := Log(id, step, t0, h0, log');
        if sheet.failure.Some? {
          var failed := Failed(tasks[id], sheet.failure.value, end);
          log' := Log(id, failed, t0, h0, log');
          AppendTwo(prefix, step, failed);
          return;
        }
        AppendAssoc(prefix, [step], SheetsFrom(step, wb, i + 1, outName, end));
        i := i + 1;
      }
      log' := Save(id, wb, outName, end, t0, h0, log');
    }

    /** Closing the workbook writer: the save failure or the two final
        records, as `Finish` lists them. */
    method Save(id: TaskId, wb: Workbook, outName: string, end: Timestamp,
                ghost t0: map<TaskId, Record>, ghost h0: map<TaskId, seq<Record>>, ghost log: seq<Record>)
        returns (ghost log': seq<Record>)
      requires log != [] && Logged(t0, h0, id, log)
      modifies this
      ensures Logged(t0, h0, id, log') && log' == log + Finish(Last(log), wb, outName, end)
    {
      ghost var r := Last(log);
      assert tasks[id] == r;
      if wb.saveFailure.Some? {
        log' := Log(id, Failed(tasks[id], wb.saveFailure.value, end), t0, h0, log);
        return;
      }
      var closing := Closing(tasks[id]);
      var done := Done(closing, outName, end);
      ghost var mid := Log(id, closing, t0, h0, log);
      log' := Log(id, done, t0, h0, mid);
      AppendTwo(log, closing, done);
    }
  }

  ghost function Prior(history: map<TaskId, seq<Record>>, id: TaskId): seq<Record>
  {
    if id in history then history[id] else []
  }

  /** `tasks` and `history` hold, under `id`, exactly the records of `log`
      written after the state (`t0`, `h0`). */
  ghost predicate LoggedIn(tasks: map<TaskId, Record>, history: map<TaskId, seq<Record>>,
                           t0: map<TaskId, Record>, h0: map<TaskId, seq<Record>>, id: TaskId, log: seq<Record>)
  {
    if log == [] then tasks == t0 && history == h0
    else tasks == t0[id := Last(log)] && history == h0[id := Prior(h0, id) + log]
  }

  /** Storing `r` under `id` extends the log by `r`. */
  lemma LogStep(tasks: map<TaskId, Record>, history: map<TaskId, seq<Record>>,
                t0: map<TaskId, Record>, h0: map<TaskId, seq<Record>>, id: TaskId, log: seq<Record>, r: Record)
    requires LoggedIn(tasks, history, t0, h0, id, log)
    ensures LoggedIn(tasks[id := r], history[id := Prior(history, id) + [r]], t0, h0, id, log + [r])
  {
    var log' := log + [r];
    assert Prior(history, id) == Prior(h0, id) + log;
    assert (Prior(h0, id) + log) + [r] == Prior(h0, id) + log';
    assert Last(log') == r;
  }

  lemma AppendAssoc(a: seq<Record>, b: seq<Record>, c: seq<Record>)
    ensures (a + b) + c == a + (b + c)
  {
  }

  lemma AppendTwo(log: seq<Record>, a: Record, b: Record)
    ensures (log + [a]) + [b] == log + [a, b]
  {
  }

  /** The "not found" status text is never the text of a stored status, so
      a client can tell an unknown id from every stored record. */
  lemma NotFoundIsDistinct(reply: Reply)
    ensures reply.StatusText() == "nao_encontrado" <==> reply.NotFound?
  {
    if reply.Found? {
      var t := reply.record.status.Text();
      assert t[0] != 'n';
    }
  }
}
