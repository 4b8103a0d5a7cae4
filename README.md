# XLSB to XLSX converter: conversion state machine, upload rules and polling client

This project is a Dafny model of a small Flask service and its browser
client. The service takes a binary Excel workbook (`.xlsb`), converts it to
`.xlsx` in a background thread, and lets the client poll its progress.

The model covers four parts:

- **File-name rules** (`filenames.dfy`, module `FileNames`):
  - the server's extension allow-list (`allowed_file`);
  - the derivation of the output name, `filename.replace('.xlsb', '.xlsx')`;
  - POSIX `os.path.join` and `os.path.basename` for the upload folder.

  The derivation is case-sensitive. An accepted name such as `A.XLSB` keeps
  its name, so the conversion writes over its own input. The model exposes
  this (`FileNames.UpperCaseExtensionKeepsName`,
  `Upload.UpperCaseUploadOverwritesInput`) and does not change it.
- **Conversion task** (`conversion.dfy`, module `Conversion`):
  - the record stored in the process-wide map `conversion_progress`;
  - the conversion as a step-by-step state machine over that map;
  - the progress lookup.

  `Writes` lists every record one conversion stores, in order. The
  spreadsheet library is replaced by a `Workbook` value: whether the input
  exists, what opening it raises, what creating the writer raises, the
  ordered sheets with what each raises, and what saving raises.
  The class `TaskStore` holds the map as a field. Its method `Convert` runs
  the conversion step by step and is proved to store exactly `Writes`. A
  ghost history records every intermediate record a poll could observe.
  Lemmas over `Writes` prove the following:
  - progress stays within [0, 100] and never decreases;
  - only the last record is terminal;
  - the exact progress sequence of a successful run;
  - sheets are worked in order;
  - the first failure stops the run;
  - an error keeps the last progress and filename.
- **Upload endpoint** (`upload.dfy`, module `Upload`):
  - the accept/reject decision and its HTTP codes;
  - the paths a conversion is started with;
  - a sequential run of one upload followed by its conversion.

  A poll of the new id made before the conversion's first step answers "not
  found", because the record is created by the worker, not by the handler.
- **Browser client** (`client.dfy`, module `Client`):
  - the `.xlsb` check of the file picker, proved to agree with the server's
    allow-list;
  - the `MM:SS` elapsed-time text;
  - the polling rule.

  Each handler of the `XLSBConverter` class is a transition of the
  `ClientState` value. The class holds the same state in fields and is
  proved to run those transitions in place.

## Notes on the code

- The record is created by the conversion worker (app.py:43), not when the
  upload handler starts the thread.
- There is no separate "running" status: `iniciando` stays while the sheets
  are converted.
- Per-sheet progress is `20 + i*70/n` with Python's true division, so it
  is in general not a whole number.
- A failing sheet ends the whole conversion with `erro`: nothing catches
  an exception inside the sheet loop.

## How the model is organised

Each behaviour is stated once as a function and, where the source changes
state in place, run once more by a method proved equal to that function.
`Conversion.Writes` (with `SheetsFrom` and `Finish`) lists what a conversion
stores, and `Conversion.TaskStore.Convert` (with `ConvertSheets` and `Save`)
stores it step by step, proved to store exactly `Writes`. Each client
transition on `ClientState` (`AfterSelect`, `AfterUpload`, `AfterPoll`, and
so on) is run in place by the method of `Client.XLSBConverter` of the same
handler. The pairs describe one behaviour, not two.

Some members only help the proofs and stand for nothing in the source:
`Common.LowerDot`, `Common.TailAfterUnique`,
`Common.DecimalValue`, `Conversion.DivBelow`, `Conversion.LifecyclePair`,
`Conversion.LifecycleCons`, `Conversion.AppendAssoc`,
`Conversion.AppendTwo`, `Conversion.Progresses`, `Conversion.ProgressesAppend`,
`Conversion.Prior`, `Conversion.LoggedIn`, `Conversion.LogStep`,
`Conversion.EndsBy`, `FileNames.ChangedOnlyAtXlsb`, `FileNames.OccursInSuffix`,
`FileNames.ChangedAfterReplaced`, `FileNames.ChangedAfterCopied`,
`FileNames.NoXlsbAtFront` and
`Client.JoinClock`.

## Model

| member | source | states |
|---|---|---|
| `Common.TailAfterSpec` | app.py:36 | `rsplit(c, 1)[-1]`: the result is a suffix without `c`; it is shorter than the input exactly when `c` occurs, and then it follows the last `c` |
| `Common.TailAfter` | app.py:36 | the text after the last occurrence of a character, or the whole text when it does not occur: `rsplit(c, 1)[-1]`, also used for the base name of app.py:100; the result is never longer than the input |
| `Common.ToLower` | app.py:36 | `.lower()` (and `toLowerCase()` of static/progress.js:43) on ASCII: same length, each character lower-cased on its own |
| `Common.EndsWith` | static/progress.js:43 | `endsWith`: the suffix is no longer than the text and equals its last characters |
| `Common.NatToString` | app.py:68 | a count in an f-string: decimal digits only, one digit exactly below 10, a leading `0` only for 0 |
| `Common.NatToStringReadsBack` | app.py:68 | the decimal text of a count reads back as that count |
| `Common.IntToString` | static/progress.js:136 | `toString()` of an integer: starts with `-` exactly for a negative number, and is otherwise made of digits |
| `Common.IntToStringReadsBack` | static/progress.js:136 | the text of an integer reads back as that integer, a leading `-` negating the digits after it |
| `Common.PadStart` | static/progress.js:136 | `padStart(width, fill)`: the length is the larger of the input length and the width, the input is a suffix, and everything before it is the fill character |
| `FileNames.AllowedFile` | app.py:35-36 | `allowed_file`: the name holds a dot, and the text after its last dot, lower-cased, is `xlsb` |
| `FileNames.ReplaceAll` | app.py:143 | Python's `str.replace`: every occurrence of the pattern, found left to right without overlap, is replaced by the new text |
| `FileNames.AllowedFileShape` | app.py:35-36 | a name is allowed exactly when it ends in a dot followed by four characters that lower-case to `xlsb`; so a name without a dot is rejected |
| `FileNames.ReplaceAllLength` | app.py:143 | replacing a pattern by text of equal length keeps the length |
| `FileNames.ReplaceAllWithoutOccurrence` | app.py:143 | with no occurrence of the pattern, `replace` returns its input |
| `FileNames.OutputName` | app.py:143 | the output name has the length of the uploaded name |
| `FileNames.OutputNameChangesOnlyExtensionLetter` | app.py:143 | the output name differs from the uploaded name only at the last letter of a `.xlsb` in the uploaded name, where the `b` became `x` |
| `FileNames.OutputNameHasNoXlsb` | app.py:143 | no `.xlsb` is left in the output name |
| `FileNames.OutputNameUnchangedIff` | app.py:143 | the output name equals the uploaded name exactly when the latter holds no lower-case `.xlsb` |
| `FileNames.UpperCaseExtensionKeepsName` | app.py:135-143 | `A.XLSB` passes the allow-list and keeps its name |
| `FileNames.Join` | app.py:140-144 | POSIX `os.path.join` of the upload folder and a name: the folder, `/` and the name, except that an absolute name replaces the folder |
| `FileNames.Basename` | app.py:100 | POSIX `os.path.basename`: the text after the last `/` |
| `FileNames.BasenameOfJoin` | app.py:100 | the base name of a path joined into the upload folder is the joined name, when that name has no `/` |
| `FileNames.JoinInjective` | app.py:140-144 | joining into the upload folder maps distinct names to distinct paths |
| `Conversion.Status.Text` | app.py:43-114 | the four status texts a conversion writes: `iniciando`, `concluindo`, `completo`, `erro` |
| `Conversion.Status.Terminal` | static/progress.js:100-104 | the statuses after which the client stops polling: `completo` and `erro` |
| `Conversion.StatusTextInjective` | app.py:43-114 | distinct statuses are sent as distinct texts, so the client's comparisons at static/progress.js:100-102 tell them apart |
| `Conversion.Message.Text` | app.py:46-111 | the message texts the conversion writes, with the sheet count and the 1-based sheet position written in decimal |
| `Conversion.Started` | app.py:43-50 | the first write replaces the whole record: `iniciando`, progress 0, `Iniciando conversão...`, no filename, no error, the start time, no end time |
| `Conversion.Reading` | app.py:57-60 | progress 10 and `Lendo arquivo XLSB...`; the other keys are kept |
| `Conversion.SheetsFound` | app.py:66-69 | progress 20 and `Encontradas <n> planilha(s)`; the other keys are kept |
| `Conversion.SheetStarted` | app.py:73-78 | progress `20 + i*70/n` and `Convertendo planilha: <name> (<i+1>/<n>)` for sheet `i`; the other keys are kept |
| `Conversion.Closing` | app.py:88-92 | progress 95, `Finalizando conversão...`, status `concluindo` |
| `Conversion.Done` | app.py:96-102 | progress 100, `Conversão concluída com sucesso!`, status `completo`, the output's base name, the end time |
| `Conversion.Failed` | app.py:106-114 | status `erro`, `Erro na conversão: ` plus the exception text, the text as the error, the end time; progress and filename keep their values |
| `Conversion.MissingInputText` | app.py:53-54 | the text of the `FileNotFoundError` raised for a missing input: `Arquivo de entrada não encontrado: ` plus the input path |
| `Conversion.Finish` | app.py:88-102 | after the sheet loop: the save's error update, or the 95 and the 100 updates |
| `Conversion.SheetsFrom` | app.py:72-102 | from sheet `i` on: each sheet's update, then the error update if that sheet raises and nothing after it; after the last sheet, `Finish` |
| `Conversion.Writes` | app.py:43-114 | every record one conversion stores under its id, in order: the reset, then each step's update, with the error update right after the first exception and nothing after it |
| `Conversion.SheetProgress` | app.py:74 | the progress reported for sheet `i` of `n` lies in [20, 90); it is only taken for `i < n`, so `n` is never 0 |
| `Conversion.SheetProgressIncreasing` | app.py:72-74 | a later sheet reports strictly more progress |
| `Conversion.AttemptedFrom` | app.py:72-84 | the number of sheets the loop starts: every sheet before the last one started succeeded, and stopping early means the last one started failed |
| `Conversion.WritesLifecycle` | app.py:43-102 | the first write resets the record to `iniciando`, 0, no filename, no error; progress stays in [0, 100] and never decreases; only the last record is terminal |
| `Conversion.EarlyFailureLifecycle` | app.py:43-72 | when the input is missing, or opening it or creating the writer raises, the writes still follow the lifecycle |
| `Conversion.ConvertedLifecycle` | app.py:57-102 | when the writer is created, the three opening writes and everything after them follow the lifecycle |
| `Conversion.SheetsFromLifecycle` | app.py:72-102 | the writes of the loop and the save, after a non-terminal record with no more progress than the next step, keep that lifecycle |
| `Conversion.SheetsFromOutcome` | app.py:72-114 | the writes from sheet `i` on end with the first sheet or save failure as the error, or with 95 `concluindo` then 100 `completo` and the output's base name |
| `Conversion.ConvertedOutcome` | app.py:57-114 | once the writer is created, the writes end with the first sheet or save exception as the error, the last record being the failure update of the one before it, or with 95 `concluindo` and 100 `completo` carrying the output's base name |
| `Conversion.WritesOutcome` | app.py:106-114 | the last record's error is the first exception raised; the status is `completo` exactly when none was raised and `erro` exactly when one was; an error keeps the previous progress and filename and its message is `Erro na conversão: ` plus the exception text; success passes 95 `concluindo` and ends at 100 with the output's base name |
| `Conversion.MissingInputKeepsZero` | app.py:53-54 | a missing input gives two writes, ending in `erro` with progress 0, no filename and the not-found text as the error |
| `Conversion.SheetsFromProgresses` | app.py:72-102 | without failures, the loop and the save write `20 + i*70/n` for each remaining sheet, then 95 and 100 |
| `Conversion.SuccessProgressSequence` | app.py:57-102 | a successful run writes exactly 0, 10, 20, `20 + i*70/n` for i = 0..n-1, 95, 100 |
| `Conversion.SheetsFromLength` | app.py:72-102 | the number of writes from sheet `i` on: one per sheet started, plus one error or two final writes |
| `Conversion.SheetsFromAt` | app.py:75-78 | the `j`-th write from sheet `i` reports sheet `i + j`: its progress, and a message naming that sheet with its position `i+j+1` out of `n` |
| `Conversion.SheetsInOrder` | app.py:72-84 | after the three opening writes, one write per sheet in the order of the sheet names reports that sheet's position, up to and including the first failing sheet; then only the error or the two final writes follow |
| `Conversion.NoFailureBefore` | app.py:72-84 | the loop completes all sheets exactly when no sheet fails |
| `Conversion.FirstSheetFailureIsFirst` | app.py:72-84 | the exception that ends the loop is that of the first failing sheet, every earlier sheet having succeeded; none is found exactly when no sheet fails |
| `Conversion.NotFoundIsDistinct` | app.py:165-169 | the `nao_encontrado` status text is answered exactly for an unknown id, never for a stored record |
| `Conversion.Reply.StatusText` | app.py:165-171 | the `status` key of the progress answer: the stored status, or `nao_encontrado` for an unknown id |
| `Conversion.Reply.Progress` | app.py:165-171 | the `progress` key: the stored progress, or 0 for an unknown id |
| `Conversion.Reply.MessageText` | app.py:165-171 | the `message` key: the stored message text, or `Tarefa não encontrada` for an unknown id |
| `Conversion.Reply.Error` | app.py:165-171 | the `error` key as the client reads it: the stored error, absent for an unknown id |
| `Conversion.Reply.Filename` | app.py:165-171 | the `filename` key as the client reads it: the stored file name, absent for an unknown id |
| `Conversion.TaskStore.constructor` | app.py:33 | the task map starts empty |
| `Conversion.TaskStore.Store` | app.py:43-50 | one assignment to `conversion_progress[id]`: only that key changes |
| `Conversion.TaskStore.Log` | app.py:57-114 | one store of the conversion extends the record of what it has written under the id; other keys keep their values |
| `Conversion.TaskStore.GetProgress` | app.py:162-171 | a known id answers its stored record unchanged; an unknown id answers `nao_encontrado`, 0, `Tarefa não encontrada`; the lookup is total |
| `Conversion.TaskStore.Convert` | app.py:38-114 | the conversion leaves the last of `Writes` under its id, appends all of `Writes` to its history, and changes no other id |
| `Conversion.TaskStore.ConvertSheets` | app.py:72-102 | the sheet loop and the save store exactly the writes `SheetsFrom` lists, stopping at the first failing sheet |
| `Conversion.TaskStore.Save` | app.py:88-102 | after the loop, the store holds either the save error or the 95 and 100 writes |
| `Upload.UploadFile` | app.py:125-160 | 400 `Nenhum arquivo selecionado` for a missing field or empty name; 400 `Tipo de arquivo não permitido` exactly when the name is not allowed; 500 `Erro interno: ` plus the text exactly when a step of the accepted branch raises (saving the file, starting the conversion thread); otherwise the fresh id and the derived output name |
| `Upload.InputPath` | app.py:139-141 | the upload is saved under its name in the upload folder |
| `Upload.OutputPath` | app.py:143-144 | the converted file is written under the derived name in the upload folder |
| `Upload.SamePathIff` | app.py:139-144 | an accepted upload's input and output paths coincide exactly when its name holds no lower-case `.xlsb` |
| `Upload.UpperCaseUploadOverwritesInput` | app.py:135-154 | `A.XLSB` is accepted under the name `A.XLSB`, and its conversion writes to its input path |
| `Upload.OutputNameKeepsSeparatorsOut` | app.py:143 | deriving the output name adds no `/` |
| `Upload.ReportedNameIsConvertedName` | app.py:143-154 | the file name the upload answers with is the file name a successful conversion stores, for a name without `/` |
| `Upload.UploadAndConvert` | app.py:135-154 | a poll of the new id before the conversion's first step answers "not found"; a rejected upload leaves the map alone; an accepted one ends with the conversion's writes under the fresh id |
| `Client.Accepts` | static/progress.js:43 | the picker accepts a file whose lower-cased name ends in `.xlsb` |
| `Client.AfterSelect` | static/progress.js:36-52 | `handleFileSelect`: no file changes nothing, a wrong name shows `Por favor, selecione um arquivo .xlsb`, any other file hides the error |
| `Client.Sends` | static/progress.js:51 | the file handed to `uploadAndConvert`: the selected file when its name passes the client's check, otherwise none |
| `Client.TextSet` | static/progress.js:66 | JavaScript truthiness of an optional text (also at lines 92 and 155): present and not empty |
| `Client.TimeSet` | static/progress.js:128 | JavaScript truthiness of the start time: present and not 0 |
| `Client.AcceptsAgreesWithServer` | static/progress.js:43 | the client's lower-cased `.endsWith('.xlsb')` accepts exactly the names the server's `allowed_file` accepts |
| `Client.SelectAgreesWithServer` | static/progress.js:36-52 | no file changes nothing and sends nothing; a file is sent exactly when the server allows its name; a rejected name only shows `Por favor, selecione um arquivo .xlsb` |
| `Client.ElapsedSeconds` | static/progress.js:131 | `Math.floor((Date.now() - startTime) / 1000)`: whole seconds elapsed, rounded down also for a negative difference |
| `Client.Rem60` | static/progress.js:134 | JavaScript's `%` by 60: in [0, 60) for non-negative input, in (-60, 0] for negative input, and a multiple of 60 away from the input |
| `Client.MinutesSeconds` | static/progress.js:131-134 | for `s >= 0`: `0 <= seconds < 60` and `60*minutes + seconds == s`; for a negative `s`, minutes are negative and the pair falls 60 short unless the seconds are 0 |
| `Client.Clock` | static/progress.js:136 | minutes and seconds, each padded on the left with `0` to two characters, joined by `:` |
| `Client.ElapsedText` | static/progress.js:131-136 | the `MM:SS` text of a number of elapsed seconds |
| `Client.TwoDigits` | static/progress.js:136 | a number below 100, padded to two, is its tens and units digits |
| `Client.ClockDigits` | static/progress.js:136 | minutes and seconds below 100 show as the five characters `MM:SS` |
| `Client.ClockReadsBack` | static/progress.js:136 | the digits of `MM:SS` read back as the minutes and the seconds |
| `Client.ElapsedTextShape` | static/progress.js:131-136 | under 6000 seconds the text is exactly the five characters `MM:SS`, and its digits read back as the elapsed seconds |
| `Client.ErrorOrDefault` | static/progress.js:155 | a missing or empty error shows as `Erro desconhecido na conversão`; any other error shows as is |
| `Client.UpdateElapsed` | static/progress.js:127-137 | does nothing while `startTime` is unset; otherwise shows the text of the whole seconds elapsed |
| `Client.ClearInterval` | static/progress.js:140 | `clearInterval(this.progressInterval)`: the interval in the field stops, clearing null does nothing, and the field keeps its value |
| `Client.StartMonitoring` | static/progress.js:79-89 | `startConversionMonitoring`: sets the start time, shows the elapsed time and starts a new interval stored in `progressInterval`; as written (`clearFirst` false) the interval already running keeps running |
| `Client.AfterUpload` | static/progress.js:54-77 | an answer carrying an error, or a failed request, only shows an error |
| `Client.ToJson` | static/progress.js:64-71 | the JSON body of each upload answer of app.py:129-160 as the client reads it: a task id exactly for an accepted upload, an error text exactly for a rejected one |
| `Client.UploadOutcomeOnClient` | static/progress.js:66-72 | a server rejection leaves `taskId` as it was; an acceptance sets `taskId` to the new id, sets the start time, and starts a live interval |
| `Client.Round` | static/progress.js:117 | `Math.round`: the nearest integer, with halves rounded up |
| `Client.ShowProgress` | static/progress.js:110-125 | `updateProgressUI`: the rounded percentage and the message; the elapsed time only when progress is above 0 |
| `Client.ShowProgressOfWrites` | static/progress.js:110-125 | every record a conversion stores shows as a percentage in [0, 100] with its own message; the elapsed time is kept while progress is 0 and refreshed once it is above 0 |
| `Client.Complete` | static/progress.js:139-151 | `onConversionComplete`: stops the current interval and offers the reported filename for download |
| `Client.Fail` | static/progress.js:153-156 | `onConversionError`: stops the current interval and shows the error or `Erro desconhecido na conversão` |
| `Client.AfterPoll` | static/progress.js:91-108 | a tick does nothing while `taskId` is unset or when the request fails |
| `Client.StopStatusIff` | static/progress.js:100-104 | a reply reads `completo` (or `erro`) exactly when it carries a stored record with that status |
| `Client.PollStopsIffTerminal` | static/progress.js:100-104 | a poll clears the running interval exactly when the task has ended; `nao_encontrado` and in-progress replies keep polling; completion offers the record's filename, an error shows its text or the default |
| `Client.UploadTimers` | static/progress.js:66-89 | an accepted upload sets `taskId` and starts interval number `nextTimer`; the running intervals are the earlier ones, less the current one only when it is cleared first, plus the new one |
| `Client.PollTimers` | static/progress.js:91-108 | a poll never starts an interval or changes `taskId`; it clears the current interval exactly when `taskId` is set and the reply carries an ended task |
| `Client.IntervalLeakAsWritten` | static/progress.js:79-89 | as written: after two accepted uploads, the poll that sees the task end leaves the first interval running, and so does the next tick; `LeakOutlivesEveryTick` extends this to every later tick |
| `Client.LeakOutlivesEveryTick` | static/progress.js:91-108 | once interval 1 runs behind interval 2, any later tick, whatever it answers, leaves interval 1 running and `progressInterval` at 2 |
| `Client.TidyPreserved` | static/progress.js:36-156 | when a new interval starts only after the running one is cleared, every handler keeps at most the interval in `progressInterval` running |
| `Client.TerminalPollStopsPolling` | static/progress.js:139-156 | from such a state, the poll that sees `completo` or `erro` leaves no interval running |
| `Client.NoLeakWhenCleared` | static/progress.js:79-89 | the same two uploads with the corrected start end with no interval running |
| `Client.XLSBConverter.constructor` | static/progress.js:2-7 | `taskId`, `startTime` and `progressInterval` start unset |
| `Client.XLSBConverter.ShowError` | static/progress.js:158-162 | shows the message and changes nothing else |
| `Client.XLSBConverter.HandleFileSelect` | static/progress.js:36-52 | hands on exactly the file `Sends` names and makes the `AfterSelect` transition |
| `Client.XLSBConverter.UpdateElapsedTime` | static/progress.js:127-137 | makes the `UpdateElapsed` transition |
| `Client.XLSBConverter.ClearProgressInterval` | static/progress.js:140 | stops the interval in `progressInterval`, if any |
| `Client.XLSBConverter.StartConversionMonitoring` | static/progress.js:79-89 | records the start time, shows the elapsed time, and replaces the running interval by a new one (corrected start) |
| `Client.XLSBConverter.UploadAndConvert` | static/progress.js:54-77 | makes the `AfterUpload` transition with the corrected start, and so keeps at most one interval running (the code as written does not; see Left out) |
| `Client.XLSBConverter.UpdateProgressUI` | static/progress.js:110-125 | shows the rounded percentage and the message, and shows the elapsed time only once progress is above 0 |
| `Client.XLSBConverter.OnConversionComplete` | static/progress.js:139-151 | stops polling and offers the reported filename for download |
| `Client.XLSBConverter.OnConversionError` | static/progress.js:153-156 | stops polling and shows the error or the default text |
| `Client.XLSBConverter.CheckProgress` | static/progress.js:91-108 | makes the `AfterPoll` transition and keeps the at-most-one-interval invariant |

## Left out

- Threads. Each conversion runs to its end against the map before anything else touches it. Interleavings of concurrent conversions and polls are not modelled.
- `time.sleep` pacing and `datetime.now()`. The start and end timestamps are parameters, taken as opaque strings.
- Logging, the Flask app and routing, the index page, the health check, the download route and `app.run`. These are I/O plumbing.
- `secure_filename` (werkzeug) is not part of this model. Its result is taken to be the uploaded name. The lemmas about base names therefore assume a name without `/`.
- `uuid.uuid4` is not part of this model. The fresh task id is a parameter and is assumed absent from the map.
- pandas, pyxlsb and openpyxl are not part of this model. A `Workbook` value stands for them: a missing input, an exception while opening, an exception while creating the writer, per-sheet exceptions and a save exception. `read_excel` and `to_excel` exceptions on the same sheet are one per-sheet failure.
- Conversion.TaskStore.Convert: when a sheet fails and closing the writer then raises too, Python reports the close exception. The model reports the sheet's exception.
- Conversion.SheetsFrom: same choice as `Conversion.TaskStore.Convert` above; the exception it ends with is the failing sheet's, not that of a close that also raises.
- Conversion.Writes: same choice as `Conversion.TaskStore.Convert` above; the exception it ends with is the failing sheet's, not that of a close that also raises.
- Conversion.SheetsFromOutcome: same choice as `Conversion.TaskStore.Convert` above; the exception it ends with is the failing sheet's, not that of a close that also raises.
- Conversion.ConvertedOutcome: same choice as `Conversion.TaskStore.Convert` above; the exception it ends with is the failing sheet's, not that of a close that also raises.
- Conversion.WritesOutcome: same choice as `Conversion.TaskStore.Convert` above; the exception it ends with is the failing sheet's, not that of a close that also raises.
- Floating point. Python's `/` and JavaScript's `Math.round` are modelled on exact reals. The ordering facts do not depend on rounding.
- Lower-casing is ASCII only. Python's `str.lower` and JavaScript's `toLowerCase` also fold non-ASCII letters, which cannot form `xlsb`.
- DOM access, `fetch`, `setInterval` timing, drag and drop, `scrollIntoView` and `console.error`. The browser's intervals are kept only as the set of intervals still running.
- The progress bar width and the selected file's info line.
- `formatFileSize`, because it relies on floating-point `Math.log`, `toFixed` and `parseFloat`.
- Client.XLSBConverter.StartConversionMonitoring: the class uses the corrected start (see Findings). The code as written is modelled by `Client.StartMonitoring` with `clearFirst` false.
- Client.XLSBConverter.UploadAndConvert: runs the corrected start, so it keeps at most one interval running; the handler as written (static/progress.js:71-72 calling 79-89) does not. The handler as written is `Client.AfterUpload` with `clearFirst` false, and `Client.IntervalLeakAsWritten` shows the interval it leaves running.

## Findings

| source | as written | input that shows it | evidently intended | confidence | as-written member | corrected member |
|---|---|---|---|---|---|---|
| static/progress.js:79-89 | `startConversionMonitoring` stores a new interval in `progressInterval` without clearing the one already running; `onConversionComplete`/`onConversionError` clear only the newest | a second file is uploaded while the first is still polling; the next poll reads `completo` | polling stops once the polled task ends: the running interval is cleared before a new one starts | medium, not executed | `Client.IntervalLeakAsWritten` | `Client.TerminalPollStopsPolling` |
