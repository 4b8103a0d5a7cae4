/** The browser client: the extension check made before an upload, the
    elapsed-time display, and the polling loop that asks for a task's
    progress once a second until the task ends. Each handler is a
    transition of `ClientState`; the class `XLSBConverter` holds the same
    state in fields and runs the transitions in place. */
module Client {
  import opened Common
  import opened FileNames
  import opened Conversion
  import opened Upload

  // ---------------------------------------------------------------------
  // The extension check of the file picker.

  /** The client uploads a file only when its lower-cased name ends in
      ".xlsb". */
  predicate Accepts(name: string)
  {
    EndsWith(ToLower(name), ".xlsb")
  }

  /** The client's check and the server's allow-list accept the same names. */
  lemma AcceptsAgreesWithServer(name: string)
    ensures Accepts(name) <==> AllowedFile(name)
  {
    AllowedFileShape(name);
    var n := |name|;
    if n >= 5 {
      var low := ToLower(name);
      LowerDot(name[n - 5]);
      assert low[n - 5..] == [low[n - 5]] + low[n - 4..];
      assert low[n - 4..] == ToLower(name[n - 4..]);
      if Accepts(name) {
        assert low[n - 5] == ".xlsb"[0];
        assert low[n - 4..] == ".xlsb"[1..];
      }
      if AllowedFile(name) {
        assert low[n - 5..] == ".xlsb";
      }
    }
  }

  // ---------------------------------------------------------------------
  // Elapsed time.

  /** Whole seconds since `start`, both in milliseconds: `Math.floor` of
      the quotient, which Dafny's division gives for a positive divisor. */
  function ElapsedSeconds(now: int, start: int): int
  {
    (now - start) / 1000
  }

  /** JavaScript's `s % 60`: the remainder takes the sign of `s`. */
  function Rem60(s: int): (r: int)
    ensures s >= 0 ==> 0 <= r < 60
    ensures s < 0 ==> -60 < r <= 0
    ensures (s - r) % 60 == 0
  {
    if s >= 0 then s % 60 else -((-s) % 60)
  }

  /** Minutes and seconds of `s` elapsed seconds: `Math.floor(s / 60)` and
      `s % 60`. For `s >= 0` they are the quotient and remainder by 60; a
      negative `s` (a clock set back) gives a non-positive remainder. */
  function MinutesSeconds(s: int): (ms: (int, int))
    ensures s >= 0 ==> 0 <= ms.0 && 0 <= ms.1 < 60 && 60 * ms.0 + ms.1 == s
    ensures s < 0 ==>
      (ms.0 < 0 && -60 < ms.1 <= 0 && 60 * ms.0 + ms.1 == (if ms.1 == 0 then s else s - 60))
  {
    (s / 60, Rem60(s))
  }

  /** The text shown for `s` elapsed seconds: minutes and seconds, each
      padded on the left with '0' to two characters, joined by ':'. */
  function ElapsedText(s: int): string
  {
    var ms := MinutesSeconds(s);
    Clock(ms.0, ms.1)
  }

  function Clock(m: int, sec: int): string
  {
    PadStart(IntToString(m), 2, '0') + ":" + PadStart(IntToString(sec), 2, '0')
  }

  /** A number below 100, padded to two characters, is its two digits. */
  lemma TwoDigits(n: nat)
    requires n < 100
    ensures PadStart(IntToString(n), 2, '0') == [Digit(n / 10), Digit(n % 10)]
  {
    if n >= 10 {
      var q := NatToString(n / 10);
      assert q == [Digit(n / 10)];
    }
  }

  function DigitValue(c: char): int
  {
    c as int - '0' as int
  }

  /** Two numbers below 100 show as "MM:SS". */
  lemma ClockDigits(m: nat, sec: nat)
    requires m < 100 && sec < 100
    ensures Clock(m, sec) == [Digit(m / 10), Digit(m % 10), ':', Digit(sec / 10), Digit(sec % 10)]
  {
    var mm, ss := PadStart(IntToString(m), 2, '0'), PadStart(IntToString(sec), 2, '0');
    TwoDigits(m);
    TwoDigits(sec);
    JoinClock(mm, ss);
  }

  lemma JoinClock(a: string, b: string)
    requires |a| == 2 && |b| == 2
    ensures a + ":" + b == [a[0], a[1], ':', b[0], b[1]]
  {
  }

  /** The digits of "MM:SS" read back as the minutes and seconds. */
  lemma ClockReadsBack(t: string, m: nat, sec: nat)
    requires m < 100 && sec < 100
    requires t == [Digit(m / 10), Digit(m % 10), ':', Digit(sec / 10), Digit(sec % 10)]
    ensures 10 * DigitValue(t[0]) + DigitValue(t[1]) == m
    ensures 10 * DigitValue(t[3]) + DigitValue(t[4]) == sec
  {
  }

  /** Under 100 minutes the text is exactly five characters, "MM:SS", and
      reading its digits back gives the elapsed seconds. */
  lemma ElapsedTextShape(s: int)
    requires 0 <= s < 6000
    ensures var t := ElapsedText(s);
      var ms := MinutesSeconds(s);
      && t == [Digit(ms.0 / 10), Digit(ms.0 % 10), ':', Digit(ms.1 / 10), Digit(ms.1 % 10)]
      && 60 * (10 * DigitValue(t[0]) + DigitValue(t[1])) + 10 * DigitValue(t[3]) + DigitValue(t[4]) == s
  {
    var ms := MinutesSeconds(s);
    var m, sec := ms.0, ms.1;
    assert m < 100 by {
      assert 60 * m <= s;
    }
    ClockDigits(m, sec);
    ClockReadsBack(ElapsedText(s), m, sec);
  }

  // ---------------------------------------------------------------------
  // Client state.

  /** What the upload endpoint's answer gives the client: the JSON object,
      or the text of the exception `fetch` raised. */
  datatype UploadReply =
    | UploadJson(error: Option<string>, taskId: Option<TaskId>)
    | SendFailed(reason: string)

  /** The JSON the server sends for each upload response. */
  function ToJson(resp: Response): (r: UploadReply)
    ensures r.UploadJson?
    ensures r.taskId.Some? <==> resp.Accepted?
    ensures r.error.Some? <==> resp.Rejected?
    ensures resp.Accepted? ==> r.taskId.value == resp.taskId
    ensures resp.Rejected? ==> r.error.value == resp.error
  {
    match resp
    case Accepted(id, _) => UploadJson(None, Some(id))
    case Rejected(_, e) => UploadJson(Some(e), None)
  }

  /** One tick of the polling interval: the decoded progress reply, or a
      failed request. */
  datatype Poll = Polled(reply: Reply) | PollFailed

  /** The fields of the converter object, the intervals the browser still
      runs, and what the page shows. Timer ids are handed out from
      `nextTimer` and are never 0. */
  datatype ClientState = ClientState(
    taskId: Option<TaskId>,
    startTime: Option<int>,
    progressInterval: Option<nat>,
    live: set<nat>,
    nextTimer: nat,
    errorText: Option<string>,
    elapsedText: Option<string>,
    percentText: Option<int>,
    messageText: Option<string>,
    downloadVisible: bool,
    downloadName: Option<string>)

  function Initial(): ClientState
  {
    ClientState(None, None, None, {}, 1, None, None, None, None, false, None)
  }

  /** JavaScript truthiness of the optional values the client tests. */
  predicate TextSet(t: Option<string>)
  {
    t.Some? && t.value != ""
  }

  predicate TimeSet(t: Option<int>)
  {
    t.Some? && t.value != 0
  }

  const WrongType: string := "Por favor, selecione um arquivo .xlsb"
  const UnknownError: string := "Erro desconhecido na conversão"

  /** `error || 'Erro desconhecido na conversão'`. */
  function ErrorOrDefault(error: Option<string>): (t: string)
    ensures t != ""
    ensures TextSet(error) ==> t == error.value
    ensures !TextSet(error) ==> t == UnknownError
  {
    if TextSet(error) then error.value else UnknownError
  }

  /** The file the picker hands to the upload, if any. */
  function Sends(file: Option<string>): Option<string>
  {
    if file.Some? && Accepts(file.value) then file else None
  }

  /** `handleFileSelect`: nothing for no file, an error for a wrong name,
      otherwise the error is hidden and the file is sent. */
  function AfterSelect(s: ClientState, file: Option<string>): ClientState
  {
    if file.None? then s
    else if !Accepts(file.value) then s.(errorText := Some(WrongType))
    else s.(errorText := None)
  }

  /** The picker sends exactly the files the server accepts by name; a
      missing file changes nothing, a rejected one only shows the error. */
  lemma SelectAgreesWithServer(s: ClientState, file: Option<string>)
    ensures file.None? ==> AfterSelect(s, file) == s && Sends(file) == None
    ensures file.Some? ==> (Sends(file) == file <==> AllowedFile(file.value))
    ensures file.Some? ==> (Sends(file) == None <==> !AllowedFile(file.value))
    ensures file.Some? && !AllowedFile(file.value) ==> AfterSelect(s, file) == s.(errorText := Some(WrongType))
  {
    if file.Some? {
      AcceptsAgreesWithServer(file.value);
    }
  }

  /** `updateElapsedTime` at clock reading `now`. */
  function UpdateElapsed(s: ClientState, now: int): (r: ClientState)
    ensures !TimeSet(s.startTime) ==> r == s
    ensures TimeSet(s.startTime) ==>
      r == s.(elapsedText := Some(ElapsedText(ElapsedSeconds(now, s.startTime.value))))
  {
    if !TimeSet(s.startTime) then s
    else s.(elapsedText := Some(ElapsedText(ElapsedSeconds(now, s.startTime.value))))
  }

  /** `clearInterval(this.progressInterval)`; clearing null does nothing.
      The field keeps its value. */
  function ClearInterval(s: ClientState): ClientState
  {
    if s.progressInterval.Some? then s.(live := s.live - {s.progressInterval.value}) else s
  }

  /** `startConversionMonitoring`: record the start time, show the elapsed
      time, and start a new polling interval. With `clearFirst` the
      interval already running is cleared before; the code as written does
      not do so. */
  function StartMonitoring(s: ClientState, now: int, clearFirst: bool): ClientState
  {
    var s1 := UpdateElapsed(s.(startTime := Some(now)), now);
    var s2 := if clearFirst then ClearInterval(s1) else s1;
    s2.(progressInterval := Some(s2.nextTimer), live := s2.live + {s2.nextTimer}, nextTimer := s2.nextTimer + 1)
  }

  /** `uploadAndConvert` once the answer is in. */
  function AfterUpload(s: ClientState, reply: UploadReply, now: int, clearFirst: bool): (r: ClientState)
    ensures reply.UploadJson? && TextSet(reply.error) ==>
      r == s.(errorText := reply.error)
    ensures reply.SendFailed? ==> r == s.(errorText := Some("Erro ao enviar arquivo: " + reply.reason))
  {
    match reply
    case SendFailed(reason) => s.(errorText := Some("Erro ao enviar arquivo: " + reason))
    case UploadJson(error, id) =>
      if TextSet(error) then s.(errorText := error)
      else StartMonitoring(s.(taskId := id), now, clearFirst)
  }

  /** A server rejection leaves the task id as it was; an acceptance sets
      it to the new id and starts a live polling interval. */
  lemma UploadOutcomeOnClient(s: ClientState, resp: Response, now: int, clearFirst: bool)
    ensures var r := AfterUpload(s, ToJson(resp), now, clearFirst);
      resp.Rejected? && resp.error != "" ==> r.taskId == s.taskId && r.errorText == Some(resp.error)
    ensures var r := AfterUpload(s, ToJson(resp), now, clearFirst);
      resp.Accepted? ==>
        r.taskId == Some(resp.taskId) && r.startTime == Some(now) &&
        r.progressInterval == Some(s.nextTimer) && s.nextTimer in r.live
  {
  }

  /** `Math.round`: to the nearest integer, halves upwards. */
  function Round(x: real): (n: int)
    ensures x - 0.5 < n as real <= x + 0.5
  {
    (x + 0.5).Floor
  }

  /** `updateProgressUI`: the bar, the rounded percentage and the message;
      the elapsed time only once progress is above zero. */
  function ShowProgress(s: ClientState, reply: Reply, now: int): ClientState
  {
    var shown := s.(percentText := Some(Round(reply.Progress())), messageText := Some(reply.MessageText()));
    if reply.Progress() > 0.0 then UpdateElapsed(shown, now) else shown
  }

  /** Every record a conversion stores shows as a whole percentage in
      [0, 100] with its own message. The elapsed time is left as it was
      while the record is at 0, and is refreshed once progress is above 0
      and the start time is set. */
  lemma ShowProgressOfWrites(s: ClientState, inPath: string, outPath: string, wb: Workbook,
                             start: Timestamp, end: Timestamp, j: nat, now: int)
    requires j < |Writes(inPath, outPath, wb, start, end)|
    ensures var rec := Writes(inPath, outPath, wb, start, end)[j];
      var t := ShowProgress(s, Found(rec), now);
      && 0 <= t.percentText.value <= 100
      && t.messageText == Some(rec.message.Text())
      && (rec.progress == 0.0 ==> t.elapsedText == s.elapsedText)
      && (rec.progress > 0.0 && TimeSet(s.startTime) ==>
            t.elapsedText == Some(ElapsedText(ElapsedSeconds(now, s.startTime.value))))
  {
    WritesLifecycle(inPath, outPath, wb, start, end);
  }

  /** `onConversionComplete`: stop polling and offer the download. */
  function Complete(s: ClientState, filename: Option<string>): ClientState
  {
    ClearInterval(s).(downloadVisible := true, downloadName := filename)
  }

  /** `onConversionError`: stop polling and show the error. */
  function Fail(s: ClientState, error: Option<string>): ClientState
  {
    ClearInterval(s).(errorText := Some(ErrorOrDefault(error)))
  }

  /** `checkProgress` on one tick of an interval. */
  function AfterPoll(s: ClientState, poll: Poll, now: int): (r: ClientState)
    ensures !TextSet(s.taskId) || poll.PollFailed? ==> r == s
  {
    if !TextSet(s.taskId) then s
    else match poll
      case PollFailed => s
      case Polled(reply) =>
        var shown := ShowProgress(s, reply, now);
        if reply.StatusText() == "completo" then Complete(shown, reply.Filename())
        else if reply.StatusText() == "erro" then Fail(shown, reply.Error())
        else shown
  }

  /** A reply reads "completo" or "erro" exactly when it carries a stored
      record that has ended. */
  lemma StopStatusIff(reply: Reply)
    ensures reply.StatusText() == "completo" <==> reply.Found? && reply.record.status == Completo
    ensures reply.StatusText() == "erro" <==> reply.Found? && reply.record.status == Erro
  {
    NotFoundIsDistinct(reply);
    if reply.Found? {
      var st := reply.record.status;
      assert st.Text()[0] == 'c' ==> st == Completo || st == Concluindo;
      assert Concluindo.Text()[2] != "completo"[2];
    }
  }

  /** A poll stops the running interval exactly when the task has ended;
      an unknown id or a task still converting keeps it polling. */
  lemma PollStopsIffTerminal(s: ClientState, reply: Reply, now: int)
    requires TextSet(s.taskId) && s.progressInterval.Some? && s.progressInterval.value in s.live
    ensures var r := AfterPoll(s, Polled(reply), now);
      s.progressInterval.value !in r.live <==> reply.Found? && reply.record.status.Terminal()
    ensures var r := AfterPoll(s, Polled(reply), now);
      reply.Found? && reply.record.status == Completo ==> r.downloadVisible && r.downloadName == reply.record.filename
    ensures var r := AfterPoll(s, Polled(reply), now);
      reply.Found? && reply.record.status == Erro ==> r.errorText == Some(ErrorOrDefault(reply.record.error))
  {
    StopStatusIff(reply);
  }

  // ---------------------------------------------------------------------
  // Intervals left running.

  /** At most the interval in `progressInterval` is running. */
  predicate Tidy(s: ClientState)
  {
    s.live <= (if s.progressInterval.Some? then {s.progressInterval.value} else {})
  }

  /** As written, a second upload while the first is still polling leaves
      the first interval running: after a poll that ends the task, an
      interval still polls, and so it does after the next tick (every later
      tick: `LeakOutlivesEveryTick`). */
  lemma IntervalLeakAsWritten(a: TaskId, b: TaskId, record: Record, t0: int, t1: int, t2: int)
    requires a != "" && b != "" && record.status.Terminal()
    ensures var s1 := AfterUpload(Initial(), UploadJson(None, Some(a)), t0, false);
      var s2 := AfterUpload(s1, UploadJson(None, Some(b)), t1, false);
      var s3 := AfterPoll(s2, Polled(Found(record)), t2);
      s3.live == {1} && !Tidy(s2) &&
      AfterPoll(s3, Polled(Found(record)), t2).live == {1}
  {
    var s1 := AfterUpload(Initial(), UploadJson(None, Some(a)), t0, false);
    UploadTimers(Initial(), None, Some(a), t0, false);
    var s2 := AfterUpload(s1, UploadJson(None, Some(b)), t1, false);
    UploadTimers(s1, None, Some(b), t1, false);
    assert s2.live == {1, 2};
    var s3 := AfterPoll(s2, Polled(Found(record)), t2);
    PollTimers(s2, Found(record), t2);
    assert s3.live == {1, 2} - {2} == {1};
    PollTimers(s3, Found(record), t2);
  }

  /** Once interval 1 is left running behind interval 2, as
      `IntervalLeakAsWritten` ends, no later tick stops it, whatever the
      poll answers: only the interval in `progressInterval` is ever
      cleared. */
  lemma LeakOutlivesEveryTick(s: ClientState, poll: Poll, now: int)
    requires s.progressInterval == Some(2) && s.live == {1}
    ensures AfterPoll(s, poll, now).live == {1}
    ensures AfterPoll(s, poll, now).progressInterval == Some(2)
  {
    if poll.Polled? {
      PollTimers(s, poll.reply, now);
    }
  }

  /** An accepted upload sets the task id and starts interval `nextTimer`;
      the running intervals are those before, less the current one when it
      is cleared first, plus the new one. */
  lemma UploadTimers(s: ClientState, error: Option<string>, id: Option<TaskId>, now: int, clearFirst: bool)
    requires !TextSet(error)
    ensures var r := AfterUpload(s, UploadJson(error, id), now, clearFirst);
      && r.taskId == id
      && r.live == (if clearFirst then ClearInterval(s).live else s.live) + {s.nextTimer}
      && r.progressInterval == Some(s.nextTimer)
      && r.nextTimer == s.nextTimer + 1
  {
  }

  /** A poll leaves the timer fields alone except that a reply whose task
      has ended clears the current interval. */
  lemma PollTimers(s: ClientState, reply: Reply, now: int)
    ensures var r := AfterPoll(s, Polled(reply), now);
      && r.live == (if TextSet(s.taskId) && reply.Found? && reply.record.status.Terminal()
                    then ClearInterval(s).live else s.live)
      && r.progressInterval == s.progressInterval
      && r.nextTimer == s.nextTimer
      && r.taskId == s.taskId
  {
    StopStatusIff(reply);
  }

  /** With the previous interval cleared first, every handler keeps at
      most one interval running. */
  lemma TidyPreserved(s: ClientState, file: Option<string>, reply: UploadReply, poll: Poll, now: int)
    requires Tidy(s)
    ensures Tidy(AfterSelect(s, file))
    ensures Tidy(AfterUpload(s, reply, now, true))
    ensures Tidy(AfterPoll(s, poll, now))
    ensures Tidy(UpdateElapsed(s, now))
  {
    if reply.UploadJson? && !TextSet(reply.error) {
      UploadTimers(s, reply.error, reply.taskId, now, true);
    }
    if poll.Polled? {
      PollTimers(s, poll.reply, now);
    }
  }

  /** With the corrected start, the poll that sees the task end leaves no
      interval running. */
  lemma TerminalPollStopsPolling(s: ClientState, record: Record, now: int)
    requires Tidy(s) && TextSet(s.taskId) && record.status.Terminal()
    ensures AfterPoll(s, Polled(Found(record)), now).live == {}
  {
    StopStatusIff(Found(record));
  }

  /** The same two uploads as in `IntervalLeakAsWritten`, with the
      corrected start: the terminal poll stops all polling. */
  lemma NoLeakWhenCleared(a: TaskId, b: TaskId, record: Record, t0: int, t1: int, t2: int)
    requires a != "" && b != "" && record.status.Terminal()
    ensures var s1 := AfterUpload(Initial(), UploadJson(None, Some(a)), t0, true);
      var s2 := AfterUpload(s1, UploadJson(None, Some(b)), t1, true);
      AfterPoll(s2, Polled(Found(record)), t2).live == {}
  {
    var s1 := AfterUpload(Initial(), UploadJson(None, Some(a)), t0, true);
    TidyPreserved(Initial(), None, UploadJson(None, Some(a)), PollFailed, t0);
    var s2 := AfterUpload(s1, UploadJson(None, Some(b)), t1, true);
    TidyPreserved(s1, None, UploadJson(None, Some(b)), PollFailed, t1);
    TerminalPollStopsPolling(s2, record, t2);
  }

  // ---------------------------------------------------------------------
  // The converter object.

  /** The page's converter object. Its three own fields are set and
      cleared by the handlers; `live` and `nextTimer` stand for the
      browser's interval table, and the remaining fields for what the page
      shows. Every handler is the transition of the same name above, with
      the interval already running cleared before a new one starts. */
  class XLSBConverter {
    var taskId: Option<TaskId>
    var startTime: Option<int>
    var progressInterval: Option<nat>
    var live: set<nat>
    var nextTimer: nat
    var errorText: Option<string>
    var elapsedText: Option<string>
    var percentText: Option<int>
    var messageText: Option<string>
    var downloadVisible: bool
    var downloadName: Option<string>

    function State(): ClientState
      reads this
    {
      ClientState(taskId, startTime, progressInterval, live, nextTimer, errorText,
                   elapsedText, percentText, messageText, downloadVisible, downloadName)
    }

    constructor ()
      ensures State() == Initial()
    {
      taskId, startTime, progressInterval := None, None, None;
      live, nextTimer := {}, 1;
      errorText, elapsedText, percentText, messageText := None, None, None, None;
      downloadVisible, downloadName := false, None;
    }

    method ShowError(message: string)
      modifies this
      ensures State() == old(State()).(errorText := Some(message))
    {
      errorText := Some(message);
    }

    /** Returns the file handed to the upload, if any. */
    method HandleFileSelect(file: Option<string>) returns (sent: Option<string>)
      modifies this
      ensures sent == Sends(file) && State() == AfterSelect(old(State()), file)
    {
      sent := None;
      if file.None? {
        return;
      }
      if !Accepts(file.value) {
        ShowError(WrongType);
        return;
      }
      errorText := None;
      sent := file;
    }

    method UpdateElapsedTime(now: int)
      modifies this
      ensures State() == UpdateElapsed(old(State()), now)
    {
      if !TimeSet(startTime) {
        return;
      }
      elapsedText := Some(ElapsedText(ElapsedSeconds(now, startTime.value)));
    }

    method ClearProgressInterval()
      modifies this
      ensures State() == ClearInterval(old(State()))
    {
      if progressInterval.Some? {
        live := live - {progressInterval.value};
      }
    }

    method StartConversionMonitoring(now: int)
      modifies this
      ensures State() == StartMonitoring(old(State()), now, true)
    {
      startTime := Some(now);
      UpdateElapsedTime(now);
      ClearProgressInterval();
      progressInterval := Some(nextTimer);
      live := live + {nextTimer};
      nextTimer := nextTimer + 1;
    }

    method UploadAndConvert(reply: UploadReply, now: int)
      modifies this
      ensures State() == AfterUpload(old(State()), reply, now, true)
      ensures Tidy(old(State())) ==> Tidy(State())
    {
      if Tidy(State()) {
        TidyPreserved(State(), None, reply, PollFailed, now);
      }
      match reply
      case SendFailed(reason) =>
        ShowError("Erro ao enviar arquivo: " + reason);
      case UploadJson(error, id) =>
        if TextSet(error) {
          ShowError(error.value);
          return;
        }
        taskId := id;
        StartConversionMonitoring(now);
    }

    method UpdateProgressUI(reply: Reply, now: int)
      modifies this
      ensures State() == ShowProgress(old(State()), reply, now)
    {
      percentText := Some(Round(reply.Progress()));
      messageText := Some(reply.MessageText());
      if reply.Progress() > 0.0 {
        UpdateElapsedTime(now);
      }
    }

    method OnConversionComplete(filename: Option<string>)
      modifies this
      ensures State() == Complete(old(State()), filename)
    {
      ClearProgressInterval();
      downloadName := filename;
      downloadVisible := true;
    }

    method OnConversionError(error: Option<string>)
      modifies this
      ensures State() == Fail(old(State()), error)
    {
      ClearProgressInterval();
      ShowError(ErrorOrDefault(error));
    }

    /** One tick of a polling interval. */
    method CheckProgress(poll: Poll, now: int)
      modifies this
      ensures State() == AfterPoll(old(State()), poll, now)
      ensures Tidy(old(State())) ==> Tidy(State())
    {
      if Tidy(State()) {
        TidyPreserved(State(), None, SendFailed(""), poll, now);
      }
      if !TextSet(taskId) {
        return;
      }
      match poll
      case PollFailed =>
      case Polled(reply) =>
        UpdateProgressUI(reply, now);
        if reply.StatusText() == "completo" {
          OnConversionComplete(reply.Filename());
        } else if reply.StatusText() == "erro" {
          OnConversionError(reply.Error());
        }
    }
  }
}
