/** The browser side of recording: the elapsed-time display, the record and stop buttons, and
    the form the recording is posted with. */
module Recorder {
  import opened Wrappers
  import opened Decimal
  import opened FileStore
  import opened Handlers

  /** `Math.floor((Date.now() - startTime) / 1000)`, with times in milliseconds. Dafny's `/` by a
      positive divisor rounds down, as `Math.floor` does, also when the clock went back. */
  function Elapsed(start: int, now: int): int {
    (now - start) / 1000
  }

  /** JavaScript's `%`: the remainder takes the sign of the dividend. */
  function JsRem(a: int, b: int): int
    requires b > 0
  {
    if a >= 0 then a % b else -((-a) % b)
  }

  /** `toString()` of an integral number. */
  function IntToString(i: int): string {
    if i < 0 then "-" + NatToString(-i) else NatToString(i)
  }

  /** `Math.floor(elapsed / 60).toString().padStart(2, '0')`. */
  function MinutesField(elapsed: int): string {
    PadStart(IntToString(elapsed / 60), 2, '0')
  }

  /** `(elapsed % 60).toString().padStart(2, '0')`. */
  function SecondsField(elapsed: int): string {
    PadStart(IntToString(JsRem(elapsed, 60)), 2, '0')
  }

  /** The text the timer shows after `elapsed` seconds. */
  function TimerText(elapsed: int): string {
    MinutesField(elapsed) + ":" + SecondsField(elapsed)
  }

  /** Reads a display back as a number of seconds: minutes, ':', two digits of seconds. */
  function ParseTimer(s: string): Option<int> {
    if |s| < 4 || s[|s| - 3] != ':' then None
    else if !AllDigits(s[..|s| - 3]) || !AllDigits(s[|s| - 2..]) then None
    else Some(DigitsValue(s[..|s| - 3]) * 60 + DigitsValue(s[|s| - 2..]))
  }

  /** For a non-negative count the seconds field is exactly two digits, from 00 to 59. */
  lemma SecondsFieldDigits(elapsed: int)
    requires elapsed >= 0
    ensures var s := SecondsField(elapsed);
      |s| == 2 && AllDigits(s) && DigitsValue(s) == elapsed % 60 < 60
  {
    assert IntToString(JsRem(elapsed, 60)) == NatToString(elapsed % 60);
    NatToStringLength(elapsed % 60);
    ZeroPadded(elapsed % 60, 2);
  }

  /** For a non-negative count the minutes field is the whole minutes in at least two digits, and
      exactly two below 100 minutes. */
  lemma MinutesFieldDigits(elapsed: int)
    requires elapsed >= 0
    ensures var m := MinutesField(elapsed);
      |m| >= 2 && AllDigits(m) && DigitsValue(m) == elapsed / 60
      && (|m| == 2 <==> elapsed < 6000)
  {
    assert IntToString(elapsed / 60) == NatToString(elapsed / 60);
    NatToStringLength(elapsed / 60);
    ZeroPadded(elapsed / 60, 2);
  }

  /** `minutes + ":" + seconds` splits back at the colon when the seconds are two characters. */
  lemma ColonSplit(m: string, s: string)
    requires |s| == 2
    ensures var t := m + ":" + s;
      |t| == |m| + 3 && t[|t| - 3] == ':' && t[..|t| - 3] == m && t[|t| - 2..] == s
  {
    var t := m + ":" + s;
    assert t[..|m|] == m;
    assert t[|m| + 1..] == s;
  }

  lemma ParseTimerOf(m: string, s: string)
    requires |m| >= 1 && |s| == 2 && AllDigits(m) && AllDigits(s)
    ensures ParseTimer(m + ":" + s) == Some(DigitsValue(m) * 60 + DigitsValue(s))
  {
    ColonSplit(m, s);
  }

  /** The display reads back as the elapsed seconds: `minutes * 60 + seconds == elapsed`. */
  lemma TimerTextRoundTrip(elapsed: int)
    requires elapsed >= 0
    ensures ParseTimer(TimerText(elapsed)) == Some(elapsed)
  {
    var m, s := MinutesField(elapsed), SecondsField(elapsed);
    MinutesFieldDigits(elapsed);
    SecondsFieldDigits(elapsed);
    ParseTimerOf(m, s);
    var q, r := elapsed / 60, elapsed % 60;
    assert q * 60 + r == elapsed;
    assert DigitsValue(m) == q && DigitsValue(s) == r;
  }

  /** The display is exactly five characters `MM:SS` for counts below 6000 seconds, and longer
      from then on. */
  lemma TimerTextWidth(elapsed: int)
    requires elapsed >= 0
    ensures |TimerText(elapsed)| == 5 <==> elapsed < 6000
  {
    MinutesFieldDigits(elapsed);
    SecondsFieldDigits(elapsed);
  }

  /** A later clock reading never gives a smaller count. */
  lemma ElapsedMonotone(start: int, now1: int, now2: int)
    requires now1 <= now2
    ensures Elapsed(start, now1) <= Elapsed(start, now2)
  {
    var a, b := now1 - start, now2 - start;
    assert a / 1000 * 1000 <= a <= b < (b / 1000 + 1) * 1000;
  }

  /** While the clock runs forward from the start, the total the display shows never goes back. */
  lemma TimerNeverGoesBack(start: int, now1: int, now2: int)
    requires start <= now1 <= now2
    ensures ParseTimer(TimerText(Elapsed(start, now1))).Some?
    ensures ParseTimer(TimerText(Elapsed(start, now2))).Some?
    ensures ParseTimer(TimerText(Elapsed(start, now1))).value <= ParseTimer(TimerText(Elapsed(start, now2))).value
  {
    ElapsedMonotone(start, now1, now2);
    TimerTextRoundTrip(Elapsed(start, now1));
    TimerTextRoundTrip(Elapsed(start, now2));
  }

  /** `mediaRecorder.state` as this script can leave it. */
  datatype RecorderState = Inactive | Recording

  /** One part of a posted multipart form. */
  datatype FormPart = FormPart(field: string, filename: string, data: Bytes)

  /** The bytes of `new Blob(audioChunks)`: the chunks one after another. */
  function Concat(chunks: seq<Bytes>): Bytes {
    if chunks == [] then [] else Concat(chunks[..|chunks| - 1]) + chunks[|chunks| - 1]
  }

  /** The form part `onstop` posts to `/upload`. */
  function RecordedUpload(chunks: seq<Bytes>): FormPart {
    FormPart("audio_data", "recorded_audio.wav", Concat(chunks))
  }

  /** The files a server receives for a posted form part. */
  function ServerFiles(part: FormPart): map<string, FileStorage> {
    map[part.field := FileStorage(part.filename, part.data)]
  }

  /** A recorded upload passes every check of `upload_audio` and reaches its save path, with the
      recorded bytes as the file's contents. */
  lemma RecordedUploadReachesSave(chunks: seq<Bytes>)
    ensures ReachesSave(ServerFiles(RecordedUpload(chunks)))
    ensures ServerFiles(RecordedUpload(chunks))["audio_data"].data == Concat(chunks)
  {
    AllowedFileAcceptsRecording();
  }

  /** The recording controls of the page: the two buttons' `disabled` flags, the `let`-bound
      `mediaRecorder` (`None` until the first start), `audioChunks`, the running timer and its text. */
  class RecorderUi {
    var recordDisabled: bool
    var stopDisabled: bool
    var recorder: Option<RecorderState>
    var audioChunks: seq<Bytes>
    var startTime: int
    var timerRunning: bool
    var timerText: string

    /** Page load: both buttons are disabled when the browser has no `MediaRecorder`; otherwise
        they keep the flags the page markup gives them. */
    constructor (supported: bool, recordDisabled0: bool, stopDisabled0: bool, timerText0: string)
      ensures recordDisabled == (!supported || recordDisabled0)
      ensures stopDisabled == (!supported || stopDisabled0)
      ensures recorder == None && audioChunks == [] && !timerRunning && timerText == timerText0
    {
      recordDisabled := recordDisabled0;
      stopDisabled := stopDisabled0;
      if !supported {
        recordDisabled := true;
        stopDisabled := true;
      }
      recorder := None;
      audioChunks := [];
      startTime := 0;
      timerRunning := false;
      timerText := timerText0;
    }

    /** The microphone was granted after a record click: a new recorder starts recording, the
        chunks are emptied, the timer starts at `now`, record is disabled and stop enabled. */
    method StartSucceeded(now: int)
      modifies this`recorder, this`audioChunks, this`startTime, this`timerRunning,
               this`recordDisabled, this`stopDisabled
      ensures recorder == Some(Recording) && audioChunks == []
      ensures startTime == now && timerRunning
      ensures recordDisabled && !stopDisabled
    {
      recorder := Some(Recording);
      audioChunks := [];
      startTime := now;
      timerRunning := true;
      recordDisabled := true;
      stopDisabled := false;
    }

    /** `ondataavailable`: one more chunk at the end. */
    method DataAvailable(chunk: Bytes)
      modifies this`audioChunks
      ensures audioChunks == old(audioChunks) + [chunk]
    {
      audioChunks := audioChunks + [chunk];
    }

    /** One tick of the interval: the display shows the time since the start. */
    method Tick(now: int)
      requires timerRunning
      modifies this`timerText
      ensures timerText == TimerText(Elapsed(startTime, now))
    {
      var elapsed := Elapsed(startTime, now);
      timerText := TimerText(elapsed);
    }

    /** A stop click: `stop()` is called only on a recording recorder; afterwards record is
        enabled and stop disabled, whatever the state was. */
    method StopClick() returns (stopCalled: bool)
      modifies this`recorder, this`recordDisabled, this`stopDisabled
      ensures stopCalled <==> old(recorder) == Some(Recording)
      ensures recorder == if stopCalled then Some(Inactive) else old(recorder)
      ensures !recordDisabled && stopDisabled
    {
      stopCalled := recorder == Some(Recording);
      if stopCalled {
        recorder := Some(Inactive);
      }
      recordDisabled := false;
      stopDisabled := true;
    }

    /** `onstop`: the timer is cleared and the chunks are posted as one recorded upload. */
    method OnStop() returns (part: FormPart)
      modifies this`timerRunning
      ensures !timerRunning
      ensures part == RecordedUpload(audioChunks)
    {
      timerRunning := false;
      part := RecordedUpload(audioChunks);
    }
  }
}
