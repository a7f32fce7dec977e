/** The two storage folders of the server: which names are audio uploads, how they are listed,
    and how a stored audio file and its sidecar are named. */
module FileStore {
  import opened Wrappers
  import opened Strings
  import opened Decimal
  import opened Order

  type Bytes = seq<bv8>

  /** What a folder holds under a name: bytes written in binary mode or text written in text mode. */
  datatype Content = Binary(bytes: Bytes) | TextFile(text: string)

  /** `ALLOWED_EXTENSIONS = {'wav'}`: the extension after the last '.', lower-cased, is "wav". */
  predicate AllowedFile(filename: string) {
    match LastIndexOf(filename, '.')
    case None => false
    case Some(i) => Lower(filename[i + 1..]) == "wav"
  }

  /** An independent statement of the check: the name ends in '.' and three letters spelling
      "wav" in any letter case. */
  lemma AllowedFileIffWavSuffix(filename: string)
    ensures AllowedFile(filename) <==>
      |filename| >= 4 && filename[|filename| - 4] == '.' && Lower(filename[|filename| - 3..]) == "wav"
  {
    var n := |filename|;
    if |filename| >= 4 && filename[n - 4] == '.' && Lower(filename[n - 3..]) == "wav" {
      forall j | n - 4 < j < n ensures filename[j] != '.' {
        assert Lower(filename[n - 3..])[j - (n - 3)] == LowerChar(filename[j]);
      }
      LastIndexOfIs(filename, '.', n - 4);
    }
  }

  /** `Lower(s) == "wav"` one character at a time. */
  lemma LowerIsWav(s: string)
    ensures Lower(s) == "wav" <==>
      |s| == 3 && LowerChar(s[0]) == 'w' && LowerChar(s[1]) == 'a' && LowerChar(s[2]) == 'v'
  {
    if |s| == 3 && LowerChar(s[0]) == 'w' && LowerChar(s[1]) == 'a' && LowerChar(s[2]) == 'v' {
      assert Lower(s) == [Lower(s)[0], Lower(s)[1], Lower(s)[2]];
    }
  }

  /** Every name ending in a dot and an extension that lowercases to "wav" is allowed, whatever
      comes before. */
  lemma WavSuffixAllowed(stem: string, ext: string)
    requires Lower(ext) == "wav"
    ensures AllowedFile(stem + "." + ext)
  {
    var n := stem + "." + ext;
    AllowedFileIffWavSuffix(n);
    assert n[|n| - 4] == '.' && n[|n| - 3..] == ext;
  }

  /** The extension is compared case-insensitively. */
  lemma AllowedFileAcceptsUpperCase()
    ensures AllowedFile("x.WAV")
  {
    LowerIsWav("WAV");
    WavSuffixAllowed("x", "WAV");
    assert "x" + "." + "WAV" == "x.WAV";
  }

  /** A name that is only the extension is allowed: the part before the dot may be empty. */
  lemma AllowedFileAcceptsBareExtension()
    ensures AllowedFile(".wav")
  {
    LowerIsWav("wav");
    WavSuffixAllowed("", "wav");
    assert "" + "." + "wav" == ".wav";
  }

  /** The name the browser gives a recording is allowed. */
  lemma AllowedFileAcceptsRecording()
    ensures AllowedFile("recorded_audio.wav")
  {
    LowerIsWav("wav");
    WavSuffixAllowed("recorded_audio", "wav");
    assert "recorded_audio" + "." + "wav" == "recorded_audio.wav";
  }

  lemma AllowedFileRejects()
    ensures !AllowedFile("x.mp3") && !AllowedFile("wav") && !AllowedFile("x.wav.txt")
  {
    AllowedFileIffWavSuffix("x.mp3");
    LowerIsWav("x.mp3"[2..]);
    AllowedFileIffWavSuffix("wav");
    AllowedFileIffWavSuffix("x.wav.txt");
    LowerIsWav("x.wav.txt"[6..]);
  }

  /** The name of the sidecar text file written next to a stored audio file. */
  function SidecarName(path: string): string {
    path + ".txt"
  }

  /** No sidecar name is ever an allowed upload name. */
  lemma SidecarNeverAllowed(path: string)
    ensures !AllowedFile(SidecarName(path))
  {
    var s := SidecarName(path);
    AllowedFileIffWavSuffix(s);
    assert s[|s| - 3..] == "txt";
  }

  /** The entries of a listing that pass `AllowedFile`, in listing order. */
  function AllowedOnly(listing: seq<string>): seq<string> {
    if listing == [] then []
    else
      var last := listing[|listing| - 1];
      AllowedOnly(listing[..|listing| - 1]) + (if AllowedFile(last) then [last] else [])
  }

  /** Each allowed entry is kept as often as it occurs; every other entry is dropped. */
  lemma {:induction false} AllowedOnlyCounts(listing: seq<string>)
    ensures forall x :: multiset(AllowedOnly(listing))[x] == if AllowedFile(x) then multiset(listing)[x] else 0
  {
    if listing != [] {
      var init, last := listing[..|listing| - 1], listing[|listing| - 1];
      AllowedOnlyCounts(init);
      assert listing == init + [last];
      assert multiset(listing) == multiset(init) + multiset{last};
    }
  }

  /** `get_files`: the allowed names of a folder listing, greatest first. */
  method GetFiles(listing: seq<string>) returns (files: seq<string>)
    ensures SortedDesc(files)
    ensures forall x :: multiset(files)[x] == if AllowedFile(x) then multiset(listing)[x] else 0
  {
    files := [];
    for i := 0 to |listing|
      invariant files == AllowedOnly(listing[..i])
    {
      assert listing[..i + 1][..i] == listing[..i];
      if AllowedFile(listing[i]) {
        files := files + [listing[i]];
      }
    }
    assert listing[..|listing|] == listing;
    AllowedOnlyCounts(listing);
    files := SortDesc(files);
  }

  /** `get_files` never shows a sidecar text file. */
  lemma GetFilesOmitsSidecars(listing: seq<string>, files: seq<string>, path: string)
    requires forall x :: multiset(files)[x] == if AllowedFile(x) then multiset(listing)[x] else 0
    ensures SidecarName(path) !in files
  {
    SidecarNeverAllowed(path);
    assert multiset(files)[SidecarName(path)] == 0;
  }

  /** The local time `datetime.now()` returns. */
  datatype DateTime = DateTime(year: int, month: int, day: int,
                               hour: int, minute: int, second: int, microsecond: int)

  /** The field ranges of a Python `datetime`, with four-digit years. */
  predicate ValidDateTime(t: DateTime) {
    && 1000 <= t.year <= 9999 && 1 <= t.month <= 12 && 1 <= t.day <= 31
    && 0 <= t.hour < 24 && 0 <= t.minute < 60 && 0 <= t.second < 60
    && 0 <= t.microsecond < 1000000
  }

  /** `%I`: the hour on a 12-hour clock, 12 for midnight and noon. */
  function Hour12(hour: int): int
    requires 0 <= hour < 24
  {
    if hour % 12 == 0 then 12 else hour % 12
  }

  /** The hour of the day that a 12-hour clock reading and a PM flag stand for. */
  function Hour24(h12: int, pm: bool): int {
    if h12 == 12 then (if pm then 12 else 0) else if pm then h12 + 12 else h12
  }

  lemma Hour12RoundTrip(hour: int)
    requires 0 <= hour < 24
    ensures 1 <= Hour12(hour) <= 12 && Hour24(Hour12(hour), hour >= 12) == hour
  {
  }

  /** `%p` in an English locale. */
  function Meridiem(hour: int): string {
    if hour < 12 then "AM" else "PM"
  }

  /** `%Y%m%d`. */
  function DateField(t: DateTime): (r: string)
    requires ValidDateTime(t)
    ensures |r| == 8
  {
    Digits4(t.year) + Digits2(t.month) + Digits2(t.day)
  }

  /** `%I%M%S%p`. */
  function TimeField(t: DateTime): (r: string)
    requires ValidDateTime(t)
    ensures |r| == 8
  {
    Digits2(Hour12(t.hour)) + Digits2(t.minute) + Digits2(t.second) + Meridiem(t.hour)
  }

  /** `datetime.now().strftime("%Y%m%d-%I%M%S%p") + '.wav'`. */
  function StoredName(t: DateTime): string
    requires ValidDateTime(t)
  {
    DateField(t) + "-" + TimeField(t) + ".wav"
  }

  /** Reads back year, month and day from a `%Y%m%d` field. */
  function ParseDate(s: string): Option<(int, int, int)>
    requires |s| == 8
  {
    if !(AllDigits(s[..4]) && AllDigits(s[4..6]) && AllDigits(s[6..])) then None
    else Some((DigitsValue(s[..4]), DigitsValue(s[4..6]), DigitsValue(s[6..])))
  }

  /** Reads back hour (0 to 23), minute and second from a `%I%M%S%p` field. */
  function ParseTime(s: string): Option<(int, int, int)>
    requires |s| == 8
  {
    if !(AllDigits(s[..2]) && AllDigits(s[2..4]) && AllDigits(s[4..6])) then None
    else if s[6..] != "AM" && s[6..] != "PM" then None
    else Some((Hour24(DigitsValue(s[..2]), s[6..] == "PM"), DigitsValue(s[2..4]), DigitsValue(s[4..6])))
  }

  /** Reads back the second-level time a stored name was generated from. */
  function ParseStoredName(name: string): Option<DateTime> {
    if |name| != 21 || name[8] != '-' || name[17..] != ".wav" then None
    else
      var (year, month, day) :- ParseDate(name[..8]);
      var (hour, minute, second) :- ParseTime(name[9..17]);
      Some(DateTime(year, month, day, hour, minute, second, 0))
  }

  /** The layout of a stored name: date, '-', time, ".wav". */
  lemma StoredNameLayout(t: DateTime)
    requires ValidDateTime(t)
    ensures var n := StoredName(t);
      |n| == 21 && n[..8] == DateField(t) && n[8] == '-' && n[9..17] == TimeField(t) && n[17..] == ".wav"
  {
    var d, m := DateField(t), TimeField(t);
    var n := StoredName(t);
    assert n == d + ("-" + m + ".wav");
    assert n[..8] == d;
    assert n[8..] == "-" + m + ".wav";
  }

  lemma DateRoundTrip(t: DateTime)
    requires ValidDateTime(t)
    ensures ParseDate(DateField(t)) == Some((t.year, t.month, t.day))
  {
    var s := DateField(t);
    assert s[..4] == Digits4(t.year) && s[4..6] == Digits2(t.month) && s[6..] == Digits2(t.day);
    Digits4Value(t.year);
    Digits2Value(t.month);
    Digits2Value(t.day);
  }

  lemma TimeRoundTrip(t: DateTime)
    requires ValidDateTime(t)
    ensures ParseTime(TimeField(t)) == Some((t.hour, t.minute, t.second))
  {
    var s := TimeField(t);
    assert s[..2] == Digits2(Hour12(t.hour)) && s[2..4] == Digits2(t.minute);
    assert s[4..6] == Digits2(t.second) && s[6..] == Meridiem(t.hour);
    Digits2Value(Hour12(t.hour));
    Digits2Value(t.minute);
    Digits2Value(t.second);
    Hour12RoundTrip(t.hour);
    assert "AM" != "PM" by { assert "AM"[0] != "PM"[0]; }
  }

  /** Parsing a stored name gives back its time, down to the second. */
  lemma StoredNameRoundTrip(t: DateTime)
    requires ValidDateTime(t)
    ensures ParseStoredName(StoredName(t)) == Some(t.(microsecond := 0))
  {
    StoredNameLayout(t);
    DateRoundTrip(t);
    TimeRoundTrip(t);
  }

  /** The generated name is 21 characters, `hh` lies in 01..12, and `AM` appears exactly before noon. */
  lemma StoredNameFields(t: DateTime)
    requires ValidDateTime(t)
    ensures var n := StoredName(t);
      && |n| == 21 && AllDigits(n[9..11]) && 1 <= DigitsValue(n[9..11]) <= 12
      && (n[15..17] == "AM" <==> t.hour < 12) && (n[15..17] == "PM" <==> t.hour >= 12)
  {
    var n := StoredName(t);
    StoredNameLayout(t);
    var m := TimeField(t);
    assert n[9..11] == m[..2] == Digits2(Hour12(t.hour));
    assert n[15..17] == m[6..] == Meridiem(t.hour);
    Digits2Value(Hour12(t.hour));
    Hour12RoundTrip(t.hour);
    assert "AM" != "PM" by { assert "AM"[0] != "PM"[0]; }
  }

  /** Two times give the same stored name exactly when they agree down to the second: distinct
      seconds give distinct names, and two writes within one second collide. */
  lemma StoredNameInjective(t1: DateTime, t2: DateTime)
    requires ValidDateTime(t1) && ValidDateTime(t2)
    ensures StoredName(t1) == StoredName(t2) <==> t1.(microsecond := 0) == t2.(microsecond := 0)
  {
    StoredNameRoundTrip(t1);
    StoredNameRoundTrip(t2);
  }

  /** Every generated audio name is an allowed upload name; its sidecar never is. */
  lemma StoredNameAllowed(t: DateTime)
    requires ValidDateTime(t)
    ensures AllowedFile(StoredName(t)) && !AllowedFile(SidecarName(StoredName(t)))
  {
    LowerIsWav("wav");
    WavSuffixAllowed(DateField(t) + "-" + TimeField(t), "wav");
    assert StoredName(t) == DateField(t) + "-" + TimeField(t) + "." + "wav";
    SidecarNeverAllowed(StoredName(t));
  }

  /** Greatest-first order of stored names is not newest-first: 11:00 AM sorts above 1:00 PM
      of the same day. */
  lemma ListingOrderIsNotChronological()
    ensures var morning := DateTime(2024, 1, 1, 11, 0, 0, 0);
      var afternoon := DateTime(2024, 1, 1, 13, 0, 0, 0);
      ValidDateTime(morning) && ValidDateTime(afternoon) && !Le(StoredName(morning), StoredName(afternoon))
  {
    var morning := DateTime(2024, 1, 1, 11, 0, 0, 0);
    var afternoon := DateTime(2024, 1, 1, 13, 0, 0, 0);
    var a, b := StoredName(morning), StoredName(afternoon);
    StoredNameLayout(morning);
    StoredNameLayout(afternoon);
    assert a[..9] == b[..9] by { assert DateField(morning) == DateField(afternoon); }
    assert a[9] == TimeField(morning)[0] == '1' && b[9] == TimeField(afternoon)[0] == '0';
    assert Le(a, b) == Le(a[9..], b[9..]) by {
      PrefixLe(a[..9], a[9..], b[9..]);
      assert a == a[..9] + a[9..] && b == a[..9] + b[9..];
    }
  }

  lemma {:induction false} PrefixLe(p: string, a: string, b: string)
    ensures Le(p + a, p + b) == Le(a, b)
  {
    if p != [] {
      var x, y := p + a, p + b;
      assert x != [] && y != [] && x[0] == y[0];
      assert x[1..] == p[1..] + a && y[1..] == p[1..] + b;
      assert Le(x, y) == Le(x[1..], y[1..]);
      PrefixLe(p[1..], a, b);
    } else {
      assert p + a == a && p + b == b;
    }
  }
}
