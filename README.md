# Speech and sentiment note-taker: a verified model of its core

The system is a small web application. A browser script records audio, shows a running `MM:SS` timer and
posts the recording to the server. The server keeps two folders:

- `uploads` holds recordings. Each accepted recording is stored under a name made from the current time.
  It is transcribed by a remote speech-recognition service and rated by a remote sentiment service. A
  text sidecar holding the transcript and the rating is written next to it.
- `tts` holds synthesized speech. A submitted text is rated the same way and turned into audio by a
  remote synthesis service. It is stored with a sidecar of its own.

This project models the local logic around those services and proves properties of it:

- which upload names are accepted,
- the listing shown on the index page,
- the sentiment label rule,
- transcript assembly,
- stored and sidecar names,
- the two sidecar layouts,
- the effect of each upload handler on the two folders,
- the browser's timer text, button state and upload form.

Modules, one per concern:

- `Wrappers`: `Option`, with failure propagation for `:-`.
- `Strings`: ASCII lowercasing, last index of a character, prefix/suffix stripping, splitting off the last line.
- `Decimal`: decimal digits, `NatToString`, `padStart`, and fixed-width two- and four-digit fields.
- `Order`: Python's string order, a descending sort, and the uniqueness of a descending permutation.
- `FileStore`: `allowed_file`, the `get_files` loop, `strftime` names and how they read back.
- `Sentiment`: the three-way label on `score * magnitude`.
- `Speech`: the transcript loop, and the text/SSML choice of a synthesis request.
- `Reports`: the two sidecar layouts, with parsers that read them back.
- `Handlers`: class `App`, which holds the two folders as maps from name to contents. Its methods are `Index`, `UploadAudio` and `UploadText`.
- `Recorder`: the timer text, and class `RecorderUi`, which holds the script's mutable state and the two buttons' `disabled` flags.

The remote services are parameters of the handler methods:

- recognition: bytes to result segments;
- analysis: text to a document sentiment;
- synthesis: a synthesis input to bytes.

Python's `str` of a float is also a parameter, `floatText`, so scores and magnitudes reach the sidecars as opaque strings.

`list.sort(reverse=True)` is modelled by an insertion sort, `Order.SortDesc`. The model is exact: `Order.SortedDescUnique` proves that only one descending-sorted list is a permutation of a given list.

In `sample_synthesize_speech` (main.py:56-59) a non-empty `ssml` argument is sent in place of `text`. The model follows this (`Speech.ChooseInput`). The only caller passes `text` alone (main.py:171), so it makes no difference there.

## Model

| member | source | states |
|---|---|---|
| Strings.LowerChar | main.py:23 | renders `.lower()` on one character, for ASCII letters only; `Lower`'s `ensures` applies it to each character |
| Strings.Lower | main.py:23 | renders `.lower()`: its `ensures` keeps the length and lowercases each character in place |
| Strings.LastIndexOf | main.py:23 | renders the split point of `rsplit('.', 1)`: its `ensures` says it is absent exactly when the character does not occur, and otherwise the position holds the character and no later position does |
| FileStore.AllowedFile | main.py:22-23 | renders `'.' in filename and filename.rsplit('.', 1)[1].lower() in ALLOWED_EXTENSIONS` as: the text after the last dot lowercases to "wav"; characterized by `AllowedFileIffWavSuffix` |
| FileStore.AllowedOnly | main.py:26-29 | renders the append-if-allowed loop as a function of the listing; characterized by `AllowedOnlyCounts`, and `GetFiles`'s loop invariant is that it equals this function on the entries seen so far |
| FileStore.SidecarName | main.py:126 | renders `file_path + '.txt'`; characterized by `SidecarNeverAllowed` |
| FileStore.Hour12 | main.py:106 | renders `%I`: the hour mod 12, with 12 for 0 and 12; characterized by `Hour12RoundTrip` |
| FileStore.Meridiem | main.py:106 | renders `%p` in an English locale: "AM" below hour 12, "PM" from 12 on; characterized by `StoredNameFields` |
| FileStore.DateField | main.py:106 | renders `%Y%m%d` as four, two and two digits; its `ensures` gives its width 8, and `DateRoundTrip` reads it back |
| FileStore.TimeField | main.py:106 | renders `%I%M%S%p` as three two-digit fields and AM/PM; its `ensures` gives its width 8, and `TimeRoundTrip` reads it back |
| FileStore.StoredName | main.py:106 | renders `datetime.now().strftime("%Y%m%d-%I%M%S%p") + '.wav'`; characterized by `StoredNameRoundTrip`, `StoredNameFields`, `StoredNameInjective` and `StoredNameAllowed` |
| FileStore.AllowedFileIffWavSuffix | main.py:22-23 | a name is accepted exactly when it has at least four characters, the fourth from last is '.', and the last three lowercase to "wav" (the text after the last dot is the extension) |
| FileStore.WavSuffixAllowed | main.py:22-23 | any name made of a stem, a dot, and an extension that lowercases to "wav" is accepted, whatever the stem holds |
| FileStore.AllowedFileAcceptsUpperCase | main.py:22-23 | "x.WAV" is accepted: the extension is compared case-insensitively |
| FileStore.AllowedFileAcceptsBareExtension | main.py:22-23 | ".wav" is accepted: the part before the dot may be empty |
| FileStore.AllowedFileAcceptsRecording | main.py:22-23 | the browser's "recorded_audio.wav" is accepted |
| FileStore.AllowedFileRejects | main.py:22-23 | "x.mp3", "wav" (no dot) and "x.wav.txt" (only the last extension counts) are rejected |
| FileStore.SidecarNeverAllowed | main.py:126 | no sidecar name (a path plus ".txt") is ever an accepted name |
| FileStore.AllowedOnlyCounts | main.py:27-29 | the filter keeps every accepted entry as often as it occurs in the listing, and drops every other entry |
| FileStore.GetFiles | main.py:25-31 | the result is sorted greatest first, and is a permutation of the accepted entries of the listing, duplicates included |
| FileStore.GetFilesOmitsSidecars | main.py:25-31 | the listing never shows a sidecar |
| FileStore.Hour12RoundTrip | main.py:106 | `%I` lies in 1..12, and the 12-hour value with the AM/PM flag recovers the 24-hour hour |
| FileStore.DateRoundTrip | main.py:106 | the `%Y%m%d` field reads back as year, month and day |
| FileStore.TimeRoundTrip | main.py:106 | the `%I%M%S%p` field reads back as hour (0..23), minute and second |
| FileStore.StoredNameRoundTrip | main.py:106 | a stored name reads back as the time it was made from, down to the second |
| FileStore.StoredNameFields | main.py:106 | the name is 21 characters; `hh` is two digits with value 1..12; "AM" appears exactly when the hour is below 12, "PM" exactly otherwise |
| FileStore.StoredNameInjective | main.py:166-167 | two times give the same name exactly when they agree down to the second: distinct seconds give distinct names, and writes in the same second collide |
| FileStore.StoredNameAllowed | main.py:106 | every generated audio name is accepted, and its sidecar name is not |
| FileStore.ListingOrderIsNotChronological | main.py:30 | on one day, the 11:00 AM name sorts above the 1:00 PM name, so greatest-first is not newest-first |
| FileStore.PrefixLe | main.py:30 | Python string order ignores a common prefix |
| Order.Le | main.py:30 | renders Python's `<=` on `str`: lexicographic by code point, a prefix first; characterized by `LeReflexive`, `LeTotal`, `LeAntisymmetric` and `LeTransitive` |
| Order.InsertDesc | main.py:30 | one insertion step of the descending sort; its `ensures` keeps the multiset, and `InsertDescSorted` keeps the order |
| Order.LeReflexive | main.py:30 | string order is reflexive |
| Order.LeTotal | main.py:30 | any two strings are ordered one way or the other |
| Order.LeAntisymmetric | main.py:30 | strings ordered both ways are equal |
| Order.LeTransitive | main.py:30 | string order is transitive |
| Order.InsertDescSorted | main.py:30 | inserting into a descending list keeps it descending |
| Order.SortDesc | main.py:30 | the result is sorted greatest first and is a permutation of the input |
| Order.SortedDescUnique | main.py:30 | two descending-sorted lists that are permutations of each other are equal, so the sort's result is fully determined |
| Sentiment.LabelOf | main.py:117-123 | renders the `score * magnitude` thresholds 0.75 and -0.75; characterized by `LabelExactlyOne`, `LabelMonotone` and `LabelMirror` |
| Sentiment.LabelText | main.py:119-123 | renders the three label strings; characterized by `LabelTextInjective` |
| Sentiment.LabelExactlyOne | main.py:117-123 | POSITIVE exactly when score times magnitude exceeds 0.75, NEGATIVE exactly when it is below -0.75, NEUTRAL exactly in between, both bounds included |
| Sentiment.LabelMonotone | main.py:149-155 | the label depends only on the combined score, and never falls as the combined score rises |
| Sentiment.LabelMirror | main.py:117-123 | negating the score swaps POSITIVE and NEGATIVE and keeps NEUTRAL |
| Sentiment.LabelExamples | main.py:118-123 | sample ratings, including NEUTRAL at exactly 0.75 and -0.75 |
| Sentiment.LabelTextInjective | main.py:119-123 | the three label texts are distinct, non-empty and free of line breaks |
| Speech.Transcript | main.py:45-49 | renders the accumulated `txt` as a function of the results; `Recognize` is proved equal to it, and `TranscriptAppend`, `TranscriptLength` and `TranscriptEnds` characterize it |
| Speech.Recognize | main.py:45-49 | the loop's result is each segment's top transcript followed by a line break, in order |
| Speech.TranscriptAppend | main.py:45-49 | transcripts of consecutive result lists concatenate |
| Speech.TranscriptLength | main.py:45-49 | the length is the sum over segments of the top transcript's length plus one |
| Speech.TranscriptEnds | main.py:45-49 | no segments give the empty transcript, and otherwise the transcript ends in a line break |
| Speech.ChooseInput | main.py:54-59 | SSML is sent exactly when a non-empty SSML string is given, and it is sent unchanged; otherwise the text is sent |
| Reports.UploadReport | main.py:127-133 | renders the six writes of the upload sidecar, in order; characterized by `UploadReportRoundTrip` and `UploadReportEdges` |
| Reports.TextReport | main.py:158-164 | renders `combined_text`, the text sidecar; characterized by `TextReportRoundTrip` and `TextReportEdges` |
| Reports.ParseTailOf | main.py:130-133 | the three sentiment lines read back from the end of a sidecar, whatever precedes them |
| Reports.UploadReportRoundTrip | main.py:127-133 | the upload sidecar reads back into exactly the transcript, score, magnitude and label written, for any transcript |
| Reports.TextReportRoundTrip | main.py:158-164 | the text sidecar reads back into exactly the text, score, magnitude and label written, for any text |
| Reports.UploadReportEdges | main.py:128-133 | the upload sidecar starts with "TRANSCRIPT:\n" and the transcript, and ends in a line break |
| Reports.TextReportEdges | main.py:158-164 | the text sidecar starts with "Original Text: " and the text, and ends with the line break and "Overall Sentiment: " followed by the label: nothing comes after the label |
| Handlers.UploadSidecar | main.py:127-133 | the upload sidecar built from the transcript and the sentiment response; characterized by `UploadSidecarRoundTrip` |
| Handlers.TextSidecar | main.py:158-164 | the text sidecar built from the text and the sentiment response; characterized by `TextSidecarRoundTrip` |
| Handlers.UploadSidecarRoundTrip | main.py:127-133 | what the upload handler writes reads back as the transcript, the score and magnitude renderings, and the label text of the rating, whenever the float renderings hold no line break |
| Handlers.TextSidecarRoundTrip | main.py:158-164 | what the text handler writes reads back as the text, the two renderings and the label text of the rating, whenever the float renderings hold no line break |
| Handlers.TextSidecarEndsOnLabel | main.py:158-164 | what `upload_text` writes is never empty and never ends in a line break, whatever the text and the float renderings hold |
| Handlers.ReachesSave | main.py:97-104 | renders the three checks of `upload_audio` that let a request reach the save path: the "audio_data" part exists, its filename is not empty, and the filename passes `allowed_file`; `UploadAudio`'s `ensures` distinguishes exactly these cases, and `RecordedUploadReachesSave` shows the browser's upload meets them |
| Handlers.IsListing | main.py:27 | renders what `os.listdir` returns: every name of the folder, each exactly once, in some order; characterized by `ListingCount` |
| Handlers.App.constructor | main.py:16-17 | both folders exist and keep what they already hold |
| Handlers.App.Index | main.py:89-93 | the upload list contains exactly the accepted names of the upload folder, each once, greatest first; the synthesis list is the folder listing itself, unfiltered and unsorted, so it holds every name of the synthesis folder, sidecars included |
| Handlers.App.UploadAudio | main.py:95-137 | a missing field flashes "No audio data", an empty filename flashes "No selected file", and a rejected name redirects home; none of these writes anything. An accepted request redirects home after adding exactly the audio under the generated name and its sidecar, which holds the transcript of the stored bytes and their rating. The synthesis folder never changes |
| Handlers.App.UploadText | main.py:143-183 | a missing field answers 400 and empty text redirects home, writing nothing. A non-empty text adds exactly the audio synthesized from the text itself (not from the report) and the text sidecar. The upload folder never changes |
| Handlers.DistinctCount | main.py:27 | in a listing without repeats every name occurs at most once |
| Handlers.ListingCount | main.py:92 | a folder listing holds each name of the folder exactly once, and nothing else |
| Handlers.AcceptedUploadNames | main.py:106-127 | an accepted upload adds exactly two names to the folder; the upload listing afterwards shows exactly the accepted names it showed before, plus the new audio name |
| Decimal.Digits2 | main.py:106 | renders a zero-padded two-digit strftime field (`%m`, `%d`, `%I`, `%M`, `%S`); its `ensures` gives two digits, and `Digits2Value` reads them back |
| Decimal.Digits4 | main.py:106 | renders the four-digit `%Y` field for years 1000-9999; its `ensures` gives four digits, and `Digits4Value` reads them back |
| Decimal.Digits2Value | main.py:106 | a two-digit field reads back as the number below 100 it was made from |
| Decimal.Digits4Value | main.py:106 | a four-digit field reads back as the number below 10000 it was made from |
| Decimal.NatToString | static/script.js:29-30 | renders `toString()` of a non-negative integer: digits only, at least one; characterized by `NatToStringRoundTrip` |
| Decimal.NatToStringRoundTrip | static/script.js:29-30 | the digits of `toString()` read back as the number |
| Decimal.PadStart | static/script.js:29-30 | renders `padStart(width, fill)`: its `ensures` gives the width as the larger of the two, the original string as the suffix, and fill characters before it; `ZeroPadded` characterizes zero padding of a number |
| Decimal.ZeroPadded | static/script.js:29-30 | a zero-padded number is still all digits and reads back as the number |
| Recorder.Elapsed | static/script.js:28 | renders `Math.floor((Date.now() - startTime) / 1000)`; characterized by `ElapsedMonotone` |
| Recorder.JsRem | static/script.js:30 | renders JavaScript's `%`, whose remainder takes the dividend's sign; `SecondsFieldDigits` characterizes it for non-negative counts |
| Recorder.IntToString | static/script.js:29-30 | renders `toString()` of an integer, with a leading "-" for negative values; for non-negative values it is `Decimal.NatToString` |
| Recorder.MinutesField | static/script.js:29 | renders `Math.floor(elapsed / 60).toString().padStart(2, '0')`; characterized by `MinutesFieldDigits` |
| Recorder.SecondsField | static/script.js:30 | renders `(elapsed % 60).toString().padStart(2, '0')`; characterized by `SecondsFieldDigits` |
| Recorder.TimerText | static/script.js:31 | renders `${minutes}:${seconds}`; characterized by `TimerTextRoundTrip` and `TimerTextWidth` |
| Recorder.Concat | static/script.js:39 | renders the bytes of `new Blob(audioChunks)`: the chunks one after another; `RecordedUploadReachesSave` states that they are what the server receives |
| Recorder.ServerFiles | main.py:97-100 | renders what `request.files` holds for one posted part: the part's field name mapped to its filename and bytes; `RecordedUploadReachesSave` applies it to the browser's upload |
| Recorder.RecordedUpload | static/script.js:44-45 | renders the form part appended under "audio_data" with the filename "recorded_audio.wav"; characterized by `RecordedUploadReachesSave` |
| Recorder.SecondsFieldDigits | static/script.js:30 | the seconds field is exactly two digits, and its value is the elapsed seconds mod 60, so it lies in 00..59 |
| Recorder.MinutesFieldDigits | static/script.js:29 | the minutes field is digits, at least two of them, with value floor(elapsed/60); it is exactly two wide below 100 minutes |
| Recorder.ParseTimerOf | static/script.js:31 | minutes, ':' and two-digit seconds read back as minutes * 60 + seconds |
| Recorder.TimerTextRoundTrip | static/script.js:28-31 | the display reads back as the elapsed seconds: minutes * 60 + seconds == elapsed |
| Recorder.TimerTextWidth | static/script.js:29-31 | the display is exactly five characters `MM:SS` exactly when fewer than 6000 seconds have elapsed |
| Recorder.ElapsedMonotone | static/script.js:28 | a later clock reading never gives a smaller elapsed count |
| Recorder.TimerNeverGoesBack | static/script.js:26-31 | while the clock runs forward from the start, the total the display shows never decreases |
| Recorder.RecordedUploadReachesSave | static/script.js:44-45 | the posted form part uses the field "audio_data" and the filename "recorded_audio.wav"; it passes every check of the upload handler, and its bytes are the recorded chunks |
| Recorder.RecorderUi.constructor | static/script.js:12-16 | without MediaRecorder support both buttons are disabled; otherwise they keep the page's own flags. No recorder exists yet and no chunks are held |
| Recorder.RecorderUi.StartSucceeded | static/script.js:21-60 | a granted start leaves the recorder recording with chunks emptied, the timer started at that time, record disabled and stop enabled |
| Recorder.RecorderUi.DataAvailable | static/script.js:34 | each data event appends one chunk at the end |
| Recorder.RecorderUi.Tick | static/script.js:27-31 | each tick sets the display to the timer text of the seconds elapsed since the start |
| Recorder.RecorderUi.StopClick | static/script.js:68-74 | stop is called exactly when the recorder is recording; afterwards record is enabled and stop disabled, in every state |
| Recorder.RecorderUi.OnStop | static/script.js:35-45 | the timer is cleared, and the posted form part is the recorded upload of the chunks held |

## Left out

- The Google Cloud clients: speech recognition, sentiment analysis and speech synthesis (main.py:20, main.py:33-43, main.py:52-53, main.py:60-70, main.py:73-87). They are remote services, so their results are function parameters of the handlers.
- The recognition settings (language, model, the 90-second timeout) and the voice and encoding settings of synthesis. They configure the remote services only.
- Exceptions from a remote call. `UploadAudio` requires that every result segment has an alternative. A segment without one would raise an `IndexError`, which the model does not propagate. In the source, any failure after `file.save` (main.py:108) leaves the audio stored without its sidecar and answers 500. Such a failure can be that `IndexError`, the 90-second timeout of the recognition operation (main.py:43), or a sentiment-analysis error. So for `upload_audio` under a failing service, "nothing written, or exactly the audio and its sidecar" does not hold. `upload_text` makes all its remote calls before it writes.
- IEEE floating point. `score * magnitude` is computed over `real`, and the sidecars hold scores as opaque strings given by `floatText`.
- Flask plumbing: routing, templates, the session behind `flash`, the `request.url` redirect target, and the file-serving routes (main.py:139-141, main.py:187-198). Each answer is reduced to an `Outcome` tag.
- The real filesystem and clock: `os.listdir`, `os.makedirs`, `file.save`, `open` and `datetime.now`. Listings and the current time are inputs. Years are limited to 1000-9999, and `%p` gives English AM/PM.
- Calendar validity: `ValidDateTime` bounds each field only, for example day 1-31 in every month. Python rejects impossible dates before the name is formatted.
- Unicode `str.lower()`: only ASCII letters are lowercased.
- Handlers.App.UploadAudio, Handlers.App.UploadText: each handler is modelled as one uninterrupted step, so an audio entry and its sidecar always come from the same request. `app.run` (main.py:203) serves requests on threads, and two requests in the same second get the same name. Their saves, reads and sidecar writes can interleave, leaving one request's audio next to the other's sidecar, or transcribing the other's bytes. Such interleavings are not represented. `StoredNameInjective` covers only overwrites one after another.
- Handlers.App.UploadAudio: the sidecar is written to `file_path + '.txt'` under the upload folder. The model keys both entries by name within the folder map.
- JavaScript's exponent form of `toString` for very large numbers, and floating-point division. The timer text is modelled over integers.
- The timing of `setInterval`, `getUserMedia`, `MediaRecorder`, `Blob`, `fetch`, `location.reload`, the audio element and the transcript modal (static/script.js:12-13, static/script.js:19-22, static/script.js:37-43, static/script.js:47-57, static/script.js:76-107). These are browser services; `RecorderUi` keeps only the state the script itself assigns.
- Recorder.RecorderUi.StartSucceeded: a second start does not clear the previous interval in the script. The model keeps a single timer flag, so the old interval left running is not represented.
- Recorder.RecorderUi.StopClick: whether `stop()` fires `onstop` is up to the browser. `OnStop` is a separate method that the caller runs after a stop.
