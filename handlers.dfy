/** The request handlers of the server, over the contents of its two folders. */
module Handlers {
  import opened Wrappers
  import opened Order
  import opened FileStore
  import opened Sentiment
  import opened Speech
  import opened Reports

  /** A file part of a multipart request: the name the client gave it and its bytes. */
  datatype FileStorage = FileStorage(filename: string, data: Bytes)

  /** How a handler answers. `FlashAndRedirectBack` queues a notice and redirects to the request's
      own URL; `RedirectHome` redirects to "/"; `BadRequest` is the 400 answer to a missing form key. */
  datatype Outcome = FlashAndRedirectBack(message: string) | RedirectHome | BadRequest

  /** `os.listdir`: every name of a folder exactly once, in some order. */
  ghost predicate IsListing(listing: seq<string>, folder: map<string, Content>) {
    && (forall x :: x in listing <==> x in folder)
    && (forall i, j :: 0 <= i < j < |listing| ==> listing[i] != listing[j])
  }

  /** The checks of `upload_audio` that let a request reach the save path. */
  predicate ReachesSave(files: map<string, FileStorage>) {
    "audio_data" in files && files["audio_data"].filename != "" && AllowedFile(files["audio_data"].filename)
  }

  /** The sidecar `upload_audio` writes for an uploaded recording. */
  function UploadSidecar(transcript: string, sentiment: DocumentSentiment, floatText: real -> string): string {
    UploadReport(transcript, floatText(sentiment.score), floatText(sentiment.magnitude),
                 LabelText(LabelOf(sentiment.score, sentiment.magnitude)))
  }

  /** The sidecar `upload_text` writes for a synthesized text. */
  function TextSidecar(text: string, sentiment: DocumentSentiment, floatText: real -> string): string {
    TextReport(text, floatText(sentiment.score), floatText(sentiment.magnitude),
               LabelText(LabelOf(sentiment.score, sentiment.magnitude)))
  }

  /** The application: its upload folder and its synthesis folder, each a map from file name to
      contents. The remote services are passed to each handler as functions, and `floatText` is
      Python's `str` on a float. */
  class App {
    var uploads: map<string, Content>
    var tts: map<string, Content>

    /** Start-up: both folders exist, keeping whatever they already hold. */
    constructor (existingUploads: map<string, Content>, existingTts: map<string, Content>)
      ensures uploads == existingUploads && tts == existingTts
    {
      uploads := existingUploads;
      tts := existingTts;
    }

    /** `index`: the allowed upload names greatest first, and the synthesis folder as listed,
        unfiltered and unsorted. */
    method Index(uploadListing: seq<string>, ttsListing: seq<string>) returns (files: seq<string>, ttsFiles: seq<string>)
      requires IsListing(uploadListing, uploads) && IsListing(ttsListing, tts)
      ensures SortedDesc(files)
      ensures forall x :: x in files <==> x in uploads && AllowedFile(x)
      ensures forall x :: multiset(files)[x] == if x in uploads && AllowedFile(x) then 1 else 0
      ensures ttsFiles == ttsListing
      ensures forall x :: x in ttsFiles <==> x in tts
    {
      files := GetFiles(uploadListing);
      forall x ensures multiset(uploadListing)[x] == if x in uploads then 1 else 0 {
        ListingCount(uploadListing, uploads, x);
      }
      ttsFiles := ttsListing;
    }

    /** `upload_audio`: checks the request, then stores the recording under a name made from the
        time, transcribes the stored bytes, rates the transcript and writes the sidecar. */
    method UploadAudio(files: map<string, FileStorage>, now: DateTime,
                       recognize: Bytes -> seq<Segment>, analyze: string -> DocumentSentiment,
                       floatText: real -> string)
      returns (outcome: Outcome)
      requires ValidDateTime(now)
      requires ReachesSave(files) ==> WellFormed(recognize(files["audio_data"].data))
      modifies this
      ensures tts == old(tts)
      ensures "audio_data" !in files ==>
        outcome == FlashAndRedirectBack("No audio data") && uploads == old(uploads)
      ensures "audio_data" in files && files["audio_data"].filename == "" ==>
        outcome == FlashAndRedirectBack("No selected file") && uploads == old(uploads)
      ensures "audio_data" in files && files["audio_data"].filename != "" && !AllowedFile(files["audio_data"].filename) ==>
        outcome == RedirectHome && uploads == old(uploads)
      ensures ReachesSave(files) ==>
        var name := StoredName(now);
        var transcript := Transcript(recognize(files["audio_data"].data));
        && outcome == RedirectHome
        && uploads == old(uploads)[name := Binary(files["audio_data"].data)]
                                  [SidecarName(name) := TextFile(UploadSidecar(transcript, analyze(transcript), floatText))]
    {
      if "audio_data" !in files {
        return FlashAndRedirectBack("No audio data");
      }
      var file := files["audio_data"];
      if file.filename == "" {
        return FlashAndRedirectBack("No selected file");
      }
      if AllowedFile(file.filename) {
        var name := StoredName(now);
        uploads := uploads[name := Binary(file.data)];
        var content := uploads[name].bytes;
        var transcript := Recognize(recognize(content));
        var sentiment := analyze(transcript);
        var rating := LabelText(LabelOf(sentiment.score, sentiment.magnitude));
        var report := UploadReport(transcript, floatText(sentiment.score), floatText(sentiment.magnitude), rating);
        uploads := uploads[SidecarName(name) := TextFile(report)];
      }
      return RedirectHome;
    }

    /** `upload_text`: rates a non-empty text, synthesizes speech from the text itself (not from
        the report), and stores the audio and the sidecar under a name made from the time. */
    method UploadText(form: map<string, string>, now: DateTime,
                      analyze: string -> DocumentSentiment, synthesize: SynthesisInput -> Bytes,
                      floatText: real -> string)
      returns (outcome: Outcome)
      requires ValidDateTime(now)
      modifies this
      ensures uploads == old(uploads)
      ensures "text" !in form ==> outcome == BadRequest && tts == old(tts)
      ensures "text" in form && form["text"] == "" ==> outcome == RedirectHome && tts == old(tts)
      ensures "text" in form && form["text"] != "" ==>
        var text, name := form["text"], StoredName(now);
        && outcome == RedirectHome
        && tts == old(tts)[name := Binary(synthesize(TextInput(text)))]
                          [SidecarName(name) := TextFile(TextSidecar(text, analyze(text), floatText))]
    {
      if "text" !in form {
        return BadRequest;
      }
      var text := form["text"];
      if text != "" {
        var sentiment := analyze(text);
        var rating := LabelText(LabelOf(sentiment.score, sentiment.magnitude));
        var combined := TextReport(text, floatText(sentiment.score), floatText(sentiment.magnitude), rating);
        var name := StoredName(now);
        var audio := synthesize(ChooseInput(text, None));
        tts := tts[name := Binary(audio)];
        tts := tts[SidecarName(name) := TextFile(combined)];
      }
      return RedirectHome;
    }
  }

  /** In a sequence without repeats every value occurs at most once. */
  lemma {:induction false} DistinctCount(listing: seq<string>, x: string)
    requires forall i, j :: 0 <= i < j < |listing| ==> listing[i] != listing[j]
    ensures multiset(listing)[x] == if x in listing then 1 else 0
  {
    if listing != [] {
      var init, last := listing[..|listing| - 1], listing[|listing| - 1];
      assert listing == init + [last];
      assert forall i, j :: 0 <= i < j < |init| ==> init[i] != init[j] by {
        forall i, j | 0 <= i < j < |init| ensures init[i] != init[j] {
          assert init[i] == listing[i] && init[j] == listing[j];
        }
      }
      DistinctCount(init, x);
      assert last !in init by {
        forall i | 0 <= i < |init| ensures init[i] != last {
          assert init[i] == listing[i];
        }
      }
      assert multiset(listing) == multiset(init) + multiset{last};
    }
  }

  /** A listing holds each name of its folder once and nothing else. */
  lemma ListingCount(listing: seq<string>, folder: map<string, Content>, x: string)
    requires IsListing(listing, folder)
    ensures multiset(listing)[x] == if x in folder then 1 else 0
  {
    DistinctCount(listing, x);
    assert x in listing <==> x in folder;
  }

  /** An accepted upload adds exactly two names to the upload folder: the audio, which the listing
      shows, and its sidecar, which it never shows. */
  lemma AcceptedUploadNames(before: map<string, Content>, now: DateTime, audio: Content, sidecar: Content)
    requires ValidDateTime(now)
    ensures var name := StoredName(now);
      var after := before[name := audio][SidecarName(name) := sidecar];
      && after.Keys == before.Keys + {name, SidecarName(name)}
      && (forall x :: x in after && AllowedFile(x) <==> (x in before && AllowedFile(x)) || x == name)
  {
    var name := StoredName(now);
    StoredNameAllowed(now);
    SidecarNeverAllowed(name);
  }

  /** What `upload_audio` writes reads back as the transcript, the two renderings and the label,
      whenever the float renderings hold no line break. */
  lemma UploadSidecarRoundTrip(transcript: string, sentiment: DocumentSentiment, floatText: real -> string)
    requires '\n' !in floatText(sentiment.score) && '\n' !in floatText(sentiment.magnitude)
    ensures ParseUploadReport(UploadSidecar(transcript, sentiment, floatText))
      == Some(Fields(transcript, floatText(sentiment.score), floatText(sentiment.magnitude),
                     LabelText(LabelOf(sentiment.score, sentiment.magnitude))))
  {
    var score, magnitude := floatText(sentiment.score), floatText(sentiment.magnitude);
    var rated := LabelOf(sentiment.score, sentiment.magnitude);
    LabelTextInjective(rated, rated);
    NoBreakConcat(score, magnitude);
    NoBreakConcat(score + magnitude, LabelText(rated));
    UploadReportRoundTrip(transcript, score, magnitude, LabelText(rated));
  }

  /** What `upload_text` writes reads back as the text, the two renderings and the label, whenever
      the float renderings hold no line break. */
  lemma TextSidecarRoundTrip(text: string, sentiment: DocumentSentiment, floatText: real -> string)
    requires '\n' !in floatText(sentiment.score) && '\n' !in floatText(sentiment.magnitude)
    ensures ParseTextReport(TextSidecar(text, sentiment, floatText))
      == Some(Fields(text, floatText(sentiment.score), floatText(sentiment.magnitude),
                     LabelText(LabelOf(sentiment.score, sentiment.magnitude))))
  {
    var score, magnitude := floatText(sentiment.score), floatText(sentiment.magnitude);
    var rated := LabelOf(sentiment.score, sentiment.magnitude);
    LabelTextInjective(rated, rated);
    NoBreakConcat(score, magnitude);
    NoBreakConcat(score + magnitude, LabelText(rated));
    TextReportRoundTrip(text, score, magnitude, LabelText(rated));
  }

  /** What `upload_text` writes ends on the label text: it is never empty and never ends in a line
      break, whatever the text and the float renderings hold. */
  lemma TextSidecarEndsOnLabel(text: string, sentiment: DocumentSentiment, floatText: real -> string)
    ensures var r := TextSidecar(text, sentiment, floatText);
      |r| > 0 && r[|r| - 1] != '\n'
  {
    var rated := LabelOf(sentiment.score, sentiment.magnitude);
    var rating := LabelText(rated);
    LabelTextInjective(rated, rated);
    TextReportEdges(text, floatText(sentiment.score), floatText(sentiment.magnitude), rating);
    assert rating[|rating| - 1] in rating;
  }
}
