/** The two sidecar text layouts written next to a stored audio file. */
module Reports {
  import opened Wrappers
  import opened Strings

  /** The three sentiment lines both sidecars end with; `key` introduces the label line. */
  function SentimentLines(score: string, magnitude: string, key: string, rating: string): string {
    "\n" + ("Score: " + score) + "\n" + ("Magnitude: " + magnitude) + "\n" + (key + rating)
  }

  /** The sidecar of an uploaded recording: transcript, then the sentiment section, each line
      ending in a line break. */
  function UploadReport(transcript: string, score: string, magnitude: string, rating: string): string {
    "TRANSCRIPT:\n" + transcript + "\n\nSENTIMENT ANALYSIS:"
      + SentimentLines(score, magnitude, "Overall sentiment: ", rating) + "\n"
  }

  /** The sidecar of a synthesized text: the text, then the sentiment section, with no line
      break after the last line. */
  function TextReport(text: string, score: string, magnitude: string, rating: string): string {
    "Original Text: " + text + "\n\nSentiment Analysis:"
      + SentimentLines(score, magnitude, "Overall Sentiment: ", rating)
  }

  /** What a sidecar records: the transcript or original text, and the three sentiment fields. */
  datatype Fields = Fields(body: string, score: string, magnitude: string, rating: string)

  /** Reads the three sentiment lines off the end of a sidecar, last line first. */
  function ParseTail(s: string, key: string): Option<(string, string, string, string)> {
    var (rest, keyLine) :- SplitLastLine(s);
    var rating :- StripPrefix(keyLine, key);
    var (rest', magnitudeLine) :- SplitLastLine(rest);
    var magnitude :- StripPrefix(magnitudeLine, "Magnitude: ");
    var (head, scoreLine) :- SplitLastLine(rest');
    var score :- StripPrefix(scoreLine, "Score: ");
    Some((head, score, magnitude, rating))
  }

  function ParseUploadReport(r: string): Option<Fields> {
    var s :- StripSuffix(r, "\n");
    var (head, score, magnitude, rating) :- ParseTail(s, "Overall sentiment: ");
    var t :- StripSuffix(head, "\n\nSENTIMENT ANALYSIS:");
    var transcript :- StripPrefix(t, "TRANSCRIPT:\n");
    Some(Fields(transcript, score, magnitude, rating))
  }

  function ParseTextReport(r: string): Option<Fields> {
    var (head, score, magnitude, rating) :- ParseTail(r, "Overall Sentiment: ");
    var t :- StripSuffix(head, "\n\nSentiment Analysis:");
    var text :- StripPrefix(t, "Original Text: ");
    Some(Fields(text, score, magnitude, rating))
  }

  /** A line break is in a concatenation only if it is in one of the parts. */
  lemma NoBreakConcat(a: string, b: string)
    requires '\n' !in a && '\n' !in b
    ensures '\n' !in a + b
  {
    assert forall c :: c in a + b ==> c in a || c in b;
  }

  /** The last line `prefix + v` comes off, and its prefix with it. */
  lemma PeelLine(a: string, prefix: string, v: string)
    requires '\n' !in prefix && '\n' !in v
    ensures SplitLastLine(a + "\n" + (prefix + v)) == Some((a, prefix + v))
    ensures StripPrefix(prefix + v, prefix) == Some(v)
  {
    NoBreakConcat(prefix, v);
    SplitLastLineOf(a, prefix + v);
    assert (prefix + v)[..|prefix|] == prefix && (prefix + v)[|prefix|..] == v;
  }

  lemma SentimentLinesSplit(head: string, score: string, magnitude: string, key: string, rating: string)
    ensures head + SentimentLines(score, magnitude, key, rating)
      == ((head + "\n" + ("Score: " + score)) + "\n" + ("Magnitude: " + magnitude)) + "\n" + (key + rating)
  {
  }

  lemma ParseTailOf(head: string, score: string, magnitude: string, rating: string, key: string)
    requires '\n' !in score && '\n' !in magnitude && '\n' !in rating && '\n' !in key
    ensures ParseTail(head + SentimentLines(score, magnitude, key, rating), key)
      == Some((head, score, magnitude, rating))
  {
    var s1 := head + "\n" + ("Score: " + score);
    var s2 := s1 + "\n" + ("Magnitude: " + magnitude);
    SentimentLinesSplit(head, score, magnitude, key, rating);
    PeelLine(s2, key, rating);
    PeelLine(s1, "Magnitude: ", magnitude);
    PeelLine(head, "Score: ", score);
  }

  lemma NoBreakIn(score: string, magnitude: string, rating: string)
    requires '\n' !in score + magnitude + rating
    ensures '\n' !in score && '\n' !in magnitude && '\n' !in rating
  {
    assert score + magnitude + rating == score + (magnitude + rating);
    assert forall c :: c in magnitude + rating ==> c in score + (magnitude + rating);
  }

  /** The upload sidecar can be read back into exactly what was written, whatever the transcript
      holds, as long as the score and magnitude renderings and the label text have no line break. */
  lemma UploadReportRoundTrip(transcript: string, score: string, magnitude: string, rating: string)
    requires '\n' !in score + magnitude + rating
    ensures ParseUploadReport(UploadReport(transcript, score, magnitude, rating))
      == Some(Fields(transcript, score, magnitude, rating))
  {
    var head := "TRANSCRIPT:\n" + transcript + "\n\nSENTIMENT ANALYSIS:";
    var key := "Overall sentiment: ";
    NoBreakIn(score, magnitude, rating);
    ParseTailOf(head, score, magnitude, rating, key);
    var t := "TRANSCRIPT:\n" + transcript;
    assert StripSuffix(head, "\n\nSENTIMENT ANALYSIS:") == Some(t);
    assert StripPrefix(t, "TRANSCRIPT:\n") == Some(transcript);
  }

  /** The text sidecar can be read back into exactly what was written. */
  lemma TextReportRoundTrip(text: string, score: string, magnitude: string, rating: string)
    requires '\n' !in score + magnitude + rating
    ensures ParseTextReport(TextReport(text, score, magnitude, rating))
      == Some(Fields(text, score, magnitude, rating))
  {
    var head := "Original Text: " + text + "\n\nSentiment Analysis:";
    var key := "Overall Sentiment: ";
    NoBreakIn(score, magnitude, rating);
    ParseTailOf(head, score, magnitude, rating, key);
    var t := "Original Text: " + text;
    assert StripSuffix(head, "\n\nSentiment Analysis:") == Some(t);
    assert StripPrefix(t, "Original Text: ") == Some(text);
  }

  /** An upload sidecar starts with its transcript and ends in a line break. */
  lemma UploadReportEdges(transcript: string, score: string, magnitude: string, rating: string)
    ensures var r := UploadReport(transcript, score, magnitude, rating);
      "TRANSCRIPT:\n" + transcript <= r && r[|r| - 1] == '\n'
  {
    var p := "TRANSCRIPT:\n" + transcript;
    var r := UploadReport(transcript, score, magnitude, rating);
    assert r == p + ("\n\nSENTIMENT ANALYSIS:" + SentimentLines(score, magnitude, "Overall sentiment: ", rating) + "\n");
  }

  /** A text sidecar starts with "Original Text: " and the text, and ends with its label line
      and the label itself: nothing follows the label. */
  lemma TextReportEdges(text: string, score: string, magnitude: string, rating: string)
    ensures var r := TextReport(text, score, magnitude, rating);
      var last := "\nOverall Sentiment: " + rating;
      && "Original Text: " + text <= r
      && |r| >= |last| && r[|r| - |last|..] == last
      && (rating != [] ==> r[|r| - 1] == rating[|rating| - 1])
  {
    var p := "Original Text: " + text;
    var r := TextReport(text, score, magnitude, rating);
    var last := "\nOverall Sentiment: " + rating;
    var mid := "\n\nSentiment Analysis:" + "\n" + ("Score: " + score) + "\n" + ("Magnitude: " + magnitude);
    assert r == p + (mid + last);
    assert r == (p + mid) + last;
  }
}
