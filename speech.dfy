/** The local logic around the two speech services: assembling a transcript from recognition
    results, and choosing what the synthesis request carries. */
module Speech {
  import opened Wrappers

  /** One recognition hypothesis of a result segment. */
  datatype Alternative = Alternative(transcript: string)

  /** One result segment, its hypotheses best first. */
  datatype Segment = Segment(alternatives: seq<Alternative>)

  /** Every segment has a top alternative to read (`alternatives[0]` exists). */
  predicate WellFormed(results: seq<Segment>) {
    forall i :: 0 <= i < |results| ==> results[i].alternatives != []
  }

  /** A segment's contribution: its top alternative and a line break. */
  function Line(segment: Segment): string
    requires segment.alternatives != []
  {
    segment.alternatives[0].transcript + "\n"
  }

  /** The transcript of a recognition response: each segment's line, in order. */
  function Transcript(results: seq<Segment>): string
    requires WellFormed(results)
  {
    if results == [] then ""
    else Transcript(results[..|results| - 1]) + Line(results[|results| - 1])
  }

  /** The transcript loop of `sample_recognize`. */
  method Recognize(results: seq<Segment>) returns (txt: string)
    requires WellFormed(results)
    ensures txt == Transcript(results)
  {
    txt := "";
    for i := 0 to |results|
      invariant txt == Transcript(results[..i])
    {
      assert results[..i + 1][..i] == results[..i];
      txt := txt + results[i].alternatives[0].transcript + "\n";
    }
    assert results[..|results|] == results;
  }

  /** Transcripts of consecutive responses concatenate. */
  lemma {:induction false} TranscriptAppend(a: seq<Segment>, b: seq<Segment>)
    requires WellFormed(a) && WellFormed(b)
    ensures WellFormed(a + b) && Transcript(a + b) == Transcript(a) + Transcript(b)
  {
    assert WellFormed(a + b) by {
      forall i | 0 <= i < |a + b| ensures (a + b)[i].alternatives != [] {
        if i >= |a| { assert (a + b)[i] == b[i - |a|]; }
      }
    }
    if b != [] {
      var b' := b[..|b| - 1];
      assert (a + b)[..|a + b| - 1] == a + b';
      assert WellFormed(b') by {
        forall i | 0 <= i < |b'| ensures b'[i].alternatives != [] { assert b'[i] == b[i]; }
      }
      TranscriptAppend(a, b');
    } else {
      assert a + b == a;
    }
  }

  /** Each segment adds its top transcript's length plus one, counted from the front. */
  function TotalLength(results: seq<Segment>): nat
    requires WellFormed(results)
  {
    if results == [] then 0
    else |results[0].alternatives[0].transcript| + 1 + TotalLength(results[1..])
  }

  lemma {:induction false} TranscriptLength(results: seq<Segment>)
    requires WellFormed(results)
    ensures |Transcript(results)| == TotalLength(results)
  {
    if results != [] {
      var rest := results[1..];
      assert WellFormed(rest) by {
        forall i | 0 <= i < |rest| ensures rest[i].alternatives != [] { assert rest[i] == results[i + 1]; }
      }
      assert results == [results[0]] + rest;
      TranscriptAppend([results[0]], rest);
      assert [results[0]][..0] == [];
      TranscriptLength(rest);
    }
  }

  /** No segments give the empty transcript; otherwise the transcript ends in a line break. */
  lemma TranscriptEnds(results: seq<Segment>)
    requires WellFormed(results)
    ensures results == [] <==> Transcript(results) == ""
    ensures results != [] ==> Transcript(results)[|Transcript(results)| - 1] == '\n'
  {
  }

  /** The request text of a synthesis: plain text or SSML markup. */
  datatype SynthesisInput = TextInput(text: string) | SsmlInput(ssml: string)

  /** `sample_synthesize_speech(text, ssml)`: a non-empty `ssml` is sent in place of `text`. */
  function ChooseInput(text: string, ssml: Option<string>): (r: SynthesisInput)
    ensures r.SsmlInput? <==> ssml.Some? && ssml.value != ""
    ensures r.SsmlInput? ==> r.ssml == ssml.value
    ensures r.TextInput? ==> r.text == text
  {
    if ssml.Some? && ssml.value != "" then SsmlInput(ssml.value) else TextInput(text)
  }
}
