/** The comparison loop of app.py:36-65: take the first 50 comments, skip
    the ones too short once trimmed, and build one record per remaining
    comment from both engines' answers. */
module Comparison {
  import opened Sequences
  import opened Text
  import opened Sentiment

  /** At most this many comments are examined (app.py:36). */
  const MaxComments: nat := 50

  /** A comment shorter than this once trimmed is skipped (app.py:42). */
  const MinLength: nat := 10

  /** Whether a comment text is analysed at all (app.py:42): its stripped
      length is at least 10, so a qualifying text is at least 10 long. */
  function Qualifies(text: string): (b: bool)
    ensures b ==> |text| >= MinLength
  {
    |Strip(text)| >= MinLength
  }

  /** A text with no whitespace at either end qualifies exactly when it is
      at least 10 long: only the surrounding whitespace is discounted. */
  lemma QualifiesUnpadded(text: string)
    requires text != [] && !IsSpace(text[0]) && !IsSpace(text[|text| - 1])
    ensures Qualifies(text) <==> |text| >= MinLength
  {
  }

  /** The records the loop of app.py:41-65 accumulates over `texts`, in
      order: never more than there are texts, and each one is for a text of
      `texts` that qualifies. RecordsCorrespond states the full
      correspondence. */
  function Records(texts: seq<string>, cloud: string -> CloudResponse, vader: string -> Compound): (r: seq<Record>)
    ensures |r| <= |texts|
    ensures forall k :: 0 <= k < |r| ==> Qualifies(r[k].comment)
    decreases |texts|
  {
    if texts == [] then []
    else
      var init := Records(texts[..|texts| - 1], cloud, vader);
      var text := texts[|texts| - 1];
      if Qualifies(text) then init + [MakeRecord(text, cloud, vader)] else init
  }

  /** The loop of app.py:38-65 over the first 50 fetched comments: the
      `results` list is exactly the specification's records for them. */
  method BuildRecords(comments: seq<string>, cloud: string -> CloudResponse, vader: string -> Compound)
    returns (results: seq<Record>)
    ensures results == Records(Take(comments, MaxComments), cloud, vader)
  {
    var texts := if |comments| <= MaxComments then comments else comments[..MaxComments];
    assert texts == Take(comments, MaxComments);
    results := [];
    for i := 0 to |texts|
      invariant results == Records(texts[..i], cloud, vader)
    {
      var text := texts[i];
      RecordsStep(texts, i, cloud, vader);
      if |Strip(text)| < MinLength {
        continue;
      }
      var comp := cloud(text);
      var score := vader(text);
      var vaderSentiment := VaderLabel(score);
      results := results + [Record(text, comp.sentiment, comp.scores, score, vaderSentiment)];
    }
    assert texts[..|texts|] == texts;
  }

  /** One more text adds its record when it qualifies and nothing otherwise. */
  lemma RecordsStep(texts: seq<string>, i: nat, cloud: string -> CloudResponse, vader: string -> Compound)
    requires i < |texts|
    ensures Records(texts[..i + 1], cloud, vader)
      == Records(texts[..i], cloud, vader) + if Qualifies(texts[i]) then [MakeRecord(texts[i], cloud, vader)] else []
  {
    assert texts[..i + 1][..i] == texts[..i];
  }

  /** The records are the qualifying texts, each once, in fetch order: record
      k comes from the text at position idx[k], positions increase, a text's
      position is listed exactly when it qualifies, and every record holds
      its own text untrimmed, Comprehend's label for that text, the score
      VADER gave that text and the label derived from that very score. */
  lemma {:induction false} RecordsCorrespond(texts: seq<string>, cloud: string -> CloudResponse, vader: string -> Compound)
    ensures var recs, idx := Records(texts, cloud, vader), FilterIndices(Qualifies, texts);
      && |recs| == |idx|
      && (forall k :: 0 <= k < |idx| ==> idx[k] < |texts| && recs[k] == MakeRecord(texts[idx[k]], cloud, vader))
      && (forall k, l :: 0 <= k < l < |idx| ==> idx[k] < idx[l])
      && (forall j :: 0 <= j < |texts| ==> (Qualifies(texts[j]) <==> j in idx))
    ensures forall r :: r in Records(texts, cloud, vader) ==>
      && Qualifies(r.comment)
      && r.comprehendSentiment == cloud(r.comment).sentiment
      && r.scores == cloud(r.comment).scores
      && r.vaderScore == vader(r.comment)
      && r.vaderSentiment == VaderLabel(r.vaderScore)
    decreases |texts|
  {
    FilterAt(Qualifies, texts);
    RecordsAreFilteredTexts(texts, cloud, vader);
  }

  /** Records is the record of each text Filter keeps. */
  lemma {:induction false} RecordsAreFilteredTexts(texts: seq<string>, cloud: string -> CloudResponse, vader: string -> Compound)
    ensures |Records(texts, cloud, vader)| == |Filter(Qualifies, texts)|
    ensures forall k :: 0 <= k < |Filter(Qualifies, texts)| ==>
      Records(texts, cloud, vader)[k] == MakeRecord(Filter(Qualifies, texts)[k], cloud, vader)
    decreases |texts|
  {
    if texts != [] {
      RecordsAreFilteredTexts(texts[..|texts| - 1], cloud, vader);
    }
  }

  /** A text that does not qualify yields no record at all. */
  lemma ShortCommentHasNoRecord(texts: seq<string>, text: string, cloud: string -> CloudResponse, vader: string -> Compound)
    requires !Qualifies(text)
    ensures forall r :: r in Records(texts, cloud, vader) ==> r.comment != text
  {
    RecordsCorrespond(texts, cloud, vader);
  }

  /** Neither engine is consulted for a text that does not qualify: engines
      that agree on the qualifying texts give the same records, whatever
      they answer for the others. */
  lemma {:induction false} ShortCommentsNotConsulted(
    texts: seq<string>,
    cloud1: string -> CloudResponse, vader1: string -> Compound,
    cloud2: string -> CloudResponse, vader2: string -> Compound)
    requires forall t :: t in texts && Qualifies(t) ==> cloud1(t) == cloud2(t) && vader1(t) == vader2(t)
    ensures Records(texts, cloud1, vader1) == Records(texts, cloud2, vader2)
    decreases |texts|
  {
    if texts != [] {
      var init := texts[..|texts| - 1];
      assert forall t :: t in init ==> t in texts;
      ShortCommentsNotConsulted(init, cloud1, vader1, cloud2, vader2);
    }
  }

  /** No more records than comments examined, and never more than 50. */
  lemma RecordCountBound(comments: seq<string>, cloud: string -> CloudResponse, vader: string -> Compound)
    ensures |Records(Take(comments, MaxComments), cloud, vader)| <= Min(MaxComments, |comments|)
  {
    RecordsAreFilteredTexts(Take(comments, MaxComments), cloud, vader);
  }

  /** Records of consecutive batches are the batches' records concatenated:
      each comment is handled on its own, whatever precedes it. */
  lemma {:induction false} RecordsAppend(a: seq<string>, b: seq<string>, cloud: string -> CloudResponse, vader: string -> Compound)
    ensures Records(a + b, cloud, vader) == Records(a, cloud, vader) + Records(b, cloud, vader)
    decreases |b|
  {
    if b == [] {
      assert a + b == a;
    } else {
      var b' := b[..|b| - 1];
      assert (a + b)[..|a + b| - 1] == a + b';
      RecordsAppend(a, b', cloud, vader);
    }
  }

  /** A comment of three letters is skipped. */
  lemma ExampleTooShort(cloud: string -> CloudResponse, vader: string -> Compound)
    ensures Records(["meh"], cloud, vader) == []
  {
  }

  /** Whitespace padding does not help a short comment through. */
  lemma ExamplePaddedTooShort(cloud: string -> CloudResponse, vader: string -> Compound)
    ensures Records(["   great   "], cloud, vader) == []
  {
  }

  /** A positive comment that both engines call positive agrees. */
  lemma ExampleBothPositive(cloud: string -> CloudResponse, vader: string -> Compound)
    requires cloud("I absolutely love this, great work!").sentiment == POSITIVE
    requires vader("I absolutely love this, great work!") == 0.8
    ensures var recs := Records(["I absolutely love this, great work!"], cloud, vader);
      |recs| == 1 && recs[0].vaderSentiment == POSITIVE
      && Name(recs[0].comprehendSentiment) == Name(recs[0].vaderSentiment)
  {
    QualifiesUnpadded("I absolutely love this, great work!");
  }
}
