/** The data frame built from the records and the views the dashboard
    shows of it (app.py:67-84): the `match` column, the 20-row comparison
    table, the totals and the table of the first 10 disagreements. */
module Report {
  import opened Sequences
  import opened Sentiment
  import opened Comparison

  /** pandas raises KeyError when a column is missing from the frame. */
  datatype Error = KeyError(column: string)

  datatype Result<T> = Ok(value: T) | Err(error: Error)

  /** A row of the data frame: a record and its `match` column. */
  datatype Row = Row(record: Record, matches: bool)

  /** The four columns both tables show (app.py:79, 84). */
  datatype TableRow = TableRow(comment: string, comprehendSentiment: Label, vaderSentiment: Label, vaderScore: Compound)

  /** Rows of the comparison table (app.py:79). */
  const PreviewRows: nat := 20

  /** Rows of the disagreement table (app.py:84). */
  const MismatchRows: nat := 10

  /** The column selection of app.py:79 and 84: the untrimmed comment, both
      labels as the record holds them, and the score, so the shown row tells
      whether the record disagrees. */
  function Project(rec: Record): (r: TableRow)
    ensures r.comment == rec.comment && r.vaderScore == rec.vaderScore
    ensures r.comprehendSentiment == rec.comprehendSentiment && r.vaderSentiment == rec.vaderSentiment
    ensures (r.comprehendSentiment != r.vaderSentiment) <==> Disagrees(rec)
  {
    TableRow(rec.comment, rec.comprehendSentiment, rec.vaderSentiment, rec.vaderScore)
  }

  /** `pd.DataFrame(results)` and the `match` column (app.py:67-68). A frame
      built from no records has no columns, so reading
      `comprehend_sentiment` fails; otherwise each row keeps its record, in
      order, and matches exactly when both engines gave the same label. */
  function WithMatchColumn(results: seq<Record>): (r: Result<seq<Row>>)
    ensures r.Err? <==> results == []
    ensures r.Err? ==> r.error == KeyError("comprehend_sentiment")
    ensures r.Ok? ==> |r.value| == |results|
    ensures r.Ok? ==> forall i :: 0 <= i < |results| ==>
      && r.value[i].record == results[i]
      && (r.value[i].matches <==> results[i].comprehendSentiment == results[i].vaderSentiment)
  {
    if results == [] then Err(KeyError("comprehend_sentiment"))
    else
      var rows := seq(|results|, i requires 0 <= i < |results| =>
        Row(results[i], Name(results[i].comprehendSentiment) == Name(results[i].vaderSentiment)));
      assert forall i :: 0 <= i < |results| ==>
        (rows[i].matches <==> results[i].comprehendSentiment == results[i].vaderSentiment) by {
        forall i | 0 <= i < |results| {
          NamesDistinct(results[i].comprehendSentiment, results[i].vaderSentiment);
        }
      }
      Ok(rows)
  }

  /** A comment Comprehend calls MIXED never matches, since the local label
      is never MIXED. */
  lemma MixedNeverMatches(texts: seq<string>, cloud: string -> CloudResponse, vader: string -> Compound)
    ensures var df := WithMatchColumn(Records(texts, cloud, vader));
      df.Ok? ==> forall i :: 0 <= i < |df.value| && df.value[i].record.comprehendSentiment == MIXED ==>
        !df.value[i].matches
  {
    var recs := Records(texts, cloud, vader);
    RecordsCorrespond(texts, cloud, vader);
    assert forall i :: 0 <= i < |recs| ==> recs[i] in recs;
  }

  /** The comparison table: `head(20)` of the four columns. */
  function Preview(rows: seq<Row>): (r: seq<TableRow>)
    ensures |r| == Min(PreviewRows, |rows|)
    ensures forall i :: 0 <= i < |r| ==> r[i] == Project(rows[i].record)
  {
    var head := Take(rows, PreviewRows);
    seq(|head|, i requires 0 <= i < |head| => Project(head[i].record))
  }

  /** The mask `df['match'] == False`. */
  predicate IsMismatch(row: Row) {
    !row.matches
  }

  /** `len(df[df['match'] == False])` (app.py:83): the number of rows whose
      `match` is false. */
  function DisagreementCount(rows: seq<Row>): (n: nat)
    ensures n == |Matching(IsMismatch, rows, |rows|)|
    ensures n <= |rows|
  {
    FilterCount(IsMismatch, rows);
    |Filter(IsMismatch, rows)|
  }

  /** The disagreement table (app.py:84): the four columns of the rows whose
      `match` is false, in frame order, cut to the first 10. */
  function MismatchTable(rows: seq<Row>): (r: seq<TableRow>)
    ensures |r| == Min(MismatchRows, DisagreementCount(rows))
  {
    var head := Take(Filter(IsMismatch, rows), MismatchRows);
    seq(|head|, i requires 0 <= i < |head| => Project(head[i].record))
  }

  /** Row k of the disagreement table is the (k+1)-th disagreeing row of the
      frame: it is a row whose `match` is false, exactly k rows before it
      disagree, and the table shows its four columns. */
  lemma MismatchTableRows(rows: seq<Row>)
    ensures var table, idx := MismatchTable(rows), FilterIndices(IsMismatch, rows);
      forall k :: 0 <= k < |table| ==>
        && k < |idx| && idx[k] < |rows|
        && !rows[idx[k]].matches
        && |Matching(IsMismatch, rows, idx[k])| == k
        && table[k] == Project(rows[idx[k]].record)
  {
    FilterAt(IsMismatch, rows);
    FilterIndexRank(IsMismatch, rows);
  }

  /** What the dashboard shows once the frame is built (app.py:79-84). */
  datatype Dashboard = Dashboard(
    analyzed: nat,
    comparison: seq<TableRow>,
    disagreements: nat,
    mismatches: seq<TableRow>)

  /** Whether the two engines gave a record different labels. */
  predicate Disagrees(rec: Record) {
    rec.comprehendSentiment != rec.vaderSentiment
  }

  /** `row` shows the (k+1)-th record whose labels differ: the record at
      some position j disagrees and exactly k records before it do. */
  ghost predicate ShowsKthDisagreement(results: seq<Record>, k: nat, row: TableRow) {
    exists j ::
      && 0 <= j < |results| && Disagrees(results[j])
      && |Matching(Disagrees, results, j)| == k
      && row == Project(results[j])
  }

  /** Lines 67-84 over the accumulated records: no records is the KeyError
      of line 68; otherwise the dashboard counts every record, shows the
      first 20 of them, counts those whose labels differ and shows the first
      10 of these: the k-th shown is the record exactly k disagreeing
      records follow. */
  function Render(results: seq<Record>): (r: Result<Dashboard>)
    ensures r.Err? <==> results == []
    ensures r.Ok? ==> r.value.analyzed == |results|
    ensures r.Ok? ==> |r.value.comparison| == Min(PreviewRows, |results|)
    ensures r.Ok? ==> forall i :: 0 <= i < |r.value.comparison| ==> r.value.comparison[i] == Project(results[i])
    ensures r.Ok? ==> r.value.disagreements == |Matching(Disagrees, results, |results|)|
    ensures r.Ok? ==> |r.value.mismatches| == Min(MismatchRows, r.value.disagreements)
    ensures r.Ok? ==> forall k :: 0 <= k < |r.value.mismatches| ==>
      ShowsKthDisagreement(results, k, r.value.mismatches[k])
  {
    match WithMatchColumn(results)
    case Err(e) => Err(e)
    case Ok(df) =>
      FrameViews(results, df);
      Ok(Dashboard(|df|, Preview(df), DisagreementCount(df), MismatchTable(df)))
  }

  /** The frame's views read in terms of the records it was built from. */
  lemma FrameViews(results: seq<Record>, df: seq<Row>)
    requires |df| == |results|
    requires forall i :: 0 <= i < |results| ==>
      df[i].record == results[i] && (df[i].matches <==> !Disagrees(results[i]))
    ensures DisagreementCount(df) == |Matching(Disagrees, results, |results|)|
    ensures forall k :: 0 <= k < |MismatchTable(df)| ==>
      ShowsKthDisagreement(results, k, MismatchTable(df)[k])
  {
    forall m | 0 <= m <= |df| ensures Matching(IsMismatch, df, m) == Matching(Disagrees, results, m) {
      assert forall j :: 0 <= j < m ==> (IsMismatch(df[j]) <==> Disagrees(results[j]));
    }
    MismatchTableRows(df);
    var idx := FilterIndices(IsMismatch, df);
    forall k | 0 <= k < |MismatchTable(df)|
      ensures ShowsKthDisagreement(results, k, MismatchTable(df)[k])
    {
      var table := MismatchTable(df);
      assert k < |idx| && idx[k] < |df| && !df[idx[k]].matches && |Matching(IsMismatch, df, idx[k])| == k
        && table[k] == Project(df[idx[k]].record);
      var j := idx[k];
      assert Disagrees(results[j]) && |Matching(Disagrees, results, j)| == k;
    }
  }

  /** The whole analysis of app.py:36-84 for the fetched comment bodies: it
      fails exactly when none of the first 50 comments qualifies, and
      otherwise analyses as many comments as qualify among the first 50. */
  method Analyze(comments: seq<string>, cloud: string -> CloudResponse, vader: string -> Compound)
    returns (d: Result<Dashboard>)
    ensures d.Err? <==> forall j :: 0 <= j < Min(MaxComments, |comments|) ==> !Qualifies(comments[j])
    ensures d.Ok? ==> d.value.analyzed == |Matching(Qualifies, comments, Min(MaxComments, |comments|))|
    ensures d.Ok? ==> d.value.analyzed <= MaxComments
    ensures d == Render(Records(Take(comments, MaxComments), cloud, vader))
  {
    var results := BuildRecords(comments, cloud, vader);
    d := Render(results);
    AnalyzedComments(comments, cloud, vader);
    RecordCountBound(comments, cloud, vader);
  }

  /** The records of the first 50 comments are empty exactly when none of
      them qualifies, and otherwise as many as qualify. */
  lemma AnalyzedComments(comments: seq<string>, cloud: string -> CloudResponse, vader: string -> Compound)
    ensures var recs := Records(Take(comments, MaxComments), cloud, vader);
      && (recs == [] <==> forall j :: 0 <= j < Min(MaxComments, |comments|) ==> !Qualifies(comments[j]))
      && |recs| == |Matching(Qualifies, comments, Min(MaxComments, |comments|))|
  {
    var texts := Take(comments, MaxComments);
    var recs := Records(texts, cloud, vader);
    var n := |texts|;
    assert forall j :: 0 <= j < n ==> texts[j] == comments[j];
    RecordsAreFilteredTexts(texts, cloud, vader);
    FilterCount(Qualifies, texts);
    MatchingPrefix(Qualifies, texts, comments, n);
    if recs == [] {
      FilterAt(Qualifies, texts);
      assert forall j :: 0 <= j < n ==> !Qualifies(texts[j]);
    } else {
      assert Qualifies(recs[0].comment);
      RecordsCorrespond(texts, cloud, vader);
      var j := FilterIndices(Qualifies, texts)[0];
      assert 0 <= j < n && Qualifies(comments[j]);
    }
  }
}
