# Reddit comment sentiment comparison, modelled in Dafny

The dashboard fetches the hottest post of a subreddit, takes its first 50
top-level comments, and asks two engines for the sentiment of each comment
that is at least 10 characters long once trimmed: Amazon Comprehend (a
label POSITIVE, NEGATIVE, NEUTRAL or MIXED plus four confidence scores) and
NLTK's VADER (a compound score in [-1, 1], turned into a label with the
thresholds ±0.05). It builds one record per analysed comment, flags whether
the two labels agree, and shows a 20-row comparison table, the number of
comments analysed and of disagreements, and the first 10 disagreements.

This project models that comparison, from the slice of 50 comments to the
data each table and count receives:

- `sequences.dfy` (module `Sequences`): the prefix (`xs[:n]`, `head(n)`) and
  the order-preserving filter (`continue` in the loop, `df[mask]`), with
  lemmas that pin down which elements a filter keeps, where they came from
  and how many there are.
- `text.dfy` (module `Text`): Python's `str.isspace` character set and
  `str.strip()`.
- `sentiment.dfy` (module `Sentiment`): the labels and the strings they are
  written as, the VADER thresholds, Comprehend's answer, and the record.
- `comparison.dfy` (module `Comparison`): the loop of `app.py` as a method,
  proved equal to a specification function `Records`, and the properties of
  `Records`: one record per qualifying comment in fetch order, nothing for
  the others, neither engine consulted for a skipped comment.
- `report.dfy` (module `Report`): the data frame with its `match` column
  (including the failure when there are no records), the comparison table,
  the disagreement count and table, and the whole analysis.

The two engines are parameters: `cloud: string -> CloudResponse` stands for
`comprehend.detect_sentiment` and `vader: string -> Compound` for VADER's
compound score. Both are total and deterministic, as the script treats them.
Floating-point scores are modelled as `real`: each binary64 value stands for
the real written by its shortest decimal form (the form Python's `repr`
prints). That mapping is strictly increasing and sends the literal `0.05` to
the real 0.05, so `score > 0.05` and `score < -0.05` in the script hold
exactly when they hold for the reals in the model; a score that prints as
`0.05` is NEUTRAL in both.

When no comment among the first 50 qualifies, `pd.DataFrame([])` has no
columns and reading `df["comprehend_sentiment"]` at app.py:68 raises
`KeyError`; the model returns `Err(KeyError("comprehend_sentiment"))` there
(`Report.WithMatchColumn`, `Report.Render`, `Report.Analyze`) rather than
assuming at least one record.

## Model

| member | source | states |
|---|---|---|
| `Sequences.Take` | app.py:36 | `s[:n]` / `head(n)`: exactly the first min(n, \|s\|) elements, unchanged and in order |
| `Sequences.Filter` | app.py:41-43 | the loop's `continue` and the mask `df[df['match'] == False]` (app.py:84) keep only elements of the input that satisfy the condition, never more than the input has; `FilterAt` states which ones and in what order |
| `Sequences.FilterAt` | app.py:41-43 | the k-th kept element is the element at the k-th listed position; positions increase strictly; a position is listed iff its element satisfies the condition |
| `Sequences.FilterAppend` | app.py:41-43 | filtering a concatenation is concatenating the filtered parts |
| `Sequences.FilterCount` | app.py:83 | the number of kept elements is the number of positions whose element satisfies the condition |
| `Sequences.FilterIndexRank` | app.py:84 | the k-th kept position is preceded by exactly k satisfying positions, so no satisfying element is skipped |
| `Text.IsSpace` | app.py:42 | whitespace as `str.strip()` with no argument removes it: CPython's `str.isspace` set, tested by code-point ranges; `IsSpaceIsPythonWhitespace` states which code points |
| `Text.IsSpaceIsPythonWhitespace` | app.py:42 | the range test accepts exactly the 29 code points of CPython's whitespace table, listed one by one |
| `Text.TrimStart` | app.py:42 | the result is a suffix of the input, everything removed is whitespace, and it does not start with whitespace |
| `Text.TrimEnd` | app.py:42 | the result is a prefix of the input, everything removed is whitespace, and it does not end with whitespace |
| `Text.Strip` | app.py:42 | `text.strip()` is a slice `s[i..j]` with only whitespace outside it, and neither starts nor ends with whitespace |
| `Text.StripShorter` | app.py:42 | stripping never lengthens a text |
| `Text.StripIdempotent` | app.py:42 | stripping a stripped text changes nothing |
| `Sentiment.Name` | app.py:51-53 | each label is written as a non-empty upper-case ASCII string (`"POSITIVE"`, `"NEGATIVE"`, `"NEUTRAL"`, `"MIXED"`), compared case-sensitively; `NamesDistinct` states that no two share a string |
| `Sentiment.NamesDistinct` | app.py:68 | two label strings are equal iff the labels are equal |
| `Sentiment.VaderLabel` | app.py:50-54 | POSITIVE iff score > 0.05, NEGATIVE iff score < -0.05, NEUTRAL iff -0.05 <= score <= 0.05, never MIXED |
| `Sentiment.VaderLabelMonotone` | app.py:50-54 | a higher score never gets a lower label |
| `Sentiment.VaderLabelBoundaries` | app.py:50-54 | scores of exactly 0.05 and -0.05 are both NEUTRAL |
| `Sentiment.MakeRecord` | app.py:56-65 | a record keeps the untrimmed comment, Comprehend's label and scores for that text, VADER's score for that text, and the threshold label of that very score, never MIXED |
| `Comparison.Qualifies` | app.py:42 | a comment is analysed iff its stripped length is at least 10, so every analysed comment is at least 10 long |
| `Comparison.QualifiesUnpadded` | app.py:42 | a comment with no whitespace at either end qualifies iff it is at least 10 long |
| `Comparison.Records` | app.py:41-65 | the records the loop accumulates: never more than the texts, each for a qualifying text; `RecordsCorrespond` states the one-to-one, in-order correspondence |
| `Comparison.BuildRecords` | app.py:36-65 | the loop over the first 50 comments leaves `results` equal to `Records` of those comments |
| `Comparison.RecordsStep` | app.py:41-65 | one more comment appends its record when it qualifies and nothing otherwise |
| `Comparison.RecordsCorrespond` | app.py:41-65 | records correspond one-to-one, in fetch order, with the qualifying comments; each holds its untrimmed text, Comprehend's label and scores for it, VADER's score for it and the label derived from that score |
| `Comparison.RecordsAreFilteredTexts` | app.py:41-65 | the k-th record is the record of the k-th comment that survives the length filter |
| `Comparison.ShortCommentHasNoRecord` | app.py:41-43 | no record carries a comment whose trimmed length is under 10 |
| `Comparison.ShortCommentsNotConsulted` | app.py:41-49 | the records do not depend on what either engine answers for comments that are skipped |
| `Comparison.RecordCountBound` | app.py:36-43 | at most min(50, number of comments) records |
| `Comparison.RecordsAppend` | app.py:41-65 | each comment is handled independently of the comments before it |
| `Comparison.ExampleTooShort` | app.py:42-43 | "meh" yields no record |
| `Comparison.ExamplePaddedTooShort` | app.py:42-43 | surrounding whitespace does not let a five-letter comment through |
| `Comparison.ExampleBothPositive` | app.py:41-68 | a 35-character comment with VADER score 0.8 and Comprehend label POSITIVE yields one POSITIVE record whose label strings agree |
| `Report.Project` | app.py:79 | the four displayed columns are the record's untrimmed comment, its Comprehend label, its local label and its score, unchanged; so the two shown labels differ iff the record disagrees |
| `Report.WithMatchColumn` | app.py:67-68 | no records raises KeyError for `comprehend_sentiment`; otherwise one row per record, in order, whose `match` is true iff the two labels are equal |
| `Report.MixedNeverMatches` | app.py:50-68 | a record Comprehend labels MIXED never matches |
| `Report.Preview` | app.py:79 | the comparison table is the four columns of the first min(20, n) rows, unchanged and in order |
| `Report.DisagreementCount` | app.py:83 | the disagreement count is the number of rows whose `match` is false |
| `Report.MismatchTable` | app.py:84 | the disagreement table has min(10, disagreement count) rows |
| `Report.MismatchTableRows` | app.py:84 | row k of the disagreement table is a non-matching row with exactly k non-matching rows before it |
| `Report.FrameViews` | app.py:83-84 | the count and the disagreement table, read in terms of the records whose labels differ |
| `Report.Render` | app.py:67-84 | fails iff there are no records; otherwise counts all records, shows the first 20, counts the records whose labels differ and shows the first 10 of them in order |
| `Report.AnalyzedComments` | app.py:36-43 | the records of the first 50 comments are empty iff none of them qualifies, and otherwise number exactly the qualifying ones |
| `Report.Analyze` | app.py:36-84 | the whole analysis fails iff none of the first 50 comments qualifies, and otherwise analyses exactly the qualifying ones among them, at most 50 |

## Left out

- Fetching from Reddit through praw (credentials, the "technology" subreddit's hot post, `replace_more(limit=0)`): network I/O; the model starts from the fetched comment bodies as a sequence of strings.
- Calling Amazon Comprehend through boto3 (session, credentials, region): a foreign network call, modelled as the total function `cloud`; its errors are not modelled because the script does not handle them.
- VADER's lexicon download and scoring: a third-party floating-point heuristic, modelled as the total function `vader` into [-1, 1].
- The four Comprehend confidence scores are carried through as opaque reals, as the script never inspects them.
- Floating point: scores are reals, not binary64 values.
- Lone surrogate code points: a Python `str` can hold them, but a Dafny `char` is a Unicode scalar value, so comment texts containing them are not represented.
- Index labels: `df[df['match'] == False]` at app.py:84 keeps each row's original index label and `st.dataframe` displays it; `TableRow` does not carry it (the position is available as `FilterIndices(IsMismatch, df)[k]` in `Report.MismatchTableRows`), and the comparison table's labels 0-19 are likewise not carried.
- The Streamlit page (title, captions, columns, headers, `st.write`, `st.dataframe`) and the two plotly histograms of the label columns: presentation only; the data the two tables and the two counts receive is modelled, the histograms' label distributions are not.
- pandas beyond what lines 67-84 use: the frame is a sequence of rows; column order and dtypes are not modelled.
