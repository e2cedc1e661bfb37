# Heart disease preprocessing, modelled in Dafny

This project models the batch job in `main.py`. The job reads the clinical heart disease
table and does the following:

- fits a `StringIndexer` on the chest-pain type `cp`, fits a `OneHotEncoder` on its labels
  and one-hot encodes each row's index;
- splits the encoded vector into the columns `cp_ohe_0` to `cp_ohe_3`;
- derives `powerOfTrestbps`, the square of the resting blood pressure;
- keeps the cohort of patients older than 50 with resting pressure above 140;
- labels each cohort row's cholesterol as `Low`, `Medium` or `High`;
- counts the `High` rows;
- stamps every row with the run date;
- selects the 21 output columns.

Each stage is modelled as a pure function over immutable rows, like the DataFrame
transformations it stands for:

- `records.dfy` defines the input record, the run date and the errors that abort a run.
- `seqs.dfy` defines an order-preserving filter, with its subsequence and multiplicity properties.
- `string_indexing.dfy` defines the fitted label order: descending frequency, ties broken by
  the label text in ascending order. It also defines the index lookup.
- `one_hot.dfy` defines the drop-last one-hot vector and the null-past-the-end element access.
- `features.dfy` defines the square, the cohort predicate and the cholesterol bands.
- `pipeline.dfy` defines the row types, the stages in `main.py` order, column resolution,
  the projection and the whole run `Run(input, today)`. It also holds the end-to-end
  properties: which rows come out, what they hold, what the count means and what the date
  changes.

## Model

| member | source | states |
|---|---|---|
| Seqs.Filter | main.py:34 | the filter keeps only elements of the input that satisfy the predicate, and never more than the input |
| Seqs.FilterIsSubsequence | main.py:34 | filtering keeps the input's relative order (the result is a subsequence) |
| Seqs.FilterMultiplicity | main.py:34 | every satisfying element is kept exactly as often as it occurs; every other element is dropped |
| Seqs.FilterAppend | main.py:45 | filtering distributes over concatenation, so partitions filter independently |
| StringIndexing.Digits | main.py:16-17 | the text is the number's decimal numeral: digits only, no leading zero, one digit exactly below 10, and it reads back as the number |
| StringIndexing.CategoryText | main.py:16-17 | the string a `cp` value is cast to: a minus sign exactly for negative values, followed by the canonical decimal numeral of its magnitude: digits only, no leading zero, reading back as the value (so the tie-break text is fixed) |
| StringIndexing.DigitsInjective | main.py:16-17 | distinct numbers have distinct decimal texts |
| StringIndexing.CategoryTextInjective | main.py:16-17 | distinct `cp` values have distinct string forms, so the tie-break on the text is a total order on values |
| StringIndexing.LexLess | main.py:16-17 | the ascending-text tie-break, character by character with a proper prefix first; no text sorts before itself |
| StringIndexing.LexLessTransitive | main.py:16-17 | the ascending-text tie-break is transitive |
| StringIndexing.LexLessTotal | main.py:16-17 | any two distinct texts are ordered one way or the other |
| StringIndexing.RanksBefore | main.py:16-17 | the frequencyDesc order: a more frequent value always ranks first, and a value never ranks before a more frequent one |
| StringIndexing.RanksBeforeIrreflexive | main.py:16-17 | the frequency-then-text label order is irreflexive |
| StringIndexing.RanksBeforeTransitive | main.py:16-17 | the frequency-then-text label order is transitive |
| StringIndexing.RanksBeforeTotal | main.py:16-17 | the frequency-then-text label order relates any two distinct labels |
| StringIndexing.RankedCons | main.py:16-17 | a label list is ranked exactly when its head ranks before every later label and its tail is ranked |
| StringIndexing.Insert | main.py:16-17 | inserting a new label into a ranked list keeps it ranked and adds exactly that label |
| StringIndexing.SortLabels | main.py:16-17 | sorting the distinct values of the column gives a ranked list with exactly those values |
| StringIndexing.Fit | main.py:16-17 | the labels are exactly the column's distinct values in frequency-descending, text-ascending order; an empty column gives no labels |
| StringIndexing.Position | main.py:17 | the position of a label is where it sits in the label list |
| StringIndexing.Index | main.py:17 | a known value gets its label's position; an unseen value is an error, as under `handleInvalid = "error"` |
| StringIndexing.RankedDistinct | main.py:16-17 | a ranked label list has no duplicates |
| StringIndexing.DistinctCardinality | main.py:16-17 | a duplicate-free list has as many elements as its set of values |
| StringIndexing.FitIndexDense | main.py:16-17 | the indices are 0..K-1, with K the number of distinct values; every value gets one and distinct values get distinct ones |
| StringIndexing.FitFrequencyOrder | main.py:16-17 | a more frequent value gets a smaller index; equally frequent values are ordered by their text |
| StringIndexing.FitMostFrequentFirst | main.py:16-17 | the most frequent value gets index 0 |
| StringIndexing.RankedUnique | main.py:16-17 | two ranked lists of the same values are equal, so the label order is fully determined |
| StringIndexing.FitOrderInsensitive | main.py:16-17 | the fitted labels depend only on the multiset of values, not on the row order |
| OneHotEncoding.FitEncoder | main.py:20-21 | the encoder accepts the indexed column exactly when it has at least two labels and records that many categories; otherwise the run aborts with the label count |
| OneHotEncoding.FitEncoderRejectsEmptyVectors | main.py:20-21 | the encoder is rejected exactly when every category's drop-last vector would be empty |
| OneHotEncoding.OneHot | main.py:20-21 | a known index gives a vector of K-1 entries, each 0 or 1; an index outside the fitted categories is an error |
| OneHotEncoding.OneHotOnes | main.py:20-21 | the vector holds a single 1 at the index's own position, except the last category, which is all zeros |
| OneHotEncoding.Decode | main.py:20-21 | decoding finds the first 1, or the vector length when there is none |
| OneHotEncoding.DecodeOneHot | main.py:20-21 | decoding the one-hot vector gives back the category index |
| OneHotEncoding.ElementAt | main.py:24-28 | element i of the array, or null when i is past the end |
| OneHotEncoding.ElementAtOneHot | main.py:24-28 | `cp_ohe_i` is 1 at the row's index, 0 at the other encoded positions and null from K-1 on |
| OneHotEncoding.FourCategories | main.py:24-28 | with four categories `cp_ohe_3` is always null and the least frequent category reads as three zeros |
| Features.PowerOfTrestbps | main.py:31 | `powerOfTrestbps` is exactly the square of `trestbps` and is never negative |
| Features.InCohort | main.py:34 | a patient is in the cohort exactly when the age is at least 51 and the resting pressure at least 141: both bounds are excluded |
| Features.LevelName | main.py:39-41 | each level is stored as its own string, so comparing the column with "Low", "Medium" or "High" selects exactly that level |
| Features.Bucket | main.py:37-42 | Low below 200, Medium from 200 to 239, High from 240; the bands are total and disjoint |
| Features.BucketMonotone | main.py:37-42 | more cholesterol never gives a lower level |
| Features.BucketBoundaries | main.py:37-42 | 199 is Low, 200 and 239 are Medium, 240 is High |
| Pipeline.CategoryColumn | main.py:16-17 | the `cp` column of the input, row by row |
| Pipeline.EnrichRow | main.py:17-31 | a row is encoded exactly when its `cp` is a fitted label whose index the encoder covers; an unseen `cp` is the indexer's error, an index beyond the categories the encoder's; an encoded row carries its label's index, its one-hot vector, the vector's elements 0..3 and the square of its pressure, with the record unchanged |
| Pipeline.EnrichAll | main.py:17-31 | every row is encoded, in order, or the run aborts with the error of the first row that cannot be encoded |
| Pipeline.FittedModelEnrichesAll | main.py:16-31 | the indexer fitted on the input has one label per distinct `cp` value; once the encoder accepts that many, every row of the input is encoded |
| Pipeline.RecordsOf | main.py:34 | the records behind encoded rows, in order |
| Pipeline.CohortFilter | main.py:34 | the cohort keeps every row with age > 50 and trestbps > 140, as often as it occurs, in input order, and no other row |
| Pipeline.CohortRecords | main.py:34 | filtering encoded rows keeps exactly the records the cohort predicate keeps |
| Pipeline.Bucketize | main.py:37-42 | every cohort row gets the level of its own cholesterol, with the row unchanged |
| Pipeline.IsHigh | main.py:45 | a row passes the filter `cholesterol_level == "High"` exactly when its level is High |
| Pipeline.CountHigh | main.py:45 | the count never exceeds the number of cohort rows |
| Pipeline.CountHighAppend | main.py:45 | the count of a concatenation is the sum of the counts |
| Pipeline.LevelsOf | main.py:37-45 | the levels of the rows, each row's own, in order |
| Pipeline.CountHighIsHighLevels | main.py:45 | the count is the number of occurrences of High among the levels |
| Pipeline.Stamp | main.py:49 | stamping keeps the row count and gives every row the same date, with the row unchanged |
| Pipeline.ResolveColumn | main.py:53-57 | a name resolves only to the column that carries that name |
| Pipeline.ResolveInputColumn | main.py:53-57 | a name resolves among the input columns only to the one that carries it |
| Pipeline.ResolveAddedColumn | main.py:53-57 | a name resolves among the added columns only to the one that carries it |
| Pipeline.ResolveColumnName | main.py:53-57 | every column resolves from its own name, so column names are distinct |
| Pipeline.Cell | main.py:24-57 | a date appears exactly in the `Report Date` column, and a null only in the `cp_ohe_0..3` columns |
| Pipeline.Project | main.py:53-57 | a selection holds one value per name; on error, the error names the first selected name that does not resolve, every earlier name resolving |
| Pipeline.ProjectResolves | main.py:53-57 | a selection succeeds exactly when every name resolves, and then copies each named value in order |
| Pipeline.ProjectAll | main.py:53-57 | the selection is applied to every row, in order, keeping the row count |
| Pipeline.ColumnNames | main.py:53-57 | one name per column |
| Pipeline.Cells | main.py:53-57 | one value per column |
| Pipeline.ProjectColumnNames | main.py:53-57 | selecting the names of known columns returns those columns' values |
| Pipeline.OutputColumnList | main.py:53-57 | the export has 21 columns |
| Pipeline.OutputInputPositions | main.py:54-55 | positions 0 to 13 of the output list hold the input columns in table order |
| Pipeline.OutputAddedPositions | main.py:55-56 | positions 14 to 20 hold the date, `cp_ohe_0..3`, the cholesterol label and the square |
| Pipeline.OutputHeaderInputNames | main.py:54-55 | the first 14 header names are the input column names, in the order selected |
| Pipeline.OutputHeaderAddedNames | main.py:55-56 | the last 7 header names are `Report Date`, `cp_ohe_0..3`, `cholesterol_level` and `powerOfTrestbps` |
| Pipeline.OutputHeader | main.py:53-57 | the header is exactly the 21 names of the `select`, in that order |
| Pipeline.Exported | main.py:53-57 | an exported row has 21 values |
| Pipeline.ProjectOutputColumns | main.py:53-57 | the output selection always succeeds on a stamped row |
| Pipeline.ExportedInputColumns | main.py:53-57 | the first 14 exported values copy the input fields unchanged |
| Pipeline.ExportedAddedColumns | main.py:53-57 | the last 7 exported values copy the date, `cp_ohe_0..3`, the level name and the square unchanged |
| Pipeline.ExportedLayout | main.py:53-57 | each exported column copies its source field unchanged: the 14 input fields, the date, `cp_ohe_0..3`, the level name and the square |
| Pipeline.Run | main.py:16-57 | an empty input aborts at the encoder with no labels; a successful run has the 21-column header |
| Pipeline.RunRejectsFewCategories | main.py:16-21 | a run fails exactly when the input's `cp` column has fewer than two distinct values, and then with the encoder's error naming that count |
| Pipeline.RunExportsCohort | main.py:16-57 | an input with at least two distinct `cp` values always runs; it exports one stamped row per labelled cohort row and reports that cohort's High count |
| Pipeline.CohortLeveledRecords | main.py:16-42 | the labelled cohort is the input's cohort records in order, each encoded with the indexer fitted on the whole input and labelled by its cholesterol |
| Pipeline.RunRows | main.py:16-57 | for an input with at least two distinct `cp` values, output row i is the export of the i-th input record with age > 50 and trestbps > 140 |
| Pipeline.CountHighExported | main.py:45-57 | the count equals the number of exported rows whose `cholesterol_level` is "High" |
| Pipeline.CountHighRecords | main.py:37-45 | the count equals the number of cohort records with cholesterol of 240 or more |
| Pipeline.RunHighCount | main.py:34-57 | for an input with at least two distinct `cp` values, the reported count is the number of exported "High" rows, is the number of cohort records with cholesterol of 240 or more, and never exceeds the number of exported rows |
| Pipeline.ExportedDateOnly | main.py:49-57 | the date reaches only the `Report Date` column |
| Pipeline.RunDateOnly | main.py:49-57 | for an input with at least two distinct `cp` values, every row carries the run date; runs on two dates agree on the header, the count, the row count and every other cell |
| Pipeline.CohortPosition | main.py:34 | a qualifying input record appears in the cohort |
| Pipeline.PatientExported | main.py:31-57 | the export of a patient aged 55 with pressure 150 and cholesterol 245 holds those values, the square 22500 and the level "High" |
| Pipeline.HighRowCounted | main.py:45 | one High row makes the count at least 1 |
| Pipeline.ScenarioPatient | main.py:16-57 | in an input with at least two distinct `cp` values, such a patient appears in the output with its values, its one-hot columns, "High" and 22500, and is counted |

## Left out

- Session lifecycle (`SparkSession` creation and `spark.stop()`), CSV reading with schema inference, CSV writing and the `print` of the count are I/O. The model takes the parsed records as input and returns the rows and the count.
- `current_date()` reads the clock. The run date is a parameter of `Run`.
- Distributed execution and partitioning are not modelled. `CountHighAppend` and `FilterAppend` state the property partition-wise counting relies on.
- Missing values are not modelled: every record field is present and typed. A null `cp` would make the indexer fail. A null `chol` fails both `when` tests at main.py:39-40, so the source labels it "High" (main.py:41) and counts it at main.py:45; `Features.Bucket` takes an integer and cannot express that case.
- Features.PowerOfTrestbps: Spark's `pow` returns a double; the model gives the exact integer square, which a double represents exactly for clinical pressures.
- OneHotEncoding.OneHot: the entries are integers 0 and 1, where Spark stores doubles 0.0 and 1.0.
- `oldpeak` is carried as a `real` and copied unchanged; floating-point formatting is not modelled.
- Column resolution is modelled as exact and case-sensitive; Spark's default resolution is case-insensitive, which makes no difference for the names the job uses.
- The encoder reads its category count from the label metadata the indexer attaches to `cp_index`. The model passes the label count directly. With `dropLast`, a count below two is rejected when the encoder is fitted, so a run over an input with a single `cp` value, or with none, aborts at main.py:21.
- StringIndexing.Fit: an empty column gives a model with no labels rather than an error, because the indexer's fit only counts values. The run then aborts when the encoder is fitted.
- OneHotEncoding.ElementAt: reading past the end of the array gives null only with `spark.sql.ansi.enabled=false`, the Spark 3 default. Under ANSI mode, the Spark 4 default, `cp_ohe_3` with four categories raises an error instead; the model follows the non-ANSI behaviour.
- With `dropLast`, the all-zero vector stands for the last index, that is, the least frequent `cp` value, not the most frequent one. `OneHotOnes` and `FourCategories` state this.
- The job exports 21 columns, and the date column is named `Report Date`, with a space.
- The indexer's tie-break: with `frequencyDesc`, equally frequent labels are ordered by their string form ascending, not by first occurrence. The model orders them by the decimal text of `cp`.
