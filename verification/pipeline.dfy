/** The batch run of main.py from typed input rows to the exported table and the reported
    count: index `cp`, one-hot encode and flatten it, derive the square of `trestbps`, keep
    the cohort, label cholesterol, count the High rows, stamp the run date and select the
    output columns. Every stage yields new rows; nothing is updated in place. */
module Pipeline {
  import opened Wrappers
  import opened Records
  import opened Seqs
  import opened StringIndexing
  import opened OneHotEncoding
  import opened Features

  // ---------------------------------------------------------------------------
  // Rows as the stages extend them
  // ---------------------------------------------------------------------------

  /** A row with the columns `cp_index`, `cp_ohe` (and its array form), `cp_ohe_0..3`
      and `powerOfTrestbps` added. */
  datatype EnrichedRow = EnrichedRow(
    rec: Record,
    cpIndex: nat,
    cpOhe: seq<int>,
    cpOhe0: Option<int>, cpOhe1: Option<int>, cpOhe2: Option<int>, cpOhe3: Option<int>,
    powerOfTrestbps: int)

  /** A cohort row with `cholesterol_level` added. */
  datatype LeveledRow = LeveledRow(row: EnrichedRow, level: CholesterolLevel)

  /** A cohort row with `Report Date` added. */
  datatype StampedRow = StampedRow(row: LeveledRow, reportDate: Date)

  /** One cell of the exported table. */
  datatype Value = IntV(i: int) | RealV(x: real) | StrV(s: string) | DateV(d: Date) | ArrayV(a: seq<int>) | NullV

  /** What a run produces: the header and rows of the exported table, and the count it reports. */
  datatype Report = Report(header: seq<string>, rows: seq<seq<Value>>, highCholesterolCount: nat)

  // ---------------------------------------------------------------------------
  // Category encoding and derivation
  // ---------------------------------------------------------------------------

  /** The `cp` column of the input. */
  function CategoryColumn(rows: seq<Record>): (column: seq<int>)
    ensures |column| == |rows|
    ensures forall i :: 0 <= i < |rows| ==> column[i] == rows[i].cp
  {
    seq(|rows|, i requires 0 <= i < |rows| => rows[i].cp)
  }

  /** The number of distinct `cp` values of the input. */
  function CategoryCount(input: seq<Record>): nat
  {
    |set v | v in CategoryColumn(input)|
  }

  /** Index, encode, flatten and derive one row with the fitted indexer and encoder. An
      unseen `cp` is the indexer's error; an index beyond the encoder's categories is the
      encoder's. */
  function EnrichRow(m: IndexerModel, enc: EncoderModel, r: Record): (e: Result<EnrichedRow, PipelineError>)
    ensures e.Ok? <==> r.cp in m.labels && Index(m, r.cp).value < enc.categorySize
    ensures r.cp !in m.labels ==> e == Err(UnseenCategory(r.cp))
    ensures r.cp in m.labels && e.Err? ==> e.error == InvalidCategoryIndex(Index(m, r.cp).value)
    ensures e.Ok? ==>
      && e.value.rec == r
      && e.value.cpIndex < |m.labels| && m.labels[e.value.cpIndex] == r.cp
      && e.value.cpIndex < enc.categorySize
      && |e.value.cpOhe| == enc.categorySize - 1
      && e.value.cpOhe == OneHot(e.value.cpIndex, enc.categorySize).value
      && Decode(e.value.cpOhe) == e.value.cpIndex
      && e.value.cpOhe0 == ElementAt(e.value.cpOhe, 0) && e.value.cpOhe1 == ElementAt(e.value.cpOhe, 1)
      && e.value.cpOhe2 == ElementAt(e.value.cpOhe, 2) && e.value.cpOhe3 == ElementAt(e.value.cpOhe, 3)
      && e.value.powerOfTrestbps == r.trestbps * r.trestbps
  {
    var index :- Index(m, r.cp);
    var vector :- OneHot(index, enc.categorySize);
    DecodeOneHot(index, enc.categorySize);
    Ok(EnrichedRow(r, index, vector,
      ElementAt(vector, 0), ElementAt(vector, 1), ElementAt(vector, 2), ElementAt(vector, 3),
      PowerOfTrestbps(r.trestbps)))
  }

  /** The encoding stages over the whole table; the first row that cannot be encoded aborts
      with its error. */
  function EnrichAll(m: IndexerModel, enc: EncoderModel, rows: seq<Record>): (r: Result<seq<EnrichedRow>, PipelineError>)
    ensures r.Ok? <==> forall i :: 0 <= i < |rows| ==> EnrichRow(m, enc, rows[i]).Ok?
    ensures r.Ok? ==> |r.value| == |rows|
    ensures r.Ok? ==> forall i :: 0 <= i < |rows| ==> EnrichRow(m, enc, rows[i]) == Ok(r.value[i])
    ensures r.Err? ==> exists i :: 0 <= i < |rows| && EnrichRow(m, enc, rows[i]) == Err(r.error)
                          && forall j :: 0 <= j < i ==> EnrichRow(m, enc, rows[j]).Ok?
  {
    if rows == [] then Ok([])
    else
      var first :- EnrichRow(m, enc, rows[0]);
      var rest :- EnrichAll(m, enc, rows[1..]);
      assert forall i :: 1 <= i < |rows| ==> rows[i] == rows[1..][i - 1];
      Ok([first] + rest)
  }

  /** The indexer fitted on the input has one label per distinct `cp` value and knows every
      row, so once the encoder accepts that many categories, encoding never aborts. */
  lemma FittedModelEnrichesAll(input: seq<Record>)
    ensures |Fit(CategoryColumn(input)).labels| == CategoryCount(input)
    ensures 2 <= CategoryCount(input) ==>
      && FitEncoder(CategoryCount(input)) == Ok(EncoderModel(CategoryCount(input)))
      && EnrichAll(Fit(CategoryColumn(input)), EncoderModel(CategoryCount(input)), input).Ok?
  {
    var column := CategoryColumn(input);
    var m := Fit(column);
    FitIndexDense(column);
    forall i | 0 <= i < |input|
      ensures input[i].cp in m.labels && Index(m, input[i].cp).value < |m.labels|
    {
      assert column[i] in column;
    }
  }

  /** The input records behind enriched rows. */
  function RecordsOf(rows: seq<EnrichedRow>): (recs: seq<Record>)
    ensures |recs| == |rows|
    ensures forall i :: 0 <= i < |rows| ==> recs[i] == rows[i].rec
  {
    if rows == [] then [] else [rows[0].rec] + RecordsOf(rows[1..])
  }

  // ---------------------------------------------------------------------------
  // Cohort, cholesterol level, count, date
  // ---------------------------------------------------------------------------

  predicate RowInCohort(e: EnrichedRow)
  {
    InCohort(e.rec)
  }

  /** The rows of the cohort: every qualifying row, as often as it occurs, in input order,
      and no other row. */
  function CohortFilter(rows: seq<EnrichedRow>): (kept: seq<EnrichedRow>)
    ensures IsSubsequence(kept, rows)
    ensures forall e :: e in kept ==> e in rows && InCohort(e.rec)
    ensures forall e :: multiset(kept)[e] == if InCohort(e.rec) then multiset(rows)[e] else 0
  {
    FilterIsSubsequence(RowInCohort, rows);
    FilterMultiplicity(RowInCohort, rows);
    Filter(RowInCohort, rows)
  }

  /** Filtering enriched rows keeps exactly the records the cohort predicate keeps. */
  lemma {:induction false} CohortRecords(rows: seq<EnrichedRow>)
    ensures RecordsOf(CohortFilter(rows)) == Filter(InCohort, RecordsOf(rows))
  {
    if rows != [] {
      CohortRecords(rows[1..]);
      assert RecordsOf(rows)[1..] == RecordsOf(rows[1..]);
    }
  }

  /** Adds `cholesterol_level` to every cohort row. */
  function Bucketize(rows: seq<EnrichedRow>): (leveled: seq<LeveledRow>)
    ensures |leveled| == |rows|
    ensures forall i :: 0 <= i < |rows| ==>
      leveled[i].row == rows[i] && leveled[i].level == Bucket(rows[i].rec.chol)
  {
    seq(|rows|, i requires 0 <= i < |rows| => LeveledRow(rows[i], Bucket(rows[i].rec.chol)))
  }

  /** The row passes the filter `cholesterol_level == "High"`. */
  predicate IsHigh(r: LeveledRow)
    ensures IsHigh(r) <==> r.level == High
  {
    LevelName(r.level) == "High"
  }

  /** The reported number: how many cohort rows are labelled High. */
  function CountHigh(rows: seq<LeveledRow>): (n: nat)
    ensures n <= |rows|
  {
    |Filter(IsHigh, rows)|
  }

  /** The count is a sum of partial counts, so partitions can be counted separately. */
  lemma CountHighAppend(a: seq<LeveledRow>, b: seq<LeveledRow>)
    ensures CountHigh(a + b) == CountHigh(a) + CountHigh(b)
  {
    FilterAppend(IsHigh, a, b);
  }

  /** The levels of the rows, in order. */
  function LevelsOf(rows: seq<LeveledRow>): (levels: seq<CholesterolLevel>)
    ensures |levels| == |rows|
    ensures forall i :: 0 <= i < |rows| ==> levels[i] == rows[i].level
  {
    if rows == [] then [] else [rows[0].level] + LevelsOf(rows[1..])
  }

  /** The count is the number of occurrences of High among the levels. */
  lemma {:induction false} CountHighIsHighLevels(rows: seq<LeveledRow>)
    ensures CountHigh(rows) == multiset(LevelsOf(rows))[High]
  {
    if rows != [] {
      CountHighIsHighLevels(rows[1..]);
    }
  }

  /** Adds the run date to every row. */
  function Stamp(rows: seq<LeveledRow>, today: Date): (stamped: seq<StampedRow>)
    ensures |stamped| == |rows|
    ensures forall i :: 0 <= i < |rows| ==> stamped[i].row == rows[i] && stamped[i].reportDate == today
  {
    seq(|rows|, i requires 0 <= i < |rows| => StampedRow(rows[i], today))
  }

  // ---------------------------------------------------------------------------
  // Projection
  // ---------------------------------------------------------------------------

  /** The columns of a row when it is selected, in the order the stages add them. */
  datatype Column =
    | Age | Sex | Cp | Trestbps | Chol | Fbs | Restecg | Thalach | Exang | Oldpeak | Slope | Ca
    | Thal | Target | CpIndex | CpOhe | CpOheArray | CpOhe0 | CpOhe1 | CpOhe2 | CpOhe3
    | PowerOfTrestbpsColumn | CholesterolLevelColumn | ReportDate

  /** The name a column is selected by and written under. */
  function ColumnName(c: Column): string
  {
    match c
    case Age => "age"
    case Sex => "sex"
    case Cp => "cp"
    case Trestbps => "trestbps"
    case Chol => "chol"
    case Fbs => "fbs"
    case Restecg => "restecg"
    case Thalach => "thalach"
    case Exang => "exang"
    case Oldpeak => "oldpeak"
    case Slope => "slope"
    case Ca => "ca"
    case Thal => "thal"
    case Target => "target"
    case CpIndex => "cp_index"
    case CpOhe => "cp_ohe"
    case CpOheArray => "cp_ohe_array"
    case CpOhe0 => "cp_ohe_0"
    case CpOhe1 => "cp_ohe_1"
    case CpOhe2 => "cp_ohe_2"
    case CpOhe3 => "cp_ohe_3"
    case PowerOfTrestbpsColumn => "powerOfTrestbps"
    case CholesterolLevelColumn => "cholesterol_level"
    case ReportDate => "Report Date"
  }

  /** The column a name refers to, if any: an input column or one a stage added. */
  function ResolveColumn(name: string): (c: Option<Column>)
    ensures c.Some? ==> ColumnName(c.value) == name
  {
    match ResolveInputColumn(name)
    case Some(c) => Some(c)
    case None => ResolveAddedColumn(name)
  }

  /** The input column a name refers to, if any. */
  function ResolveInputColumn(name: string): (c: Option<Column>)
    ensures c.Some? ==> ColumnName(c.value) == name
  {
    if name == "age" then Some(Age)
    else if name == "sex" then Some(Sex)
    else if name == "cp" then Some(Cp)
    else if name == "trestbps" then Some(Trestbps)
    else if name == "chol" then Some(Chol)
    else if name == "fbs" then Some(Fbs)
    else if name == "restecg" then Some(Restecg)
    else if name == "thalach" then Some(Thalach)
    else if name == "exang" then Some(Exang)
    else if name == "oldpeak" then Some(Oldpeak)
    else if name == "slope" then Some(Slope)
    else if name == "ca" then Some(Ca)
    else if name == "thal" then Some(Thal)
    else if name == "target" then Some(Target)
    else None
  }

  /** The column a stage added that a name refers to, if any. */
  function ResolveAddedColumn(name: string): (c: Option<Column>)
    ensures c.Some? ==> ColumnName(c.value) == name
  {
    if name == "cp_index" then Some(CpIndex)
    else if name == "cp_ohe" then Some(CpOhe)
    else if name == "cp_ohe_array" then Some(CpOheArray)
    else if name == "cp_ohe_0" then Some(CpOhe0)
    else if name == "cp_ohe_1" then Some(CpOhe1)
    else if name == "cp_ohe_2" then Some(CpOhe2)
    else if name == "cp_ohe_3" then Some(CpOhe3)
    else if name == "powerOfTrestbps" then Some(PowerOfTrestbpsColumn)
    else if name == "cholesterol_level" then Some(CholesterolLevelColumn)
    else if name == "Report Date" then Some(ReportDate)
    else None
  }

  /** Every column is found again under its own name: no two columns share a name. */
  lemma ResolveColumnName(c: Column)
    ensures ResolveColumn(ColumnName(c)) == Some(c)
  {
  }

  function OptionValue(o: Option<int>): Value
  {
    match o
    case Some(v) => IntV(v)
    case None => NullV
  }

  /** The value a stamped row holds in a column. */
  function Cell(r: StampedRow, c: Column): (v: Value)
    ensures v.DateV? <==> c == ReportDate
    ensures v.NullV? ==> c in {CpOhe0, CpOhe1, CpOhe2, CpOhe3}
  {
    var e := r.row.row;
    var rec := e.rec;
    match c
    case Age => IntV(rec.age)
    case Sex => IntV(rec.sex)
    case Cp => IntV(rec.cp)
    case Trestbps => IntV(rec.trestbps)
    case Chol => IntV(rec.chol)
    case Fbs => IntV(rec.fbs)
    case Restecg => IntV(rec.restecg)
    case Thalach => IntV(rec.thalach)
    case Exang => IntV(rec.exang)
    case Oldpeak => RealV(rec.oldpeak)
    case Slope => IntV(rec.slope)
    case Ca => IntV(rec.ca)
    case Thal => IntV(rec.thal)
    case Target => IntV(rec.target)
    case CpIndex => IntV(e.cpIndex)
    case CpOhe => ArrayV(e.cpOhe)
    case CpOheArray => ArrayV(e.cpOhe)
    case CpOhe0 => OptionValue(e.cpOhe0)
    case CpOhe1 => OptionValue(e.cpOhe1)
    case CpOhe2 => OptionValue(e.cpOhe2)
    case CpOhe3 => OptionValue(e.cpOhe3)
    case PowerOfTrestbpsColumn => IntV(e.powerOfTrestbps)
    case CholesterolLevelColumn => StrV(LevelName(r.row.level))
    case ReportDate => DateV(r.reportDate)
  }

  /** The value of the column called `name`, if the row has such a column. */
  function ColumnValue(r: StampedRow, name: string): Option<Value>
  {
    match ResolveColumn(name)
    case Some(c) => Some(Cell(r, c))
    case None => None
  }

  /** Selecting columns by name; the first name the row does not have aborts the run. */
  function Project(r: StampedRow, names: seq<string>): (out: Result<seq<Value>, PipelineError>)
    ensures out.Ok? ==> |out.value| == |names|
    ensures out.Err? ==>
      exists i :: 0 <= i < |names| && ColumnValue(r, names[i]).None?
        && out.error == UnresolvedColumn(names[i])
        && forall j :: 0 <= j < i ==> ColumnValue(r, names[j]).Some?
  {
    if names == [] then Ok([])
    else
      match ColumnValue(r, names[0])
      case None => Err(UnresolvedColumn(names[0]))
      case Some(v) =>
        var tail := Project(r, names[1..]);
        if tail.Err? then
          var i :|
            0 <= i < |names[1..]| && ColumnValue(r, names[1..][i]).None?
              && tail.error == UnresolvedColumn(names[1..][i])
              && forall j :: 0 <= j < i ==> ColumnValue(r, names[1..][j]).Some?;
          assert names[i + 1] == names[1..][i];
          assert forall j :: 1 <= j < i + 1 ==> names[j] == names[1..][j - 1];
          Err(tail.error)
        else
          Ok([v] + tail.value)
  }

  /** The selection succeeds exactly when every name resolves, and then holds, in the order
      of the names, the value each name resolves to. */
  lemma {:induction false} ProjectResolves(r: StampedRow, names: seq<string>)
    ensures Project(r, names).Ok? <==> forall i :: 0 <= i < |names| ==> ColumnValue(r, names[i]).Some?
    ensures Project(r, names).Ok? ==>
      forall i :: 0 <= i < |names| ==> ColumnValue(r, names[i]) == Some(Project(r, names).value[i])
  {
    if names != [] {
      ProjectResolves(r, names[1..]);
      assert forall i :: 1 <= i < |names| ==> names[i] == names[1..][i - 1];
    }
  }

  /** The selection applied to every row. */
  function ProjectAll(rows: seq<StampedRow>, names: seq<string>): (out: Result<seq<seq<Value>>, PipelineError>)
    ensures out.Ok? <==> forall i :: 0 <= i < |rows| ==> Project(rows[i], names).Ok?
    ensures out.Ok? ==> |out.value| == |rows|
    ensures out.Ok? ==> forall i :: 0 <= i < |rows| ==> Project(rows[i], names) == Ok(out.value[i])
  {
    if rows == [] then Ok([])
    else
      var first :- Project(rows[0], names);
      var rest :- ProjectAll(rows[1..], names);
      assert forall i :: 1 <= i < |rows| ==> rows[i] == rows[1..][i - 1];
      Ok([first] + rest)
  }

  /** The names of a list of columns. */
  function ColumnNames(cs: seq<Column>): (names: seq<string>)
    ensures |names| == |cs|
  {
    seq(|cs|, i requires 0 <= i < |cs| => ColumnName(cs[i]))
  }

  /** The cells of a row in a list of columns, in order. */
  function Cells(r: StampedRow, cs: seq<Column>): (values: seq<Value>)
    ensures |values| == |cs|
  {
    seq(|cs|, i requires 0 <= i < |cs| => Cell(r, cs[i]))
  }

  /** Selecting columns by their own names yields their cells, in order. */
  lemma {:induction false} ProjectColumnNames(r: StampedRow, cs: seq<Column>)
    ensures Project(r, ColumnNames(cs)) == Ok(Cells(r, cs))
  {
    if cs != [] {
      ProjectColumnNames(r, cs[1..]);
      ResolveColumnName(cs[0]);
      var names := ColumnNames(cs);
      assert ColumnValue(r, names[0]) == Some(Cell(r, cs[0]));
      assert names[1..] == ColumnNames(cs[1..]);
      assert Cells(r, cs) == [Cell(r, cs[0])] + Cells(r, cs[1..]);
    }
  }

  /** The selected columns, position by position in their committed order. */
  function OutputColumnList(): (cs: seq<Column>)
    ensures |cs| == 21
  {
    seq(21, (k: int) =>
    match k
    case 0 => Age
    case 1 => Sex
    case 2 => Cp
    case 3 => Trestbps
    case 4 => Chol
    case 5 => Fbs
    case 6 => Restecg
    case 7 => Thalach
    case 8 => Exang
    case 9 => Oldpeak
    case 10 => Slope
    case 11 => Ca
    case 12 => Thal
    case 13 => Target
    case 14 => ReportDate
    case 15 => CpOhe0
    case 16 => CpOhe1
    case 17 => CpOhe2
    case 18 => CpOhe3
    case 19 => CholesterolLevelColumn
    case _ => PowerOfTrestbpsColumn)
  }

  /** The input columns open the output list, in table order. */
  lemma OutputInputPositions()
    ensures var cs := OutputColumnList();
      && cs[0] == Age && cs[1] == Sex && cs[2] == Cp && cs[3] == Trestbps && cs[4] == Chol
      && cs[5] == Fbs && cs[6] == Restecg && cs[7] == Thalach && cs[8] == Exang
      && cs[9] == Oldpeak && cs[10] == Slope && cs[11] == Ca && cs[12] == Thal
      && cs[13] == Target
  {
  }

  /** The added columns close the output list: the date, the one-hot columns, the label and
      the square. */
  lemma OutputAddedPositions()
    ensures var cs := OutputColumnList();
      && cs[14] == ReportDate && cs[15] == CpOhe0 && cs[16] == CpOhe1 && cs[17] == CpOhe2
      && cs[18] == CpOhe3 && cs[19] == CholesterolLevelColumn
      && cs[20] == PowerOfTrestbpsColumn
  {
  }

  /** The header of the exported table. */
  const OutputColumns: seq<string> := ColumnNames(OutputColumnList())

  /** The first 14 header names are the input columns. */
  lemma OutputHeaderInputNames()
    ensures |OutputColumns| == 21
    ensures && OutputColumns[0] == "age" && OutputColumns[1] == "sex" && OutputColumns[2] == "cp"
            && OutputColumns[3] == "trestbps" && OutputColumns[4] == "chol" && OutputColumns[5] == "fbs"
            && OutputColumns[6] == "restecg" && OutputColumns[7] == "thalach" && OutputColumns[8] == "exang"
            && OutputColumns[9] == "oldpeak" && OutputColumns[10] == "slope" && OutputColumns[11] == "ca"
            && OutputColumns[12] == "thal" && OutputColumns[13] == "target"
  {
    OutputInputPositions();
  }

  /** The last 7 header names are the columns the stages added. */
  lemma OutputHeaderAddedNames()
    ensures |OutputColumns| == 21
    ensures && OutputColumns[14] == "Report Date"
            && OutputColumns[15] == "cp_ohe_0" && OutputColumns[16] == "cp_ohe_1"
            && OutputColumns[17] == "cp_ohe_2" && OutputColumns[18] == "cp_ohe_3"
            && OutputColumns[19] == "cholesterol_level" && OutputColumns[20] == "powerOfTrestbps"
  {
    OutputAddedPositions();
  }

  /** The exported header holds the 21 selected names in the order they are listed. */
  lemma OutputHeader()
    ensures |OutputColumns| == 21
    ensures && OutputColumns[0] == "age" && OutputColumns[1] == "sex" && OutputColumns[2] == "cp"
            && OutputColumns[3] == "trestbps" && OutputColumns[4] == "chol" && OutputColumns[5] == "fbs"
            && OutputColumns[6] == "restecg" && OutputColumns[7] == "thalach" && OutputColumns[8] == "exang"
            && OutputColumns[9] == "oldpeak" && OutputColumns[10] == "slope" && OutputColumns[11] == "ca"
            && OutputColumns[12] == "thal" && OutputColumns[13] == "target"
            && OutputColumns[14] == "Report Date"
            && OutputColumns[15] == "cp_ohe_0" && OutputColumns[16] == "cp_ohe_1"
            && OutputColumns[17] == "cp_ohe_2" && OutputColumns[18] == "cp_ohe_3"
            && OutputColumns[19] == "cholesterol_level" && OutputColumns[20] == "powerOfTrestbps"
  {
    OutputHeaderInputNames();
    OutputHeaderAddedNames();
  }

  /** The exported row of a stamped row. */
  function Exported(r: StampedRow): (values: seq<Value>)
    ensures |values| == 21
  {
    Cells(r, OutputColumnList())
  }

  /** Selecting the output columns by name never fails and yields the exported row. */
  lemma ProjectOutputColumns(r: StampedRow)
    ensures Project(r, OutputColumns) == Ok(Exported(r))
  {
    ProjectColumnNames(r, OutputColumnList());
  }

  /** The first 14 exported values are the input columns, copied unchanged. */
  lemma ExportedInputColumns(r: StampedRow)
    ensures var values, rec := Exported(r), r.row.row.rec;
      && values[0] == IntV(rec.age) && values[1] == IntV(rec.sex) && values[2] == IntV(rec.cp)
      && values[3] == IntV(rec.trestbps) && values[4] == IntV(rec.chol)
      && values[5] == IntV(rec.fbs) && values[6] == IntV(rec.restecg)
      && values[7] == IntV(rec.thalach) && values[8] == IntV(rec.exang)
      && values[9] == RealV(rec.oldpeak) && values[10] == IntV(rec.slope)
      && values[11] == IntV(rec.ca) && values[12] == IntV(rec.thal)
      && values[13] == IntV(rec.target)
  {
    OutputInputPositions();
  }

  /** The last 7 exported values are the run date, the four flattened one-hot columns, the
      cholesterol label and the square, copied unchanged. */
  lemma ExportedAddedColumns(r: StampedRow)
    ensures var values, e := Exported(r), r.row.row;
      && values[14] == DateV(r.reportDate)
      && values[15] == OptionValue(e.cpOhe0) && values[16] == OptionValue(e.cpOhe1)
      && values[17] == OptionValue(e.cpOhe2) && values[18] == OptionValue(e.cpOhe3)
      && values[19] == StrV(LevelName(r.row.level))
      && values[20] == IntV(e.powerOfTrestbps)
  {
    OutputAddedPositions();
  }

  /** Each exported value is copied unchanged from the row: the 14 input columns, the run
      date, the four flattened one-hot columns, the cholesterol label and the square. */
  lemma ExportedLayout(r: StampedRow)
    ensures var values, e := Exported(r), r.row.row;
      && values[0] == IntV(e.rec.age) && values[1] == IntV(e.rec.sex) && values[2] == IntV(e.rec.cp)
      && values[3] == IntV(e.rec.trestbps) && values[4] == IntV(e.rec.chol)
      && values[5] == IntV(e.rec.fbs) && values[6] == IntV(e.rec.restecg)
      && values[7] == IntV(e.rec.thalach) && values[8] == IntV(e.rec.exang)
      && values[9] == RealV(e.rec.oldpeak) && values[10] == IntV(e.rec.slope)
      && values[11] == IntV(e.rec.ca) && values[12] == IntV(e.rec.thal)
      && values[13] == IntV(e.rec.target)
      && values[14] == DateV(r.reportDate)
      && values[15] == OptionValue(e.cpOhe0) && values[16] == OptionValue(e.cpOhe1)
      && values[17] == OptionValue(e.cpOhe2) && values[18] == OptionValue(e.cpOhe3)
      && values[19] == StrV(LevelName(r.row.level))
      && values[20] == IntV(e.powerOfTrestbps)
  {
    ExportedInputColumns(r);
    ExportedAddedColumns(r);
  }

  // ---------------------------------------------------------------------------
  // The run
  // ---------------------------------------------------------------------------

  /** One run over the input with the date it runs on: fit the indexer on the whole `cp`
      column, fit the encoder on its labels, encode and derive every row, keep the cohort,
      label it, count its High rows, stamp the date and select the output columns. */
  function Run(input: seq<Record>, today: Date): (report: Result<Report, PipelineError>)
    ensures input == [] ==> report == Err(TooFewCategories(0))
    ensures report.Ok? ==> report.value.header == OutputColumns
  {
    var model := Fit(CategoryColumn(input));
    var encoder :- FitEncoder(|model.labels|);
    var enriched :- EnrichAll(model, encoder, input);
    var leveled := Bucketize(CohortFilter(enriched));
    var exported :- ProjectAll(Stamp(leveled, today), OutputColumns);
    Ok(Report(OutputColumns, exported, CountHigh(leveled)))
  }

  /** The labelled cohort a run computes once the encoder accepts the input. */
  ghost function CohortLeveled(input: seq<Record>): seq<LeveledRow>
    requires 2 <= CategoryCount(input)
  {
    FittedModelEnrichesAll(input);
    Bucketize(CohortFilter(EnrichAll(Fit(CategoryColumn(input)), EncoderModel(CategoryCount(input)), input).value))
  }

  /** A run over an input with at least two distinct `cp` values succeeds; it exports one
      row per labelled cohort row, stamped with the run date, and reports that cohort's High
      count. */
  lemma RunExportsCohort(input: seq<Record>, today: Date)
    requires 2 <= CategoryCount(input)
    ensures Run(input, today).Ok?
    ensures var report, leveled := Run(input, today).value, CohortLeveled(input);
      && report.header == OutputColumns
      && |report.rows| == |leveled|
      && (forall i :: 0 <= i < |leveled| ==> report.rows[i] == Exported(StampedRow(leveled[i], today)))
      && report.highCholesterolCount == CountHigh(leveled)
  {
    FittedModelEnrichesAll(input);
    var leveled := CohortLeveled(input);
    var stamped := Stamp(leveled, today);
    forall i | 0 <= i < |stamped|
      ensures Project(stamped[i], OutputColumns) == Ok(Exported(stamped[i]))
    {
      ProjectOutputColumns(stamped[i]);
    }
    var exported := ProjectAll(stamped, OutputColumns);
    assert exported.Ok?;
    assert Run(input, today) == Ok(Report(OutputColumns, exported.value, CountHigh(leveled)));
  }

  /** A run fails exactly when the input's `cp` column has fewer than two distinct values,
      and then with the encoder's error naming that count. */
  lemma RunRejectsFewCategories(input: seq<Record>, today: Date)
    ensures Run(input, today).Err? <==> CategoryCount(input) < 2
    ensures Run(input, today).Err? ==> Run(input, today).error == TooFewCategories(CategoryCount(input))
  {
    FittedModelEnrichesAll(input);
    if 2 <= CategoryCount(input) {
      RunExportsCohort(input, today);
    }
  }

  /** The labelled cohort is the input's cohort records, in input order, each encoded with
      the indexer fitted on the whole input and labelled by its cholesterol. */
  lemma CohortLeveledRecords(input: seq<Record>)
    requires 2 <= CategoryCount(input)
    ensures var m, enc := Fit(CategoryColumn(input)), EncoderModel(CategoryCount(input));
      var cohort, leveled := Filter(InCohort, input), CohortLeveled(input);
      && |leveled| == |cohort|
      && forall i :: 0 <= i < |cohort| ==>
           EnrichRow(m, enc, cohort[i]) == Ok(leveled[i].row) && leveled[i].level == Bucket(cohort[i].chol)
  {
    FittedModelEnrichesAll(input);
    var m, enc := Fit(CategoryColumn(input)), EncoderModel(CategoryCount(input));
    var enriched := EnrichAll(m, enc, input).value;
    assert RecordsOf(enriched) == input;
    CohortRecords(enriched);
    var kept := CohortFilter(enriched);
    forall i | 0 <= i < |kept|
      ensures EnrichRow(m, enc, kept[i].rec) == Ok(kept[i])
    {
      assert kept[i] in enriched;
      var j :| 0 <= j < |enriched| && enriched[j] == kept[i];
      assert EnrichRow(m, enc, input[j]) == Ok(enriched[j]);
    }
    var cohort, leveled := Filter(InCohort, input), CohortLeveled(input);
    assert leveled == Bucketize(kept);
    forall i | 0 <= i < |cohort|
      ensures EnrichRow(m, enc, cohort[i]) == Ok(leveled[i].row) && leveled[i].level == Bucket(cohort[i].chol)
    {
      assert cohort[i] == RecordsOf(kept)[i] == kept[i].rec;
    }
  }

  /** The run's rows are exactly the input's cohort records, in input order: row i is the
      export of the i-th record with age above 50 and resting pressure above 140. */
  lemma RunRows(input: seq<Record>, today: Date)
    requires 2 <= CategoryCount(input)
    ensures Run(input, today).Ok?
    ensures var m, enc := Fit(CategoryColumn(input)), EncoderModel(CategoryCount(input));
      var report, cohort := Run(input, today).value, Filter(InCohort, input);
      && |report.rows| == |cohort|
      && forall i :: 0 <= i < |cohort| ==>
           && EnrichRow(m, enc, cohort[i]).Ok?
           && report.rows[i] == Exported(StampedRow(LeveledRow(EnrichRow(m, enc, cohort[i]).value, Bucket(cohort[i].chol)), today))
  {
    RunExportsCohort(input, today);
    CohortLeveledRecords(input);
  }

  /** An exported row passes the filter `cholesterol_level == "High"`. */
  predicate IsHighRow(values: seq<Value>)
  {
    |values| == 21 && values[19] == StrV("High")
  }

  lemma {:induction false} CountHighExported(leveled: seq<LeveledRow>, today: Date, rows: seq<seq<Value>>)
    requires |rows| == |leveled|
    requires forall i :: 0 <= i < |leveled| ==> rows[i] == Exported(StampedRow(leveled[i], today))
    ensures CountHigh(leveled) == |Filter(IsHighRow, rows)|
  {
    if leveled != [] {
      ExportedAddedColumns(StampedRow(leveled[0], today));
      CountHighExported(leveled[1..], today, rows[1..]);
    }
  }

  /** A cohort record counts when its cholesterol is 240 or more. */
  predicate HighCholesterol(r: Record)
  {
    Bucket(r.chol) == High
  }

  lemma {:induction false} CountHighRecords(cohort: seq<Record>, leveled: seq<LeveledRow>)
    requires |leveled| == |cohort|
    requires forall i :: 0 <= i < |cohort| ==> leveled[i].level == Bucket(cohort[i].chol)
    ensures CountHigh(leveled) == |Filter(HighCholesterol, cohort)|
  {
    if cohort != [] {
      CountHighRecords(cohort[1..], leveled[1..]);
    }
  }

  /** The reported count is the number of exported rows labelled "High", which is the number
      of cohort records with cholesterol of 240 or more; it never exceeds the row count. */
  lemma RunHighCount(input: seq<Record>, today: Date)
    requires 2 <= CategoryCount(input)
    ensures Run(input, today).Ok?
    ensures var report := Run(input, today).value;
      && report.highCholesterolCount == |Filter(IsHighRow, report.rows)|
      && report.highCholesterolCount == |Filter(HighCholesterol, Filter(InCohort, input))|
      && report.highCholesterolCount <= |report.rows|
  {
    RunExportsCohort(input, today);
    CohortLeveledRecords(input);
    var report := Run(input, today).value;
    CountHighExported(CohortLeveled(input), today, report.rows);
    CountHighRecords(Filter(InCohort, input), CohortLeveled(input));
  }

  /** The date only reaches the `Report Date` column. */
  lemma ExportedDateOnly(row: LeveledRow, d1: Date, d2: Date, k: nat)
    requires k < 21 && k != 14
    ensures Exported(StampedRow(row, d1))[k] == Exported(StampedRow(row, d2))[k]
  {
    assert OutputColumnList()[k] != ReportDate;
  }

  /** Every exported row carries the run date, and two runs over the same input on different
      dates agree on everything else: the header, the count, the number of rows and every
      other cell. */
  lemma RunDateOnly(input: seq<Record>, d1: Date, d2: Date)
    requires 2 <= CategoryCount(input)
    ensures Run(input, d1).Ok? && Run(input, d2).Ok?
    ensures var r1, r2 := Run(input, d1).value, Run(input, d2).value;
      && r1.header == r2.header
      && r1.highCholesterolCount == r2.highCholesterolCount
      && |r1.rows| == |r2.rows|
      && forall i :: 0 <= i < |r1.rows| ==>
           && |r1.rows[i]| == |r2.rows[i]| == 21
           && r1.rows[i][14] == DateV(d1)
           && forall k :: 0 <= k < 21 && k != 14 ==> r1.rows[i][k] == r2.rows[i][k]
  {
    RunExportsCohort(input, d1);
    RunExportsCohort(input, d2);
    var leveled := CohortLeveled(input);
    forall i | 0 <= i < |leveled|
      ensures Exported(StampedRow(leveled[i], d1))[14] == DateV(d1)
    {
      ExportedLayout(StampedRow(leveled[i], d1));
    }
    forall i, k | 0 <= i < |leveled| && 0 <= k < 21 && k != 14
      ensures Exported(StampedRow(leveled[i], d1))[k] == Exported(StampedRow(leveled[i], d2))[k]
    {
      ExportedDateOnly(leveled[i], d1, d2, k);
    }
  }

  /** The exported row of a patient aged 55 with resting pressure 150 and cholesterol 245
      whose chest-pain type `cp` was encoded as `vector`. */
  predicate PatientRow(values: seq<Value>, cp: int, vector: seq<int>, today: Date)
  {
    && |values| == 21
    && values[0] == IntV(55) && values[2] == IntV(cp) && values[3] == IntV(150)
    && values[4] == IntV(245) && values[14] == DateV(today)
    && values[15] == OptionValue(ElementAt(vector, 0)) && values[16] == OptionValue(ElementAt(vector, 1))
    && values[17] == OptionValue(ElementAt(vector, 2)) && values[18] == OptionValue(ElementAt(vector, 3))
    && values[19] == StrV("High") && values[20] == IntV(22500)
  }

  lemma CohortPosition(input: seq<Record>, r: Record) returns (i: nat)
    requires r in input && InCohort(r)
    ensures i < |Filter(InCohort, input)| && Filter(InCohort, input)[i] == r
  {
    FilterMultiplicity(InCohort, input);
    assert multiset(Filter(InCohort, input))[r] == multiset(input)[r];
    i :| 0 <= i < |Filter(InCohort, input)| && Filter(InCohort, input)[i] == r;
  }

  lemma PatientExported(m: IndexerModel, enc: EncoderModel, r: Record, today: Date)
    requires r.age == 55 && r.trestbps == 150 && r.chol == 245
    requires EnrichRow(m, enc, r).Ok?
    ensures PatientRow(Exported(StampedRow(LeveledRow(EnrichRow(m, enc, r).value, Bucket(r.chol)), today)),
                       r.cp, OneHot(Index(m, r.cp).value, enc.categorySize).value, today)
  {
    ExportedLayout(StampedRow(LeveledRow(EnrichRow(m, enc, r).value, Bucket(r.chol)), today));
  }

  lemma HighRowCounted(rows: seq<seq<Value>>, i: nat)
    requires i < |rows| && IsHighRow(rows[i])
    ensures 1 <= |Filter(IsHighRow, rows)|
  {
    FilterMultiplicity(IsHighRow, rows);
    assert multiset(Filter(IsHighRow, rows))[rows[i]] == multiset(rows)[rows[i]];
  }

  /** A patient aged 55 with resting pressure 150 and cholesterol 245 is in the cohort: some
      exported row carries its values, level "High", square 22500 and the one-hot columns of
      its chest-pain type's fitted index, and the patient is counted. */
  lemma ScenarioPatient(input: seq<Record>, today: Date, r: Record)
    requires 2 <= CategoryCount(input)
    requires r in input
    requires r.age == 55 && r.trestbps == 150 && r.chol == 245
    ensures Run(input, today).Ok?
    ensures var report, m := Run(input, today).value, Fit(CategoryColumn(input));
      && 1 <= report.highCholesterolCount
      && r.cp in m.labels
      && exists i :: 0 <= i < |report.rows| &&
           Index(m, r.cp).value < |m.labels| &&
           PatientRow(report.rows[i], r.cp, OneHot(Index(m, r.cp).value, |m.labels|).value, today)
  {
    FittedModelEnrichesAll(input);
    RunRows(input, today);
    RunHighCount(input, today);
    var report, m, enc := Run(input, today).value, Fit(CategoryColumn(input)), EncoderModel(CategoryCount(input));
    var i := CohortPosition(input, r);
    PatientExported(m, enc, r, today);
    assert PatientRow(report.rows[i], r.cp, OneHot(Index(m, r.cp).value, enc.categorySize).value, today);
    HighRowCounted(report.rows, i);
  }
}
