/** The typed input row, the run date and the errors that abort a run. */
module Records {

  /** One row of the heart-disease table as schema inference types it. Every column
      is an integer except `oldpeak`, a fractional value that only passes through. */
  datatype Record = Record(
    age: int, sex: int, cp: int, trestbps: int, chol: int, fbs: int, restecg: int,
    thalach: int, exang: int, oldpeak: real, slope: int, ca: int, thal: int, target: int)

  /** A calendar date, the value of the `Report Date` column. */
  datatype Date = Date(year: int, month: int, day: int)

  /** Why a run stops without output. */
  datatype PipelineError =
    | TooFewCategories(count: nat)   // the indexed `cp` column has fewer than two labels to encode
    | UnseenCategory(value: int)     // a `cp` value the fitted indexer has no label for
    | InvalidCategoryIndex(index: nat) // an index outside the encoder's category count
    | UnresolvedColumn(name: string) // a selected column the row does not have
}
