/** The row-level rules of the pipeline: the derived square, the cohort predicate and the
    cholesterol bands. */
module Features {
  import opened Records

  /** `base` raised to a whole exponent. */
  function Pow(base: int, exponent: nat): int
  {
    if exponent == 0 then 1 else base * Pow(base, exponent - 1)
  }

  /** The derived column `powerOfTrestbps`: the resting blood pressure raised to the power 2. */
  function PowerOfTrestbps(trestbps: int): (p: int)
    ensures p == trestbps * trestbps
    ensures 0 <= p
  {
    assert Pow(trestbps, 1) == trestbps * Pow(trestbps, 0) == trestbps;
    Pow(trestbps, 2)
  }

  /** The cohort: patients older than 50 with resting blood pressure above 140; both
      comparisons are strict. */
  predicate InCohort(r: Record)
    ensures InCohort(r) <==> 51 <= r.age && 141 <= r.trestbps
  {
    r.age > 50 && r.trestbps > 140
  }

  /** The labels of the `cholesterol_level` column, in increasing order. */
  datatype CholesterolLevel = Low | Medium | High

  /** The string stored in the column; each level has its own, so comparing the column
      with one of them selects exactly that level. */
  function LevelName(level: CholesterolLevel): (name: string)
    ensures name == "Low" <==> level == Low
    ensures name == "Medium" <==> level == Medium
    ensures name == "High" <==> level == High
  {
    match level
    case Low => "Low"
    case Medium => "Medium"
    case High => "High"
  }

  function LevelRank(level: CholesterolLevel): nat
  {
    match level
    case Low => 0
    case Medium => 1
    case High => 2
  }

  /** The first matching branch of the `when` chain: below 200 Low, 200 to 239 Medium,
      everything else High. */
  function Bucket(chol: int): (level: CholesterolLevel)
    ensures level == Low <==> chol < 200
    ensures level == Medium <==> 200 <= chol <= 239
    ensures level == High <==> 240 <= chol
  {
    if chol < 200 then Low
    else if chol >= 200 && chol <= 239 then Medium
    else High
  }

  /** The bands are ordered: more cholesterol never gives a lower level. */
  lemma BucketMonotone(a: int, b: int)
    requires a <= b
    ensures LevelRank(Bucket(a)) <= LevelRank(Bucket(b))
  {
  }

  lemma BucketBoundaries()
    ensures Bucket(199) == Low && Bucket(200) == Medium
    ensures Bucket(239) == Medium && Bucket(240) == High
  {
  }
}
