/** Spark's StringIndexer with its default settings, fitted on the integer column `cp`:
    string order type "frequencyDesc" (the most frequent value gets index 0, ties go to
    the value whose text sorts first) and invalid-value handling "error". A numeric column
    is indexed through its text form, which is why ties are broken on text. */
module StringIndexing {
  import opened Wrappers
  import opened Records

  // ---------------------------------------------------------------------------
  // The text form of a category value
  // ---------------------------------------------------------------------------

  function DigitChar(d: nat): (c: char)
    requires d < 10
    ensures '0' <= c <= '9' && c as int - '0' as int == d
  {
    ('0' as int + d) as char
  }

  /** The number a string of decimal digits denotes, most significant digit first. */
  function DecimalValue(s: string): int
  {
    if s == [] then 0 else 10 * DecimalValue(s[..|s| - 1]) + (s[|s| - 1] as int - '0' as int)
  }

  /** The decimal numeral of `n`: digits only, most significant first, no leading zero,
      and it reads back as `n`. */
  function Digits(n: nat): (s: string)
    ensures 0 < |s| && (|s| == 1 <==> n < 10)
    ensures forall i :: 0 <= i < |s| ==> '0' <= s[i] <= '9'
    ensures 1 < |s| ==> s[0] != '0'
    ensures DecimalValue(s) == n
    decreases n
  {
    if n < 10 then
      assert [DigitChar(n)][..0] == [];
      [DigitChar(n)]
    else
      var s := Digits(n / 10) + [DigitChar(n % 10)];
      assert s[..|s| - 1] == Digits(n / 10);
      s
  }

  /** The string an integer is cast to before it is indexed: its decimal numeral, with a
      leading minus sign when it is negative. */
  function CategoryText(v: int): (s: string)
    ensures 0 < |s|
    ensures s[0] == '-' <==> v < 0
    ensures v < 0 ==> 1 < |s| && DecimalValue(s[1..]) == -v
    ensures 0 <= v ==> DecimalValue(s) == v
    ensures forall i :: (if v < 0 then 1 else 0) <= i < |s| ==> '0' <= s[i] <= '9'
    ensures v < 0 ==> (2 < |s| ==> s[1] != '0')
    ensures 0 <= v ==> (1 < |s| ==> s[0] != '0')
  {
    if v < 0 then
      assert ("-" + Digits(-v))[1..] == Digits(-v);
      "-" + Digits(-v)
    else Digits(v)
  }

  lemma {:induction false} DigitsInjective(n: nat, m: nat)
    requires Digits(n) == Digits(m)
    ensures n == m
    decreases n
  {
    var s := Digits(n);
    if n < 10 {
      assert DigitChar(n) == s[0] == DigitChar(m);
    } else {
      assert Digits(n / 10) == s[..|s| - 1] == Digits(m / 10);
      DigitsInjective(n / 10, m / 10);
      assert DigitChar(n % 10) == s[|s| - 1] == DigitChar(m % 10);
    }
  }

  /** Distinct values have distinct texts, so the text order breaks every tie. */
  lemma CategoryTextInjective(a: int, b: int)
    requires CategoryText(a) == CategoryText(b)
    ensures a == b
  {
    var s := CategoryText(a);
    if a < 0 {
      assert Digits(-a) == s[1..] == Digits(-b);
      DigitsInjective(-a, -b);
    } else {
      DigitsInjective(a, b);
    }
  }

  // ---------------------------------------------------------------------------
  // Lexicographic order on text
  // ---------------------------------------------------------------------------

  /** `s` sorts strictly before `t`: at the first differing character `s` has the smaller
      one, or `s` is a proper prefix of `t`. */
  predicate LexLess(s: string, t: string)
    ensures LexLess(s, t) ==> s != t
    decreases |s|
  {
    if |s| == 0 then 0 < |t|
    else 0 < |t| && (s[0] < t[0] || (s[0] == t[0] && LexLess(s[1..], t[1..])))
  }

  lemma {:induction false} LexLessTransitive(s: string, t: string, u: string)
    requires LexLess(s, t) && LexLess(t, u)
    ensures LexLess(s, u)
    decreases |s|
  {
    if 0 < |s| && s[0] == t[0] && t[0] == u[0] {
      LexLessTransitive(s[1..], t[1..], u[1..]);
    }
  }

  lemma {:induction false} LexLessTotal(s: string, t: string)
    requires s != t
    ensures LexLess(s, t) || LexLess(t, s)
    decreases |s|
  {
    if 0 < |s| && 0 < |t| && s[0] == t[0] {
      assert s == [s[0]] + s[1..] && t == [t[0]] + t[1..];
      LexLessTotal(s[1..], t[1..]);
    }
  }

  // ---------------------------------------------------------------------------
  // Frequency ranking
  // ---------------------------------------------------------------------------

  /** How many rows of the column hold `v`. */
  function Frequency(column: seq<int>, v: int): nat
  {
    multiset(column)[v]
  }

  /** `a` is given a smaller index than `b`: it is more frequent, or equally frequent
      with a text that sorts first. */
  predicate RanksBefore(column: seq<int>, a: int, b: int)
    ensures Frequency(column, a) > Frequency(column, b) ==> RanksBefore(column, a, b)
    ensures RanksBefore(column, a, b) ==> Frequency(column, a) >= Frequency(column, b)
  {
    || Frequency(column, a) > Frequency(column, b)
    || (Frequency(column, a) == Frequency(column, b) && LexLess(CategoryText(a), CategoryText(b)))
  }

  lemma RanksBeforeIrreflexive(column: seq<int>, a: int)
    ensures !RanksBefore(column, a, a)
  {
  }

  lemma RanksBeforeTransitive(column: seq<int>, a: int, b: int, c: int)
    requires RanksBefore(column, a, b) && RanksBefore(column, b, c)
    ensures RanksBefore(column, a, c)
  {
    if Frequency(column, a) == Frequency(column, b) == Frequency(column, c) {
      LexLessTransitive(CategoryText(a), CategoryText(b), CategoryText(c));
    }
  }

  lemma RanksBeforeTotal(column: seq<int>, a: int, b: int)
    requires a != b
    ensures RanksBefore(column, a, b) || RanksBefore(column, b, a)
  {
    if CategoryText(a) == CategoryText(b) {
      CategoryTextInjective(a, b);
    }
    LexLessTotal(CategoryText(a), CategoryText(b));
  }

  /** Labels listed in strictly decreasing rank: position is the index Spark assigns. */
  ghost predicate Ranked(column: seq<int>, labels: seq<int>)
  {
    forall i, j :: 0 <= i < j < |labels| ==> RanksBefore(column, labels[i], labels[j])
  }

  /** A list is ranked exactly when its head ranks before every later label and the rest
      is ranked. */
  lemma RankedCons(column: seq<int>, h: int, t: seq<int>)
    ensures Ranked(column, [h] + t) <==> Ranked(column, t) && forall y :: y in t ==> RanksBefore(column, h, y)
  {
    var s := [h] + t;
    if Ranked(column, t) && forall y :: y in t ==> RanksBefore(column, h, y) {
      forall i, j | 0 <= i < j < |s|
        ensures RanksBefore(column, s[i], s[j])
      {
        assert s[j] == t[j - 1] && s[j] in t;
        if 0 < i {
          assert s[i] == t[i - 1];
        }
      }
    }
    if Ranked(column, s) {
      forall i, j | 0 <= i < j < |t|
        ensures RanksBefore(column, t[i], t[j])
      {
        assert t[i] == s[i + 1] && t[j] == s[j + 1];
      }
      forall y | y in t
        ensures RanksBefore(column, h, y)
      {
        var j :| 0 <= j < |t| && t[j] == y;
        assert s[0] == h && s[j + 1] == y;
      }
    }
  }

  /** Puts a new label in its place among labels already ranked. */
  function Insert(column: seq<int>, x: int, labels: seq<int>): (r: seq<int>)
    requires Ranked(column, labels) && x !in labels
    ensures Ranked(column, r)
    ensures |r| == |labels| + 1
    ensures forall y :: y in r <==> y == x || y in labels
  {
    if labels == [] then [x]
    else if RanksBefore(column, x, labels[0]) then
      assert forall y :: y in labels ==> RanksBefore(column, x, y) by {
        forall y | y in labels ensures RanksBefore(column, x, y) {
          var j :| 0 <= j < |labels| && labels[j] == y;
          if 0 < j {
            RanksBeforeTransitive(column, x, labels[0], y);
          }
        }
      }
      RankedCons(column, x, labels);
      [x] + labels
    else
      RanksBeforeTotal(column, x, labels[0]);
      var rest := Insert(column, x, labels[1..]);
      assert forall y :: y in rest ==> RanksBefore(column, labels[0], y) by {
        forall y | y in rest ensures RanksBefore(column, labels[0], y) {
          if y != x {
            var j :| 0 <= j < |labels| && labels[j] == y;
            assert j != 0;
          }
        }
      }
      RankedCons(column, labels[0], rest);
      [labels[0]] + rest
  }

  /** The distinct values of `values`, ranked. */
  function SortLabels(column: seq<int>, values: seq<int>): (labels: seq<int>)
    ensures Ranked(column, labels)
    ensures forall y :: y in labels <==> y in values
  {
    if values == [] then []
    else
      var rest := SortLabels(column, values[1..]);
      assert forall y :: y in values <==> y == values[0] || y in values[1..] by {
        assert values == [values[0]] + values[1..];
      }
      if values[0] in rest then rest else Insert(column, values[0], rest)
  }

  // ---------------------------------------------------------------------------
  // Fit and transform
  // ---------------------------------------------------------------------------

  /** A fitted StringIndexerModel: the label at position i gets index i. */
  datatype IndexerModel = IndexerModel(labels: seq<int>)

  /** Fitting scans the whole column once and ranks its distinct values; an empty column
      gives a model with no labels. */
  function Fit(column: seq<int>): (m: IndexerModel)
    ensures Ranked(column, m.labels)
    ensures forall v :: v in m.labels <==> v in column
  {
    IndexerModel(SortLabels(column, column))
  }

  /** The first position of `v` in `labels`. */
  function Position(labels: seq<int>, v: int): (i: nat)
    requires v in labels
    ensures i < |labels| && labels[i] == v
    ensures forall j :: 0 <= j < i ==> labels[j] != v
  {
    if labels[0] == v then 0 else 1 + Position(labels[1..], v)
  }

  /** The index the model assigns to `v`; a value it was not fitted on is an error. */
  function Index(m: IndexerModel, v: int): (r: Result<nat, PipelineError>)
    ensures r.Ok? <==> v in m.labels
    ensures r.Ok? ==> r.value < |m.labels| && m.labels[r.value] == v
    ensures r.Err? ==> r.error == UnseenCategory(v)
  {
    if v in m.labels then Ok(Position(m.labels, v)) else Err(UnseenCategory(v))
  }

  // ---------------------------------------------------------------------------
  // Properties of the fitted index
  // ---------------------------------------------------------------------------

  /** Ranked labels are pairwise distinct. */
  lemma RankedDistinct(column: seq<int>, labels: seq<int>)
    requires Ranked(column, labels)
    ensures forall i, j :: 0 <= i < j < |labels| ==> labels[i] != labels[j]
  {
    forall i, j | 0 <= i < j < |labels|
      ensures labels[i] != labels[j]
    {
      RanksBeforeIrreflexive(column, labels[i]);
    }
  }

  lemma {:induction false} DistinctCardinality(labels: seq<int>)
    requires forall i, j :: 0 <= i < j < |labels| ==> labels[i] != labels[j]
    ensures |set v | v in labels| == |labels|
  {
    if labels != [] {
      var rest := labels[1..];
      DistinctCardinality(rest);
      assert labels[0] !in rest;
      assert (set v | v in labels) == {labels[0]} + (set v | v in rest) by {
        assert labels == [labels[0]] + rest;
      }
    }
  }

  /** Every value of the column gets an index below K, the number of distinct values;
      different values get different indices, and every index in [0, K) is used. */
  lemma FitIndexDense(column: seq<int>)
    ensures var m := Fit(column);
      && |m.labels| == |set v | v in column|
      && (forall v :: v in column ==> Index(m, v).Ok? && Index(m, v).value < |m.labels|)
      && (forall a, b :: a in column && b in column && Index(m, a) == Index(m, b) ==> a == b)
      && (forall i :: 0 <= i < |m.labels| ==> exists v :: v in column && Index(m, v) == Ok(i))
  {
    var m := Fit(column);
    RankedDistinct(column, m.labels);
    DistinctCardinality(m.labels);
    assert (set v | v in column) == (set v | v in m.labels);
    forall i | 0 <= i < |m.labels|
      ensures exists v :: v in column && Index(m, v) == Ok(i)
    {
      var v := m.labels[i];
      assert Position(m.labels, v) == i;
      assert v in column && Index(m, v) == Ok(i);
    }
  }

  /** The index order is the frequency order: a more frequent value gets a smaller index,
      a smaller index never goes to a less frequent value, and between equally frequent
      values the one whose text sorts first gets the smaller index. */
  lemma FitFrequencyOrder(column: seq<int>, a: int, b: int)
    requires a in column && b in column
    ensures var m := Fit(column);
      && (Frequency(column, a) > Frequency(column, b) ==> Index(m, a).value < Index(m, b).value)
      && (Index(m, a).value < Index(m, b).value ==> Frequency(column, a) >= Frequency(column, b))
      && (Frequency(column, a) == Frequency(column, b) && a != b ==>
            (Index(m, a).value < Index(m, b).value <==> LexLess(CategoryText(a), CategoryText(b))))
  {
    var m := Fit(column);
    var ia, ib := Index(m, a).value, Index(m, b).value;
    if ia < ib {
      assert RanksBefore(column, a, b);
      if Frequency(column, a) == Frequency(column, b) && LexLess(CategoryText(b), CategoryText(a)) {
        LexLessTransitive(CategoryText(a), CategoryText(b), CategoryText(a));
      }
    } else if ib < ia {
      assert RanksBefore(column, b, a);
      if Frequency(column, a) == Frequency(column, b) && LexLess(CategoryText(a), CategoryText(b)) {
        LexLessTransitive(CategoryText(a), CategoryText(b), CategoryText(a));
      }
    }
  }

  /** The most frequent value gets index 0. */
  lemma FitMostFrequentFirst(column: seq<int>)
    requires column != []
    ensures var m := Fit(column);
      0 < |m.labels| && Index(m, m.labels[0]) == Ok(0)
      && forall v :: v in column ==> Frequency(column, m.labels[0]) >= Frequency(column, v)
  {
    var m := Fit(column);
    assert column[0] in m.labels;
    forall v | v in column
      ensures Frequency(column, m.labels[0]) >= Frequency(column, v)
    {
      var j :| 0 <= j < |m.labels| && m.labels[j] == v;
      if 0 < j {
        assert RanksBefore(column, m.labels[0], m.labels[j]);
      }
    }
  }

  lemma {:induction false} RankedUnique(column: seq<int>, s: seq<int>, t: seq<int>)
    requires Ranked(column, s) && Ranked(column, t)
    requires forall v :: v in s <==> v in t
    requires |s| == |t|
    ensures s == t
    decreases |s|
  {
    if s != [] {
      assert s[0] in s;
      assert t[0] in t;
      if s[0] != t[0] {
        assert t[0] in s;
        var j :| 0 <= j < |s| && s[j] == t[0];
        var k :| 0 <= k < |t| && t[k] == s[0];
        assert RanksBefore(column, s[0], t[0]) && RanksBefore(column, t[0], s[0]);
        RanksBeforeTransitive(column, s[0], t[0], s[0]);
        RanksBeforeIrreflexive(column, s[0]);
      }
      RankedDistinct(column, s);
      RankedDistinct(column, t);
      forall v
        ensures v in s[1..] <==> v in t[1..]
      {
        assert s == [s[0]] + s[1..] && t == [t[0]] + t[1..];
        assert v in s[1..] <==> v in s && v != s[0] by {
          if v in s[1..] {
            var k :| 0 <= k < |s[1..]| && s[1..][k] == v;
            assert s[k + 1] == v;
          }
        }
        assert v in t[1..] <==> v in t && v != t[0] by {
          if v in t[1..] {
            var k :| 0 <= k < |t[1..]| && t[1..][k] == v;
            assert t[k + 1] == v;
          }
        }
      }
      RankedUnique(column, s[1..], t[1..]);
      assert s == [s[0]] + s[1..] && t == [t[0]] + t[1..];
    }
  }

  /** The fitted index depends only on how often each value occurs, not on the order of
      the rows: any partitioning or ordering of the same rows fits the same model. */
  lemma FitOrderInsensitive(c1: seq<int>, c2: seq<int>)
    requires multiset(c1) == multiset(c2)
    ensures Fit(c1) == Fit(c2)
  {
    var s, t := Fit(c1).labels, Fit(c2).labels;
    forall v
      ensures v in c1 <==> v in c2
    {
      assert v in c1 <==> v in multiset(c1);
    }
    assert Ranked(c2, s);
    RankedDistinct(c2, s);
    RankedDistinct(c2, t);
    DistinctCardinality(s);
    DistinctCardinality(t);
    assert (set v | v in s) == (set v | v in t);
    RankedUnique(c2, s, t);
  }
}
