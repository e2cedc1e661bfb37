/** Spark's OneHotEncoder with its default `dropLast = true`, the conversion of its vector
    to an array, and the reading of array elements into the columns `cp_ohe_0..3`. */
module OneHotEncoding {
  import opened Wrappers
  import opened Records

  /** A fitted OneHotEncoderModel: the number of categories of its input column. */
  datatype EncoderModel = EncoderModel(categorySize: nat)

  /** Fitting reads the category count from the indexed column's labels. With `dropLast`
      the last category is encoded by the all-zero vector, so a column with fewer than two
      labels has nothing left to encode and is rejected. */
  function FitEncoder(labelCount: nat): (r: Result<EncoderModel, PipelineError>)
    ensures r.Ok? <==> 2 <= labelCount
    ensures r.Ok? ==> r.value.categorySize == labelCount
    ensures r.Err? ==> r.error == TooFewCategories(labelCount)
  {
    if labelCount < 2 then Err(TooFewCategories(labelCount)) else Ok(EncoderModel(labelCount))
  }

  /** The vector for category `index` out of `categories`: one slot per category except the
      last, which is represented by the all-zero vector. An index the encoder does not know
      is an error (handleInvalid = "error"). */
  function OneHot(index: nat, categories: nat): (r: Result<seq<int>, PipelineError>)
    ensures r.Ok? <==> index < categories
    ensures r.Err? ==> r.error == InvalidCategoryIndex(index)
    ensures r.Ok? ==> |r.value| == categories - 1
    ensures r.Ok? ==> forall j :: 0 <= j < |r.value| ==> r.value[j] in {0, 1}
  {
    if index < categories then Ok(seq(categories - 1, j => if j == index then 1 else 0))
    else Err(InvalidCategoryIndex(index))
  }

  /** The positions of a vector that hold 1. */
  function Ones(v: seq<int>): set<nat>
  {
    set j: nat | j < |v| && v[j] == 1
  }

  /** A one-hot vector holds a single 1, at the category's own position, unless the category
      is the dropped last one, whose vector is all zeros. */
  lemma OneHotOnes(index: nat, categories: nat)
    requires index < categories
    ensures var v := OneHot(index, categories).value;
      && Ones(v) == (if index < categories - 1 then {index} else {})
      && |Ones(v)| <= 1
      && ((forall j :: 0 <= j < |v| ==> v[j] == 0) <==> index == categories - 1)
  {
    var v := OneHot(index, categories).value;
    if index < categories - 1 {
      assert Ones(v) == {index};
      assert v[index] == 1;
    } else {
      assert Ones(v) == {};
    }
  }

  /** The category a drop-last vector stands for: the position of its first 1, or its length
      (the dropped last category) when it holds no 1. */
  function Decode(v: seq<int>): (index: nat)
    ensures index <= |v|
    ensures index < |v| ==> v[index] == 1
    ensures forall j :: 0 <= j < index ==> v[j] != 1
  {
    if v == [] then 0 else if v[0] == 1 then 0 else 1 + Decode(v[1..])
  }

  /** Encoding loses nothing: decoding the vector gives back the category index. */
  lemma {:induction false} DecodeOneHot(index: nat, categories: nat)
    requires index < categories
    ensures Decode(OneHot(index, categories).value) == index
    decreases index
  {
    var v := OneHot(index, categories).value;
    if 0 < index {
      assert v[0] == 0;
      assert v[1..] == OneHot(index - 1, categories - 1).value;
      DecodeOneHot(index - 1, categories - 1);
    }
  }

  /** Element `i` of an array column outside ANSI mode: null when `i` is past the end. */
  function ElementAt(a: seq<int>, i: nat): (e: Option<int>)
    ensures e.Some? <==> i < |a|
    ensures e.Some? ==> e.value == a[i]
  {
    if i < |a| then Some(a[i]) else None
  }

  /** Column `cp_ohe_i` is 1 at the row's own index, 0 at the other encoded positions, and
      null from position K-1 on. */
  lemma ElementAtOneHot(index: nat, categories: nat, i: nat)
    requires index < categories
    ensures ElementAt(OneHot(index, categories).value, i)
      == if i < categories - 1 then Some(if i == index then 1 else 0) else None
  {
  }

  /** With the four categories of the clinical data the vector has three slots, so
      `cp_ohe_3` is null on every row and the least frequent category reads as three zeros. */
  lemma FourCategories(index: nat)
    requires index < 4
    ensures var v := OneHot(index, 4).value;
      && ElementAt(v, 3) == None
      && (index < 3 ==> ElementAt(v, index) == Some(1))
      && (forall i: nat :: i < 3 && i != index ==> ElementAt(v, i) == Some(0))
  {
  }

  /** The encoder is rejected exactly when every category would be encoded by the empty
      vector, so that no row could be told apart from another. */
  lemma FitEncoderRejectsEmptyVectors(labelCount: nat)
    ensures FitEncoder(labelCount).Err? <==>
      forall index: nat :: index < labelCount ==> OneHot(index, labelCount).value == []
  {
    if 2 <= labelCount {
      assert |OneHot(0, labelCount).value| == labelCount - 1;
    }
  }
}
