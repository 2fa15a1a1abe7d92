/**
 * The stratified train/test splitter of PreprocessorSimple: rows are grouped by their
 * trailing class label, each class is cut into a train prefix and a test suffix at
 * round(n * test_percentage), labels are one-hot encoded, and the per-class blocks are
 * concatenated in ascending class order into four tensors.
 *
 * A raw row is the list of its fields; `parse` is the integer conversion applied to the
 * last field (None when the field is not an integer).
 */
module Preprocessing {
  import opened Wrappers
  import opened Tensors
  import opened Rounding

  /** The class-level default for the number of classes. */
  const DefaultNumClass: nat := 2
  /** The accepted range of the test fraction, both ends included. */
  const MinTestPercentage: real := 0.1
  const MaxTestPercentage: real := 0.9

  /** Why a single row cannot be filed under a class. */
  datatype RowFault =
    | MissingLabel                        // a row with no field at all
    | LabelNotInteger                     // the last field does not convert to an integer
    | ClassIndexOutOfRange(index: int)    // the label is not an index of the class groups

  /** Why one class cannot be turned into tensors. */
  datatype ClassFault =
    | NoSamples    // no row has this class: its feature width cannot be read off its first row
    | RaggedRows   // its feature rows do not all have the width of the first one

  datatype Error =
    | TestPercentageOutOfRange(percentage: real)
    | BadRow(row: nat, rowFault: RowFault)
    | BadClass(classIndex: nat, classFault: ClassFault)
    | ConcatFailed

  datatype Preprocessor<T> = Preprocessor(inputData: seq<seq<T>>, numClass: nat, testPercentage: real)
  {
    predicate Valid() {
      MinTestPercentage <= testPercentage <= MaxTestPercentage
    }
  }

  /** The four output tensors: train features, train labels, test features, test labels. */
  datatype Split<T> = Split(trainX: Matrix<T>, trainY: Matrix<int>, testX: Matrix<T>, testY: Matrix<int>)

  /** The rows filed under each class, and the labels filed beside them. */
  datatype Groups<T> = Groups(data: seq<seq<seq<T>>>, targets: seq<seq<int>>)

  // ---------------------------------------------------------------------------
  // Construction
  // ---------------------------------------------------------------------------

  /** The constructor: it refuses a test fraction outside [0.1, 0.9] and otherwise keeps the
      rows, the default number of classes and the fraction. */
  function Init<T>(inputData: seq<seq<T>>, testPercentage: real): (r: Result<Preprocessor<T>, Error>)
    ensures r.Ok? <==> 0.1 <= testPercentage <= 0.9
    ensures r.Ok? ==> (r.value.Valid() && r.value.inputData == inputData
      && r.value.numClass == 2 && r.value.testPercentage == testPercentage)
    ensures r.Err? ==> r.error == TestPercentageOutOfRange(testPercentage)
  {
    if testPercentage < MinTestPercentage || testPercentage > MaxTestPercentage then
      Err(TestPercentageOutOfRange(testPercentage))
    else
      Ok(Preprocessor(inputData, DefaultNumClass, testPercentage))
  }

  // ---------------------------------------------------------------------------
  // Grouping by class
  // ---------------------------------------------------------------------------

  /** The group a row is filed under: its last field as an integer, which must index one of
      the `numClass` pre-allocated groups. */
  function Classify<T>(row: seq<T>, numClass: nat, parse: T -> Option<int>): (r: Result<nat, RowFault>)
    ensures r.Ok? ==> |row| > 0 && r.value < numClass && parse(row[|row| - 1]) == Some(r.value as int)
    ensures r.Ok? <==> (|row| > 0 && parse(row[|row| - 1]).Some? && 0 <= parse(row[|row| - 1]).value < numClass)
    ensures r == Err(MissingLabel) <==> |row| == 0
    ensures r == Err(LabelNotInteger) <==> (|row| > 0 && parse(row[|row| - 1]).None?)
    ensures r.Err? && r.error.ClassIndexOutOfRange? ==>
      (|row| > 0 && parse(row[|row| - 1]) == Some(r.error.index) && !(0 <= r.error.index < numClass))
  {
    if |row| == 0 then Err(MissingLabel)
    else match parse(row[|row| - 1])
      case None => Err(LabelNotInteger)
      case Some(index) =>
        if 0 <= index < numClass then Ok(index as nat) else Err(ClassIndexOutOfRange(index))
  }

  /** The feature part of a row: every field but the last. */
  function Features<T>(row: seq<T>): (r: seq<T>)
    requires |row| > 0
    ensures |r| == |row| - 1 && row == r + [row[|row| - 1]]
  {
    row[..|row| - 1]
  }

  /** The feature rows of class `c`, in input order. */
  function Members<T>(rows: seq<seq<T>>, numClass: nat, parse: T -> Option<int>, c: nat): (r: seq<seq<T>>)
    ensures |r| <= |rows|
  {
    if rows == [] then []
    else
      var last := rows[|rows| - 1];
      Members(rows[..|rows| - 1], numClass, parse, c)
        + (if Classify(last, numClass, parse) == Ok(c) then [Features(last)] else [])
  }

  /** The first row that cannot be filed, with the reason. */
  function FirstBadRow<T>(rows: seq<seq<T>>, numClass: nat, parse: T -> Option<int>): (r: Option<Error>)
    ensures r.None? <==> forall i | 0 <= i < |rows| :: Classify(rows[i], numClass, parse).Ok?
    ensures r.Some? ==> (r.value.BadRow? && r.value.row < |rows|
      && Classify(rows[r.value.row], numClass, parse) == Err(r.value.rowFault)
      && forall j | 0 <= j < r.value.row :: Classify(rows[j], numClass, parse).Ok?)
  {
    if rows == [] then None
    else
      var n := |rows| - 1;
      match FirstBadRow(rows[..n], numClass, parse)
      case Some(e) => Some(e)
      case None =>
        match Classify(rows[n], numClass, parse)
        case Ok(_) => None
        case Err(f) => Some(BadRow(n, f))
  }

  /** get_data, first half: `numClass` empty groups are allocated, then every row's features
      are appended to the group its label names, and the label beside them. The first row
      whose label does not name a group stops the operation. */
  method GroupByClass<T>(rows: seq<seq<T>>, numClass: nat, parse: T -> Option<int>)
    returns (r: Result<Groups<T>, Error>)
    ensures r.Err? <==> FirstBadRow(rows, numClass, parse).Some?
    ensures r.Err? ==> r.error == FirstBadRow(rows, numClass, parse).value
    ensures r.Ok? ==> |r.value.data| == numClass && |r.value.targets| == numClass
    ensures r.Ok? ==> forall c | 0 <= c < numClass ::
      && r.value.data[c] == Members(rows, numClass, parse, c)
      && r.value.targets[c] == Repeat(c as int, |r.value.data[c]|)
  {
    var dataByClass: seq<seq<seq<T>>> := [];
    var targetByClass: seq<seq<int>> := [];
    var k := 0;
    while k < numClass
      invariant k <= numClass
      invariant |dataByClass| == k && |targetByClass| == k
      invariant forall c | 0 <= c < k :: dataByClass[c] == [] && targetByClass[c] == []
    {
      dataByClass := dataByClass + [[]];
      targetByClass := targetByClass + [[]];
      k := k + 1;
    }
    var i := 0;
    while i < |rows|
      invariant i <= |rows|
      invariant FirstBadRow(rows[..i], numClass, parse).None?
      invariant |dataByClass| == numClass && |targetByClass| == numClass
      invariant forall c | 0 <= c < numClass ::
        && dataByClass[c] == Members(rows[..i], numClass, parse, c)
        && targetByClass[c] == Repeat(c as int, |dataByClass[c]|)
    {
      var aux := rows[i];
      assert rows[..i + 1][..i] == rows[..i];
      match Classify(aux, numClass, parse)
      case Err(f) =>
        assert forall j | 0 <= j < i :: Classify(rows[..i][j], numClass, parse).Ok?;
        return Err(BadRow(i, f));
      case Ok(c) =>
        dataByClass := dataByClass[c := dataByClass[c] + [Features(aux)]];
        targetByClass := targetByClass[c := targetByClass[c] + [c as int]];
      i := i + 1;
    }
    assert rows[..i] == rows;
    return Ok(Groups(dataByClass, targetByClass));
  }

  // ---------------------------------------------------------------------------
  // One class: boundary, tensors, slices
  // ---------------------------------------------------------------------------

  datatype Boundary = Boundary(numTrain: nat, numTest: nat)

  /** num_test = round(n * test_percentage) and num_train = n - num_test. */
  function SplitBoundary(numSamples: nat, testPercentage: real): (b: Boundary)
    requires 0.0 <= testPercentage <= 1.0
    ensures b.numTrain + b.numTest == numSamples
    ensures IsRoundHalfEven(numSamples as real * testPercentage, b.numTest)
  {
    var x := numSamples as real * testPercentage;
    assert x <= numSamples as real * 1.0;
    RoundWithin(x, numSamples);
    var numTest := RoundHalfEven(x);
    Boundary(numSamples - numTest, numTest)
  }

  /** __convert_to_tensors: the class's rows and labels become tensors, the rows are cut at
      num_train into a train block and a test block, the train labels are label rows
      [0, num_train) and the test labels are label rows [0, num_test), both counted from
      the first row. */
  function ConvertToTensors<T>(data: seq<seq<T>>, targets: seq<int>, numClass: nat, testPercentage: real)
    : (r: Result<Split<T>, ClassFault>)
    requires |targets| == |data|
    requires 0.0 <= testPercentage <= 1.0
    ensures r.Err? <==> |data| == 0 || !Rectangular(data, |data[0]|)
    ensures r.Err? ==> r.error == if |data| == 0 then NoSamples else RaggedRows
    ensures r.Ok? ==>
      var b := SplitBoundary(|data|, testPercentage);
      var labels := OneHot(targets, numClass).rows;
      && r.value.trainX == Matrix(data[..b.numTrain], |data[0]|)
      && r.value.testX == Matrix(data[b.numTrain..], |data[0]|)
      && r.value.trainY == Matrix(labels[..b.numTrain], numClass)
      && r.value.testY == Matrix(labels[..b.numTest], numClass)
  {
    var numSamples := |data|;
    var b := SplitBoundary(numSamples, testPercentage);
    if numSamples == 0 then Err(NoSamples)
    else
      var sampleDimension := |data[0]|;
      match Constant(data, numSamples, sampleDimension)
      case None => Err(RaggedRows)
      case Some(tData) =>
        var tLabel := OneHot(targets, numClass);
        SliceWholeRows(tData, 0, b.numTrain);
        SliceWholeRows(tData, b.numTrain, b.numTest);
        SliceWholeRows(tLabel, 0, b.numTrain);
        SliceWholeRows(tLabel, 0, b.numTest);
        Ok(Split(
          Slice(tData, (0, 0), (b.numTrain, sampleDimension)),
          Slice(tLabel, (0, 0), (b.numTrain, numClass)),
          Slice(tData, (b.numTrain, 0), (b.numTest, sampleDimension)),
          Slice(tLabel, (0, 0), (b.numTest, numClass))))
  }

  // ---------------------------------------------------------------------------
  // The whole operation, as a specification
  // ---------------------------------------------------------------------------

  /** The split of class `c`, from the rows the grouping files under it. */
  function ClassSplit<T>(pre: Preprocessor<T>, parse: T -> Option<int>, c: nat): Result<Split<T>, ClassFault>
    requires pre.Valid()
  {
    var members := Members(pre.inputData, pre.numClass, parse, c);
    ConvertToTensors(members, Repeat(c as int, |members|), pre.numClass, pre.testPercentage)
  }

  /** The first class below `k` whose split fails, with the reason. */
  function FirstBadClass<T>(pre: Preprocessor<T>, parse: T -> Option<int>, k: nat): (r: Option<Error>)
    requires pre.Valid()
    ensures r.None? <==> forall c | 0 <= c < k :: ClassSplit(pre, parse, c).Ok?
    ensures r.Some? ==> (r.value.BadClass? && r.value.classIndex < k
      && ClassSplit(pre, parse, r.value.classIndex) == Err(r.value.classFault)
      && forall c | 0 <= c < r.value.classIndex :: ClassSplit(pre, parse, c).Ok?)
  {
    if k == 0 then None
    else match FirstBadClass(pre, parse, k - 1)
      case Some(e) => Some(e)
      case None =>
        match ClassSplit(pre, parse, k - 1)
        case Ok(_) => None
        case Err(f) => Some(BadClass(k - 1, f))
  }

  /** The per-class train feature tensors, in class order. */
  function TrainVectors<T>(parts: seq<Split<T>>): (r: seq<Matrix<T>>)
    ensures |r| == |parts| && forall i | 0 <= i < |parts| :: r[i] == parts[i].trainX
  {
    seq(|parts|, i requires 0 <= i < |parts| => parts[i].trainX)
  }

  /** The per-class train label tensors, in class order. */
  function TrainLabels<T>(parts: seq<Split<T>>): (r: seq<Matrix<int>>)
    ensures |r| == |parts| && forall i | 0 <= i < |parts| :: r[i] == parts[i].trainY
  {
    seq(|parts|, i requires 0 <= i < |parts| => parts[i].trainY)
  }

  /** The per-class test feature tensors, in class order. */
  function TestVectors<T>(parts: seq<Split<T>>): (r: seq<Matrix<T>>)
    ensures |r| == |parts| && forall i | 0 <= i < |parts| :: r[i] == parts[i].testX
  {
    seq(|parts|, i requires 0 <= i < |parts| => parts[i].testX)
  }

  /** The per-class test label tensors, in class order. */
  function TestLabels<T>(parts: seq<Split<T>>): (r: seq<Matrix<int>>)
    ensures |r| == |parts| && forall i | 0 <= i < |parts| :: r[i] == parts[i].testY
  {
    seq(|parts|, i requires 0 <= i < |parts| => parts[i].testY)
  }

  /** The four per-class lists concatenated along the row axis, in list order. */
  function Assemble<T>(parts: seq<Split<T>>): (r: Result<Split<T>, Error>)
    ensures r.Ok? <==> (|parts| > 0 && SameWidth(TrainVectors(parts)) && SameWidth(TrainLabels(parts))
      && SameWidth(TestVectors(parts)) && SameWidth(TestLabels(parts)))
    ensures r.Err? ==> r.error == ConcatFailed
  {
    var trainX := Concat(TrainVectors(parts));
    var trainY := Concat(TrainLabels(parts));
    var testX := Concat(TestVectors(parts));
    var testY := Concat(TestLabels(parts));
    if trainX.Some? && trainY.Some? && testX.Some? && testY.Some? then
      Ok(Split(trainX.value, trainY.value, testX.value, testY.value))
    else
      Err(ConcatFailed)
  }

  /** What get_data returns: the first unfileable row, else the first class that cannot be
      split, else the class splits assembled in ascending class order. */
  function Stratified<T>(pre: Preprocessor<T>, parse: T -> Option<int>): (r: Result<Split<T>, Error>)
    requires pre.Valid()
    ensures FirstBadRow(pre.inputData, pre.numClass, parse).Some? ==>
      r == Err(FirstBadRow(pre.inputData, pre.numClass, parse).value)
    ensures r.Ok? ==> forall i | 0 <= i < |pre.inputData| :: Classify(pre.inputData[i], pre.numClass, parse).Ok?
  {
    match FirstBadRow(pre.inputData, pre.numClass, parse)
    case Some(e) => Err(e)
    case None =>
      match FirstBadClass(pre, parse, pre.numClass)
      case Some(e) => Err(e)
      case None => Assemble(Parts(pre, parse))
  }

  /** The class splits, in class order, when every class splits. */
  function Parts<T>(pre: Preprocessor<T>, parse: T -> Option<int>): (r: seq<Split<T>>)
    requires pre.Valid() && FirstBadClass(pre, parse, pre.numClass).None?
    ensures |r| == pre.numClass
    ensures forall c | 0 <= c < pre.numClass :: ClassSplit(pre, parse, c) == Ok(r[c])
  {
    seq(pre.numClass, c requires 0 <= c < pre.numClass && ClassSplit(pre, parse, c).Ok? =>
      ClassSplit(pre, parse, c).value)
  }

  /** The class at which the ascending loop over classes first fails is the one
      FirstBadClass names. */
  lemma FirstBadClassAt<T>(pre: Preprocessor<T>, parse: T -> Option<int>, m: nat)
    requires pre.Valid() && m < pre.numClass
    requires forall c | 0 <= c < m :: ClassSplit(pre, parse, c).Ok?
    requires ClassSplit(pre, parse, m).Err?
    ensures FirstBadClass(pre, parse, pre.numClass) == Some(BadClass(m, ClassSplit(pre, parse, m).error))
  {
    var e := FirstBadClass(pre, parse, pre.numClass);
    assert e.Some?;
    assert e.value.classIndex == m;
  }

  /** get_data fails at the first row it cannot file. */
  lemma StratifiedBadRow<T>(pre: Preprocessor<T>, parse: T -> Option<int>)
    requires pre.Valid() && FirstBadRow(pre.inputData, pre.numClass, parse).Some?
    ensures Stratified(pre, parse) == Err(FirstBadRow(pre.inputData, pre.numClass, parse).value)
  {
  }

  /** With every row filed, get_data fails at the first class it cannot split. */
  lemma StratifiedBadClass<T>(pre: Preprocessor<T>, parse: T -> Option<int>)
    requires pre.Valid() && FirstBadRow(pre.inputData, pre.numClass, parse).None?
    requires FirstBadClass(pre, parse, pre.numClass).Some?
    ensures Stratified(pre, parse) == Err(FirstBadClass(pre, parse, pre.numClass).value)
  {
  }

  /** With every row filed and every class split, get_data assembles the splits. */
  lemma StratifiedAssembled<T>(pre: Preprocessor<T>, parse: T -> Option<int>)
    requires pre.Valid() && FirstBadRow(pre.inputData, pre.numClass, parse).None?
    requires FirstBadClass(pre, parse, pre.numClass).None?
    ensures Stratified(pre, parse) == Assemble(Parts(pre, parse))
  {
  }

  /** The groups built by GroupByClass are those the class splits are taken from. */
  lemma GroupsGiveClassSplits<T>(pre: Preprocessor<T>, parse: T -> Option<int>, groups: Groups<T>)
    requires pre.Valid()
    requires |groups.data| == pre.numClass && |groups.targets| == pre.numClass
    requires forall c | 0 <= c < pre.numClass ::
      && groups.data[c] == Members(pre.inputData, pre.numClass, parse, c)
      && groups.targets[c] == Repeat(c as int, |groups.data[c]|)
    ensures forall c | 0 <= c < pre.numClass ::
      && |groups.targets[c]| == |groups.data[c]|
      && ConvertToTensors(groups.data[c], groups.targets[c], pre.numClass, pre.testPercentage) == ClassSplit(pre, parse, c)
  {
  }

  /** With every row filed, get_data fails at class `m` when the classes below it split and
      `m` does not. */
  lemma StratifiedFailsAt<T>(pre: Preprocessor<T>, parse: T -> Option<int>, m: nat)
    requires pre.Valid() && m < pre.numClass && FirstBadRow(pre.inputData, pre.numClass, parse).None?
    requires forall c | 0 <= c < m :: ClassSplit(pre, parse, c).Ok?
    requires ClassSplit(pre, parse, m).Err?
    ensures Stratified(pre, parse) == Err(BadClass(m, ClassSplit(pre, parse, m).error))
  {
    FirstBadClassAt(pre, parse, m);
    StratifiedBadClass(pre, parse);
  }

  /** With every row filed and the four lists holding every class's split, get_data is the
      concatenation of the four lists. */
  lemma StratifiedFromLists<T>(pre: Preprocessor<T>, parse: T -> Option<int>, trainVectors: seq<Matrix<T>>,
                               trainLabels: seq<Matrix<int>>, testVectors: seq<Matrix<T>>, testLabels: seq<Matrix<int>>)
    requires pre.Valid() && FirstBadRow(pre.inputData, pre.numClass, parse).None?
    requires |trainVectors| == |trainLabels| == |testVectors| == |testLabels| == pre.numClass
    requires forall c | 0 <= c < pre.numClass ::
      ClassSplit(pre, parse, c) == Ok(Split(trainVectors[c], trainLabels[c], testVectors[c], testLabels[c]))
    ensures Stratified(pre, parse) ==
      if Concat(trainVectors).Some? && Concat(trainLabels).Some? && Concat(testVectors).Some? && Concat(testLabels).Some?
      then Ok(Split(Concat(trainVectors).value, Concat(trainLabels).value, Concat(testVectors).value, Concat(testLabels).value))
      else Err(ConcatFailed)
  {
    assert FirstBadClass(pre, parse, pre.numClass).None?;
    StratifiedAssembled(pre, parse);
    PartsFromLists(pre, parse, trainVectors, trainLabels, testVectors, testLabels);
    AssembleLists(Parts(pre, parse), trainVectors, trainLabels, testVectors, testLabels);
  }

  /** Lists that hold every class's split hold the fields of the parts. */
  lemma PartsFromLists<T>(pre: Preprocessor<T>, parse: T -> Option<int>, trainVectors: seq<Matrix<T>>,
                          trainLabels: seq<Matrix<int>>, testVectors: seq<Matrix<T>>, testLabels: seq<Matrix<int>>)
    requires pre.Valid() && FirstBadClass(pre, parse, pre.numClass).None?
    requires |trainVectors| == |trainLabels| == |testVectors| == |testLabels| == pre.numClass
    requires forall c | 0 <= c < pre.numClass ::
      ClassSplit(pre, parse, c) == Ok(Split(trainVectors[c], trainLabels[c], testVectors[c], testLabels[c]))
    ensures var parts := Parts(pre, parse);
      && (forall c | 0 <= c < |parts| :: trainVectors[c] == parts[c].trainX && trainLabels[c] == parts[c].trainY)
      && (forall c | 0 <= c < |parts| :: testVectors[c] == parts[c].testX && testLabels[c] == parts[c].testY)
  {
  }

  /** Concatenating lists that hold the parts' four fields is assembling the parts. */
  lemma AssembleLists<T>(parts: seq<Split<T>>, trainVectors: seq<Matrix<T>>, trainLabels: seq<Matrix<int>>,
                         testVectors: seq<Matrix<T>>, testLabels: seq<Matrix<int>>)
    requires |trainVectors| == |trainLabels| == |testVectors| == |testLabels| == |parts|
    requires forall c | 0 <= c < |parts| :: trainVectors[c] == parts[c].trainX && trainLabels[c] == parts[c].trainY
    requires forall c | 0 <= c < |parts| :: testVectors[c] == parts[c].testX && testLabels[c] == parts[c].testY
    ensures Assemble(parts) ==
      if Concat(trainVectors).Some? && Concat(trainLabels).Some? && Concat(testVectors).Some? && Concat(testLabels).Some?
      then Ok(Split(Concat(trainVectors).value, Concat(trainLabels).value, Concat(testVectors).value, Concat(testLabels).value))
      else Err(ConcatFailed)
  {
    assert trainVectors == TrainVectors(parts);
    assert trainLabels == TrainLabels(parts);
    assert testVectors == TestVectors(parts);
    assert testLabels == TestLabels(parts);
  }

  // ---------------------------------------------------------------------------
  // get_data
  // ---------------------------------------------------------------------------

  /** get_data: group the rows, split every class in ascending order, and concatenate the
      four per-class lists. */
  method GetData<T>(pre: Preprocessor<T>, parse: T -> Option<int>) returns (r: Result<Split<T>, Error>)
    requires pre.Valid()
    ensures r == Stratified(pre, parse)
  {
    var grouped := GroupByClass(pre.inputData, pre.numClass, parse);
    if grouped.Err? {
      StratifiedBadRow(pre, parse);
      return Err(grouped.error);
    }
    var groups := grouped.value;
    GroupsGiveClassSplits(pre, parse, groups);
    var trainVectors: seq<Matrix<T>> := [];
    var trainLabels: seq<Matrix<int>> := [];
    var testVectors: seq<Matrix<T>> := [];
    var testLabels: seq<Matrix<int>> := [];
    var m := 0;
    while m < pre.numClass
      invariant m <= pre.numClass
      invariant |trainVectors| == m && |trainLabels| == m && |testVectors| == m && |testLabels| == m
      invariant forall c | 0 <= c < m ::
        ClassSplit(pre, parse, c) == Ok(Split(trainVectors[c], trainLabels[c], testVectors[c], testLabels[c]))
    {
      match ConvertToTensors(groups.data[m], groups.targets[m], pre.numClass, pre.testPercentage)
      case Err(f) =>
        StratifiedFailsAt(pre, parse, m);
        return Err(BadClass(m, f));
      case Ok(s) =>
        trainVectors := trainVectors + [s.trainX];
        trainLabels := trainLabels + [s.trainY];
        testVectors := testVectors + [s.testX];
        testLabels := testLabels + [s.testY];
      m := m + 1;
    }
    StratifiedFromLists(pre, parse, trainVectors, trainLabels, testVectors, testLabels);
    var trainX := Concat(trainVectors);
    var trainY := Concat(trainLabels);
    var testX := Concat(testVectors);
    var testY := Concat(testLabels);
    if trainX.Some? && trainY.Some? && testX.Some? && testY.Some? {
      r := Ok(Split(trainX.value, trainY.value, testX.value, testY.value));
    } else {
      r := Err(ConcatFailed);
    }
  }
}
