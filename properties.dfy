/**
 * What the splitter guarantees: grouping is a stable partition of the rows, every class
 * is cut into a train prefix and a test suffix, the outputs hold every input row once, in
 * class-major order, with the one-hot row of its own class beside it.
 */
module SplitProperties {
  import opened Wrappers
  import opened Tensors
  import opened Rounding
  import opened Preprocessing

  // ---------------------------------------------------------------------------
  // Grouping
  // ---------------------------------------------------------------------------

  /** The groups of every class, in class order. */
  function AllMembers<T>(rows: seq<seq<T>>, numClass: nat, parse: T -> Option<int>): (r: seq<seq<seq<T>>>)
    ensures |r| == numClass && forall c | 0 <= c < numClass :: r[c] == Members(rows, numClass, parse, c)
  {
    seq(numClass, c requires 0 <= c < numClass => Members(rows, numClass, parse, c))
  }

  /** The feature part of every row, in input order. */
  function FeatureRows<T>(rows: seq<seq<T>>): (r: seq<seq<T>>)
    requires forall i | 0 <= i < |rows| :: |rows[i]| > 0
    ensures |r| == |rows| && forall i | 0 <= i < |rows| :: r[i] == Features(rows[i])
  {
    seq(|rows|, i requires 0 <= i < |rows| && |rows[i]| > 0 => Features(rows[i]))
  }

  /** When every row names a class, the groups together hold the feature part of every
      row exactly once: no row is dropped, duplicated or invented. */
  lemma {:induction false} GroupingIsPartition<T>(rows: seq<seq<T>>, numClass: nat, parse: T -> Option<int>)
    requires FirstBadRow(rows, numClass, parse).None?
    ensures forall i | 0 <= i < |rows| :: |rows[i]| > 0
    ensures multiset(Flatten(AllMembers(rows, numClass, parse))) == multiset(FeatureRows(rows))
    ensures |Flatten(AllMembers(rows, numClass, parse))| == |rows|
  {
    assert forall i | 0 <= i < |rows| :: Classify(rows[i], numClass, parse).Ok?;
    if rows == [] {
      FlattenEmptyBlocks(AllMembers(rows, numClass, parse));
    } else {
      var n := |rows| - 1;
      var prefix := rows[..n];
      var x := rows[n];
      assert forall i | 0 <= i < |prefix| :: Classify(prefix[i], numClass, parse).Ok?;
      GroupingIsPartition(prefix, numClass, parse);
      var l := Classify(x, numClass, parse).value;
      var before := AllMembers(prefix, numClass, parse);
      var f := Features(x);
      AllMembersStep(rows, numClass, parse);
      FeatureRowsSnoc(rows);
      FlattenBumpMultiset(AllMembers(rows, numClass, parse), before, l, f, FeatureRows(rows), FeatureRows(prefix));
    }
  }

  /** The feature rows of a longer input extend those of its prefix by one. */
  lemma FeatureRowsSnoc<T>(rows: seq<seq<T>>)
    requires rows != [] && forall i | 0 <= i < |rows| :: |rows[i]| > 0
    ensures FeatureRows(rows) == FeatureRows(rows[..|rows| - 1]) + [Features(rows[|rows| - 1])]
  {
  }

  /** Adding one element to one block adds it to the multiset of the flattened blocks. */
  lemma FlattenBumpMultiset<X>(after: seq<seq<X>>, before: seq<seq<X>>, l: nat, y: X, all: seq<X>, prefix: seq<X>)
    requires l < |before| && after == before[l := before[l] + [y]]
    requires multiset(Flatten(before)) == multiset(prefix) && all == prefix + [y]
    ensures multiset(Flatten(after)) == multiset(all) && |Flatten(after)| == |all|
  {
    FlattenBump(before, l, y);
    assert |Flatten(after)| == |multiset(Flatten(after))|;
  }

  /** Filing one more row appends its features to its own group and leaves the others. */
  lemma AllMembersStep<T>(rows: seq<seq<T>>, numClass: nat, parse: T -> Option<int>)
    requires rows != [] && Classify(rows[|rows| - 1], numClass, parse).Ok?
    ensures var l := Classify(rows[|rows| - 1], numClass, parse).value;
      var before := AllMembers(rows[..|rows| - 1], numClass, parse);
      AllMembers(rows, numClass, parse) == before[l := before[l] + [Features(rows[|rows| - 1])]]
  {
    var x := rows[|rows| - 1];
    var l := Classify(x, numClass, parse).value;
    var before := AllMembers(rows[..|rows| - 1], numClass, parse);
    forall c | 0 <= c < numClass
      ensures AllMembers(rows, numClass, parse)[c] == before[l := before[l] + [Features(x)]][c]
    {
    }
  }

  /** Flattening empty blocks gives nothing. */
  lemma {:induction false} FlattenEmptyBlocks<X>(xss: seq<seq<X>>)
    requires forall i | 0 <= i < |xss| :: xss[i] == []
    ensures Flatten(xss) == []
  {
    if xss != [] {
      FlattenEmptyBlocks(xss[..|xss| - 1]);
    }
  }

  /** A class that no row names gets an empty group. */
  lemma {:induction false} AbsentClassEmpty<T>(rows: seq<seq<T>>, numClass: nat, parse: T -> Option<int>, c: nat)
    requires forall i | 0 <= i < |rows| :: Classify(rows[i], numClass, parse) != Ok(c)
    ensures Members(rows, numClass, parse, c) == []
  {
    if rows != [] {
      var n := |rows| - 1;
      assert forall i | 0 <= i < n :: rows[..n][i] == rows[i];
      AbsentClassEmpty(rows[..n], numClass, parse, c);
    }
  }

  /** The group of a class built from a prefix of the rows is a prefix of the group built
      from all of them: later rows only ever append. */
  lemma {:induction false} MembersPrefix<T>(rows: seq<seq<T>>, numClass: nat, parse: T -> Option<int>, k: nat, c: nat)
    requires k <= |rows|
    ensures Members(rows[..k], numClass, parse, c) <= Members(rows, numClass, parse, c)
  {
    if k < |rows| {
      var n := |rows| - 1;
      assert rows[..n][..k] == rows[..k];
      MembersPrefix(rows[..n], numClass, parse, k, c);
    } else {
      assert rows[..k] == rows;
    }
  }

  /** Row `i` of class `c` is filed in group `c` right after the class-`c` rows before it. */
  lemma RowPlacement<T>(rows: seq<seq<T>>, numClass: nat, parse: T -> Option<int>, i: nat, c: nat)
    requires i < |rows| && Classify(rows[i], numClass, parse) == Ok(c)
    ensures |Members(rows[..i], numClass, parse, c)| < |Members(rows, numClass, parse, c)|
    ensures Members(rows, numClass, parse, c)[|Members(rows[..i], numClass, parse, c)|] == Features(rows[i])
  {
    assert rows[..i + 1][..i] == rows[..i];
    MembersPrefix(rows, numClass, parse, i + 1, c);
  }

  /** Grouping is stable: two rows of one class keep their relative order in its group. */
  lemma StableOrder<T>(rows: seq<seq<T>>, numClass: nat, parse: T -> Option<int>, i: nat, j: nat, c: nat)
    requires i < j < |rows|
    requires Classify(rows[i], numClass, parse) == Ok(c) && Classify(rows[j], numClass, parse) == Ok(c)
    ensures var group := Members(rows, numClass, parse, c);
      var pi := |Members(rows[..i], numClass, parse, c)|;
      var pj := |Members(rows[..j], numClass, parse, c)|;
      pi < pj < |group| && group[pi] == Features(rows[i]) && group[pj] == Features(rows[j])
  {
    RowPlacement(rows, numClass, parse, i, c);
    RowPlacement(rows, numClass, parse, j, c);
    assert rows[..j][..i + 1] == rows[..i + 1];
    assert rows[..i + 1][..i] == rows[..i];
    MembersPrefix(rows[..j], numClass, parse, i + 1, c);
  }

  // ---------------------------------------------------------------------------
  // One class
  // ---------------------------------------------------------------------------

  /** Every label of a class is the class index, so every label row is the same one-hot
      row; the test labels taken from row 0 are therefore exactly the label rows
      [num_train, n) of the test samples, and train and test labels together are all of
      the class's label rows. */
  lemma TestLabelsFromRowZero<T>(data: seq<seq<T>>, c: nat, numClass: nat, testPercentage: real)
    requires 0.0 <= testPercentage <= 1.0
    requires ConvertToTensors(data, Repeat(c as int, |data|), numClass, testPercentage).Ok?
    ensures var s := ConvertToTensors(data, Repeat(c as int, |data|), numClass, testPercentage).value;
      var b := SplitBoundary(|data|, testPercentage);
      var labels := OneHot(Repeat(c as int, |data|), numClass).rows;
      && s.testY.rows == labels[b.numTrain..]
      && s.trainY.rows + s.testY.rows == labels
      && s.trainY.rows == Repeat(UnitRow(c, numClass), b.numTrain)
      && s.testY.rows == Repeat(UnitRow(c, numClass), b.numTest)
  {
    var labels := OneHot(Repeat(c as int, |data|), numClass).rows;
    var b := SplitBoundary(|data|, testPercentage);
    assert labels[..b.numTest] == labels[b.numTrain..];
    assert labels[..b.numTrain] + labels[b.numTrain..] == labels;
  }

  function NumTrainOf<T>(pre: Preprocessor<T>, parse: T -> Option<int>, c: nat): nat
    requires pre.Valid()
  {
    SplitBoundary(|Members(pre.inputData, pre.numClass, parse, c)|, pre.testPercentage).numTrain
  }

  function NumTestOf<T>(pre: Preprocessor<T>, parse: T -> Option<int>, c: nat): nat
    requires pre.Valid()
  {
    SplitBoundary(|Members(pre.inputData, pre.numClass, parse, c)|, pre.testPercentage).numTest
  }

  /** Per class, the rows that go to training: the first num_train of its group. */
  function TrainRows<T>(pre: Preprocessor<T>, parse: T -> Option<int>): (r: seq<seq<seq<T>>>)
    requires pre.Valid()
    ensures |r| == pre.numClass
    ensures forall c | 0 <= c < pre.numClass ::
      r[c] == Members(pre.inputData, pre.numClass, parse, c)[..NumTrainOf(pre, parse, c)]
  {
    seq(pre.numClass, c requires 0 <= c < pre.numClass =>
      Members(pre.inputData, pre.numClass, parse, c)[..NumTrainOf(pre, parse, c)])
  }

  /** Per class, the rows that go to evaluation: the rest of its group. */
  function TestRows<T>(pre: Preprocessor<T>, parse: T -> Option<int>): (r: seq<seq<seq<T>>>)
    requires pre.Valid()
    ensures |r| == pre.numClass
    ensures forall c | 0 <= c < pre.numClass ::
      r[c] == Members(pre.inputData, pre.numClass, parse, c)[NumTrainOf(pre, parse, c)..]
  {
    seq(pre.numClass, c requires 0 <= c < pre.numClass =>
      Members(pre.inputData, pre.numClass, parse, c)[NumTrainOf(pre, parse, c)..])
  }

  /** Per class, num_train copies of the class's one-hot row. */
  function TrainLabelRows<T>(pre: Preprocessor<T>, parse: T -> Option<int>): (r: seq<seq<seq<int>>>)
    requires pre.Valid()
    ensures |r| == pre.numClass
    ensures forall c | 0 <= c < pre.numClass ::
      r[c] == Repeat(UnitRow(c, pre.numClass), NumTrainOf(pre, parse, c))
  {
    seq(pre.numClass, c requires 0 <= c < pre.numClass =>
      Repeat(UnitRow(c, pre.numClass), NumTrainOf(pre, parse, c)))
  }

  /** Per class, num_test copies of the class's one-hot row. */
  function TestLabelRows<T>(pre: Preprocessor<T>, parse: T -> Option<int>): (r: seq<seq<seq<int>>>)
    requires pre.Valid()
    ensures |r| == pre.numClass
    ensures forall c | 0 <= c < pre.numClass ::
      r[c] == Repeat(UnitRow(c, pre.numClass), NumTestOf(pre, parse, c))
  {
    seq(pre.numClass, c requires 0 <= c < pre.numClass =>
      Repeat(UnitRow(c, pre.numClass), NumTestOf(pre, parse, c)))
  }

  /** A class that splits gives its train prefix, its test suffix, and its one-hot row
      num_train and num_test times. */
  lemma ClassSplitShape<T>(pre: Preprocessor<T>, parse: T -> Option<int>, c: nat)
    requires pre.Valid() && c < pre.numClass && ClassSplit(pre, parse, c).Ok?
    ensures var s := ClassSplit(pre, parse, c).value;
      && s.trainX.rows == TrainRows(pre, parse)[c] && s.testX.rows == TestRows(pre, parse)[c]
      && s.trainY == Matrix(TrainLabelRows(pre, parse)[c], pre.numClass)
      && s.testY == Matrix(TestLabelRows(pre, parse)[c], pre.numClass)
  {
    var members := Members(pre.inputData, pre.numClass, parse, c);
    TestLabelsFromRowZero(members, c, pre.numClass, pre.testPercentage);
  }

  // ---------------------------------------------------------------------------
  // The assembled output
  // ---------------------------------------------------------------------------

  /** A successful get_data filed every row, split every class, and assembled the splits. */
  lemma StratifiedIsAssemble<T>(pre: Preprocessor<T>, parse: T -> Option<int>)
    requires pre.Valid() && Stratified(pre, parse).Ok?
    ensures FirstBadRow(pre.inputData, pre.numClass, parse).None?
    ensures FirstBadClass(pre, parse, pre.numClass).None?
    ensures Stratified(pre, parse) == Assemble(Parts(pre, parse))
  {
  }

  /** A successful assembly lays the four fields of the parts end to end. */
  lemma AssembleFields<T>(parts: seq<Split<T>>)
    requires Assemble(parts).Ok?
    ensures var out := Assemble(parts).value;
      && out.trainX.rows == Flatten(RowsOf(TrainVectors(parts)))
      && out.testX.rows == Flatten(RowsOf(TestVectors(parts)))
      && out.trainY == Matrix(Flatten(RowsOf(TrainLabels(parts))), parts[0].trainY.cols)
      && out.testY == Matrix(Flatten(RowsOf(TestLabels(parts))), parts[0].testY.cols)
  {
  }

  /** The rows of the class splits are each class's train prefix, test suffix and their
      one-hot label rows. */
  lemma PartsShape<T>(pre: Preprocessor<T>, parse: T -> Option<int>)
    requires pre.Valid() && FirstBadClass(pre, parse, pre.numClass).None?
    ensures var parts := Parts(pre, parse);
      && RowsOf(TrainVectors(parts)) == TrainRows(pre, parse)
      && RowsOf(TestVectors(parts)) == TestRows(pre, parse)
      && RowsOf(TrainLabels(parts)) == TrainLabelRows(pre, parse)
      && RowsOf(TestLabels(parts)) == TestLabelRows(pre, parse)
      && (pre.numClass > 0 ==> parts[0].trainY.cols == pre.numClass && parts[0].testY.cols == pre.numClass)
  {
    var parts := Parts(pre, parse);
    forall c | 0 <= c < pre.numClass
      ensures parts[c].trainX.rows == TrainRows(pre, parse)[c] && parts[c].testX.rows == TestRows(pre, parse)[c]
      ensures parts[c].trainY == Matrix(TrainLabelRows(pre, parse)[c], pre.numClass)
      ensures parts[c].testY == Matrix(TestLabelRows(pre, parse)[c], pre.numClass)
    {
      ClassSplitShape(pre, parse, c);
    }
  }

  /** A successful get_data is the class-major concatenation of every class's train prefix,
      test suffix and their one-hot label rows. */
  lemma StratifiedContents<T>(pre: Preprocessor<T>, parse: T -> Option<int>)
    requires pre.Valid() && Stratified(pre, parse).Ok?
    ensures var out := Stratified(pre, parse).value;
      && out.trainX.rows == Flatten(TrainRows(pre, parse))
      && out.testX.rows == Flatten(TestRows(pre, parse))
      && out.trainY == Matrix(Flatten(TrainLabelRows(pre, parse)), pre.numClass)
      && out.testY == Matrix(Flatten(TestLabelRows(pre, parse)), pre.numClass)
  {
    StratifiedIsAssemble(pre, parse);
    AssembleFields(Parts(pre, parse));
    PartsShape(pre, parse);
  }

  /** Class `c`'s test suffix has num_test rows. */
  lemma TestRowsLength<T>(pre: Preprocessor<T>, parse: T -> Option<int>)
    requires pre.Valid()
    ensures forall c | 0 <= c < pre.numClass :: |TestRows(pre, parse)[c]| == |TestLabelRows(pre, parse)[c]|
  {
    forall c | 0 <= c < pre.numClass ensures |TestRows(pre, parse)[c]| == |TestLabelRows(pre, parse)[c]| {
      var m := Members(pre.inputData, pre.numClass, parse, c);
      assert |m[NumTrainOf(pre, parse, c)..]| == NumTestOf(pre, parse, c);
    }
  }

  /** Train prefixes and test suffixes of all groups together hold the feature part of
      every input row once. */
  lemma SplitsConserveRows<T>(pre: Preprocessor<T>, parse: T -> Option<int>)
    requires pre.Valid() && FirstBadRow(pre.inputData, pre.numClass, parse).None?
    ensures forall i | 0 <= i < |pre.inputData| :: |pre.inputData[i]| > 0
    ensures multiset(Flatten(TrainRows(pre, parse))) + multiset(Flatten(TestRows(pre, parse)))
      == multiset(FeatureRows(pre.inputData))
    ensures |Flatten(TrainRows(pre, parse))| + |Flatten(TestRows(pre, parse))| == |pre.inputData|
  {
    GroupingIsPartition(pre.inputData, pre.numClass, parse);
    SplitsCoverGroups(pre, parse);
    FlattenSplit(TrainRows(pre, parse), TestRows(pre, parse), AllMembers(pre.inputData, pre.numClass, parse));
  }

  /** Each group is its train prefix followed by its test suffix. */
  lemma SplitsCoverGroups<T>(pre: Preprocessor<T>, parse: T -> Option<int>)
    requires pre.Valid()
    ensures forall c | 0 <= c < pre.numClass ::
      TrainRows(pre, parse)[c] + TestRows(pre, parse)[c] == AllMembers(pre.inputData, pre.numClass, parse)[c]
  {
    forall c | 0 <= c < pre.numClass
      ensures TrainRows(pre, parse)[c] + TestRows(pre, parse)[c] == AllMembers(pre.inputData, pre.numClass, parse)[c]
    {
      var m := Members(pre.inputData, pre.numClass, parse, c);
      assert m[..NumTrainOf(pre, parse, c)] + m[NumTrainOf(pre, parse, c)..] == m;
    }
  }

  /** The label blocks have as many rows as the row blocks. */
  lemma LabelsMatchRows<T>(pre: Preprocessor<T>, parse: T -> Option<int>)
    requires pre.Valid()
    ensures |Flatten(TrainLabelRows(pre, parse))| == |Flatten(TrainRows(pre, parse))|
    ensures |Flatten(TestLabelRows(pre, parse))| == |Flatten(TestRows(pre, parse))|
  {
    FlattenSameShape(TrainRows(pre, parse), TrainLabelRows(pre, parse));
    TestRowsLength(pre, parse);
    FlattenSameShape(TestRows(pre, parse), TestLabelRows(pre, parse));
  }

  /** get_data neither loses nor invents rows: train and test features together are the
      feature parts of the input rows, and each output has one label row per feature row. */
  lemma RowsConserved<T>(pre: Preprocessor<T>, parse: T -> Option<int>)
    requires pre.Valid() && Stratified(pre, parse).Ok?
    ensures forall i | 0 <= i < |pre.inputData| :: |pre.inputData[i]| > 0
    ensures var out := Stratified(pre, parse).value;
      && multiset(out.trainX.rows) + multiset(out.testX.rows) == multiset(FeatureRows(pre.inputData))
      && |out.trainX.rows| + |out.testX.rows| == |pre.inputData|
      && |out.trainY.rows| == |out.trainX.rows| && |out.testY.rows| == |out.testX.rows|
  {
    StratifiedIsAssemble(pre, parse);
    StratifiedContents(pre, parse);
    SplitsConserveRows(pre, parse);
    LabelsMatchRows(pre, parse);
  }

  /** Where the train block of class `c` starts in the train outputs. */
  function TrainOffset<T>(pre: Preprocessor<T>, parse: T -> Option<int>, c: nat): nat
    requires pre.Valid() && c <= pre.numClass
  {
    |Flatten(TrainRows(pre, parse)[..c])|
  }

  /** Where the test block of class `c` starts in the test outputs. */
  function TestOffset<T>(pre: Preprocessor<T>, parse: T -> Option<int>, c: nat): nat
    requires pre.Valid() && c <= pre.numClass
  {
    |Flatten(TestRows(pre, parse)[..c])|
  }

  /** The train (and test) block of a class ends where the next class's block begins, so
      it ends no later than the block of any higher class begins; the last block ends at
      the end of the flattening. */
  lemma OffsetsAscend<T>(pre: Preprocessor<T>, parse: T -> Option<int>, c: nat, d: nat)
    requires pre.Valid() && c < d <= pre.numClass
    ensures TrainOffset(pre, parse, c) + NumTrainOf(pre, parse, c) <= TrainOffset(pre, parse, d)
    ensures TestOffset(pre, parse, c) + NumTestOf(pre, parse, c) <= TestOffset(pre, parse, d)
    ensures TrainOffset(pre, parse, pre.numClass) == |Flatten(TrainRows(pre, parse))|
    ensures TestOffset(pre, parse, pre.numClass) == |Flatten(TestRows(pre, parse))|
  {
    var train, test := TrainRows(pre, parse), TestRows(pre, parse);
    FlattenStep(train, c);
    FlattenPrefixGrows(train, c + 1, d);
    FlattenStep(test, c);
    FlattenPrefixGrows(test, c + 1, d);
    assert train[..pre.numClass] == train;
    assert test[..pre.numClass] == test;
    var m := Members(pre.inputData, pre.numClass, parse, c);
    assert |m[NumTrainOf(pre, parse, c)..]| == NumTestOf(pre, parse, c);
  }

  /** Class-major order of the outputs: the block of class `c` ends no later than the block
      of any higher class `d` begins, in the train outputs and in the test outputs, and the
      blocks fill the outputs. */
  lemma ClassMajor<T>(pre: Preprocessor<T>, parse: T -> Option<int>, c: nat, d: nat)
    requires pre.Valid() && Stratified(pre, parse).Ok? && c < d <= pre.numClass
    ensures TrainOffset(pre, parse, c) + NumTrainOf(pre, parse, c) <= TrainOffset(pre, parse, d)
    ensures TestOffset(pre, parse, c) + NumTestOf(pre, parse, c) <= TestOffset(pre, parse, d)
    ensures TrainOffset(pre, parse, pre.numClass) == |Stratified(pre, parse).value.trainX.rows|
    ensures TestOffset(pre, parse, pre.numClass) == |Stratified(pre, parse).value.testX.rows|
  {
    StratifiedContents(pre, parse);
    OffsetsAscend(pre, parse, c, d);
  }

  /** Position TrainOffset(c) + i of the flattened train rows holds row `i` of class `c`'s
      group. */
  lemma TrainRowsAt<T>(pre: Preprocessor<T>, parse: T -> Option<int>, c: nat, i: nat)
    requires pre.Valid() && c < pre.numClass && i < NumTrainOf(pre, parse, c)
    ensures TrainOffset(pre, parse, c) + i < |Flatten(TrainRows(pre, parse))|
    ensures Flatten(TrainRows(pre, parse))[TrainOffset(pre, parse, c) + i]
      == Members(pre.inputData, pre.numClass, parse, c)[i]
  {
    FlattenAt(TrainRows(pre, parse), c, i);
  }

  /** The same position of the flattened train labels holds the one-hot row of `c`. */
  lemma TrainLabelsAt<T>(pre: Preprocessor<T>, parse: T -> Option<int>, c: nat, i: nat)
    requires pre.Valid() && c < pre.numClass && i < NumTrainOf(pre, parse, c)
    ensures TrainOffset(pre, parse, c) + i < |Flatten(TrainLabelRows(pre, parse))|
    ensures Flatten(TrainLabelRows(pre, parse))[TrainOffset(pre, parse, c) + i] == UnitRow(c, pre.numClass)
  {
    FlattenAtParallel(TrainRows(pre, parse), TrainLabelRows(pre, parse), c, i);
  }

  /** Position TestOffset(c) + i of the flattened test rows holds entry `i` of class `c`'s
      test rows. */
  lemma TestRowsAt<T>(pre: Preprocessor<T>, parse: T -> Option<int>, c: nat, i: nat)
    requires pre.Valid() && c < pre.numClass && i < |TestRows(pre, parse)[c]|
    ensures TestOffset(pre, parse, c) + i < |Flatten(TestRows(pre, parse))|
    ensures Flatten(TestRows(pre, parse))[TestOffset(pre, parse, c) + i] == TestRows(pre, parse)[c][i]
  {
    FlattenAt(TestRows(pre, parse), c, i);
  }

  /** The same position of the flattened test labels holds the one-hot row of `c`. */
  lemma TestLabelsAt<T>(pre: Preprocessor<T>, parse: T -> Option<int>, c: nat, i: nat)
    requires pre.Valid() && c < pre.numClass && i < NumTestOf(pre, parse, c)
    ensures TestOffset(pre, parse, c) + i < |Flatten(TestLabelRows(pre, parse))|
    ensures Flatten(TestLabelRows(pre, parse))[TestOffset(pre, parse, c) + i] == UnitRow(c, pre.numClass)
  {
    var rows, labels := TestRows(pre, parse), TestLabelRows(pre, parse);
    TestRowsEntry(pre, parse, c, i);
    TestRowsLength(pre, parse);
    FlattenAtParallel(rows, labels, c, i);
  }

  /** Entry `i` of class `c`'s test block and of its test labels. */
  lemma TestRowsEntry<T>(pre: Preprocessor<T>, parse: T -> Option<int>, c: nat, i: nat)
    requires pre.Valid() && c < pre.numClass && i < NumTestOf(pre, parse, c)
    ensures NumTrainOf(pre, parse, c) + i < |Members(pre.inputData, pre.numClass, parse, c)|
    ensures i < |TestRows(pre, parse)[c]| && i < |TestLabelRows(pre, parse)[c]|
    ensures TestRows(pre, parse)[c][i] == Members(pre.inputData, pre.numClass, parse, c)[NumTrainOf(pre, parse, c) + i]
    ensures TestLabelRows(pre, parse)[c][i] == UnitRow(c, pre.numClass)
  {
    var m, t := Members(pre.inputData, pre.numClass, parse, c), NumTrainOf(pre, parse, c);
    assert t + NumTestOf(pre, parse, c) == |m|;
  }

  /** Row `i` of class `c`'s train block is row `i` of its group, labelled with the one-hot
      row of `c`. */
  lemma TrainBlock<T>(pre: Preprocessor<T>, parse: T -> Option<int>, c: nat, i: nat)
    requires pre.Valid() && Stratified(pre, parse).Ok? && c < pre.numClass
    requires i < NumTrainOf(pre, parse, c)
    ensures var out := Stratified(pre, parse).value;
      var k := TrainOffset(pre, parse, c) + i;
      && k < |out.trainX.rows| && k < |out.trainY.rows|
      && out.trainX.rows[k] == Members(pre.inputData, pre.numClass, parse, c)[i]
      && out.trainY.rows[k] == UnitRow(c, pre.numClass)
  {
    StratifiedContents(pre, parse);
    TrainRowsAt(pre, parse, c, i);
    TrainLabelsAt(pre, parse, c, i);
  }

  /** Row `i` of class `c`'s test block is row num_train + i of its group, labelled with the
      one-hot row of `c`. */
  lemma TestBlock<T>(pre: Preprocessor<T>, parse: T -> Option<int>, c: nat, i: nat)
    requires pre.Valid() && Stratified(pre, parse).Ok? && c < pre.numClass
    requires i < NumTestOf(pre, parse, c)
    ensures var out := Stratified(pre, parse).value;
      var k := TestOffset(pre, parse, c) + i;
      && k < |out.testX.rows| && k < |out.testY.rows|
      && out.testX.rows[k] == Members(pre.inputData, pre.numClass, parse, c)[NumTrainOf(pre, parse, c) + i]
      && out.testY.rows[k] == UnitRow(c, pre.numClass)
  {
    StratifiedContents(pre, parse);
    TestRowsEntry(pre, parse, c, i);
    TestRowsAt(pre, parse, c, i);
    TestLabelsAt(pre, parse, c, i);
  }

  // ---------------------------------------------------------------------------
  // Failures
  // ---------------------------------------------------------------------------

  /** A row that cannot be filed (no field, a non-integer label, a label that is not a class
      index) is never dropped: get_data fails at that row or an earlier one. */
  lemma BadRowRejected<T>(pre: Preprocessor<T>, parse: T -> Option<int>, i: nat)
    requires pre.Valid() && i < |pre.inputData|
    requires Classify(pre.inputData[i], pre.numClass, parse).Err?
    ensures Stratified(pre, parse).Err?
    ensures Stratified(pre, parse).error.BadRow? && Stratified(pre, parse).error.row <= i
  {
    var e := FirstBadRow(pre.inputData, pre.numClass, parse);
    assert e.Some?;
  }

  /** A class no row names makes get_data fail, at that class or an earlier one. */
  lemma EmptyClassFails<T>(pre: Preprocessor<T>, parse: T -> Option<int>, c: nat)
    requires pre.Valid() && c < pre.numClass
    requires FirstBadRow(pre.inputData, pre.numClass, parse).None?
    requires Members(pre.inputData, pre.numClass, parse, c) == []
    ensures Stratified(pre, parse).Err?
    ensures Stratified(pre, parse).error.BadClass? && Stratified(pre, parse).error.classIndex <= c
  {
    assert ClassSplit(pre, parse, c) == Err(NoSamples);
    var e := FirstBadClass(pre, parse, pre.numClass);
    assert e.Some?;
  }

  // ---------------------------------------------------------------------------
  // A worked example: five rows, two classes, test fraction 0.2
  // ---------------------------------------------------------------------------

  const ExampleRows: seq<seq<int>> := [[1, 2, 0], [3, 4, 0], [5, 6, 1], [7, 8, 1], [9, 10, 1]]

  /** Integer fields: every field already is its integer value. */
  function ParseInt(x: int): Option<int> { Some(x) }

  /** Each example row's label and features. */
  lemma ExampleRowsFiled()
    ensures Classify(ExampleRows[0], 2, ParseInt) == Ok(0) && Classify(ExampleRows[1], 2, ParseInt) == Ok(0)
    ensures Classify(ExampleRows[2], 2, ParseInt) == Ok(1) && Classify(ExampleRows[3], 2, ParseInt) == Ok(1)
    ensures Classify(ExampleRows[4], 2, ParseInt) == Ok(1)
    ensures Features(ExampleRows[0]) == [1, 2] && Features(ExampleRows[1]) == [3, 4]
    ensures Features(ExampleRows[2]) == [5, 6] && Features(ExampleRows[3]) == [7, 8]
    ensures Features(ExampleRows[4]) == [9, 10]
  {
    var rows := ExampleRows;
    assert rows[0][..2] == [1, 2] && rows[1][..2] == [3, 4] && rows[2][..2] == [5, 6];
    assert rows[3][..2] == [7, 8] && rows[4][..2] == [9, 10];
  }

  /** The prefixes of the example the grouping walks through. */
  lemma ExamplePrefixes()
    ensures ExampleRows[..1][..0] == [] && ExampleRows[..2][..1] == ExampleRows[..1]
    ensures ExampleRows[..3][..2] == ExampleRows[..2] && ExampleRows[..4][..3] == ExampleRows[..3]
    ensures ExampleRows[..4] == ExampleRows[..|ExampleRows| - 1]
  {
  }

  /** Class 0 receives rows 1 and 2 without their labels. */
  lemma ExampleMembers0()
    ensures Members(ExampleRows, 2, ParseInt, 0) == [[1, 2], [3, 4]]
  {
    var rows, parse := ExampleRows, ParseInt;
    ExampleRowsFiled();
    ExamplePrefixes();
    assert Members(rows[..1], 2, parse, 0) == [[1, 2]];
    assert Members(rows[..2], 2, parse, 0) == [[1, 2], [3, 4]];
    assert Members(rows[..3], 2, parse, 0) == [[1, 2], [3, 4]];
    assert Members(rows[..4], 2, parse, 0) == [[1, 2], [3, 4]];
  }

  /** Class 1 receives rows 3, 4 and 5 without their labels. */
  lemma ExampleMembers1()
    ensures Members(ExampleRows, 2, ParseInt, 1) == [[5, 6], [7, 8], [9, 10]]
  {
    var rows, parse := ExampleRows, ParseInt;
    ExampleRowsFiled();
    ExamplePrefixes();
    assert Members(rows[..1], 2, parse, 1) == [];
    assert Members(rows[..2], 2, parse, 1) == [];
    assert Members(rows[..3], 2, parse, 1) == [[5, 6]];
    assert Members(rows[..4], 2, parse, 1) == [[5, 6], [7, 8]];
  }

  /** Every example row is filed: class 0 receives rows 1 and 2, class 1 rows 3, 4 and 5. */
  lemma ExampleGroups()
    ensures FirstBadRow(ExampleRows, 2, ParseInt).None?
    ensures Members(ExampleRows, 2, ParseInt, 0) == [[1, 2], [3, 4]]
    ensures Members(ExampleRows, 2, ParseInt, 1) == [[5, 6], [7, 8], [9, 10]]
  {
    ExampleRowsFiled();
    ExampleMembers0();
    ExampleMembers1();
  }

  /** Class 0 (two rows) keeps both for training since round(0.4) = 0. */
  lemma ExampleClass0()
    ensures ConvertToTensors([[1, 2], [3, 4]], Repeat(0, 2), 2, 0.2)
      == Ok(Split(Matrix([[1, 2], [3, 4]], 2), Matrix([[1, 0], [1, 0]], 2), Matrix([], 2), Matrix([], 2)))
  {
    var data: seq<seq<int>> := [[1, 2], [3, 4]];
    assert RoundHalfEven(2.0 * 0.2) == 0;
    assert SplitBoundary(2, 0.2) == Boundary(2, 0);
    assert Rectangular(data, 2);
    assert UnitRow(0, 2) == [1, 0];
    var labels := OneHot(Repeat(0, 2), 2).rows;
    assert labels == [[1, 0], [1, 0]];
    assert data[..2] == data && data[2..] == [] && labels[..2] == labels && labels[..0] == [];
  }

  /** Class 1 (three rows) sends its last row to evaluation since round(0.6) = 1. */
  lemma ExampleClass1()
    ensures ConvertToTensors([[5, 6], [7, 8], [9, 10]], Repeat(1, 3), 2, 0.2)
      == Ok(Split(Matrix([[5, 6], [7, 8]], 2), Matrix([[0, 1], [0, 1]], 2), Matrix([[9, 10]], 2), Matrix([[0, 1]], 2)))
  {
    var data: seq<seq<int>> := [[5, 6], [7, 8], [9, 10]];
    assert RoundHalfEven(3.0 * 0.2) == 1;
    assert SplitBoundary(3, 0.2) == Boundary(2, 1);
    assert Rectangular(data, 2);
    assert UnitRow(1, 2) == [0, 1];
    var labels := OneHot(Repeat(1, 3), 2).rows;
    assert labels == [[0, 1], [0, 1], [0, 1]];
    assert data[..2] == [[5, 6], [7, 8]] && data[2..] == [[9, 10]];
    assert labels[..2] == [[0, 1], [0, 1]] && labels[..1] == [[0, 1]];
  }

  /** The preprocessor the example builds: two classes and a test fraction of 0.2. */
  const ExamplePre: Preprocessor<int> := Preprocessor(ExampleRows, 2, 0.2)

  /** The class splits of the example. */
  lemma ExampleClassSplits()
    ensures ExamplePre.Valid()
    ensures ClassSplit(ExamplePre, ParseInt, 0)
      == Ok(Split(Matrix([[1, 2], [3, 4]], 2), Matrix([[1, 0], [1, 0]], 2), Matrix([], 2), Matrix([], 2)))
    ensures ClassSplit(ExamplePre, ParseInt, 1)
      == Ok(Split(Matrix([[5, 6], [7, 8]], 2), Matrix([[0, 1], [0, 1]], 2), Matrix([[9, 10]], 2), Matrix([[0, 1]], 2)))
  {
    ExampleGroups();
    ExampleClass0();
    ExampleClass1();
  }

  /** Stacking the example's per-class blocks. */
  lemma ExampleConcats()
    ensures Concat([Matrix([[1, 2], [3, 4]], 2), Matrix([[5, 6], [7, 8]], 2)])
      == Some(Matrix([[1, 2], [3, 4], [5, 6], [7, 8]], 2))
    ensures Concat([Matrix([[1, 0], [1, 0]], 2), Matrix([[0, 1], [0, 1]], 2)])
      == Some(Matrix([[1, 0], [1, 0], [0, 1], [0, 1]], 2))
    ensures Concat([Matrix([], 2), Matrix([[9, 10]], 2)]) == Some(Matrix([[9, 10]], 2))
    ensures Concat([Matrix([], 2), Matrix([[0, 1]], 2)]) == Some(Matrix([[0, 1]], 2))
  {
    ConcatPair(Matrix([[1, 2], [3, 4]], 2), Matrix([[5, 6], [7, 8]], 2));
    ConcatPair(Matrix([[1, 0], [1, 0]], 2), Matrix([[0, 1], [0, 1]], 2));
    ConcatPair(Matrix([], 2), Matrix([[9, 10]], 2));
    ConcatPair(Matrix([], 2), Matrix([[0, 1]], 2));
    assert [[1, 2], [3, 4]] + [[5, 6], [7, 8]] == [[1, 2], [3, 4], [5, 6], [7, 8]];
    assert [[1, 0], [1, 0]] + [[0, 1], [0, 1]] == [[1, 0], [1, 0], [0, 1], [0, 1]];
    assert [] + [[9, 10]] == [[9, 10]] && [] + [[0, 1]] == [[0, 1]];
  }

  /** get_data on the example: train rows 1-4 and test row 5, with one-hot labels. */
  lemma ExampleStratified()
    ensures ExamplePre.Valid()
    ensures Stratified(ExamplePre, ParseInt)
      == Ok(Split(Matrix([[1, 2], [3, 4], [5, 6], [7, 8]], 2), Matrix([[1, 0], [1, 0], [0, 1], [0, 1]], 2),
                  Matrix([[9, 10]], 2), Matrix([[0, 1]], 2)))
  {
    ExampleGroups();
    ExampleClassSplits();
    ExampleConcats();
    var trainVectors := [Matrix([[1, 2], [3, 4]], 2), Matrix([[5, 6], [7, 8]], 2)];
    var trainLabels := [Matrix([[1, 0], [1, 0]], 2), Matrix([[0, 1], [0, 1]], 2)];
    var testVectors := [Matrix([], 2), Matrix([[9, 10]], 2)];
    var testLabels := [Matrix([], 2), Matrix([[0, 1]], 2)];
    assert forall c | 0 <= c < 2 ::
      ClassSplit(ExamplePre, ParseInt, c) == Ok(Split(trainVectors[c], trainLabels[c], testVectors[c], testLabels[c]));
    StratifiedFromLists(ExamplePre, ParseInt, trainVectors, trainLabels, testVectors, testLabels);
  }

  /** Rows `1,2,0`, `3,4,0`, `5,6,1`, `7,8,1`, `9,10,1` with a test fraction of 0.2 are
      accepted and give train rows 1-4 and test row 5, with one-hot labels. */
  lemma WorkedExample()
    ensures Init(ExampleRows, 0.2) == Ok(ExamplePre)
    ensures Stratified(Init(ExampleRows, 0.2).value, ParseInt)
      == Ok(Split(Matrix([[1, 2], [3, 4], [5, 6], [7, 8]], 2), Matrix([[1, 0], [1, 0], [0, 1], [0, 1]], 2),
                  Matrix([[9, 10]], 2), Matrix([[0, 1]], 2)))
  {
    ExampleStratified();
  }
}
