# Stratified train/test splitter (PreprocessorSimple)

This project models `PreprocessorSimple`. It turns a table of delimited rows into four tensors: train vectors, train labels, test vectors and test labels. The last field of every row is the class index.

- **Construction** (`Init`). The test fraction must lie in [0.1, 0.9]. Otherwise construction fails, which models the `ValueError`. The number of classes is fixed at 2.
- **Grouping** (`GroupByClass`, the first half of `get_data`). It allocates `numClass` empty groups. Each row's features (every field but the last) go to the group its label names, and the label goes beside them. Rows keep their input order within a group.
  - The model names three ways a row can fail: it has no field, its label is not an integer, or its label is not a class index.
- **One class** (`ConvertToTensors`, i.e. `__convert_to_tensors`). It computes `num_test = round(n * p)` with Python's round-half-to-even and sets `num_train = n - num_test`.
  - The group becomes a rectangular tensor; ragged rows fail. Its labels become one-hot rows of width `numClass`.
  - Rows `[0, num_train)` form the train block and rows `[num_train, n)` the test block.
  - Train labels are label rows `[0, num_train)`. Test labels are label rows `[0, num_test)`: counted from the first row, as the source does. `TestLabelsFromRowZero` proves this is harmless, because every label row of a class is the same one-hot row.
  - A class with no rows fails (`NoSamples`), because the source reads the feature width from the first row.
- **Assembly** (`GetData`, the second half of `get_data`). It splits every class in order and concatenates the four kinds of block along axis 0.

Modules:

- `Wrappers`: `Option` and `Result`.
- `Tensors`: the TensorFlow operations the source uses, as functions on `Matrix` (rows plus a width): `tf.constant` with a shape, `tf.one_hot`, `tf.slice` and `tf.concat` on axis 0. Also lemmas about laying blocks end to end (`Flatten`).
- `Rounding`: Python's `round` on exact reals.
- `Preprocessing`: the constructor and the two methods `GroupByClass` and `GetData`. These are proved against the specification functions `Members`, `FirstBadRow`, `ConvertToTensors` and `Stratified`.
- `SplitProperties`: what the splitter guarantees, plus a worked example (five rows, two classes, test fraction 0.2).
- `NegativeLabels`: the behaviour of negative labels as written.

Field values are a type parameter `T`. Turning the label field into an integer (`int(target)`) is the parameter `parse: T -> Option<int>`, where `None` means the conversion raises.

## Model

| member | source | states |
|---|---|---|
| Preprocessing.Init | Preprocesamiento/PreprocesamientoA.py:23-26 | Construction succeeds exactly when 0.1 <= test fraction <= 0.9. It then keeps the rows and the fraction with two classes. Otherwise it fails with the out-of-range fraction. |
| Preprocessing.Classify | Preprocesamiento/PreprocesamientoA.py:41-43 | A row is filed under class `c` exactly when its last field parses to `c` and `0 <= c < numClass`. It fails with `MissingLabel` exactly when the row has no field, with `LabelNotInteger` exactly when the last field does not parse, and otherwise with `ClassIndexOutOfRange` carrying the parsed label, which lies outside `[0, numClass)`. |
| Preprocessing.Features | Preprocesamiento/PreprocesamientoA.py:41 | The input row with its last field removed: length one less, every other field in place. |
| Preprocessing.Members | Preprocesamiento/PreprocesamientoA.py:40-44 | The group of class `c`: never longer than the input. GroupByClass computes it; GroupingIsPartition, RowPlacement, StableOrder and AbsentClassEmpty state what it holds. |
| SplitProperties.AbsentClassEmpty | Preprocesamiento/PreprocesamientoA.py:40-44 | A class that no row names gets an empty group. |
| Preprocessing.FirstBadRow | Preprocesamiento/PreprocesamientoA.py:40-44 | There is no bad row exactly when every row classifies. Otherwise the result is the first row that does not classify, with its fault. |
| Preprocessing.GroupByClass | Preprocesamiento/PreprocesamientoA.py:34-44 | It fails exactly when some row cannot be filed, reporting the first such row. On success there are `numClass` groups. Group `c` holds the features of the class-`c` rows in input order, and its label list is `c` repeated once per member. |
| SplitProperties.GroupingIsPartition | Preprocesamiento/PreprocesamientoA.py:40-44 | When every row classifies, the groups together hold each row's features exactly once: the multisets are equal and the total equals the row count. |
| SplitProperties.MembersPrefix | Preprocesamiento/PreprocesamientoA.py:40-44 | The group built from a prefix of the rows is a prefix of the group built from all of them. |
| SplitProperties.RowPlacement | Preprocesamiento/PreprocesamientoA.py:43 | Row `i` of class `c` sits in group `c` right after the class-`c` rows that precede it. |
| SplitProperties.StableOrder | Preprocesamiento/PreprocesamientoA.py:40-44 | Two rows of one class keep their relative input order inside the group. |
| Preprocessing.SplitBoundary | Preprocesamiento/PreprocesamientoA.py:64-66 | `num_train + num_test = n`, and `num_test` is the round-half-to-even of `n * p`. |
| Rounding.RoundHalfEven | Preprocesamiento/PreprocesamientoA.py:65 | The result is within 1/2 of the argument, and a tie goes to the even integer. |
| Rounding.RoundHalfEvenUnique | Preprocesamiento/PreprocesamientoA.py:65 | Only one integer meets that characterisation, so the rounding rule is fully determined. |
| Rounding.RoundWithin | Preprocesamiento/PreprocesamientoA.py:65 | Rounding a value in [0, n] gives an integer in [0, n], so `0 <= num_test <= n`. |
| Tensors.Constant | Preprocesamiento/PreprocesamientoA.py:69-72 | A tensor of the given shape exists exactly when the value has that many rows, each of that width. It then holds the value. |
| Tensors.UnitRow | Preprocesamiento/PreprocesamientoA.py:74-80 | The one-hot row of index `k` has width `depth` and a 1 at position `k` when `k` is in range; UnitRowIsOneHot states that every other entry is 0. |
| Tensors.OneHot | Preprocesamiento/PreprocesamientoA.py:74-80 | Row `i` of the result is `UnitRow(indices[i], depth)`: the one-hot row of label `indices[i]`, width `depth`. |
| Tensors.UnitRowIsOneHot | Preprocesamiento/PreprocesamientoA.py:74-80 | A unit row holds only 0 and 1. It sums to 1 and its hot position is `k` when `0 <= k < depth`; otherwise it is all zeros. |
| Tensors.Slice | Preprocesamiento/PreprocesamientoA.py:82-104 | Row `i` of a slice is row `begin0 + i` of the input, cut to columns `[begin1, begin1 + size1)`. |
| Tensors.SliceWholeRows | Preprocesamiento/PreprocesamientoA.py:82-104 | A full-width slice is the run of rows `[b, b + s)`. |
| Tensors.Concat | Preprocesamiento/PreprocesamientoA.py:59 | Concatenation succeeds exactly when there is at least one block and all blocks have one width. It lays the blocks' rows end to end. |
| Tensors.ConcatPair | Preprocesamiento/PreprocesamientoA.py:59 | Two blocks of one width stack into the first's rows followed by the second's. |
| Preprocessing.ConvertToTensors | Preprocesamiento/PreprocesamientoA.py:63-106 | It fails exactly on an empty group (`NoSamples`) or on rows of unequal width (`RaggedRows`). Otherwise: train vectors are rows `[0, num_train)`, test vectors rows `[num_train, n)`, train labels one-hot rows `[0, num_train)` and test labels one-hot rows `[0, num_test)`. |
| SplitProperties.TestLabelsFromRowZero | Preprocesamiento/PreprocesamientoA.py:100-104 | For a class's labels, the test labels taken from row 0 equal the label rows `[num_train, n)` of the test vectors. Train and test labels together are all of the class's label rows, each the class's one-hot row. |
| SplitProperties.ClassSplitShape | Preprocesamiento/PreprocesamientoA.py:51-52 | A class split holds the class's train prefix, its test suffix, and its one-hot row `num_train` and `num_test` times. |
| Preprocessing.FirstBadClass | Preprocesamiento/PreprocesamientoA.py:50-52 | There is no bad class below `k` exactly when every class below `k` splits. Otherwise the result is the first class that does not split, with its fault. |
| Preprocessing.Parts | Preprocesamiento/PreprocesamientoA.py:50-57 | When every class splits, there is one part per class, and part `c` is class `c`'s split. |
| Preprocessing.GetData | Preprocesamiento/PreprocesamientoA.py:33-59 | The method's result equals `Stratified`. That means: the first unfileable row fails; otherwise the first class that cannot be split fails; otherwise the four concatenations of the per-class blocks, in class order. |
| Preprocessing.StratifiedFromLists | Preprocesamiento/PreprocesamientoA.py:50-59 | Lists that hold each class's split in class order concatenate to the result of `get_data`. |
| Preprocessing.Assemble | Preprocesamiento/PreprocesamientoA.py:59 | Assembly succeeds exactly when there is at least one part and each of the four field lists has a single width; otherwise it fails with `ConcatFailed`. AssembleFields states its contents. |
| Preprocessing.Stratified | Preprocesamiento/PreprocesamientoA.py:33-59 | What `get_data` returns. An unfileable row makes it fail with the first such row, and success means every row was filed. GetData computes it; StratifiedContents, RowsConserved, ClassMajor, TrainBlock, TestBlock and EmptyClassFails state the rest. |
| SplitProperties.StratifiedIsAssemble | Preprocesamiento/PreprocesamientoA.py:33-59 | A successful `get_data` filed every row, split every class, and assembled the splits. |
| SplitProperties.AssembleFields | Preprocesamiento/PreprocesamientoA.py:59 | An assembly lays the train vectors, test vectors, train labels and test labels of the parts end to end. |
| SplitProperties.PartsShape | Preprocesamiento/PreprocesamientoA.py:50-57 | The rows of the parts are, per class, the train prefix, the test suffix and their one-hot label rows of width `numClass`. |
| SplitProperties.StratifiedContents | Preprocesamiento/PreprocesamientoA.py:33-59 | A successful `get_data` is the class-major concatenation of every class's train prefix, test suffix and one-hot label rows. |
| SplitProperties.SplitsConserveRows | Preprocesamiento/PreprocesamientoA.py:33-59 | The train prefixes and test suffixes of all groups together hold each input row's features exactly once. |
| SplitProperties.RowsConserved | Preprocesamiento/PreprocesamientoA.py:33-59 | A successful `get_data` loses and invents no row: the train and test vectors together are the multiset of the input rows' features, and there are as many as there are input rows. Each output has one label row per vector. |
| SplitProperties.ClassMajor | Preprocesamiento/PreprocesamientoA.py:50-59 | In the train and the test outputs, the block of class `c` ends no later than the block of any higher class begins, and the blocks fill the outputs. |
| SplitProperties.TrainBlock | Preprocesamiento/PreprocesamientoA.py:50-59 | Train row `TrainOffset(c) + i` is member `i` of class `c`, and its label is the one-hot row of `c`. |
| SplitProperties.TestBlock | Preprocesamiento/PreprocesamientoA.py:50-59 | Test row `TestOffset(c) + i` is member `num_train + i` of class `c`, and its label is the one-hot row of `c`. |
| SplitProperties.BadRowRejected | Preprocesamiento/PreprocesamientoA.py:40-44 | A row that cannot be filed is never dropped: `get_data` fails with a bad row at or before it. |
| SplitProperties.EmptyClassFails | Preprocesamiento/PreprocesamientoA.py:64-67 | A class that no row names makes `get_data` fail with a bad class at or before it. |
| SplitProperties.WorkedExample | Preprocesamiento/PreprocesamientoA.py:23-59 | Rows `1,2,0`, `3,4,0`, `5,6,1`, `7,8,1`, `9,10,1` with fraction 0.2 are accepted. They give train vectors rows 1-4 with labels `[1,0],[1,0],[0,1],[0,1]`, and test vector `[9,10]` with label `[0,1]`. |
| NegativeLabels.SlotAsWritten | Preprocesamiento/PreprocesamientoA.py:43-44 | Python list indexing: labels in `[-numClass, numClass)` select a group, negative ones counted from the end; anything else raises. |
| NegativeLabels.NegativeLabelMisfiled | Preprocesamiento/PreprocesamientoA.py:43-44 | As written, a row labelled -1 is filed with the last class, while `Classify` rejects it. Its one-hot row is all zeros, names no class, and differs from the last class's row. |
| NegativeLabels.ClassifyCorrectsSlot | Preprocesamiento/PreprocesamientoA.py:43-44 | Wherever `Classify` accepts a row, indexing as written files it in the same group and its one-hot row names that group. The two disagree only on negative labels. |

## Left out

- Reading the file (lines 27-30): opening the path, dropping the header line into `variables_name`, splitting each line on the delimiter, and the stray `print()`. The model starts from the rows as a sequence of field sequences.
- The dtype of the tensors. The source hands the raw field strings to `tf.constant` for the features. For the one-hot indices it hands the raw label strings with dtype `int32`. The model keeps the features as the abstract `T` and passes the parsed class index to `OneHot`. TensorFlow's string-to-number conversion is not part of this model. As written, TensorFlow does not convert these strings and the call raises `TypeError` for every non-empty class. The model passes the parsed index, the evidently intended input.
- Floating point. The test fraction and the product `n * p` are exact reals, so a product that a binary float would land just beside a .5 tie is not modelled.
- The keyword spelling of the `tf.slice` calls. `tf.slice` takes `input_`. The calls at lines 89 and 101 pass `input=` and raise `TypeError` as written. The model gives all four calls the intended slice semantics.
- `Preprocessing.GroupByClass`: stores the parsed class index in the label lists; the source stores the raw label field. The model hands `int(target)` to `OneHot`; the source hands TensorFlow the raw label strings (which TensorFlow rejects; see the dtype line above).
- Error values replace exceptions. `ValueError`, `IndexError` from an empty group or from a label beyond the groups, and TensorFlow's shape errors become `Err` results that name the cause. `get_data` reports the first failure in the order the source would meet it.

## Findings

| source | as written | input that shows it | evidently intended | confidence | as-written member | corrected member |
|---|---|---|---|---|---|---|
| Preprocesamiento/PreprocesamientoA.py:43-44 | `data_by_class[int(target)]` uses Python indexing, so a label in `[-num_class, -1]` is filed with a class counted from the end instead of raising. Once the label is parsed, as the model does, its one-hot row is all zeros. | A row `7,-1` with two classes is filed with class 1. Once the label is parsed, as the model does, its label row is `[0,0]`, not `[0,1]`. | A label outside `[0, num_class)` is a fatal structural error. | not executed | NegativeLabels.NegativeLabelMisfiled | Preprocessing.Classify |
