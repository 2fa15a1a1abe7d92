/**
 * The numeric-array primitives the preprocessor calls, as functions on values with the
 * shape contracts the array library documents: building a rank-2 tensor of a given shape
 * from nested lists, one-hot encoding a vector of indices, slicing a block out of a
 * rank-2 tensor, and concatenating rank-2 tensors along the row axis.
 */
module Tensors {
  import opened Wrappers

  /** A rank-2 tensor: its rows, and the size of its second axis (kept even with no rows). */
  datatype Matrix<T> = Matrix(rows: seq<seq<T>>, cols: nat)

  predicate Rectangular<T>(value: seq<seq<T>>, cols: nat) {
    forall i | 0 <= i < |value| :: |value[i]| == cols
  }

  predicate WellShaped<T>(m: Matrix<T>) {
    Rectangular(m.rows, m.cols)
  }

  /** A sequence of `n` copies of `x`. */
  function Repeat<X>(x: X, n: nat): (r: seq<X>)
    ensures |r| == n && forall i | 0 <= i < n :: r[i] == x
  {
    seq(n, _ => x)
  }

  // ---------------------------------------------------------------------------
  // tf.constant(value, shape = [rows, cols])
  // ---------------------------------------------------------------------------

  /** Building a tensor of shape [rows, cols] from nested lists succeeds exactly when the
      lists have that shape, and then holds the given rows unchanged. */
  function Constant<T>(value: seq<seq<T>>, rows: nat, cols: nat): (r: Option<Matrix<T>>)
    ensures r.Some? <==> |value| == rows && Rectangular(value, cols)
    ensures r.Some? ==> WellShaped(r.value) && r.value.rows == value && r.value.cols == cols
  {
    if |value| == rows && Rectangular(value, cols) then Some(Matrix(value, cols)) else None
  }

  // ---------------------------------------------------------------------------
  // tf.one_hot(indices, depth)
  // ---------------------------------------------------------------------------

  /** The one-hot row for index `k`: 1 in column `k`, 0 elsewhere; all 0 when `k` is
      not a column (the library's rule for an out-of-range index). */
  function UnitRow(k: int, depth: nat): (r: seq<int>)
    ensures |r| == depth
    ensures 0 <= k < depth ==> r[k] == 1
  {
    seq(depth, j => if j == k then 1 else 0)
  }

  function OneHot(indices: seq<int>, depth: nat): (r: Matrix<int>)
    ensures WellShaped(r) && r.cols == depth && |r.rows| == |indices|
    ensures forall i | 0 <= i < |indices| :: r.rows[i] == UnitRow(indices[i], depth)
  {
    Matrix(seq(|indices|, i requires 0 <= i < |indices| => UnitRow(indices[i], depth)), depth)
  }

  /** The sum of a label row. */
  function RowSum(row: seq<int>): int
  {
    if row == [] then 0 else RowSum(row[..|row| - 1]) + row[|row| - 1]
  }

  /** The first column of a label row holding a 1: the class a one-hot row encodes. */
  function HotIndex(row: seq<int>): (r: Option<nat>)
    ensures r.Some? ==> r.value < |row| && row[r.value] == 1
    ensures r.Some? ==> forall j | 0 <= j < r.value :: row[j] != 1
    ensures r.None? <==> forall j | 0 <= j < |row| :: row[j] != 1
  {
    if row == [] then None
    else if row[0] == 1 then Some(0)
    else match HotIndex(row[1..])
      case None => None
      case Some(j) => Some(j + 1)
  }

  /** A one-hot row of an in-range class has entries in {0, 1}, exactly one 1 (so its
      entries sum to 1), and that 1 sits in the class's column; an out-of-range index
      gives a row of zeros. */
  lemma {:induction false} UnitRowIsOneHot(k: int, depth: nat)
    ensures forall j | 0 <= j < depth :: UnitRow(k, depth)[j] == 0 || UnitRow(k, depth)[j] == 1
    ensures RowSum(UnitRow(k, depth)) == if 0 <= k < depth then 1 else 0
    ensures HotIndex(UnitRow(k, depth)) == if 0 <= k < depth then Some(k as nat) else None
  {
    if depth > 0 {
      UnitRowIsOneHot(k, depth - 1);
      assert UnitRow(k, depth)[..depth - 1] == UnitRow(k, depth - 1);
    }
  }

  // ---------------------------------------------------------------------------
  // tf.slice(input, begin = [b0, b1], size = [s0, s1])
  // ---------------------------------------------------------------------------

  function Slice<T>(m: Matrix<T>, begin: (nat, nat), size: (nat, nat)): (r: Matrix<T>)
    requires WellShaped(m)
    requires begin.0 + size.0 <= |m.rows| && begin.1 + size.1 <= m.cols
    ensures WellShaped(r) && |r.rows| == size.0 && r.cols == size.1
    ensures forall i | 0 <= i < size.0 :: r.rows[i] == m.rows[begin.0 + i][begin.1..begin.1 + size.1]
  {
    Matrix(seq(size.0, i requires 0 <= i < size.0 => m.rows[begin.0 + i][begin.1..begin.1 + size.1]), size.1)
  }

  /** A slice that starts at column 0 and spans the full width is the block of whole rows
      [b, b + s) of the tensor. */
  lemma SliceWholeRows<T>(m: Matrix<T>, b: nat, s: nat)
    requires WellShaped(m) && b + s <= |m.rows|
    ensures Slice(m, (b, 0), (s, m.cols)) == Matrix(m.rows[b..b + s], m.cols)
  {
    var r := Slice(m, (b, 0), (s, m.cols));
    forall i | 0 <= i < s ensures r.rows[i] == m.rows[b..b + s][i] {
      assert m.rows[b + i][0..m.cols] == m.rows[b + i];
    }
  }

  // ---------------------------------------------------------------------------
  // tf.concat(values, axis = 0)
  // ---------------------------------------------------------------------------

  /** The blocks of a sequence laid end to end. */
  function Flatten<X>(xss: seq<seq<X>>): seq<X>
  {
    if xss == [] then [] else Flatten(xss[..|xss| - 1]) + xss[|xss| - 1]
  }

  function RowsOf<T>(blocks: seq<Matrix<T>>): (r: seq<seq<seq<T>>>)
    ensures |r| == |blocks| && forall i | 0 <= i < |blocks| :: r[i] == blocks[i].rows
  {
    seq(|blocks|, i requires 0 <= i < |blocks| => blocks[i].rows)
  }

  predicate SameWidth<T>(blocks: seq<Matrix<T>>)
    requires |blocks| > 0
  {
    forall i | 0 <= i < |blocks| :: blocks[i].cols == blocks[0].cols
  }

  /** Concatenation along the row axis: it needs at least one tensor and all tensors of one
      width, and then lays their rows end to end in list order. */
  function Concat<T>(blocks: seq<Matrix<T>>): (r: Option<Matrix<T>>)
    ensures r.Some? <==> |blocks| > 0 && SameWidth(blocks)
    ensures r.Some? ==> r.value.rows == Flatten(RowsOf(blocks)) && r.value.cols == blocks[0].cols
  {
    if |blocks| > 0 && SameWidth(blocks) then Some(Matrix(Flatten(RowsOf(blocks)), blocks[0].cols)) else None
  }

  /** Stacking two blocks of equal width puts the second's rows under the first's. */
  lemma ConcatPair<T>(top: Matrix<T>, bottom: Matrix<T>)
    requires top.cols == bottom.cols
    ensures Concat([top, bottom]) == Some(Matrix(top.rows + bottom.rows, top.cols))
  {
    var blocks := [top, bottom];
    assert SameWidth(blocks);
    assert RowsOf(blocks) == [top.rows, bottom.rows];
    assert [top.rows, bottom.rows][..1] == [top.rows] && [top.rows][..0] == [];
    assert Flatten([top.rows]) == top.rows;
  }

  /** Laying blocks end to end distributes over sequence concatenation. */
  lemma {:induction false} FlattenConcat<X>(a: seq<seq<X>>, b: seq<seq<X>>)
    ensures Flatten(a + b) == Flatten(a) + Flatten(b)
  {
    if b != [] {
      var b' := b[..|b| - 1];
      assert (a + b)[..|a + b| - 1] == a + b';
      FlattenConcat(a, b');
    } else {
      assert a + b == a;
    }
  }

  /** Element `i` of block `c` sits at position |Flatten(xss[..c])| + i of the flattening. */
  lemma FlattenAt<X>(xss: seq<seq<X>>, c: nat, i: nat)
    requires c < |xss| && i < |xss[c]|
    ensures |Flatten(xss[..c])| + i < |Flatten(xss)|
    ensures Flatten(xss)[|Flatten(xss[..c])| + i] == xss[c][i]
  {
    assert xss == xss[..c] + ([xss[c]] + xss[c + 1..]);
    FlattenConcat(xss[..c], [xss[c]] + xss[c + 1..]);
    FlattenConcat([xss[c]], xss[c + 1..]);
    assert Flatten([xss[c]]) == xss[c] by {
      assert [xss[c]][..0] == [];
    }
  }

  /** Block `c` starts where the blocks before it end. */
  lemma FlattenStep<X>(xss: seq<seq<X>>, c: nat)
    requires c < |xss|
    ensures |Flatten(xss[..c + 1])| == |Flatten(xss[..c])| + |xss[c]|
  {
    assert xss[..c + 1][..c] == xss[..c];
  }

  /** When every block of `z` is the matching block of `a` followed by that of `b`, the
      elements of the flattenings of `a` and `b` together are those of `z`. */
  lemma {:induction false} FlattenSplit<X>(a: seq<seq<X>>, b: seq<seq<X>>, z: seq<seq<X>>)
    requires |a| == |b| == |z|
    requires forall i | 0 <= i < |z| :: a[i] + b[i] == z[i]
    ensures multiset(Flatten(a)) + multiset(Flatten(b)) == multiset(Flatten(z))
    ensures |Flatten(a)| + |Flatten(b)| == |Flatten(z)|
  {
    if z != [] {
      var n := |z| - 1;
      FlattenSplit(a[..n], b[..n], z[..n]);
      assert z[n] == a[n] + b[n];
    }
  }

  /** Appending `y` to block `l` adds `y` once to the elements of the flattening. */
  lemma {:induction false} FlattenBump<X>(xss: seq<seq<X>>, l: nat, y: X)
    requires l < |xss|
    ensures multiset(Flatten(xss[l := xss[l] + [y]])) == multiset(Flatten(xss)) + multiset{y}
  {
    var yss := xss[l := xss[l] + [y]];
    var n := |xss| - 1;
    if l == n {
      assert yss[..n] == xss[..n];
    } else {
      FlattenBump(xss[..n], l, y);
      assert yss[..n] == xss[..n][l := xss[l] + [y]];
    }
  }

  /** Blocks of equal lengths flatten to sequences of equal length. */
  lemma {:induction false} FlattenSameShape<X, Y>(a: seq<seq<X>>, b: seq<seq<Y>>)
    requires |a| == |b| && forall i | 0 <= i < |a| :: |a[i]| == |b[i]|
    ensures |Flatten(a)| == |Flatten(b)|
  {
    if a != [] {
      FlattenSameShape(a[..|a| - 1], b[..|b| - 1]);
    }
  }

  /** Later blocks start no earlier than earlier ones. */
  lemma {:induction false} FlattenPrefixGrows<X>(xss: seq<seq<X>>, c: nat, d: nat)
    requires c <= d <= |xss|
    ensures |Flatten(xss[..c])| <= |Flatten(xss[..d])|
  {
    if c < d {
      FlattenPrefixGrows(xss, c, d - 1);
      FlattenStep(xss, d - 1);
    }
  }

  /** In two flattenings whose blocks have equal lengths, element `i` of block `c` sits at
      the same position in both. */
  lemma FlattenAtParallel<X, Y>(a: seq<seq<X>>, b: seq<seq<Y>>, c: nat, i: nat)
    requires |a| == |b| && forall j | 0 <= j < |a| :: |a[j]| == |b[j]|
    requires c < |a| && i < |a[c]|
    ensures |Flatten(a[..c])| + i < |Flatten(a)| && Flatten(a)[|Flatten(a[..c])| + i] == a[c][i]
    ensures |Flatten(a[..c])| + i < |Flatten(b)| && Flatten(b)[|Flatten(a[..c])| + i] == b[c][i]
  {
    FlattenAt(a, c, i);
    FlattenAt(b, c, i);
    FlattenSameShape(a[..c], b[..c]);
  }
}
