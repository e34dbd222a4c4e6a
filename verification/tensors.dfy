/** The tensor operations the TensorFlow container relies on, for rank-2
    tensors: `tf.concat` along an axis and `tf.split` by a list of sizes. */
module Tensors {
  import opened Results

  /** A row-major matrix; `cols` is kept explicitly so that a tensor with
      no rows still has a width. */
  datatype Matrix<T> = Matrix(cols: nat, rows: seq<seq<T>>)

  predicate Rectangular<T>(m: Matrix<T>) {
    forall i :: 0 <= i < |m.rows| ==> |m.rows[i]| == m.cols
  }

  /** A rank-2 tensor: every row has `cols` elements. */
  type Tensor<T> = m: Matrix<T> | Rectangular(m) witness Matrix(0, [])

  /** A normalised axis of a rank-2 tensor. */
  type Axis = a: nat | a < 2

  /** The axis that is not `a`. */
  function Other(a: Axis): Axis {
    1 - a
  }

  /** `tensor.shape[a]`. */
  function Extent<T>(t: Tensor<T>, a: Axis): nat {
    if a == 0 then |t.rows| else t.cols
  }

  /** TensorFlow's axis argument for a rank-2 tensor: 0 and 1, or -2 and -1
      counted from the end; anything else is refused. */
  function NormalizeAxis(d: int): (r: Result<Axis>)
    ensures r.Ok? <==> -2 <= d < 2
    ensures r.Ok? ==> r.value == d % 2
  {
    if 0 <= d < 2 then Ok(d)
    else if -2 <= d < 0 then Ok(d + 2)
    else Err(BadShape("axis out of range"))
  }

  /** Two tensors can be joined along `a` when they agree on the other axis. */
  predicate Compatible<T>(x: Tensor<T>, y: Tensor<T>, a: Axis) {
    Extent(x, Other(a)) == Extent(y, Other(a))
  }

  /** `tf.concat([x, y], a)`. */
  function Join<T>(x: Tensor<T>, y: Tensor<T>, a: Axis): (r: Tensor<T>)
    requires Compatible(x, y, a)
    ensures Extent(r, a) == Extent(x, a) + Extent(y, a)
    ensures Extent(r, Other(a)) == Extent(x, Other(a))
  {
    if a == 0 then Matrix(x.cols, x.rows + y.rows)
    else Matrix(x.cols + y.cols, seq(|x.rows|, i requires 0 <= i < |x.rows| => x.rows[i] + y.rows[i]))
  }

  /** The first `n` slices of `t` along `a`. */
  function Take<T>(t: Tensor<T>, n: nat, a: Axis): (r: Tensor<T>)
    requires n <= Extent(t, a)
    ensures Extent(r, a) == n && Extent(r, Other(a)) == Extent(t, Other(a))
  {
    if a == 0 then Matrix(t.cols, t.rows[..n])
    else Matrix(n, seq(|t.rows|, i requires 0 <= i < |t.rows| => t.rows[i][..n]))
  }

  /** All but the first `n` slices of `t` along `a`. */
  function Drop<T>(t: Tensor<T>, n: nat, a: Axis): (r: Tensor<T>)
    requires n <= Extent(t, a)
    ensures Extent(r, a) == Extent(t, a) - n && Extent(r, Other(a)) == Extent(t, Other(a))
  {
    if a == 0 then Matrix(t.cols, t.rows[n..])
    else Matrix(t.cols - n, seq(|t.rows|, i requires 0 <= i < |t.rows| => t.rows[i][n..]))
  }

  /** Taking the first operand's extent back out of a join gives the
      operands back. */
  lemma TakeDropJoin<T>(x: Tensor<T>, y: Tensor<T>, a: Axis)
    requires Compatible(x, y, a)
    ensures Take(Join(x, y, a), Extent(x, a), a) == x
    ensures Drop(Join(x, y, a), Extent(x, a), a) == y
  {
  }

  /** Joining the two halves of a cut gives the tensor back. */
  lemma JoinTakeDrop<T>(t: Tensor<T>, n: nat, a: Axis)
    requires n <= Extent(t, a)
    ensures Join(Take(t, n, a), Drop(t, n, a), a) == t
  {
    var j := Join(Take(t, n, a), Drop(t, n, a), a);
    if a == 1 {
      assert forall i | 0 <= i < |t.rows| :: j.rows[i] == t.rows[i][..n] + t.rows[i][n..];
      assert forall i | 0 <= i < |t.rows| :: t.rows[i][..n] + t.rows[i][n..] == t.rows[i];
      assert j.rows == t.rows;
    } else {
      assert t.rows[..n] + t.rows[n..] == t.rows;
    }
  }

  /** Dropping nothing keeps the tensor. */
  lemma DropNothing<T>(t: Tensor<T>, a: Axis)
    ensures Drop(t, 0, a) == t
  {
  }

  // ---------------------------------------------------------------------
  // Sums of sizes

  /** The sum of a list, accumulated from the left. */
  function Sum(xs: seq<int>): int {
    if |xs| == 0 then 0 else Sum(xs[..|xs| - 1]) + xs[|xs| - 1]
  }

  predicate AllNonNegative(xs: seq<int>) {
    forall i :: 0 <= i < |xs| ==> xs[i] >= 0
  }

  lemma {:induction false} SumNonNegative(xs: seq<int>)
    requires AllNonNegative(xs)
    ensures Sum(xs) >= 0
  {
    if |xs| > 0 {
      SumNonNegative(xs[..|xs| - 1]);
    }
  }

  /** The extents of a list of tensors along `a`. */
  function Extents<T>(bs: seq<Tensor<T>>, a: Axis): (r: seq<int>)
    ensures |r| == |bs| && AllNonNegative(r)
    ensures forall i :: 0 <= i < |bs| ==> r[i] == Extent(bs[i], a)
  {
    seq(|bs|, i requires 0 <= i < |bs| => Extent(bs[i], a))
  }

  // ---------------------------------------------------------------------
  // Concatenation and splitting of many tensors

  /** The tensors agree on the axis that is not `a`. */
  predicate SameOther<T>(bs: seq<Tensor<T>>, a: Axis) {
    forall i :: 0 <= i < |bs| ==> Extent(bs[i], Other(a)) == Extent(bs[0], Other(a))
  }

  /** Concatenation of a non-empty list of compatible tensors, joining from
      the left. */
  function ConcatAll<T>(bs: seq<Tensor<T>>, a: Axis): (r: Tensor<T>)
    requires |bs| > 0 && SameOther(bs, a)
    ensures Extent(r, a) == Sum(Extents(bs, a))
    ensures Extent(r, Other(a)) == Extent(bs[0], Other(a))
  {
    if |bs| == 1 then
      bs[0]
    else
      var front := bs[..|bs| - 1];
      assert Extents(bs, a)[..|bs| - 1] == Extents(front, a);
      Join(ConcatAll(front, a), bs[|bs| - 1], a)
  }

  /** Splits `t` along `a` into consecutive pieces of the given sizes, which
      must add up to the extent; the last piece is cut off first. */
  function SplitAll<T>(t: Tensor<T>, sizes: seq<int>, a: Axis): (r: seq<Tensor<T>>)
    requires AllNonNegative(sizes) && Sum(sizes) == Extent(t, a)
    ensures |r| == |sizes|
    ensures forall i :: 0 <= i < |r| ==> Extent(r[i], a) == sizes[i]
    ensures forall i :: 0 <= i < |r| ==> Extent(r[i], Other(a)) == Extent(t, Other(a))
    decreases |sizes|
  {
    if |sizes| == 0 then
      []
    else
      var front := sizes[..|sizes| - 1];
      SumNonNegative(front);
      var cut := Sum(front);
      SplitAll(Take(t, cut, a), front, a) + [Drop(t, cut, a)]
  }

  /** Splitting a concatenation by the pieces' extents gives the pieces back. */
  lemma {:induction false} SplitConcat<T>(bs: seq<Tensor<T>>, a: Axis)
    requires |bs| > 0 && SameOther(bs, a)
    ensures SplitAll(ConcatAll(bs, a), Extents(bs, a), a) == bs
  {
    var sizes := Extents(bs, a);
    var whole := ConcatAll(bs, a);
    var n := |bs|;
    var front := bs[..n - 1];
    assert sizes[..n - 1] == Extents(front, a);
    if n == 1 {
      assert sizes[..0] == [];
      DropNothing(bs[0], a);
    } else {
      var head := ConcatAll(front, a);
      assert whole == Join(head, bs[n - 1], a);
      TakeDropJoin(head, bs[n - 1], a);
      SplitConcat(front, a);
      assert bs == front + [bs[n - 1]];
    }
  }

  /** Concatenating the pieces of a split gives the tensor back. */
  lemma {:induction false} ConcatSplit<T>(t: Tensor<T>, sizes: seq<int>, a: Axis)
    requires |sizes| > 0 && AllNonNegative(sizes) && Sum(sizes) == Extent(t, a)
    ensures SameOther(SplitAll(t, sizes, a), a)
    ensures ConcatAll(SplitAll(t, sizes, a), a) == t
    decreases |sizes|
  {
    var pieces := SplitAll(t, sizes, a);
    var n := |sizes|;
    var front := sizes[..n - 1];
    SumNonNegative(front);
    var cut := Sum(front);
    var init := SplitAll(Take(t, cut, a), front, a);
    assert pieces == init + [Drop(t, cut, a)];
    assert pieces[..n - 1] == init;
    if n == 1 {
      assert cut == 0;
      DropNothing(t, a);
    } else {
      ConcatSplit(Take(t, cut, a), front, a);
      JoinTakeDrop(t, cut, a);
    }
  }

  // ---------------------------------------------------------------------
  // The TensorFlow entry points

  /** `tf.concat(bs, axis=d)`: a single tensor is returned as it is, with
      no range check on the axis; otherwise the axis must exist, the list
      must not be empty, and the tensors must agree on the other axis. */
  function Concat<T>(bs: seq<Tensor<T>>, d: int): (r: Result<Tensor<T>>)
    ensures r.Ok? <==> |bs| == 1 || (-2 <= d < 2 && |bs| > 0 && SameOther(bs, d % 2))
    ensures r.Ok? ==> r.value == ConcatAll(bs, d % 2)
    ensures |bs| == 1 ==> r == Ok(bs[0])
  {
    if |bs| == 1 then Ok(bs[0])
    else
    var a :- NormalizeAxis(d);
    if |bs| == 0 then Err(BadShape("concat of an empty list"))
    else if !SameOther(bs, a) then Err(BadShape("dimensions of inputs should match"))
    else Ok(ConcatAll(bs, a))
  }

  /** `tf.split(t, sizes, axis=d)`: the axis must exist, there must be at
      least one size, none negative, and they must add up to the extent. */
  function Split<T>(t: Tensor<T>, sizes: seq<int>, d: int): (r: Result<seq<Tensor<T>>>)
    ensures r.Ok? <==> -2 <= d < 2 && |sizes| > 0 && AllNonNegative(sizes) && Sum(sizes) == Extent(t, d % 2)
    ensures r.Ok? ==> r.value == SplitAll(t, sizes, d % 2)
  {
    var a :- NormalizeAxis(d);
    if |sizes| == 0 then Err(BadShape("split into no pieces"))
    else if !AllNonNegative(sizes) then Err(BadShape("negative split size"))
    else if Sum(sizes) != Extent(t, a) then Err(BadShape("split sizes do not add up to the dimension"))
    else Ok(SplitAll(t, sizes, a))
  }
}
