// What the two interpreter-less TFLM back ends share: the element count of
// a tensor as the product of its dimensions, and the slicing of one flat
// input across every input tensor of the model, in order.

module RmfApi {
  import opened Common
  import opened Profiling

  /**
   * The tflm_rmf_apis_t table as seen by the runtime: model and buffer
   * sizes, whether model_init succeeds, and tensor 0's parameters.
   * `timeSteps` is the second entry of input tensor 0's dims data.
   */
  datatype Rmf = Rmf(
    modelDataSize: int, modelBufferSize: int, initOk: bool,
    inputPtr: Ptr, inputDims: seq<int>, inputZeroPoint: int, inputScale: real, timeSteps: int,
    outputPtr: Ptr, outputDims: seq<int>, outputZeroPoint: int, outputScale: real)

  // ---------------------------------------------------------------------
  // Element counts.

  /** The product of the dimensions, multiplied in from the left as the counting loop does. */
  function Product(dims: seq<int>): int
  {
    if |dims| == 0 then 1 else Product(dims[..|dims| - 1]) * dims[|dims| - 1]
  }

  /** input_elements / output_elements: the product of tensor 0's dimensions, starting from 1. */
  method Elements(dims: seq<int>) returns (count: int)
    ensures count == Product(dims)
  {
    count := 1;
    var i := 0;
    while i < |dims|
      invariant 0 <= i <= |dims|
      invariant count == Product(dims[..i])
    {
      assert dims[..i + 1][..i] == dims[..i];
      count := count * dims[i];
      i := i + 1;
    }
    assert dims[..i] == dims;
  }

  /** A tensor holds no elements exactly when one of its dimensions is 0; a scalar (no dimensions) holds one. */
  lemma {:induction false} ProductZero(dims: seq<int>)
    ensures Product(dims) == 0 <==> exists i :: 0 <= i < |dims| && dims[i] == 0
    ensures |dims| == 0 ==> Product(dims) == 1
  {
    if |dims| > 0 {
      var init := dims[..|dims| - 1];
      ProductZero(init);
      if exists i :: 0 <= i < |init| && init[i] == 0 {
        var i :| 0 <= i < |init| && init[i] == 0;
        assert dims[i] == 0;
      }
      if exists i :: 0 <= i < |dims| && dims[i] == 0 {
        var i :| 0 <= i < |dims| && dims[i] == 0;
        if i < |init| {
          assert init[i] == 0;
        }
      }
    }
  }

  /** With positive dimensions the count is positive and no smaller than any dimension. */
  lemma {:induction false} ProductPositive(dims: seq<int>)
    requires forall i :: 0 <= i < |dims| ==> dims[i] > 0
    ensures Product(dims) >= 1
    ensures forall i :: 0 <= i < |dims| ==> dims[i] <= Product(dims)
  {
    if |dims| > 0 {
      var init := dims[..|dims| - 1];
      var last := dims[|dims| - 1];
      ProductPositive(init);
      assert Product(dims) == Product(init) * last;
      forall i | 0 <= i < |dims|
        ensures dims[i] <= Product(dims)
      {
        if i < |init| {
          assert init[i] == dims[i];
          assert Product(init) * last >= Product(init);
        } else {
          assert Product(init) * last >= last;
        }
      }
    }
  }

  // ---------------------------------------------------------------------
  // Input slicing.

  /** The element counts of the input tensors. */
  function Lengths(tensors: seq<array<real>>): (lens: seq<nat>)
    ensures |lens| == |tensors|
    ensures forall i :: 0 <= i < |tensors| ==> lens[i] == tensors[i].Length
  {
    seq(|tensors|, i requires 0 <= i < |tensors| => tensors[i].Length)
  }

  /** The consecutive slices of `xs` whose lengths are `lens`, starting at the front. */
  function Slices(xs: seq<real>, lens: seq<nat>): (parts: seq<seq<real>>)
    requires Sum(lens) <= |xs|
    ensures |parts| == |lens|
  {
    if |lens| == 0 then []
    else Slices(xs, lens[..|lens| - 1]) + [xs[Sum(lens[..|lens| - 1]) .. Sum(lens)]]
  }

  /** The concatenation of a sequence of sequences. */
  function Concat(parts: seq<seq<real>>): seq<real>
  {
    if |parts| == 0 then [] else Concat(parts[..|parts| - 1]) + parts[|parts| - 1]
  }

  /** A prefix of the lengths never adds up to more than all of them. */
  lemma {:induction false} SumPrefix(lens: seq<nat>, i: nat)
    requires i <= |lens|
    ensures Sum(lens[..i]) <= Sum(lens)
  {
    if i < |lens| {
      var init := lens[..|lens| - 1];
      assert lens[..i] == init[..i];
      SumPrefix(init, i);
    } else {
      assert lens[..i] == lens;
    }
  }

  /** Slice i starts where the first i lengths end and is lens[i] long. */
  lemma {:induction false} SliceAt(xs: seq<real>, lens: seq<nat>, i: nat)
    requires Sum(lens) <= |xs| && i < |lens|
    ensures Sum(lens[..i]) + lens[i] <= Sum(lens)
    ensures Slices(xs, lens)[i] == xs[Sum(lens[..i]) .. Sum(lens[..i]) + lens[i]]
  {
    var n := |lens|;
    var init := lens[..n - 1];
    if i == n - 1 {
      assert lens[..i] == init;
    } else {
      SumPrefix(lens, n - 1);
      SliceAt(xs, init, i);
      assert init[..i] == lens[..i];
      assert Slices(xs, lens)[i] == Slices(xs, init)[i];
    }
  }

  /** The slices, put back together, are exactly the first Sum(lens) elements, in order. */
  lemma {:induction false} SlicesTile(xs: seq<real>, lens: seq<nat>)
    requires Sum(lens) <= |xs|
    ensures Concat(Slices(xs, lens)) == xs[..Sum(lens)]
  {
    if |lens| > 0 {
      var init := lens[..|lens| - 1];
      SumPrefix(lens, |lens| - 1);
      SlicesTile(xs, init);
      var parts := Slices(xs, lens);
      assert parts[..|parts| - 1] == Slices(xs, init);
      assert xs[..Sum(lens)] == xs[..Sum(init)] + xs[Sum(init) .. Sum(lens)];
    }
  }

  /** memcpy of one tensor's worth of elements, starting at `from` in the flat input. */
  method CopyInto(dst: array<real>, src: array<real>, from: nat)
    requires from + dst.Length <= src.Length && dst != src
    modifies dst
    ensures dst[..] == src[from .. from + dst.Length]
  {
    var i := 0;
    while i < dst.Length
      invariant 0 <= i <= dst.Length
      invariant dst[..i] == src[from .. from + i]
    {
      dst[i] := src[from + i];
      i := i + 1;
    }
  }

  /**
   * The input loop of run: tensor i receives its element count of values,
   * starting where tensor i-1's ended, so each tensor holds its slice of
   * the flat input.
   */
  method SetInputs(tensors: seq<array<real>>, input: array<real>)
    requires Sum(Lengths(tensors)) <= input.Length
    requires forall i :: 0 <= i < |tensors| ==> tensors[i] != input
    requires forall i, j :: 0 <= i < j < |tensors| ==> tensors[i] != tensors[j]
    modifies set t | t in tensors
    ensures forall i :: 0 <= i < |tensors| ==> tensors[i][..] == Slices(old(input[..]), Lengths(tensors))[i]
  {
    ghost var xs := input[..];
    ghost var lens := Lengths(tensors);
    var pos := 0;
    var i := 0;
    while i < |tensors|
      invariant 0 <= i <= |tensors|
      invariant pos == Sum(lens[..i])
      invariant input[..] == xs
      invariant forall k :: 0 <= k < i ==> tensors[k][..] == Slices(xs, lens)[k]
    {
      SliceAt(xs, lens, i);
      CopyInto(tensors[i], input, pos);
      assert lens[..i + 1][..i] == lens[..i];
      pos := pos + tensors[i].Length;
      i := i + 1;
    }
  }
}
