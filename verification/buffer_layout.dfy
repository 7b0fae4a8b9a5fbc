/**
 * `BufferElement` and `BufferLayout`: the byte shape of one vertex, as a
 * sequence of typed elements with running-sum offsets and a stride.
 */
module BufferLayouts {
  import opened Ints
  import opened ShaderDataTypes

  /** One attribute of a vertex. Every field is public in the source. */
  datatype BufferElement = BufferElement(dataType: ShaderDataType, size: u32, offset: u32, normalised: bool)

  /** `BufferElement(dataType, normalised = false)`. */
  function MakeElement(dataType: ShaderDataType, normalised: bool := false): (e: BufferElement)
    ensures e.dataType == dataType && e.normalised == normalised
    ensures e.size == Size(dataType) && e.offset == 0
  {
    BufferElement(dataType, Size(dataType), 0, normalised)
  }

  /** The exact (unwrapped) total of the sizes of `es`. */
  function SumSizes(es: seq<BufferElement>): nat
  {
    if es == [] then 0 else SumSizes(es[..|es| - 1]) + es[|es| - 1].size
  }

  /** The value of a layout: its elements in order and its stride. */
  datatype Layout = Layout(elements: seq<BufferElement>, stride: u32)

  /** Two element sequences agree on everything but the offsets. */
  predicate SameDescriptions(a: seq<BufferElement>, b: seq<BufferElement>)
  {
    |a| == |b| &&
    forall i :: 0 <= i < |a| ==>
      a[i].dataType == b[i].dataType && a[i].size == b[i].size && a[i].normalised == b[i].normalised
  }

  /**
   * What `calcStrideAndOffset` leaves: each element's offset is the uint32_t
   * running sum of the sizes before it, and a zero stride becomes the total.
   */
  function Recompute(l: Layout): (r: Layout)
    ensures SameDescriptions(r.elements, l.elements)
    ensures l.stride != 0 ==> r.stride == l.stride
    ensures l.stride == 0 ==> r.stride == Wrap32(SumSizes(l.elements))
  {
    Layout(
      seq(|l.elements|, i requires 0 <= i < |l.elements| =>
        l.elements[i].(offset := Wrap32(SumSizes(l.elements[..i])))),
      if l.stride == 0 then Wrap32(SumSizes(l.elements)) else l.stride)
  }

  /** Sequences with the same sizes have the same totals. */
  lemma {:induction false} SumSizesOnlyReadsSizes(a: seq<BufferElement>, b: seq<BufferElement>)
    requires |a| == |b|
    requires forall i :: 0 <= i < |a| ==> a[i].size == b[i].size
    ensures SumSizes(a) == SumSizes(b)
  {
    if a != [] {
      SumSizesOnlyReadsSizes(a[..|a| - 1], b[..|b| - 1]);
    }
  }

  /** Element 0 is at offset 0 and each next offset adds the previous size (modulo 2^32). */
  lemma RecomputeRunningSum(l: Layout, i: nat)
    requires i + 1 < |l.elements|
    ensures Recompute(l).elements[0].offset == 0
    ensures Recompute(l).elements[i + 1].offset ==
            Wrap32(Recompute(l).elements[i].offset + Recompute(l).elements[i].size)
  {
    var es := l.elements;
    assert es[..0] == [];
    assert es[..i + 1][..i] == es[..i];
    WrapAdd(SumSizes(es[..i]), es[i].size);
  }

  /** When the sizes fit in 32 bits, every offset is the exact sum of the sizes before it. */
  lemma RecomputeOffsetIsExactSum(l: Layout, i: nat)
    requires i < |l.elements|
    requires SumSizes(l.elements) < TWO_TO_THE_32
    ensures Recompute(l).elements[i].offset == SumSizes(l.elements[..i])
  {
    SumSizesPrefix(l.elements, i);
  }

  /** A prefix's total is at most the whole total. */
  lemma {:induction false} SumSizesPrefix(es: seq<BufferElement>, i: nat)
    requires i <= |es|
    ensures SumSizes(es[..i]) <= SumSizes(es)
  {
    if i < |es| {
      assert es[..|es| - 1][..i] == es[..i];
      SumSizesPrefix(es[..|es| - 1], i);
    } else {
      assert es[..i] == es;
    }
  }

  /** A recompute only rewrites what it already wrote: applying it twice changes nothing more. */
  lemma RecomputeIdempotent(l: Layout)
    ensures Recompute(Recompute(l)) == Recompute(l)
  {
    var r := Recompute(l);
    forall i | 0 <= i <= |l.elements|
      ensures SumSizes(r.elements[..i]) == SumSizes(l.elements[..i])
    {
      SumSizesOnlyReadsSizes(r.elements[..i], l.elements[..i]);
    }
    assert r.elements[..|r.elements|] == r.elements;
    assert l.elements[..|l.elements|] == l.elements;
  }

  /**
   * What `addElement` leaves: the element is appended after the old ones,
   * then offsets (and a zero stride) are recomputed.
   */
  function AppendElement(l: Layout, e: BufferElement): (r: Layout)
    ensures |r.elements| == |l.elements| + 1
    ensures SameDescriptions(r.elements[..|l.elements|], l.elements)
    ensures r.elements[|l.elements|] == e.(offset := Wrap32(SumSizes(l.elements)))
    ensures l.stride != 0 ==> r.stride == l.stride
  {
    var r := Recompute(Layout(l.elements + [e], l.stride));
    assert (l.elements + [e])[..|l.elements|] == l.elements;
    r
  }

  /**
   * The stride `addElement` leaves on a layout whose stride is already
   * non-zero (in particular one whose zero stride a previous recompute filled
   * in) does not cover the appended element.
   */
  lemma AddElementLeavesStrideStale(l: Layout, e: BufferElement)
    requires l.stride != 0
    requires l.stride == SumSizes(l.elements)
    requires e.size > 0
    requires SumSizes(l.elements) + e.size < TWO_TO_THE_32
    ensures AppendElement(l, e).stride == l.stride
    ensures AppendElement(l, e).stride < SumSizes(AppendElement(l, e).elements)
  {
    var r := AppendElement(l, e);
    SumSizesOnlyReadsSizes(r.elements, l.elements + [e]);
    assert (l.elements + [e])[..|l.elements|] == l.elements;
  }

  /** `{Float3}` with its stride filled in (12), then `addElement(Float2)`: the stride stays 12, not 20. */
  lemma AddElementStaleExample()
    ensures var l := Recompute(Layout([MakeElement(Float3)], 0));
            l.stride == 12 && AppendElement(l, MakeElement(Float2)).stride == 12 &&
            SumSizes(AppendElement(l, MakeElement(Float2)).elements) == 20
  {
    var l := Recompute(Layout([MakeElement(Float3)], 0));
    assert [MakeElement(Float3)][..0] == [];
    var r := AppendElement(l, MakeElement(Float2));
    SumSizesOnlyReadsSizes(r.elements, [MakeElement(Float3), MakeElement(Float2)]);
    assert [MakeElement(Float3), MakeElement(Float2)][..1] == [MakeElement(Float3)];
  }

  /**
   * The evident intent of `addElement`: a stride the user never gave is
   * recomputed from all elements, a stride given explicitly is kept.
   */
  function AppendElementIntended(l: Layout, e: BufferElement, strideGiven: bool): (r: Layout)
    ensures |r.elements| == |l.elements| + 1
    ensures r.elements[|l.elements|] == e.(offset := Wrap32(SumSizes(l.elements)))
    ensures strideGiven && l.stride != 0 ==> r.stride == l.stride
    ensures !strideGiven || l.stride == 0 ==> r.stride == Wrap32(SumSizes(r.elements))
  {
    var appended := l.elements + [e];
    var r := Recompute(Layout(appended, if strideGiven then l.stride else 0));
    assert appended[..|l.elements|] == l.elements;
    SumSizesOnlyReadsSizes(r.elements, appended);
    r
  }

  /** The loop of `calcStrideAndOffset`: each element gets the running offset, which ends at the total. */
  method RunningOffsets(es: seq<BufferElement>) returns (out: seq<BufferElement>, offset: u32)
    ensures out == Recompute(Layout(es, 0)).elements
    ensures offset == Wrap32(SumSizes(es))
  {
    out := es;
    offset := 0;
    var i := 0;
    while i < |es|
      invariant 0 <= i <= |es| == |out|
      invariant offset == Wrap32(SumSizes(es[..i]))
      invariant forall k :: 0 <= k < i ==> out[k] == es[k].(offset := Wrap32(SumSizes(es[..k])))
      invariant forall k :: i <= k < |es| ==> out[k] == es[k]
    {
      assert es[..i + 1][..i] == es[..i];
      WrapAdd(SumSizes(es[..i]), es[i].size);
      out := out[i := es[i].(offset := offset)];
      offset := Wrap32(offset + es[i].size);
      i := i + 1;
    }
    assert es[..i] == es;
  }

  /**
   * `BufferLayout`: the element vector and the stride, updated in place by
   * the constructor and `addElement` through `calcStrideAndOffset`.
   */
  class BufferLayout {
    var elements: seq<BufferElement>
    var stride: u32
    /** Whether the stride was given to the constructor rather than computed. */
    var strideGiven: bool

    function Value(): Layout
      reads this
    {
      Layout(elements, stride)
    }

    /** `BufferLayout(initializer_list, stride = 0)`: stores the list and the stride, then recomputes. */
    constructor (es: seq<BufferElement>, givenStride: u32 := 0)
      ensures Value() == Recompute(Layout(es, givenStride))
      ensures strideGiven <==> givenStride != 0
    {
      elements := es;
      stride := givenStride;
      strideGiven := givenStride != 0;
      new;
      CalcStrideAndOffset();
    }

    /** `getStride`. */
    function GetStride(): (s: u32)
      reads this
      ensures s == stride
    {
      stride
    }

    /** The elements in iteration (`begin` to `end`) order. */
    function Elements(): (es: seq<BufferElement>)
      reads this
      ensures es == elements
    {
      elements
    }

    /**
     * `addElement`: push_back, then recompute, with the stale-stride defect
     * corrected: a stride that was computed rather than given is recomputed
     * over all elements (`AppendElement` is the behaviour as written).
     */
    method AddElement(e: BufferElement)
      modifies this
      ensures Value() == AppendElementIntended(old(Value()), e, old(strideGiven))
      ensures strideGiven == old(strideGiven)
    {
      elements := elements + [e];
      if !strideGiven {
        stride := 0;
      }
      CalcStrideAndOffset();
    }

    /** `calcStrideAndOffset`: the running-offset loop, then the stride fill-in. */
    method CalcStrideAndOffset()
      modifies this
      ensures Value() == Recompute(old(Value()))
      ensures strideGiven == old(strideGiven)
    {
      var out, total := RunningOffsets(elements);
      elements := out;
      if stride == 0 {
        stride := total;
      }
    }
  }
}
