/** Vertex layout description: shader data types, buffer elements, the layout
    that places the elements one after another in a vertex, and the vertex and
    index buffers that carry a layout or an index count. */
module Buffer {
  import opened Gl

  /** The types a vertex attribute can have in a shader. */
  datatype ShaderDataType =
    | None | Float | Float2 | Float3 | Float4 | Int | Int2 | Int3 | Int4 | Bool | Mat3 | Mat4

  /** Byte size of one attribute of type `t`; an unknown type (`None`) has size 0. */
  function ShaderDataTypeSize(t: ShaderDataType): (r: u32)
    ensures r <= 64
    ensures r == 0 <==> t == None
  {
    match t
    case Float => 4
    case Float2 => 4 * 2
    case Float3 => 4 * 3
    case Float4 => 4 * 4
    case Mat3 => 4 * 3 * 3
    case Mat4 => 4 * 4 * 4
    case Int => 4
    case Int2 => 4 * 2
    case Int3 => 4 * 3
    case Int4 => 4 * 4
    case Bool => 1
    case None => 0
  }

  /** One attribute of a vertex: where it sits (`offset`, in bytes from the
      start of the vertex) and how many bytes it takes (`size`). */
  datatype BufferElement = BufferElement(name: string, dataType: ShaderDataType, size: u32, offset: u32, normalized: bool)
  {
    /** How many scalar components the attribute has. */
    function ValueCount(): (r: u32)
      ensures r <= 16
      ensures r == 0 <==> dataType == None
    {
      match dataType
      case Float => 1
      case Float2 => 2
      case Float3 => 3
      case Float4 => 4
      case Mat3 => 3 * 3
      case Mat4 => 4 * 4
      case Int => 1
      case Int2 => 2
      case Int3 => 3
      case Int4 => 4
      case Bool => 1
      case None => 0
    }
  }

  /** The element constructor: the size comes from the type, the offset is 0
      until a layout places the element, and `normalized` defaults to false. */
  function NewBufferElement(dataType: ShaderDataType, name: string, normalized: bool := false): (e: BufferElement)
    ensures e.dataType == dataType && e.name == name && e.normalized == normalized
    ensures e.size == ShaderDataTypeSize(dataType) && e.offset == 0
  {
    BufferElement(name, dataType, ShaderDataTypeSize(dataType), 0, normalized)
  }

  /** Every type but Bool takes four bytes per component; Bool takes one byte
      and has one component. */
  lemma SizeIsFourBytesPerValue(e: BufferElement)
    ensures e.dataType != Bool ==> ShaderDataTypeSize(e.dataType) as int == 4 * e.ValueCount() as int
    ensures e.dataType == Bool ==> ShaderDataTypeSize(e.dataType) == 1 && e.ValueCount() == 1
  {
  }

  /** Sum of the sizes of `s`, without the 32-bit wrap-around. */
  function SumSizes(s: seq<BufferElement>): nat
  {
    if s == [] then 0 else SumSizes(s[..|s| - 1]) + s[|s| - 1].size as int
  }

  /** The elements of `s` with each offset set to the 32-bit running sum of the
      sizes of the elements before it; nothing else about an element changes. */
  function WithOffsets(s: seq<BufferElement>): (r: seq<BufferElement>)
    ensures |r| == |s|
    ensures forall i :: 0 <= i < |s| ==> r[i] == s[i].(offset := r[i].offset)
  {
    seq(|s|, i requires 0 <= i < |s| => s[i].(offset := Wrap32(SumSizes(s[..i]))))
  }

  /** The stride of a layout of `s`: the 32-bit sum of all sizes. */
  function StrideOf(s: seq<BufferElement>): u32
  {
    Wrap32(SumSizes(s))
  }

  /** Layout invariant: each offset is the running sum of the earlier sizes and
      the stride is the sum of all of them (both as `uint32_t`). */
  predicate IsLaidOut(elements: seq<BufferElement>, stride: u32)
  {
    (forall i :: 0 <= i < |elements| ==> elements[i].offset == Wrap32(SumSizes(elements[..i])))
    && stride == Wrap32(SumSizes(elements))
  }

  /** Adding one element to a prefix adds its size. */
  lemma PrefixStep(s: seq<BufferElement>, i: nat)
    requires i < |s|
    ensures SumSizes(s[..i + 1]) == SumSizes(s[..i]) + s[i].size as int
  {
    assert s[..i + 1][..i] == s[..i];
  }

  /** Running sums never decrease along the layout. */
  lemma {:induction false} PrefixMonotone(s: seq<BufferElement>, i: nat, j: nat)
    requires i <= j <= |s|
    ensures SumSizes(s[..i]) <= SumSizes(s[..j])
    decreases j - i
  {
    if i < j {
      PrefixStep(s, i);
      PrefixMonotone(s, i + 1, j);
    }
  }

  /** Only the sizes matter to the sums. */
  lemma {:induction false} SumSizesOfSameSizes(s: seq<BufferElement>, t: seq<BufferElement>)
    requires |s| == |t|
    requires forall i :: 0 <= i < |s| ==> s[i].size == t[i].size
    ensures SumSizes(s) == SumSizes(t)
    decreases |s|
  {
    if s != [] {
      SumSizesOfSameSizes(s[..|s| - 1], t[..|t| - 1]);
    }
  }

  /** Placing the elements establishes the layout invariant. */
  lemma WithOffsetsIsLaidOut(s: seq<BufferElement>)
    ensures IsLaidOut(WithOffsets(s), StrideOf(s))
  {
    var r := WithOffsets(s);
    forall i | 0 <= i < |r|
      ensures r[i].offset == Wrap32(SumSizes(r[..i]))
    {
      SumSizesOfSameSizes(r[..i], s[..i]);
    }
    SumSizesOfSameSizes(r, s);
  }

  /** The offset placed at position `i`, with wrap-around. */
  lemma OffsetAt(s: seq<BufferElement>, i: nat)
    requires i < |s|
    ensures WithOffsets(s)[i].offset == Wrap32(SumSizes(s[..i]))
  {
  }

  /** Element `i` placed: its own fields, with the running offset. */
  lemma PlacedAt(s: seq<BufferElement>, i: nat)
    requires i < |s|
    ensures WithOffsets(s)[i] == s[i].(offset := Wrap32(SumSizes(s[..i])))
  {
  }

  /** One step of the running offset, as `uint32_t` arithmetic. */
  lemma RunningOffsetStep(s: seq<BufferElement>, i: nat)
    requires i < |s|
    ensures Add32(Wrap32(SumSizes(s[..i])), s[i].size) == Wrap32(SumSizes(s[..i + 1]))
  {
    PrefixStep(s, i);
    Wrap32Add(SumSizes(s[..i]), s[i].size);
  }

  /** The whole sequence is its own longest prefix. */
  lemma SumSizesWhole(s: seq<BufferElement>)
    ensures SumSizes(s[..|s|]) == SumSizes(s)
  {
    assert s[..|s|] == s;
  }

  /** Without wrap-around, each offset is the exact sum of the earlier sizes; in
      particular the first element sits at offset 0. */
  lemma OffsetIsExactPrefixSum(s: seq<BufferElement>, i: nat)
    requires SumSizes(s) < U32_MODULUS
    requires i < |s|
    ensures WithOffsets(s)[i].offset as int == SumSizes(s[..i])
    ensures i == 0 ==> WithOffsets(s)[i].offset == 0
  {
    OffsetAt(s, i);
    PrefixMonotone(s, i, |s|);
    SumSizesWhole(s);
  }

  /** Without wrap-around, each element starts where the previous one ends. */
  lemma ConsecutiveOffsets(s: seq<BufferElement>, i: nat)
    requires SumSizes(s) < U32_MODULUS
    requires i + 1 < |s|
    ensures WithOffsets(s)[i + 1].offset as int == WithOffsets(s)[i].offset as int + s[i].size as int
  {
    OffsetIsExactPrefixSum(s, i);
    OffsetIsExactPrefixSum(s, i + 1);
    PrefixStep(s, i);
  }

  /** Without wrap-around, the last element ends exactly at the stride. */
  lemma LastElementEndsAtStride(s: seq<BufferElement>)
    requires SumSizes(s) < U32_MODULUS
    requires |s| > 0
    ensures WithOffsets(s)[|s| - 1].offset as int + s[|s| - 1].size as int == StrideOf(s) as int
  {
    OffsetIsExactPrefixSum(s, |s| - 1);
    PrefixStep(s, |s| - 1);
    SumSizesWhole(s);
  }

  /** The end of element `i` is at most the running sum at any later position. */
  lemma PrefixEndWithin(s: seq<BufferElement>, i: nat, j: nat)
    requires i < j <= |s|
    ensures SumSizes(s[..i]) + s[i].size as int <= SumSizes(s[..j])
  {
    PrefixStep(s, i);
    PrefixMonotone(s, i + 1, j);
  }

  /** Without wrap-around, no two elements overlap and every element lies
      within the stride. */
  lemma ElementsDoNotOverlap(s: seq<BufferElement>, i: nat, j: nat)
    requires SumSizes(s) < U32_MODULUS
    requires i < j < |s|
    ensures WithOffsets(s)[i].offset as int + s[i].size as int <= WithOffsets(s)[j].offset as int
    ensures WithOffsets(s)[j].offset as int + s[j].size as int <= StrideOf(s) as int
  {
    OffsetIsExactPrefixSum(s, i);
    OffsetIsExactPrefixSum(s, j);
    PrefixEndWithin(s, i, j);
    PrefixEndWithin(s, j, |s|);
    SumSizesWhole(s);
  }

  /** Elements built by the element constructor take at most 64 bytes each, so
      a layout of fewer than 2^26 of them never wraps around. */
  lemma {:induction false} ConstructedElementsDoNotWrap(s: seq<BufferElement>)
    requires forall i :: 0 <= i < |s| ==> s[i].size == ShaderDataTypeSize(s[i].dataType)
    requires 64 * |s| < U32_MODULUS
    ensures SumSizes(s) <= 64 * |s|
    ensures SumSizes(s) < U32_MODULUS
    decreases |s|
  {
    if s != [] {
      ConstructedElementsDoNotWrap(s[..|s| - 1]);
    }
  }

  /** `Buffer_Layout`: an ordered list of elements and the stride of one vertex.
      Only the constructor writes the fields. */
  class BufferLayout {
    var elements: seq<BufferElement>
    var stride: u32

    /** The default layout: no elements, stride 0. */
    constructor Empty()
      ensures elements == [] && stride == 0
      ensures IsLaidOut(elements, stride)
    {
      elements := [];
      stride := 0;
    }

    /** Takes the elements in order and places them. */
    constructor (elems: seq<BufferElement>)
      ensures elements == WithOffsets(elems) && stride == StrideOf(elems)
      ensures IsLaidOut(elements, stride)
    {
      elements := elems;
      stride := 0;
      new;
      CalculateOffsetAndStride();
      WithOffsetsIsLaidOut(elems);
    }

    /** One pass over the elements, writing each offset in place while the
        running offset and the stride accumulate as `uint32_t`. */
    method CalculateOffsetAndStride()
      modifies this
      ensures elements == WithOffsets(old(elements))
      ensures stride == StrideOf(old(elements))
    {
      ghost var original := elements;
      ghost var placed := WithOffsets(original);
      var offset: u32 := 0;
      stride := 0;
      for i := 0 to |elements|
        invariant |elements| == |original|
        invariant forall k :: 0 <= k < i ==> elements[k] == placed[k]
        invariant forall k :: i <= k < |elements| ==> elements[k] == original[k]
        invariant offset == Wrap32(SumSizes(original[..i]))
        invariant stride == offset
      {
        var size := elements[i].size;
        PlacedAt(original, i);
        elements := elements[i := elements[i].(offset := offset)];
        RunningOffsetStep(original, i);
        offset := Add32(offset, size);
        stride := Add32(stride, size);
      }
      SumSizesWhole(original);
    }

    method GetStride() returns (s: u32)
      ensures s == stride
    {
      s := stride;
    }

    method GetElements() returns (s: seq<BufferElement>)
      ensures s == elements
    {
      s := elements;
    }
  }

  /** `Vertex_Buffer`: a driver buffer handle and the layout of the vertices
      stored in it. */
  class VertexBuffer {
    const renderId: u32
    var layout: BufferLayout

    /** `renderId` is the handle the driver generated for the buffer; the new
        buffer is left bound to `GL_ARRAY_BUFFER`. */
    constructor (renderId: u32, gl: GlContext)
      modifies gl
      ensures this.renderId == renderId
      ensures fresh(layout) && layout.elements == [] && layout.stride == 0
      ensures gl.calls == old(gl.calls) + [BindBuffer(GL_ARRAY_BUFFER, renderId)]
    {
      this.renderId := renderId;
      layout := new BufferLayout.Empty();
      new;
      gl.Issue(BindBuffer(GL_ARRAY_BUFFER, renderId));
    }

    method Bind(gl: GlContext)
      modifies gl
      ensures gl.calls == old(gl.calls) + [BindBuffer(GL_ARRAY_BUFFER, renderId)]
    {
      gl.Issue(BindBuffer(GL_ARRAY_BUFFER, renderId));
    }

    method Unbind(gl: GlContext)
      modifies gl
      ensures gl.calls == old(gl.calls) + [BindBuffer(GL_ARRAY_BUFFER, 0)]
    {
      gl.Issue(BindBuffer(GL_ARRAY_BUFFER, 0));
    }

    method GetLayout() returns (l: BufferLayout)
      ensures l == layout
    {
      l := layout;
    }

    method SetLayout(l: BufferLayout)
      modifies this`layout
      ensures layout == l
    {
      layout := l;
    }
  }

  /** `Index_Buffer`: a driver buffer handle and the number of indices in it. */
  class IndexBuffer {
    const renderId: u32
    const indicesCount: u32

    /** `renderId` is the handle the driver generated for the buffer; the new
        buffer is left bound to `GL_ELEMENT_ARRAY_BUFFER`. */
    constructor (renderId: u32, count: u32, gl: GlContext)
      modifies gl
      ensures this.renderId == renderId && indicesCount == count
      ensures gl.calls == old(gl.calls) + [BindBuffer(GL_ELEMENT_ARRAY_BUFFER, renderId)]
    {
      this.renderId := renderId;
      indicesCount := count;
      new;
      gl.Issue(BindBuffer(GL_ELEMENT_ARRAY_BUFFER, renderId));
    }

    method Bind(gl: GlContext)
      modifies gl
      ensures gl.calls == old(gl.calls) + [BindBuffer(GL_ELEMENT_ARRAY_BUFFER, renderId)]
    {
      gl.Issue(BindBuffer(GL_ELEMENT_ARRAY_BUFFER, renderId));
    }

    method Unbind(gl: GlContext)
      modifies gl
      ensures gl.calls == old(gl.calls) + [BindBuffer(GL_ELEMENT_ARRAY_BUFFER, 0)]
    {
      gl.Issue(BindBuffer(GL_ELEMENT_ARRAY_BUFFER, 0));
    }

    method GetIndicesCount() returns (n: u32)
      ensures n == indicesCount
    {
      n := indicesCount;
    }
  }
}
