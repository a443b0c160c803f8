/** The OpenGL driver, seen only through the calls the renderer issues to it.
    The driver's own semantics (what a binding or an attribute pointer does on
    the GPU) is not modelled: each entry point appends one record to the log
    of a single process-wide context object, in call order. */
module Gl {

  /** Unsigned 32-bit integers (`uint32_t`, `GLuint`, `GLenum`). */
  newtype u32 = x: int | 0 <= x < 0x1_0000_0000

  const U32_MODULUS: int := 0x1_0000_0000

  /** Unsigned 32-bit addition: the sum wraps around modulo 2^32. */
  function Add32(a: u32, b: u32): (r: u32)
    ensures r as int == (a as int + b as int) % U32_MODULUS
    ensures a as int + b as int < U32_MODULUS ==> r as int == a as int + b as int
  {
    ((a as int + b as int) % U32_MODULUS) as u32
  }

  /** The value an unbounded non-negative count has once stored in a `uint32_t`. */
  function Wrap32(n: nat): (r: u32)
    ensures n < U32_MODULUS ==> r as int == n
  {
    (n % U32_MODULUS) as u32
  }

  /** Accumulating in a `uint32_t` gives the exact sum reduced modulo 2^32. */
  lemma Wrap32Add(n: nat, b: u32)
    ensures Wrap32(n + b as int) == Add32(Wrap32(n), b)
  {
    var q := n / U32_MODULUS;
    assert n == q * U32_MODULUS + n % U32_MODULUS;
  }

  // Enumerants of the OpenGL API that the renderer passes.
  const GL_FALSE: u32 := 0
  const GL_TRUE: u32 := 1
  const GL_INT: u32 := 0x1404
  const GL_FLOAT: u32 := 0x1406
  const GL_BOOL: u32 := 0x8B56
  const GL_ARRAY_BUFFER: u32 := 0x8892
  const GL_ELEMENT_ARRAY_BUFFER: u32 := 0x8893

  /** One driver call, with its arguments. */
  datatype GlCall =
    | BindVertexArray(array: u32)
    | BindBuffer(target: u32, buffer: u32)
    | EnableVertexAttribArray(index: nat)
    | VertexAttribPointer(index: nat, size: u32, componentType: u32, normalized: u32, stride: u32, offset: u32)

  /** The graphics context: the global binding state lives behind it, and
      `calls` is everything issued to it so far. */
  class GlContext {
    var calls: seq<GlCall>

    constructor ()
      ensures calls == []
    {
      calls := [];
    }

    method Issue(c: GlCall)
      modifies this
      ensures calls == old(calls) + [c]
    {
      calls := calls + [c];
    }
  }
}
