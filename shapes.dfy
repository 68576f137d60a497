/** Shape descriptors of the array buffers the interface inspects, and the
    complex values the backends write. Only rank, shape and size are
    visible to the checks; coordinates and strengths are never looked at. */
module Shapes {

  /** Product of a sequence of extents; the empty product is 1. */
  function Product(extents: seq<nat>): nat
  {
    if extents == [] then 1 else extents[0] * Product(extents[1..])
  }

  /** What a requested buffer exposes: its shape. The rank is the number of
      extents and the size is their product, so an array of rank 0 holds one
      element. */
  datatype Buffer = Buffer(shape: seq<nat>)
  {
    function Ndim(): nat { |shape| }
    function Size(): nat { Product(shape) }
  }

  /** A flat buffer of `n` elements. */
  function Flat(n: nat): (b: Buffer)
    ensures b.Ndim() == 1 && b.Size() == n
  {
    assert [n][1..] == [];
    assert Product([n]) == n * Product([]) == n;
    Buffer([n])
  }

  /** An element of a complex result buffer. The values are produced by the
      backends and are not interpreted here. */
  datatype Cpx = Cpx(re: real, im: real)

  lemma ProductOfTwo(a: nat, b: nat)
    ensures Product([a, b]) == a * b
  {
    assert [a, b][1..] == [b];
    assert [b][1..] == [];
    assert Product([b]) == b * Product([]) == b;
  }
}
