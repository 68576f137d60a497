/** The two 2D type-2 wrappers exactly as written, next to the corrected
    ones in Interface2D and Direct, with inputs exhibiting the differences.
    nufft2d2 checks only the ranks of xj and yj (its message also demands a
    rank-2 fk) and then reads fk's first two extents; neither nufft2d2 nor
    dirft2d2_ compares the lengths of xj and yj. */
module AsWritten {
  import opened Shapes
  import opened Results
  import opened Options
  import opened Checks
  import opened Plans
  import Interface2D
  import Direct

  /** What the code as written does: a defined result, or undefined
      behaviour from reading an extent past the end of the shape. */
  datatype Behaviour = Defined(result: Result<Plan>) | ShapeReadOutOfRange

  /** nufft2d2 as written: after the rank check of xj and yj it reads
      shape[1] and shape[0] of fk whatever fk's rank. The driver is then
      told mt * ms coefficients, while fk holds the product of all its extents. */
  function Nufft2d2(xj: Buffer, yj: Buffer, fk: Buffer, a: FastArgs): (b: Behaviour)
    ensures b == Defined(Err(FinufftError(XjYjFkRank))) <==> xj.Ndim() != 1 || yj.Ndim() != 1
    ensures b == ShapeReadOutOfRange <==> xj.Ndim() == 1 && yj.Ndim() == 1 && fk.Ndim() < 2
    ensures b.Defined? && b.result.Ok? <==> xj.Ndim() == 1 && yj.Ndim() == 1 && fk.Ndim() >= 2
    ensures b.Defined? && b.result.Ok? ==>
      b.result.value.output == Vector(xj.Size()) &&
      b.result.value.driver == Finufft2d2(xj.Size(), a.iflag, a.eps, fk.shape[1], fk.shape[0], AssembleOptions(a)) &&
      b.result.value.inputs == [Access(xj, xj.Size()), Access(yj, xj.Size()), Access(fk, fk.shape[0] * fk.shape[1])]
  {
    if xj.Ndim() != 1 || yj.Ndim() != 1 then Defined(Err(FinufftError(XjYjFkRank)))
    else if fk.Ndim() < 2 then ShapeReadOutOfRange
    else
      var n, ms, mt := xj.Size(), fk.shape[1], fk.shape[0];
      Defined(Ok(Plan(Vector(n), Finufft2d2(n, a.iflag, a.eps, ms, mt, AssembleOptions(a)),
                      [Access(xj, n), Access(yj, n), Access(fk, mt * ms)])))
  }

  /** dirft2d2_ as written: ranks are checked (fk must be rank 2), lengths are not. */
  function Dirft2d2(xj: Buffer, yj: Buffer, fk: Buffer, iflag: int): (r: Result<Plan>)
    ensures r == Err(FinufftError(XjYjFkRank)) <==> xj.Ndim() != 1 || yj.Ndim() != 1 || fk.Ndim() != 2
    ensures r.Ok? <==> xj.Ndim() == 1 && yj.Ndim() == 1 && fk.Ndim() == 2
    ensures r.Ok? ==> r.value.output == Vector(xj.Size())
    ensures r.Ok? ==> r.value.driver == Driver.Dirft2d2(xj.Size(), iflag, fk.shape[1], fk.shape[0])
    ensures r.Ok? ==> r.value.inputs == [Access(xj, xj.Size()), Access(yj, xj.Size()), Access(fk, fk.shape[0] * fk.shape[1])]
  {
    if xj.Ndim() != 1 || yj.Ndim() != 1 || fk.Ndim() != 2 then Err(FinufftError(XjYjFkRank))
    else
      var n, ms, mt := xj.Size(), fk.shape[1], fk.shape[0];
      Ok(Plan(Vector(n), Driver.Dirft2d2(n, iflag, ms, mt), [Access(xj, n), Access(yj, n), Access(fk, mt * ms)]))
  }

  /** A flat fk of 5 coefficients passes nufft2d2's check and the wrapper
      then reads shape[1] of a rank-1 shape; the corrected wrapper rejects it
      with the message the original already throws for bad ranks. */
  lemma Nufft2d2RankOneMode(a: FastArgs)
    ensures Nufft2d2(Flat(3), Flat(3), Flat(5), a) == ShapeReadOutOfRange
    ensures Interface2D.Nufft2d2(Flat(3), Flat(3), Flat(5), a) == Err(FinufftError(XjYjFkRank))
  {
  }

  /** An fk of shape (2, 3, 0) holds no coefficient, yet nufft2d2 as written
      tells the driver to read mt * ms = 6 of them. */
  lemma Nufft2d2EmptyTrailingAxis(a: FastArgs)
    ensures var b := Nufft2d2(Flat(4), Flat(4), Buffer([2, 3, 0]), a);
      b.Defined? && b.result.Ok? && OverReads(b.result.value)
    ensures Interface2D.Nufft2d2(Flat(4), Flat(4), Buffer([2, 3, 0]), a).Err?
  {
    var b := Nufft2d2(Flat(4), Flat(4), Buffer([2, 3, 0]), a);
    assert Buffer([2, 3, 0]).Size() == 0 by {
      assert [2, 3, 0][1..] == [3, 0];
      assert [3, 0][1..] == [0];
    }
    assert b.result.value.inputs[2] == Access(Buffer([2, 3, 0]), 6);
  }

  /** With 2 x-coordinates and 1 y-coordinate both type-2 wrappers as written
      accept the call and the driver reads 2 y-coordinates from a buffer of 1;
      the corrected wrappers reject it. */
  lemma Type2ShortYj(a: FastArgs, iflag: int)
    ensures var b := Nufft2d2(Flat(2), Flat(1), Buffer([1, 1]), a);
      b.Defined? && b.result.Ok? && OverReads(b.result.value)
    ensures var r := Dirft2d2(Flat(2), Flat(1), Buffer([1, 1]), iflag);
      r.Ok? && OverReads(r.value)
    ensures Interface2D.Nufft2d2(Flat(2), Flat(1), Buffer([1, 1]), a) == Err(FinufftError(XjYjLength))
    ensures Direct.Dirft2d2(Flat(2), Flat(1), Buffer([1, 1]), iflag) == Err(FinufftError(XjYjLength))
  {
    var b := Nufft2d2(Flat(2), Flat(1), Buffer([1, 1]), a);
    assert b.result.value.inputs[1] == Access(Flat(1), 2);
    var r := Dirft2d2(Flat(2), Flat(1), Buffer([1, 1]), iflag);
    assert r.value.inputs[1] == Access(Flat(1), 2);
  }

  /** The corrections only reject calls: whenever a corrected wrapper
      accepts, the original behaves identically. A call dirft2d2_ as written
      accepts reads exactly as many elements as its buffers hold exactly when
      xj and yj are equally long. */
  lemma CorrectionsAreConservative(xj: Buffer, yj: Buffer, fk: Buffer, a: FastArgs, iflag: int)
    ensures Interface2D.Nufft2d2(xj, yj, fk, a).Ok? ==>
      Nufft2d2(xj, yj, fk, a) == Defined(Interface2D.Nufft2d2(xj, yj, fk, a))
    ensures Direct.Dirft2d2(xj, yj, fk, iflag).Ok? ==>
      Dirft2d2(xj, yj, fk, iflag) == Direct.Dirft2d2(xj, yj, fk, iflag)
    ensures Dirft2d2(xj, yj, fk, iflag).Ok? ==>
      (Sound(Dirft2d2(xj, yj, fk, iflag).value) <==> xj.Size() == yj.Size())
  {
    var r := Dirft2d2(xj, yj, fk, iflag);
    if r.Ok? {
      Interface2D.ModeArraySize(fk);
      if Sound(r.value) {
        assert r.value.inputs[1].count == r.value.inputs[1].buffer.Size();
      }
    }
  }
}
