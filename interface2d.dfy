/** The 2D fast wrappers nufft2d1, nufft2d2 and nufft2d3. Nufft2d2 here is
    the corrected wrapper; the code as written is modelled in AsWritten. */
module Interface2D {
  import opened Shapes
  import opened Results
  import opened Options
  import opened Checks
  import opened Plans

  /** A rank-2 mode array holds exactly mt * ms coefficients: shape (mt, ms). */
  lemma ModeArraySize(fk: Buffer)
    requires fk.Ndim() == 2
    ensures fk.Size() == fk.shape[0] * fk.shape[1]
  {
    assert fk.shape == [fk.shape[0], fk.shape[1]];
    ProductOfTwo(fk.shape[0], fk.shape[1]);
  }

  /** nufft2d1: type 1, n points to an (mt, ms) grid of modes; mt is the leading axis. */
  function Nufft2d1(xj: Buffer, yj: Buffer, cj: Buffer, ms: int, mt: int, a: FastArgs): (r: Result<Plan>)
    ensures CheckPoints2(xj, yj, cj).Some? ==> r == Err(CheckPoints2(xj, yj, cj).value)
    ensures r == Err(NegativeDimensions) <==> PointSet2(xj, yj, cj) && (ms < 0 || mt < 0)
    ensures r.Ok? <==> PointSet2(xj, yj, cj) && ms >= 0 && mt >= 0
    ensures r.Ok? ==> r.value.output == Matrix(mt, ms)
    ensures r.Ok? ==> r.value.driver == Finufft2d1(xj.Size(), a.iflag, a.eps, ms, mt, AssembleOptions(a))
    ensures r.Ok? ==> r.value.inputs == [Access(xj, xj.Size()), Access(yj, xj.Size()), Access(cj, xj.Size())]
    ensures r.Ok? ==> Sound(r.value)
  {
    match CheckPoints2(xj, yj, cj)
    case Some(e) => Err(e)
    case None =>
      var n := xj.Size();
      if ms < 0 || mt < 0 then Err(NegativeDimensions)
      else Ok(Plan(Matrix(mt, ms), Finufft2d1(n, a.iflag, a.eps, ms, mt, AssembleOptions(a)),
                   [Access(xj, n), Access(yj, n), Access(cj, n)]))
  }

  /** The checks of the corrected 2D type-2 wrappers nufft2d2 and dirft2d2_:
      xj and yj flat and fk of rank 2 (dirft2d2_'s rank check), then xj and
      yj equally long (the check both wrappers lack, see AsWritten). */
  function CheckType2(xj: Buffer, yj: Buffer, fk: Buffer): (e: Option<Error>)
    ensures e == Some(FinufftError(XjYjFkRank)) <==> xj.Ndim() != 1 || yj.Ndim() != 1 || fk.Ndim() != 2
    ensures e == Some(FinufftError(XjYjLength)) <==>
      xj.Ndim() == 1 && yj.Ndim() == 1 && fk.Ndim() == 2 && xj.Size() != yj.Size()
    ensures e == None <==> xj.Ndim() == 1 && yj.Ndim() == 1 && fk.Ndim() == 2 && xj.Size() == yj.Size()
  {
    if xj.Ndim() != 1 || yj.Ndim() != 1 || fk.Ndim() != 2 then Some(FinufftError(XjYjFkRank))
    else if xj.Size() != yj.Size() then Some(FinufftError(XjYjLength))
    else None
  }

  /** nufft2d2, corrected: modes of shape (mt, ms) to n points. The mode
      counts are read from fk's shape; there is no size argument. */
  function Nufft2d2(xj: Buffer, yj: Buffer, fk: Buffer, a: FastArgs): (r: Result<Plan>)
    ensures CheckType2(xj, yj, fk).Some? ==> r == Err(CheckType2(xj, yj, fk).value)
    ensures r.Ok? <==> CheckType2(xj, yj, fk) == None
    ensures r.Ok? ==> fk.Ndim() == 2 && r.value.output == Vector(xj.Size())
    ensures r.Ok? ==> r.value.driver == Finufft2d2(xj.Size(), a.iflag, a.eps, fk.shape[1], fk.shape[0], AssembleOptions(a))
    ensures r.Ok? ==> r.value.inputs == [Access(xj, xj.Size()), Access(yj, xj.Size()), Access(fk, fk.shape[0] * fk.shape[1])]
    ensures r.Ok? ==> Sound(r.value)
  {
    match CheckType2(xj, yj, fk)
    case Some(e) => Err(e)
    case None =>
      var n, ms, mt := xj.Size(), fk.shape[1], fk.shape[0];
      ModeArraySize(fk);
      Ok(Plan(Vector(n), Finufft2d2(n, a.iflag, a.eps, ms, mt, AssembleOptions(a)),
              [Access(xj, n), Access(yj, n), Access(fk, mt * ms)]))
  }

  /** nufft2d3: type 3, n points to nk targets (s, t). The target checks run
      only after the point-set checks pass. */
  function Nufft2d3(xj: Buffer, yj: Buffer, cj: Buffer, s: Buffer, t: Buffer, a: FastArgs): (r: Result<Plan>)
    ensures CheckPoints2(xj, yj, cj).Some? ==> r == Err(CheckPoints2(xj, yj, cj).value)
    ensures PointSet2(xj, yj, cj) && CheckTargets2(s, t).Some? ==> r == Err(CheckTargets2(s, t).value)
    ensures r.Ok? <==> PointSet2(xj, yj, cj) && Targets2(s, t)
    ensures r.Ok? ==> r.value.output == Vector(s.Size())
    ensures r.Ok? ==> r.value.driver == Finufft2d3(xj.Size(), a.iflag, a.eps, s.Size(), AssembleOptions(a))
    ensures r.Ok? ==>
      r.value.inputs == [Access(xj, xj.Size()), Access(yj, xj.Size()), Access(cj, xj.Size()), Access(s, s.Size()), Access(t, s.Size())]
    ensures r.Ok? ==> Sound(r.value)
  {
    match CheckPoints2(xj, yj, cj)
    case Some(e) => Err(e)
    case None =>
      match CheckTargets2(s, t)
      case Some(e) => Err(e)
      case None =>
        var n, nk := xj.Size(), s.Size();
        Ok(Plan(Vector(nk), Finufft2d3(n, a.iflag, a.eps, nk, AssembleOptions(a)),
                [Access(xj, n), Access(yj, n), Access(cj, n), Access(s, nk), Access(t, nk)]))
  }
}
