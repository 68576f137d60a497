/** The direct wrappers dirft1d1_ ... dirft2d3_: the same checks as their
    fast counterparts (with the differences noted), no options, no
    tolerance and no status: the direct entry points return nothing. */
module Direct {
  import opened Shapes
  import opened Results
  import opened Checks
  import opened Plans
  import Interface2D

  /** dirft1d1_. */
  function Dirft1d1(xj: Buffer, cj: Buffer, ms: int, iflag: int): (r: Result<Plan>)
    ensures CheckPoints1(xj, cj).Some? ==> r == Err(CheckPoints1(xj, cj).value)
    ensures r == Err(NegativeDimensions) <==> PointSet1(xj, cj) && ms < 0
    ensures r.Ok? <==> PointSet1(xj, cj) && ms >= 0
    ensures r.Ok? ==> r.value.output == Vector(ms) && r.value.driver == Driver.Dirft1d1(xj.Size(), iflag, ms)
    ensures r.Ok? ==> r.value.inputs == [Access(xj, xj.Size()), Access(cj, xj.Size())]
    ensures r.Ok? ==> Sound(r.value)
  {
    match CheckPoints1(xj, cj)
    case Some(e) => Err(e)
    case None =>
      var n := xj.Size();
      if ms < 0 then Err(NegativeDimensions)
      else Ok(Plan(Vector(ms), Driver.Dirft1d1(n, iflag, ms), [Access(xj, n), Access(cj, n)]))
  }

  /** dirft1d2_: like nufft1d2, the mode count is fk's size and is not compared with xj's. */
  function Dirft1d2(xj: Buffer, fk: Buffer, iflag: int): (r: Result<Plan>)
    ensures r == Err(FinufftError(XjFkRank)) <==> xj.Ndim() != 1 || fk.Ndim() != 1
    ensures r.Ok? <==> xj.Ndim() == 1 && fk.Ndim() == 1
    ensures r.Ok? ==> r.value.output == Vector(xj.Size()) && r.value.driver == Driver.Dirft1d2(xj.Size(), iflag, fk.Size())
    ensures r.Ok? ==> r.value.inputs == [Access(xj, xj.Size()), Access(fk, fk.Size())]
    ensures r.Ok? ==> Sound(r.value)
  {
    if xj.Ndim() != 1 || fk.Ndim() != 1 then Err(FinufftError(XjFkRank))
    else
      var n, ms := xj.Size(), fk.Size();
      Ok(Plan(Vector(n), Driver.Dirft1d2(n, iflag, ms), [Access(xj, n), Access(fk, ms)]))
  }

  /** dirft1d3_: unlike nufft1d3, the rank of s is checked together with the
      point set's, before the length of xj and cj is compared. */
  function Dirft1d3(xj: Buffer, cj: Buffer, s: Buffer, iflag: int): (r: Result<Plan>)
    ensures r == Err(FinufftError(XjCjSRank)) <==> xj.Ndim() != 1 || cj.Ndim() != 1 || s.Ndim() != 1
    ensures r == Err(FinufftError(XjCjLength)) <==>
      xj.Ndim() == 1 && cj.Ndim() == 1 && s.Ndim() == 1 && xj.Size() != cj.Size()
    ensures r.Ok? <==> PointSet1(xj, cj) && s.Ndim() == 1
    ensures r.Ok? ==> r.value.output == Vector(s.Size()) && r.value.driver == Driver.Dirft1d3(xj.Size(), iflag, s.Size())
    ensures r.Ok? ==> r.value.inputs == [Access(xj, xj.Size()), Access(cj, xj.Size()), Access(s, s.Size())]
    ensures r.Ok? ==> Sound(r.value)
  {
    if xj.Ndim() != 1 || cj.Ndim() != 1 || s.Ndim() != 1 then Err(FinufftError(XjCjSRank))
    else if xj.Size() != cj.Size() then Err(FinufftError(XjCjLength))
    else
      var n, nk := xj.Size(), s.Size();
      Ok(Plan(Vector(nk), Driver.Dirft1d3(n, iflag, nk), [Access(xj, n), Access(cj, n), Access(s, nk)]))
  }

  /** dirft2d1_: output of shape (mt, ms). */
  function Dirft2d1(xj: Buffer, yj: Buffer, cj: Buffer, ms: int, mt: int, iflag: int): (r: Result<Plan>)
    ensures CheckPoints2(xj, yj, cj).Some? ==> r == Err(CheckPoints2(xj, yj, cj).value)
    ensures r == Err(NegativeDimensions) <==> PointSet2(xj, yj, cj) && (ms < 0 || mt < 0)
    ensures r.Ok? <==> PointSet2(xj, yj, cj) && ms >= 0 && mt >= 0
    ensures r.Ok? ==> r.value.output == Matrix(mt, ms) && r.value.driver == Driver.Dirft2d1(xj.Size(), iflag, ms, mt)
    ensures r.Ok? ==> r.value.inputs == [Access(xj, xj.Size()), Access(yj, xj.Size()), Access(cj, xj.Size())]
    ensures r.Ok? ==> Sound(r.value)
  {
    match CheckPoints2(xj, yj, cj)
    case Some(e) => Err(e)
    case None =>
      var n := xj.Size();
      if ms < 0 || mt < 0 then Err(NegativeDimensions)
      else Ok(Plan(Matrix(mt, ms), Driver.Dirft2d1(n, iflag, ms, mt), [Access(xj, n), Access(yj, n), Access(cj, n)]))
  }

  /** dirft2d2_, corrected with the coordinate length check (see AsWritten);
      it already rejects an fk whose rank is not 2. */
  function Dirft2d2(xj: Buffer, yj: Buffer, fk: Buffer, iflag: int): (r: Result<Plan>)
    ensures Interface2D.CheckType2(xj, yj, fk).Some? ==> r == Err(Interface2D.CheckType2(xj, yj, fk).value)
    ensures r.Ok? <==> Interface2D.CheckType2(xj, yj, fk) == None
    ensures r.Ok? ==> fk.Ndim() == 2 && r.value.output == Vector(xj.Size())
    ensures r.Ok? ==> r.value.driver == Driver.Dirft2d2(xj.Size(), iflag, fk.shape[1], fk.shape[0])
    ensures r.Ok? ==> r.value.inputs == [Access(xj, xj.Size()), Access(yj, xj.Size()), Access(fk, fk.shape[0] * fk.shape[1])]
    ensures r.Ok? ==> Sound(r.value)
  {
    match Interface2D.CheckType2(xj, yj, fk)
    case Some(e) => Err(e)
    case None =>
      var n, ms, mt := xj.Size(), fk.shape[1], fk.shape[0];
      Interface2D.ModeArraySize(fk);
      Ok(Plan(Vector(n), Driver.Dirft2d2(n, iflag, ms, mt), [Access(xj, n), Access(yj, n), Access(fk, mt * ms)]))
  }

  /** dirft2d3_: point-set checks, then target checks. */
  function Dirft2d3(xj: Buffer, yj: Buffer, cj: Buffer, s: Buffer, t: Buffer, iflag: int): (r: Result<Plan>)
    ensures CheckPoints2(xj, yj, cj).Some? ==> r == Err(CheckPoints2(xj, yj, cj).value)
    ensures PointSet2(xj, yj, cj) && CheckTargets2(s, t).Some? ==> r == Err(CheckTargets2(s, t).value)
    ensures r.Ok? <==> PointSet2(xj, yj, cj) && Targets2(s, t)
    ensures r.Ok? ==> r.value.output == Vector(s.Size()) && r.value.driver == Driver.Dirft2d3(xj.Size(), iflag, s.Size())
    ensures r.Ok? ==>
      r.value.inputs == [Access(xj, xj.Size()), Access(yj, xj.Size()), Access(cj, xj.Size()), Access(s, s.Size()), Access(t, s.Size())]
    ensures r.Ok? ==> Sound(r.value)
  {
    match CheckPoints2(xj, yj, cj)
    case Some(e) => Err(e)
    case None =>
      match CheckTargets2(s, t)
      case Some(e) => Err(e)
      case None =>
        var n, nk := xj.Size(), s.Size();
        Ok(Plan(Vector(nk), Driver.Dirft2d3(n, iflag, nk),
                [Access(xj, n), Access(yj, n), Access(cj, n), Access(s, nk), Access(t, nk)]))
  }
}
