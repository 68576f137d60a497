/** The 1D fast wrappers nufft1d1, nufft1d2 and nufft1d3: checks, derived
    sizes, output allocation shape and the finufft1d* call they make. */
module Interface1D {
  import opened Shapes
  import opened Results
  import opened Options
  import opened Checks
  import opened Plans

  /** nufft1d1: type 1, n nonuniform points to ms modes. */
  function Nufft1d1(xj: Buffer, cj: Buffer, ms: int, a: FastArgs): (r: Result<Plan>)
    // a point-set error is reported as the check found it, before anything else
    ensures CheckPoints1(xj, cj).Some? ==> r == Err(CheckPoints1(xj, cj).value)
    ensures r == Err(NegativeDimensions) <==> PointSet1(xj, cj) && ms < 0
    ensures r.Ok? <==> PointSet1(xj, cj) && ms >= 0
    ensures r.Ok? ==> r.value.output == Vector(ms)
    ensures r.Ok? ==> r.value.driver == Finufft1d1(xj.Size(), a.iflag, a.eps, ms, AssembleOptions(a))
    ensures r.Ok? ==> r.value.inputs == [Access(xj, xj.Size()), Access(cj, xj.Size())]
    ensures r.Ok? ==> Sound(r.value)
  {
    match CheckPoints1(xj, cj)
    case Some(e) => Err(e)
    case None =>
      var n := xj.Size();
      if ms < 0 then Err(NegativeDimensions)
      else Ok(Plan(Vector(ms), Finufft1d1(n, a.iflag, a.eps, ms, AssembleOptions(a)),
                   [Access(xj, n), Access(cj, n)]))
  }

  /** nufft1d2: type 2, modes to n points. The mode count is the size of fk;
      the sizes of xj and fk are never compared. */
  function Nufft1d2(xj: Buffer, fk: Buffer, a: FastArgs): (r: Result<Plan>)
    ensures r == Err(FinufftError(XjFkRank)) <==> xj.Ndim() != 1 || fk.Ndim() != 1
    ensures r.Ok? <==> xj.Ndim() == 1 && fk.Ndim() == 1
    ensures r.Ok? ==> r.value.output == Vector(xj.Size())
    ensures r.Ok? ==> r.value.driver == Finufft1d2(xj.Size(), a.iflag, a.eps, fk.Size(), AssembleOptions(a))
    ensures r.Ok? ==> r.value.inputs == [Access(xj, xj.Size()), Access(fk, fk.Size())]
    ensures r.Ok? ==> Sound(r.value)
  {
    if xj.Ndim() != 1 || fk.Ndim() != 1 then Err(FinufftError(XjFkRank))
    else
      var n, ms := xj.Size(), fk.Size();
      Ok(Plan(Vector(n), Finufft1d2(n, a.iflag, a.eps, ms, AssembleOptions(a)),
              [Access(xj, n), Access(fk, ms)]))
  }

  /** nufft1d3: type 3, n points to nk arbitrary frequencies s. The target
      rank is checked only after the point set passes. */
  function Nufft1d3(xj: Buffer, cj: Buffer, s: Buffer, a: FastArgs): (r: Result<Plan>)
    ensures CheckPoints1(xj, cj).Some? ==> r == Err(CheckPoints1(xj, cj).value)
    ensures r == Err(FinufftError(SRank)) <==> PointSet1(xj, cj) && s.Ndim() != 1
    ensures r.Ok? <==> PointSet1(xj, cj) && s.Ndim() == 1
    ensures r.Ok? ==> r.value.output == Vector(s.Size())
    ensures r.Ok? ==> r.value.driver == Finufft1d3(xj.Size(), a.iflag, a.eps, s.Size(), AssembleOptions(a))
    ensures r.Ok? ==> r.value.inputs == [Access(xj, xj.Size()), Access(cj, xj.Size()), Access(s, s.Size())]
    ensures r.Ok? ==> Sound(r.value)
  {
    match CheckPoints1(xj, cj)
    case Some(e) => Err(e)
    case None =>
      if s.Ndim() != 1 then Err(FinufftError(SRank))
      else
        var n, nk := xj.Size(), s.Size();
        Ok(Plan(Vector(nk), Finufft1d3(n, a.iflag, a.eps, nk, AssembleOptions(a)),
                [Access(xj, n), Access(cj, n), Access(s, nk)]))
  }
}
