/** The shape rules the wrappers enforce before any allocation or backend
    call, with the exact messages they throw. Each check returns the first
    rule an input violates, or None. */
module Checks {
  import opened Shapes
  import opened Results

  const XjCjRank := "xj and cj must be 1-dimensional"
  const XjCjLength := "xj and cj must be the same length"
  const XjFkRank := "xj and fk must be 1-dimensional"
  const SRank := "s must be 1-dimensional"
  const XjCjSRank := "xj, cj, and s must be 1-dimensional"
  const XjYjCjRank := "xj, yj, and cj must be 1-dimensional"
  const XjYjCjLength := "xj, yj, and cj must be the same length"
  const XjYjFkRank := "xj and yj must be 1-dimensional; fk must be 2-dimensional"
  const StRank := "s and t must be 1-dimensional"
  const StLength := "s and t must be the same length"
  /** Not thrown by the source: the message of the length check that the
      corrected 2D type-2 wrappers add (see AsWritten). */
  const XjYjLength := "xj and yj must be the same length"

  /** A 1D point set: coordinates and strengths are flat and equally long. */
  predicate PointSet1(xj: Buffer, cj: Buffer)
  {
    xj.Ndim() == 1 && cj.Ndim() == 1 && xj.Size() == cj.Size()
  }

  /** A 2D point set: both coordinate arrays and the strengths are flat and equally long. */
  predicate PointSet2(xj: Buffer, yj: Buffer, cj: Buffer)
  {
    xj.Ndim() == 1 && yj.Ndim() == 1 && cj.Ndim() == 1 &&
    xj.Size() == yj.Size() && xj.Size() == cj.Size()
  }

  /** 2D type-3 targets: both frequency arrays are flat and equally long. */
  predicate Targets2(s: Buffer, t: Buffer)
  {
    s.Ndim() == 1 && t.Ndim() == 1 && s.Size() == t.Size()
  }

  /** The point-set check of the 1D type-1 and type-3 wrappers: rank first, then length. */
  function CheckPoints1(xj: Buffer, cj: Buffer): (e: Option<Error>)
    ensures e == Some(FinufftError(XjCjRank)) <==> xj.Ndim() != 1 || cj.Ndim() != 1
    ensures e == Some(FinufftError(XjCjLength)) <==> xj.Ndim() == 1 && cj.Ndim() == 1 && xj.Size() != cj.Size()
    ensures e == None <==> PointSet1(xj, cj)
  {
    if xj.Ndim() != 1 || cj.Ndim() != 1 then Some(FinufftError(XjCjRank))
    else if xj.Size() != cj.Size() then Some(FinufftError(XjCjLength))
    else None
  }

  /** The point-set check of every 2D type-1 and type-3 wrapper: all three
      ranks first, then both length comparisons against xj. */
  function CheckPoints2(xj: Buffer, yj: Buffer, cj: Buffer): (e: Option<Error>)
    ensures e == Some(FinufftError(XjYjCjRank)) <==> xj.Ndim() != 1 || yj.Ndim() != 1 || cj.Ndim() != 1
    ensures e == Some(FinufftError(XjYjCjLength)) <==>
      xj.Ndim() == 1 && yj.Ndim() == 1 && cj.Ndim() == 1 && (xj.Size() != yj.Size() || xj.Size() != cj.Size())
    ensures e == None <==> PointSet2(xj, yj, cj)
  {
    if xj.Ndim() != 1 || yj.Ndim() != 1 || cj.Ndim() != 1 then Some(FinufftError(XjYjCjRank))
    else if xj.Size() != yj.Size() || xj.Size() != cj.Size() then Some(FinufftError(XjYjCjLength))
    else None
  }

  /** The target check of the 2D type-3 wrappers: ranks, then length. */
  function CheckTargets2(s: Buffer, t: Buffer): (e: Option<Error>)
    ensures e == Some(FinufftError(StRank)) <==> s.Ndim() != 1 || t.Ndim() != 1
    ensures e == Some(FinufftError(StLength)) <==> s.Ndim() == 1 && t.Ndim() == 1 && s.Size() != t.Size()
    ensures e == None <==> Targets2(s, t)
  {
    if s.Ndim() != 1 || t.Ndim() != 1 then Some(FinufftError(StRank))
    else if s.Size() != t.Size() then Some(FinufftError(StLength))
    else None
  }
}
