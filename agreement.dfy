/** How the wrappers relate to one another: a fast wrapper and its direct
    counterpart accept the same inputs and allocate the same output; the
    options never influence the checks; and the places where the checks of
    two wrappers of one family differ. */
module Agreement {
  import opened Shapes
  import opened Results
  import opened Options
  import opened Checks
  import opened Plans
  import Interface1D
  import Interface2D
  import Direct
  import AsWritten

  /** Same outcome up to the driver: both fail with the same error, or both
      succeed with the same output shape reading the same buffers. */
  predicate SameValidation(r: Result<Plan>, q: Result<Plan>)
  {
    (r.Err? && q.Err? && r.error == q.error) ||
    (r.Ok? && q.Ok? && r.value.output == q.value.output && r.value.inputs == q.value.inputs)
  }

  lemma FastAndDirectAgree1D(xj: Buffer, cj: Buffer, fk: Buffer, ms: int, a: FastArgs, iflag: int)
    ensures SameValidation(Interface1D.Nufft1d1(xj, cj, ms, a), Direct.Dirft1d1(xj, cj, ms, iflag))
    ensures SameValidation(Interface1D.Nufft1d2(xj, fk, a), Direct.Dirft1d2(xj, fk, iflag))
  {
  }

  /** The 1D type-3 pair accepts the same calls and allocates the same output,
      but reports errors differently (see Type3ErrorOrder1D). */
  lemma Type3Accepts1D(xj: Buffer, cj: Buffer, s: Buffer, a: FastArgs, iflag: int)
    ensures Interface1D.Nufft1d3(xj, cj, s, a).Ok? <==> Direct.Dirft1d3(xj, cj, s, iflag).Ok?
    ensures Interface1D.Nufft1d3(xj, cj, s, a).Ok? ==>
      SameValidation(Interface1D.Nufft1d3(xj, cj, s, a), Direct.Dirft1d3(xj, cj, s, iflag))
  {
  }

  /** xj and cj of different lengths with a non-flat s: nufft1d3 reports the
      lengths, dirft1d3_ reports the rank of s. */
  lemma Type3ErrorOrder1D(a: FastArgs, iflag: int)
    ensures Interface1D.Nufft1d3(Flat(2), Flat(3), Buffer([1, 1]), a) == Err(FinufftError(XjCjLength))
    ensures Direct.Dirft1d3(Flat(2), Flat(3), Buffer([1, 1]), iflag) == Err(FinufftError(XjCjSRank))
  {
  }

  lemma FastAndDirectAgree2D(xj: Buffer, yj: Buffer, cj: Buffer, fk: Buffer, s: Buffer, t: Buffer,
                             ms: int, mt: int, a: FastArgs, iflag: int)
    ensures SameValidation(Interface2D.Nufft2d1(xj, yj, cj, ms, mt, a), Direct.Dirft2d1(xj, yj, cj, ms, mt, iflag))
    ensures SameValidation(Interface2D.Nufft2d2(xj, yj, fk, a), Direct.Dirft2d2(xj, yj, fk, iflag))
    ensures SameValidation(Interface2D.Nufft2d3(xj, yj, cj, s, t, a), Direct.Dirft2d3(xj, yj, cj, s, t, iflag))
  {
  }

  /** The 1D type-2 wrappers never compare the lengths of xj and fk: any two
      flat arrays are accepted, the output has xj's length and the mode
      count is fk's size. */
  lemma Type2LengthsUnchecked1D(xj: Buffer, fk: Buffer, a: FastArgs, iflag: int)
    requires xj.Ndim() == 1 && fk.Ndim() == 1
    ensures var r := Interface1D.Nufft1d2(xj, fk, a);
      r.Ok? && r.value.output == Vector(xj.Size()) && r.value.driver.ms == fk.Size()
    ensures var q := Direct.Dirft1d2(xj, fk, iflag);
      q.Ok? && q.value.output == Vector(xj.Size()) && q.value.driver.ms == fk.Size()
  {
  }

  /** As written, the 2D type-2 pair differs: nufft2d2 accepts an fk of rank 3
      and takes its first two extents as (mt, ms), and dirft2d2_ rejects it. */
  lemma Type2RankAsymmetry2D(a: FastArgs, iflag: int)
    ensures var b := AsWritten.Nufft2d2(Flat(1), Flat(1), Buffer([2, 3, 4]), a);
      b.Defined? && b.result.Ok? && b.result.value.driver.mt == 2 && b.result.value.driver.ms == 3
    ensures AsWritten.Dirft2d2(Flat(1), Flat(1), Buffer([2, 3, 4]), iflag) == Err(FinufftError(XjYjFkRank))
  {
  }

  /** The scalar options are never inspected: with any two argument records
      a fast wrapper fails with the same error or succeeds with the same
      output shape and buffers. */
  lemma OptionsNeverChecked(xj: Buffer, yj: Buffer, cj: Buffer, fk: Buffer, s: Buffer, t: Buffer,
                            ms: int, mt: int, a: FastArgs, b: FastArgs)
    ensures SameValidation(Interface1D.Nufft1d1(xj, cj, ms, a), Interface1D.Nufft1d1(xj, cj, ms, b))
    ensures SameValidation(Interface1D.Nufft1d2(xj, fk, a), Interface1D.Nufft1d2(xj, fk, b))
    ensures SameValidation(Interface1D.Nufft1d3(xj, cj, s, a), Interface1D.Nufft1d3(xj, cj, s, b))
    ensures SameValidation(Interface2D.Nufft2d1(xj, yj, cj, ms, mt, a), Interface2D.Nufft2d1(xj, yj, cj, ms, mt, b))
    ensures SameValidation(Interface2D.Nufft2d2(xj, yj, fk, a), Interface2D.Nufft2d2(xj, yj, fk, b))
    ensures SameValidation(Interface2D.Nufft2d3(xj, yj, cj, s, t, a), Interface2D.Nufft2d3(xj, yj, cj, s, t, b))
  {
  }

  /** Each fast wrapper hands CHECK_FLAG its own name: a failing status of
      the entry point it plans is reported as "<that wrapper> failed with code <ier>". */
  lemma FastWrappersNameThemselves(xj: Buffer, yj: Buffer, cj: Buffer, fk: Buffer, s: Buffer, t: Buffer,
                                   ms: int, mt: int, a: FastArgs)
    ensures var r := Interface1D.Nufft1d1(xj, cj, ms, a);
      r.Ok? ==> r.value.driver.IsFast() && WrapperName(r.value.driver) == "nufft1d1"
    ensures var r := Interface1D.Nufft1d2(xj, fk, a);
      r.Ok? ==> r.value.driver.IsFast() && WrapperName(r.value.driver) == "nufft1d2"
    ensures var r := Interface1D.Nufft1d3(xj, cj, s, a);
      r.Ok? ==> r.value.driver.IsFast() && WrapperName(r.value.driver) == "nufft1d3"
    ensures var r := Interface2D.Nufft2d1(xj, yj, cj, ms, mt, a);
      r.Ok? ==> r.value.driver.IsFast() && WrapperName(r.value.driver) == "nufft2d1"
    ensures var r := Interface2D.Nufft2d2(xj, yj, fk, a);
      r.Ok? ==> r.value.driver.IsFast() && WrapperName(r.value.driver) == "nufft2d2"
    ensures var r := Interface2D.Nufft2d3(xj, yj, cj, s, t, a);
      r.Ok? ==> r.value.driver.IsFast() && WrapperName(r.value.driver) == "nufft2d3"
  {
  }

  /** A call with only the required arrays reaches finufft1d1 with iflag 1,
      eps 1e-9 and options (R 2.0, debug 0, spread_debug 0, spread_sort 1, estimate). */
  lemma DefaultCall1d1(xj: Buffer, cj: Buffer, ms: nat)
    requires PointSet1(xj, cj)
    ensures Interface1D.Nufft1d1(xj, cj, ms, DefaultFastArgs)
      == Ok(Plan(Vector(ms), Finufft1d1(xj.Size(), 1, 0.000000001, ms, NufftOpts(2.0, 0, 0, 1, Estimate)),
                 [Access(xj, xj.Size()), Access(cj, cj.Size())]))
  {
  }
}
