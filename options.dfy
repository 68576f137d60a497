/** The options record handed to the fast backend (ASSEMBLE_OPTIONS), the
    FFTW planning token, and the defaults the Python module registers. */
module Options {

  /** FFTWOptions: an opaque planning hint forwarded to FFTW unchanged. */
  datatype FftwPlan = Estimate | Measure | Patient | Exhaustive

  /** The backend's `nufft_opts`, restricted to the fields the interface sets. */
  datatype NufftOpts = NufftOpts(R: real, debug: int, spreadDebug: int, spreadSort: int, fftw: FftwPlan)

  /** The scalar arguments every fast wrapper takes after its arrays:
      eps, iflag, R, debug, spread_debug, spread_sort, fftw. */
  datatype FastArgs = FastArgs(eps: real, iflag: int, R: real, debug: int, spreadDebug: int, spreadSort: int, fftw: FftwPlan)

  /** ASSEMBLE_OPTIONS: every option is copied from the arguments as given.
      No value is range-checked: the function is total, so a negative
      oversampling ratio or an unknown debug level is passed through. */
  function AssembleOptions(a: FastArgs): (o: NufftOpts)
    ensures o.R == a.R && o.debug == a.debug && o.spreadDebug == a.spreadDebug
    ensures o.spreadSort == a.spreadSort && o.fftw == a.fftw
  {
    NufftOpts(a.R, a.debug, a.spreadDebug, a.spreadSort, a.fftw)
  }

  // Defaults registered with the Python module for every fast wrapper.
  const DefaultEps: real := 0.000000001
  const DefaultIflag: int := 1
  const DefaultR: real := 2.0
  const DefaultDebug: int := 0
  const DefaultSpreadDebug: int := 0
  const DefaultSpreadSort: int := 1
  const DefaultFftw: FftwPlan := Estimate

  /** The arguments a fast wrapper receives when the caller gives only the arrays. */
  const DefaultFastArgs: FastArgs :=
    FastArgs(DefaultEps, DefaultIflag, DefaultR, DefaultDebug, DefaultSpreadDebug, DefaultSpreadSort, DefaultFftw)

  /** The direct wrappers take no options; `iflag` is their only defaulted argument. */
  const DefaultDirectIflag: int := 1

  lemma DefaultOptions()
    ensures AssembleOptions(DefaultFastArgs) == NufftOpts(2.0, 0, 0, 1, Estimate)
    ensures DefaultFastArgs.eps == 1.0 / 1000000000.0 && DefaultFastArgs.iflag == 1
    ensures DefaultDirectIflag == DefaultFastArgs.iflag
  {
  }
}
