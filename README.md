# finufft Python interface: checks, dispatch and status translation

This project models the argument-checking and dispatch layer of the Python
bindings of FINUFFT (`finufft/interface.cpp`). That file has twelve wrappers:
the fast `nufft1d1`…`nufft2d3` and the direct `dirft1d1_`…`dirft2d3_`. Each
wrapper inspects the rank and shape of its NumPy buffers and throws
`finufft_error` with a fixed message on the first rule a buffer breaks. It then
derives the sizes `n`, `ms`/`mt` or `nk`, allocates the output array, and calls
one foreign entry point (`finufft1d1`…, `dirft1d1`…). Only the fast wrappers
build a `nufft_opts` record and translate a nonzero status into
"<name> failed with code <ier>".

How it is modelled:

- A buffer is a shape descriptor, `Shapes.Buffer(shape)`. Its rank is the
  number of extents and its size is their product.
- Each wrapper is a pure function from buffers and scalars to
  `Result<Plan>`. A `Plan` holds three things:
  - the output shape the wrapper allocates;
  - the driver entry point with its integer arguments and, for fast
    wrappers, the assembled options;
  - the input buffers the driver reads, with how many elements it reads
    from each.
- `Plans.Sound` says the foreign call reads and writes exactly as many elements as its buffers hold. The output
  holds exactly as many elements as the driver writes, and every input holds
  exactly as many as the driver reads. It compares element counts only (see
  "## Left out" on strides). Every wrapper's contract fixes its list of reads
  through the sizes it hands the driver: n = xj.size for every point-set
  array, nk = s.size for the targets, and fk's own size for the modes. Every
  wrapper's contract also proves its plans sound;
  for the 2D type-2 pair this holds for the corrected `Interface2D.Nufft2d2`
  and `Direct.Dirft2d2`, and the code as written is not sound.
- The rest of a wrapper is imperative and shared by all twelve, in
  `Execution.Call` and `Execution.Invoke`. They allocate an `array` or a
  row-major `array2`, let the backend fill it in place, and apply CHECK_FLAG
  for fast drivers only. The backend is a class whose status and written
  values are given oracle functions of the call's place in the log and the
  driver, so a repeated call may come out differently. It logs its calls, so
  "a shape error never reaches the backend" can be stated. A complete wrapper call is
  `Call(<wrapper function>(args), backend)`.
- A negative `ms` or `mt` passes the checks in the source and then reaches
  `py::array_t`'s constructor. The host array library refuses a negative
  extent. The model represents that refusal as `Results.Error.NegativeDimensions`,
  returned after validation and before any backend call.
- The 2D type-2 wrappers have two defects (see "## Findings"). `Interface2D.Nufft2d2`
  and `Direct.Dirft2d2` are the corrected wrappers that the rest of the model
  uses. The code as written is `AsWritten.Nufft2d2` and
  `AsWritten.Dirft2d2`, in the module `AsWritten`. The added length check throws
  "xj and yj must be the same length". The source has no such message, so this
  message is the model's choice.

Differences between wrappers in the source. The first two are kept only by
the as-written members in `AsWritten`; the corrected type-2 wrappers remove
them. The third is kept by the wrappers themselves:
- `nufft2d2`'s own rank message demands a rank-2 `fk`, but the wrapper never
  checks the rank of `fk`.
- Neither 2D type-2 wrapper compares the length of `xj` with that of `yj`,
  although every other 2D wrapper compares the lengths in its point set.
- `dirft1d3_` checks the rank of `s` together with the point set's ranks,
  before the length check. `nufft1d3` checks `s` only after the length check.

## Model

| member | source | states |
|---|---|---|
| Checks.CheckPoints1 | finufft/interface.cpp:64-67 | 1D type-1 and type-3 point set (also lines 124-127 and 267-270): the error is "xj and cj must be 1-dimensional" exactly when either array is not rank 1. It is "xj and cj must be the same length" exactly when both are rank 1 and their sizes differ. There is no error exactly when both are rank 1 and equally long. |
| Checks.CheckPoints2 | finufft/interface.cpp:165-168 | 2D type-1 and type-3 point set (also lines 226-229, 344-347 and 395-398): the rank error is raised exactly when any of xj, yj, cj is not rank 1. The length error is raised exactly when all three are rank 1 but the sizes are not all equal. Otherwise no error. |
| Checks.CheckTargets2 | finufft/interface.cpp:232-238 | 2D type-3 targets (also lines 401-407): "s and t must be 1-dimensional" exactly when either is not rank 1, "s and t must be the same length" exactly when both are rank 1 with different sizes, otherwise no error. |
| Interface1D.Nufft1d1 | finufft/interface.cpp:56-85 | A point-set error is returned as found. The call succeeds exactly when the point set is valid and ms >= 0, and fails with the allocation error exactly when the point set is valid and ms < 0. On success the output is [ms], the driver is finufft1d1(n = xj.size, iflag, eps, ms, options from the arguments). The driver reads n elements from each of xj and cj, and the plan is sound. |
| Interface1D.Nufft1d2 | finufft/interface.cpp:88-114 | It fails with "xj and fk must be 1-dimensional" exactly when either array is not rank 1, and succeeds otherwise; the sizes are never compared. The output length is n = xj.size, the driver gets ms = fk.size and reads n elements of xj and ms of fk, and the plan is sound. |
| Interface1D.Nufft1d3 | finufft/interface.cpp:116-150 | Point-set errors come first. "s must be 1-dimensional" is raised exactly when the point set is valid and s is not rank 1. It succeeds exactly when both checks pass. The output length is nk = s.size, the driver gets nk and reads n elements of xj and cj and nk of s, and the plan is sound. |
| Interface2D.ModeArraySize | finufft/interface.cpp:198 | A rank-2 fk holds exactly shape[0] * shape[1] = mt * ms coefficients. |
| Interface2D.Nufft2d1 | finufft/interface.cpp:156-186 | Point-set errors first. The allocation error is raised exactly when the point set is valid and ms < 0 or mt < 0. On success the output shape is (mt, ms) with mt as the leading axis, the driver is finufft2d1(n, iflag, eps, ms, mt, opts) reading n elements of each of xj, yj and cj, and the plan is sound. |
| Interface2D.CheckType2 | finufft/interface.cpp:370-371 | Corrected type-2 check: "xj and yj must be 1-dimensional; fk must be 2-dimensional" exactly when xj or yj is not flat or fk is not rank 2. The added length error is raised exactly when the ranks are right and xj and yj differ in size. Otherwise no error. |
| Interface2D.Nufft2d2 | finufft/interface.cpp:188-215 | Corrected nufft2d2: it succeeds exactly when CheckType2 passes. The output length is n = xj.size. The mode counts are read from fk: ms = fk.shape[1] and mt = fk.shape[0]. The driver reads n elements of xj and of yj and mt * ms of fk. The plan is sound. |
| Interface2D.Nufft2d3 | finufft/interface.cpp:217-255 | Point-set errors first. Target errors are reported only when the point set is valid. It succeeds exactly when both pass. The output length is nk = s.size. The driver reads n elements of each of xj, yj and cj and nk of each of s and t. The plan is sound. |
| Direct.Dirft1d1 | finufft/interface.cpp:261-284 | The same checks and output [ms] as nufft1d1. The driver is dirft1d1(n, iflag, ms), with no tolerance and no options, and reads n elements of each of xj and cj. The plan is sound. |
| Direct.Dirft1d2 | finufft/interface.cpp:286-308 | A rank error exactly when xj or fk is not rank 1, and success otherwise. The output length is n and the driver gets ms = fk.size, reading n elements of xj and ms of fk. The plan is sound. |
| Direct.Dirft1d3 | finufft/interface.cpp:310-335 | "xj, cj, and s must be 1-dimensional" exactly when any of the three is not rank 1. Then "xj and cj must be the same length" exactly when all three are rank 1 and xj and cj differ in size. The output length is s.size, the driver reads n elements of xj and cj and nk of s, and the plan is sound. |
| Direct.Dirft2d1 | finufft/interface.cpp:337-361 | The same checks and output shape (mt, ms) as nufft2d1. The driver is dirft2d1(n, iflag, ms, mt), reading n elements of each of xj, yj and cj. The plan is sound. |
| Direct.Dirft2d2 | finufft/interface.cpp:363-385 | Corrected dirft2d2_: it succeeds exactly when CheckType2 passes, with ms = fk.shape[1], mt = fk.shape[0] and output length n. The driver reads n elements of xj and of yj and mt * ms of fk. The plan is sound. |
| Direct.Dirft2d3 | finufft/interface.cpp:387-420 | Point-set checks, then target checks. The output length is nk = s.size. The driver reads n elements of each of xj, yj and cj and nk of each of s and t. The plan is sound. |
| AsWritten.Nufft2d2 | finufft/interface.cpp:196-198 | nufft2d2 as written. The rank error is raised exactly when xj or yj is not rank 1. If fk has rank below 2, the wrapper reads an extent past the end of the shape. A call is accepted exactly when xj and yj are flat and fk has rank at least 2, with ms = shape[1] and mt = shape[0]. The driver then reads n = xj.size elements of both xj and yj, and mt * ms elements of fk. |
| AsWritten.Dirft2d2 | finufft/interface.cpp:370-372 | dirft2d2_ as written: a rank error exactly when xj or yj is not rank 1 or fk is not rank 2. Otherwise it succeeds, whatever the lengths of xj and yj, and the driver reads n = xj.size elements of both xj and yj and mt * ms of fk. |
| AsWritten.Nufft2d2RankOneMode | finufft/interface.cpp:196-198 | A flat fk of 5 elements makes nufft2d2 as written read shape[1] out of range. The corrected wrapper rejects the same call with the existing rank message. |
| AsWritten.Nufft2d2EmptyTrailingAxis | finufft/interface.cpp:198 | An fk of shape (2, 3, 0) is accepted as written, and the driver is told to read 6 coefficients from an empty buffer. The corrected wrapper rejects it. |
| AsWritten.Type2ShortYj | finufft/interface.cpp:370-372 | With xj of 2 elements and yj of 1, both type-2 wrappers as written accept, and the driver reads 2 y-coordinates from a 1-element buffer. Both corrected wrappers reject the call with the length error. |
| AsWritten.CorrectionsAreConservative | finufft/interface.cpp:363-385 | Whenever a corrected wrapper accepts, the original returns the same plan. An accepted call of dirft2d2_ as written is sound exactly when xj and yj are equally long. |
| Agreement.FastAndDirectAgree1D | finufft/interface.cpp:261-308 | nufft1d1 and dirft1d1_, and nufft1d2 and dirft1d2_, fail with identical errors or succeed with identical output shapes and buffer reads. |
| Agreement.Type3Accepts1D | finufft/interface.cpp:310-335 | nufft1d3 and dirft1d3_ accept exactly the same calls and then allocate the same output. |
| Agreement.Type3ErrorOrder1D | finufft/interface.cpp:317-320 | With xj and cj of different lengths and a rank-2 s, nufft1d3 reports the lengths and dirft1d3_ reports the ranks. |
| Agreement.FastAndDirectAgree2D | finufft/interface.cpp:337-420 | For the 2D types 1 and 3, and for corrected type 2, the fast and direct wrappers fail identically or succeed with identical output shapes and reads. |
| Agreement.Type2LengthsUnchecked1D | finufft/interface.cpp:95-97 | Any two flat xj and fk are accepted by both 1D type-2 wrappers, with output length xj.size and ms = fk.size. |
| Agreement.Type2RankAsymmetry2D | finufft/interface.cpp:196-198 | As written, nufft2d2 accepts an fk of shape (2, 3, 4) as mt = 2, ms = 3, while dirft2d2_ rejects it. |
| Agreement.OptionsNeverChecked | finufft/interface.cpp:37-43 | For any two sets of scalar arguments, each fast wrapper fails identically or succeeds with the same output shape and reads: option values are never validated. |
| Agreement.FastWrappersNameThemselves | finufft/interface.cpp:83 | Each fast wrapper passes its own name to CHECK_FLAG (also lines 112, 148, 184, 213 and 253): whenever nufft1d1 … nufft2d3 accepts a call, `Plans.WrapperName` of its driver is "nufft1d1" … "nufft2d3", so a failing status is reported under that name. |
| Agreement.DefaultCall1d1 | finufft/interface.cpp:464-473 | A nufft1d1 call with only the arrays and ms reaches finufft1d1 with iflag 1, eps 1e-9 and options R 2.0, debug 0, spread_debug 0, spread_sort 1, estimate. |
| Options.AssembleOptions | finufft/interface.cpp:37-43 | R, debug, spread_debug, spread_sort and fftw are copied unchanged. There is no precondition, so no range check. |
| Options.DefaultOptions | finufft/interface.cpp:467-473 | The fast defaults registered for every fast wrapper (these lines for nufft1d1, repeated for the other five) assemble to (2.0, 0, 0, 1, estimate), with eps 1e-9 and iflag 1. The direct wrappers default iflag to the same 1, as registered at lines 652-657. |
| Status.CheckFlag | finufft/interface.cpp:45-50 | No error exactly when ier == 0. Otherwise the error is finufft_error("<name> failed with code <ier>"). |
| Status.IntToDecimalRoundTrip | finufft/interface.cpp:48 | The decimal rendering of any int, negative values included, parses back to the same int. |
| Status.FailureMessageCarriesCode | finufft/interface.cpp:48 | A failure message is the wrapper's name, then " failed with code ", then a suffix that parses back to ier. |
| Status.FailureMessageInjective | finufft/interface.cpp:48 | Two failures of one wrapper with different codes produce different messages. |
| Modes.DocumentedBandIsIntegerRange | finufft/interface.cpp:455-456 | k lies in the real interval [-ms/2, (ms-1)/2] exactly when -(ms div 2) <= k <= (ms-1) div 2. |
| Modes.BandHasOneSlotPerMode | finufft/interface.cpp:449-461 | The documented band holds exactly ms integers, matching the output length complex[ms]. Under the assumed backend storage order, position i holds mode i - ms div 2, which lies in the band. Every mode in the band is held at exactly one position. |
| Modes.ModesIncrease | finufft/interface.cpp:455-456 | Under the assumed backend storage order (the docstring gives only the range), positions hold the modes of the band in increasing order. |
| Modes.ModeAtExamples | finufft/interface.cpp:455-456 | Under the assumed backend storage order, for ms = 4 positions 0..3 hold -2..1, and for ms = 5 positions 0..4 hold -2..2: the band of line 456 for an even and an odd ms. |
| Execution.Backend.Run | finufft/interface.cpp:77-81 | The entry point is logged as called once. It returns the status the oracle gives for this call's place in the log, and fills the flat result buffer in place with that call's values. |
| Execution.Backend.RunGrid | finufft/interface.cpp:178-182 | The same for a (mt, ms) result, which is written in row-major order. |
| Scenarios.RetryMayDiffer | finufft/interface.cpp:77-83 | The same nufft1d1 call, made twice on one backend, can first raise finufft_error and then return its 4 modes: equal sizes do not force equal outcomes. |
| Execution.Invoke | finufft/interface.cpp:73-84 | Allocates the planned shape and calls the driver exactly once. A fast call fails exactly when the status is nonzero, with the CHECK_FLAG message. A direct call never fails. On success the fresh result holds what the backend wrote. |
| Execution.Call | finufft/interface.cpp:62-84 | A validation error is returned unchanged with no backend call. A valid request behaves as Invoke: one driver call, the CHECK_FLAG error for a nonzero fast status, and otherwise a fresh result of the planned shape holding what the backend wrote. |
| Scenarios.FailingStatusReported | finufft/interface.cpp:184 | nufft2d1 on three points with ms = 8 and mt = 5, with a backend returning status 2, fails with "nufft2d1 failed with code 2" after exactly one call, to finufft2d1. |
| Scenarios.GridResultShape | finufft/interface.cpp:174 | The same call with a backend returning 0 yields a 5 x 8 result: mt rows of ms modes. |
| Scenarios.RankErrorSkipsBackend | finufft/interface.cpp:64-65 | nufft1d1 with a 2 x 2 xj returns "xj and cj must be 1-dimensional" and the backend is never called. |

## Findings

| source | as written | input that shows it | evidently intended | confidence | as-written member | corrected member |
|---|---|---|---|---|---|---|
| finufft/interface.cpp:196-198 | nufft2d2 checks only the ranks of xj and yj, then reads fk.shape[1] and fk.shape[0] | fk of shape (5): shape[1] is read past the end (AsWritten.Nufft2d2RankOneMode). fk of shape (2, 3, 0): the driver reads 6 coefficients from an empty buffer (AsWritten.Nufft2d2EmptyTrailingAxis) | reject fk.ndim != 2, as the message says and as dirft2d2_ does at line 370 | high; not executed | AsWritten.Nufft2d2 | Interface2D.Nufft2d2 |
| finufft/interface.cpp:196-198 | nufft2d2 never compares xj.size with yj.size and passes n = xj.size for both | xj of 2 elements, yj of 1, fk of shape (1, 1) (AsWritten.Type2ShortYj) | reject unequal lengths, as every other 2D wrapper does for its point set | medium; not executed | AsWritten.Nufft2d2 | Interface2D.Nufft2d2 |
| finufft/interface.cpp:370-372 | dirft2d2_ never compares xj.size with yj.size and passes n = xj.size for both | xj of 2 elements, yj of 1, fk of shape (1, 1) (AsWritten.Type2ShortYj) | reject unequal lengths | medium; not executed | AsWritten.Dirft2d2 | Direct.Dirft2d2 |

## Left out

- The transform mathematics (the exponential sums in the docstrings), the accuracy reached for a given `eps`, and the numerical effect of `R` are left out. They are floating-point work done by the backends, which are not part of this model. The backend here is an oracle that returns a status and the values it writes.
- `eps` and `R` are doubles in the source and `real` in the model. They are only forwarded, so rounding plays no part.
- `ms` and `mt` are C integers converted with `size_t` for the 2D allocation. Their width, and any overflow of `mt * ms` or of an allocation size, is not modelled. Out-of-memory failures of the allocation are not modelled either.
- The NegativeDimensions error comes from the host array library, which is not part of this model. It is included because the source passes negative `ms`/`mt` straight to the allocation.
- The pybind11 machinery is reduced to its registered default values. That covers `request()`, pointers and casts, the module, enum and exception registration, and the keyword-argument binding itself. One detail is left out: `dirft1d3` registers its second argument under the keyword name "fk", although the wrapper treats it as the strengths `cj`.
- FFTW planning: `FFTWOptions` is a four-value token forwarded unchanged. Its meaning is not modelled.
- The twelve wrappers are not written as twelve methods. A full call is `Execution.Call` applied to a wrapper function's result. The allocation, backend call and status check are identical for all twelve, and their only differences are in the functions.
- Execution.Backend: the oracle does not see the contents of xj, yj, cj, s, t or fk, which the model does not carry. It stands in for them by being keyed on the call's place in the log as well as on the driver and its sizes. Nothing in the model relates the status or the values to the data, so the model promises nothing about the transform's results.
- For a direct entry point, `Backend.Run` still returns the oracle's status, and `Invoke` discards it. The real entry points return nothing.
- The mode-band docstring of `mt` in nufft2d1 names `ms` in its range. It is read as the same band with `mt` modes.
- The storage order of modes in the output (lowest mode at position 0) is the backend's convention, which `finufft/interface.cpp` does not state. `Modes.ModeAt` assumes it; the docstrings fix only the band and the length.
- Buffers are taken as contiguous. `Plans.Sound` compares element counts only. A strided or reversed NumPy view accepted by `py::array_t` would still be read as n contiguous elements from its data pointer, and the model does not capture that.
- The direct wrappers pass no name to any message, so `Plans.WrapperName` is defined for the fast entry points only.
- The build scripts (`finufft/build.py`, `setup.py`), the documentation configuration (`docs/conf.py`) and the package's import gating (`finufft/__init__.py`) are build and packaging plumbing. They are not part of this model. `__init__.py` also exports `nufft3d*` names that the interface does not define.
- The tests (`tests/test_2d.py`, `tests/test_3d.py`) compare floating-point results of the two backends and are not part of this model.
