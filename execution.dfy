/** The imperative tail every wrapper shares once its checks pass: allocate
    the result array in the planned shape, let the foreign entry point fill
    it in place, and (fast wrappers only) turn a nonzero status into an
    error naming the wrapper and the code. */
module Execution {
  import opened Shapes
  import opened Results
  import opened Status
  import opened Plans

  /** The foreign backends as an oracle: what status each entry point
      returns and what it writes at each position of the result, plus a log
      of the calls made, so that "no backend call" can be stated. Both
      oracles are keyed on the call's place in the log as well as on the
      driver: the entry points read the buffers' contents, which the model
      does not carry, so two calls with equal sizes may still differ. */
  class Backend {
    const status: (nat, Driver) -> int
    const values: (nat, Driver, nat) -> Cpx
    var calls: seq<Driver>

    constructor (status: (nat, Driver) -> int, values: (nat, Driver, nat) -> Cpx)
      ensures this.status == status && this.values == values && calls == []
    {
      this.status := status;
      this.values := values;
      calls := [];
    }

    /** Runs entry point `d` on a flat result buffer, which it fills in place. */
    method Run(d: Driver, out: array<Cpx>) returns (ier: int)
      modifies this, out
      ensures calls == old(calls) + [d]
      ensures ier == status(|old(calls)|, d)
      ensures forall i :: 0 <= i < out.Length ==> out[i] == values(|old(calls)|, d, i)
    {
      var k := |calls|;
      forall i | 0 <= i < out.Length {
        out[i] := values(k, d, i);
      }
      calls := calls + [d];
      ier := status(k, d);
    }

    /** Runs entry point `d` on a (rows, cols) result buffer; the backend
        writes it as contiguous row-major memory. */
    method RunGrid(d: Driver, out: array2<Cpx>) returns (ier: int)
      modifies this, out
      ensures calls == old(calls) + [d]
      ensures ier == status(|old(calls)|, d)
      ensures forall i, j :: 0 <= i < out.Length0 && 0 <= j < out.Length1 ==>
        out[i, j] == values(|old(calls)|, d, i * out.Length1 + j)
    {
      var k := |calls|;
      forall i, j | 0 <= i < out.Length0 && 0 <= j < out.Length1 {
        out[i, j] := values(k, d, i * out.Length1 + j);
      }
      calls := calls + [d];
      ier := status(k, d);
    }
  }

  /** The array a wrapper returns to Python. */
  datatype Output = VectorOut(vec: array<Cpx>) | MatrixOut(mat: array2<Cpx>)

  predicate HasShape(o: Output, s: OutShape)
  {
    match s
    case Vector(len) => o.VectorOut? && o.vec.Length == len
    case Matrix(rows, cols) => o.MatrixOut? && o.mat.Length0 == rows && o.mat.Length1 == cols
  }

  /** The result holds, at every position, what the backend wrote there in
      call number `k`, to `d`. */
  ghost predicate Filled(o: Output, values: (nat, Driver, nat) -> Cpx, k: nat, d: Driver)
    reads if o.VectorOut? then {o.vec} else {}, if o.MatrixOut? then {o.mat} else {}
  {
    match o
    case VectorOut(v) => forall i :: 0 <= i < v.Length ==> v[i] == values(k, d, i)
    case MatrixOut(m) =>
      forall i, j :: 0 <= i < m.Length0 && 0 <= j < m.Length1 ==> m[i, j] == values(k, d, i * m.Length1 + j)
  }

  /** Allocation, the one driver call, and CHECK_FLAG for the fast entry
      points; a direct entry point returns nothing, so nothing can fail after it. */
  method Invoke(p: Plan, be: Backend) returns (r: Result<Output>)
    modifies be
    ensures be.calls == old(be.calls) + [p.driver]
    ensures r.Err? <==> p.driver.IsFast() && be.status(|old(be.calls)|, p.driver) != 0
    ensures r.Err? ==>
      r.error == FinufftError(FailureMessage(WrapperName(p.driver), be.status(|old(be.calls)|, p.driver)))
    ensures r.Ok? ==> HasShape(r.value, p.output) && Filled(r.value, be.values, |old(be.calls)|, p.driver)
    ensures r.Ok? && r.value.VectorOut? ==> fresh(r.value.vec)
    ensures r.Ok? && r.value.MatrixOut? ==> fresh(r.value.mat)
  {
    var result: Output;
    var ier: int;
    match p.output {
      case Vector(len) =>
        var out := new Cpx[len];
        ier := be.Run(p.driver, out);
        result := VectorOut(out);
      case Matrix(rows, cols) =>
        var out := new Cpx[rows, cols];
        ier := be.RunGrid(p.driver, out);
        result := MatrixOut(out);
    }
    if p.driver.IsFast() {
      var e := CheckFlag(WrapperName(p.driver), ier);
      if e.Some? {
        return Err(e.value);
      }
    }
    r := Ok(result);
  }

  /** A whole wrapper call: the checks' verdict `request` (one of the
      wrapper functions applied to the caller's arguments), then, only if
      they pass, the allocation and the backend call. */
  method Call(request: Result<Plan>, be: Backend) returns (r: Result<Output>)
    modifies be
    ensures request.Err? ==> r.Err? && r.error == request.error && be.calls == old(be.calls)
    ensures request.Ok? ==> be.calls == old(be.calls) + [request.value.driver]
    ensures request.Ok? ==>
      (r.Err? <==> request.value.driver.IsFast() && be.status(|old(be.calls)|, request.value.driver) != 0)
    ensures request.Ok? && r.Err? ==>
      r.error == FinufftError(FailureMessage(WrapperName(request.value.driver), be.status(|old(be.calls)|, request.value.driver)))
    ensures request.Ok? && r.Ok? ==>
      HasShape(r.value, request.value.output) && Filled(r.value, be.values, |old(be.calls)|, request.value.driver)
    ensures r.Ok? && r.value.VectorOut? ==> fresh(r.value.vec)
    ensures r.Ok? && r.value.MatrixOut? ==> fresh(r.value.mat)
  {
    if request.Err? {
      return Err(request.error);
    }
    r := Invoke(request.value, be);
  }
}

/** Two uses of the wrappers that a caller can follow from the contracts
    alone: a shape error never reaches the backend, and a failing fast
    backend is reported with the wrapper's name and its code. */
module Scenarios {
  import opened Shapes
  import opened Results
  import opened Options
  import opened Status
  import opened Checks
  import opened Plans
  import opened Execution
  import Interface1D
  import Interface2D

  /** A 2 x 2 xj is refused before any allocation or backend call. */
  method RankErrorSkipsBackend(be: Backend) returns (r: Result<Output>)
    modifies be
    ensures r == Err(FinufftError(XjCjRank))
    ensures be.calls == old(be.calls)
  {
    r := Call(Interface1D.Nufft1d1(Buffer([2, 2]), Flat(4), 8, DefaultFastArgs), be);
  }

  /** nufft2d1 on three points with ms = 8, mt = 5 and a backend returning
      status 2 fails with "nufft2d1 failed with code 2", after one backend call. */
  method FailingStatusReported(values: (nat, Driver, nat) -> Cpx) returns (r: Result<Output>, calls: seq<Driver>)
    ensures r == Err(FinufftError("nufft2d1 failed with code 2"))
    ensures |calls| == 1 && calls[0].Finufft2d1?
  {
    var failing := new Backend((k, d) => 2, values);
    var request := Interface2D.Nufft2d1(Flat(3), Flat(3), Flat(3), 8, 5, DefaultFastArgs);
    assert request.Ok? && request.value.driver.Finufft2d1?;
    var d := request.value.driver;
    assert WrapperName(d) == "nufft2d1" && failing.status(0, d) == 2;
    assert FailureMessage("nufft2d1", 2) == "nufft2d1 failed with code 2" by {
      assert IntToDecimal(2) == "2";
    }
    r := Call(request, failing);
    calls := failing.calls;
  }

  /** Equal sizes do not force equal outcomes: with a backend whose first
      call fails and whose second succeeds, the same nufft1d1 call first
      raises, then returns its 4 modes. */
  method RetryMayDiffer(values: (nat, Driver, nat) -> Cpx) returns (first: Result<Output>, second: Result<Output>)
    ensures first.Err? && first.error.FinufftError?
    ensures second.Ok? && second.value.VectorOut? && second.value.vec.Length == 4
  {
    var be := new Backend((k, d) => if k == 0 then 1 else 0, values);
    var request := Interface1D.Nufft1d1(Flat(3), Flat(3), 4, DefaultFastArgs);
    assert request.Ok? && request.value.output == Vector(4) && request.value.driver.IsFast();
    first := Call(request, be);
    second := Call(request, be);
  }

  /** The same call with a backend returning 0 yields a 5 x 8 result: mt rows of ms modes. */
  method GridResultShape(values: (nat, Driver, nat) -> Cpx) returns (r: Result<Output>)
    ensures r.Ok? && r.value.MatrixOut? && r.value.mat.Length0 == 5 && r.value.mat.Length1 == 8
  {
    var working := new Backend((k, d) => 0, values);
    var request := Interface2D.Nufft2d1(Flat(3), Flat(3), Flat(3), 8, 5, DefaultFastArgs);
    assert request.Ok? && request.value.output == Matrix(5, 8);
    r := Call(request, working);
  }
}
