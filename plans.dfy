/** What a wrapper hands to a backend once its checks pass: the shape of the
    output it allocates, the driver entry point with its integer arguments,
    and which input buffers the driver reads and how many elements of each. */
module Plans {
  import opened Shapes
  import opened Options

  /** Shape of the allocated result: a flat array, or a row-major
      (rows, cols) array. */
  datatype OutShape = Vector(len: nat) | Matrix(rows: nat, cols: nat)

  function OutCount(o: OutShape): nat
  {
    match o
    case Vector(len) => len
    case Matrix(rows, cols) => rows * cols
  }

  /** The twelve backend entry points with the sizes, sign and (for the fast
      ones) tolerance and options they receive. Pointers are not modelled;
      the buffers behind them are listed in the plan's `inputs`. */
  datatype Driver =
    | Finufft1d1(n: nat, iflag: int, eps: real, ms: nat, opts: NufftOpts)
    | Finufft1d2(n: nat, iflag: int, eps: real, ms: nat, opts: NufftOpts)
    | Finufft1d3(n: nat, iflag: int, eps: real, nk: nat, opts: NufftOpts)
    | Finufft2d1(n: nat, iflag: int, eps: real, ms: nat, mt: nat, opts: NufftOpts)
    | Finufft2d2(n: nat, iflag: int, eps: real, ms: nat, mt: nat, opts: NufftOpts)
    | Finufft2d3(n: nat, iflag: int, eps: real, nk: nat, opts: NufftOpts)
    | Dirft1d1(n: nat, iflag: int, ms: nat)
    | Dirft1d2(n: nat, iflag: int, ms: nat)
    | Dirft1d3(n: nat, iflag: int, nk: nat)
    | Dirft2d1(n: nat, iflag: int, ms: nat, mt: nat)
    | Dirft2d2(n: nat, iflag: int, ms: nat, mt: nat)
    | Dirft2d3(n: nat, iflag: int, nk: nat)
  {
    /** The fast entry points return a status; the direct ones return nothing. */
    predicate IsFast()
    {
      Finufft1d1? || Finufft1d2? || Finufft1d3? || Finufft2d1? || Finufft2d2? || Finufft2d3?
    }

    /** Number of result elements the entry point writes, as its documented
        array lengths say: complex[ms], complex[n], complex[nk], complex[mt, ms]. */
    function Writes(): nat
    {
      match this
      case Finufft1d1(_, _, _, ms, _) => ms
      case Finufft1d2(n, _, _, _, _) => n
      case Finufft1d3(_, _, _, nk, _) => nk
      case Finufft2d1(_, _, _, ms, mt, _) => mt * ms
      case Finufft2d2(n, _, _, _, _, _) => n
      case Finufft2d3(_, _, _, nk, _) => nk
      case Dirft1d1(_, _, ms) => ms
      case Dirft1d2(n, _, _) => n
      case Dirft1d3(_, _, nk) => nk
      case Dirft2d1(_, _, ms, mt) => mt * ms
      case Dirft2d2(n, _, _, _) => n
      case Dirft2d3(_, _, nk) => nk
    }
  }

  /** The name a fast wrapper passes to CHECK_FLAG for its entry point. The
      direct entry points report no status, so no message names them. */
  function WrapperName(d: Driver): string
    requires d.IsFast()
  {
    match d
    case Finufft1d1(_, _, _, _, _) => "nufft1d1"
    case Finufft1d2(_, _, _, _, _) => "nufft1d2"
    case Finufft1d3(_, _, _, _, _) => "nufft1d3"
    case Finufft2d1(_, _, _, _, _, _) => "nufft2d1"
    case Finufft2d2(_, _, _, _, _, _) => "nufft2d2"
    case Finufft2d3(_, _, _, _, _) => "nufft2d3"
  }

  /** An input buffer passed by pointer, and how many elements the entry
      point reads from it (n for xj, yj, cj; nk for s, t; ms, or mt * ms, for fk). */
  datatype Access = Access(buffer: Buffer, count: nat)

  datatype Plan = Plan(output: OutShape, driver: Driver, inputs: seq<Access>)

  /** The foreign call reads and writes exactly as many elements as its
      buffers hold: the allocated output has exactly as many elements as the
      driver writes, and each input buffer exactly as many as the driver
      reads from it. An input longer than what is read is not Sound either,
      though it is not over-read (OverReads). */
  predicate Sound(p: Plan)
  {
    OutCount(p.output) == p.driver.Writes() &&
    forall i :: 0 <= i < |p.inputs| ==> p.inputs[i].count == p.inputs[i].buffer.Size()
  }

  /** Some input buffer is shorter than what the driver reads from it. */
  predicate OverReads(p: Plan)
  {
    exists i :: 0 <= i < |p.inputs| && p.inputs[i].count > p.inputs[i].buffer.Size()
  }
}
