/**
 * The request checks of the GemminiDevA kernel driver
 * (tests/test-progs/gemmini-apps/driver/gemmini_dev_a_drv.c):
 * `gemmini_calc_sizes`, the validation, register and clean-up sequence of
 * `gemmini_dev_a_ioctl`, and the MMIO resource that `gemmini_dev_a_init`
 * registers.
 *
 * The kernel is an environment: whether copies from and to user space succeed,
 * whether each `dma_alloc_coherent` succeeds and which DMA address it hands out,
 * and whether `gemmini_wait_done` sees the STATUS register set before its time
 * runs out. What the driver does to the device and to its buffers is recorded as
 * a trace of `Action`s.
 */
module GemminiDriver {
  import opened Wrappers

  // ---------------------------------------------------------------------------
  // Machine integers, error numbers and the request
  // ---------------------------------------------------------------------------

  const U32_MAX: nat := 0xFFFF_FFFF
  const U64_MAX: nat := 0xFFFF_FFFF_FFFF_FFFF

  type u32 = x: nat | x <= 0xFFFF_FFFF
  type u64 = x: nat | x <= 0xFFFF_FFFF_FFFF_FFFF

  /** Unsigned 64-bit arithmetic keeps the value modulo 2^64. */
  function Wrap64(x: nat): (r: u64)
    ensures x <= U64_MAX ==> r == x
  {
    x % (U64_MAX + 1)
  }

  /** `SIZE_MAX` is 2^32 - 1 on a 32-bit kernel and 2^64 - 1 on a 64-bit one. */
  predicate ValidSizeMax(sizeMax: nat) { sizeMax == U32_MAX || sizeMax == U64_MAX }

  // Linux error numbers; the driver returns their negations.
  const EFAULT: int := 14
  const ENOMEM: int := 12
  const EINVAL: int := 22
  const ENOTTY: int := 25
  const ETIMEDOUT: int := 110

  /** `_IOWR(type, nr, size)` of the generic Linux ioctl encoding: both transfer
      directions in bits 30-31, the argument size in bits 16-29, the type in bits
      8-15 and the number in bits 0-7. */
  function Iowr(typ: nat, nr: nat, size: nat): nat
    requires typ < 0x100 && nr < 0x100 && size < 0x4000
  {
    3 * 0x4000_0000 + size * 0x1_0000 + typ * 0x100 + nr
  }

  /** `struct gemmini_dev_a_req`: three u64 user pointers and four u32 fields. */
  datatype Request = Request(
    mUser: u64, kUser: u64, oUser: u64,
    mSize: u32, kSize: u32, opcode: u32, reserved: u32)

  const REQUEST_BYTES: nat := 3 * 8 + 4 * 4

  /** `GEMMINI_DEV_A_IOC_RUN`, magic 'G', number 0, argument the request. */
  const IOC_RUN: nat := Iowr('G' as nat, 0, REQUEST_BYTES)

  lemma IocRunValue()
    ensures IOC_RUN == 0xC028_4700
  {
  }

  // ---------------------------------------------------------------------------
  // Opcodes
  // ---------------------------------------------------------------------------

  /** `enum gemmini_dev_a_opcode`, numbered 0 to 8 in this order. */
  datatype Opcode =
    | Conv2d | Conv2dGemm | Conv3d | Conv3dGemm | Maxpool | MaxpoolGemm | Relu | Mm | MmGemm

  function OpcodeValue(op: Opcode): (v: nat)
    ensures v <= 8
  {
    match op
    case Conv2d => 0
    case Conv2dGemm => 1
    case Conv3d => 2
    case Conv3dGemm => 3
    case Maxpool => 4
    case MaxpoolGemm => 5
    case Relu => 6
    case Mm => 7
    case MmGemm => 8
  }

  /** The case label of the `switch (req->opcode)` that a value selects, if any. */
  function OpcodeOf(v: nat): (r: Option<Opcode>)
    ensures r.Some? <==> v <= 8
    ensures r.Some? ==> OpcodeValue(r.value) == v
  {
    if v == 0 then Some(Conv2d)
    else if v == 1 then Some(Conv2dGemm)
    else if v == 2 then Some(Conv3d)
    else if v == 3 then Some(Conv3dGemm)
    else if v == 4 then Some(Maxpool)
    else if v == 5 then Some(MaxpoolGemm)
    else if v == 6 then Some(Relu)
    else if v == 7 then Some(Mm)
    else if v == 8 then Some(MmGemm)
    else None
  }

  /** Every opcode is selected by its own enum value, and by no other. */
  lemma OpcodeRoundTrip(op: Opcode, v: nat)
    ensures OpcodeOf(OpcodeValue(op)) == Some(op)
    ensures OpcodeOf(v) == Some(op) <==> v == OpcodeValue(op)
  {
  }

  predicate IsMaxpool(op: Opcode) { op == Maxpool || op == MaxpoolGemm }

  /** The opcodes whose case rejects `k_size == 0`: the convolutions and the pools. */
  predicate NeedsK(op: Opcode) { op != Relu && op != Mm && op != MmGemm }

  // ---------------------------------------------------------------------------
  // gemmini_calc_sizes: the reference definition
  // ---------------------------------------------------------------------------

  /** Element counts of the M (input), K (kernel) and O (output) buffers. */
  datatype Elems = Elems(m: nat, k: nat, o: nat)

  /** Byte lengths of the three buffers. */
  datatype Sizes = Sizes(mBytes: nat, kBytes: nat, oBytes: nat)

  /** Whether the sizes are an acceptable shape for the opcode, before any count
      is computed. */
  predicate ShapeOk(op: Opcode, m: nat, k: nat)
  {
    m > 0 && (NeedsK(op) ==> k > 0) && (IsMaxpool(op) ==> m % k == 0)
  }

  /** The element counts in exact arithmetic, as each case means them: a square
      or cube of side `m` (times a kernel of side `k` for the GEMM forms), a kernel
      of side `k`, and the pooled output `(m/k)^2`. */
  function ElemCounts(op: Opcode, m: nat, k: nat): Elems
    requires IsMaxpool(op) ==> k > 0
  {
    match op
    case Conv2d => Elems(m * m, k * k, m * m)
    case Conv2dGemm => Elems(m * m * k * k, k * k, m * m)
    case Conv3d => Elems(m * m * m, k * k * k, m * m * m)
    case Conv3dGemm => Elems(m * m * m * (k * k * k), k * k * k, m * m * m)
    case Maxpool => Elems(m * m, 0, (m / k) * (m / k))
    case MaxpoolGemm => Elems(m * m, 0, (m / k) * (m / k))
    case Relu => Elems(m * m, 0, m * m)
    case Mm => Elems(m * m, m * m, m * m)
    case MmGemm => Elems(m * m, m * m, m * m)
  }

  /** 4 bytes (`sizeof(float)`) per element, each length at most `SIZE_MAX`. */
  predicate BytesFit(e: Elems, sizeMax: nat)
  {
    4 * e.m <= sizeMax && 4 * e.k <= sizeMax && 4 * e.o <= sizeMax
  }

  /**
   * What `gemmini_calc_sizes` computes, stated without its order of checks:
   * the request fails with -EINVAL when `m_size` is 0, the opcode is not one of
   * the nine, the shape is wrong for the opcode, or some buffer would exceed
   * `SIZE_MAX` bytes; otherwise each buffer holds 4 bytes per element.
   */
  function CalcSizesSpec(req: Request, sizeMax: nat): Result<Sizes, int>
  {
    if req.mSize == 0 then Err(-EINVAL)
    else match OpcodeOf(req.opcode)
      case None => Err(-EINVAL)
      case Some(op) =>
        if !ShapeOk(op, req.mSize, req.kSize) then Err(-EINVAL)
        else
          var e := ElemCounts(op, req.mSize, req.kSize);
          if BytesFit(e, sizeMax) then Ok(Sizes(4 * e.m, 4 * e.k, 4 * e.o)) else Err(-EINVAL)
  }

  // ---------------------------------------------------------------------------
  // gemmini_calc_sizes: the code
  // ---------------------------------------------------------------------------

  datatype Product = Product(overflow: bool, value: u64)

  /** `check_mul_overflow(a, b, &d)` on u64: whether the product wraps, and the
      product modulo 2^64 that it stores. */
  function CheckMulOverflow(a: u64, b: u64): (r: Product)
    ensures r.overflow <==> a * b > U64_MAX
    ensures !r.overflow ==> r.value == a * b
  {
    Product(a * b > U64_MAX, Wrap64(a * b))
  }

  lemma MulGrows(a: nat, b: nat)
    requires b >= 1
    ensures a <= a * b
  {
    assert a * b == a * (b - 1) + a;
  }

  lemma MulMono(a: nat, b: nat, c: nat, d: nat)
    requires a <= c && b <= d
    ensures a * b <= c * d
  {
    assert c * d - a * b == (c - a) * d + a * (d - b);
  }

  /**
   * `gemmini_calc_sizes(req, &m_bytes, &k_bytes, &o_bytes)`: the `switch` with
   * its checked u64 products and reused temporaries, then the byte lengths. The
   * out-parameters are the caller's zero-initialised `size_t`s; on failure the
   * source may already have stored some of them, and the caller ignores them.
   */
  method CalcSizes(req: Request, sizeMax: nat) returns (ret: int, mBytes: nat, kBytes: nat, oBytes: nat)
    requires ValidSizeMax(sizeMax)
    ensures ret == 0 || ret == -EINVAL
    ensures ret == 0 <==> CalcSizesSpec(req, sizeMax).Ok?
    ensures ret == 0 ==> CalcSizesSpec(req, sizeMax).value == Sizes(mBytes, kBytes, oBytes)
  {
    mBytes, kBytes, oBytes := 0, 0, 0;
    var m: u64 := req.mSize;
    var k: u64 := req.kSize;
    if m == 0 {
      return -EINVAL, 0, 0, 0;
    }
    var op := OpcodeOf(req.opcode);
    if op.None? {
      return -EINVAL, 0, 0, 0;
    }
    var ok, mElems, kElems, oElems := CountElements(op.value, m, k);
    if !ok {
      return -EINVAL, 0, 0, 0;
    }
    var e := ElemCounts(op.value, req.mSize, req.kSize);
    assert e == Elems(mElems, kElems, oElems);

    var p := CheckMulOverflow(mElems, 4);
    if p.overflow || p.value > sizeMax {
      return -EINVAL, 0, 0, 0;
    }
    mBytes := p.value;

    if kElems != 0 {
      p := CheckMulOverflow(kElems, 4);
      if p.overflow || p.value > sizeMax {
        return -EINVAL, 0, 0, 0;
      }
      kBytes := p.value;
    } else {
      kBytes := 0;
    }

    p := CheckMulOverflow(oElems, 4);
    if p.overflow || p.value > sizeMax {
      return -EINVAL, 0, 0, 0;
    }
    oBytes := p.value;
    ret := 0;
  }

  /**
   * The `switch (req->opcode)` of `gemmini_calc_sizes` for a non-zero `m_size`:
   * it succeeds exactly when the shape suits the opcode and every element count
   * fits in a u64, and then yields the element counts.
   */
  method CountElements(op: Opcode, m: u64, k: u64) returns (ok: bool, mElems: u64, kElems: u64, oElems: u64)
    requires 0 < m <= U32_MAX && k <= U32_MAX
    ensures ok <==> (ShapeOk(op, m, k) &&
      var e := ElemCounts(op, m, k); e.m <= U64_MAX && e.k <= U64_MAX && e.o <= U64_MAX)
    ensures ok ==> ShapeOk(op, m, k) && Elems(mElems, kElems, oElems) == ElemCounts(op, m, k)
  {
    mElems, kElems, oElems := 0, 0, 0;
    var tmp: u64 := 0;
    var p: Product;
    SquareFits(m);
    SquareFits(k);
    match op {
      case Conv2d =>
        if k == 0 { return false, 0, 0, 0; }
        p := CheckMulOverflow(m, m);
        mElems := p.value;
        p := CheckMulOverflow(k, k);
        kElems := p.value;
        oElems := mElems;
      case Conv2dGemm =>
        if k == 0 { return false, 0, 0, 0; }
        p := CheckMulOverflow(m, m);
        tmp := p.value;
        p := CheckMulOverflow(tmp, k);
        if p.overflow {
          MulGrows(m * m * k, k);
          return false, 0, 0, 0;
        }
        tmp := p.value;
        p := CheckMulOverflow(tmp, k);
        if p.overflow { return false, 0, 0, 0; }
        mElems := p.value;
        p := CheckMulOverflow(k, k);
        kElems := p.value;
        p := CheckMulOverflow(m, m);
        oElems := p.value;
      case Conv3d =>
        if k == 0 { return false, 0, 0, 0; }
        p := CheckMulOverflow(m, m);
        tmp := p.value;
        p := CheckMulOverflow(tmp, m);
        if p.overflow { return false, 0, 0, 0; }
        mElems := p.value;
        p := CheckMulOverflow(k, k);
        tmp := p.value;
        p := CheckMulOverflow(tmp, k);
        if p.overflow { return false, 0, 0, 0; }
        kElems := p.value;
        oElems := mElems;
      case Conv3dGemm =>
        if k == 0 { return false, 0, 0, 0; }
        MulGrows(m * m * m, k * k * k) by { MulGrows(k * k, k); MulGrows(k, k); }
        MulGrows(k * k * k, m * m * m) by { MulGrows(m * m, m); MulGrows(m, m); }
        p := CheckMulOverflow(m, m);
        tmp := p.value;
        p := CheckMulOverflow(tmp, m);
        if p.overflow { return false, 0, 0, 0; }
        tmp := p.value;
        p := CheckMulOverflow(k, k);
        kElems := p.value;
        p := CheckMulOverflow(kElems, k);
        if p.overflow { return false, 0, 0, 0; }
        kElems := p.value;
        p := CheckMulOverflow(tmp, kElems);
        if p.overflow { return false, 0, 0, 0; }
        mElems := p.value;
        oElems := tmp;
      case Maxpool =>
        ok, mElems, kElems, oElems := PoolElements(m, k);
        return;
      case MaxpoolGemm =>
        ok, mElems, kElems, oElems := PoolElements(m, k);
        return;
      case Relu =>
        p := CheckMulOverflow(m, m);
        mElems := p.value;
        oElems := mElems;
        kElems := 0;
      case Mm =>
        p := CheckMulOverflow(m, m);
        mElems := p.value;
        kElems := mElems;
        oElems := mElems;
      case MmGemm =>
        p := CheckMulOverflow(m, m);
        mElems := p.value;
        kElems := mElems;
        oElems := mElems;
    }
    ok := true;
  }

  /** The shared case of MAXPOOL and MAXPOOL_GEMM: `m_size` must be a non-zero
      multiple of `k_size`; the output count `(m/k)*(m/k)` is an unchecked u64
      product. */
  method PoolElements(m: u64, k: u64) returns (ok: bool, mElems: u64, kElems: u64, oElems: u64)
    requires 0 < m <= U32_MAX && k <= U32_MAX
    ensures ok <==> k > 0 && m % k == 0
    ensures ok ==> mElems == m * m && kElems == 0 && oElems == (m / k) * (m / k)
  {
    mElems, kElems, oElems := 0, 0, 0;
    if k == 0 { return false, 0, 0, 0; }
    if m % k != 0 { return false, 0, 0, 0; }
    SquareFits(m);
    var p := CheckMulOverflow(m, m);
    mElems := p.value;
    var q := m / k;
    QuotientFits(m, k);
    oElems := Wrap64(q * q);
    kElems := 0;
    ok := true;
  }

  // ---------------------------------------------------------------------------
  // gemmini_calc_sizes: properties
  // ---------------------------------------------------------------------------

  /** The square of a quotient of a u32 never overflows a u64. */
  lemma QuotientFits(m: nat, k: nat)
    requires m <= U32_MAX && k > 0
    ensures (m / k) * (m / k) <= U64_MAX
  {
    assert m / k <= m;
    SquareFits(m / k);
  }

  /** The square of a u32 never overflows a u64. */
  lemma SquareFits(m: nat)
    requires m <= U32_MAX
    ensures m * m <= U64_MAX
  {
    MulMono(m, m, U32_MAX, U32_MAX);
  }

  /** A zero `m_size` and an opcode outside the enum are rejected whatever else
      the request says; every failure is -EINVAL. */
  lemma CalcSizesRejects(req: Request, sizeMax: nat)
    ensures req.mSize == 0 ==> CalcSizesSpec(req, sizeMax) == Err(-EINVAL)
    ensures req.opcode > 8 ==> CalcSizesSpec(req, sizeMax) == Err(-EINVAL)
    ensures CalcSizesSpec(req, sizeMax).Err? ==> CalcSizesSpec(req, sizeMax).error == -EINVAL
  {
  }

  /** The convolutions and pools reject `k_size == 0`; RELU, MM and MM_GEMM never
      look at `k_size`, so a request with any `k_size` gets the same answer. */
  lemma KSizeRules(req: Request, sizeMax: nat, k: u32)
    ensures OpcodeOf(req.opcode).Some? && NeedsK(OpcodeOf(req.opcode).value) && req.kSize == 0 ==>
      CalcSizesSpec(req, sizeMax) == Err(-EINVAL)
    ensures OpcodeOf(req.opcode).Some? && !NeedsK(OpcodeOf(req.opcode).value) ==>
      CalcSizesSpec(req.(kSize := k), sizeMax) == CalcSizesSpec(req, sizeMax)
  {
  }

  /** On success the byte lengths are four times the element counts of the
      opcode's formula, and `k_bytes` is 0 exactly for the pools and RELU. */
  lemma CalcSizesSuccess(req: Request, sizeMax: nat)
    requires CalcSizesSpec(req, sizeMax).Ok?
    ensures var op := OpcodeOf(req.opcode).value;
      var s := CalcSizesSpec(req, sizeMax).value;
      var m := req.mSize;
      var k := req.kSize;
      (op == Conv2d ==> s == Sizes(4 * (m * m), 4 * (k * k), 4 * (m * m))) &&
      (op == Conv2dGemm ==> s == Sizes(4 * (m * m * k * k), 4 * (k * k), 4 * (m * m))) &&
      (op == Conv3d ==> s == Sizes(4 * (m * m * m), 4 * (k * k * k), 4 * (m * m * m))) &&
      (op == Conv3dGemm ==> s == Sizes(4 * (m * m * m * (k * k * k)), 4 * (k * k * k), 4 * (m * m * m))) &&
      (IsMaxpool(op) ==> m % k == 0 && s == Sizes(4 * (m * m), 0, 4 * ((m / k) * (m / k)))) &&
      (op == Relu ==> s == Sizes(4 * (m * m), 0, 4 * (m * m))) &&
      ((op == Mm || op == MmGemm) ==> s == Sizes(4 * (m * m), 4 * (m * m), 4 * (m * m)))
  {
  }

  /** On success `k_bytes` is 0 exactly for the pools and RELU, the opcodes that
      use no kernel buffer. */
  lemma KBytesZero(req: Request, sizeMax: nat)
    requires CalcSizesSpec(req, sizeMax).Ok?
    ensures var op := OpcodeOf(req.opcode).value;
      CalcSizesSpec(req, sizeMax).value.kBytes == 0 <==> IsMaxpool(op) || op == Relu
  {
    var op := OpcodeOf(req.opcode).value;
    KCountZero(op, req.mSize, req.kSize);
  }

  lemma KCountZero(op: Opcode, m: nat, k: nat)
    requires ShapeOk(op, m, k)
    ensures ElemCounts(op, m, k).k == 0 <==> IsMaxpool(op) || op == Relu
  {
    if op == Conv2d || op == Conv2dGemm {
      MulGrows(k, k);
    } else if op == Conv3d || op == Conv3dGemm {
      MulGrows(k, k);
      MulGrows(k * k, k);
    } else if op == Mm || op == MmGemm {
      MulGrows(m, m);
    }
  }

  /** On a 64-bit kernel, RELU (and likewise MM) succeeds exactly for sides below
      2^31: the element count always fits, but the byte length of a larger square
      does not. */
  lemma ReluLimit(req: Request)
    requires OpcodeOf(req.opcode) == Some(Relu)
    ensures CalcSizesSpec(req, U64_MAX).Ok? <==> 0 < req.mSize < 0x8000_0000
  {
    var m := req.mSize;
    if 0 < m < 0x8000_0000 {
      MulMono(m, m, 0x7FFF_FFFF, 0x7FFF_FFFF);
    } else if m >= 0x8000_0000 {
      MulMono(0x8000_0000, 0x8000_0000, m, m);
    }
  }

  /** A kernel-sized CONV3D_GEMM request overflows: with sides of 2^11 the input
      has 2^66 elements, so the last checked product wraps and the request is
      rejected even though each side fits easily. */
  lemma Conv3dGemmOverflows()
    ensures var req := Request(1, 1, 1, 0x800, 0x800, OpcodeValue(Conv3dGemm), 0);
      ShapeOk(Conv3dGemm, req.mSize, req.kSize) &&
      ElemCounts(Conv3dGemm, req.mSize, req.kSize).m > U64_MAX &&
      CheckMulOverflow(0x800 * 0x800 * 0x800, 0x800 * 0x800 * 0x800).overflow &&
      CalcSizesSpec(req, U64_MAX) == Err(-EINVAL)
  {
  }

  /** The unchecked pooled output count never wraps: it is at most the input's. */
  lemma PoolOutputBounded(m: nat, k: nat)
    requires m <= U32_MAX && k > 0
    ensures (m / k) * (m / k) <= m * m <= U64_MAX
  {
    MulMono(m / k, m / k, m, m);
    SquareFits(m);
  }

  /** Whatever a 32-bit kernel accepts, a 64-bit kernel accepts with the same
      sizes. */
  lemma WiderSizeMaxAcceptsMore(req: Request)
    requires CalcSizesSpec(req, U32_MAX).Ok?
    ensures CalcSizesSpec(req, U64_MAX) == CalcSizesSpec(req, U32_MAX)
  {
  }

  // ---------------------------------------------------------------------------
  // gemmini_dev_a_ioctl
  // ---------------------------------------------------------------------------

  const REG_ADDR_M: nat := 0x00
  const REG_ADDR_K: nat := 0x08
  const REG_ADDR_O: nat := 0x10
  const REG_SIZE_M: nat := 0x18
  const REG_SIZE_K: nat := 0x20
  const REG_OPCODE: nat := 0x28
  const REG_START: nat := 0x30
  const REG_STATUS: nat := 0x38

  datatype Buffer = MBuf | KBuf | OBuf

  /** A coherent DMA buffer the allocator handed out. */
  datatype Grant = Grant(buf: Buffer, bytes: nat, dma: u64)

  datatype Action =
    | Lock                                     // mutex_lock
    | Unlock                                   // mutex_unlock
    | Alloc(grant: Grant)                      // dma_alloc_coherent succeeded
    | AllocFailed(buf: Buffer, bytes: nat)     // dma_alloc_coherent returned NULL
    | CopyIn(buf: Buffer, user: u64, bytes: nat) // copy_from_user into a buffer
    | ZeroFill(buf: Buffer, bytes: nat)        // memset(buf, 0, bytes)
    | WriteReg(offset: nat, value: nat)        // writeq(value, regs + offset)
    | WaitDone                                 // gemmini_wait_done polls STATUS
    | CopyOut(user: u64, bytes: nat)           // copy_to_user from the output buffer
    | Free(grant: Grant)                       // dma_free_coherent

  /** What the kernel answers, one field per call whose outcome the driver
      tests. */
  datatype Env = Env(
    reqReadable: bool, req: Request,
    allocM: bool, allocK: bool, allocO: bool,
    mDma: u64, kDma: u64, oDma: u64,
    copyM: bool, copyK: bool,
    timedOut: bool,
    copyOut: bool)

  datatype Outcome = Outcome(ret: int, trace: seq<Action>)

  /** The seven register writes that start the device, in program order. */
  function StartWrites(req: Request, s: Sizes, env: Env): seq<Action>
  {
    [WriteReg(REG_ADDR_M, env.mDma),
     WriteReg(REG_ADDR_K, if s.kBytes != 0 then env.kDma else 0),
     WriteReg(REG_ADDR_O, env.oDma),
     WriteReg(REG_SIZE_M, req.mSize),
     WriteReg(REG_SIZE_K, req.kSize),
     WriteReg(REG_OPCODE, req.opcode),
     WriteReg(REG_START, 1)]
  }

  /** What happens between taking the lock and the `out:` label: the return
      value, the actions, and the grants obtained, in order of allocation. */
  datatype Critical = Critical(ret: int, actions: seq<Action>, grants: seq<Grant>)

  /** The three `dma_alloc_coherent` calls (the kernel buffer only when
      `k_bytes` is non-zero); `ret` is 0 when all of them succeed. */
  function AllocSpec(s: Sizes, env: Env): Critical
  {
    var gm := Grant(MBuf, s.mBytes, env.mDma);
    var gk := Grant(KBuf, s.kBytes, env.kDma);
    var go := Grant(OBuf, s.oBytes, env.oDma);
    var useK := s.kBytes != 0;
    if !env.allocM then Critical(-ENOMEM, [AllocFailed(MBuf, s.mBytes)], [])
    else if useK && !env.allocK then Critical(-ENOMEM, [Alloc(gm), AllocFailed(KBuf, s.kBytes)], [gm])
    else
      var ks := if useK then [Alloc(gk)] else [];
      var gks := if useK then [gk] else [];
      if !env.allocO then Critical(-ENOMEM, [Alloc(gm)] + ks + [AllocFailed(OBuf, s.oBytes)], [gm] + gks)
      else Critical(0, [Alloc(gm)] + ks + [Alloc(go)], [gm] + gks + [go])
  }

  function CriticalSpec(req: Request, s: Sizes, env: Env): Critical
  {
    var a := AllocSpec(s, env);
    if a.ret != 0 then a
    else
      var d := DeviceSpec(req, s, env);
      Critical(d.0, a.actions + d.1, a.grants)
  }

  /** The part of the critical section after the three allocations. */
  function DeviceSpec(req: Request, s: Sizes, env: Env): (int, seq<Action>)
  {
    var useK := s.kBytes != 0;
    var a3 := [CopyIn(MBuf, req.mUser, s.mBytes)];
    if !env.copyM then (-EFAULT, a3)
    else
      var a4 := a3 + (if useK then [CopyIn(KBuf, req.kUser, s.kBytes)] else []);
      if useK && !env.copyK then (-EFAULT, a4)
      else
        var a5 := a4 + [ZeroFill(OBuf, s.oBytes)] + StartWrites(req, s, env) + [WaitDone];
        if env.timedOut then (-ETIMEDOUT, a5)
        else (if env.copyOut then 0 else -EFAULT, a5 + [CopyOut(req.oUser, s.oBytes)])
  }

  function Reverse<T>(xs: seq<T>): (r: seq<T>)
    ensures |r| == |xs|
  {
    if xs == [] then [] else Reverse(xs[1..]) + [xs[0]]
  }

  /** Element `i` of the reversal is element `|xs| - 1 - i` of the original. */
  lemma {:induction false} ReverseAt<T>(xs: seq<T>)
    ensures forall i :: 0 <= i < |xs| ==> Reverse(xs)[i] == xs[|xs| - 1 - i]
  {
    if xs != [] {
      ReverseAt(xs[1..]);
      forall i | 0 <= i < |xs| - 1 ensures Reverse(xs)[i] == xs[|xs| - 1 - i] {
        assert Reverse(xs)[i] == Reverse(xs[1..])[i];
      }
    }
  }

  function FreeAll(gs: seq<Grant>): (r: seq<Action>)
    ensures |r| == |gs|
  {
    if gs == [] then [] else [Free(gs[0])] + FreeAll(gs[1..])
  }

  function OptSeq<T>(o: Option<T>): seq<T> { if o.Some? then [o.value] else [] }

  function OptFree(o: Option<Grant>): seq<Action> { if o.Some? then [Free(o.value)] else [] }

  /** The three `if (buf) dma_free_coherent(...)` of the clean-up free the held
      grants in the reverse of their allocation order. */
  lemma FreeInReverse(a: Option<Grant>, b: Option<Grant>, c: Option<Grant>)
    ensures FreeAll(Reverse(OptSeq(a) + OptSeq(b) + OptSeq(c))) == OptFree(c) + OptFree(b) + OptFree(a)
  {
    var xs := OptSeq(a) + OptSeq(b) + OptSeq(c);
    if |xs| == 3 {
      var x, y, z := xs[0], xs[1], xs[2];
      assert xs == [x, y, z];
      assert [x, y, z][1..] == [y, z];
      assert [y, z][1..] == [z];
      assert Reverse([z]) == [z];
      assert Reverse([y, z]) == [z, y];
      assert Reverse(xs) == [z, y, x];
      assert FreeAll([z, y, x]) == [Free(z), Free(y), Free(x)] by {
        assert [z, y, x][1..] == [y, x];
        assert [y, x][1..] == [x];
        assert FreeAll([x]) == [Free(x)];
        assert FreeAll([y, x]) == [Free(y), Free(x)];
      }
    } else if |xs| == 2 {
      var x, y := xs[0], xs[1];
      assert xs == [x, y];
      assert [x, y][1..] == [y];
      assert Reverse(xs) == [y, x];
      assert FreeAll([y, x]) == [Free(y), Free(x)] by { assert [y, x][1..] == [x]; }
    } else if |xs| == 1 {
      assert Reverse(xs) == xs;
    }
  }

  /** The critical section of `gemmini_dev_a_ioctl`, from the first allocation to
      the `out:` label: the return value, the actions, and the buffers held. */
  method RunCritical(req: Request, s: Sizes, env: Env)
    returns (ret: int, actions: seq<Action>, mBuf: Option<Grant>, kBuf: Option<Grant>, oBuf: Option<Grant>)
    ensures Critical(ret, actions, OptSeq(mBuf) + OptSeq(kBuf) + OptSeq(oBuf)) == CriticalSpec(req, s, env)
  {
    ret, actions, mBuf, kBuf, oBuf := RunAllocs(s, env);
    if ret != 0 {
      return;
    }
    var rest;
    ret, rest := RunDevice(req, s, env);
    actions := actions + rest;
  }

  /** The allocations, each failure a `goto out` with -ENOMEM. */
  method RunAllocs(s: Sizes, env: Env)
    returns (ret: int, actions: seq<Action>, mBuf: Option<Grant>, kBuf: Option<Grant>, oBuf: Option<Grant>)
    ensures Critical(ret, actions, OptSeq(mBuf) + OptSeq(kBuf) + OptSeq(oBuf)) == AllocSpec(s, env)
  {
    actions := [];
    mBuf, kBuf, oBuf := None, None, None;
    if !env.allocM {
      return -ENOMEM, [AllocFailed(MBuf, s.mBytes)], None, None, None;
    }
    mBuf := Some(Grant(MBuf, s.mBytes, env.mDma));
    actions := [Alloc(mBuf.value)];

    if s.kBytes != 0 {
      if !env.allocK {
        return -ENOMEM, actions + [AllocFailed(KBuf, s.kBytes)], mBuf, None, None;
      }
      kBuf := Some(Grant(KBuf, s.kBytes, env.kDma));
      actions := actions + [Alloc(kBuf.value)];
    }

    if !env.allocO {
      return -ENOMEM, actions + [AllocFailed(OBuf, s.oBytes)], mBuf, kBuf, None;
    }
    oBuf := Some(Grant(OBuf, s.oBytes, env.oDma));
    actions := actions + [Alloc(oBuf.value)];
    ret := 0;
  }

  /** From the copy of the input on: copy the inputs in, clear the output, start
      the device, wait for it and copy the output back. */
  method RunDevice(req: Request, s: Sizes, env: Env) returns (ret: int, actions: seq<Action>)
    ensures (ret, actions) == DeviceSpec(req, s, env)
  {
    actions := [CopyIn(MBuf, req.mUser, s.mBytes)];
    if !env.copyM {
      return -EFAULT, actions;
    }
    if s.kBytes != 0 {
      actions := actions + [CopyIn(KBuf, req.kUser, s.kBytes)];
      if !env.copyK {
        return -EFAULT, actions;
      }
    }

    ghost var copied := actions;
    assert copied == [CopyIn(MBuf, req.mUser, s.mBytes)]
      + (if s.kBytes != 0 then [CopyIn(KBuf, req.kUser, s.kBytes)] else []);
    actions := actions + [ZeroFill(OBuf, s.oBytes)];
    actions := actions + [WriteReg(REG_ADDR_M, env.mDma)];
    actions := actions + [WriteReg(REG_ADDR_K, if s.kBytes != 0 then env.kDma else 0)];
    actions := actions + [WriteReg(REG_ADDR_O, env.oDma)];
    actions := actions + [WriteReg(REG_SIZE_M, req.mSize)];
    actions := actions + [WriteReg(REG_SIZE_K, req.kSize)];
    actions := actions + [WriteReg(REG_OPCODE, req.opcode)];
    actions := actions + [WriteReg(REG_START, 1)];
    actions := actions + [WaitDone];
    assert actions == copied + [ZeroFill(OBuf, s.oBytes)] + StartWrites(req, s, env) + [WaitDone];
    ret := if env.timedOut then -ETIMEDOUT else 0;
    if ret != 0 {
      return;
    }

    actions := actions + [CopyOut(req.oUser, s.oBytes)];
    if !env.copyOut {
      ret := -EFAULT;
    }
  }

  /** `gemmini_dev_a_ioctl(file, cmd, arg)`: the argument checks before the lock,
      then the critical section and the clean-up at `out:`, which frees the
      output, kernel and input buffers that were allocated and unlocks. */
  function IoctlSpec(cmd: nat, env: Env, sizeMax: nat): Outcome
  {
    if cmd != IOC_RUN then Outcome(-ENOTTY, [])
    else if !env.reqReadable then Outcome(-EFAULT, [])
    else
      var req := env.req;
      match CalcSizesSpec(req, sizeMax)
      case Err(e) => Outcome(e, [])
      case Ok(s) =>
        if req.mUser == 0 || req.oUser == 0 then Outcome(-EINVAL, [])
        else if s.kBytes != 0 && req.kUser == 0 then Outcome(-EINVAL, [])
        else LockedSpec(req, s, env)
  }

  /** From `mutex_lock` to `mutex_unlock`: the critical section, then the frees
      of the `out:` label in the reverse order of allocation. */
  function LockedSpec(req: Request, s: Sizes, env: Env): Outcome
  {
    Enclose(CriticalSpec(req, s, env))
  }

  /** A critical section between the lock and the unlock, followed by the frees of
      its grants in the reverse order of allocation. */
  function Enclose(c: Critical): Outcome
  {
    Outcome(c.ret, [Lock] + c.actions + FreeAll(Reverse(c.grants)) + [Unlock])
  }

  /** The driver's ioctl handler, with `goto out` as a break out of the block
      that ends at the `out:` label. */
  method Ioctl(cmd: nat, env: Env, sizeMax: nat) returns (ret: int, trace: seq<Action>)
    requires ValidSizeMax(sizeMax)
    ensures Outcome(ret, trace) == IoctlSpec(cmd, env, sizeMax)
  {
    trace := [];
    if cmd != IOC_RUN {
      return -ENOTTY, [];
    }
    if !env.reqReadable {
      return -EFAULT, [];
    }
    var req := env.req;
    var mBytes, kBytes, oBytes;
    ret, mBytes, kBytes, oBytes := CalcSizes(req, sizeMax);
    if ret != 0 {
      return ret, [];
    }
    var s := Sizes(mBytes, kBytes, oBytes);
    if req.mUser == 0 || req.oUser == 0 {
      return -EINVAL, [];
    }
    if kBytes != 0 && req.kUser == 0 {
      return -EINVAL, [];
    }

    assert CalcSizesSpec(req, sizeMax) == Ok(s);
    ret, trace := RunLocked(req, s, env);
  }

  /** The part of the handler that holds the device lock. */
  method RunLocked(req: Request, s: Sizes, env: Env) returns (ret: int, trace: seq<Action>)
    ensures Outcome(ret, trace) == LockedSpec(req, s, env)
  {
    var actions, mBuf, kBuf, oBuf;
    ret, actions, mBuf, kBuf, oBuf := RunCritical(req, s, env);
    trace := CleanUp(ret, actions, mBuf, kBuf, oBuf);
  }

  /** The lock around the critical section and the clean-up at `out:`: the output,
      kernel and input buffers that were allocated are freed, then the lock is
      released. */
  method CleanUp(ret: int, actions: seq<Action>, mBuf: Option<Grant>, kBuf: Option<Grant>, oBuf: Option<Grant>)
    returns (trace: seq<Action>)
    ensures Outcome(ret, trace) == Enclose(Critical(ret, actions, OptSeq(mBuf) + OptSeq(kBuf) + OptSeq(oBuf)))
  {
    var frees: seq<Action> := [];
    if oBuf.Some? {
      frees := frees + [Free(oBuf.value)];
    }
    if kBuf.Some? {
      frees := frees + [Free(kBuf.value)];
    }
    if mBuf.Some? {
      frees := frees + [Free(mBuf.value)];
    }
    FreeInReverse(mBuf, kBuf, oBuf);
    assert frees == OptFree(oBuf) + OptFree(kBuf) + OptFree(mBuf);
    trace := [Lock] + actions + frees + [Unlock];
  }

  // ---------------------------------------------------------------------------
  // gemmini_dev_a_ioctl: properties
  // ---------------------------------------------------------------------------

  /** The checks made before the device lock is taken all pass. */
  predicate Admitted(cmd: nat, env: Env, sizeMax: nat)
  {
    cmd == IOC_RUN && env.reqReadable && CalcSizesSpec(env.req, sizeMax).Ok? &&
    env.req.mUser != 0 && env.req.oUser != 0 &&
    (CalcSizesSpec(env.req, sizeMax).value.kBytes != 0 ==> env.req.kUser != 0)
  }

  /** Every allocation succeeds and every copy into a buffer succeeds. */
  predicate Launches(env: Env, s: Sizes)
  {
    env.allocM && (s.kBytes != 0 ==> env.allocK && env.copyK) && env.allocO && env.copyM
  }

  /** An action that neither locks, unlocks, allocates nor frees. */
  predicate Plain(a: Action) { !a.Lock? && !a.Unlock? && !a.Alloc? && !a.Free? }

  /** No action of `t` locks, unlocks or frees. */
  predicate Quiet(t: seq<Action>)
  {
    forall i :: 0 <= i < |t| ==> t[i] != Lock && t[i] != Unlock && !t[i].Free?
  }

  /** The grants of the successful allocations of a trace, in order. */
  function Granted(t: seq<Action>): seq<Grant>
  {
    if t == [] then [] else (if t[0].Alloc? then [t[0].grant] else []) + Granted(t[1..])
  }

  /** The grants a trace frees, in order. */
  function Freed(t: seq<Action>): seq<Grant>
  {
    if t == [] then [] else (if t[0].Free? then [t[0].grant] else []) + Freed(t[1..])
  }

  lemma {:induction false} GrantedAppend(a: seq<Action>, b: seq<Action>)
    ensures Granted(a + b) == Granted(a) + Granted(b)
    ensures Freed(a + b) == Freed(a) + Freed(b)
  {
    if a == [] {
      assert a + b == b;
    } else {
      assert (a + b)[0] == a[0];
      assert (a + b)[1..] == a[1..] + b;
      GrantedAppend(a[1..], b);
    }
  }

  lemma {:induction false} PlainNothingGranted(t: seq<Action>)
    requires forall i :: 0 <= i < |t| ==> Plain(t[i])
    ensures Granted(t) == [] && Freed(t) == []
  {
    if t != [] {
      PlainNothingGranted(t[1..]);
    }
  }

  lemma {:induction false} FreeAllFreed(gs: seq<Grant>)
    ensures Freed(FreeAll(gs)) == gs && Granted(FreeAll(gs)) == []
  {
    if gs != [] {
      FreeAllFreed(gs[1..]);
      assert FreeAll(gs)[1..] == FreeAll(gs[1..]);
    }
  }

  lemma {:induction false} FreeAllAt(gs: seq<Grant>)
    ensures forall i :: 0 <= i < |gs| ==> FreeAll(gs)[i] == Free(gs[i])
  {
    if gs != [] {
      FreeAllAt(gs[1..]);
      forall i | 1 <= i < |gs| ensures FreeAll(gs)[i] == Free(gs[i]) {
        assert FreeAll(gs)[i] == FreeAll(gs[1..])[i - 1];
      }
    }
  }

  lemma QuietAppend(a: seq<Action>, b: seq<Action>)
    requires Quiet(a) && Quiet(b)
    ensures Quiet(a + b)
  {
    forall i | 0 <= i < |a + b| ensures (a + b)[i] != Lock && (a + b)[i] != Unlock && !(a + b)[i].Free? {
      if i >= |a| {
        assert (a + b)[i] == b[i - |a|];
      }
    }
  }

  lemma DevicePlain(req: Request, s: Sizes, env: Env)
    ensures var d := DeviceSpec(req, s, env).1;
      (forall i :: 0 <= i < |d| ==> Plain(d[i])) && Granted(d) == [] && Quiet(d)
  {
    PlainNothingGranted(DeviceSpec(req, s, env).1);
  }

  /** The allocation stage obtains exactly the grants it reports, in order; it
      succeeds exactly when every allocation it makes succeeds, and fails with
      -ENOMEM otherwise. */
  lemma AllocGrants(s: Sizes, env: Env)
    ensures var a := AllocSpec(s, env);
      Granted(a.actions) == a.grants && Quiet(a.actions) &&
      (a.ret == 0 <==> env.allocM && (s.kBytes != 0 ==> env.allocK) && env.allocO) &&
      (a.ret != 0 ==> a.ret == -ENOMEM)
  {
    AllocGranted(s, env);
  }

  lemma AllocGranted(s: Sizes, env: Env)
    ensures Granted(AllocSpec(s, env).actions) == AllocSpec(s, env).grants
    ensures Quiet(AllocSpec(s, env).actions)
  {
    var gm := Grant(MBuf, s.mBytes, env.mDma);
    var gk := Grant(KBuf, s.kBytes, env.kDma);
    var go := Grant(OBuf, s.oBytes, env.oDma);
    var ks: seq<Action> := if s.kBytes != 0 then [Alloc(gk)] else [];
    if !env.allocM {
      assert [AllocFailed(MBuf, s.mBytes)][1..] == [];
    } else if s.kBytes != 0 && !env.allocK {
      GrantedAppend([Alloc(gm)], [AllocFailed(KBuf, s.kBytes)]);
      OneGrant(Alloc(gm));
      OneGrant(AllocFailed(KBuf, s.kBytes));
    } else {
      GrantedAppend([Alloc(gm)], ks);
      OneGrant(Alloc(gm));
      if ks != [] {
        OneGrant(Alloc(gk));
      }
      var last := if env.allocO then Alloc(go) else AllocFailed(OBuf, s.oBytes);
      GrantedAppend([Alloc(gm)] + ks, [last]);
      OneGrant(last);
    }
  }

  lemma OneGrant(x: Action)
    ensures Granted([x]) == (if x.Alloc? then [x.grant] else [])
  {
    assert [x][1..] == [];
  }

  /** The critical section allocates exactly the grants it reports, in order, and
      neither locks nor frees. */
  lemma CriticalGrants(req: Request, s: Sizes, env: Env)
    ensures var c := CriticalSpec(req, s, env);
      Granted(c.actions) == c.grants && Quiet(c.actions)
  {
    var a := AllocSpec(s, env);
    AllocGrants(s, env);
    if a.ret == 0 {
      var d := DeviceSpec(req, s, env).1;
      DevicePlain(req, s, env);
      GrantedAppend(a.actions, d);
      QuietAppend(a.actions, d);
    }
  }

  /** Inside the lock: the lock is taken first and released last, once each. */
  lemma LockedPairing(req: Request, s: Sizes, env: Env)
    ensures var t := LockedSpec(req, s, env).trace;
      |t| >= 2 && t[0] == Lock && t[|t| - 1] == Unlock && multiset(t)[Lock] == 1 && multiset(t)[Unlock] == 1
  {
    CriticalGrants(req, s, env);
    EnclosePairing(CriticalSpec(req, s, env));
  }

  lemma EnclosePairing(c: Critical)
    requires Quiet(c.actions)
    ensures var t := Enclose(c).trace;
      |t| >= 2 && t[0] == Lock && t[|t| - 1] == Unlock && multiset(t)[Lock] == 1 && multiset(t)[Unlock] == 1
  {
    var frees := FreeAll(Reverse(c.grants));
    FreeAllAt(Reverse(c.grants));
    var mid := c.actions + frees;
    forall i | 0 <= i < |mid| ensures mid[i] != Lock && mid[i] != Unlock {
      if i >= |c.actions| {
        assert mid[i] == frees[i - |c.actions|];
      }
    }
    assert Enclose(c).trace == [Lock] + mid + [Unlock];
    CountEnds(mid);
  }

  lemma CountEnds(mid: seq<Action>)
    requires forall i :: 0 <= i < |mid| ==> mid[i] != Lock && mid[i] != Unlock
    ensures var t := [Lock] + mid + [Unlock];
      multiset(t)[Lock] == 1 && multiset(t)[Unlock] == 1
  {
    assert Lock !in mid && Unlock !in mid;
    var t := [Lock] + mid + [Unlock];
    assert multiset(t) == multiset([Lock]) + multiset(mid) + multiset([Unlock]);
  }

  /** Inside the lock: every buffer allocated is freed exactly once, none is freed
      that was not allocated, the frees come in the reverse order of the
      allocations, and nothing but the unlock follows a free. */
  lemma LockedFrees(req: Request, s: Sizes, env: Env)
    ensures var t := LockedSpec(req, s, env).trace;
      Freed(t) == Reverse(Granted(t)) &&
      forall i, j :: 0 <= i < j < |t| && t[i].Free? ==> t[j].Free? || t[j] == Unlock
  {
    CriticalGrants(req, s, env);
    EncloseFrees(CriticalSpec(req, s, env));
  }

  lemma EncloseFrees(c: Critical)
    requires Quiet(c.actions) && Granted(c.actions) == c.grants
    ensures Freed(Enclose(c).trace) == Reverse(Granted(Enclose(c).trace))
    ensures var t := Enclose(c).trace;
      forall i, j :: 0 <= i < j < |t| && t[i].Free? ==> t[j].Free? || t[j] == Unlock
  {
    EncloseFreed(c);
    EncloseFreesLast(c);
  }

  lemma EncloseFreed(c: Critical)
    requires Quiet(c.actions) && Granted(c.actions) == c.grants
    ensures Granted(Enclose(c).trace) == c.grants && Freed(Enclose(c).trace) == Reverse(c.grants)
  {
    var frees := FreeAll(Reverse(c.grants));
    var t := [Lock] + c.actions + frees + [Unlock];
    assert Enclose(c).trace == t;
    FreeAllFreed(Reverse(c.grants));
    NoFreeNothingFreed(c.actions);
    EdgesNothingGranted();
    GrantedAppend([Lock], c.actions);
    GrantedAppend([Lock] + c.actions, frees);
    GrantedAppend([Lock] + c.actions + frees, [Unlock]);
  }

  lemma EncloseFreesLast(c: Critical)
    requires Quiet(c.actions)
    ensures var t := Enclose(c).trace;
      forall i, j :: 0 <= i < j < |t| && t[i].Free? ==> t[j].Free? || t[j] == Unlock
  {
    var frees := FreeAll(Reverse(c.grants));
    var t := [Lock] + c.actions + frees + [Unlock];
    assert Enclose(c).trace == t;
    FreeAllAt(Reverse(c.grants));
    forall i, j | 0 <= i < j < |t| && t[i].Free? ensures t[j].Free? || t[j] == Unlock {
      var n := 1 + |c.actions|;
      if n <= j < n + |frees| {
        assert t[j] == frees[j - n];
      }
    }
  }

  lemma EdgesNothingGranted()
    ensures Granted([Lock]) == [] && Freed([Lock]) == []
    ensures Granted([Unlock]) == [] && Freed([Unlock]) == []
  {
    assert [Lock][1..] == [];
    assert [Unlock][1..] == [];
  }

  lemma {:induction false} NoFreeNothingFreed(t: seq<Action>)
    requires Quiet(t)
    ensures Freed(t) == []
  {
    if t != [] {
      NoFreeNothingFreed(t[1..]);
    }
  }

  /** The copies into the input and kernel buffers. */
  function CopyIns(req: Request, s: Sizes): seq<Action>
  {
    [CopyIn(MBuf, req.mUser, s.mBytes)] + (if s.kBytes != 0 then [CopyIn(KBuf, req.kUser, s.kBytes)] else [])
  }

  /** The seven actions right before START: clearing the output buffer and the six
      parameter registers. */
  function PreStart(req: Request, s: Sizes, env: Env): seq<Action>
  {
    [ZeroFill(OBuf, s.oBytes)] + StartWrites(req, s, env)[..6]
  }

  /** Both copies into the device buffers succeed. */
  predicate Copied(env: Env, s: Sizes) { env.copyM && (s.kBytes != 0 ==> env.copyK) }

  lemma DeviceStart(req: Request, s: Sizes, env: Env)
    ensures var d := DeviceSpec(req, s, env).1;
      var post := [WaitDone] + (if env.timedOut then [] else [CopyOut(req.oUser, s.oBytes)]);
      (Copied(env, s) ==> d == CopyIns(req, s) + PreStart(req, s, env) + [WriteReg(REG_START, 1)] + post) &&
      (!Copied(env, s) ==> WriteReg(REG_START, 1) !in d)
  {
    var w := StartWrites(req, s, env);
    assert w == w[..6] + [WriteReg(REG_START, 1)];
  }

  /** What a launching critical section does after START. */
  function AfterStart(req: Request, s: Sizes, env: Env): seq<Action>
  {
    [WaitDone] + (if env.timedOut then [] else [CopyOut(req.oUser, s.oBytes)])
  }

  /** Where a launching critical section writes START: after the allocations and
      the copy-ins, and right after the seven actions of `PreStart`. */
  lemma CriticalStartShape(req: Request, s: Sizes, env: Env)
    requires Launches(env, s)
    ensures CriticalSpec(req, s, env).actions ==
      AllocSpec(s, env).actions + CopyIns(req, s) + PreStart(req, s, env) + [WriteReg(REG_START, 1)] + AfterStart(req, s, env)
  {
    AllocGrants(s, env);
    DeviceStart(req, s, env);
  }

  /** START is written nowhere else in a launching critical section. */
  lemma CriticalStartOnce(req: Request, s: Sizes, env: Env)
    ensures WriteReg(REG_START, 1) !in AllocSpec(s, env).actions + CopyIns(req, s)
    ensures WriteReg(REG_START, 1) !in PreStart(req, s, env)
    ensures WriteReg(REG_START, 1) !in AfterStart(req, s, env)
  {
    AllocNoStart(s, env);
    NotInAppend(AllocSpec(s, env).actions, CopyIns(req, s), WriteReg(REG_START, 1));
  }

  lemma AllocNoStart(s: Sizes, env: Env)
    ensures WriteReg(REG_START, 1) !in AllocSpec(s, env).actions
  {
    AllocGrants(s, env);
  }

  lemma NotInAppend<T>(a: seq<T>, b: seq<T>, x: T)
    requires x !in a && x !in b
    ensures x !in a + b
  {
  }

  /** A critical section that does not launch never writes START. */
  lemma CriticalNoStart(req: Request, s: Sizes, env: Env)
    requires !Launches(env, s)
    ensures WriteReg(REG_START, 1) !in CriticalSpec(req, s, env).actions
  {
    var start := WriteReg(REG_START, 1);
    var a := AllocSpec(s, env);
    AllocGrants(s, env);
    assert start !in a.actions;
    if a.ret == 0 {
      DeviceStart(req, s, env);
      assert start !in DeviceSpec(req, s, env).1;
    }
  }

  /** Up to START a launching critical section has allocated all its grants. */
  lemma CriticalStartGrants(req: Request, s: Sizes, env: Env)
    requires Launches(env, s)
    ensures Granted(AllocSpec(s, env).actions + CopyIns(req, s) + PreStart(req, s, env)) == CriticalSpec(req, s, env).grants
  {
    var a := AllocSpec(s, env);
    AllocGrants(s, env);
    PlainNothingGranted(CopyIns(req, s));
    PlainNothingGranted(PreStart(req, s, env));
    GrantedAppend(a.actions, CopyIns(req, s));
    GrantedAppend(a.actions + CopyIns(req, s), PreStart(req, s, env));
  }

  /** In an enclosed critical section `pre + block + [x] + post` where `x` occurs
      once, `x` sits right after `block`. */
  lemma EncloseAt(c: Critical, pre: seq<Action>, block: seq<Action>, x: Action, post: seq<Action>)
    requires c.actions == pre + block + [x] + post
    requires x !in pre && x !in block && x !in post && x != Lock && x != Unlock && !x.Free?
    ensures var t := Enclose(c).trace;
      forall i :: 0 <= i < |t| && t[i] == x ==>
        i == 1 + |pre| + |block| && t[i - |block|..i] == block && t[..i] == [Lock] + pre + block
  {
    var frees := FreeAll(Reverse(c.grants));
    FreeAllAt(Reverse(c.grants));
    var t := Enclose(c).trace;
    var p := [Lock] + pre;
    var q := post + frees + [Unlock];
    assert x !in q;
    assert t == p + block + [x] + q;
    var n := |p| + |block|;
    assert t[..n] == p + block;
    assert t[n - |block|..n] == block;
  }

  /** Inside the lock: START is written exactly when every allocation and copy-in
      succeeds. At that point the output buffer has just been cleared, the six
      parameter registers have just been written in order (ADDR_K with 0 when there
      is no kernel buffer), and all the buffers are allocated. */
  lemma LockedStart(req: Request, s: Sizes, env: Env)
    ensures var t := LockedSpec(req, s, env).trace;
      (WriteReg(REG_START, 1) in t <==> Launches(env, s)) && StartPrepared(t, req, s, env)
  {
    var c := CriticalSpec(req, s, env);
    var start := WriteReg(REG_START, 1);
    CriticalGrants(req, s, env);
    EncloseStart(c, start);
    if Launches(env, s) {
      LaunchBlock(req, s, env);
      LaunchGrants(req, s, env);
      StartPositions(LockedSpec(req, s, env).trace, req, s, env);
    } else {
      CriticalNoStart(req, s, env);
      StartPositions(LockedSpec(req, s, env).trace, req, s, env);
    }
  }

  /** The three buffers a launching run holds, in allocation order. */
  function AllGrants(s: Sizes, env: Env): seq<Grant>
  {
    [Grant(MBuf, s.mBytes, env.mDma)] +
      (if s.kBytes != 0 then [Grant(KBuf, s.kBytes, env.kDma)] else []) + [Grant(OBuf, s.oBytes, env.oDma)]
  }

  /** Every START in `t` comes right after the output buffer was cleared and the
      six parameter registers were written in order (ADDR_K with 0 when there is
      no kernel buffer), with all the buffers allocated. */
  predicate StartPrepared(t: seq<Action>, req: Request, s: Sizes, env: Env)
  {
    forall i :: 0 <= i < |t| && t[i] == WriteReg(REG_START, 1) ==>
      i >= 7 &&
      t[i - 7] == ZeroFill(OBuf, s.oBytes) &&
      t[i - 6] == WriteReg(REG_ADDR_M, env.mDma) &&
      t[i - 5] == WriteReg(REG_ADDR_K, if s.kBytes != 0 then env.kDma else 0) &&
      t[i - 4] == WriteReg(REG_ADDR_O, env.oDma) &&
      t[i - 3] == WriteReg(REG_SIZE_M, req.mSize) &&
      t[i - 2] == WriteReg(REG_SIZE_K, req.kSize) &&
      t[i - 1] == WriteReg(REG_OPCODE, req.opcode) &&
      Granted(t[..i]) == AllGrants(s, env)
  }

  lemma LaunchGrants(req: Request, s: Sizes, env: Env)
    requires Launches(env, s)
    ensures CriticalSpec(req, s, env).grants == AllGrants(s, env)
  {
    AllocGrants(s, env);
  }

  /** In a launching run START is preceded by `PreStart`, with every grant made. */
  lemma LaunchBlock(req: Request, s: Sizes, env: Env)
    requires Launches(env, s)
    ensures var t := LockedSpec(req, s, env).trace;
      forall i :: 0 <= i < |t| && t[i] == WriteReg(REG_START, 1) ==>
        i >= 7 && t[i - 7..i] == PreStart(req, s, env) && Granted(t[..i]) == CriticalSpec(req, s, env).grants
  {
    var c := CriticalSpec(req, s, env);
    var pre := AllocSpec(s, env).actions + CopyIns(req, s);
    var block := PreStart(req, s, env);
    CriticalStartShape(req, s, env);
    CriticalStartOnce(req, s, env);
    CriticalStartGrants(req, s, env);
    EncloseAt(c, pre, block, WriteReg(REG_START, 1), AfterStart(req, s, env));
    EncloseGranted(pre + block);
    assert [Lock] + pre + block == [Lock] + (pre + block);
  }

  /** Reads the positions before START off the block of seven that precedes it. */
  lemma StartPositions(t: seq<Action>, req: Request, s: Sizes, env: Env)
    requires forall i :: 0 <= i < |t| && t[i] == WriteReg(REG_START, 1) ==>
      i >= 7 && t[i - 7..i] == PreStart(req, s, env) && Granted(t[..i]) == AllGrants(s, env)
    ensures StartPrepared(t, req, s, env)
  {
    PreStartElems(req, s, env);
    forall i | 0 <= i < |t| && t[i] == WriteReg(REG_START, 1)
      ensures forall k :: 0 <= k < 7 ==> t[i - 7 + k] == PreStart(req, s, env)[k]
    {
      assert t[i - 7..i] == PreStart(req, s, env);
    }
  }

  /** A START in an enclosed critical section is one of its own actions. */
  lemma EncloseStart(c: Critical, x: Action)
    requires Quiet(c.actions) && !x.Free? && x != Lock && x != Unlock
    ensures x in Enclose(c).trace <==> x in c.actions
  {
    var frees := FreeAll(Reverse(c.grants));
    FreeAllAt(Reverse(c.grants));
    assert x !in frees;
    assert Enclose(c).trace == [Lock] + c.actions + frees + [Unlock];
  }

  lemma EncloseGranted(t: seq<Action>)
    ensures Granted([Lock] + t) == Granted(t)
  {
    EdgesNothingGranted();
    GrantedAppend([Lock], t);
  }

  lemma PreStartElems(req: Request, s: Sizes, env: Env)
    ensures var b := PreStart(req, s, env);
      |b| == 7 &&
      b[0] == ZeroFill(OBuf, s.oBytes) &&
      b[1] == WriteReg(REG_ADDR_M, env.mDma) &&
      b[2] == WriteReg(REG_ADDR_K, if s.kBytes != 0 then env.kDma else 0) &&
      b[3] == WriteReg(REG_ADDR_O, env.oDma) &&
      b[4] == WriteReg(REG_SIZE_M, req.mSize) &&
      b[5] == WriteReg(REG_SIZE_K, req.kSize) &&
      b[6] == WriteReg(REG_OPCODE, req.opcode)
  {
  }

  /** Outside the lock the trace is empty; once the checks pass, the handler is
      its locked part. */
  lemma IoctlLocked(cmd: nat, env: Env, sizeMax: nat)
    ensures Admitted(cmd, env, sizeMax) ==>
      IoctlSpec(cmd, env, sizeMax) == LockedSpec(env.req, CalcSizesSpec(env.req, sizeMax).value, env)
    ensures !Admitted(cmd, env, sizeMax) ==> IoctlSpec(cmd, env, sizeMax).trace == []
  {
  }

  /** The checks before the lock: a wrong command is refused with -ENOTTY, an
      unreadable argument with -EFAULT, bad sizes with `gemmini_calc_sizes`'s
      error, a null input or output pointer with -EINVAL, and a null kernel
      pointer with -EINVAL only when there is a kernel buffer. Each refusal
      happens before the device is touched, and the device is touched exactly
      when all checks pass. */
  lemma IoctlArgumentChecks(cmd: nat, env: Env, sizeMax: nat)
    ensures var o := IoctlSpec(cmd, env, sizeMax);
      var cs := CalcSizesSpec(env.req, sizeMax);
      (cmd != IOC_RUN ==> o == Outcome(-ENOTTY, [])) &&
      (cmd == IOC_RUN && !env.reqReadable ==> o == Outcome(-EFAULT, [])) &&
      (cmd == IOC_RUN && env.reqReadable && cs.Err? ==> o == Outcome(cs.error, [])) &&
      (cmd == IOC_RUN && env.reqReadable && cs.Ok? && (env.req.mUser == 0 || env.req.oUser == 0) ==>
        o == Outcome(-EINVAL, [])) &&
      (cmd == IOC_RUN && env.reqReadable && cs.Ok? && env.req.mUser != 0 && env.req.oUser != 0 && env.req.kUser == 0 ==>
        (o == Outcome(-EINVAL, []) <==> cs.value.kBytes != 0)) &&
      (o.trace != [] <==> Admitted(cmd, env, sizeMax))
  {
    if Admitted(cmd, env, sizeMax) {
      IoctlLocked(cmd, env, sizeMax);
      LockedPairing(env.req, CalcSizesSpec(env.req, sizeMax).value, env);
    }
  }

  /** The lock is taken first and released last, once each, on every path that
      takes it. */
  lemma IoctlLockPairing(cmd: nat, env: Env, sizeMax: nat)
    ensures var t := IoctlSpec(cmd, env, sizeMax).trace;
      t == [] || (t[0] == Lock && t[|t| - 1] == Unlock && multiset(t)[Lock] == 1 && multiset(t)[Unlock] == 1)
  {
    IoctlLocked(cmd, env, sizeMax);
    if Admitted(cmd, env, sizeMax) {
      LockedPairing(env.req, CalcSizesSpec(env.req, sizeMax).value, env);
    }
  }

  /** Every buffer that was allocated is freed exactly once, none is freed that
      was not allocated, the frees come in the reverse order of the allocations,
      and nothing but the unlock follows a free. */
  lemma IoctlFreesEachOnce(cmd: nat, env: Env, sizeMax: nat)
    ensures var t := IoctlSpec(cmd, env, sizeMax).trace;
      Freed(t) == Reverse(Granted(t)) &&
      forall i, j :: 0 <= i < j < |t| && t[i].Free? ==> t[j].Free? || t[j] == Unlock
  {
    IoctlLocked(cmd, env, sizeMax);
    if Admitted(cmd, env, sizeMax) {
      LockedFrees(env.req, CalcSizesSpec(env.req, sizeMax).value, env);
    }
  }

  /** START is written exactly when the checks pass and every allocation and
      copy-in succeeds, and then right after the output buffer is cleared and
      the six parameter registers are written, with every buffer allocated. */
  lemma IoctlStartSequence(cmd: nat, env: Env, sizeMax: nat, s: Sizes)
    requires CalcSizesSpec(env.req, sizeMax) == Ok(s)
    ensures var t := IoctlSpec(cmd, env, sizeMax).trace;
      (WriteReg(REG_START, 1) in t <==> Admitted(cmd, env, sizeMax) && Launches(env, s)) &&
      StartPrepared(t, env.req, s, env)
  {
    IoctlLocked(cmd, env, sizeMax);
    if Admitted(cmd, env, sizeMax) {
      LockedStart(env.req, s, env);
    }
  }

  /** The return value: 0 exactly when every check passes, every allocation and
      copy succeeds and the device finishes in time; otherwise the error of the
      step that failed. */
  lemma IoctlReturn(cmd: nat, env: Env, sizeMax: nat)
    ensures var o := IoctlSpec(cmd, env, sizeMax);
      (o.ret == 0 <==> (Admitted(cmd, env, sizeMax) && Launches(env, CalcSizesSpec(env.req, sizeMax).value) &&
        !env.timedOut && env.copyOut)) &&
      o.ret in {0, -ENOTTY, -EFAULT, -EINVAL, -ENOMEM, -ETIMEDOUT} &&
      (Admitted(cmd, env, sizeMax) && !env.allocM ==> o.ret == -ENOMEM) &&
      (Admitted(cmd, env, sizeMax) && Launches(env, CalcSizesSpec(env.req, sizeMax).value) && env.timedOut ==>
        o.ret == -ETIMEDOUT)
  {
    IoctlLocked(cmd, env, sizeMax);
    if cmd == IOC_RUN && env.reqReadable {
      CalcSizesRejects(env.req, sizeMax);
    }
    if Admitted(cmd, env, sizeMax) {
      AllocGrants(CalcSizesSpec(env.req, sizeMax).value, env);
    }
  }

  // ---------------------------------------------------------------------------
  // gemmini_dev_a_init
  // ---------------------------------------------------------------------------

  /** An `IORESOURCE_MEM` resource: `start` and the inclusive `end`. */
  datatype Resource = Resource(start: u64, end: u64)

  datatype InitOutcome =
    | UsingDeviceTree          // a "gem5,gemmini-dev-a" node exists; only the driver is registered
    | Registered(res: Resource) // the platform device is registered with this resource
    | InitFailed(err: int)

  /** `gemmini_dev_a_init` up to registering the platform device, for the
      `mmio_base` and `mmio_size` module parameters (their defaults are
      0x40000000 and 0x1000). Both are `unsigned long`, as wide as `size_t`, so
      `mmio_base + mmio_size - 1` wraps at `SIZE_MAX + 1`. */
  function Init(sizeMax: nat, dtNode: bool, mmioBase: u64, mmioSize: u64): InitOutcome
    requires ValidSizeMax(sizeMax) && mmioBase <= sizeMax && mmioSize <= sizeMax
  {
    if dtNode then UsingDeviceTree
    else if mmioSize == 0 then InitFailed(-EINVAL)
    else Registered(Resource(mmioBase, (mmioBase + mmioSize - 1) % (sizeMax + 1)))
  }

  /** `res->end - res->start + 1` taken modulo `SIZE_MAX + 1`: the size
      `devm_ioremap_resource` would use for the resource init registers, were the
      region claimed rather than mapped from the module parameters. */
  function ResourceSize(sizeMax: nat, r: Resource): nat
    requires ValidSizeMax(sizeMax)
  {
    (r.end - r.start + 1) % (sizeMax + 1)
  }

  /** Init refuses a zero `mmio_size` and otherwise registers a resource that
      starts at `mmio_base` and ends `mmio_size - 1` bytes later (modulo
      `SIZE_MAX + 1`), and `end - start + 1` taken modulo `SIZE_MAX + 1` gives
      back `mmio_size`. When the window does not wrap, the resource covers exactly the
      addresses from `mmio_base` to `mmio_base + mmio_size - 1`; when it does, its
      end lies below its start. */
  lemma InitResource(sizeMax: nat, dtNode: bool, mmioBase: u64, mmioSize: u64)
    requires ValidSizeMax(sizeMax) && mmioBase <= sizeMax && mmioSize <= sizeMax
    ensures var r := Init(sizeMax, dtNode, mmioBase, mmioSize);
      (r.Registered? <==> !dtNode && mmioSize != 0) &&
      (!dtNode && mmioSize == 0 ==> r == InitFailed(-EINVAL)) &&
      (r.Registered? ==> r.res.start == mmioBase && ResourceSize(sizeMax, r.res) == mmioSize) &&
      (r.Registered? && mmioBase + mmioSize - 1 <= sizeMax ==>
        r.res.start <= r.res.end && r.res.end - r.res.start + 1 == mmioSize) &&
      (r.Registered? && mmioBase + mmioSize - 1 > sizeMax ==> r.res.end < r.res.start)
  {
    if !dtNode && mmioSize != 0 {
      var M := sizeMax + 1;
      var x := mmioBase + mmioSize - 1;
      var e := x % M;
      if x < M {
        assert e == x;
      } else {
        assert x < 2 * M;
        assert e == x - M;
        assert e - mmioBase + 1 == mmioSize - M;
        assert (mmioSize - M) % M == mmioSize;
      }
    }
  }

  /** With the default module parameters the device window is 0x40000000 to
      0x40000fff, on a 32-bit kernel as on a 64-bit one. */
  lemma InitDefaults(sizeMax: nat)
    requires ValidSizeMax(sizeMax)
    ensures Init(sizeMax, false, 0x4000_0000, 0x1000) == Registered(Resource(0x4000_0000, 0x4000_0FFF))
  {
  }
}
