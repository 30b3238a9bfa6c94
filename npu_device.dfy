/**
 * The NPU stub device (`NPUDevice`): a DMA-capable device with one memory-mapped
 * I/O window that answers every access after a fixed latency, and whose DMA
 * address translation is the identity.
 *
 * The device is a value: none of its operations changes `pioAddr`, `pioSize` or
 * `pioDelay`, so `Read`, `Write`, `AddrRanges` and `Translate` are functions of it.
 */
module NpuDevice {
  import opened Wrappers

  /** gem5's `Addr` and `Tick` are both unsigned 64-bit integers. */
  type Addr = x: int | 0 <= x <= 0xFFFF_FFFF_FFFF_FFFF
  type Tick = Addr

  /** The parameters the constructor reads (`NPUDeviceParams`). */
  datatype Params = Params(pioAddr: Addr, pioSize: Addr, pioDelay: Tick)

  datatype Device = Device(pioAddr: Addr, pioSize: Addr, pioDelay: Tick)

  /** An address range given by its first address and its size, as `RangeSize`
      builds it: it holds exactly the addresses `start <= a < start + size`. */
  datatype AddrRange = AddrRange(start: Addr, size: Addr)

  predicate InRange(r: AddrRange, a: int)
  {
    r.start <= a < r.start + r.size
  }

  /** The part of a packet the device looks at or changes. */
  datatype Packet = Packet(addr: Addr, size: nat, isResponse: bool)

  /** What an access returns: the latency and the packet as it is handed back. */
  datatype Access = Access(latency: Tick, pkt: Packet)

  /** One translated chunk of a DMA region (`TranslationGen::Range`). */
  datatype Chunk = Chunk(vaddr: Addr, size: Addr, paddr: Addr)

  /** The generator `translate` returns: the region it translates. */
  datatype TranslationGen = IdentityTranslationGen(start: Addr, size: Addr)

  /** `NPUDevice(p)`: the three fields are copied from the parameters. */
  function NewDevice(p: Params): (d: Device)
    ensures d.pioAddr == p.pioAddr && d.pioSize == p.pioSize && d.pioDelay == p.pioDelay
  {
    Device(p.pioAddr, p.pioSize, p.pioDelay)
  }

  /** The defaults of the Python declaration: a 0x1000-byte window and a
      latency of 10 ns, `ticksPerNs` being the simulator's tick rate. */
  function DefaultParams(pioAddr: Addr, ticksPerNs: nat): Params
    requires 10 * ticksPerNs <= 0xFFFF_FFFF_FFFF_FFFF
  {
    Params(pioAddr, 0x1000, 10 * ticksPerNs)
  }

  /** `Packet::makeAtomicResponse`: the request becomes its response in place. */
  function MakeAtomicResponse(p: Packet): Packet
  {
    p.(isResponse := true)
  }

  /** `NPUDevice::read`. */
  function Read(d: Device, pkt: Packet): (r: Access)
    ensures r.latency == d.pioDelay
    ensures r.pkt.isResponse && r.pkt.addr == pkt.addr && r.pkt.size == pkt.size
  {
    Access(d.pioDelay, MakeAtomicResponse(pkt))
  }

  /** `NPUDevice::write`. */
  function Write(d: Device, pkt: Packet): (r: Access)
    ensures r.latency == d.pioDelay
    ensures r.pkt.isResponse && r.pkt.addr == pkt.addr && r.pkt.size == pkt.size
  {
    Access(d.pioDelay, MakeAtomicResponse(pkt))
  }

  /** `NPUDevice::getAddrRanges`. */
  function AddrRanges(d: Device): (r: seq<AddrRange>)
    ensures r == [] <==> d.pioSize == 0
    ensures r != [] ==> r == [AddrRange(d.pioAddr, d.pioSize)]
  {
    if d.pioSize != 0 then [AddrRange(d.pioAddr, d.pioSize)] else []
  }

  /** `IdentityTranslationGen::translate`: the chunk it is given keeps its
      virtual address and size, and its physical address becomes the virtual one. */
  function TranslateChunk(c: Chunk): (r: Chunk)
    ensures r.paddr == c.vaddr
    ensures r.vaddr == c.vaddr && r.size == c.size
  {
    c.(paddr := c.vaddr)
  }

  /** `NPUDevice::translate`. */
  function Translate(d: Device, vaddr: Addr, size: Addr): (g: TranslationGen)
    ensures g.start == vaddr && g.size == size
  {
    IdentityTranslationGen(vaddr, size)
  }

  /**
   * The chunks the generator produces. The generator offers `translate` the whole
   * remaining region, and `translate` keeps that size, so a non-empty region is
   * one chunk and an empty region none.
   */
  function Chunks(g: TranslationGen): seq<Chunk>
  {
    if g.size == 0 then [] else [TranslateChunk(Chunk(g.start, g.size, 0))]
  }

  /** The physical address the chunks map a virtual address to, if any. */
  function Lookup(cs: seq<Chunk>, a: int): Option<int>
  {
    if cs == [] then None
    else if cs[0].vaddr <= a < cs[0].vaddr + cs[0].size then Some(cs[0].paddr + (a - cs[0].vaddr))
    else Lookup(cs[1..], a)
  }

  // ---------------------------------------------------------------------------
  // Properties
  // ---------------------------------------------------------------------------

  /** An address is served by the device exactly when it lies in the window
      `[pioAddr, pioAddr + pioSize)`. */
  lemma AddrRangesCover(d: Device, a: int)
    ensures (exists i :: 0 <= i < |AddrRanges(d)| && InRange(AddrRanges(d)[i], a)) <==>
            d.pioAddr <= a < d.pioAddr + d.pioSize
  {
    if d.pioAddr <= a < d.pioAddr + d.pioSize {
      assert InRange(AddrRanges(d)[0], a);
    }
  }

  /** Every chunk of a translation maps each byte to itself. */
  lemma ChunksIdentity(d: Device, vaddr: Addr, size: Addr)
    ensures forall c :: c in Chunks(Translate(d, vaddr, size)) ==> c.paddr == c.vaddr
    ensures |Chunks(Translate(d, vaddr, size))| == if size == 0 then 0 else 1
  {
  }

  /** Translating `(vaddr, size)` covers exactly the region `[vaddr, vaddr + size)`,
      and maps every address in it to itself. */
  lemma TranslateIdentity(d: Device, vaddr: Addr, size: Addr, a: int)
    ensures Lookup(Chunks(Translate(d, vaddr, size)), a) ==
            if vaddr <= a < vaddr + size then Some(a) else None
  {
    var cs := Chunks(Translate(d, vaddr, size));
    if size != 0 {
      assert cs[0] == Chunk(vaddr, size, vaddr);
      assert cs[1..] == [];
    }
  }

  /** The latency of an access depends only on the device: not on the packet's
      address or size, and not on whether it is a read or a write. */
  lemma LatencyIndependent(d: Device, p: Packet, q: Packet)
    ensures Read(d, p).latency == Read(d, q).latency == Write(d, p).latency == Write(d, q).latency == d.pioDelay
  {
  }

  /** A read and a write of the same packet are handled alike. */
  lemma ReadIsWrite(d: Device, p: Packet)
    ensures Read(d, p) == Write(d, p)
  {
  }

  /** A device built from the default parameters serves one 0x1000-byte window at
      `pioAddr` and answers after 10 ns. */
  lemma DefaultDevice(pioAddr: Addr, ticksPerNs: nat, p: Packet)
    requires 10 * ticksPerNs <= 0xFFFF_FFFF_FFFF_FFFF
    ensures AddrRanges(NewDevice(DefaultParams(pioAddr, ticksPerNs))) == [AddrRange(pioAddr, 0x1000)]
    ensures Read(NewDevice(DefaultParams(pioAddr, ticksPerNs)), p).latency == 10 * ticksPerNs
  {
  }
}
