/** The CPU's 2 KiB of RAM (src/mem.rs).  Every access keeps only the low eleven bits
    of the address (`address & 0x7ff`), so the 64 KiB address space sees the same
    2048 cells mirrored 32 times. */
module Mem {
  import opened Bytes

  /** The number of RAM cells. */
  const RamSize: nat := 0x800

  /** The cell an address reaches: its low eleven bits, which for an address is its
      remainder modulo 0x800. */
  function Mirror(address: Word): (cell: nat)
    ensures cell < RamSize
    ensures (address - cell) % RamSize == 0
  {
    address % RamSize
  }

  /** Two addresses reach the same cell exactly when they differ by a multiple of
      0x800. */
  lemma MirrorsAlias(p: Word, q: Word)
    ensures Mirror(p) == Mirror(q) <==> (p - q) % RamSize == 0
  {
  }

  /** Below 0x800 the address is the cell; the 32 mirrors of a cell lie 0x800 apart. */
  lemma MirrorLayout(address: Word)
    ensures address < RamSize ==> Mirror(address) == address
    ensures address + RamSize < 0x10000 ==> Mirror(address + RamSize) == Mirror(address)
  {
  }

  /** `Mem::read` on the contents of the RAM. */
  function ReadRam(ram: seq<Byte>, address: Word): (value: Byte)
    requires |ram| == RamSize
    ensures value in ram
  {
    ram[Mirror(address)]
  }

  /** Every mirror of an address reads the same byte. */
  lemma MirrorsReadAlike(ram: seq<Byte>, p: Word, q: Word)
    requires |ram| == RamSize && (p - q) % RamSize == 0
    ensures ReadRam(ram, p) == ReadRam(ram, q)
  {
    MirrorsAlias(p, q);
  }

  /** `Mem::write` on the contents of the RAM. */
  function WriteRam(ram: seq<Byte>, address: Word, value: Byte): (r: seq<Byte>)
    requires |ram| == RamSize
    ensures |r| == RamSize
    ensures ReadRam(r, address) == value
  {
    ram[Mirror(address) := value]
  }

  /** A read after a write returns the written value at every mirror of the written
      address and the old contents everywhere else. */
  lemma ReadAfterWrite(ram: seq<Byte>, address: Word, value: Byte, other: Word)
    requires |ram| == RamSize
    ensures ReadRam(WriteRam(ram, address, value), other) ==
      if (other - address) % RamSize == 0 then value else ReadRam(ram, other)
  {
    MirrorsAlias(other, address);
  }

  /** Writing back what a read returned leaves the RAM as it was. */
  lemma WriteWhatWasRead(ram: seq<Byte>, address: Word)
    requires |ram| == RamSize
    ensures WriteRam(ram, address, ReadRam(ram, address)) == ram
  {
  }

  /** Of two writes to mirrors of the same cell, only the later one is kept. */
  lemma LaterWriteWins(ram: seq<Byte>, p: Word, v: Byte, q: Word, w: Byte)
    requires |ram| == RamSize && (p - q) % RamSize == 0
    ensures WriteRam(WriteRam(ram, p, v), q, w) == WriteRam(ram, q, w)
  {
    MirrorsAlias(p, q);
  }

  /** `CpuRam`: the RAM as a fixed array of 0x800 bytes. */
  class CpuRam {
    const data: array<Byte>

    ghost predicate Valid()
      reads this
    {
      data.Length == RamSize
    }

    /** `CpuRam::new`: every cell holds 0. */
    constructor ()
      ensures Valid() && fresh(data)
      ensures data[..] == seq(RamSize, _ => 0)
      ensures forall address: Word :: ReadRam(data[..], address) == 0
    {
      data := new Byte[RamSize](_ => 0);
      new;
      assert data[..] == seq(RamSize, _ => 0);
    }

    /** `read`. */
    function Read(address: Word): (value: Byte)
      reads this, data
      requires Valid()
      ensures value == ReadRam(data[..], address)
    {
      data[Mirror(address)]
    }

    /** `write`. */
    method Write(address: Word, value: Byte)
      requires Valid()
      modifies data
      ensures Valid()
      ensures data[..] == WriteRam(old(data[..]), address, value)
      ensures forall b: Word :: Read(b) == if (b - address) % RamSize == 0 then value else old(Read(b))
    {
      data[Mirror(address)] := value;
      forall b: Word
        ensures Read(b) == if (b - address) % RamSize == 0 then value else old(Read(b))
      {
        ReadAfterWrite(old(data[..]), address, value, b);
      }
    }
  }
}
