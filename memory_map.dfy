/**
 * The host's memory map (src/main.c): 2 KiB of RAM mirrored through
 * 0x0000..0x1FFF, nothing in 0x2000..0x7FFF, and 32 KiB of ROM at
 * 0x8000..0xFFFF.
 */
module MemoryMap {

  const RamSize: int := 0x800
  const RomSize: int := 0x8000

  /** The contents of the two global buffers `RAM` and `ROM`. */
  datatype Memory = Memory(ram: seq<bv8>, rom: seq<bv8>)

  /** A memory whose buffers have the sizes the globals are declared with. */
  type Mem = m: Memory | |m.ram| == RamSize && |m.rom| == RomSize
    witness Memory(seq(RamSize, _ => 0), seq(RomSize, _ => 0))

  /** `address & 0x7FF` and `address & 0x7FFF` are the address modulo 0x800 and 0x8000. */
  lemma MasksAreModuli(address: bv16)
    ensures address & 0x7FF == address % 0x800
    ensures address & 0x7FFF == address % 0x8000
  {
  }

  /** What `cpu_read` returns: `RAM[address & 0x7FF]`, 0, or `ROM[address & 0x7FFF]`. */
  function ReadByte(m: Mem, address: bv16): bv8
  {
    var a := address as int;
    if a < 0x2000 then m.ram[a % RamSize]
    else if a >= 0x8000 then m.rom[a % RomSize]
    else 0
  }

  /** The memory after `cpu_write`: only RAM (below 0x2000) takes the byte. */
  function WriteByte(m: Mem, address: bv16, data: bv8): Mem
  {
    var a := address as int;
    if a < 0x2000 then m.(ram := m.ram[a % RamSize := data]) else m
  }

  /** Two addresses below 0x2000 that agree modulo 0x800 name the same RAM byte. */
  predicate SameCell(a: bv16, b: bv16)
  {
    a as int < 0x2000 && b as int < 0x2000 && a as int % RamSize == b as int % RamSize
  }

  /** Reads from the three regions: RAM mirrored every 0x800 bytes, the unmapped hole, and ROM. */
  lemma ReadRegions(m: Mem, address: bv16)
    ensures address < 0x2000 ==> ReadByte(m, address) == m.ram[address as int % RamSize]
    ensures 0x2000 <= address < 0x8000 ==> ReadByte(m, address) == 0
    ensures 0x8000 <= address ==> ReadByte(m, address) == m.rom[address as int - 0x8000]
  {
  }

  /** Addresses 0x800 apart below 0x2000 read the same byte. */
  lemma RamMirrors(m: Mem, a: bv16, b: bv16)
    requires b as int == a as int + RamSize < 0x2000
    ensures SameCell(a, b)
    ensures ReadByte(m, a) == ReadByte(m, b)
  {
  }

  /** The reset vector 0xFFFC/0xFFFD lies in the last two bytes of ROM. */
  lemma ResetVectorInRom(m: Mem)
    ensures ReadByte(m, 0xFFFC) == m.rom[0x7FFC]
    ensures ReadByte(m, 0xFFFD) == m.rom[0x7FFD]
  {
  }

  /** A write to RAM changes that one cell and nothing else; any other write changes nothing. */
  lemma WriteRegions(m: Mem, address: bv16, data: bv8)
    ensures WriteByte(m, address, data).rom == m.rom
    ensures 0x2000 <= address ==> WriteByte(m, address, data) == m
    ensures address < 0x2000 ==> WriteByte(m, address, data).ram[address as int % RamSize] == data
    ensures forall i | 0 <= i < RamSize && (address >= 0x2000 || i != address as int % RamSize) ::
      WriteByte(m, address, data).ram[i] == m.ram[i]
  {
  }

  /** A byte written to RAM is read back at the same address and at every mirror of it. */
  lemma ReadAfterWrite(m: Mem, a: bv16, b: bv16, data: bv8)
    requires SameCell(a, b)
    ensures ReadByte(WriteByte(m, a, data), b) == data
  {
  }

  /** A write leaves every address outside the written cell as it was. */
  lemma WriteLeavesOthers(m: Mem, a: bv16, b: bv16, data: bv8)
    requires !SameCell(a, b)
    ensures ReadByte(WriteByte(m, a, data), b) == ReadByte(m, b)
  {
  }

  /**
   * The ROM buffer after loading `image` into the zeroed global: an image of
   * 32 KiB or more is cut to its first 32 KiB, a shorter one is followed by zeros.
   */
  function LoadedRom(image: seq<bv8>): (rom: seq<bv8>)
    ensures |rom| == RomSize
    ensures |image| >= RomSize ==> rom == image[..RomSize]
    ensures |image| < RomSize ==> rom[..|image|] == image && rom[|image|..] == seq(RomSize - |image|, _ => 0)
  {
    seq(RomSize, i => if 0 <= i < |image| then image[i] else 0)
  }

  /**
   * The globals `RAM` and `ROM` as one object. The CPU reaches it only
   * through `Read` and `Write`.
   */
  class HostMemory {
    const ram: array<bv8>
    const rom: array<bv8>

    ghost predicate Valid()
    {
      ram.Length == RamSize && rom.Length == RomSize
    }

    /** The abstract value of both buffers. */
    ghost function Contents(): Mem
      reads ram, rom
      requires Valid()
    {
      Memory(ram[..], rom[..])
    }

    /** RAM starts zeroed; ROM holds `image` (reading the file is not modelled). */
    constructor (image: seq<bv8>)
      ensures Valid() && fresh(ram) && fresh(rom)
      ensures Contents() == Memory(seq(RamSize, _ => 0), LoadedRom(image))
    {
      ram := new bv8[RamSize](_ => 0);
      rom := new bv8[RomSize](i => if 0 <= i < |image| then image[i] else 0);
      new;
      assert ram[..] == seq(RamSize, _ => 0);
      assert rom[..] == LoadedRom(image);
    }

    /** `cpu_read`. */
    function Read(address: bv16): (r: bv8)
      reads ram, rom
      requires Valid()
      ensures r == ReadByte(Contents(), address)
    {
      var a := address as int;
      if a < 0x2000 then ram[a % RamSize]
      else if a >= 0x8000 then rom[a % RomSize]
      else 0
    }

    /** `cpu_write`. */
    method Write(address: bv16, data: bv8)
      requires Valid()
      modifies ram
      ensures Contents() == WriteByte(old(Contents()), address, data)
    {
      var a := address as int;
      if a < 0x2000 {
        ram[a % RamSize] := data;
      }
    }
  }
}
