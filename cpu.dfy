/** The `CPU` struct of src/cpu.rs as a class whose methods update its registers and
    its 64 KiB memory array in place, statement by statement as the emulator does.
    Every method is proved to move the object from `State()` to the machine that the
    matching function of `CpuModel` computes; what those functions mean is proved
    there. */
module Cpu {
  import opened Bytes
  import CpuModel

  /** The flags in the order `get_flag_constant` searches them ... */
  const Flags: seq<CpuModel.Flag> := [
    CpuModel.Negative, CpuModel.Overflow, CpuModel.B, CpuModel.Decimal,
    CpuModel.Interrupt, CpuModel.Flag.Zero, CpuModel.Carry]

  /** ... and the status bit at the same position. */
  const Constants: seq<CpuModel.Status> := [
    CpuModel.NFlag, CpuModel.VFlag, CpuModel.BFlag, CpuModel.DFlag,
    CpuModel.IFlag, CpuModel.ZFlag, CpuModel.CFlag]

  /** `get_flag_constant`: a linear search for `f` in `Flags`, answering the constant at
      the position where it stops.  Every flag is in the list, so the search always
      stops on it and never reads past the end of `Constants`. */
  method GetFlagConstant(f: CpuModel.Flag) returns (c: CpuModel.Status)
    ensures c == CpuModel.FlagMask(f)
  {
    var i := 0;
    var found := false;
    while !found && i < |Flags|
      invariant 0 <= i <= |Flags|
      invariant found ==> i < |Flags| && Flags[i] == f
      invariant !found ==> i <= Position(f)
      decreases |Flags| - i, if found then 0 else 1
    {
      if f == Flags[i] {
        found := true;
      } else {
        i := i + 1;
      }
    }
    c := Constants[i];
  }

  /** Where each flag stands in `Flags`. */
  function Position(f: CpuModel.Flag): (i: nat)
    ensures i < |Flags| && Flags[i] == f && Constants[i] == CpuModel.FlagMask(f)
  {
    match f
    case Negative => 0
    case Overflow => 1
    case B => 2
    case Decimal => 3
    case Interrupt => 4
    case Zero => 5
    case Carry => 6
  }

  class Cpu {
    var cycles: nat
    var status: CpuModel.Status
    var pc: Word
    var sp: Byte
    var a: Byte
    var x: Byte
    var y: Byte
    const memory: array<Byte>

    ghost predicate Valid()
      reads this
    {
      memory.Length == 0x10000
    }

    /** The machine the fields hold. */
    ghost function State(): CpuModel.Machine
      reads this, memory
      requires Valid()
    {
      CpuModel.Machine(cycles, status, pc, sp, a, x, y, memory[..])
    }

    /** `CPU::default()`. */
    constructor ()
      ensures Valid() && fresh(memory)
      ensures State() == CpuModel.PowerOn()
    {
      cycles, status, pc, sp, a, x, y := 0, 0, 0, 0, 0, 0, 0;
      memory := new Byte[0x10000](_ => 0);
      new;
      assert memory[..] == CpuModel.PowerOn().memory;
    }

    /** `fetch`. */
    function Fetch(address: Word): (value: Byte)
      reads this, memory
      requires Valid()
      ensures value == CpuModel.Fetch(State(), address)
    {
      memory[address]
    }

    /** `store`. */
    method Store(address: Word, value: Byte)
      requires Valid()
      modifies memory
      ensures Valid()
      ensures State() == CpuModel.Store(old(State()), address, value)
    {
      memory[address] := value;
    }

    /** `set_flag`. */
    method SetFlag(f: CpuModel.Flag, v: bool)
      requires Valid()
      modifies this
      ensures Valid()
      ensures State() == old(State()).(status := CpuModel.WithFlag(old(status), f, v))
    {
      var flagConstant := GetFlagConstant(f);
      var updated := (status & !flagConstant) | if v then flagConstant else 0;
      assert updated == CpuModel.WithFlag(status, f, v);
      status := updated;
    }

    /** `update_status`: two or one calls of `set_flag`, as the value demands. */
    method UpdateStatus(value: Byte)
      requires Valid()
      modifies this
      ensures Valid()
      ensures State() == old(State()).(status := CpuModel.UpdatedStatus(old(status), value))
    {
      if value == 0 {
        SetFlag(CpuModel.Flag.Zero, true);
        SetFlag(CpuModel.Negative, false);
      } else {
        SetFlag(CpuModel.Flag.Zero, false);
        if value > 127 {
          SetFlag(CpuModel.Negative, true);
        }
      }
    }

    /** `read_absolute_address`. */
    method ReadAbsoluteAddress() returns (address: Word)
      requires Valid()
      modifies this
      ensures Valid()
      ensures (State(), address) == CpuModel.ReadAbsoluteAddress(old(State()))
    {
      address := WordOf(memory[pc], memory[AddWord(pc, 1)]);
      pc := AddWord(pc, 1);
    }

    /** `read_indirect_address`. */
    method ReadIndirectAddress() returns (address: Word)
      requires Valid()
      modifies this
      ensures Valid()
      ensures (State(), address) == CpuModel.ReadIndirectAddress(old(State()))
    {
      var ptrLow := memory[pc];
      pc := AddWord(pc, 1);
      var ptrHigh := memory[pc];
      var addrLow := memory[WordOf(ptrLow, ptrHigh)];
      ptrHigh := AddByte(ptrHigh, 1);
      var addrHigh := memory[WordOf(ptrLow, ptrHigh)];
      address := WordOf(addrLow, addrHigh);
    }

    /** `read_indirect_indexed_address`. */
    function ReadIndirectIndexedAddress(offset: Byte): (address: Word)
      reads this, memory
      requires Valid()
      ensures address == CpuModel.IndirectIndexedAddress(State(), offset)
    {
      var zpAddress := memory[pc];
      var base := WordOf(memory[zpAddress], memory[AddByte(zpAddress, 1)]);
      AddWord(base, offset)
    }

    /** `read_indexed_indirect_address`. */
    function ReadIndexedIndirectAddress(offset: Byte): (address: Word)
      reads this, memory
      requires Valid()
      ensures address == CpuModel.IndexedIndirectAddress(State(), offset)
    {
      var zpAddress := AddByte(memory[pc], offset);
      WordOf(memory[zpAddress], memory[AddByte(zpAddress, 1)])
    }

    /** `push`. */
    method Push(value: Byte)
      requires Valid()
      modifies this, memory
      ensures Valid()
      ensures State() == CpuModel.Push(old(State()), value)
    {
      sp := AddByte(sp, 1);
      var address := WordOf(sp, CpuModel.StackPage);
      memory[address] := value;
    }

    /** `pop`. */
    method Pop() returns (value: Byte)
      requires Valid()
      modifies this
      ensures Valid()
      ensures (State(), value) == CpuModel.Pop(old(State()))
    {
      var address := WordOf(sp, CpuModel.StackPage);
      value := memory[address];
      sp := SubByte(sp, 1);
    }

    /** `read_value`. */
    method ReadValue(mode: CpuModel.AddressingMode) returns (value: Byte)
      requires Valid()
      modifies this
      ensures Valid()
      ensures (State(), value) == CpuModel.ReadValue(old(State()), mode)
    {
      var offset: Byte;
      if mode == CpuModel.AbsoluteX || mode == CpuModel.IndirectX || mode == CpuModel.ZeroX {
        offset := x;
      } else if mode == CpuModel.AbsoluteY || mode == CpuModel.IndirectY || mode == CpuModel.ZeroY {
        offset := y;
      } else {
        offset := 0;
      }

      if mode == CpuModel.Immediate {
        value := memory[pc];
      } else if mode == CpuModel.AddressingMode.Zero || mode == CpuModel.ZeroX || mode == CpuModel.ZeroY {
        var address := AddByte(memory[pc], offset);
        value := memory[address];
      } else if mode == CpuModel.Absolute || mode == CpuModel.AbsoluteX || mode == CpuModel.AbsoluteY {
        var base := ReadAbsoluteAddress();
        var address := AddWord(base, offset);
        value := memory[address];
      } else if mode == CpuModel.IndirectX {
        var address := ReadIndexedIndirectAddress(offset);
        value := memory[address];
      } else if mode == CpuModel.IndirectY {
        var address := ReadIndirectIndexedAddress(offset);
        value := memory[address];
      } else {
        value := 0;
      }
    }

    /** LDA in one mode: load A, then update Z and N from it. */
    method LoadAccumulator(mode: CpuModel.AddressingMode)
      requires Valid()
      modifies this
      ensures Valid()
      ensures var (m1, value) := CpuModel.ReadValue(old(State()), mode);
        State() == m1.(a := value, status := CpuModel.UpdatedStatus(m1.status, value))
    {
      a := ReadValue(mode);
      UpdateStatus(a);
    }

    /** `execute_instruction`. */
    method ExecuteInstruction(opcode: Byte)
      requires Valid()
      modifies this
      ensures Valid()
      ensures State() == CpuModel.Execute(old(State()), opcode)
    {
      if opcode == 0x4c {
        pc := ReadAbsoluteAddress();
      } else if opcode == 0xa9 {
        LoadAccumulator(CpuModel.Immediate);
      } else if opcode == 0xa5 {
        LoadAccumulator(CpuModel.AddressingMode.Zero);
      } else if opcode == 0xb5 {
        LoadAccumulator(CpuModel.ZeroX);
      } else if opcode == 0xad {
        LoadAccumulator(CpuModel.Absolute);
      } else if opcode == 0xbd {
        LoadAccumulator(CpuModel.AbsoluteX);
      } else if opcode == 0xb9 {
        LoadAccumulator(CpuModel.AbsoluteY);
      } else if opcode == 0xa1 {
        LoadAccumulator(CpuModel.IndirectX);
      } else if opcode == 0xb1 {
        LoadAccumulator(CpuModel.IndirectY);
      }
    }

    /** `step`. */
    method Step()
      requires Valid()
      modifies this
      ensures Valid()
      ensures State() == CpuModel.Step(old(State()))
    {
      var instruction := memory[pc];
      pc := AddWord(pc, 1);
      ExecuteInstruction(instruction);
      pc := AddWord(pc, 1);
    }

    /** `reset`. */
    method Reset()
      requires Valid()
      modifies this
      ensures Valid()
      ensures State() == CpuModel.Reset(old(State()))
    {
      pc := CpuModel.ResetVector;
      var startAddress := ReadAbsoluteAddress();
      pc := startAddress;
    }
  }
}
