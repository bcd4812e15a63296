/** The sensor's registers as the two-wire bus sees them.
    The bus transport is replaced by a register file: a map from the
    register address sent on the wire (the command byte with the command
    bit 0x80 added) to the byte stored there. */
module Registers {

  /** The command bit added to every register command on the wire. */
  const CommandBit: int := 0x80

  /** Register commands the driver uses. */
  const EnableRegister: int := 0x00
  const AlsTimingRegister: int := 0x01
  const ConfigurationRegister: int := 0x0D
  const ControlRegister: int := 0x0F
  const IdRegister: int := 0x12
  const StatusRegister: int := 0x13
  const AdcChannelDataRegister: int := 0x14

  /** The address on the wire for a register command. */
  function BusAddress(command: int): int {
    CommandBit + command
  }

  /** One block transfer as it went over the bus, starting at `address`:
      a read that returned `data`, or a write of `data`. */
  datatype BusOp =
    | BlockRead(address: int, data: seq<bv8>)
    | BlockWrite(address: int, data: seq<bv8>)

  /** The byte stored at an address; an address never given a value reads as 0. */
  function Peek(regs: map<int, bv8>, address: int): bv8 {
    if address in regs then regs[address] else 0
  }

  /** The register map after a block write of `data` starting at `address`:
      consecutive bytes go to consecutive addresses. */
  function Stored(regs: map<int, bv8>, address: int, data: seq<bv8>): (r: map<int, bv8>)
    ensures forall a :: a < address || address + |data| <= a ==> Peek(r, a) == Peek(regs, a)
    ensures forall i :: 0 <= i < |data| ==> Peek(r, address + i) == data[i]
    decreases |data|
  {
    if data == [] then regs
    else
      Stored(regs[address := data[0]], address + 1, data[1..])
  }

  /** The `length` bytes at consecutive addresses from `address`. */
  function Window(regs: map<int, bv8>, address: int, length: nat): (w: seq<bv8>)
    ensures |w| == length
    ensures forall i :: 0 <= i < length ==> w[i] == Peek(regs, address + i)
  {
    seq(length, i => Peek(regs, address + i))
  }

  lemma StoredSingle(regs: map<int, bv8>, address: int, v: bv8)
    ensures Stored(regs, address, [v]) == regs[address := v]
  {
    assert [v][1..] == [];
  }

  /** The register file of the sensor. Every block read and block write
      the driver makes is recorded, in order, in `trace`; the sensor itself
      may change its status register between polls (`Settle`), which is not
      a bus transfer. */
  class RegisterFile {
    var regs: map<int, bv8>
    ghost var trace: seq<BusOp>

    constructor (initial: map<int, bv8>)
      ensures regs == initial && trace == []
    {
      regs := initial;
      trace := [];
    }

    /** The byte at `address`. */
    function Value(address: int): bv8
      reads this
    {
      Peek(regs, address)
    }

    /** A block read of `length` bytes at `address` into `buffer`. */
    method ReadI2cBlockSync(address: int, length: nat, buffer: array<bv8>)
      requires length <= buffer.Length
      modifies this, buffer
      ensures regs == old(regs)
      ensures trace == old(trace) + [BlockRead(address, Window(regs, address, length))]
      ensures forall i :: 0 <= i < length ==> buffer[i] == Value(address + i)
      ensures forall i :: length <= i < buffer.Length ==> buffer[i] == old(buffer[i])
    {
      forall i | 0 <= i < length {
        buffer[i] := Value(address + i);
      }
      trace := trace + [BlockRead(address, Window(regs, address, length))];
    }

    /** A block write of `buffer` at `address`. */
    method WriteI2cBlockSync(address: int, length: nat, buffer: seq<bv8>)
      requires length == |buffer|
      modifies this
      ensures regs == Stored(old(regs), address, buffer)
      ensures trace == old(trace) + [BlockWrite(address, buffer)]
    {
      regs := Stored(regs, address, buffer);
      trace := trace + [BlockWrite(address, buffer)];
    }

    /** The sensor updates its status register while the driver waits. */
    method Settle(status: bv8)
      modifies this
      ensures regs == old(regs)[BusAddress(StatusRegister) := status]
      ensures trace == old(trace)
    {
      regs := regs[BusAddress(StatusRegister) := status];
    }
  }
}
