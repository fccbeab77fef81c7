/**
 * The register file of an I2C target as seen by the simulated bus master:
 * one byte-wide register per (device address, register address) pair, and one
 * register pointer shared by all devices that sequential reads advance.
 */
module I2cRegisters {
  newtype byte = x: int | 0 <= x < 256

  type RegisterKey = (byte, byte)

  /** An 8-bit unsigned increment, wrapping from 255 to 0. */
  function Increment(x: byte): (r: byte)
    ensures r as int == if x == 255 then 0 else x as int + 1
  {
    ((x as int + 1) % 256) as byte
  }

  /** The register pointer after one sequential read: incremented as an
    * 8-bit unsigned value, then wrapped to 0 once it reaches `maxRegisterNumber`. */
  function NextPointer(saved: byte, maxRegisterNumber: byte): (r: byte)
    ensures r < maxRegisterNumber || r == 0
    ensures saved as int + 1 < maxRegisterNumber as int ==> r == saved + 1
    ensures saved as int + 1 >= maxRegisterNumber as int ==> r == 0
  {
    var incremented := Increment(saved);
    if incremented >= maxRegisterNumber then 0 else incremented
  }

  /** The register pointer after `k` sequential reads starting from `saved`. */
  function PointerAfter(saved: byte, maxRegisterNumber: byte, k: nat): byte
  {
    if k == 0 then saved else NextPointer(PointerAfter(saved, maxRegisterNumber, k - 1), maxRegisterNumber)
  }

  /** Below the wrap-around point, each sequential read moves the pointer up by one. */
  lemma {:induction false} PointerAfterCounts(saved: byte, maxRegisterNumber: byte, k: nat)
    requires saved as int + k < maxRegisterNumber as int
    ensures PointerAfter(saved, maxRegisterNumber, k) as int == saved as int + k
  {
    if k > 0 {
      PointerAfterCounts(saved, maxRegisterNumber, k - 1);
    }
  }

  lemma {:induction false} PointerAfterCompose(saved: byte, maxRegisterNumber: byte, j: nat, k: nat)
    ensures PointerAfter(saved, maxRegisterNumber, j + k)
         == PointerAfter(PointerAfter(saved, maxRegisterNumber, j), maxRegisterNumber, k)
  {
    if k > 0 {
      PointerAfterCompose(saved, maxRegisterNumber, j, k - 1);
    }
  }

  /** After as many sequential reads as there are registers, the pointer is back
    * where it started: reads of one device cycle through all its registers. */
  lemma PointerReturns(saved: byte, maxRegisterNumber: byte)
    requires saved < maxRegisterNumber
    ensures PointerAfter(saved, maxRegisterNumber, maxRegisterNumber as nat) == saved
  {
    var toTop := maxRegisterNumber as nat - saved as nat;
    PointerAfterCounts(saved, maxRegisterNumber, toTop - 1);
    assert PointerAfter(saved, maxRegisterNumber, toTop) == 0;
    PointerAfterCounts(0, maxRegisterNumber, saved as nat);
    PointerAfterCompose(saved, maxRegisterNumber, toTop, saved as nat);
  }

  /** The keys `RegisterDevice` resets: registers 0 .. max-1 of one device. */
  function DeviceKeys(i2cAddr: byte, maxRegisterNumber: byte): (keys: set<RegisterKey>)
    ensures forall reg: byte :: (i2cAddr, reg) in keys <==> reg < maxRegisterNumber
    ensures forall k :: k in keys ==> k.0 == i2cAddr
  {
    set reg: byte | 0 <= reg < maxRegisterNumber :: (i2cAddr, reg)
  }

  class I2CPort {
    const maxRegisterNumber: byte
    var deviceRegisters: map<RegisterKey, byte>
    var savedRegAddr: byte

    /** The register pointer always addresses an existing register, or is 0. */
    ghost predicate Valid()
      reads this
    {
      savedRegAddr < maxRegisterNumber || savedRegAddr == 0
    }

    /** What a read of (i2cAddr, regAddr) returns: a register never written reads as 0. */
    function Register(i2cAddr: byte, regAddr: byte): (value: byte)
      reads this
      ensures (i2cAddr, regAddr) !in deviceRegisters ==> value == 0
    {
      if (i2cAddr, regAddr) in deviceRegisters then deviceRegisters[(i2cAddr, regAddr)] else 0
    }

    constructor (maxRegisterNumber: byte)
      ensures Valid()
      ensures this.maxRegisterNumber == maxRegisterNumber
      ensures deviceRegisters == map[] && savedRegAddr == 0
    {
      this.maxRegisterNumber := maxRegisterNumber;
      deviceRegisters := map[];
      savedRegAddr := 0;
    }

    /** Resets registers 0 .. max-1 of `i2cAddr` to 0; other devices are untouched. */
    method RegisterDevice(i2cAddr: byte)
      requires Valid()
      modifies this
      ensures Valid()
      ensures savedRegAddr == old(savedRegAddr)
      ensures deviceRegisters.Keys == old(deviceRegisters).Keys + DeviceKeys(i2cAddr, maxRegisterNumber)
      ensures forall k :: k in deviceRegisters ==>
        deviceRegisters[k] == if k in DeviceKeys(i2cAddr, maxRegisterNumber) then 0 else old(deviceRegisters)[k]
    {
      var i: byte := 0;
      while i < maxRegisterNumber
        invariant i <= maxRegisterNumber
        invariant savedRegAddr == old(savedRegAddr)
        invariant deviceRegisters.Keys == old(deviceRegisters).Keys + set reg: byte | 0 <= reg < i :: (i2cAddr, reg)
        invariant forall k :: k in deviceRegisters ==>
          deviceRegisters[k] == if k.0 == i2cAddr && k.1 < i then 0 else old(deviceRegisters)[k]
      {
        deviceRegisters := deviceRegisters[(i2cAddr, i) := 0];
        i := i + 1;
      }
    }

    /** Sets the register pointer without writing data; out-of-range addresses are refused with 0. */
    method WriteRegisterPointer(i2cAddr: byte, regAddr: byte) returns (r: int)
      requires Valid()
      modifies this
      ensures Valid()
      ensures deviceRegisters == old(deviceRegisters)
      ensures regAddr >= maxRegisterNumber ==> r == 0 && savedRegAddr == old(savedRegAddr)
      ensures regAddr < maxRegisterNumber ==> r == 1 && savedRegAddr == regAddr
    {
      if regAddr >= maxRegisterNumber {
        return 0;
      }
      savedRegAddr := regAddr;
      return 1;
    }

    /** Stores `value` at (i2cAddr, regAddr) and points at it; out-of-range addresses are refused with 0. */
    method WriteRegister(i2cAddr: byte, regAddr: byte, value: byte) returns (r: int)
      requires Valid()
      modifies this
      ensures Valid()
      ensures regAddr >= maxRegisterNumber ==>
        r == 0 && savedRegAddr == old(savedRegAddr) && deviceRegisters == old(deviceRegisters)
      ensures regAddr < maxRegisterNumber ==>
        r == 1 && savedRegAddr == regAddr && deviceRegisters == old(deviceRegisters)[(i2cAddr, regAddr) := value]
    {
      if regAddr >= maxRegisterNumber {
        return 0;
      }
      savedRegAddr := regAddr;
      deviceRegisters := deviceRegisters[(i2cAddr, regAddr) := value];
      return 1;
    }

    /** Sequential read: returns the register under the pointer, then advances the pointer. */
    method ReadRegisterNext(i2cAddr: byte) returns (r: byte)
      requires Valid()
      modifies this
      ensures Valid()
      ensures r == old(Register(i2cAddr, savedRegAddr))
      ensures savedRegAddr == NextPointer(old(savedRegAddr), maxRegisterNumber)
      ensures deviceRegisters == DefaultInserted(old(deviceRegisters), (i2cAddr, old(savedRegAddr)))
    {
      var key := (i2cAddr, savedRegAddr);
      deviceRegisters := DefaultInserted(deviceRegisters, key);
      r := deviceRegisters[key];
      savedRegAddr := Increment(savedRegAddr);
      if savedRegAddr >= maxRegisterNumber {
        savedRegAddr := 0;
      }
    }

    /** Random-access read: points at `regAddr` and returns it; out-of-range addresses read as 0. */
    method ReadRegister(i2cAddr: byte, regAddr: byte) returns (r: byte)
      requires Valid()
      modifies this
      ensures Valid()
      ensures regAddr >= maxRegisterNumber ==>
        r == 0 && savedRegAddr == old(savedRegAddr) && deviceRegisters == old(deviceRegisters)
      ensures regAddr < maxRegisterNumber ==>
        r == old(Register(i2cAddr, regAddr)) && savedRegAddr == regAddr
        && deviceRegisters == DefaultInserted(old(deviceRegisters), (i2cAddr, regAddr))
    {
      if regAddr >= maxRegisterNumber {
        return 0;
      }
      savedRegAddr := regAddr;
      var key := (i2cAddr, savedRegAddr);
      deviceRegisters := DefaultInserted(deviceRegisters, key);
      r := deviceRegisters[key];
    }

    /** A write followed by a read of the same register returns the written value. */
    method WriteThenRead(i2cAddr: byte, regAddr: byte, value: byte) returns (written: int, read: byte)
      requires Valid()
      modifies this
      ensures Valid()
      ensures regAddr < maxRegisterNumber ==> written == 1 && read == value
      ensures regAddr >= maxRegisterNumber ==> written == 0 && read == 0
    {
      written := WriteRegister(i2cAddr, regAddr, value);
      read := ReadRegister(i2cAddr, regAddr);
    }
  }

  /** The map after a C++ `operator[]` lookup of `key`: a missing key is inserted with value 0. */
  function DefaultInserted(m: map<RegisterKey, byte>, key: RegisterKey): (r: map<RegisterKey, byte>)
    ensures key in r && r[key] == (if key in m then m[key] else 0)
    ensures forall k :: k in m ==> k in r && r[k] == m[k]
    ensures forall k :: k in r ==> k in m || k == key
  {
    if key in m then m else m[key := 0]
  }
}
