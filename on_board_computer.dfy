/**
 * The port registry of the simulated on-board computer (OBC): three tables
 * from port id to UART, I2C and GPIO port objects.  The tables are C++ maps
 * of pointers read with `operator[]`, so a lookup of an absent id inserts a
 * null entry; here a table maps ids to `Option` slots and `None` is that
 * null entry.  The port objects themselves are abstract values.
 */
module OnBoardComputer {
  import opened Wrappers
  import I2cRegisters

  /** A UART channel, known by the buffer sizes it was created with. */
  datatype UartPort = UartPort(txBufferSize: int, rxBufferSize: int)

  /** An I2C bus port, known by the device addresses registered on it, oldest first. */
  datatype I2cPort = I2cPort(devices: seq<I2cRegisters.byte>)

  /** A GPIO pin, known by its port id. */
  datatype GpioPort = GpioPort(portId: int)

  type Table<P> = map<int, Option<P>>

  /** The id has a live (non-null) port. */
  predicate Connected<P>(t: Table<P>, id: int)
  {
    id in t && t[id].Some?
  }

  /** The live ports of a table, with the null entries dropped. */
  function Live<P>(t: Table<P>): (live: map<int, P>)
    ensures forall id :: id in live <==> Connected(t, id)
    ensures forall id :: id in live ==> Connected(t, id) && live[id] == t[id].value
  {
    map id | id in t && t[id].Some? :: t[id].value
  }

  /** The table after `operator[]` looked `id` up: an absent id gets a null entry. */
  function Touch<P>(t: Table<P>, id: int): (r: Table<P>)
    ensures id in r
    ensures Live(r) == Live(t)
  {
    if id in t then t else t[id := None]
  }

  /** Overwriting an entry makes the earlier null insertion invisible. */
  lemma TouchThenSet<P>(t: Table<P>, id: int, slot: Option<P>)
    ensures Touch(t, id)[id := slot] == t[id := slot]
  {
    var lhs, rhs := Touch(t, id)[id := slot], t[id := slot];
    assert forall i :: i in lhs <==> i in rhs;
  }

  /** Connecting a fresh port: refused with -1 on a live id, else installs `port` and returns 0. */
  function Connect<P>(t: Table<P>, id: int, port: P): (r: (Table<P>, int))
    ensures Connected(r.0, id)
    ensures r.1 == -1 <==> Connected(t, id)
    ensures r.1 == 0 <==> !Connected(t, id)
  {
    if Connected(t, id) then (t, -1) else (t[id := Some(port)], 0)
  }

  /** Closing: -1 on an id without a live port (after the null insertion), else erases the id and returns 0. */
  function Close<P>(t: Table<P>, id: int): (r: (Table<P>, int))
    ensures !Connected(r.0, id)
    ensures r.1 == -1 <==> !Connected(t, id)
    ensures r.1 == 0 <==> Connected(t, id)
  {
    if Connected(t, id) then (t - {id}, 0) else (Touch(t, id), -1)
  }

  /** A connect on a live id keeps the existing port. */
  lemma ConnectKeepsExisting<P>(t: Table<P>, id: int, port: P)
    requires Connected(t, id)
    ensures Live(Connect(t, id, port).0) == Live(t)
    ensures Connect(t, id, port).1 == -1
  {
  }

  /** A connect on a free id adds exactly that port. */
  lemma ConnectAddsOne<P>(t: Table<P>, id: int, port: P)
    requires !Connected(t, id)
    ensures Live(Connect(t, id, port).0) == Live(t)[id := port]
  {
    var after := Connect(t, id, port).0;
    assert forall i :: i in Live(after) <==> i in Live(t)[id := port];
  }

  /** Closing removes that id only. */
  lemma CloseRemovesOne<P>(t: Table<P>, id: int)
    ensures Live(Close(t, id).0) == Live(t) - {id}
  {
    var after := Close(t, id).0;
    assert forall i :: i in Live(after) <==> i in Live(t) - {id};
  }

  /** Closing a port frees its id: the next connect succeeds and installs the new port. */
  lemma CloseThenConnect<P>(t: Table<P>, id: int, port: P)
    requires Connected(t, id)
    ensures Close(t, id).1 == 0
    ensures Connect(Close(t, id).0, id, port).1 == 0
    ensures Live(Connect(Close(t, id).0, id, port).0) == Live(t)[id := port]
  {
    CloseRemovesOne(t, id);
    ConnectAddsOne(Close(t, id).0, id, port);
  }

  /** Connecting and closing a free id leaves the live ports as they were. */
  lemma ConnectThenClose<P>(t: Table<P>, id: int, port: P)
    requires !Connected(t, id)
    ensures Close(Connect(t, id, port).0, id).1 == 0
    ensures Live(Close(Connect(t, id, port).0, id).0) == Live(t)
  {
    ConnectAddsOne(t, id, port);
    CloseRemovesOne(Connect(t, id, port).0, id);
  }

  /** The I2C table after connecting `id` for `i2cAddress`: the live port is reused, or a new one made, and the device registered on it. */
  function I2cConnect(t: Table<I2cPort>, id: int, i2cAddress: I2cRegisters.byte): (r: Table<I2cPort>)
    ensures Connected(r, id)
    ensures r[id].value.devices == (if Connected(t, id) then t[id].value.devices else []) + [i2cAddress]
    ensures Live(r) == Live(t)[id := r[id].value]
  {
    var port := if Connected(t, id) then t[id].value else I2cPort([]);
    var r := t[id := Some(I2cPort(port.devices + [i2cAddress]))];
    assert forall i :: i in Live(r) <==> i in Live(t)[id := r[id].value];
    r
  }

  class OBC {
    var uartPorts: Table<UartPort>
    var i2cPorts: Table<I2cPort>
    var gpioPorts: Table<GpioPort>

    constructor ()
      ensures uartPorts == map[] && i2cPorts == map[] && gpioPorts == map[]
    {
      uartPorts := map[];
      i2cPorts := map[];
      gpioPorts := map[];
    }

    /** Opens UART `portId` with the given buffer sizes; -1 if it is already open. */
    method ConnectComPort(portId: int, txBufferSize: int, rxBufferSize: int) returns (r: int)
      modifies this
      ensures (uartPorts, r) == Connect(old(uartPorts), portId, UartPort(txBufferSize, rxBufferSize))
      ensures i2cPorts == old(i2cPorts) && gpioPorts == old(gpioPorts)
    {
      uartPorts := Touch(uartPorts, portId);
      if uartPorts[portId].Some? {
        return -1;
      }
      TouchThenSet(old(uartPorts), portId, Some(UartPort(txBufferSize, rxBufferSize)));
      uartPorts := uartPorts[portId := Some(UartPort(txBufferSize, rxBufferSize))];
      return 0;
    }

    /** Closes UART `portId`; -1 if it is not open. */
    method CloseComPort(portId: int) returns (r: int)
      modifies this
      ensures (uartPorts, r) == Close(old(uartPorts), portId)
      ensures i2cPorts == old(i2cPorts) && gpioPorts == old(gpioPorts)
    {
      uartPorts := Touch(uartPorts, portId);
      if uartPorts[portId].None? {
        return -1;
      }
      uartPorts := uartPorts - {portId};
      return 0;
    }

    /**
     * The guard shared by the four UART data calls (send from the OBC, receive
     * by the component, send from the component, receive by the OBC): -1 when
     * the id has no live port, else the result of `transfer` on that port.
     */
    method UartTransfer(portId: int, transfer: UartPort -> int) returns (r: int)
      modifies this
      ensures uartPorts == Touch(old(uartPorts), portId)
      ensures i2cPorts == old(i2cPorts) && gpioPorts == old(gpioPorts)
      ensures !Connected(old(uartPorts), portId) ==> r == -1
      ensures Connected(old(uartPorts), portId) ==> r == transfer(old(uartPorts)[portId].value)
    {
      uartPorts := Touch(uartPorts, portId);
      var port := uartPorts[portId];
      if port.None? {
        return -1;
      }
      return transfer(port.value);
    }

    method SendFromObc(portId: int, writeTx: UartPort -> int) returns (r: int)
      modifies this
      ensures uartPorts == Touch(old(uartPorts), portId)
      ensures i2cPorts == old(i2cPorts) && gpioPorts == old(gpioPorts)
      ensures r == if Connected(old(uartPorts), portId) then writeTx(old(uartPorts)[portId].value) else -1
    {
      r := UartTransfer(portId, writeTx);
    }

    method ReceivedByCompo(portId: int, readTx: UartPort -> int) returns (r: int)
      modifies this
      ensures uartPorts == Touch(old(uartPorts), portId)
      ensures i2cPorts == old(i2cPorts) && gpioPorts == old(gpioPorts)
      ensures r == if Connected(old(uartPorts), portId) then readTx(old(uartPorts)[portId].value) else -1
    {
      r := UartTransfer(portId, readTx);
    }

    method SendFromCompo(portId: int, writeRx: UartPort -> int) returns (r: int)
      modifies this
      ensures uartPorts == Touch(old(uartPorts), portId)
      ensures i2cPorts == old(i2cPorts) && gpioPorts == old(gpioPorts)
      ensures r == if Connected(old(uartPorts), portId) then writeRx(old(uartPorts)[portId].value) else -1
    {
      r := UartTransfer(portId, writeRx);
    }

    method ReceivedByObc(portId: int, readRx: UartPort -> int) returns (r: int)
      modifies this
      ensures uartPorts == Touch(old(uartPorts), portId)
      ensures i2cPorts == old(i2cPorts) && gpioPorts == old(gpioPorts)
      ensures r == if Connected(old(uartPorts), portId) then readRx(old(uartPorts)[portId].value) else -1
    {
      r := UartTransfer(portId, readRx);
    }

    /** Attaches device `i2cAddress` to I2C port `portId`, creating the port if needed; always 0. */
    method I2cConnectPort(portId: int, i2cAddress: I2cRegisters.byte) returns (r: int)
      modifies this
      ensures r == 0
      ensures i2cPorts == I2cConnect(old(i2cPorts), portId, i2cAddress)
      ensures uartPorts == old(uartPorts) && gpioPorts == old(gpioPorts)
    {
      i2cPorts := Touch(i2cPorts, portId);
      if i2cPorts[portId].None? {
        i2cPorts := i2cPorts[portId := Some(I2cPort([]))];
      }
      var port := i2cPorts[portId].value;
      i2cPorts := i2cPorts[portId := Some(I2cPort(port.devices + [i2cAddress]))];
      return 0;
    }

    /** Closes I2C port `portId`; -1 if it is not open. */
    method I2cCloseComPort(portId: int) returns (r: int)
      modifies this
      ensures (i2cPorts, r) == Close(old(i2cPorts), portId)
      ensures uartPorts == old(uartPorts) && gpioPorts == old(gpioPorts)
    {
      i2cPorts := Touch(i2cPorts, portId);
      if i2cPorts[portId].None? {
        return -1;
      }
      i2cPorts := i2cPorts - {portId};
      return 0;
    }

    /** Opens GPIO `portId`; -1 if it is already open. */
    method GpioConnectPort(portId: int) returns (r: int)
      modifies this
      ensures (gpioPorts, r) == Connect(old(gpioPorts), portId, GpioPort(portId))
      ensures uartPorts == old(uartPorts) && i2cPorts == old(i2cPorts)
    {
      gpioPorts := Touch(gpioPorts, portId);
      if gpioPorts[portId].Some? {
        return -1;
      }
      TouchThenSet(old(gpioPorts), portId, Some(GpioPort(portId)));
      gpioPorts := gpioPorts[portId := Some(GpioPort(portId))];
      return 0;
    }

    /** Drives GPIO `portId`; -1 when it is not open, else the pin's own result. */
    method GpioComponentWrite(portId: int, isHigh: bool, digitalWrite: (GpioPort, bool) -> int) returns (r: int)
      modifies this
      ensures gpioPorts == Touch(old(gpioPorts), portId)
      ensures uartPorts == old(uartPorts) && i2cPorts == old(i2cPorts)
      ensures r == if Connected(old(gpioPorts), portId) then digitalWrite(old(gpioPorts)[portId].value, isHigh) else -1
    {
      gpioPorts := Touch(gpioPorts, portId);
      var port := gpioPorts[portId];
      if port.None? {
        return -1;
      }
      return digitalWrite(port.value, isHigh);
    }

    /** Reads GPIO `portId`; false when it is not open, else the pin's level. */
    method GpioComponentRead(portId: int, digitalRead: GpioPort -> bool) returns (r: bool)
      modifies this
      ensures gpioPorts == Touch(old(gpioPorts), portId)
      ensures uartPorts == old(uartPorts) && i2cPorts == old(i2cPorts)
      ensures r == (Connected(old(gpioPorts), portId) && digitalRead(old(gpioPorts)[portId].value))
    {
      gpioPorts := Touch(gpioPorts, portId);
      var port := gpioPorts[portId];
      if port.None? {
        return false;
      }
      return digitalRead(port.value);
    }
  }
}
