/** Button injection: POST /remote/key leaves a pending button mask, and the hooked
    gamepad read ORs it into the next successful read's held buttons, once. */
module RemoteInput {
  import opened Platform

  const Int32Min := -0x8000_0000
  const Int32Max := 0x7FFF_FFFF

  /** The value of a C int, which is 32 bits wide on this console. */
  predicate IsInt32(v: int) {
    Int32Min <= v <= Int32Max
  }

  /** The conversion of an int to uint32_t: reduction modulo 2^32. */
  function Unsigned32(v: int): (u: U32)
    requires IsInt32(v)
    ensures v >= 0 ==> u == v
    ensures v < 0 ==> u == v + 0x1_0000_0000
  {
    v % 0x1_0000_0000
  }

  /** The mask an int contributes when it is ORed into `hold`. */
  function ToU32(v: int): bv32
    requires IsInt32(v)
  {
    Unsigned32(v) as bv32
  }

  /** The fields of a gamepad status record the hook reads or writes. */
  class VpadStatus {
    var hold: bv32
    var battery: Byte

    constructor (hold: bv32, battery: Byte)
      ensures this.hold == hold && this.battery == battery
    {
      this.hold := hold;
      this.battery := battery;
    }
  }

  /** The two globals shared by the key handler and the read hook. */
  class InputBridge {
    var buttonValue: int
    var vpadBattery: Byte

    ghost predicate Valid()
      reads this
    {
      IsInt32(buttonValue)
    }

    constructor ()
      ensures Valid() && buttonValue == 0 && vpadBattery == 0
    {
      buttonValue := 0;
      vpadBattery := 0;
    }

    /** POST /remote/key. `button` is the "button" field after std::stoi. The parsed
        value replaces the pending mask (it is not ORed in); a field stoi rejects, or a
        value outside int, throws and leaves the mask as it was. */
    method PostKey(button: ParsedField) returns (o: Outcome)
      requires Valid()
      modifies this
      ensures Valid() && vpadBattery == old(vpadBattery)
      ensures button.NotANumber? ==> o == Throw(InvalidArgument) && buttonValue == old(buttonValue)
      ensures button.Number? && !IsInt32(button.n) ==> o == Throw(OutOfRange) && buttonValue == old(buttonValue)
      ensures button.Number? && IsInt32(button.n) ==> o == Respond(Response(200, NoBody)) && buttonValue == button.n
    {
      match button
      case NotANumber =>
        o := Throw(InvalidArgument);
      case Number(n) =>
        if !IsInt32(n) {
          o := Throw(OutOfRange);
        } else {
          buttonValue := n;
          o := Ok(NoBody);
        }
    }

    /** The VPADRead hook. `buffers` is the record as the real read left it, `readResult`
        what the real read returned, and `readOk` whether it reported success. On
        success the battery level is kept, and a pending mask is ORed into `hold` and
        cleared; on failure nothing changes. */
    method VpadRead(buffers: VpadStatus, readResult: int, readOk: bool) returns (result: int)
      requires Valid()
      modifies this, buffers
      ensures Valid() && result == readResult
      ensures buffers.battery == old(buffers.battery)
      ensures !readOk ==> buttonValue == old(buttonValue) && vpadBattery == old(vpadBattery) && buffers.hold == old(buffers.hold)
      ensures readOk ==> vpadBattery == buffers.battery && buttonValue == 0
      ensures readOk ==> buffers.hold == old(buffers.hold) | ToU32(old(buttonValue))
    {
      result := readResult;
      if readOk {
        vpadBattery := buffers.battery;
        if buttonValue != 0 {
          buffers.hold := buffers.hold | ToU32(buttonValue);
          buttonValue := 0;
        }
      }
    }
  }

  /** A fresh bridge after two key requests: the second one is pending. */
  method PostTwoKeys(b1: int, b2: int) returns (bridge: InputBridge)
    requires IsInt32(b1) && IsInt32(b2)
    ensures fresh(bridge) && bridge.Valid() && bridge.buttonValue == b2
  {
    bridge := new InputBridge();
    var _ := bridge.PostKey(Number(b1));
    var _ := bridge.PostKey(Number(b2));
  }

  /** Two key requests, then two successful gamepad reads: the last request wins, it
      reaches the first read, and it is not applied again by the second. */
  method LastKeyAppliedOnce(b1: int, b2: int, hold1: bv32, hold2: bv32, battery: Byte)
    returns (first: bv32, second: bv32)
    requires IsInt32(b1) && IsInt32(b2)
    ensures first == hold1 | ToU32(b2)
    ensures second == hold2
  {
    var bridge := PostTwoKeys(b1, b2);
    var pad := new VpadStatus(hold1, battery);
    var _ := bridge.VpadRead(pad, 0, true);
    first := pad.hold;
    assert bridge.buttonValue == 0;
    var pad2 := new VpadStatus(hold2, battery);
    var _ := bridge.VpadRead(pad2, 0, true);
    second := pad2.hold;
    NothingPendingKeepsHold(hold2);
  }

  /** Two key requests, then a failed read and a successful one: the failed read
      leaves the held buttons alone and the last request reaches the successful read. */
  method LastKeyWaitsForSuccessfulRead(b1: int, b2: int, hold1: bv32, hold2: bv32, battery: Byte)
    returns (first: bv32, second: bv32)
    requires IsInt32(b1) && IsInt32(b2)
    ensures first == hold1
    ensures second == hold2 | ToU32(b2)
  {
    var bridge := PostTwoKeys(b1, b2);
    var pad := new VpadStatus(hold1, battery);
    var _ := bridge.VpadRead(pad, 0, false);
    first := pad.hold;
    assert bridge.buttonValue == b2;
    var pad2 := new VpadStatus(hold2, battery);
    var _ := bridge.VpadRead(pad2, 0, true);
    second := pad2.hold;
  }

  /** A read with nothing pending leaves the held buttons alone. */
  lemma NothingPendingKeepsHold(hold: bv32)
    ensures hold | ToU32(0) == hold
  {
  }
}
