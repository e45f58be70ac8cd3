/** Slot addresses of linux_user/src/osal_pci.c and linux_kernel/src/osal_pci.c: function in bits
    8 to 10, device in bits 11 to 15, bus from bit 16. */
module PciAddress {
  import opened Options

  // ----- packing -----

  /** os_pci_device_from_address in user space shifts the bytes as they come. */
  function UserPack(bus: bv32, dev: bv32, func: bv32): bv32
  {
    (bus << 16) | (dev << 11) | (func << 8)
  }

  /** The kernel masks device and function first. */
  function KernelPack(bus: bv32, dev: bv32, func: bv32): bv32
  {
    (bus << 16) | ((dev & 0x1F) << 11) | ((func & 0x7) << 8)
  }

  predicate IsByte(b: bv32) { b & 0xFF == b }

  /** For byte arguments the two agree exactly when the bits that spill out of the device field are
      already set in the bus, and those out of the function field in the device. */
  lemma PackingsAgreeExactly(bus: bv32, dev: bv32, func: bv32)
    requires IsByte(bus) && IsByte(dev) && IsByte(func)
    ensures UserPack(bus, dev, func) == KernelPack(bus, dev, func)
            <==> (dev >> 5) & !(bus) == 0 && (func >> 3) & !(dev & 0x1F) == 0
  {
  }

  // ----- unpacking -----

  function UserBus(slot: bv32): bv32 { (slot & 0x7FFF_0000) >> 16 }

  function UserDev(slot: bv32): bv32 { (slot & 0x0000_F800) >> 11 }

  function UserFunc(slot: bv32): bv32 { (slot & 0x0000_0700) >> 8 }

  /** The kernel's bus number and devfn byte, and the device and function in it. */
  function KernelBus(slot: bv32): bv32 { slot >> 16 }

  function Devfn(slot: bv32): bv32 { (slot >> 8) & 0xFF }

  function KernelDev(slot: bv32): bv32 { (Devfn(slot) >> 3) & 0x1F }

  function KernelFunc(slot: bv32): bv32 { Devfn(slot) & 0x7 }

  /** os_pci_get_slot_address in the kernel. */
  function KernelSlot(bus: bv32, devfn: bv32): bv32 { (bus << 16) | (devfn << 8) }

  predicate RealDevice(bus: bv32, dev: bv32, func: bv32)
  {
    IsByte(bus) && dev & 0x1F == dev && func & 0x7 == func
  }

  lemma FieldRanges(dev: bv32, func: bv32)
    ensures dev < 32 <==> dev & 0x1F == dev
    ensures func < 8 <==> func & 0x7 == func
  {
  }

  lemma BusRoundTrip(bus: bv32, dev: bv32, func: bv32)
    requires RealDevice(bus, dev, func)
    ensures UserBus(KernelPack(bus, dev, func)) == bus
    ensures KernelBus(KernelPack(bus, dev, func)) == bus
  {
  }

  lemma DevRoundTrip(bus: bv32, dev: bv32, func: bv32)
    requires RealDevice(bus, dev, func)
    ensures UserDev(KernelPack(bus, dev, func)) == dev
    ensures UserFunc(KernelPack(bus, dev, func)) == func
  {
  }

  lemma SlotRoundTrip(bus: bv32, dev: bv32, func: bv32)
    requires RealDevice(bus, dev, func)
    ensures var slot := KernelPack(bus, dev, func); KernelSlot(KernelBus(slot), Devfn(slot)) == slot
  {
  }

  /** For a real device, either side's packing is decoded by either side to what went in. */
  lemma AddressRoundTrip(bus: bv32, dev: bv32, func: bv32)
    requires IsByte(bus) && dev < 32 && func < 8
    ensures UserPack(bus, dev, func) == KernelPack(bus, dev, func)
    ensures UserBus(UserPack(bus, dev, func)) == bus && KernelBus(UserPack(bus, dev, func)) == bus
    ensures UserDev(UserPack(bus, dev, func)) == dev && KernelDev(UserPack(bus, dev, func)) == dev
    ensures UserFunc(UserPack(bus, dev, func)) == func && KernelFunc(UserPack(bus, dev, func)) == func
    ensures KernelSlot(KernelBus(UserPack(bus, dev, func)), Devfn(UserPack(bus, dev, func))) == UserPack(bus, dev, func)
  {
    FieldRanges(dev, func);
    BusRoundTrip(bus, dev, func);
    DevRoundTrip(bus, dev, func);
    SlotRoundTrip(bus, dev, func);
    DecodingsAgreeExactly(KernelPack(bus, dev, func));
  }

  /** The two decodings of one slot agree exactly when its top bit is clear. */
  lemma DecodingsAgreeExactly(slot: bv32)
    ensures UserDev(slot) == KernelDev(slot) && UserFunc(slot) == KernelFunc(slot)
    ensures UserBus(slot) == KernelBus(slot) <==> slot & 0x8000_0000 == 0
  {
  }

  // ----- the path of a device's configuration file -----

  function HexDigit(d: bv32): char
  {
    if d == 0 then '0' else if d == 1 then '1' else if d == 2 then '2' else if d == 3 then '3'
    else if d == 4 then '4' else if d == 5 then '5' else if d == 6 then '6' else if d == 7 then '7'
    else if d == 8 then '8' else if d == 9 then '9' else if d == 10 then 'a' else if d == 11 then 'b'
    else if d == 12 then 'c' else if d == 13 then 'd' else if d == 14 then 'e' else 'f'
  }

  /** The digits of the format's lower-case x. */
  lemma DigitsInOrder()
    ensures [HexDigit(0), HexDigit(1), HexDigit(2), HexDigit(3), HexDigit(4), HexDigit(5), HexDigit(6), HexDigit(7),
             HexDigit(8), HexDigit(9), HexDigit(10), HexDigit(11), HexDigit(12), HexDigit(13), HexDigit(14),
             HexDigit(15)] == "0123456789abcdef"
  {
  }

  function DigitValue(c: char): bv32
  {
    if c == '0' then 0 else if c == '1' then 1 else if c == '2' then 2 else if c == '3' then 3
    else if c == '4' then 4 else if c == '5' then 5 else if c == '6' then 6 else if c == '7' then 7
    else if c == '8' then 8 else if c == '9' then 9 else if c == 'a' then 10 else if c == 'b' then 11
    else if c == 'c' then 12 else if c == 'd' then 13 else if c == 'e' then 14 else 15
  }

  lemma DigitRoundTrip(d: bv32)
    requires d < 16
    ensures DigitValue(HexDigit(d)) == d
  {
  }

  /** The digits of %x. */
  function Digits(n: bv32): (ds: string)
    ensures ds != []
    decreases n
  {
    if n < 16 then [HexDigit(n)] else Digits(n >> 4) + [HexDigit(n & 0xF)]
  }

  /** A minimum number of digits, as a precision asks for. */
  function Hex(n: bv32, min: nat): string
  {
    var ds := Digits(n);
    if |ds| < min then seq(min - |ds|, i => '0') + ds else ds
  }

  /** "/proc/bus/pci/%2.2x/%2.2x.%1.1x" */
  function Path(slot: bv32): string
  {
    "/proc/bus/pci/" + Hex(UserBus(slot), 2) + "/" + Hex(UserDev(slot), 2) + "." + Hex(UserFunc(slot), 1)
  }

  lemma TwoDigits(n: bv32)
    requires n <= 0xFF
    ensures Hex(n, 2) == [HexDigit(n >> 4), HexDigit(n & 0xF)]
  {
    if n < 16 {
      assert n >> 4 == 0 && n & 0xF == n;
    } else {
      assert n >> 4 < 16;
      assert Digits(n >> 4) == [HexDigit(n >> 4)];
      assert Digits(n) == Digits(n >> 4) + [HexDigit(n & 0xF)];
    }
  }

  lemma AnotherDigit(n: bv32)
    requires !(n < 16)
    ensures |Digits(n)| == |Digits(n >> 4)| + 1
  {
  }

  lemma StillTwoDigits(n: bv32)
    requires n > 0xFF
    ensures !(n < 16) && !(n >> 4 < 16)
  {
  }

  lemma MoreDigits(n: bv32)
    requires n > 0xFF
    ensures |Hex(n, 2)| >= 3
  {
    StillTwoDigits(n);
    AnotherDigit(n);
    AnotherDigit(n >> 4);
  }

  lemma FieldsFit(slot: bv32)
    ensures UserDev(slot) <= 0x1F && UserFunc(slot) <= 7
  {
  }

  lemma PathShape(slot: bv32)
    ensures |Path(slot)| == 19 + |Hex(UserBus(slot), 2)|
    ensures UserBus(slot) <= 0xFF ==>
      Path(slot) == "/proc/bus/pci/" + [HexDigit(UserBus(slot) >> 4), HexDigit(UserBus(slot) & 0xF)] + "/"
                    + [HexDigit(UserDev(slot) >> 4), HexDigit(UserDev(slot) & 0xF)] + "." + [HexDigit(UserFunc(slot))]
  {
    FieldsFit(slot);
    TwoDigits(UserDev(slot));
    assert Hex(UserFunc(slot), 1) == [HexDigit(UserFunc(slot))];
    if UserBus(slot) <= 0xFF {
      TwoDigits(UserBus(slot));
    }
  }

  /** The 21-character test every access makes passes exactly for bus numbers of one byte. */
  lemma AcceptedExactly(slot: bv32)
    ensures |Path(slot)| == 21 <==> UserBus(slot) <= 0xFF
  {
    PathShape(slot);
    if UserBus(slot) <= 0xFF {
      TwoDigits(UserBus(slot));
    } else {
      MoreDigits(UserBus(slot));
    }
  }

  lemma NibblesDecide(a: bv32, b: bv32)
    requires a <= 0xFF && b <= 0xFF
    requires HexDigit(a >> 4) == HexDigit(b >> 4) && HexDigit(a & 0xF) == HexDigit(b & 0xF)
    ensures a == b
  {
    assert a >> 4 < 16 && b >> 4 < 16 && a & 0xF < 16 && b & 0xF < 16;
    DigitRoundTrip(a >> 4);
    DigitRoundTrip(b >> 4);
    DigitRoundTrip(a & 0xF);
    DigitRoundTrip(b & 0xF);
    assert a == ((a >> 4) << 4) | (a & 0xF) && b == ((b >> 4) << 4) | (b & 0xF);
  }

  lemma FieldsRebuild(slot: bv32)
    requires UserBus(slot) <= 0xFF
    ensures slot & 0x00FF_FF00 == (UserBus(slot) << 16) | (UserDev(slot) << 11) | (UserFunc(slot) << 8)
  {
  }

  lemma FieldsOfMiddle(slot: bv32)
    requires UserBus(slot) <= 0xFF
    ensures UserBus(slot) == UserBus(slot & 0x00FF_FF00)
    ensures UserDev(slot) == UserDev(slot & 0x00FF_FF00) && UserFunc(slot) == UserFunc(slot & 0x00FF_FF00)
  {
  }

  lemma PathChars(slot: bv32)
    requires UserBus(slot) <= 0xFF
    ensures |Path(slot)| == 21
    ensures Path(slot)[14] == HexDigit(UserBus(slot) >> 4) && Path(slot)[15] == HexDigit(UserBus(slot) & 0xF)
    ensures Path(slot)[17] == HexDigit(UserDev(slot) >> 4) && Path(slot)[18] == HexDigit(UserDev(slot) & 0xF)
    ensures Path(slot)[20] == HexDigit(UserFunc(slot))
  {
    PathShape(slot);
  }

  lemma SamePathSameFields(a: bv32, b: bv32)
    requires UserBus(a) <= 0xFF && UserBus(b) <= 0xFF && Path(a) == Path(b)
    ensures UserBus(a) == UserBus(b) && UserDev(a) == UserDev(b) && UserFunc(a) == UserFunc(b)
  {
    PathChars(a);
    PathChars(b);
    FieldsFit(a);
    FieldsFit(b);
    NibblesDecide(UserBus(a), UserBus(b));
    NibblesDecide(UserDev(a), UserDev(b));
    DigitRoundTrip(UserFunc(a));
    DigitRoundTrip(UserFunc(b));
  }

  /** Two accepted slots name the same file exactly when they agree in bits 8 to 23. */
  lemma SamePathExactly(a: bv32, b: bv32)
    requires |Path(a)| == 21 && |Path(b)| == 21
    ensures Path(a) == Path(b) <==> a & 0x00FF_FF00 == b & 0x00FF_FF00
  {
    AcceptedExactly(a);
    AcceptedExactly(b);
    if Path(a) == Path(b) {
      SamePathSameFields(a, b);
      FieldsRebuild(a);
      FieldsRebuild(b);
    }
    FieldsOfMiddle(a);
    FieldsOfMiddle(b);
  }

  datatype Answer = Error | NotFound | NoMemory | Device(slot: bv32)

  /** os_pci_device_from_slot in user space; `present` tells which files can be opened. */
  method DeviceFromSlot(slot: bv32, present: string -> bool, memory: bool) returns (answer: Answer)
    ensures answer == Error <==> UserBus(slot) > 0xFF
    ensures answer == NotFound <==> UserBus(slot) <= 0xFF && !present(Path(slot))
    ensures answer == Device(slot) <==> UserBus(slot) <= 0xFF && present(Path(slot)) && memory
    ensures answer.Device? ==> answer.slot == slot
  {
    AcceptedExactly(slot);
    var path := Path(slot);
    if |path| != 21 {
      return Error;
    }
    if !present(path) {
      return NotFound;
    }
    if !memory {
      return NoMemory;
    }
    return Device(slot);
  }
}
