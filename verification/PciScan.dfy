/** Device enumeration of linux_user/src/osal_pci.c: every find re-reads the device table from the
    start and resumes behind the slot of the device it was given. */
module PciScan {
  import opened Options
  import opened PciAddress
  import opened Words

  /** One line of /proc/bus/pci/devices: no address can be read from it, or an address but not all of the
      first three fields, or address, identity word and interrupt number. */
  datatype Line = Unparsable | AddressOnly(addr: nat) | Entry(addr: nat, identity: bv32, irq: nat)

  /** The table; None when it cannot be opened. */
  type Table = Option<seq<Line>>

  /** Configuration space: the 32-bit register at an offset, None when the read fails. */
  type Config = (nat, nat) -> Option<bv32>

  /** The slot address of a table address; the shift drops what leaves the 32-bit word. */
  function Slot(addr: nat): nat
  {
    ToU32(addr * 256)
  }

  /** The slot is the table's address moved up one byte; only a fourth byte is lost. */
  lemma SlotExactly(addr: nat)
    requires IsU32(addr)
    ensures Slot(addr) / 0x100 == addr <==> addr < 0x100_0000
    ensures Slot(addr) == addr * 0x100 <==> addr < 0x100_0000
  {
  }

  /** For the table's 16-bit addresses, bus, device and function of the slot, as either side decodes them, are
      the bytes and bit fields of the address. */
  lemma SlotDecodes(addr: bv32)
    requires addr as nat < 0x1_0000
    ensures Slot(addr as nat) == (addr << 8) as nat
    ensures UserBus(addr << 8) == KernelBus(addr << 8) == addr / 256
    ensures UserDev(addr << 8) == KernelDev(addr << 8) == addr / 8 % 32
    ensures UserFunc(addr << 8) == KernelFunc(addr << 8) == addr % 8
  {
    ShiftIsProduct(addr);
    SlotFields(addr);
    DecodingsAgreeExactly(addr << 8);
    BitFields(addr);
  }

  lemma ShiftIsProduct(addr: bv32)
    requires addr as nat < 0x1_0000
    ensures (addr << 8) as nat == addr as nat * 256 && addr < 0x1_0000
  {
  }

  lemma SlotFields(addr: bv32)
    requires addr < 0x1_0000
    ensures UserBus(addr << 8) == addr >> 8 && (addr << 8) & 0x8000_0000 == 0
    ensures UserDev(addr << 8) == (addr >> 3) & 0x1F && UserFunc(addr << 8) == addr & 0x7
  {
  }

  lemma BitFields(addr: bv32)
    ensures addr / 256 == addr >> 8 && addr / 8 % 32 == (addr >> 3) & 0x1F && addr % 8 == addr & 0x7
  {
  }

  /** The handle a find allocates; a search by class leaves the interrupt number unset. */
  datatype Handle = Handle(slot: nat, irq: Option<nat>)

  /** Where a search resumes: behind the handle it is given. */
  function Cursor(handle: Option<Handle>): Option<nat>
  {
    if handle.None? then None else Some(handle.value.slot)
  }

  // ----- what a scan looks at -----

  datatype Verdict = Hit | Miss | Fail

  /** A table line as a scan sees it. */
  datatype Item = Broken | Item(slot: nat, verdict: Verdict)

  /** The identity word a search by vendor and device compares with. */
  function Key(vid: bv32, did: bv32): bv32
  {
    did | (vid << 16)
  }

  /** The table's identity word has the vendor in its high half and the device in its low half. */
  lemma KeyExactly(identity: bv32, vid: bv32, did: bv32)
    requires vid & 0xFFFF == vid && did & 0xFFFF == did
    ensures identity == Key(vid, did) <==> identity >> 16 == vid && identity & 0xFFFF == did
  {
    KeyFields(vid, did);
    KeyOfFields(identity);
  }

  lemma KeyFields(vid: bv32, did: bv32)
    requires vid & 0xFFFF == vid && did & 0xFFFF == did
    ensures Key(vid, did) >> 16 == vid && Key(vid, did) & 0xFFFF == did
  {
  }

  lemma KeyOfFields(identity: bv32)
    ensures Key(identity >> 16, identity & 0xFFFF) == identity
  {
  }

  function IdItem(line: Line, key: bv32): Item
  {
    match line
    case Entry(addr, identity, _) => Item(Slot(addr), if identity == key then Hit else Miss)
    case _ => Broken
  }

  /** Three bytes of the class register. */
  datatype Class = Class(baseclass: bv32, subclass: bv32, pi: bv32)

  function ClassOf(reg: bv32): Class
  {
    Class((reg & 0xFF00_0000) >> 24, (reg & 0x00FF_0000) >> 16, (reg & 0x0000_FF00) >> 8)
  }

  /** The register holds base class, subclass, interface and revision from the top byte down. */
  lemma ClassRoundTrip(baseclass: bv32, subclass: bv32, pi: bv32, revision: bv32)
    requires IsByte(baseclass) && IsByte(subclass) && IsByte(pi) && IsByte(revision)
    ensures ClassOf((baseclass << 24) | (subclass << 16) | (pi << 8) | revision) == Class(baseclass, subclass, pi)
  {
  }

  function ClassItem(line: Line, config: Config, cls: Class): Item
  {
    if line.Unparsable? then Broken
    else Item(Slot(line.addr), match config(Slot(line.addr), 8)
                                case None => Fail
                                case Some(reg) => if ClassOf(reg) == cls then Hit else Miss)
  }

  function IdItems(table: Table, key: bv32): seq<Item>
  {
    match table
    case None => []
    case Some(lines) => seq(|lines|, i requires 0 <= i < |lines| => IdItem(lines[i], key))
  }

  function ClassItems(table: Table, config: Config, cls: Class): seq<Item>
  {
    match table
    case None => []
    case Some(lines) => seq(|lines|, i requires 0 <= i < |lines| => ClassItem(lines[i], config, cls))
  }

  /** Behind the current device; without one every slot is. */
  predicate Behind(slot: nat, cur: Option<nat>)
  {
    cur.None? || slot > cur.value
  }

  /** The slot a scan returns: it skips up to the current slot, then stops at the first hit,
      unreadable device or unparsable line. */
  function Scan(items: seq<Item>, cur: Option<nat>): Option<nat>
  {
    if items == [] then None
    else match items[0]
      case Broken => None
      case Item(slot, verdict) =>
        if !Behind(slot, cur) || verdict == Miss then Scan(items[1..], cur)
        else if verdict == Hit then Some(slot)
        else None
  }

  predicate PassedOver(item: Item, cur: Option<nat>)
  {
    item.Item? && (!Behind(item.slot, cur) || item.verdict == Miss)
  }

  /** The first hit behind `cur`, every earlier line being readable, and skipped or a miss. */
  ghost predicate FirstHit(items: seq<Item>, cur: Option<nat>, i: int)
  {
    && 0 <= i < |items| && items[i].Item? && items[i].verdict == Hit && Behind(items[i].slot, cur)
    && forall j :: 0 <= j < i ==> PassedOver(items[j], cur)
  }

  /** The scan ends without a hit: at the end of the table, or at a line or a device it cannot read. */
  ghost predicate GivesUp(items: seq<Item>, cur: Option<nat>, i: int)
  {
    && 0 <= i <= |items|
    && (i == |items| || items[i].Broken? || (items[i].verdict == Fail && Behind(items[i].slot, cur)))
    && forall j :: 0 <= j < i ==> PassedOver(items[j], cur)
  }

  lemma {:induction false} ScanSkips(items: seq<Item>, cur: Option<nat>, i: nat)
    requires i <= |items| && forall j :: 0 <= j < i ==> PassedOver(items[j], cur)
    ensures Scan(items, cur) == Scan(items[i..], cur)
  {
    if i > 0 {
      forall j | 0 <= j < i - 1 ensures PassedOver(items[1..][j], cur) {
        assert items[1..][j] == items[j + 1];
      }
      ScanSkips(items[1..], cur, i - 1);
      assert items[1..][i - 1..] == items[i..];
    }
  }

  lemma {:induction false} ScanStops(items: seq<Item>, cur: Option<nat>)
    ensures exists i :: FirstHit(items, cur, i) || GivesUp(items, cur, i)
  {
    if items == [] || !PassedOver(items[0], cur) {
      assert FirstHit(items, cur, 0) || GivesUp(items, cur, 0);
    } else {
      ScanStops(items[1..], cur);
      var i :| FirstHit(items[1..], cur, i) || GivesUp(items[1..], cur, i);
      forall j | 0 <= j < i + 1 ensures PassedOver(items[j], cur) {
        assert j > 0 ==> items[j] == items[1..][j - 1];
      }
      assert FirstHit(items, cur, i + 1) || GivesUp(items, cur, i + 1);
    }
  }

  /** A scan finds exactly the first hit behind the current slot, and nothing exactly if it gives up before one. */
  lemma ScanFindsExactly(items: seq<Item>, cur: Option<nat>)
    ensures forall slot :: Scan(items, cur) == Some(slot) <==>
              exists i :: FirstHit(items, cur, i) && items[i].slot == slot
    ensures Scan(items, cur).None? <==> exists i :: GivesUp(items, cur, i)
  {
    forall i | FirstHit(items, cur, i) ensures Scan(items, cur) == Some(items[i].slot) {
      ScanSkips(items, cur, i);
    }
    forall i | GivesUp(items, cur, i) ensures Scan(items, cur).None? {
      ScanSkips(items, cur, i);
    }
    ScanStops(items, cur);
  }

  // ----- the scans themselves -----

  predicate AddressBehind(addr: nat, cur: Option<Handle>)
  {
    cur.None? || Slot(addr) > cur.value.slot
  }

  /** The first complete line behind the current slot with the identity sought; all before it complete. */
  ghost predicate FirstMatch(lines: seq<Line>, key: bv32, cur: Option<Handle>, i: int)
  {
    && 0 <= i < |lines| && lines[i].Entry? && lines[i].identity == key && AddressBehind(lines[i].addr, cur)
    && forall j :: 0 <= j < i ==>
         lines[j].Entry? && !(lines[j].identity == key && AddressBehind(lines[j].addr, cur))
  }

  /** The first device behind the current slot with the class sought; all before it that lie behind the
      current slot are readable. */
  ghost predicate FirstOfClass(lines: seq<Line>, config: Config, cls: Class, cur: Option<Handle>, i: int)
  {
    && 0 <= i < |lines| && !lines[i].Unparsable? && AddressBehind(lines[i].addr, cur)
    && OfClass(config(Slot(lines[i].addr), 8), cls)
    && forall j :: 0 <= j < i ==>
         && !lines[j].Unparsable?
         && (AddressBehind(lines[j].addr, cur) ==>
               config(Slot(lines[j].addr), 8).Some? && !OfClass(config(Slot(lines[j].addr), 8), cls))
  }

  predicate OfClass(reg: Option<bv32>, cls: Class)
  {
    reg.Some? && ClassOf(reg.value) == cls
  }

  /** pci_find_device; `allocates` says whether there is memory for a handle. */
  method FindDevice(table: Table, key: bv32, cur: Option<Handle>, allocates: bool) returns (found: Option<Handle>)
    ensures found.Some? <==> allocates && Scan(IdItems(table, key), Cursor(cur)).Some?
    ensures found.Some? ==> table.Some? && Scan(IdItems(table, key), Cursor(cur)) == Cursor(found)
    ensures found.Some? ==>
      exists i :: FirstMatch(table.value, key, cur, i)
                  && found.value == Handle(Slot(table.value[i].addr), Some(table.value[i].irq))
                  && (table.value[i].addr < 0x100_0000 ==> found.value.slot == table.value[i].addr * 0x100)
  {
    if table.None? {
      return None;
    }
    var lines := table.value;
    ghost var items := IdItems(table, key);
    ghost var from := Cursor(cur);
    var i := 0;
    while i < |lines|
      invariant 0 <= i <= |lines|
      invariant forall j :: 0 <= j < i ==> PassedOver(items[j], from)
      invariant forall j :: 0 <= j < i ==>
        lines[j].Entry? && !(lines[j].identity == key && AddressBehind(lines[j].addr, cur))
    {
      assert items[i] == IdItem(lines[i], key);
      if !lines[i].Entry? {
        assert GivesUp(items, from, i);
        ScanFindsExactly(items, from);
        return None;
      }
      var slot := ToU32(lines[i].addr * 0x100);
      if !(cur.Some? && slot <= cur.value.slot) {
        if lines[i].identity == key {
          assert FirstHit(items, from, i) && FirstMatch(lines, key, cur, i);
          ScanFindsExactly(items, from);
          if !allocates {
            return None;
          }
          return Some(Handle(slot, Some(lines[i].irq)));
        }
      }
      i := i + 1;
    }
    assert GivesUp(items, from, i);
    ScanFindsExactly(items, from);
    return None;
  }

  /** pci_find_device_by_class. */
  method FindDeviceByClass(table: Table, config: Config, cls: Class, cur: Option<Handle>, allocates: bool)
    returns (found: Option<Handle>)
    ensures found.Some? <==> allocates && Scan(ClassItems(table, config, cls), Cursor(cur)).Some?
    ensures found.Some? ==> table.Some? && Scan(ClassItems(table, config, cls), Cursor(cur)) == Cursor(found)
    ensures found.Some? ==>
      exists i :: FirstOfClass(table.value, config, cls, cur, i)
                  && found.value == Handle(Slot(table.value[i].addr), None)
                  && (table.value[i].addr < 0x100_0000 ==> found.value.slot == table.value[i].addr * 0x100)
  {
    if table.None? {
      return None;
    }
    var lines := table.value;
    ghost var items := ClassItems(table, config, cls);
    ghost var from := Cursor(cur);
    var i := 0;
    while i < |lines|
      invariant 0 <= i <= |lines|
      invariant forall j :: 0 <= j < i ==> PassedOver(items[j], from)
      invariant forall j :: 0 <= j < i ==>
        && !lines[j].Unparsable?
        && (AddressBehind(lines[j].addr, cur) ==>
              config(Slot(lines[j].addr), 8).Some? && !OfClass(config(Slot(lines[j].addr), 8), cls))
    {
      assert items[i] == ClassItem(lines[i], config, cls);
      if lines[i].Unparsable? {
        assert GivesUp(items, from, i);
        ScanFindsExactly(items, from);
        return None;
      }
      var slot := ToU32(lines[i].addr * 0x100);
      if !(cur.Some? && slot <= cur.value.slot) {
        var reg := config(slot, 8);
        if reg.None? {
          assert GivesUp(items, from, i);
          ScanFindsExactly(items, from);
          return None;
        }
        var current := ClassOf(reg.value);
        if current.baseclass == cls.baseclass && current.subclass == cls.subclass && current.pi == cls.pi {
          assert FirstHit(items, from, i) && FirstOfClass(lines, config, cls, cur, i);
          ScanFindsExactly(items, from);
          if !allocates {
            return None;
          }
          return Some(Handle(slot, None));
        }
      }
      i := i + 1;
    }
    assert GivesUp(items, from, i);
    ScanFindsExactly(items, from);
    return None;
  }

  // ----- first, next, next, ... -----

  /** Lines behind the current slot: what bounds the iteration. */
  function LeftBehind(items: seq<Item>, cur: Option<nat>): nat
  {
    if items == [] then 0
    else (if items[0].Item? && Behind(items[0].slot, cur) then 1 else 0) + LeftBehind(items[1..], cur)
  }

  lemma {:induction false} FewerLeft(items: seq<Item>, cur: Option<nat>, slot: nat)
    requires Behind(slot, cur)
    ensures LeftBehind(items, Some(slot)) <= LeftBehind(items, cur)
    ensures Scan(items, cur) == Some(slot) ==> LeftBehind(items, Some(slot)) < LeftBehind(items, cur)
  {
    if items != [] {
      FewerLeft(items[1..], cur, slot);
    }
  }

  lemma ScanGoesForward(items: seq<Item>, cur: Option<nat>)
    requires Scan(items, cur).Some?
    ensures Behind(Scan(items, cur).value, cur)
  {
    ScanFindsExactly(items, cur);
  }

  /** All slots a caller sees who starts behind `cur` and keeps asking for the next. */
  function Enumerate(items: seq<Item>, cur: Option<nat>): seq<nat>
    decreases LeftBehind(items, cur)
  {
    match Scan(items, cur)
    case None => []
    case Some(slot) =>
      ScanGoesForward(items, cur);
      FewerLeft(items, cur, slot);
      [slot] + Enumerate(items, Some(slot))
  }

  predicate Ascending(s: seq<nat>)
  {
    forall i, j :: 0 <= i < j < |s| ==> s[i] < s[j]
  }

  lemma AscendingCons(x: nat, s: seq<nat>)
    requires Ascending(s) && forall y :: y in s ==> x < y
    ensures Ascending([x] + s)
  {
    var t := [x] + s;
    forall i, j | 0 <= i < j < |t| ensures t[i] < t[j] {
      assert t[j] == s[j - 1] && t[j] in s;
      if i > 0 {
        assert t[i] == s[i - 1];
      }
    }
  }

  /** Over any table the slots returned strictly increase: the iteration ends and repeats nothing. */
  lemma {:induction false} EnumerationAscends(items: seq<Item>, cur: Option<nat>)
    ensures Ascending(Enumerate(items, cur))
    ensures forall slot :: slot in Enumerate(items, cur) ==> Behind(slot, cur)
    decreases LeftBehind(items, cur)
  {
    if Scan(items, cur).Some? {
      var slot := Scan(items, cur).value;
      ScanGoesForward(items, cur);
      FewerLeft(items, cur, slot);
      EnumerationAscends(items, Some(slot));
      AscendingCons(slot, Enumerate(items, Some(slot)));
    }
  }

  // ----- which devices the iteration finds -----

  /** The hits in table order. */
  function Hits(items: seq<Item>): seq<nat>
  {
    if items == [] then []
    else if items[0].Item? && items[0].verdict == Hit then [items[0].slot] + Hits(items[1..])
    else Hits(items[1..])
  }

  /** The elements larger than everything before them and than `cur`. */
  function Records(s: seq<nat>, cur: Option<nat>): seq<nat>
  {
    if s == [] then []
    else if Behind(s[0], cur) then [s[0]] + Records(s[1..], Some(s[0]))
    else Records(s[1..], cur)
  }

  /** No unparsable line and no unreadable device. */
  predicate Clean(items: seq<Item>)
  {
    forall item :: item in items ==> item.Item? && item.verdict != Fail
  }

  /** One pass over the table that keeps the last slot it has returned. */
  function OnePass(items: seq<Item>, cur: Option<nat>): seq<nat>
  {
    if items == [] then []
    else if PassedOver(items[0], cur) then OnePass(items[1..], cur)
    else if items[0].Item? && items[0].verdict == Hit
    then [items[0].slot] + OnePass(items[1..], Some(items[0].slot))
    else []
  }

  lemma {:induction false} OnePassSkips(items: seq<Item>, cur: Option<nat>, i: nat)
    requires i <= |items| && forall j :: 0 <= j < i ==> PassedOver(items[j], cur)
    ensures OnePass(items, cur) == OnePass(items[i..], cur)
  {
    if i > 0 {
      forall j | 0 <= j < i - 1 ensures PassedOver(items[1..][j], cur) {
        assert items[1..][j] == items[j + 1];
      }
      OnePassSkips(items[1..], cur, i - 1);
      assert items[1..][i - 1..] == items[i..];
    }
  }

  /** Over any table, unreadable lines and devices included, re-reading it from the start for every
      device returns just what one pass over it would. */
  lemma {:induction false} EnumerationIsOnePass(items: seq<Item>, cur: Option<nat>)
    ensures Enumerate(items, cur) == OnePass(items, cur)
    decreases LeftBehind(items, cur)
  {
    ScanFindsExactly(items, cur);
    if Scan(items, cur).Some? {
      var slot := Scan(items, cur).value;
      var i :| FirstHit(items, cur, i) && items[i].slot == slot;
      FewerLeft(items, cur, slot);
      EnumerationIsOnePass(items, Some(slot));
      OnePassSkips(items, cur, i);
      OnePassSkips(items, Some(slot), i + 1);
      assert items[i..][1..] == items[i + 1..];
    } else {
      var i :| GivesUp(items, cur, i);
      OnePassSkips(items, cur, i);
    }
  }

  lemma {:induction false} CleanPass(items: seq<Item>, cur: Option<nat>)
    requires Clean(items)
    ensures OnePass(items, cur) == Records(Hits(items), cur)
  {
    if items != [] {
      assert items[0] in items;
      CleanPass(items[1..], cur);
      CleanPass(items[1..], Some(items[0].slot));
    }
  }

  /** Over a clean table the iteration yields exactly the left-to-right maxima of the matching slots. */
  lemma EnumerationIsRecords(items: seq<Item>, cur: Option<nat>)
    requires Clean(items)
    ensures Enumerate(items, cur) == Records(Hits(items), cur)
  {
    EnumerationIsOnePass(items, cur);
    CleanPass(items, cur);
  }

  predicate IsHit(item: Item)
  {
    item.Item? && item.verdict == Hit
  }

  /** Line j stops the pass: unparsable, or an unreadable device behind `cur` and every hit before it. */
  ghost predicate Stopper(items: seq<Item>, cur: Option<nat>, j: int)
    requires 0 <= j < |items|
  {
    || items[j].Broken?
    || (&& items[j].verdict == Fail && Behind(items[j].slot, cur)
        && forall k :: 0 <= k < j && IsHit(items[k]) ==> items[j].slot > items[k].slot)
  }

  /** No hit comes after a line that stops the pass. */
  ghost predicate NothingHidden(items: seq<Item>, cur: Option<nat>)
  {
    forall j, i :: 0 <= j < i < |items| && IsHit(items[i]) ==> !Stopper(items, cur, j)
  }

  ghost predicate FullyListed(items: seq<Item>, cur: Option<nat>)
  {
    && Ascending(Hits(items)) && (Hits(items) != [] ==> Behind(Hits(items)[0], cur))
    && NothingHidden(items, cur)
  }

  lemma {:induction false} NoHits(items: seq<Item>)
    ensures Hits(items) == [] <==> forall i :: 0 <= i < |items| ==> !IsHit(items[i])
  {
    if items != [] {
      NoHits(items[1..]);
      if !IsHit(items[0]) && Hits(items[1..]) == [] {
        forall i | 0 <= i < |items| ensures !IsHit(items[i]) {
          assert i > 0 ==> items[i] == items[1..][i - 1];
        }
      }
      if forall i :: 0 <= i < |items| ==> !IsHit(items[i]) {
        assert forall i :: 0 <= i < |items[1..]| ==> items[1..][i] == items[i + 1];
      }
    }
  }

  /** Whether a line other than the first stops the pass can be told behind the first line. */
  lemma StopperBehindFirst(items: seq<Item>, cur: Option<nat>, j: int)
    requires 0 < j < |items| && !items[0].Broken?
    ensures !IsHit(items[0]) ==> (Stopper(items, cur, j) <==> Stopper(items[1..], cur, j - 1))
    ensures IsHit(items[0]) && Behind(items[0].slot, cur) ==>
      (Stopper(items, cur, j) <==> Stopper(items[1..], Some(items[0].slot), j - 1))
  {
    var rest := items[1..];
    assert rest[j - 1] == items[j];
    assert forall k :: 0 <= k < |rest| ==> rest[k] == items[k + 1];
    assert forall k :: 0 < k < |items| ==> items[k] == rest[k - 1];
  }

  /** What is hidden in a table whose first line does not stop the pass is hidden in its rest. */
  lemma HiddenBehindFirst(items: seq<Item>, cur: Option<nat>, next: Option<nat>)
    requires items != [] && !Stopper(items, cur, 0)
    requires next == if IsHit(items[0]) then Some(items[0].slot) else cur
    requires IsHit(items[0]) ==> Behind(items[0].slot, cur)
    ensures NothingHidden(items, cur) <==> NothingHidden(items[1..], next)
  {
    var rest := items[1..];
    forall j | 0 < j < |items| ensures Stopper(items, cur, j) <==> Stopper(rest, next, j - 1) {
      StopperBehindFirst(items, cur, j);
    }
    if NothingHidden(items, cur) {
      forall j, i | 0 <= j < i < |rest| && IsHit(rest[i]) ensures !Stopper(rest, next, j) {
        assert rest[i] == items[i + 1] && !Stopper(items, cur, j + 1);
      }
    }
    if NothingHidden(rest, next) {
      forall j, i | 0 <= j < i < |items| && IsHit(items[i]) ensures !Stopper(items, cur, j) {
        assert items[i] == rest[i - 1];
        if j > 0 {
          assert !Stopper(rest, next, j - 1);
        }
      }
    }
  }

  lemma {:induction false} PassIsFullExactly(items: seq<Item>, cur: Option<nat>)
    ensures OnePass(items, cur) == Hits(items) <==> FullyListed(items, cur)
  {
    if items == [] {
    } else if Stopper(items, cur, 0) {
      NoHits(items);
      if i :| 0 <= i < |items| && IsHit(items[i]) {
        assert i > 0 && !NothingHidden(items, cur);
      }
    } else if !IsHit(items[0]) {
      PassIsFullExactly(items[1..], cur);
      HiddenBehindFirst(items, cur, cur);
    } else if Behind(items[0].slot, cur) {
      var slot := items[0].slot;
      PassIsFullExactly(items[1..], Some(slot));
      HiddenBehindFirst(items, cur, Some(slot));
      AscendingFromFirst(slot, Hits(items[1..]));
      assert OnePass(items, cur)[1..] == OnePass(items[1..], Some(slot)) && Hits(items)[1..] == Hits(items[1..]);
    } else {
      EnumerationIsOnePass(items, cur);
      EnumerationAscends(items, cur);
      assert Hits(items)[0] == items[0].slot;
      assert items[0].slot !in Enumerate(items, cur) && items[0].slot in Hits(items);
    }
  }

  lemma AscendingFromFirst(x: nat, s: seq<nat>)
    ensures Ascending([x] + s) <==> Ascending(s) && (s != [] ==> x < s[0])
  {
    var t := [x] + s;
    if Ascending(t) {
      forall i, j | 0 <= i < j < |s| ensures s[i] < s[j] {
        assert s[i] == t[i + 1] && s[j] == t[j + 1];
      }
      assert s != [] ==> t[0] < t[1];
    }
    if Ascending(s) && (s != [] ==> x < s[0]) {
      AscendingCons(x, s);
    }
  }

  /** So over any table it finds every matching device, in table order, exactly when the table lists them by
      ascending slot and no line that stops the search comes before one of them. */
  lemma FindsAllExactly(items: seq<Item>)
    ensures Enumerate(items, None) == Hits(items) <==> Ascending(Hits(items)) && NothingHidden(items, None)
  {
    EnumerationIsOnePass(items, None);
    PassIsFullExactly(items, None);
  }

  /** Every line has an address and the 16-bit addresses strictly ascend, as the kernel prints them. */
  predicate AscendingTable(lines: seq<Line>)
  {
    && (forall i :: 0 <= i < |lines| ==> !lines[i].Unparsable? && lines[i].addr < 0x1_0000)
    && forall i, j :: 0 <= i < j < |lines| ==> lines[i].addr < lines[j].addr
  }

  lemma {:induction false} HitsAscend(items: seq<Item>)
    requires forall i :: 0 <= i < |items| ==> items[i].Item?
    requires forall i, j :: 0 <= i < j < |items| ==> items[i].slot < items[j].slot
    ensures Ascending(Hits(items))
    ensures forall slot :: slot in Hits(items) ==> exists i :: 0 <= i < |items| && items[i].slot == slot
  {
    if items != [] {
      var rest := items[1..];
      HitsAscend(rest);
      forall slot | slot in Hits(rest)
        ensures items[0].slot < slot && exists i :: 0 <= i < |items| && items[i].slot == slot
      {
        var i :| 0 <= i < |rest| && rest[i].slot == slot;
        assert items[i + 1] == rest[i];
      }
      if items[0].verdict == Hit {
        AscendingCons(items[0].slot, Hits(rest));
      }
    }
  }

  lemma SlotsAscend(lines: seq<Line>)
    requires AscendingTable(lines)
    ensures forall i, j :: 0 <= i < j < |lines| ==> Slot(lines[i].addr) < Slot(lines[j].addr)
  {
    forall i | 0 <= i < |lines| ensures Slot(lines[i].addr) == lines[i].addr * 256 {
      assert Slot(lines[i].addr) == lines[i].addr * 256;
    }
  }

  /** Over such a table, its lines complete, a search by vendor and device finds every match, in order. */
  lemma AscendingTableFindsAll(lines: seq<Line>, key: bv32)
    requires AscendingTable(lines) && forall line :: line in lines ==> line.Entry?
    ensures Enumerate(IdItems(Some(lines), key), None) == Hits(IdItems(Some(lines), key))
  {
    var items := IdItems(Some(lines), key);
    assert forall i :: 0 <= i < |items| ==> lines[i] in lines && items[i] == IdItem(lines[i], key);
    SlotsAscend(lines);
    HitsAscend(items);
    FindsAllExactly(items);
  }

  /** And a search by class finds every match when each device's class register can be read. */
  lemma AscendingTableFindsAllByClass(lines: seq<Line>, config: Config, cls: Class)
    requires AscendingTable(lines)
    requires forall i :: 0 <= i < |lines| ==> config(Slot(lines[i].addr), 8).Some?
    ensures Enumerate(ClassItems(Some(lines), config, cls), None) == Hits(ClassItems(Some(lines), config, cls))
  {
    var items := ClassItems(Some(lines), config, cls);
    assert forall i :: 0 <= i < |items| ==> items[i] == ClassItem(lines[i], config, cls);
    SlotsAscend(lines);
    HitsAscend(items);
    FindsAllExactly(items);
  }

  // ----- the public calls -----

  /** Register 0 holds the device in its high half and the vendor in its low half. */
  function Swapped(identity: bv32): bv32
  {
    (identity << 16) | (identity >> 16)
  }

  lemma RegisterLayout(vid: bv32, did: bv32)
    requires vid & 0xFFFF == vid && did & 0xFFFF == did
    ensures Swapped(Key(vid, did)) & 0xFFFF == vid && Swapped(Key(vid, did)) >> 16 == did
  {
  }

  /** The search key os_pci_find_next_device rebuilds from register 0. */
  function NextKey(reg: bv32): bv32
  {
    Key(reg & 0xFFFF, (reg >> 16) & 0xFFFF)
  }

  /** Rebuilding undoes the half-word swap between the register and the table. */
  lemma NextKeyUndoesSwap(identity: bv32)
    ensures NextKey(Swapped(identity)) == identity
  {
  }

  /** Configuration space agrees with the table's identity words. */
  predicate Agrees(table: Table, config: Config)
  {
    table.Some? ==> forall line :: line in table.value && line.Entry? ==>
      config(Slot(line.addr), 0) == Some(Swapped(line.identity))
  }

  datatype NextDevice = NoMore | Unreadable | Next(device: Handle)

  /** os_pci_find_next_device. */
  method FindNextDevice(table: Table, config: Config, cur: Handle, allocates: bool) returns (answer: NextDevice)
    ensures answer == Unreadable <==> config(cur.slot, 0).None?
    ensures config(cur.slot, 0).Some? ==>
      var items := IdItems(table, NextKey(config(cur.slot, 0).value));
      && (answer.Next? <==> allocates && Scan(items, Some(cur.slot)).Some?)
      && (answer.Next? ==> Scan(items, Some(cur.slot)) == Some(answer.device.slot))
    ensures answer.Next? ==> table.Some?
    ensures answer.Next? ==>
      exists i :: FirstMatch(table.value, NextKey(config(cur.slot, 0).value), Some(cur), i)
                  && answer.device.slot == Slot(table.value[i].addr)
  {
    var reg := config(cur.slot, 0);
    if reg.None? {
      return Unreadable;
    }
    var found := FindDevice(table, NextKey(reg.value), Some(cur), allocates);
    if found.None? {
      return NoMore;
    }
    return Next(found.value);
  }

  /** os_pci_find_next_device_by_class. */
  method FindNextDeviceByClass(table: Table, config: Config, cur: Handle, allocates: bool) returns (answer: NextDevice)
    ensures answer == Unreadable <==> config(cur.slot, 8).None?
    ensures config(cur.slot, 8).Some? ==>
      var items := ClassItems(table, config, ClassOf(config(cur.slot, 8).value));
      && (answer.Next? <==> allocates && Scan(items, Some(cur.slot)).Some?)
      && (answer.Next? ==> Scan(items, Some(cur.slot)) == Some(answer.device.slot))
    ensures answer.Next? ==> table.Some?
    ensures answer.Next? ==>
      exists i :: FirstOfClass(table.value, config, ClassOf(config(cur.slot, 8).value), Some(cur), i)
                  && answer.device.slot == Slot(table.value[i].addr)
  {
    var reg := config(cur.slot, 8);
    if reg.None? {
      return Unreadable;
    }
    var found := FindDeviceByClass(table, config, ClassOf(reg.value), Some(cur), allocates);
    if found.None? {
      return NoMore;
    }
    return Next(found.value);
  }

  /** A match carries the identity searched for, so the next search looks for the same. */
  lemma MatchKeepsKey(lines: seq<Line>, config: Config, key: bv32, cur: Option<Handle>, i: int)
    requires Agrees(Some(lines), config) && FirstMatch(lines, key, cur, i)
    ensures config(Slot(lines[i].addr), 0) == Some(Swapped(key))
    ensures NextKey(Swapped(key)) == key
  {
    assert lines[i] in lines;
    NextKeyUndoesSwap(key);
  }

  /** All of a sequence, or as much as there are handles for. */
  function Take(s: seq<nat>, handles: nat): seq<nat>
  {
    if handles < |s| then s[..handles] else s
  }

  /** What has been collected so far, and the scan's next result, make up the enumeration. */
  ghost predicate Collecting(items: seq<Item>, slots: seq<nat>, prev: Option<nat>, handles: nat)
  {
    |slots| <= handles && slots + Enumerate(items, prev) == Enumerate(items, None)
  }

  lemma CollectOn(items: seq<Item>, slots: seq<nat>, prev: Option<nat>, handles: nat)
    requires Collecting(items, slots, prev, handles)
    ensures |slots| == handles || Scan(items, prev).None? ==> slots == Take(Enumerate(items, None), handles)
    ensures |slots| < handles && Scan(items, prev).Some? ==>
      var slot := Scan(items, prev).value;
      Collecting(items, slots + [slot], Some(slot), handles) && LeftBehind(items, Some(slot)) < LeftBehind(items, prev)
  {
    if Scan(items, prev).Some? {
      var slot := Scan(items, prev).value;
      ScanGoesForward(items, prev);
      FewerLeft(items, prev, slot);
      assert slots + [slot] + Enumerate(items, Some(slot)) == slots + Enumerate(items, prev);
    }
  }

  /** The caller's loop over first and next by vendor and device, with memory for so many handles. */
  method CollectById(table: Table, config: Config, vid: bv32, did: bv32, handles: nat) returns (slots: seq<nat>)
    requires Agrees(table, config)
    ensures slots == Take(Enumerate(IdItems(table, Key(vid, did)), None), handles)
    ensures Ascending(slots)
  {
    ghost var key := Key(vid, did);
    ghost var items := IdItems(table, key);
    slots := [];
    var cur := FindDevice(table, Key(vid, did), None, 0 < handles);
    ghost var prev: Option<Handle> := None;
    while cur.Some?
      invariant Collecting(items, slots, Cursor(prev), handles)
      invariant cur.Some? <==> |slots| < handles && Scan(items, Cursor(prev)).Some?
      invariant cur.Some? ==> Scan(items, Cursor(prev)) == Cursor(cur)
      invariant cur.Some? ==> table.Some?
      invariant cur.Some? ==>
        exists i :: FirstMatch(table.value, key, prev, i) && cur.value.slot == Slot(table.value[i].addr)
      decreases LeftBehind(items, Cursor(prev))
    {
      CollectOn(items, slots, Cursor(prev), handles);
      ghost var i :| FirstMatch(table.value, key, prev, i) && cur.value.slot == Slot(table.value[i].addr);
      MatchKeepsKey(table.value, config, key, prev, i);
      slots := slots + [cur.value.slot];
      prev := cur;
      var answer := FindNextDevice(table, config, cur.value, |slots| < handles);
      cur := if answer.Next? then Some(answer.device) else None;
    }
    CollectOn(items, slots, Cursor(prev), handles);
    EnumerationAscends(items, None);
  }

  /** The same by class. */
  method CollectByClass(table: Table, config: Config, cls: Class, handles: nat) returns (slots: seq<nat>)
    ensures slots == Take(Enumerate(ClassItems(table, config, cls), None), handles)
    ensures Ascending(slots)
  {
    ghost var items := ClassItems(table, config, cls);
    slots := [];
    var cur := FindDeviceByClass(table, config, cls, None, 0 < handles);
    ghost var prev: Option<Handle> := None;
    while cur.Some?
      invariant Collecting(items, slots, Cursor(prev), handles)
      invariant cur.Some? <==> |slots| < handles && Scan(items, Cursor(prev)).Some?
      invariant cur.Some? ==> Scan(items, Cursor(prev)) == Cursor(cur)
      invariant cur.Some? ==> OfClass(config(cur.value.slot, 8), cls)
      decreases LeftBehind(items, Cursor(prev))
    {
      CollectOn(items, slots, Cursor(prev), handles);
      slots := slots + [cur.value.slot];
      prev := cur;
      var answer := FindNextDeviceByClass(table, config, cur.value, |slots| < handles);
      cur := if answer.Next? then Some(answer.device) else None;
    }
    CollectOn(items, slots, Cursor(prev), handles);
    EnumerationAscends(items, None);
  }
}
