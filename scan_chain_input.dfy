/**
 * generate_scan_chain_input.py: the 2008-bit scan-chain vector that programs
 * the chip, built from a device-sizes JSON and a circuit JSON. Each source
 * gives a map from probe register to 0/1; the two maps are merged (the
 * switch matrix wins) and laid out highest probe first.
 */
module ScanChainInput {

  import opened Wrappers
  import opened Text
  import opened Order
  import opened Circuits
  import opened RegisterWrites

  // ---------------------------------------------------------------------------
  // Device sizing
  // ---------------------------------------------------------------------------

  /** device_name_to_sizing_registers.json: device -> (bit key -> probe register). */
  type SizingTable = map<Name, map<int, int>>

  /** The sizes JSON: device -> list whose first element is the device's size. */
  type Sizes = map<Name, seq<int>>

  /**
   * `sizes.get(device, [0])[0]` can be evaluated: the device is absent from
   * the sizes JSON or its list is non-empty. An empty list raises IndexError.
   */
  predicate SizeReadable(sizes: Sizes, device: Name) {
    device in sizes ==> sizes[device] != []
  }

  /**
   * Every device of the register table has a readable size. Both generators
   * read the size of the table's devices only, so an empty list under any
   * other device is accepted and ignored.
   */
  predicate SizesReadable(sizes: Sizes, table: SizingTable) {
    forall d :: d in table ==> SizeReadable(sizes, d)
  }

  /** `order` lists the keys of `keys` and nothing else: the iteration order of a JSON object. */
  ghost predicate IsKeyOrder(order: seq<Name>, keys: set<Name>) {
    (forall d :: d in order ==> d in keys) && (forall d :: d in keys ==> d in order)
  }

  /** The size the sizes JSON gives a device, 0 for a device it does not list. */
  function RawSize(sizes: Sizes, device: Name): int
    requires SizeReadable(sizes, device)
  {
    if device in sizes then sizes[device][0] else 0
  }

  /** The size used for the bits: the raw size when it fits in 5 bits, 0 otherwise. */
  function ClampedSize(sizes: Sizes, device: Name): (size: int)
    requires SizeReadable(sizes, device)
    ensures 0 <= size <= 31
  {
    var raw := RawSize(sizes, device);
    if 0 <= raw <= 31 then raw else 0
  }

  /** Bitwise AND of two non-negative integers. */
  function BitAnd(a: nat, b: nat): nat
    decreases a
  {
    if a == 0 || b == 0 then 0
    else 2 * BitAnd(a / 2, b / 2) + (if a % 2 == 1 && b % 2 == 1 then 1 else 0)
  }

  /**
   * `1 if int(bit) & size else 0` for a size in 0..31. Python's `&` sees a
   * negative bit key in two's complement; against a 5-bit size only its low
   * five bits count, and those are the bits of `bit % 32`.
   */
  function BitValue(bit: int, size: int): (v: int)
    requires 0 <= size <= 31
    ensures v == 0 || v == 1
  {
    if BitAnd(bit % 32, size) != 0 then 1 else 0
  }

  /** Bit key 1 picks the lowest binary digit. */
  lemma BitAndOne(a: nat)
    ensures BitAnd(1, a) == a % 2
  {
  }

  /** Doubling the bit key moves the test one binary digit up. */
  lemma BitAndDouble(m: nat, a: nat)
    requires m > 0
    ensures BitAnd(2 * m, a) == 2 * BitAnd(m, a / 2)
  {
  }

  lemma BitAndTwo(a: nat)
    ensures BitAnd(2, a) == 2 * ((a / 2) % 2)
  {
    BitAndDouble(1, a);
    BitAndOne(a / 2);
  }

  lemma BitAndFour(a: nat)
    ensures BitAnd(4, a) == 4 * ((a / 4) % 2)
  {
    BitAndDouble(2, a);
    BitAndTwo(a / 2);
    assert a / 2 / 2 == a / 4;
  }

  lemma BitAndEight(a: nat)
    ensures BitAnd(8, a) == 8 * ((a / 8) % 2)
  {
    BitAndDouble(4, a);
    BitAndFour(a / 2);
    assert a / 2 / 4 == a / 8;
  }

  lemma BitAndSixteen(a: nat)
    ensures BitAnd(16, a) == 16 * ((a / 16) % 2)
  {
    BitAndDouble(8, a);
    BitAndEight(a / 2);
    assert a / 2 / 8 == a / 16;
  }

  /** A bit key that is a power of two up to 16 reads off the matching binary digit of the size. */
  lemma SizeBit(size: int, bit: int)
    requires 0 <= size <= 31
    requires bit == 1 || bit == 2 || bit == 4 || bit == 8 || bit == 16
    ensures BitValue(bit, size) == (size / bit) % 2
  {
    assert bit % 32 == bit;
    if bit == 1 {
      BitAndOne(size);
    } else if bit == 2 {
      BitAndTwo(size);
    } else if bit == 4 {
      BitAndFour(size);
    } else if bit == 8 {
      BitAndEight(size);
    } else {
      BitAndSixteen(size);
    }
  }

  /**
   * The bit keys 1, 2, 4, 8 and 16 read off the five binary digits of the
   * size, and those digits add back up to the size.
   */
  lemma SizeBits(size: int)
    requires 0 <= size <= 31
    ensures BitValue(1, size) + 2 * BitValue(2, size) + 4 * BitValue(4, size)
            + 8 * BitValue(8, size) + 16 * BitValue(16, size) == size
  {
    SizeBit(size, 1);
    SizeBit(size, 2);
    SizeBit(size, 4);
    SizeBit(size, 8);
    SizeBit(size, 16);
    BinaryDigits(size);
  }

  /** A number below 32 is the sum of its five binary digits, each times its place value. */
  lemma BinaryDigits(size: int)
    requires 0 <= size <= 31
    ensures size % 2 + 2 * ((size / 2) % 2) + 4 * ((size / 4) % 2) + 8 * ((size / 8) % 2) + 16 * ((size / 16) % 2) == size
  {
    var q1 := size / 2;
    var q2 := q1 / 2;
    var q3 := q2 / 2;
    var q4 := q3 / 2;
    assert q2 == size / 4 && q3 == size / 8 && q4 == size / 16;
  }

  /** The writes for the bit keys `bits` of one device, in that order. */
  function BitWrites(bitToRegister: map<int, int>, bits: seq<int>, size: int): seq<Write>
    requires forall b :: b in bits ==> b in bitToRegister
    requires 0 <= size <= 31
  {
    if bits == [] then []
    else
      var b := bits[|bits| - 1];
      BitWrites(bitToRegister, bits[..|bits| - 1], size) + [(bitToRegister[b], BitValue(b, size))]
  }

  /** The writes for one device: each (bit, register) entry in ascending bit order. */
  function DeviceWrites(bitToRegister: map<int, int>, size: int): seq<Write>
    requires 0 <= size <= 31
  {
    BitWrites(bitToRegister, SortedInts(bitToRegister.Keys), size)
  }

  /** There is one write per listed bit key, with that key's register and bit value. */
  lemma {:induction false} BitWritesAre(bitToRegister: map<int, int>, bits: seq<int>, size: int, w: Write)
    requires forall b :: b in bits ==> b in bitToRegister
    requires 0 <= size <= 31
    ensures w in BitWrites(bitToRegister, bits, size) <==>
      exists b :: b in bits && w == (bitToRegister[b], BitValue(b, size))
    decreases |bits|
  {
    if bits != [] {
      var init := bits[..|bits| - 1];
      var last := bits[|bits| - 1];
      assert bits == init + [last];
      assert forall b :: b in bits <==> b in init || b == last;
      BitWritesAre(bitToRegister, init, size, w);
    }
  }

  /** The writes for the devices of `order`, device after device. */
  function SizingWrites(sizes: Sizes, table: SizingTable, order: seq<Name>): seq<Write>
    requires SizesReadable(sizes, table)
    requires forall d :: d in order ==> d in table
  {
    if order == [] then []
    else
      var device := order[|order| - 1];
      SizingWrites(sizes, table, order[..|order| - 1]) + DeviceWrites(table[device], ClampedSize(sizes, device))
  }

  /** The register settings `get_device_sizing_probe_values` returns. */
  function SizingValues(sizes: Sizes, table: SizingTable, order: seq<Name>): Settings
    requires SizesReadable(sizes, table)
    requires forall d :: d in order ==> d in table
  {
    Apply(map[], SizingWrites(sizes, table, order))
  }

  /** `w` is the write some (device, bit) entry of the devices in `order` makes. */
  ghost predicate IsSizingWrite(sizes: Sizes, table: SizingTable, order: seq<Name>, w: Write)
    requires SizesReadable(sizes, table)
    requires forall d :: d in order ==> d in table
  {
    exists d, b :: d in order && b in table[d] && w == (table[d][b], BitValue(b, ClampedSize(sizes, d)))
  }

  /** The sizing writes are exactly one write per (device, bit) entry, with that bit's value. */
  lemma {:induction false} SizingWritesAre(sizes: Sizes, table: SizingTable, order: seq<Name>)
    requires SizesReadable(sizes, table)
    requires forall d :: d in order ==> d in table
    ensures forall w :: w in SizingWrites(sizes, table, order) <==> IsSizingWrite(sizes, table, order, w)
    decreases |order|
  {
    if order != [] {
      var init := order[..|order| - 1];
      var device := order[|order| - 1];
      SizingWritesAre(sizes, table, init);
      forall w
        ensures w in SizingWrites(sizes, table, order) <==> IsSizingWrite(sizes, table, order, w)
      {
        BitWritesAre(table[device], SortedInts(table[device].Keys), ClampedSize(sizes, device), w);
        if IsSizingWrite(sizes, table, order, w) {
          var d, b :| d in order && b in table[d] && w == (table[d][b], BitValue(b, ClampedSize(sizes, d)));
          if d != device {
            assert d in init;
            assert IsSizingWrite(sizes, table, init, w);
          }
        }
      }
    }
  }

  /** Only bit values are ever written, so every sizing setting is 0 or 1. */
  lemma SizingValuesBinary(sizes: Sizes, table: SizingTable, order: seq<Name>)
    requires SizesReadable(sizes, table)
    requires forall d :: d in order ==> d in table
    ensures Binary(SizingValues(sizes, table, order))
  {
    SizingWritesAre(sizes, table, order);
    ApplyBinary(map[], SizingWrites(sizes, table, order));
  }

  /** Device `d` of the table names register `r` under one of its bit keys. */
  ghost predicate ListsRegister(table: SizingTable, d: Name, r: int) {
    d in table && exists b :: b in table[d] && table[d][b] == r
  }

  /** A register is set exactly when some device of the table lists it. */
  lemma SizingValuesKeys(sizes: Sizes, table: SizingTable, order: seq<Name>, r: int)
    requires SizesReadable(sizes, table)
    requires IsKeyOrder(order, table.Keys)
    ensures r in SizingValues(sizes, table, order) <==> exists d :: ListsRegister(table, d, r)
  {
    var ws := SizingWrites(sizes, table, order);
    SizingWritesAre(sizes, table, order);
    ApplyHas(map[], ws, r);
    if Targets(ws, r) {
      var w :| w in ws && w.0 == r;
      assert IsSizingWrite(sizes, table, order, w);
      var d, b :| d in order && b in table[d] && w == (table[d][b], BitValue(b, ClampedSize(sizes, d)));
      assert ListsRegister(table, d, r);
    }
    if exists d :: ListsRegister(table, d, r) {
      var d :| ListsRegister(table, d, r);
      var b :| b in table[d] && table[d][b] == r;
      var w := (table[d][b], BitValue(b, ClampedSize(sizes, d)));
      assert IsSizingWrite(sizes, table, order, w);
      assert w in ws;
    }
  }

  /** No other (device, bit) entry of the table names the register of (device, bit). */
  ghost predicate SoleWriter(table: SizingTable, device: Name, bit: int) {
    device in table && bit in table[device] &&
    forall d, b :: d in table && b in table[d] && table[d][b] == table[device][bit] ==> d == device && b == bit
  }

  /**
   * A register that only one (device, bit) entry names is set to 1 exactly
   * when that bit key ANDed with the device's clamped size is non-zero.
   */
  lemma SizingValueOfSoleWriter(sizes: Sizes, table: SizingTable, order: seq<Name>, device: Name, bit: int)
    requires SizesReadable(sizes, table)
    requires IsKeyOrder(order, table.Keys)
    requires SoleWriter(table, device, bit)
    ensures var settings := SizingValues(sizes, table, order);
      table[device][bit] in settings &&
      settings[table[device][bit]] == BitValue(bit, ClampedSize(sizes, device)) &&
      (settings[table[device][bit]] == 1 <==> BitAnd(bit % 32, ClampedSize(sizes, device)) != 0)
  {
    var ws := SizingWrites(sizes, table, order);
    var r := table[device][bit];
    var v := BitValue(bit, ClampedSize(sizes, device));
    SizingWritesAre(sizes, table, order);
    assert IsSizingWrite(sizes, table, order, (r, v));
    forall w | w in ws && w.0 == r
      ensures w.1 == v
    {
      var d, b :| d in order && b in table[d] && w == (table[d][b], BitValue(b, ClampedSize(sizes, d)));
    }
    ApplyUniform(map[], ws, r, v);
  }

  /**
   * The registers of a device the sizes JSON leaves out, or gives a size
   * outside 0..31, all read 0.
   */
  lemma UnsizedDeviceReadsZero(sizes: Sizes, table: SizingTable, order: seq<Name>, device: Name, bit: int)
    requires SizesReadable(sizes, table)
    requires IsKeyOrder(order, table.Keys)
    requires SoleWriter(table, device, bit)
    requires device !in sizes || !(0 <= sizes[device][0] <= 31)
    ensures table[device][bit] in SizingValues(sizes, table, order)
    ensures SizingValues(sizes, table, order)[table[device][bit]] == 0
  {
    SizingValueOfSoleWriter(sizes, table, order, device, bit);
  }

  /**
   * The register behind bit key 2^k (k < 5) of a device holds binary digit
   * k of the device's clamped size.
   */
  lemma SizingRegisterHoldsSizeBit(sizes: Sizes, table: SizingTable, order: seq<Name>, device: Name, bit: int)
    requires SizesReadable(sizes, table)
    requires IsKeyOrder(order, table.Keys)
    requires SoleWriter(table, device, bit)
    requires bit == 1 || bit == 2 || bit == 4 || bit == 8 || bit == 16
    ensures table[device][bit] in SizingValues(sizes, table, order)
    ensures SizingValues(sizes, table, order)[table[device][bit]] == (ClampedSize(sizes, device) / bit) % 2
  {
    SizingValueOfSoleWriter(sizes, table, order, device, bit);
    SizeBit(ClampedSize(sizes, device), bit);
  }

  /** The sizing writes never look at the sizes entry of a device outside the table. */
  lemma {:induction false} SizingWritesIgnoreUnlisted(sizes: Sizes, table: SizingTable, order: seq<Name>,
                                                      device: Name, entry: seq<int>)
    requires SizesReadable(sizes, table)
    requires forall d :: d in order ==> d in table
    requires device !in table
    ensures SizesReadable(sizes[device := entry], table)
    ensures SizingWrites(sizes[device := entry], table, order) == SizingWrites(sizes, table, order)
    decreases |order|
  {
    var other := sizes[device := entry];
    assert forall d :: d in table ==> SizeReadable(other, d) by {
      forall d | d in table
        ensures SizeReadable(other, d)
      {
        assert SizeReadable(sizes, d);
      }
    }
    if order != [] {
      var last := order[|order| - 1];
      SizingWritesIgnoreUnlisted(sizes, table, order[..|order| - 1], device, entry);
      assert ClampedSize(other, last) == ClampedSize(sizes, last);
    }
  }

  /**
   * An entry for a device the register table does not list, an empty list
   * included, is accepted and leaves the sizing settings as they were.
   */
  lemma UnlistedDeviceIgnored(sizes: Sizes, table: SizingTable, order: seq<Name>, device: Name, entry: seq<int>)
    requires SizesReadable(sizes, table)
    requires IsKeyOrder(order, table.Keys)
    requires device !in table
    ensures SizesReadable(sizes[device := entry], table)
    ensures SizingValues(sizes[device := entry], table, order) == SizingValues(sizes, table, order)
  {
    SizingWritesIgnoreUnlisted(sizes, table, order, device, entry);
  }

  /**
   * The size the bits of `device` are taken from: `sizes.get(device, [0])[0]`,
   * replaced by 0 when it is not a 5-bit number.
   */
  method DeviceSize(sizes: Sizes, device: Name) returns (size: int)
    requires SizeReadable(sizes, device)
    ensures size == ClampedSize(sizes, device)
    ensures 0 <= size <= 31
    ensures device in sizes && 0 <= sizes[device][0] <= 31 ==> size == sizes[device][0]
  {
    size := if device in sizes then sizes[device][0] else 0;
    if !(0 <= size <= 31) {
      size := 0;
    }
  }

  /** Writing one more bit key appends that key's write. */
  lemma BitWritesStep(bitToRegister: map<int, int>, bits: seq<int>, size: int, j: int)
    requires forall b :: b in bits ==> b in bitToRegister
    requires 0 <= size <= 31
    requires 0 <= j < |bits|
    ensures BitWrites(bitToRegister, bits[..j + 1], size)
      == BitWrites(bitToRegister, bits[..j], size) + [(bitToRegister[bits[j]], BitValue(bits[j], size))]
  {
    assert bits[..j + 1][..j] == bits[..j];
  }

  /**
   * The inner loop of `get_device_sizing_probe_values`: write each of a
   * device's registers, in ascending bit order, with its bit of `size`.
   */
  method WriteDeviceBits(before: Settings, bitToRegister: map<int, int>, size: int) returns (settings: Settings)
    requires 0 <= size <= 31
    ensures settings == Apply(before, DeviceWrites(bitToRegister, size))
  {
    settings := before;
    var bits := SortedInts(bitToRegister.Keys);
    var j := 0;
    while j < |bits|
      invariant 0 <= j <= |bits|
      invariant settings == Apply(before, BitWrites(bitToRegister, bits[..j], size))
    {
      var register := bitToRegister[bits[j]];
      BitWritesStep(bitToRegister, bits, size, j);
      ApplySnoc(before, BitWrites(bitToRegister, bits[..j], size), (register, BitValue(bits[j], size)));
      settings := settings[register := BitValue(bits[j], size)];
      j := j + 1;
    }
    assert bits[..j] == bits;
  }

  /** Sizing one more device of `order` is performing that device's writes. */
  lemma SizingValuesStep(sizes: Sizes, table: SizingTable, order: seq<Name>, i: int)
    requires SizesReadable(sizes, table)
    requires forall d :: d in order ==> d in table
    requires 0 <= i < |order|
    ensures SizingValues(sizes, table, order[..i + 1])
      == Apply(SizingValues(sizes, table, order[..i]), DeviceWrites(table[order[i]], ClampedSize(sizes, order[i])))
  {
    assert order[..i + 1][..i] == order[..i];
    ApplyAppend(map[], SizingWrites(sizes, table, order[..i]), DeviceWrites(table[order[i]], ClampedSize(sizes, order[i])));
  }

  /**
   * `get_device_sizing_probe_values`: for each device in the table's order,
   * clamp its size and write each of its registers in ascending bit order.
   */
  method DeviceSizingProbeValues(sizes: Sizes, table: SizingTable, order: seq<Name>) returns (settings: Settings)
    requires SizesReadable(sizes, table)
    requires forall d :: d in order ==> d in table
    ensures settings == SizingValues(sizes, table, order)
    ensures Binary(settings)
  {
    settings := map[];
    var i := 0;
    while i < |order|
      invariant 0 <= i <= |order|
      invariant settings == SizingValues(sizes, table, order[..i])
    {
      var device := order[i];
      var size := DeviceSize(sizes, device);
      settings := WriteDeviceBits(settings, table[device], size);
      SizingValuesStep(sizes, table, order, i);
      i := i + 1;
    }
    assert order[..i] == order;
    SizingValuesBinary(sizes, table, order);
  }

  // ---------------------------------------------------------------------------
  // Switch matrix
  // ---------------------------------------------------------------------------

  /**
   * The values of the SBUSa and SBUSb registers for a connection state:
   * ON -> (1, 1), PHI1 -> (1, 0), PHI2 -> (0, 1), anything else -> (0, 0).
   */
  function Decode(connection: string): (int, int) {
    if connection == "ON" then (1, 1)
    else if connection == "PHI1" then (1, 0)
    else if connection == "PHI2" then (0, 1)
    else (0, 0)
  }

  /** The write an RBUS pin makes: its register set to 1, or nothing when a lookup fails. */
  function PinWrite(t: SwitchTables, bus: Name, pin: Name): seq<Write> {
    match RbusRegister(t, bus, pin)
    case None => []
    case Some(r) => [(r, 1)]
  }

  /** The writes an SBUS terminal makes: register a, then register b, or nothing when a lookup fails. */
  function TerminalWrite(t: SwitchTables, bus: Name, e: Terminal): seq<Write> {
    match SbusRegisters(t, bus, e.terminal)
    case None => []
    case Some(regs) => [(regs.0, Decode(e.connection).0), (regs.1, Decode(e.connection).1)]
  }

  function PinWrites(t: SwitchTables, bus: Name, pins: seq<Name>): seq<Write> {
    if pins == [] then []
    else PinWrites(t, bus, pins[..|pins| - 1]) + PinWrite(t, bus, pins[|pins| - 1])
  }

  function TerminalWrites(t: SwitchTables, bus: Name, entries: seq<Terminal>): seq<Write> {
    if entries == [] then []
    else TerminalWrites(t, bus, entries[..|entries| - 1]) + TerminalWrite(t, bus, entries[|entries| - 1])
  }

  /** The writes of one circuit member: RBUS and SBUS members write, all others write nothing. */
  function BusWrites(t: SwitchTables, bus: Name, value: BusValue): seq<Write>
    requires IsRbus(bus) ==> value.PinList?
    requires IsSbus(bus) ==> value.TerminalList?
  {
    if IsRbus(bus) then PinWrites(t, bus, value.pins)
    else if IsSbus(bus) then TerminalWrites(t, bus, value.entries)
    else []
  }

  function SwitchWrites(c: Circuit, t: SwitchTables): seq<Write>
    requires SwitchMatrixShaped(c)
  {
    if c == [] then []
    else SwitchWrites(c[..|c| - 1], t) + BusWrites(t, c[|c| - 1].0, c[|c| - 1].1)
  }

  /** The register settings `get_switch_matrix_probe_values` returns. */
  function SwitchMatrixValues(c: Circuit, t: SwitchTables): Settings
    requires SwitchMatrixShaped(c)
  {
    Apply(map[], SwitchWrites(c, t))
  }

  /** RBUS pin `pin` resolves to register `r`. */
  ghost predicate PinResolves(t: SwitchTables, bus: Name, pin: Name, r: int) {
    RbusRegister(t, bus, pin) == Some(r)
  }

  /** SBUS terminal record `e` resolves, and `r` is its a or its b register. */
  ghost predicate TerminalResolves(t: SwitchTables, bus: Name, e: Terminal, r: int) {
    var regs := SbusRegisters(t, bus, e.terminal);
    regs.Some? && (regs.value.0 == r || regs.value.1 == r)
  }

  /** Circuit member `m` resolves register `r`: through one of its RBUS pins, or one of its SBUS terminals. */
  ghost predicate Resolves(t: SwitchTables, m: (Name, BusValue), r: int) {
    (IsRbus(m.0) && m.1.PinList? && exists pin :: pin in m.1.pins && PinResolves(t, m.0, pin, r)) ||
    (IsSbus(m.0) && m.1.TerminalList? && exists e :: e in m.1.entries && TerminalResolves(t, m.0, e, r))
  }

  lemma {:induction false} PinWritesTargets(t: SwitchTables, bus: Name, pins: seq<Name>, r: int)
    ensures Targets(PinWrites(t, bus, pins), r) <==> exists pin :: pin in pins && PinResolves(t, bus, pin, r)
    decreases |pins|
  {
    if pins != [] {
      var init := pins[..|pins| - 1];
      var last := pins[|pins| - 1];
      PinWritesTargets(t, bus, init, r);
      TargetsAppend(PinWrites(t, bus, init), PinWrite(t, bus, last), r);
      assert Targets(PinWrite(t, bus, last), r) <==> PinResolves(t, bus, last, r);
      assert pins == init + [last];
      assert forall pin :: pin in pins <==> pin in init || pin == last;
    }
  }

  /** An RBUS pin only ever writes a 1. */
  lemma {:induction false} PinWritesOnes(t: SwitchTables, bus: Name, pins: seq<Name>)
    ensures forall w :: w in PinWrites(t, bus, pins) ==> w.1 == 1
    decreases |pins|
  {
    if pins != [] {
      var init := pins[..|pins| - 1];
      PinWritesOnes(t, bus, init);
      var ws := PinWrite(t, bus, pins[|pins| - 1]);
      assert forall w :: w in ws ==> w.1 == 1;
      assert PinWrites(t, bus, pins) == PinWrites(t, bus, init) + ws;
    }
  }

  lemma {:induction false} TerminalWritesTargets(t: SwitchTables, bus: Name, entries: seq<Terminal>, r: int)
    ensures Targets(TerminalWrites(t, bus, entries), r) <==> exists e :: e in entries && TerminalResolves(t, bus, e, r)
    decreases |entries|
  {
    if entries != [] {
      var init := entries[..|entries| - 1];
      var last := entries[|entries| - 1];
      TerminalWritesTargets(t, bus, init, r);
      TargetsAppend(TerminalWrites(t, bus, init), TerminalWrite(t, bus, last), r);
      assert Targets(TerminalWrite(t, bus, last), r) <==> TerminalResolves(t, bus, last, r);
      assert entries == init + [last];
      assert forall e :: e in entries <==> e in init || e == last;
    }
  }

  lemma {:induction false} TerminalWritesBinary(t: SwitchTables, bus: Name, entries: seq<Terminal>)
    ensures BinaryWrites(TerminalWrites(t, bus, entries))
    decreases |entries|
  {
    if entries != [] {
      var init := entries[..|entries| - 1];
      TerminalWritesBinary(t, bus, init);
      var ws := TerminalWrite(t, bus, entries[|entries| - 1]);
      assert BinaryWrites(ws);
      assert TerminalWrites(t, bus, entries) == TerminalWrites(t, bus, init) + ws;
    }
  }

  lemma BusWritesTargets(t: SwitchTables, bus: Name, value: BusValue, r: int)
    requires IsRbus(bus) ==> value.PinList?
    requires IsSbus(bus) ==> value.TerminalList?
    ensures Targets(BusWrites(t, bus, value), r) <==> Resolves(t, (bus, value), r)
  {
    if IsRbus(bus) {
      PinWritesTargets(t, bus, value.pins, r);
      assert !IsSbus(bus);
    } else if IsSbus(bus) {
      TerminalWritesTargets(t, bus, value.entries, r);
    }
  }

  lemma BusWritesBinary(t: SwitchTables, bus: Name, value: BusValue)
    requires IsRbus(bus) ==> value.PinList?
    requires IsSbus(bus) ==> value.TerminalList?
    ensures BinaryWrites(BusWrites(t, bus, value))
  {
    if IsRbus(bus) {
      PinWritesOnes(t, bus, value.pins);
    } else if IsSbus(bus) {
      TerminalWritesBinary(t, bus, value.entries);
    }
  }

  /** The switch-matrix writes assign exactly the registers that some member resolves. */
  lemma {:induction false} SwitchWritesTargets(c: Circuit, t: SwitchTables, r: int)
    requires SwitchMatrixShaped(c)
    ensures Targets(SwitchWrites(c, t), r) <==> exists m :: m in c && Resolves(t, m, r)
    decreases |c|
  {
    if c != [] {
      var init := c[..|c| - 1];
      var last := c[|c| - 1];
      SwitchWritesTargets(init, t, r);
      BusWritesTargets(t, last.0, last.1, r);
      TargetsAppend(SwitchWrites(init, t), BusWrites(t, last.0, last.1), r);
      assert c == init + [last];
      assert forall m :: m in c <==> m in init || m == last;
    }
  }

  lemma {:induction false} SwitchWritesBinary(c: Circuit, t: SwitchTables)
    requires SwitchMatrixShaped(c)
    ensures BinaryWrites(SwitchWrites(c, t))
    decreases |c|
  {
    if c != [] {
      SwitchWritesBinary(c[..|c| - 1], t);
      BusWritesBinary(t, c[|c| - 1].0, c[|c| - 1].1);
    }
  }

  /**
   * The switch-matrix settings hold only 0s and 1s, and set exactly the
   * registers some RBUS pin or SBUS terminal resolves; an entry whose pin
   * or register is missing, and any member whose key starts with neither
   * "RBUS" nor "SBUS", contributes nothing.
   */
  lemma SwitchMatrixValuesShape(c: Circuit, t: SwitchTables, r: int)
    requires SwitchMatrixShaped(c)
    ensures Binary(SwitchMatrixValues(c, t))
    ensures r in SwitchMatrixValues(c, t) <==> exists m :: m in c && Resolves(t, m, r)
  {
    SwitchWritesTargets(c, t, r);
    SwitchWritesBinary(c, t);
    ApplyBinary(map[], SwitchWrites(c, t));
    ApplyHas(map[], SwitchWrites(c, t), r);
  }

  /** Every write of member `m` to register `r` is a 1 when `m` is an RBUS member. */
  lemma {:induction false} SwitchWriteOrigin(c: Circuit, t: SwitchTables, w: Write)
    requires SwitchMatrixShaped(c)
    requires w in SwitchWrites(c, t)
    ensures exists m :: m in c && Resolves(t, m, w.0) && (IsSbus(m.0) || w.1 == 1)
    decreases |c|
  {
    var init := c[..|c| - 1];
    var last := c[|c| - 1];
    assert c == init + [last];
    if w in SwitchWrites(init, t) {
      SwitchWriteOrigin(init, t, w);
      var m :| m in init && Resolves(t, m, w.0) && (IsSbus(m.0) || w.1 == 1);
      assert m in c;
    } else {
      assert w in BusWrites(t, last.0, last.1);
      assert Targets(BusWrites(t, last.0, last.1), w.0);
      BusWritesTargets(t, last.0, last.1, w.0);
      if IsRbus(last.0) {
        PinWritesOnes(t, last.0, last.1.pins);
      }
    }
  }

  /** A register that RBUS pins resolve and no SBUS terminal does is set to 1. */
  lemma RbusOnlyRegisterIsOne(c: Circuit, t: SwitchTables, r: int)
    requires SwitchMatrixShaped(c)
    requires exists m :: m in c && IsRbus(m.0) && Resolves(t, m, r)
    requires forall m :: m in c && IsSbus(m.0) ==> !Resolves(t, m, r)
    ensures r in SwitchMatrixValues(c, t) && SwitchMatrixValues(c, t)[r] == 1
  {
    var ws := SwitchWrites(c, t);
    SwitchWritesTargets(c, t, r);
    forall w | w in ws && w.0 == r
      ensures w.1 == 1
    {
      SwitchWriteOrigin(c, t, w);
    }
    ApplyUniform(map[], ws, r, 1);
  }

  /**
   * The last SBUS terminal of the circuit decides its registers by the
   * decode table: register b gets the second value, and register a (when it
   * differs from b) the first.
   */
  lemma LastTerminalDecides(c: Circuit, t: SwitchTables, bus: Name, entries: seq<Terminal>, e: Terminal)
    requires SwitchMatrixShaped(c)
    requires IsSbus(bus)
    requires SbusRegisters(t, bus, e.terminal).Some?
    ensures SwitchMatrixShaped(c + [(bus, TerminalList(entries + [e]))])
    ensures var regs := SbusRegisters(t, bus, e.terminal).value;
      var settings := SwitchMatrixValues(c + [(bus, TerminalList(entries + [e]))], t);
      regs.0 in settings && regs.1 in settings &&
      settings[regs.1] == Decode(e.connection).1 &&
      (regs.0 != regs.1 ==> settings[regs.0] == Decode(e.connection).0)
  {
    var c' := c + [(bus, TerminalList(entries + [e]))];
    assert !IsRbus(bus);
    assert SwitchMatrixShaped(c');
    assert c'[..|c'| - 1] == c;
    var ws := SwitchWrites(c', t);
    var regs := SbusRegisters(t, bus, e.terminal).value;
    assert (entries + [e])[..|entries|] == entries;
    var n := |ws|;
    assert ws[n - 1] == (regs.1, Decode(e.connection).1);
    assert ws[n - 2] == (regs.0, Decode(e.connection).0);
    ApplyLast(map[], ws, n - 1);
    if regs.0 != regs.1 {
      ApplyLast(map[], ws, n - 2);
    }
  }

  // ---------------------------------------------------------------------------
  // Merge and placement
  // ---------------------------------------------------------------------------

  /** The scan chain's length: probes 1 to 2008. */
  const MaxProbeCount: nat := 2008

  /** `{**lower, **upper}`: every key of either map, the value from `upper` where both have one. */
  function Merge(lower: Settings, upper: Settings): (m: Settings)
    ensures m.Keys == lower.Keys + upper.Keys
    ensures forall p :: p in upper ==> m[p] == upper[p]
    ensures forall p :: p in lower && p !in upper ==> m[p] == lower[p]
  {
    lower + upper
  }

  /** The value of probe `p`, 0 when it was never set. */
  function ProbeValue(values: Settings, p: int): int {
    if p in values then values[p] else 0
  }

  /** The scan-chain vector: entry i holds probe 2008 - i, so PROBE<2008> comes first and PROBE<1> last. */
  function ScanChainBits(values: Settings): seq<int> {
    seq(MaxProbeCount, i requires 0 <= i < MaxProbeCount => ProbeValue(values, MaxProbeCount - i))
  }

  /** Probe p (1..2008) sits at index 2008 - p of the scan-chain vector; an unset probe reads 0. */
  lemma ProbePlacement(values: Settings, p: int)
    requires 1 <= p <= MaxProbeCount
    ensures |ScanChainBits(values)| == MaxProbeCount
    ensures ScanChainBits(values)[MaxProbeCount - p] == (if p in values then values[p] else 0)
  {
    var i := MaxProbeCount - p;
    assert ScanChainBits(values)[i] == ProbeValue(values, MaxProbeCount - i);
  }

  /** A probe outside 1..2008 does not reach the scan-chain vector, whatever its value. */
  lemma OutOfRangeIgnored(values: Settings, p: int, v: int)
    requires !(1 <= p <= MaxProbeCount)
    ensures ScanChainBits(values[p := v]) == ScanChainBits(values)
  {
    forall i | 0 <= i < MaxProbeCount
      ensures ScanChainBits(values[p := v])[i] == ScanChainBits(values)[i]
    {
      var q := MaxProbeCount - i;
      assert q != p;
      assert ScanChainBits(values[p := v])[i] == ProbeValue(values[p := v], q);
      assert ScanChainBits(values)[i] == ProbeValue(values, q);
    }
  }

  /**
   * The placement loop of `generate_scan_chain_input`: start from 2008
   * zeros and store each probe's value at index 2008 - probe, ignoring
   * probes outside 1..2008.
   */
  method PlaceProbes(values: Settings) returns (bits: seq<int>)
    ensures |bits| == MaxProbeCount
    ensures forall i :: 0 <= i < MaxProbeCount ==> bits[i] == ProbeValue(values, MaxProbeCount - i)
    ensures bits == ScanChainBits(values)
  {
    var probeArray := new int[MaxProbeCount](_ => 0);
    var pending := values.Keys;
    while pending != {}
      invariant pending <= values.Keys
      invariant forall i :: 0 <= i < MaxProbeCount ==>
        probeArray[i] == (if MaxProbeCount - i in values && MaxProbeCount - i !in pending then values[MaxProbeCount - i] else 0)
      decreases pending
    {
      var probeNum := Pick(pending);
      if 1 <= probeNum <= MaxProbeCount {
        probeArray[MaxProbeCount - probeNum] := values[probeNum];
      }
      pending := pending - {probeNum};
    }
    bits := probeArray[..];
  }

  /**
   * `generate_scan_chain_input`: sizing settings, switch-matrix settings,
   * merged with the switch matrix taking precedence, placed highest probe
   * first; every bit is 0 or 1.
   */
  method GenerateScanChainInput(
    c: Circuit, t: SwitchTables, sizes: Sizes, table: SizingTable, order: seq<Name>)
    returns (bits: seq<int>)
    requires SwitchMatrixShaped(c)
    requires SizesReadable(sizes, table)
    requires IsKeyOrder(order, table.Keys)
    ensures bits == ScanChainBits(Merge(SizingValues(sizes, table, order), SwitchMatrixValues(c, t)))
    ensures |bits| == MaxProbeCount
    ensures forall i :: 0 <= i < |bits| ==> bits[i] == 0 || bits[i] == 1
  {
    var sizingProbeValues := DeviceSizingProbeValues(sizes, table, order);
    var switchMatrixProbeValues := SwitchMatrixProbeValues(c, t);
    var allProbeValues := Merge(sizingProbeValues, switchMatrixProbeValues);
    bits := PlaceProbes(allProbeValues);
  }

  /** Walking one more circuit member is performing that member's writes. */
  lemma SwitchMatrixValuesStep(c: Circuit, t: SwitchTables, i: int)
    requires SwitchMatrixShaped(c)
    requires 0 <= i < |c|
    ensures SwitchMatrixShaped(c[..i]) && SwitchMatrixShaped(c[..i + 1])
    ensures SwitchMatrixValues(c[..i + 1], t) == Apply(SwitchMatrixValues(c[..i], t), BusWrites(t, c[i].0, c[i].1))
  {
    assert c[..i + 1][..i] == c[..i];
    ApplyAppend(map[], SwitchWrites(c[..i], t), BusWrites(t, c[i].0, c[i].1));
  }

  /** The RBUS branch of `get_switch_matrix_probe_values`: each resolvable pin sets its register to 1. */
  method WriteRbusPins(before: Settings, t: SwitchTables, bus: Name, pins: seq<Name>) returns (settings: Settings)
    ensures settings == Apply(before, PinWrites(t, bus, pins))
  {
    settings := before;
    var j := 0;
    while j < |pins|
      invariant 0 <= j <= |pins|
      invariant settings == Apply(before, PinWrites(t, bus, pins[..j]))
    {
      var pin := pins[j];
      assert pins[..j + 1][..j] == pins[..j];
      ApplyAppend(before, PinWrites(t, bus, pins[..j]), PinWrite(t, bus, pin));
      if pin in t.pinToSw {
        var swMatrixPin := t.pinToSw[pin];
        if swMatrixPin in t.swToReg && bus in t.swToReg[swMatrixPin] {
          var register := t.swToReg[swMatrixPin][bus];
          ApplySnoc(settings, [], (register, 1));
          settings := settings[register := 1];
        }
      }
      j := j + 1;
    }
    assert pins[..j] == pins;
  }

  /**
   * The SBUS branch of `get_switch_matrix_probe_values`: each resolvable
   * terminal sets its (a, b) registers by the decode table, a first.
   */
  method WriteSbusTerminals(before: Settings, t: SwitchTables, bus: Name, entries: seq<Terminal>) returns (settings: Settings)
    ensures settings == Apply(before, TerminalWrites(t, bus, entries))
  {
    settings := before;
    var j := 0;
    while j < |entries|
      invariant 0 <= j <= |entries|
      invariant settings == Apply(before, TerminalWrites(t, bus, entries[..j]))
    {
      var terminal := entries[j].terminal;
      var connection := entries[j].connection;
      var sbusA := bus + "a";
      var sbusB := bus + "b";
      assert entries[..j + 1][..j] == entries[..j];
      ApplyAppend(before, TerminalWrites(t, bus, entries[..j]), TerminalWrite(t, bus, entries[j]));
      if terminal in t.pinToSw {
        var swMatrixPin := t.pinToSw[terminal];
        var registerA := RegisterOf(t, swMatrixPin, sbusA);
        var registerB := RegisterOf(t, swMatrixPin, sbusB);
        if registerA.Some? && registerB.Some? {
          var a, b := registerA.value, registerB.value;
          var va, vb;
          if connection == "ON" {
            va, vb := 1, 1;
          } else if connection == "PHI1" {
            va, vb := 1, 0;
          } else if connection == "PHI2" {
            va, vb := 0, 1;
          } else {
            va, vb := 0, 0;
          }
          assert (va, vb) == Decode(connection);
          ApplySnoc(settings, [(a, va)], (b, vb));
          ApplySnoc(settings, [], (a, va));
          settings := settings[a := va][b := vb];
        }
      }
      j := j + 1;
    }
    assert entries[..j] == entries;
  }

  /**
   * `get_switch_matrix_probe_values`: walk the circuit members in order;
   * each resolvable RBUS pin sets its register to 1 and each resolvable SBUS
   * terminal sets its (a, b) registers by the decode table.
   */
  method SwitchMatrixProbeValues(c: Circuit, t: SwitchTables) returns (settings: Settings)
    requires SwitchMatrixShaped(c)
    ensures settings == SwitchMatrixValues(c, t)
    ensures Binary(settings)
  {
    settings := map[];
    var i := 0;
    while i < |c|
      invariant 0 <= i <= |c|
      invariant settings == SwitchMatrixValues(c[..i], t)
    {
      var (bus, value) := c[i];
      if IsRbus(bus) {
        settings := WriteRbusPins(settings, t, bus, value.pins);
      } else if IsSbus(bus) {
        settings := WriteSbusTerminals(settings, t, bus, value.entries);
      }
      SwitchMatrixValuesStep(c, t, i);
      i := i + 1;
    }
    assert c[..i] == c;
    SwitchWritesBinary(c, t);
    ApplyBinary(map[], SwitchWrites(c, t));
  }
}
