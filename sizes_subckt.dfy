/**
 * generate_sizes_probe_subckt.py: the SPICE sub-circuit that ties every
 * device-sizing register to VDD or VSS. The register settings are computed
 * as the scan-chain generator computes them; then, device by device in
 * name order, the file has a comment with the device's size, one source per
 * (bit, register) entry in bit order tied to VDD when the register is 1 and
 * to VSS otherwise, and a blank line; `.ENDS` closes it.
 */
module SizesSubckt {

  import opened Wrappers
  import opened Text
  import opened Order
  import opened RegisterWrites
  import opened ScanChainInput
  import opened CombineProbes
  import opened ProbeLines

  /** The element name of the source that drives register `r` of `device`. */
  function SizeHead(device: Name, r: int): string {
    "V_" + device + "_" + IntToString(r)
  }

  /** The source of register `r` of `device`, tied to VDD exactly when the register is set to 1. */
  function BitLine(device: Name, r: int, settings: Settings): string {
    ProbeSource(SizeHead(device, r), r, Level(ProbeValue(settings, r)))
  }

  /** The lines `line(r)` for the registers `r` of the bit keys `bits`, in that order. */
  function Sources(line: int -> string, bitToRegister: map<int, int>, bits: seq<int>): seq<string>
    requires forall b :: b in bits ==> b in bitToRegister
  {
    if bits == [] then []
    else
      var last := bits[|bits| - 1];
      assert last in bits;
      Sources(line, bitToRegister, bits[..|bits| - 1]) + [line(bitToRegister[last])]
  }

  /** The source of each register of `device`, as a function of the register. */
  function SourceOf(device: Name, settings: Settings): int -> string {
    r => BitLine(device, r, settings)
  }

  /** The sources of the bit keys `bits` of one device, in that order. */
  function BitLines(device: Name, bitToRegister: map<int, int>, bits: seq<int>, settings: Settings): seq<string>
    requires forall b :: b in bits ==> b in bitToRegister
  {
    Sources(SourceOf(device, settings), bitToRegister, bits)
  }

  /** The comment that opens a device group; it shows the size as the sizes JSON gives it. */
  function DeviceComment(sizes: Sizes, device: Name): string
    requires SizeReadable(sizes, device)
  {
    "* Device: " + device + " Size: " + IntToString(RawSize(sizes, device))
  }

  /** One device group: the comment, the sources in ascending bit order, a blank line. */
  function DeviceLines(sizes: Sizes, device: Name, bitToRegister: map<int, int>, settings: Settings): seq<string>
    requires SizeReadable(sizes, device)
  {
    [DeviceComment(sizes, device)] +
    BitLines(device, bitToRegister, SortedInts(bitToRegister.Keys), settings) + [""]
  }

  /** The groups of the devices in `devices`, one after the other. */
  function DevicesLines(sizes: Sizes, table: SizingTable, devices: seq<Name>, settings: Settings): seq<string>
    requires SizesReadable(sizes, table)
    requires forall d :: d in devices ==> d in table
  {
    if devices == [] then []
    else
      var device := devices[|devices| - 1];
      DevicesLines(sizes, table, devices[..|devices| - 1], settings) + DeviceLines(sizes, device, table[device], settings)
  }

  /**
   * The body of the file after the header and template: the device groups in
   * device-name order, then `.ENDS`, with the settings of the devices in
   * `order`, the iteration order of the register table.
   */
  function SizesSubcktLines(sizes: Sizes, table: SizingTable, order: seq<Name>): seq<string>
    requires SizesReadable(sizes, table)
    requires forall d :: d in order ==> d in table
  {
    DevicesLines(sizes, table, SortedNames(table.Keys), SizingValues(sizes, table, order)) + [".ENDS"]
  }

  /** The device groups never look at the sizes entry of a device outside the table. */
  lemma {:induction false} DevicesLinesIgnoreUnlisted(sizes: Sizes, table: SizingTable, devices: seq<Name>,
                                                      settings: Settings, device: Name, entry: seq<int>)
    requires SizesReadable(sizes, table) && SizesReadable(sizes[device := entry], table)
    requires forall d :: d in devices ==> d in table
    requires device !in table
    ensures DevicesLines(sizes[device := entry], table, devices, settings) == DevicesLines(sizes, table, devices, settings)
    decreases |devices|
  {
    if devices != [] {
      var last := devices[|devices| - 1];
      DevicesLinesIgnoreUnlisted(sizes, table, devices[..|devices| - 1], settings, device, entry);
      assert DeviceComment(sizes[device := entry], last) == DeviceComment(sizes, last);
    }
  }

  /**
   * An entry for a device the register table does not list, an empty list
   * included, is accepted and leaves the generated file as it was.
   */
  lemma SizesSubcktIgnoresUnlisted(sizes: Sizes, table: SizingTable, order: seq<Name>, device: Name, entry: seq<int>)
    requires SizesReadable(sizes, table)
    requires IsKeyOrder(order, table.Keys)
    requires device !in table
    ensures SizesReadable(sizes[device := entry], table)
    ensures SizesSubcktLines(sizes[device := entry], table, order) == SizesSubcktLines(sizes, table, order)
  {
    UnlistedDeviceIgnored(sizes, table, order, device, entry);
    DevicesLinesIgnoreUnlisted(sizes, table, SortedNames(table.Keys), SizingValues(sizes, table, order), device, entry);
  }

  // ---------------------------------------------------------------------------
  // The generator
  // ---------------------------------------------------------------------------

  /** One pass of the bit loop: the register's setting, 0 when unset, picks VDD or VSS. */
  method EmitBit(device: Name, r: int, settings: Settings) returns (line: string)
    ensures line == BitLine(device, r, settings)
  {
    var value := if r in settings then settings[r] else 0;
    if value == 1 {
      line := ProbeSource(SizeHead(device, r), r, "VDD");
    } else {
      line := ProbeSource(SizeHead(device, r), r, "VSS");
    }
  }

  /** The device comment, with the size the sizes JSON gives, 0 for a device it does not list. */
  method EmitComment(sizes: Sizes, device: Name) returns (comment: string)
    requires SizeReadable(sizes, device)
    ensures comment == DeviceComment(sizes, device)
  {
    var size := if device in sizes then sizes[device][0] else 0;
    comment := "* Device: " + device + " Size: " + IntToString(size);
  }

  /** The bit loop over the bit keys `bits`: one source per key, in that order. */
  method EmitBits(device: Name, bitToRegister: map<int, int>, bits: seq<int>, settings: Settings)
    returns (sources: seq<string>)
    requires forall b :: b in bits ==> b in bitToRegister
    ensures sources == BitLines(device, bitToRegister, bits, settings)
  {
    sources := [];
    var i := 0;
    while i < |bits|
      invariant 0 <= i <= |bits|
      invariant sources == BitLines(device, bitToRegister, bits[..i], settings)
    {
      var b := bits[i];
      assert b in bits;
      var line := EmitBit(device, bitToRegister[b], settings);
      BitLinesStep(device, bitToRegister, bits, settings, i);
      sources := sources + [line];
      i := i + 1;
    }
    assert bits[..i] == bits;
  }

  /** One pass of the device loop: the comment, the sources in bit order, the blank line. */
  method EmitDevice(sizes: Sizes, device: Name, bitToRegister: map<int, int>, settings: Settings)
    returns (lines: seq<string>)
    requires SizeReadable(sizes, device)
    ensures lines == DeviceLines(sizes, device, bitToRegister, settings)
  {
    var comment := EmitComment(sizes, device);
    var sources := EmitBits(device, bitToRegister, SortedInts(bitToRegister.Keys), settings);
    lines := [comment] + sources + [""];
  }

  /** Walking one more bit key appends its source. */
  lemma BitLinesStep(device: Name, bitToRegister: map<int, int>, bits: seq<int>, settings: Settings, i: int)
    requires forall b :: b in bits ==> b in bitToRegister
    requires 0 <= i < |bits|
    ensures forall b :: b in bits[..i + 1] ==> b in bitToRegister
    ensures BitLines(device, bitToRegister, bits[..i + 1], settings) ==
      BitLines(device, bitToRegister, bits[..i], settings) + [BitLine(device, bitToRegister[bits[i]], settings)]
  {
    SourcesStep(SourceOf(device, settings), bitToRegister, bits, i);
    assert SourceOf(device, settings)(bitToRegister[bits[i]]) == BitLine(device, bitToRegister[bits[i]], settings);
  }

  lemma SourcesStep(line: int -> string, bitToRegister: map<int, int>, bits: seq<int>, i: int)
    requires forall b :: b in bits ==> b in bitToRegister
    requires 0 <= i < |bits|
    ensures forall b :: b in bits[..i + 1] ==> b in bitToRegister
    ensures Sources(line, bitToRegister, bits[..i + 1]) ==
      Sources(line, bitToRegister, bits[..i]) + [line(bitToRegister[bits[i]])]
  {
    assert bits[..i + 1][..i] == bits[..i];
  }

  /** Walking one more device appends its group. */
  lemma DevicesLinesStep(sizes: Sizes, table: SizingTable, devices: seq<Name>, settings: Settings, i: int)
    requires SizesReadable(sizes, table)
    requires forall d :: d in devices ==> d in table
    requires 0 <= i < |devices|
    ensures forall d :: d in devices[..i + 1] ==> d in table
    ensures DevicesLines(sizes, table, devices[..i + 1], settings) ==
      DevicesLines(sizes, table, devices[..i], settings) + DeviceLines(sizes, devices[i], table[devices[i]], settings)
  {
    assert devices[..i + 1][..i] == devices[..i];
  }

  /** The device loop over `devices`: their groups, one after the other. */
  method EmitDevices(sizes: Sizes, table: SizingTable, devices: seq<Name>, settings: Settings)
    returns (lines: seq<string>)
    requires SizesReadable(sizes, table)
    requires forall d :: d in devices ==> d in table
    ensures lines == DevicesLines(sizes, table, devices, settings)
  {
    lines := [];
    var i := 0;
    while i < |devices|
      invariant 0 <= i <= |devices|
      invariant lines == DevicesLines(sizes, table, devices[..i], settings)
    {
      var group := EmitDevice(sizes, devices[i], table[devices[i]], settings);
      DevicesLinesStep(sizes, table, devices, settings, i);
      lines := lines + group;
      i := i + 1;
    }
    assert devices[..i] == devices;
  }

  /**
   * `generate_sizes_probe_subckt` after the header and template: the register
   * settings, then the device groups in name order and `.ENDS`.
   */
  method GenerateSizesSubckt(sizes: Sizes, table: SizingTable, order: seq<Name>) returns (lines: seq<string>)
    requires SizesReadable(sizes, table)
    requires forall d :: d in order ==> d in table
    ensures lines == SizesSubcktLines(sizes, table, order)
  {
    var settings := DeviceSizingProbeValues(sizes, table, order);
    var groups := EmitDevices(sizes, table, SortedNames(table.Keys), settings);
    lines := groups + [".ENDS"];
  }

  // ---------------------------------------------------------------------------
  // The shape of a device group
  // ---------------------------------------------------------------------------

  /** The lines of a run of bit keys: one per key, the i-th for the register of the i-th key. */
  lemma {:induction false} SourcesAre(line: int -> string, bitToRegister: map<int, int>, bits: seq<int>)
    requires forall b :: b in bits ==> b in bitToRegister
    ensures |Sources(line, bitToRegister, bits)| == |bits|
    ensures forall i :: 0 <= i < |bits| ==> Sources(line, bitToRegister, bits)[i] == line(bitToRegister[bits[i]])
    decreases |bits|
  {
    if bits != [] {
      var n := |bits| - 1;
      var init := bits[..n];
      SourcesAre(line, bitToRegister, init);
      forall i | 0 <= i < n
        ensures init[i] == bits[i]
      {
      }
    }
  }

  /**
   * A device group is its comment, which shows the size as the sizes JSON
   * gives it (not the clamped one), then one source per bit key in
   * ascending bit order, then a blank line.
   */
  lemma DeviceLinesShape(sizes: Sizes, device: Name, bitToRegister: map<int, int>, settings: Settings)
    requires SizeReadable(sizes, device)
    ensures var lines := DeviceLines(sizes, device, bitToRegister, settings);
      var bits := SortedInts(bitToRegister.Keys);
      |lines| == |bitToRegister.Keys| + 2 &&
      lines[0] == "* Device: " + device + " Size: " + IntToString(RawSize(sizes, device)) &&
      lines[|lines| - 1] == "" &&
      StrictlyIncreasing(bits) &&
      forall i :: 0 <= i < |bits| ==> lines[i + 1] == BitLine(device, bitToRegister[bits[i]], settings)
  {
    var bits := SortedInts(bitToRegister.Keys);
    SourcesAre(SourceOf(device, settings), bitToRegister, bits);
    GroupShape(DeviceComment(sizes, device), BitLines(device, bitToRegister, bits, settings));
  }

  /** A group framed by a comment and a blank line. */
  lemma GroupShape(comment: string, sources: seq<string>)
    ensures var lines := [comment] + sources + [""];
      |lines| == |sources| + 2 && lines[0] == comment && lines[|lines| - 1] == "" &&
      forall i :: 0 <= i < |sources| ==> lines[i + 1] == sources[i]
  {
  }

  // ---------------------------------------------------------------------------
  // Reading the file back
  // ---------------------------------------------------------------------------

  /** Every source of the table has a clean name and a non-negative probe number. */
  ghost predicate SizesClean(table: SizingTable) {
    forall d, b :: d in table && b in table[d] ==> 0 <= table[d][b] && CleanHead(SizeHead(d, table[d][b]))
  }

  /** The write a reader sees for register `r`: its setting, 0 when it has none. */
  function ReadOf(settings: Settings, r: int): Write {
    (r, ProbeValue(settings, r))
  }

  /** The writes the sources of the bit keys `bits` read back as, in that order. */
  function BitReads(bitToRegister: map<int, int>, bits: seq<int>, settings: Settings): seq<Write>
    requires forall b :: b in bits ==> b in bitToRegister
  {
    if bits == [] then []
    else
      var last := bits[|bits| - 1];
      assert last in bits;
      BitReads(bitToRegister, bits[..|bits| - 1], settings) + [ReadOf(settings, bitToRegister[last])]
  }

  /** The writes one device group reads back as. */
  function DeviceReads(bitToRegister: map<int, int>, settings: Settings): seq<Write> {
    BitReads(bitToRegister, SortedInts(bitToRegister.Keys), settings)
  }

  /** The writes the groups of `devices` read back as. */
  function DevicesReads(table: SizingTable, devices: seq<Name>, settings: Settings): seq<Write>
    requires forall d :: d in devices ==> d in table
  {
    if devices == [] then []
    else DevicesReads(table, devices[..|devices| - 1], settings) + DeviceReads(table[devices[|devices| - 1]], settings)
  }

  /** A read-back write for bit keys `bits` is the setting of the register of one of them. */
  lemma {:induction false} BitReadsAre(bitToRegister: map<int, int>, bits: seq<int>, settings: Settings, w: Write)
    requires forall b :: b in bits ==> b in bitToRegister
    ensures w in BitReads(bitToRegister, bits, settings) <==>
      exists b :: b in bits && w == ReadOf(settings, bitToRegister[b])
    decreases |bits|
  {
    if bits != [] {
      var init := bits[..|bits| - 1];
      var last := bits[|bits| - 1];
      assert bits == init + [last];
      assert forall b :: b in bits <==> b in init || b == last;
      BitReadsAre(bitToRegister, init, settings, w);
    }
  }

  /** A read-back write for the groups of `devices` is the setting of a register one of them lists. */
  lemma {:induction false} DevicesReadsAre(table: SizingTable, devices: seq<Name>, settings: Settings, w: Write)
    requires forall d :: d in devices ==> d in table
    ensures w in DevicesReads(table, devices, settings) <==>
      exists d, b :: d in devices && b in table[d] && w == ReadOf(settings, table[d][b])
    decreases |devices|
  {
    if devices != [] {
      var init := devices[..|devices| - 1];
      var device := devices[|devices| - 1];
      assert forall d :: d in devices <==> d in init || d == device;
      DevicesReadsAre(table, init, settings, w);
      BitReadsAre(table[device], SortedInts(table[device].Keys), settings, w);
      if exists d, b :: d in devices && b in table[d] && w == ReadOf(settings, table[d][b]) {
        var d, b :| d in devices && b in table[d] && w == ReadOf(settings, table[d][b]);
        if d == device {
          assert b in SortedInts(table[device].Keys);
        }
      }
    }
  }

  /** Writes that each carry their register's setting leave exactly those registers, at their settings. */
  lemma ReadsApply(settings: Settings, ws: seq<Write>)
    requires forall w :: w in ws ==> w == ReadOf(settings, w.0)
    ensures Apply(map[], ws) == map r | r in Written(ws) :: ProbeValue(settings, r)
  {
    forall r
      ensures r in Apply(map[], ws) <==> r in Written(ws)
      ensures r in Written(ws) ==> Apply(map[], ws)[r] == ProbeValue(settings, r)
    {
      ApplyHas(map[], ws, r);
      if r in Written(ws) {
        ApplyUniform(map[], ws, r, ProbeValue(settings, r));
      }
    }
  }

  /** An empty line reads back as nothing. */
  lemma BlankWrites()
    ensures LineWrites([""]) == []
  {
    assert ParseLine("") == None;
    LineWritesSnoc([], "");
  }

  /** The device comment reads back as nothing. */
  lemma DeviceCommentWrites(sizes: Sizes, device: Name)
    requires SizeReadable(sizes, device)
    ensures LineWrites([DeviceComment(sizes, device)]) == []
  {
    CommentLineParsesToNothing(DeviceComment(sizes, device));
    LineWritesSnoc([], DeviceComment(sizes, device));
  }

  /** The source of a register reads back as that register's setting, when the settings are binary. */
  lemma BitLineRead(device: Name, r: int, settings: Settings)
    requires Binary(settings)
    requires 0 <= r && CleanHead(SizeHead(device, r))
    ensures LineWrite(BitLine(device, r, settings)) == [ReadOf(settings, r)]
  {
    ProbeSourceParses(SizeHead(device, r), r, Level(ProbeValue(settings, r)));
  }

  /** The sources of the bit keys `bits`, gathered by any reader `f` that reads each as its register's setting. */
  lemma {:induction false} GatherBitLines(f: string -> seq<Write>, device: Name, bitToRegister: map<int, int>,
                                          bits: seq<int>, settings: Settings)
    requires forall b :: b in bits ==> b in bitToRegister
    requires forall b :: b in bits ==>
      f(BitLine(device, bitToRegister[b], settings)) == [ReadOf(settings, bitToRegister[b])]
    ensures Gather(f, BitLines(device, bitToRegister, bits, settings)) == BitReads(bitToRegister, bits, settings)
    decreases |bits|
  {
    if bits != [] {
      var init, last := bits[..|bits| - 1], bits[|bits| - 1];
      assert forall b :: b in init ==> b in bits;
      GatherBitLines(f, device, bitToRegister, init, settings);
      var line := BitLine(device, bitToRegister[last], settings);
      GatherAppend(f, BitLines(device, bitToRegister, init, settings), [line]);
      assert [line][..0] == [];
    }
  }

  /** A device group reads back as its registers' settings in bit order. */
  lemma DeviceLinesRead(sizes: Sizes, device: Name, bitToRegister: map<int, int>, settings: Settings)
    requires SizeReadable(sizes, device) && Binary(settings)
    requires forall b :: b in bitToRegister ==>
      0 <= bitToRegister[b] && CleanHead(SizeHead(device, bitToRegister[b]))
    ensures LineWrites(DeviceLines(sizes, device, bitToRegister, settings)) == DeviceReads(bitToRegister, settings)
  {
    var bits := SortedInts(bitToRegister.Keys);
    forall b | b in bits
      ensures LineWrite(BitLine(device, bitToRegister[b], settings)) == [ReadOf(settings, bitToRegister[b])]
    {
      BitLineRead(device, bitToRegister[b], settings);
    }
    GatherBitLines(LineWrite, device, bitToRegister, bits, settings);
    var comment := [DeviceComment(sizes, device)];
    var body := BitLines(device, bitToRegister, bits, settings);
    DeviceCommentWrites(sizes, device);
    BlankWrites();
    LineWritesAppend(comment, body);
    LineWritesAppend(comment + body, [""]);
  }

  /** The groups of `devices`, gathered by any reader `f` that reads each group as its registers' settings. */
  lemma {:induction false} GatherDevices(f: string -> seq<Write>, sizes: Sizes, table: SizingTable,
                                         devices: seq<Name>, settings: Settings)
    requires SizesReadable(sizes, table)
    requires forall d :: d in devices ==> d in table
    requires forall d :: d in devices ==>
      Gather(f, DeviceLines(sizes, d, table[d], settings)) == DeviceReads(table[d], settings)
    ensures Gather(f, DevicesLines(sizes, table, devices, settings)) == DevicesReads(table, devices, settings)
    decreases |devices|
  {
    if devices != [] {
      var init, last := devices[..|devices| - 1], devices[|devices| - 1];
      assert forall d :: d in init ==> d in devices;
      GatherDevices(f, sizes, table, init, settings);
      GatherAppend(f, DevicesLines(sizes, table, init, settings), DeviceLines(sizes, last, table[last], settings));
    }
  }

  /** The device groups read back as the settings of every register they list, device after device. */
  lemma DevicesLinesRead(sizes: Sizes, table: SizingTable, devices: seq<Name>, settings: Settings)
    requires SizesReadable(sizes, table) && Binary(settings) && SizesClean(table)
    requires forall d :: d in devices ==> d in table
    ensures LineWrites(DevicesLines(sizes, table, devices, settings)) == DevicesReads(table, devices, settings)
  {
    forall d | d in devices
      ensures Gather(LineWrite, DeviceLines(sizes, d, table[d], settings)) == DeviceReads(table[d], settings)
    {
      DeviceLinesRead(sizes, d, table[d], settings);
    }
    GatherDevices(LineWrite, sizes, table, devices, settings);
  }

  /** The read-back writes of all device groups carry their registers' settings. */
  lemma AllReadsCarrySettings(table: SizingTable, settings: Settings)
    ensures var ws := DevicesReads(table, SortedNames(table.Keys), settings);
      forall w :: w in ws ==> w == ReadOf(settings, w.0)
  {
    var ws := DevicesReads(table, SortedNames(table.Keys), settings);
    forall w | w in ws
      ensures w == ReadOf(settings, w.0)
    {
      DevicesReadsAre(table, SortedNames(table.Keys), settings, w);
    }
  }

  /** The device groups read back a register exactly when the computed settings set it. */
  lemma AllReadsCoverSettings(sizes: Sizes, table: SizingTable, order: seq<Name>)
    requires SizesReadable(sizes, table)
    requires IsKeyOrder(order, table.Keys)
    ensures var settings := SizingValues(sizes, table, order);
      Written(DevicesReads(table, SortedNames(table.Keys), settings)) == settings.Keys
  {
    var settings := SizingValues(sizes, table, order);
    var devices := SortedNames(table.Keys);
    var ws := DevicesReads(table, devices, settings);
    forall r
      ensures r in Written(ws) <==> r in settings
    {
      SizingValuesKeys(sizes, table, order, r);
      if r in settings {
        var d :| ListsRegister(table, d, r);
        var b :| b in table[d] && table[d][b] == r;
        DevicesReadsAre(table, devices, settings, ReadOf(settings, r));
      }
      if r in Written(ws) {
        var w :| w in ws && w.0 == r;
        DevicesReadsAre(table, devices, settings, w);
        var d, b :| d in devices && b in table[d] && w == ReadOf(settings, table[d][b]);
        assert ListsRegister(table, d, r);
      }
    }
  }

  /**
   * Reading the generated file back gives exactly the register settings
   * `generate_sizes_probe_subckt` computed: every register the table lists,
   * at its bit value, and no other.
   */
  lemma SizesSubcktReadsBack(sizes: Sizes, table: SizingTable, order: seq<Name>)
    requires SizesReadable(sizes, table)
    requires IsKeyOrder(order, table.Keys)
    requires SizesClean(table)
    ensures ExtractedValues(SizesSubcktLines(sizes, table, order)) == SizingValues(sizes, table, order)
  {
    var body := DevicesLines(sizes, table, SortedNames(table.Keys), SizingValues(sizes, table, order));
    GroupsReadBack(sizes, table, order);
    EndsLineKeepsValues(body);
  }

  /** The device groups alone read back as the computed settings. */
  lemma GroupsReadBack(sizes: Sizes, table: SizingTable, order: seq<Name>)
    requires SizesReadable(sizes, table)
    requires IsKeyOrder(order, table.Keys)
    requires SizesClean(table)
    ensures var settings := SizingValues(sizes, table, order);
      ExtractedValues(DevicesLines(sizes, table, SortedNames(table.Keys), settings)) == settings
  {
    var settings := SizingValues(sizes, table, order);
    var devices := SortedNames(table.Keys);
    var ws := DevicesReads(table, devices, settings);
    SizingValuesBinary(sizes, table, order);
    DevicesLinesRead(sizes, table, devices, settings);
    AllReadsCarrySettings(table, settings);
    ReadsApply(settings, ws);
    AllReadsCoverSettings(sizes, table, order);
    ReadsOfKeys(settings, Written(ws));
  }

  /** Reading every register of the settings gives the settings back. */
  lemma ReadsOfKeys(settings: Settings, keys: set<int>)
    requires keys == settings.Keys
    ensures (map r | r in keys :: ProbeValue(settings, r)) == settings
  {
  }
}
