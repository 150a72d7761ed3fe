# MOSbiusV2Tools converters, modelled in Dafny

MOSbiusV2Tools configures the MOSbius V2 chip. A circuit is described as a
JSON object: each RBUS member lists chip pins, each SBUS member lists
terminal records (`terminal` and `connection`), and each NODE member lists
pins. A sizes JSON gives each device's 5-bit size. The converters turn these
files into a scan-chain vector and into SPICE sub-circuits. They use four
lookup tables:

- `device_name_to_sizing_registers`
- `pin_name_to_sw_matrix_pin_number`
- `switch_matrix_register_map`
- `pin_name_to_number`

The model covers six converters:

- **generate_scan_chain_input.py** computes the probe-register settings.
  - Sizing: each register of each device gets `1 if bit & size else 0`. A
    device missing from the sizes JSON, or sized outside 0..31, counts as
    size 0.
  - Switch matrix: a resolvable RBUS pin sets its register to 1. A
    resolvable SBUS terminal sets its (a, b) registers from ON, PHI1, PHI2
    or anything else.
  - The two maps are merged with the switch matrix taking precedence.
  - Probe p goes to position 2008 - p of a 2008-entry vector.
- **combine_probes_circuits_to_scan_input.py** reads probe values back out
  of two SPICE files. A line counts when, stripped, it starts with `V`. Its
  first `PROBE<digits>` gives the probe. `VDD` anywhere on the line gives 1,
  otherwise `VSS` gives 0. The sizes file takes precedence, and the same
  2008-entry vector is written through an array that is reversed.
- **generate_switch_matrix_probe_subckt.py** writes a comment and a source
  for each connection. It then ties every probe in 1..1888 that was not
  connected to VSS, and writes `.ENDS`.
- **generate_sizes_probe_subckt.py** writes one group per device, in sorted
  name order. Each group has a comment with the raw size, one source per
  register in ascending bit order, and a blank line.
- **generate_nodes_subckt.py** shorts the VDD pins to pin<13>, the VSS pins
  to pin<1>, and the pins of `NODE<k>` to `NODE<k>`.
- **generate_pins_to_RBUS_SBUS_subckt.py** shorts each bus to the chip pin
  of its first pin, rewriting `RBUSk` to `RBUS<k>`. It then shorts
  SWBUS<1..6> to the pins SBUS1..SBUS5 and DATA_SBUS6.

How things are represented:

- The tables are `map`s given as parameters.
- A circuit is the sequence of (key, value) members of the loaded JSON
  object, in file order. The keys are distinct, because `json.load` keeps
  one member per key.
- A register map is `map<int, int>`, built by applying a sequence of
  writes. A later write overrides an earlier one, as in a Python dict.
- Each generator's output is its sequence of body lines. The timestamp
  header and the template text are left out.
- Every loop of the source is a `method` with a `while` loop, proved equal
  to a specification function. The combiner's 2008-entry list is an
  `array`.

The Python helpers are written out in modules `Text` and `Order`. `Text`
covers `strip`, `startswith`, `in`, `replace`, `int()` and `str()`. `Order`
covers `sorted`. Module `Spice` reads a 0 V source line `V<name> <a> <b> 0`
as a short between `a` and `b`. That reading states what the nodes and pins
files connect.

The model also proves what the generated files mean:

- The combiner reads the generated switch-matrix file back as the
  switch-matrix settings plus a 0 for every unconnected probe up to 1888.
- It reads the generated sizes file back as exactly the sizing settings.
- So the two routes to a scan-chain vector give the same bits unless a
  probe is set by both sources. Where one is, they differ, because their
  merge precedence is opposite (`ScanChainAgreement`).

## Model

| member | source | states |
|---|---|---|
| ScanChainInput.ClampedSize | commandline/src/commandline/generate_scan_chain_input.py:34-37 | the size used for the bits is always in 0..31 (absent device or out-of-range size gives 0) |
| ScanChainInput.BitValue | commandline/src/commandline/generate_scan_chain_input.py:41 | `1 if bit & size else 0` is always 0 or 1 |
| ScanChainInput.SizeBit | commandline/src/commandline/generate_scan_chain_input.py:41 | for the bit keys 1, 2, 4, 8, 16 the value is digit log2(bit) of the size's binary form |
| ScanChainInput.SizeBits | commandline/src/commandline/generate_scan_chain_input.py:40-41 | the values of the five bit keys, weighted by the keys, add up to the clamped size again |
| ScanChainInput.DeviceSize | commandline/src/commandline/generate_scan_chain_input.py:34-37 | the size is the JSON size when it is in 0..31, otherwise 0, and always in 0..31 |
| ScanChainInput.WriteDeviceBits | commandline/src/commandline/generate_scan_chain_input.py:40-41 | the inner loop writes each register of the device, in ascending numeric bit order, with its bit value |
| ScanChainInput.DeviceSizingProbeValues | commandline/src/commandline/generate_scan_chain_input.py:30-43 | the nested loops compute the sizing settings over the devices in table order, and every value is 0 or 1 |
| ScanChainInput.SizingWritesAre | commandline/src/commandline/generate_scan_chain_input.py:33-41 | the writes are exactly the pairs (register of bit b of device d, bit value of b for d's clamped size) |
| ScanChainInput.SizingValuesBinary | commandline/src/commandline/generate_scan_chain_input.py:35-41 | every sizing register value is 0 or 1 |
| ScanChainInput.SizingValuesKeys | commandline/src/commandline/generate_scan_chain_input.py:33-41 | a register has a sizing value if and only if some device of the table lists it |
| ScanChainInput.SizingValueOfSoleWriter | commandline/src/commandline/generate_scan_chain_input.py:40-41 | a register named by one (device, bit) entry only is 1 if and only if bit & clamped size is non-zero |
| ScanChainInput.UnsizedDeviceReadsZero | commandline/src/commandline/generate_scan_chain_input.py:34-37 | the registers of a device missing from the sizes JSON, or sized outside 0..31, read 0 |
| ScanChainInput.UnlistedDeviceIgnored | commandline/src/commandline/generate_scan_chain_input.py:33-34 | an entry for a device outside the register table, an empty list included, is accepted and leaves the sizing settings unchanged |
| ScanChainInput.SizingRegisterHoldsSizeBit | commandline/src/commandline/generate_scan_chain_input.py:40-41 | the register of bit key 2^j holds digit j of the clamped size |
| ScanChainInput.PinWritesTargets | commandline/src/commandline/generate_scan_chain_input.py:81-98 | the RBUS pins write register r if and only if one of them resolves to r through both tables |
| ScanChainInput.PinWritesOnes | commandline/src/commandline/generate_scan_chain_input.py:97-98 | every RBUS write sets its register to 1 |
| ScanChainInput.TerminalWritesTargets | commandline/src/commandline/generate_scan_chain_input.py:102-124 | the SBUS terminals write r if and only if some terminal has both its a and b registers and r is one of them |
| ScanChainInput.TerminalWritesBinary | commandline/src/commandline/generate_scan_chain_input.py:126-142 | every SBUS write is 0 or 1 |
| ScanChainInput.BusWritesTargets | commandline/src/commandline/generate_scan_chain_input.py:78-100 | a member writes r if and only if it is an RBUS or SBUS member that resolves r; other keys write nothing |
| ScanChainInput.BusWritesBinary | commandline/src/commandline/generate_scan_chain_input.py:78-142 | every write of a member is 0 or 1 |
| ScanChainInput.SwitchWritesTargets | commandline/src/commandline/generate_scan_chain_input.py:78-142 | the circuit writes r if and only if some member resolves r |
| ScanChainInput.SwitchWritesBinary | commandline/src/commandline/generate_scan_chain_input.py:78-142 | every switch-matrix write is 0 or 1 |
| ScanChainInput.SwitchMatrixValuesShape | commandline/src/commandline/generate_scan_chain_input.py:74-144 | the settings are 0/1, and r has a value if and only if some RBUS or SBUS member resolves r |
| ScanChainInput.SwitchWriteOrigin | commandline/src/commandline/generate_scan_chain_input.py:79-142 | every write comes from a member that resolves its register, and a write of 0 only from an SBUS member |
| ScanChainInput.RbusOnlyRegisterIsOne | commandline/src/commandline/generate_scan_chain_input.py:79-98 | a register reached by an RBUS pin and by no SBUS terminal is 1 |
| ScanChainInput.LastTerminalDecides | commandline/src/commandline/generate_scan_chain_input.py:119-142 | the last SBUS terminal record sets its b register (and its a register when different) by ON (1,1), PHI1 (1,0), PHI2 (0,1), else (0,0) |
| ScanChainInput.WriteRbusPins | commandline/src/commandline/generate_scan_chain_input.py:81-98 | the RBUS pin loop applies the pins' writes in list order, skipping pins or registers that are not found |
| ScanChainInput.WriteSbusTerminals | commandline/src/commandline/generate_scan_chain_input.py:102-142 | the SBUS loop applies the decoded (a, b) writes in list order, skipping a terminal when either register is missing |
| ScanChainInput.SwitchMatrixProbeValues | commandline/src/commandline/generate_scan_chain_input.py:45-144 | the bus loop computes the switch-matrix settings, and every value is 0 or 1 |
| ScanChainInput.Merge | commandline/src/commandline/generate_scan_chain_input.py:162 | `{**lower, **upper}`: the keys of both, the upper value where both have one, the lower value elsewhere |
| ScanChainInput.ProbePlacement | commandline/src/commandline/generate_scan_chain_input.py:165-171 | the vector has 2008 entries and position 2008 - p holds probe p's value, or 0 if it is unset |
| ScanChainInput.OutOfRangeIgnored | commandline/src/commandline/generate_scan_chain_input.py:170-171 | setting a probe outside 1..2008 does not change the vector |
| ScanChainInput.PlaceProbes | commandline/src/commandline/generate_scan_chain_input.py:164-171 | the placement loop gives 2008 entries, entry i holding PROBE<2008 - i> or 0 |
| ScanChainInput.GenerateScanChainInput | commandline/src/commandline/generate_scan_chain_input.py:146-171 | the vector places the sizing settings overridden by the switch-matrix settings; 2008 bits, each 0 or 1 |
| RegisterWrites.ApplyLast | commandline/src/commandline/generate_scan_chain_input.py:41 | a dict assignment that no later one to the same register follows decides that register's value |
| CombineProbes.SearchProbeFrom | commandline/src/commandline/combine_probes_circuits_to_scan_input.py:46 | the search finds a `PROBE<digits>` match with no match before it, or reports none when there is no match at all |
| CombineProbes.ReadLine | commandline/src/commandline/combine_probes_circuits_to_scan_input.py:39-54 | one pass of the line loop applies the line's write (or none) to the values |
| CombineProbes.ExtractProbeValues | commandline/src/commandline/combine_probes_circuits_to_scan_input.py:23-57 | the line loop computes the values read from the file, and every value is 0 or 1 |
| CombineProbes.ExtractedValuesSnoc | commandline/src/commandline/combine_probes_circuits_to_scan_input.py:38-54 | a further line leaves the values alone when it does not parse, and otherwise sets its probe to its level |
| CombineProbes.ExtractedValuesBinary | commandline/src/commandline/combine_probes_circuits_to_scan_input.py:50-54 | every value read is 0 or 1 |
| CombineProbes.CommentLineIgnored | commandline/src/commandline/combine_probes_circuits_to_scan_input.py:40-41 | a line whose stripped text starts with `*` or `+` changes nothing |
| CombineProbes.LaterLineOverrides | commandline/src/commandline/combine_probes_circuits_to_scan_input.py:38-54 | a later line for probe p replaces whatever earlier lines set p to |
| CombineProbes.VddWinsOverVss | commandline/src/commandline/combine_probes_circuits_to_scan_input.py:51-54 | a source line mentioning both VDD and VSS sets its probe to 1 |
| CombineProbes.Reverse | commandline/src/commandline/combine_probes_circuits_to_scan_input.py:97 | `reversed`: same length, entry i is entry n - 1 - i of the input |
| CombineProbes.ReverseReverse | commandline/src/commandline/combine_probes_circuits_to_scan_input.py:97 | reversing twice gives the list back |
| CombineProbes.StoreProbes | commandline/src/commandline/combine_probes_circuits_to_scan_input.py:88-93 | the fill loop writes a fresh 2008-entry array, probe p at index p - 1, dropping out-of-range probes |
| CombineProbes.WriteReversed | commandline/src/commandline/combine_probes_circuits_to_scan_input.py:96-98 | the output loop emits the array's entries in reverse order |
| CombineProbes.SamePlacement | commandline/src/commandline/combine_probes_circuits_to_scan_input.py:93-97 | storing at p - 1 and reversing gives the same vector as placing at 2008 - p |
| CombineProbes.OppositePrecedence | commandline/src/commandline/combine_probes_circuits_to_scan_input.py:85 | on a probe both maps set to different values the two merge orders differ, and with disjoint keys they agree |
| CombineProbes.CombineProbeFiles | commandline/src/commandline/combine_probes_circuits_to_scan_input.py:80-98 | the output places the switch-matrix values overridden by the sizes values; 2008 bits, each 0 or 1 |
| ProbeLines.CommentLineParsesToNothing | commandline/src/commandline/combine_probes_circuits_to_scan_input.py:40-41 | a generated comment line parses to no write |
| ProbeLines.OtherLineParsesToNothing | commandline/src/commandline/combine_probes_circuits_to_scan_input.py:44 | a line starting with something other than blank or `V` parses to no write |
| ProbeLines.SkippedLineKeepsValues | commandline/src/commandline/combine_probes_circuits_to_scan_input.py:44 | such a line leaves the values read so far unchanged |
| ProbeLines.EndsLineKeepsValues | commandline/src/commandline/combine_probes_circuits_to_scan_input.py:44 | the `.ENDS` line changes nothing |
| ProbeLines.ProbeSourceProbe | commandline/src/commandline/combine_probes_circuits_to_scan_input.py:46-48 | in a generated source line the first `PROBE<digits>` is the generator's register |
| ProbeLines.ProbeSourceLevel | commandline/src/commandline/combine_probes_circuits_to_scan_input.py:51-54 | a generated line mentions VDD if and only if its level is VDD, and a VSS line mentions VSS |
| ProbeLines.ProbeSourceParses | commandline/src/commandline/combine_probes_circuits_to_scan_input.py:44-54 | a generated source line parses to (register, 1 for VDD / 0 for VSS) |
| ProbeLines.SearchFindsFirst | commandline/src/commandline/combine_probes_circuits_to_scan_input.py:46 | `re.search` returns the leftmost match: the match at m when no `PROBE<digits>` match starts before m |
| SwitchMatrixSubckt.EmitPin | commandline/src/commandline/generate_switch_matrix_probe_subckt.py:46-59 | an RBUS pin emits its comment and VDD source and marks its register, or nothing when a lookup fails |
| SwitchMatrixSubckt.EmitTerminal | commandline/src/commandline/generate_switch_matrix_probe_subckt.py:63-102 | an SBUS terminal emits its comment and its a and b sources and marks both registers, or nothing when a lookup fails |
| SwitchMatrixSubckt.EmitRbusPins | commandline/src/commandline/generate_switch_matrix_probe_subckt.py:46-59 | the pin loop's lines, and the registers it marks are those the scan-chain RBUS loop writes |
| SwitchMatrixSubckt.EmitSbusTerminals | commandline/src/commandline/generate_switch_matrix_probe_subckt.py:63-102 | the terminal loop's lines, and the registers it marks are those the scan-chain SBUS loop writes |
| SwitchMatrixSubckt.EmitBus | commandline/src/commandline/generate_switch_matrix_probe_subckt.py:44-102 | a member's lines by its key (RBUS, SBUS, or nothing) and the registers it marks |
| SwitchMatrixSubckt.EmitCircuit | commandline/src/commandline/generate_switch_matrix_probe_subckt.py:43-102 | the bus loop's lines, and its connected set is the set of registers the circuit resolves |
| SwitchMatrixSubckt.EmitDefaults | commandline/src/commandline/generate_switch_matrix_probe_subckt.py:105-107 | the fill loop emits the default lines for 1..1888 |
| SwitchMatrixSubckt.GenerateSwitchMatrixSubckt | commandline/src/commandline/generate_switch_matrix_probe_subckt.py:40-110 | the body is the connection lines, then the default lines, then `.ENDS` |
| SwitchMatrixSubckt.UnconnectedProbesAre | commandline/src/commandline/generate_switch_matrix_probe_subckt.py:105-106 | the filled probes are exactly those in 1..n that are not connected, in strictly ascending order |
| SwitchMatrixSubckt.DefaultLinesAre | commandline/src/commandline/generate_switch_matrix_probe_subckt.py:105-107 | default line i ties the i-th unconnected probe to VSS |
| SwitchMatrixSubckt.DefaultLineInjective | commandline/src/commandline/generate_switch_matrix_probe_subckt.py:107 | distinct probes get distinct default lines |
| SwitchMatrixSubckt.DefaultLineExactlyOnce | commandline/src/commandline/generate_switch_matrix_probe_subckt.py:104-107 | in the fill up to n (1888 in the generator) an unconnected probe has exactly one default line and a connected probe has none |
| SwitchMatrixSubckt.PinLinesRead | commandline/src/commandline/generate_switch_matrix_probe_subckt.py:57-58 | the combiner reads an RBUS pin's lines as the scan-chain generator's write for that pin |
| SwitchMatrixSubckt.TerminalLinesRead | commandline/src/commandline/generate_switch_matrix_probe_subckt.py:82-98 | the combiner reads a terminal's lines as the scan-chain generator's ON/PHI1/PHI2/OFF writes |
| SwitchMatrixSubckt.CircuitLinesRead | commandline/src/commandline/generate_switch_matrix_probe_subckt.py:43-102 | the connection lines read back as the scan-chain generator's switch-matrix writes, in order |
| SwitchMatrixSubckt.DefaultLinesRead | commandline/src/commandline/generate_switch_matrix_probe_subckt.py:105-107 | the default lines add a 0 for every unconnected probe in 1..n and change nothing else |
| SwitchMatrixSubckt.ConnectedAreSet | commandline/src/commandline/generate_switch_matrix_probe_subckt.py:59-102 | the connected set is exactly the set of registers the scan-chain generator sets |
| SwitchMatrixSubckt.SubcktReadsBack | commandline/src/commandline/generate_switch_matrix_probe_subckt.py:40-110 | the file reads back as the scan-chain generator's switch-matrix settings plus 0 for every other probe in 1..1888 |
| SizesSubckt.EmitBit | commandline/src/commandline/generate_sizes_probe_subckt.py:68-72 | a register's source ties it to VDD when its setting is 1, otherwise to VSS |
| SizesSubckt.EmitComment | commandline/src/commandline/generate_sizes_probe_subckt.py:65 | the device comment line |
| SizesSubckt.EmitBits | commandline/src/commandline/generate_sizes_probe_subckt.py:67-72 | the bit loop emits one source per bit key, in the order given |
| SizesSubckt.EmitDevice | commandline/src/commandline/generate_sizes_probe_subckt.py:65-73 | a device's group: comment, sources in bit order, blank line |
| SizesSubckt.EmitDevices | commandline/src/commandline/generate_sizes_probe_subckt.py:64-73 | the device loop emits the devices' groups one after the other |
| SizesSubckt.GenerateSizesSubckt | commandline/src/commandline/generate_sizes_probe_subckt.py:37-76 | the body is the groups of the devices in sorted name order, then `.ENDS` |
| SizesSubckt.SourcesAre | commandline/src/commandline/generate_sizes_probe_subckt.py:67-72 | one source line per listed bit, line i for the i-th bit's register |
| SizesSubckt.DeviceLinesShape | commandline/src/commandline/generate_sizes_probe_subckt.py:63-73 | a group has one line per table entry plus two: the comment with the raw, unclamped size, one source per register in ascending bit order, and a blank |
| SizesSubckt.DevicesLinesRead | commandline/src/commandline/generate_sizes_probe_subckt.py:64-73 | the groups read back as each register paired with its setting, in file order |
| SizesSubckt.SizesSubcktReadsBack | commandline/src/commandline/generate_sizes_probe_subckt.py:37-76 | the file reads back as exactly the sizing settings the scan-chain generator computes |
| SizesSubckt.SizesSubcktIgnoresUnlisted | commandline/src/commandline/generate_sizes_probe_subckt.py:37-76 | an entry for a device outside the register table, an empty list included, is accepted and leaves the file unchanged |
| SizesSubckt.GroupsReadBack | commandline/src/commandline/generate_sizes_probe_subckt.py:64-73 | the groups alone, in sorted device order, read back as the sizing settings |
| Order.SortedInts | commandline/src/commandline/generate_sizes_probe_subckt.py:47 | `sorted` on integer keys: each key once, strictly ascending |
| Order.SortedNames | commandline/src/commandline/generate_sizes_probe_subckt.py:64 | `sorted` on device names: each name once, strictly ascending in code-point order |
| NodesSubckt.EmitSupply | commandline/src/commandline/generate_nodes_subckt.py:39-54 | a supply loop's lines: comment and short to the supply pin for each known pin |
| NodesSubckt.EmitNodePins | commandline/src/commandline/generate_nodes_subckt.py:69-75 | a node's lines: comment and short to `NODE<k>` for each known pin |
| NodesSubckt.EmitMember | commandline/src/commandline/generate_nodes_subckt.py:57-75 | a member's lines: none for VDD, VSS or a key that does not read as a node number |
| NodesSubckt.EmitNodeSection | commandline/src/commandline/generate_nodes_subckt.py:57-75 | the node loop's lines in file order |
| NodesSubckt.GenerateNodesSubckt | commandline/src/commandline/generate_nodes_subckt.py:39-78 | the body is the VDD lines, the VSS lines, the node lines, then `.ENDS` |
| NodesSubckt.NodeNumberOfName | commandline/src/commandline/generate_nodes_subckt.py:63 | the key `NODE<k>` reads as node number k |
| NodesSubckt.NodeNumberOfNumeral | commandline/src/commandline/generate_nodes_subckt.py:63 | a bare numeral key k also reads as node number k |
| NodesSubckt.NodesSubcktPaired | commandline/src/commandline/generate_nodes_subckt.py:39-78 | the body is comment-then-short pairs followed by `.ENDS` |
| NodesSubckt.NodesSubcktConnects | commandline/src/commandline/generate_nodes_subckt.py:39-78 | read as SPICE, the file makes exactly the VDD, VSS and node connections the circuit asks for, in that order |
| NodesSubckt.NodeSectionShortsAre | commandline/src/commandline/generate_nodes_subckt.py:57-75 | the node shorts are exactly NODE<k> to the known pins of members whose key reads as k; VDD and VSS never yield a node |
| NodesSubckt.SuppliesShorted | commandline/src/commandline/generate_nodes_subckt.py:39-52 | every known VDD pin is shorted to pin<13> and every known VSS pin to pin<1> |
| PinsSubckt.EmitMember | commandline/src/commandline/generate_pins_to_RBUS_SBUS_subckt.py:38-55 | a member's lines, nothing when skipped, or the error Python raises |
| PinsSubckt.EmitBusSection | commandline/src/commandline/generate_pins_to_RBUS_SBUS_subckt.py:38-55 | the bus loop's lines, or the first member's error |
| PinsSubckt.EmitSwbus | commandline/src/commandline/generate_pins_to_RBUS_SBUS_subckt.py:59-67 | the SWBUS<k> line, or the error for a missing source pin |
| PinsSubckt.EmitSwbusSection | commandline/src/commandline/generate_pins_to_RBUS_SBUS_subckt.py:58-67 | the six SWBUS lines, or the first error |
| PinsSubckt.GeneratePinsSubckt | commandline/src/commandline/generate_pins_to_RBUS_SBUS_subckt.py:38-70 | the body is the bus lines, the SWBUS lines, then `.ENDS`, or the first error |
| PinsSubckt.BracketedRbus | commandline/src/commandline/generate_pins_to_RBUS_SBUS_subckt.py:43 | `RBUSk` becomes `RBUS<k>` when k has no `R` |
| PinsSubckt.MemberFails | commandline/src/commandline/generate_pins_to_RBUS_SBUS_subckt.py:40-49 | a member fails if and only if it is not skipped and has no selectable first pin |
| PinsSubckt.BusSectionFails | commandline/src/commandline/generate_pins_to_RBUS_SBUS_subckt.py:38-55 | the bus loop fails if and only if some unskipped member has an empty list or an unknown first pin |
| PinsSubckt.SwbusLinesFail | commandline/src/commandline/generate_pins_to_RBUS_SBUS_subckt.py:58-64 | the SWBUS loop fails if and only if one of its source pins is not in the pin table |
| PinsSubckt.PinsSubcktFails | commandline/src/commandline/generate_pins_to_RBUS_SBUS_subckt.py:38-70 | the generator fails if and only if a bus member has no selectable first pin or a SWBUS source pin is unknown |
| PinsSubckt.PinsSubcktShape | commandline/src/commandline/generate_pins_to_RBUS_SBUS_subckt.py:38-70 | on success: two lines per unskipped member, six SWBUS lines, and `.ENDS` last |
| PinsSubckt.PinsSubcktConnects | commandline/src/commandline/generate_pins_to_RBUS_SBUS_subckt.py:38-70 | read as SPICE: each bus to its first pin's chip pin, then SWBUS<1..6> to their source pins |
| PinsSubckt.SwbusShortIn | commandline/src/commandline/generate_pins_to_RBUS_SBUS_subckt.py:58-67 | a generated file shorts each SWBUS<k>, k in 1..6, to the pin of its source bus |
| PinsSubckt.SwbusSources | commandline/src/commandline/generate_pins_to_RBUS_SBUS_subckt.py:58-67 | a generated file shorts SWBUS<k> to the pin of SBUSk for k in 1..5, and SWBUS<6> to the pin of DATA_SBUS6 |
| ScanChainAgreement.CombinedValues | commandline/src/commandline/combine_probes_circuits_to_scan_input.py:80-85 | on the generated files the combiner merges the switch-matrix settings plus the VSS fill, overridden by the sizing settings |
| ScanChainAgreement.WritersAgreeWithoutOverlap | commandline/src/commandline/generate_scan_chain_input.py:155-171 | when no probe is set by both sources, the combiner on the generated files gives the generator's vector |
| ScanChainAgreement.WritersDisagreeOnConflict | commandline/src/commandline/generate_scan_chain_input.py:162 | for a probe set by both sources, the generator keeps the switch-matrix value and the combiner the sizing value |

## Left out

- File opening, reading and writing, JSON loading and `os.path` handling
  are left out. Tables, circuits and sizes are parameters; outputs are
  sequences of lines or bits.
- The timestamp and `From` header lines, and the template files' text, are
  left out. The timestamp is nondeterministic, and the templates are not
  part of this model.
- The `print` warnings are left out. A warning is modelled only as the entry
  being skipped.
- Every `main()` and its argparse handling are left out.
- The catch-all `except` of `extract_probe_values_from_file`, which turns an
  I/O error into an empty map, is left out with the I/O.
- Python's regular-expression engine is not modelled. The search for the
  first `PROBE<digits>` is written out by hand, with ASCII digits only.
- `int()` and `str.strip()` are modelled for ASCII digits and Python's
  whitespace set. Underscores in numerals and non-ASCII digits are not.
- A switch-matrix pin number is modelled as an integer. The JSON
  string/number distinction of generate_scan_chain_input.py:88-91, and a
  non-numeric string that would make `int()` raise, are not modelled.
- Register numbers in the tables are modelled as integers. A register
  stored as a JSON string is not distinguished from the number.
- A circuit member's value is modelled as a list of pin names or a list of
  SBUS terminal records. Other JSON values, such as a string (which the
  Python loops would iterate character by character) or an object, are not
  modelled.
- Inputs on which the Python code raises are excluded by requires:
  - an RBUS member that is not a pin list, or an SBUS member that is not a
    record list (`SwitchMatrixShaped`): indexing a record by `"terminal"`,
    or a pin name by a key, raises a TypeError;
  - a list of records under VDD, VSS or a key that reads as a node number
    (`NodesShaped`): looking a record up in the pin table raises a TypeError;
  - an empty sizes list under a device of the register table
    (`SizesReadable`, `SizeReadable`): `sizes.get(device, [0])[0]` raises an
    IndexError. Nothing in the generators checks the sizes file for this.
    Entries for devices outside the table are never read, so any value is
    accepted there (ScanChainInput.UnlistedDeviceIgnored,
    SizesSubckt.SizesSubcktIgnoresUnlisted).
- The sizes JSON is modelled as device -> list of integers, so a first
  element that is not an integer is not modelled.
- SwitchMatrixSubckt.SubcktReadsBack, SizesSubckt.SizesSubcktReadsBack and
  the ScanChainAgreement lemmas assume clean source names. They hold only
  when the name a generated source line starts with contains neither
  `PROBE<` nor `VDD`, and the probe registers are not negative
  (`CircuitClean`, `SizesClean`). A terminal named, say, `VDD_x` with an
  OFF connection would be read back as 1; that case is outside these
  lemmas.
- Repeated keys are not modelled. `json.load` keeps the last value of a
  repeated key, at the first occurrence's position. The model takes a
  circuit to be the key-distinct `items()` of the loaded object. Given a
  sequence with a repeated key, NodesSubckt.EmitNodeSection,
  SwitchMatrixSubckt.EmitCircuit, ScanChainInput.SwitchMatrixProbeValues
  and PinsSubckt.EmitBusSection process every occurrence, where Python
  would see only the last value. NodesSubckt's supply lookup takes the last
  VDD/VSS member, which agrees with Python either way.
- NodesSubckt.NodesSubcktConnects and PinsSubckt.PinsSubcktConnects assume
  pin and bus names without blanks (`PinNamesPlain`, `BusNamesPlain`), so
  that each source line splits into four fields.
- The sizes generator keeps its own `register_settings` dict without the
  `int()` conversion. It is modelled by the same settings function as the
  scan-chain generator, since the registers are integers in the table.
- commandline/src/commandline/test_installation.py, commandline/delete_setup.py
  and test_package/test_code/test_mosbiusv2tools.py are not part of this
  model. They are about installation, packaging and directory listing.
