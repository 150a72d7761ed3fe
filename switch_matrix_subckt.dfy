/**
 * generate_switch_matrix_probe_subckt.py: the SPICE sub-circuit that ties
 * every switch-matrix probe to VDD or VSS. Each resolvable RBUS pin gets a
 * comment and a source to VDD, each resolvable SBUS terminal a comment and
 * two sources set by the decode table, every probe from 1 to 1888 left
 * unconnected a source to VSS, and `.ENDS` closes the file.
 */
module SwitchMatrixSubckt {

  import opened Wrappers
  import opened Text
  import opened RegisterWrites
  import opened Circuits
  import opened ScanChainInput
  import opened CombineProbes
  import opened ProbeLines
  import Order

  /** The probes the default fill covers: 1 to 1888. */
  const SwitchProbeCount: nat := 1888

  /** The element name of the source that connects `pin` to RBUS `bus`. */
  function PinHead(pin: Name, bus: Name): string {
    "V" + pin + "_to_" + bus
  }

  /** The element name of the source that drives register `r` for SBUS terminal `terminal`. */
  function TerminalHead(r: int, terminal: Name): string {
    "V" + IntToString(r) + "_to_" + terminal
  }

  /** The lines of one RBUS pin: a comment and its source to VDD, or nothing when a lookup fails. */
  function PinLines(t: SwitchTables, bus: Name, pin: Name): seq<string> {
    match RbusRegister(t, bus, pin)
    case None => []
    case Some(r) =>
      ["* Connection: " + bus + ", Pin: " + pin + ", sw_matrix_pin: " + IntToString(t.pinToSw[pin]) +
       ", Register: " + IntToString(r),
       ProbeSource(PinHead(pin, bus), r, "VDD")]
  }

  /**
   * The lines of one SBUS terminal: a comment, then the sources of its a and
   * b registers at the decoded supplies; nothing when a lookup fails.
   */
  function TerminalLines(t: SwitchTables, bus: Name, e: Terminal): seq<string> {
    match SbusRegisters(t, bus, e.terminal)
    case None => []
    case Some(regs) =>
      ["* Connection: " + bus + ", Terminal: " + e.terminal + ", Connection Key: " + e.connection,
       ProbeSource(TerminalHead(regs.0, e.terminal), regs.0, Level(Decode(e.connection).0)),
       ProbeSource(TerminalHead(regs.1, e.terminal), regs.1, Level(Decode(e.connection).1))]
  }

  function PinLinesOf(t: SwitchTables, bus: Name, pins: seq<Name>): seq<string> {
    if pins == [] then []
    else PinLinesOf(t, bus, pins[..|pins| - 1]) + PinLines(t, bus, pins[|pins| - 1])
  }

  function TerminalLinesOf(t: SwitchTables, bus: Name, entries: seq<Terminal>): seq<string> {
    if entries == [] then []
    else TerminalLinesOf(t, bus, entries[..|entries| - 1]) + TerminalLines(t, bus, entries[|entries| - 1])
  }

  /** The lines of one circuit member: RBUS and SBUS members write lines, all others none. */
  function BusLines(t: SwitchTables, bus: Name, value: BusValue): seq<string>
    requires IsRbus(bus) ==> value.PinList?
    requires IsSbus(bus) ==> value.TerminalList?
  {
    if IsRbus(bus) then PinLinesOf(t, bus, value.pins)
    else if IsSbus(bus) then TerminalLinesOf(t, bus, value.entries)
    else []
  }

  /** The lines of the circuit members, in the file's order. */
  function CircuitLines(c: Circuit, t: SwitchTables): seq<string>
    requires SwitchMatrixShaped(c)
  {
    if c == [] then []
    else CircuitLines(c[..|c| - 1], t) + BusLines(t, c[|c| - 1].0, c[|c| - 1].1)
  }

  /** The probes the circuit lines connect: every register they tie to a supply. */
  function ConnectedProbes(c: Circuit, t: SwitchTables): set<int>
    requires SwitchMatrixShaped(c)
  {
    Written(SwitchWrites(c, t))
  }

  /** The default source that ties unconnected probe `p` to VSS. */
  function DefaultLine(p: int): string {
    ProbeSource("Vprobe_" + IntToString(p) + "_to_VSS", p, "VSS")
  }

  /** The default source of probe `p`, when `p` is not connected. */
  function DefaultLineFor(connected: set<int>, p: int): seq<string> {
    if p in connected then [] else [DefaultLine(p)]
  }

  /** The default sources for the probes 1 to `n` that are not in `connected`, lowest first. */
  function DefaultLines(connected: set<int>, n: nat): seq<string> {
    if n == 0 then []
    else DefaultLines(connected, n - 1) + DefaultLineFor(connected, n)
  }

  /** The body of the file after the template: circuit lines, default sources, `.ENDS`. */
  function SubcktLines(c: Circuit, t: SwitchTables): seq<string>
    requires SwitchMatrixShaped(c)
  {
    CircuitLines(c, t) + DefaultLines(ConnectedProbes(c, t), SwitchProbeCount) + [".ENDS"]
  }

  // ---------------------------------------------------------------------------
  // The generator
  // ---------------------------------------------------------------------------

  /** One pass of the RBUS pin loop: the pin's lines and the probe it connects. */
  method EmitPin(t: SwitchTables, bus: Name, pin: Name) returns (lines: seq<string>, connected: set<int>)
    ensures lines == PinLines(t, bus, pin)
    ensures connected == Written(PinWrite(t, bus, pin))
  {
    lines, connected := [], {};
    if pin in t.pinToSw {
      var swMatrixPin := t.pinToSw[pin];
      var register := RegisterOf(t, swMatrixPin, bus);
      if register.Some? {
        var r := register.value;
        lines := ["* Connection: " + bus + ", Pin: " + pin + ", sw_matrix_pin: " + IntToString(swMatrixPin) +
                  ", Register: " + IntToString(r),
                  ProbeSource("V" + pin + "_to_" + bus, r, "VDD")];
        connected := {r};
        assert PinWrite(t, bus, pin) == [(r, 1)];
      }
    }
  }

  /** One pass of the SBUS terminal loop: the terminal's lines and the probes it connects. */
  method EmitTerminal(t: SwitchTables, bus: Name, e: Terminal) returns (lines: seq<string>, connected: set<int>)
    ensures lines == TerminalLines(t, bus, e)
    ensures connected == Written(TerminalWrite(t, bus, e))
  {
    lines, connected := [], {};
    var sbusA := bus + "a";
    var sbusB := bus + "b";
    if e.terminal in t.pinToSw {
      var swMatrixPin := t.pinToSw[e.terminal];
      var registerA := RegisterOf(t, swMatrixPin, sbusA);
      var registerB := RegisterOf(t, swMatrixPin, sbusB);
      if registerA.Some? && registerB.Some? {
        var a, b := registerA.value, registerB.value;
        var supplyA, supplyB;
        if e.connection == "ON" {
          supplyA, supplyB := "VDD", "VDD";
        } else if e.connection == "PHI1" {
          supplyA, supplyB := "VDD", "VSS";
        } else if e.connection == "PHI2" {
          supplyA, supplyB := "VSS", "VDD";
        } else {
          supplyA, supplyB := "VSS", "VSS";
        }
        assert supplyA == Level(Decode(e.connection).0) && supplyB == Level(Decode(e.connection).1);
        lines := ["* Connection: " + bus + ", Terminal: " + e.terminal + ", Connection Key: " + e.connection,
                  ProbeSource("V" + IntToString(a) + "_to_" + e.terminal, a, supplyA),
                  ProbeSource("V" + IntToString(b) + "_to_" + e.terminal, b, supplyB)];
        connected := {a, b};
        assert TerminalWrite(t, bus, e) == [(a, Decode(e.connection).0), (b, Decode(e.connection).1)];
      }
    }
  }

  /** The RBUS branch: every pin of the member in order. */
  method EmitRbusPins(t: SwitchTables, bus: Name, pins: seq<Name>) returns (lines: seq<string>, connected: set<int>)
    ensures lines == PinLinesOf(t, bus, pins)
    ensures connected == Written(PinWrites(t, bus, pins))
  {
    lines, connected := [], {};
    var j := 0;
    while j < |pins|
      invariant 0 <= j <= |pins|
      invariant lines == PinLinesOf(t, bus, pins[..j])
      invariant connected == Written(PinWrites(t, bus, pins[..j]))
    {
      var pinLines, pinConnected := EmitPin(t, bus, pins[j]);
      assert pins[..j + 1][..j] == pins[..j];
      WrittenAppend(PinWrites(t, bus, pins[..j]), PinWrite(t, bus, pins[j]));
      lines := lines + pinLines;
      connected := connected + pinConnected;
      j := j + 1;
    }
    assert pins[..j] == pins;
  }

  /** The SBUS branch: every terminal record of the member in order. */
  method EmitSbusTerminals(t: SwitchTables, bus: Name, entries: seq<Terminal>) returns (lines: seq<string>, connected: set<int>)
    ensures lines == TerminalLinesOf(t, bus, entries)
    ensures connected == Written(TerminalWrites(t, bus, entries))
  {
    lines, connected := [], {};
    var j := 0;
    while j < |entries|
      invariant 0 <= j <= |entries|
      invariant lines == TerminalLinesOf(t, bus, entries[..j])
      invariant connected == Written(TerminalWrites(t, bus, entries[..j]))
    {
      var entryLines, entryConnected := EmitTerminal(t, bus, entries[j]);
      assert entries[..j + 1][..j] == entries[..j];
      WrittenAppend(TerminalWrites(t, bus, entries[..j]), TerminalWrite(t, bus, entries[j]));
      lines := lines + entryLines;
      connected := connected + entryConnected;
      j := j + 1;
    }
    assert entries[..j] == entries;
  }

  /** One pass of the member loop: RBUS and SBUS members emit lines, all others are skipped. */
  method EmitBus(t: SwitchTables, bus: Name, value: BusValue) returns (lines: seq<string>, connected: set<int>)
    requires IsRbus(bus) ==> value.PinList?
    requires IsSbus(bus) ==> value.TerminalList?
    ensures lines == BusLines(t, bus, value)
    ensures connected == Written(BusWrites(t, bus, value))
  {
    lines, connected := [], {};
    if IsRbus(bus) {
      lines, connected := EmitRbusPins(t, bus, value.pins);
    } else if IsSbus(bus) {
      lines, connected := EmitSbusTerminals(t, bus, value.entries);
    }
  }

  /** The loop over the circuit members, collecting the lines and the connected probes. */
  method EmitCircuit(c: Circuit, t: SwitchTables) returns (lines: seq<string>, connected: set<int>)
    requires SwitchMatrixShaped(c)
    ensures lines == CircuitLines(c, t)
    ensures connected == ConnectedProbes(c, t)
  {
    lines, connected := [], {};
    var i := 0;
    while i < |c|
      invariant 0 <= i <= |c|
      invariant SwitchMatrixShaped(c[..i])
      invariant lines == CircuitLines(c[..i], t)
      invariant connected == Written(SwitchWrites(c[..i], t))
    {
      var busLines, busConnected := EmitBus(t, c[i].0, c[i].1);
      CircuitStep(c, t, i);
      lines := lines + busLines;
      connected := connected + busConnected;
      i := i + 1;
    }
    assert c[..i] == c;
  }

  /** Walking one more circuit member appends its lines and connects its probes. */
  lemma CircuitStep(c: Circuit, t: SwitchTables, i: int)
    requires SwitchMatrixShaped(c)
    requires 0 <= i < |c|
    ensures SwitchMatrixShaped(c[..i]) && SwitchMatrixShaped(c[..i + 1])
    ensures CircuitLines(c[..i + 1], t) == CircuitLines(c[..i], t) + BusLines(t, c[i].0, c[i].1)
    ensures Written(SwitchWrites(c[..i + 1], t)) == Written(SwitchWrites(c[..i], t)) + Written(BusWrites(t, c[i].0, c[i].1))
  {
    assert c[..i + 1][..i] == c[..i];
    WrittenAppend(SwitchWrites(c[..i], t), BusWrites(t, c[i].0, c[i].1));
  }

  /** The default fill: probes 1 to 1888, a VSS source for each one not connected. */
  method EmitDefaults(connected: set<int>) returns (lines: seq<string>)
    ensures lines == DefaultLines(connected, SwitchProbeCount)
  {
    lines := [];
    var probe := 1;
    while probe <= SwitchProbeCount
      invariant 1 <= probe <= SwitchProbeCount + 1
      invariant lines == DefaultLines(connected, probe - 1)
    {
      if probe !in connected {
        lines := lines + [DefaultLine(probe)];
      }
      probe := probe + 1;
    }
  }

  /**
   * `generate_switch_matrix_probe_subckt` after the header and template: the
   * circuit lines, the default VSS sources, `.ENDS`.
   */
  method GenerateSwitchMatrixSubckt(c: Circuit, t: SwitchTables) returns (lines: seq<string>)
    requires SwitchMatrixShaped(c)
    ensures lines == SubcktLines(c, t)
  {
    var connectedProbes;
    lines, connectedProbes := EmitCircuit(c, t);
    var defaults := EmitDefaults(connectedProbes);
    lines := lines + defaults + [".ENDS"];
  }

  // ---------------------------------------------------------------------------
  // The default fill
  // ---------------------------------------------------------------------------

  /** The probes 1 to `n` that are not in `connected`, lowest first. */
  function UnconnectedProbes(connected: set<int>, n: nat): seq<int> {
    if n == 0 then []
    else UnconnectedProbes(connected, n - 1) + (if n in connected then [] else [n])
  }

  /** The unconnected probes are those of 1 to `n` outside `connected`, in strictly ascending order. */
  lemma {:induction false} UnconnectedProbesAre(connected: set<int>, n: nat)
    ensures forall p :: p in UnconnectedProbes(connected, n) <==> 1 <= p <= n && p !in connected
    ensures Order.StrictlyIncreasing(UnconnectedProbes(connected, n))
    decreases n
  {
    if n > 0 {
      UnconnectedProbesAre(connected, n - 1);
      var ps := UnconnectedProbes(connected, n - 1);
      var qs := UnconnectedProbes(connected, n);
      assert qs == ps + (if n in connected then [] else [n]);
      forall i, j | 0 <= i < j < |qs|
        ensures qs[i] < qs[j]
      {
        assert qs[i] == ps[i] && ps[i] in ps;
        if j < |ps| {
          assert qs[j] == ps[j];
        }
      }
    }
  }

  /**
   * The default sources are, in order, the VSS sources of the probes 1 to
   * `n` left unconnected, lowest probe first.
   */
  lemma {:induction false} DefaultLinesAre(connected: set<int>, n: nat)
    ensures |DefaultLines(connected, n)| == |UnconnectedProbes(connected, n)|
    ensures forall i :: 0 <= i < |DefaultLines(connected, n)| ==>
      DefaultLines(connected, n)[i] == DefaultLine(UnconnectedProbes(connected, n)[i])
    decreases n
  {
    if n > 0 {
      DefaultLinesAre(connected, n - 1);
      var lines, ps := DefaultLines(connected, n - 1), UnconnectedProbes(connected, n - 1);
      assert DefaultLines(connected, n) == lines + DefaultLineFor(connected, n);
      assert UnconnectedProbes(connected, n) == ps + (if n in connected then [] else [n]);
    }
  }

  /** The probe a default source ties to VSS can be read off the source, so distinct probes get distinct lines. */
  lemma DefaultLineInjective(p: int, q: int)
    requires 0 <= p && 0 <= q
    requires DefaultLine(p) == DefaultLine(q)
    ensures p == q
  {
    DefaultHeadClean(p);
    DefaultHeadClean(q);
    ProbeSourceProbe("Vprobe_" + IntToString(p) + "_to_VSS", p, "VSS");
    ProbeSourceProbe("Vprobe_" + IntToString(q) + "_to_VSS", q, "VSS");
  }

  /**
   * Every probe from 1 to `n` (1888 in the generator) left out of the
   * connected set gets exactly one default VSS source, and a connected probe
   * gets none, even when an SBUS terminal drives it to VSS.
   */
  lemma DefaultLineExactlyOnce(connected: set<int>, n: nat, p: int)
    requires 1 <= p <= n
    ensures var lines := DefaultLines(connected, n);
      (p in connected ==> forall i :: 0 <= i < |lines| ==> lines[i] != DefaultLine(p)) &&
      (p !in connected ==> exists i :: 0 <= i < |lines| && lines[i] == DefaultLine(p) &&
                                       forall j :: 0 <= j < |lines| && lines[j] == DefaultLine(p) ==> j == i)
  {
    var lines := DefaultLines(connected, n);
    var ps := UnconnectedProbes(connected, n);
    UnconnectedProbesAre(connected, n);
    DefaultLinesAre(connected, n);
    forall j | 0 <= j < |lines| && lines[j] == DefaultLine(p)
      ensures ps[j] == p
    {
      assert ps[j] in ps;
      DefaultLineInjective(ps[j], p);
    }
    if p !in connected {
      var i :| 0 <= i < |ps| && ps[i] == p;
      forall j | 0 <= j < |lines| && lines[j] == DefaultLine(p)
        ensures j == i
      {
        IncreasingAtMostOnce(ps, i, j);
      }
    }
  }

  /** A strictly increasing sequence holds each value at one index at most. */
  lemma IncreasingAtMostOnce(ps: seq<int>, i: int, j: int)
    requires Order.StrictlyIncreasing(ps)
    requires 0 <= i < |ps| && 0 <= j < |ps| && ps[i] == ps[j]
    ensures i == j
  {
  }

  // ---------------------------------------------------------------------------
  // Reading the file back
  // ---------------------------------------------------------------------------

  /** The source of an RBUS pin that resolves has a clean name and a non-negative probe. */
  ghost predicate PinClean(t: SwitchTables, bus: Name, pin: Name) {
    match RbusRegister(t, bus, pin)
    case None => true
    case Some(r) => 0 <= r && CleanHead(PinHead(pin, bus))
  }

  /** The two sources of an SBUS terminal that resolves have clean names and non-negative probes. */
  ghost predicate TerminalClean(t: SwitchTables, bus: Name, e: Terminal) {
    match SbusRegisters(t, bus, e.terminal)
    case None => true
    case Some(regs) =>
      0 <= regs.0 && 0 <= regs.1 &&
      CleanHead(TerminalHead(regs.0, e.terminal)) && CleanHead(TerminalHead(regs.1, e.terminal))
  }

  /** Every source the circuit lines hold has a clean name and a non-negative probe. */
  ghost predicate CircuitClean(c: Circuit, t: SwitchTables) {
    forall i :: 0 <= i < |c| ==>
      (IsRbus(c[i].0) && c[i].1.PinList? ==> forall pin :: pin in c[i].1.pins ==> PinClean(t, c[i].0, pin)) &&
      (IsSbus(c[i].0) && c[i].1.TerminalList? ==> forall e :: e in c[i].1.entries ==> TerminalClean(t, c[i].0, e))
  }

  /** The writes of one line, read back: a comment reads as nothing. */
  lemma CommentWrites(line: string)
    requires line != [] && line[0] == '*'
    ensures LineWrite(line) == []
  {
    CommentLineParsesToNothing(line);
  }

  /** A probe source with a clean name reads back as its probe tied to the level's value. */
  lemma SourceWrites(head: string, r: int, v: int)
    requires CleanHead(head) && 0 <= r && (v == 0 || v == 1)
    ensures LineWrite(ProbeSource(head, r, Level(v))) == [(r, v)]
  {
    ProbeSourceParses(head, r, Level(v));
  }

  /** The lines of a resolvable RBUS pin read back as the write the pin makes. */
  lemma PinLinesRead(t: SwitchTables, bus: Name, pin: Name)
    requires PinClean(t, bus, pin)
    ensures LineWrites(PinLines(t, bus, pin)) == PinWrite(t, bus, pin)
  {
    match RbusRegister(t, bus, pin)
    case None =>
    case Some(r) =>
      var comment := "* Connection: " + bus + ", Pin: " + pin + ", sw_matrix_pin: " + IntToString(t.pinToSw[pin]) +
                     ", Register: " + IntToString(r);
      var source := ProbeSource(PinHead(pin, bus), r, "VDD");
      assert PinLines(t, bus, pin) == [comment, source];
      CommentWrites(comment);
      SourceWrites(PinHead(pin, bus), r, 1);
      LineWritesTwo(comment, source, (r, 1));
  }

  /** The lines of a resolvable SBUS terminal read back as the writes the terminal makes. */
  lemma TerminalLinesRead(t: SwitchTables, bus: Name, e: Terminal)
    requires TerminalClean(t, bus, e)
    ensures LineWrites(TerminalLines(t, bus, e)) == TerminalWrite(t, bus, e)
  {
    match SbusRegisters(t, bus, e.terminal)
    case None =>
    case Some(regs) =>
      var va, vb := Decode(e.connection).0, Decode(e.connection).1;
      assert (va == 0 || va == 1) && (vb == 0 || vb == 1);
      var headA, headB := TerminalHead(regs.0, e.terminal), TerminalHead(regs.1, e.terminal);
      assert 0 <= regs.0 && 0 <= regs.1 && CleanHead(headA) && CleanHead(headB);
      var comment := "* Connection: " + bus + ", Terminal: " + e.terminal + ", Connection Key: " + e.connection;
      var sourceA := ProbeSource(headA, regs.0, Level(va));
      var sourceB := ProbeSource(headB, regs.1, Level(vb));
      assert TerminalLines(t, bus, e) == [comment, sourceA, sourceB];
      CommentWrites(comment);
      SourceWrites(headA, regs.0, va);
      SourceWrites(headB, regs.1, vb);
      LineWritesThree(comment, sourceA, sourceB, (regs.0, va), (regs.1, vb));
      assert TerminalWrite(t, bus, e) == [(regs.0, va), (regs.1, vb)];
  }

  lemma {:induction false} PinLinesOfRead(t: SwitchTables, bus: Name, pins: seq<Name>)
    requires forall pin :: pin in pins ==> PinClean(t, bus, pin)
    ensures LineWrites(PinLinesOf(t, bus, pins)) == PinWrites(t, bus, pins)
    decreases |pins|
  {
    if pins != [] {
      var init, last := pins[..|pins| - 1], pins[|pins| - 1];
      assert forall pin :: pin in init ==> pin in pins;
      PinLinesOfRead(t, bus, init);
      PinLinesRead(t, bus, last);
      LineWritesAppend(PinLinesOf(t, bus, init), PinLines(t, bus, last));
    }
  }

  lemma {:induction false} TerminalLinesOfRead(t: SwitchTables, bus: Name, entries: seq<Terminal>)
    requires forall e :: e in entries ==> TerminalClean(t, bus, e)
    ensures LineWrites(TerminalLinesOf(t, bus, entries)) == TerminalWrites(t, bus, entries)
    decreases |entries|
  {
    if entries != [] {
      var init, last := entries[..|entries| - 1], entries[|entries| - 1];
      assert forall e :: e in init ==> e in entries;
      TerminalLinesOfRead(t, bus, init);
      TerminalLinesRead(t, bus, last);
      LineWritesAppend(TerminalLinesOf(t, bus, init), TerminalLines(t, bus, last));
    }
  }

  /** The circuit lines read back as exactly the writes `get_switch_matrix_probe_values` performs. */
  lemma {:induction false} CircuitLinesRead(c: Circuit, t: SwitchTables)
    requires SwitchMatrixShaped(c) && CircuitClean(c, t)
    ensures LineWrites(CircuitLines(c, t)) == SwitchWrites(c, t)
    decreases |c|
  {
    if c != [] {
      var init := c[..|c| - 1];
      var (bus, value) := c[|c| - 1];
      assert SwitchMatrixShaped(init) && CircuitClean(init, t) by {
        forall i | 0 <= i < |init|
          ensures init[i] == c[i]
        {
        }
      }
      CircuitLinesRead(init, t);
      if IsRbus(bus) {
        PinLinesOfRead(t, bus, value.pins);
      } else if IsSbus(bus) {
        TerminalLinesOfRead(t, bus, value.entries);
      }
      LineWritesAppend(CircuitLines(init, t), BusLines(t, bus, value));
    }
  }

  /** Probes 1 to `n` that are not in `connected`, each tied to 0. */
  function ZeroFill(connected: set<int>, n: nat): Settings {
    map p | 1 <= p <= n && p !in connected :: 0
  }

  /** The name of a default source is clean: it has no capital P and no D. */
  lemma DefaultHeadClean(p: int)
    requires 0 <= p
    ensures CleanHead("Vprobe_" + IntToString(p) + "_to_VSS")
  {
    var digits := IntToString(p);
    var head := "Vprobe_" + digits + "_to_VSS";
    DigitsLack(digits, 'P');
    DigitsLack(digits, 'D');
    LacksConcat("Vprobe_", digits, 'P');
    LacksConcat("Vprobe_" + digits, "_to_VSS", 'P');
    LacksConcat("Vprobe_", digits, 'D');
    LacksConcat("Vprobe_" + digits, "_to_VSS", 'D');
    NotContainsWithoutChar(head, ProbeTag, 0);
    NotContainsWithoutChar(head, "VDD", 1);
  }

  /** The write of 0 that the default source of probe `p` makes, when `p` is not connected. */
  function ZeroWriteFor(connected: set<int>, p: int): seq<Write> {
    if p in connected then [] else [(p, 0)]
  }

  /** The default source of probe `n`, if any, reads back as a write of 0 to `n`. */
  lemma DefaultLineRead(connected: set<int>, n: nat)
    requires 1 <= n
    ensures LineWrites(DefaultLineFor(connected, n)) == ZeroWriteFor(connected, n)
  {
    if n !in connected {
      DefaultHeadClean(n);
      SourceWrites("Vprobe_" + IntToString(n) + "_to_VSS", n, 0);
      LineWritesSnoc([], DefaultLine(n));
    }
  }

  /** Filling no probes adds nothing. */
  lemma ZeroFillEmpty(s: Settings, connected: set<int>)
    ensures s + ZeroFill(connected, 0) == s
  {
    assert ZeroFill(connected, 0) == map[];
  }

  /** Adding probe `n` to the fill is a write of 0 to it, unless `n` is connected. */
  lemma ZeroFillStep(s: Settings, connected: set<int>, n: nat)
    requires 1 <= n
    ensures Apply(s + ZeroFill(connected, n - 1), ZeroWriteFor(connected, n)) == s + ZeroFill(connected, n)
  {
    if n !in connected {
      ApplySnoc(s + ZeroFill(connected, n - 1), [], (n, 0));
      assert ZeroFill(connected, n) == ZeroFill(connected, n - 1)[n := 0];
    } else {
      assert ZeroFill(connected, n) == ZeroFill(connected, n - 1);
    }
  }

  /** The writes of 0 the default sources for probes 1 to `n` make, lowest first. */
  function ZeroWrites(connected: set<int>, n: nat): seq<Write> {
    if n == 0 then [] else ZeroWrites(connected, n - 1) + ZeroWriteFor(connected, n)
  }

  /**
   * The default sources for probes 1 to `n` gathered by any line reader `f`
   * that reads each probe's default source as its write of 0.
   */
  lemma {:induction false} GatherDefaultLines(f: string -> seq<Write>, connected: set<int>, n: nat)
    requires forall k :: 1 <= k <= n ==> Gather(f, DefaultLineFor(connected, k)) == ZeroWriteFor(connected, k)
    ensures Gather(f, DefaultLines(connected, n)) == ZeroWrites(connected, n)
    decreases n
  {
    if n > 0 {
      GatherDefaultLines(f, connected, n - 1);
      GatherAppend(f, DefaultLines(connected, n - 1), DefaultLineFor(connected, n));
    }
  }

  /** The default sources for probes 1 to `n` read back as writes of 0 to the unconnected ones. */
  lemma DefaultLinesWrites(connected: set<int>, n: nat)
    ensures LineWrites(DefaultLines(connected, n)) == ZeroWrites(connected, n)
  {
    forall k | 1 <= k <= n
      ensures Gather(LineWrite, DefaultLineFor(connected, k)) == ZeroWriteFor(connected, k)
    {
      DefaultLineRead(connected, k);
    }
    GatherDefaultLines(LineWrite, connected, n);
  }

  /** Writing 0 to the unconnected probes 1 to `n` adds them, as 0, to whatever came before. */
  lemma {:induction false} ZeroWritesFill(s: Settings, connected: set<int>, n: nat)
    ensures Apply(s, ZeroWrites(connected, n)) == s + ZeroFill(connected, n)
    decreases n
  {
    if n == 0 {
      ZeroFillEmpty(s, connected);
    } else {
      ZeroWritesFill(s, connected, n - 1);
      ApplyAppend(s, ZeroWrites(connected, n - 1), ZeroWriteFor(connected, n));
      ZeroFillStep(s, connected, n);
    }
  }

  /** The default sources read back as 0 for every probe 1 to `n` not connected, over whatever came before. */
  lemma DefaultLinesRead(s: Settings, connected: set<int>, n: nat)
    ensures Apply(s, LineWrites(DefaultLines(connected, n))) == s + ZeroFill(connected, n)
  {
    DefaultLinesWrites(connected, n);
    ZeroWritesFill(s, connected, n);
  }

  /** The connected probes are exactly the registers `get_switch_matrix_probe_values` sets. */
  lemma ConnectedAreSet(c: Circuit, t: SwitchTables)
    requires SwitchMatrixShaped(c)
    ensures ConnectedProbes(c, t) == SwitchMatrixValues(c, t).Keys
  {
    ApplyKeys(map[], SwitchWrites(c, t));
  }

  /**
   * Reading the generated file back gives the switch-matrix register
   * settings, plus 0 for every probe from 1 to 1888 the circuit leaves
   * unconnected: the file and `get_switch_matrix_probe_values` agree.
   */
  lemma SubcktReadsBack(c: Circuit, t: SwitchTables)
    requires SwitchMatrixShaped(c) && CircuitClean(c, t)
    ensures ExtractedValues(SubcktLines(c, t)) ==
      SwitchMatrixValues(c, t) + ZeroFill(SwitchMatrixValues(c, t).Keys, SwitchProbeCount)
  {
    var circuit := CircuitLines(c, t);
    var defaults := DefaultLines(ConnectedProbes(c, t), SwitchProbeCount);
    CircuitLinesRead(c, t);
    ConnectedAreSet(c, t);
    ExtractedValuesAppend(circuit, defaults);
    DefaultLinesRead(SwitchMatrixValues(c, t), ConnectedProbes(c, t), SwitchProbeCount);
    EndsLineKeepsValues(circuit + defaults);
  }
}
