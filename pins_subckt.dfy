/**
 * generate_pins_to_RBUS_SBUS_subckt.py: the SPICE sub-circuit that shorts
 * each bus of a circuit to the chip pin of the first pin it lists, then the
 * six SWBUS nets to their fixed source pins. Members whose key starts with
 * SBUS or NODE are skipped; every other member is a bus whose name has
 * "RBUS" rewritten to "RBUS<" and gets a closing ">". An empty pin list or
 * a pin the pin table lacks stops the generator with an error.
 */
module PinsSubckt {

  import opened Wrappers
  import opened Text
  import opened Circuits
  import opened Spice

  /** The number of SWBUS nets. */
  const SwbusCount: nat := 6

  /** Why the generator stops: the Python exception each case raises. */
  datatype PinsError =
    | EmptyPinList(bus: Name)   // IndexError on `pins[0]`
    | RecordAsPin(bus: Name)    // TypeError: an SBUS-style record list under a bus key
    | UnknownPin(pin: Name)     // KeyError on `pin_mapping[...]`

  /** Members the bus loop skips: SBUS members (handled by the SWBUS loop) and NODE members. */
  predicate IsSkipped(bus: Name) {
    StartsWith(bus, "SBUS") || StartsWith(bus, "NODE")
  }

  /** `bus.replace("RBUS", "RBUS<") + ">"`. */
  function Bracketed(bus: Name): string {
    Replace(bus, "RBUS", "RBUS<") + ">"
  }

  /** `pins[0]` and its chip pin `int(pin_mapping[pins[0]])`, or the error Python raises. */
  function SelectedPin(pins: PinTable, bus: Name, value: BusValue): Result<(Name, int), PinsError> {
    match value
    case TerminalList(entries) => if entries == [] then Failure(EmptyPinList(bus)) else Failure(RecordAsPin(bus))
    case PinList(names) =>
      if names == [] then Failure(EmptyPinList(bus))
      else if names[0] !in pins then Failure(UnknownPin(names[0]))
      else Success((names[0], pins[names[0]]))
  }

  /** The source that shorts the bus to chip pin `n`, then the comment naming the selected pin. */
  function BusPairLines(bus: Name, pin: Name, n: int): seq<string> {
    [ShortLine("V" + bus + "_to_pin" + IntToString(n), Bracketed(bus), PinNode(n)),
     "* " + bus + " connected to " + pin + " (" + PinNode(n) + ")"]
  }

  /** The lines of one member: none when skipped, the pair of its first pin, or an error. */
  function MemberLines(pins: PinTable, bus: Name, value: BusValue): Result<seq<string>, PinsError> {
    if IsSkipped(bus) then Success([])
    else
      match SelectedPin(pins, bus, value)
      case Failure(e) => Failure(e)
      case Success(sel) => Success(BusPairLines(bus, sel.0, sel.1))
  }

  /** The bus section: the members' lines in the file's order, or the first member's error. */
  function BusSection(pins: PinTable, c: Circuit): Result<seq<string>, PinsError> {
    if c == [] then Success([])
    else
      match BusSection(pins, c[..|c| - 1])
      case Failure(e) => Failure(e)
      case Success(lines) =>
        match MemberLines(pins, c[|c| - 1].0, c[|c| - 1].1)
        case Failure(e) => Failure(e)
        case Success(more) => Success(lines + more)
  }

  /** The pin-table key that feeds SWBUS<k>: SBUS1 to SBUS5, and DATA_SBUS6 for the sixth. */
  function SwbusSource(k: int): Name {
    if k == 6 then "DATA_SBUS6" else "SBUS" + IntToString(k)
  }

  /** The net `SWBUS<k>`. */
  function SwbusNode(k: int): string {
    "SWBUS<" + IntToString(k) + ">"
  }

  /** The source that shorts SWBUS<k> to the chip pin of its source, or the KeyError. */
  function SwbusLine(pins: PinTable, k: int): Result<string, PinsError> {
    var source := SwbusSource(k);
    if source in pins then
      Success(ShortLine("V" + source + "_to_pin" + IntToString(pins[source]), SwbusNode(k), PinNode(pins[source])))
    else Failure(UnknownPin(source))
  }

  /** The lines `line(1)` to `line(n)` in order, or the first of their errors. */
  function Numbered(line: int -> Result<string, PinsError>, n: nat): Result<seq<string>, PinsError> {
    if n == 0 then Success([])
    else
      match Numbered(line, n - 1)
      case Failure(e) => Failure(e)
      case Success(lines) =>
        match line(n)
        case Failure(e) => Failure(e)
        case Success(l) => Success(lines + [l])
  }

  /** The source line of SWBUS<k>, as a function of `k`. */
  function SwbusLineOf(pins: PinTable): int -> Result<string, PinsError> {
    k => SwbusLine(pins, k)
  }

  /** The sources of SWBUS<1> to SWBUS<n>, or the first error. */
  function SwbusLines(pins: PinTable, n: nat): Result<seq<string>, PinsError> {
    Numbered(SwbusLineOf(pins), n)
  }

  /** The body of the file after the header and template, or the error that stops the generator. */
  function PinsSubcktLines(pins: PinTable, c: Circuit): Result<seq<string>, PinsError> {
    match BusSection(pins, c)
    case Failure(e) => Failure(e)
    case Success(busLines) =>
      match SwbusLines(pins, SwbusCount)
      case Failure(e) => Failure(e)
      case Success(swbusLines) => Success(busLines + swbusLines + [".ENDS"])
  }

  // ---------------------------------------------------------------------------
  // The generator
  // ---------------------------------------------------------------------------

  /** One pass of the bus loop. */
  method EmitMember(pins: PinTable, bus: Name, value: BusValue) returns (r: Result<seq<string>, PinsError>)
    ensures r == MemberLines(pins, bus, value)
  {
    if StartsWith(bus, "SBUS") || StartsWith(bus, "NODE") {
      return Success([]);
    }
    var busWithBrackets := Replace(bus, "RBUS", "RBUS<") + ">";
    if value.TerminalList? {
      return if value.entries == [] then Failure(EmptyPinList(bus)) else Failure(RecordAsPin(bus));
    }
    if value.pins == [] {
      return Failure(EmptyPinList(bus));
    }
    var selectedPin := value.pins[0];
    if selectedPin !in pins {
      return Failure(UnknownPin(selectedPin));
    }
    var pinNumber := pins[selectedPin];
    r := Success([ShortLine("V" + bus + "_to_pin" + IntToString(pinNumber), busWithBrackets, PinNode(pinNumber)),
                  "* " + bus + " connected to " + selectedPin + " (" + PinNode(pinNumber) + ")"]);
  }

  /** Walking one more member of a section that has not failed. */
  lemma BusSectionStep(pins: PinTable, c: Circuit, i: int)
    requires 0 <= i < |c|
    ensures BusSection(pins, c[..i + 1]) ==
      match BusSection(pins, c[..i])
      case Failure(e) => Failure(e)
      case Success(lines) =>
        match MemberLines(pins, c[i].0, c[i].1)
        case Failure(e) => Failure(e)
        case Success(more) => Success(lines + more)
  {
    assert c[..i + 1][..i] == c[..i];
  }

  /** The bus loop; the first error ends it. */
  method EmitBusSection(pins: PinTable, c: Circuit) returns (r: Result<seq<string>, PinsError>)
    ensures r == BusSection(pins, c)
  {
    var lines := [];
    var i := 0;
    while i < |c|
      invariant 0 <= i <= |c|
      invariant BusSection(pins, c[..i]) == Success(lines)
    {
      var member := EmitMember(pins, c[i].0, c[i].1);
      BusSectionStep(pins, c, i);
      if member.Failure? {
        BusSectionFailureSticks(pins, c, i + 1);
        return Failure(member.error);
      }
      lines := lines + member.value;
      i := i + 1;
    }
    assert c[..i] == c;
    r := Success(lines);
  }

  /** Once a prefix of the circuit fails, the whole section fails with the same error. */
  lemma {:induction false} BusSectionFailureSticks(pins: PinTable, c: Circuit, i: int)
    requires 0 <= i <= |c|
    requires BusSection(pins, c[..i]).Failure?
    ensures BusSection(pins, c) == BusSection(pins, c[..i])
    decreases |c| - i
  {
    if i < |c| {
      BusSectionStep(pins, c, i);
      BusSectionFailureSticks(pins, c, i + 1);
    } else {
      assert c[..i] == c;
    }
  }

  /** One pass of the SWBUS loop. */
  method EmitSwbus(pins: PinTable, k: int) returns (r: Result<string, PinsError>)
    ensures r == SwbusLine(pins, k)
  {
    var bus;
    if k == 6 {
      bus := "DATA_SBUS6";
    } else {
      bus := "SBUS" + IntToString(k);
    }
    var busWithBrackets := "SWBUS<" + IntToString(k) + ">";
    if bus !in pins {
      return Failure(UnknownPin(bus));
    }
    var pinNumber := pins[bus];
    r := Success(ShortLine("V" + bus + "_to_pin" + IntToString(pinNumber), busWithBrackets, PinNode(pinNumber)));
  }

  /** Once the lines up to `k` fail, all of them fail with the same error. */
  lemma {:induction false} NumberedFailureSticks(line: int -> Result<string, PinsError>, k: nat, n: nat)
    requires k <= n
    requires Numbered(line, k).Failure?
    ensures Numbered(line, n) == Numbered(line, k)
    decreases n - k
  {
    if k < n {
      NumberedFailureSticks(line, k, n - 1);
    }
  }

  /** The SWBUS loop, `for sbus in range(1, 7)`; the first error ends it. */
  method EmitSwbusSection(pins: PinTable) returns (r: Result<seq<string>, PinsError>)
    ensures r == SwbusLines(pins, SwbusCount)
  {
    var lines := [];
    var k := 1;
    while k <= SwbusCount
      invariant 1 <= k <= SwbusCount + 1
      invariant SwbusLines(pins, k - 1) == Success(lines)
    {
      var line := EmitSwbus(pins, k);
      if line.Failure? {
        NumberedFailureSticks(SwbusLineOf(pins), k, SwbusCount);
        return Failure(line.error);
      }
      lines := lines + [line.value];
      k := k + 1;
    }
    r := Success(lines);
  }

  /**
   * `generate_pins_to_RBUS_SBUS_subckt` after the header and template: the
   * bus section, the six SWBUS sources, `.ENDS`; or the error that stops it
   * before anything is written.
   */
  method GeneratePinsSubckt(pins: PinTable, c: Circuit) returns (r: Result<seq<string>, PinsError>)
    ensures r == PinsSubcktLines(pins, c)
  {
    var busLines := EmitBusSection(pins, c);
    if busLines.Failure? {
      return Failure(busLines.error);
    }
    var swbusLines := EmitSwbusSection(pins);
    if swbusLines.Failure? {
      return Failure(swbusLines.error);
    }
    r := Success(busLines.value + swbusLines.value + [".ENDS"]);
  }

  // ---------------------------------------------------------------------------
  // Properties
  // ---------------------------------------------------------------------------

  /** A bus named RBUSk, with no R in k, becomes RBUS<k>. */
  lemma BracketedRbus(k: string)
    requires Lacks(k, 'R')
    ensures Bracketed("RBUS" + k) == "RBUS<" + k + ">"
  {
    var bus := "RBUS" + k;
    assert bus[..4] == "RBUS" && bus[4..] == k;
    NotContainsWithoutChar(k, "RBUS", 0);
    assert Replace(bus, "RBUS", "RBUS<") == "RBUS<" + k;
  }

  /** Member `i` is a bus whose first pin cannot be resolved. */
  predicate BadMember(pins: PinTable, c: Circuit, i: int)
    requires 0 <= i < |c|
  {
    !IsSkipped(c[i].0) && SelectedPin(pins, c[i].0, c[i].1).Failure?
  }

  /** A member's lines fail exactly when it is a bus whose first pin cannot be resolved. */
  lemma MemberFails(pins: PinTable, bus: Name, value: BusValue)
    ensures MemberLines(pins, bus, value).Failure? <==> !IsSkipped(bus) && SelectedPin(pins, bus, value).Failure?
  {
  }

  /** The bus section fails exactly when some bus member has no resolvable first pin. */
  lemma {:induction false} BusSectionFails(pins: PinTable, c: Circuit)
    ensures BusSection(pins, c).Failure? <==> exists i :: 0 <= i < |c| && BadMember(pins, c, i)
    decreases |c|
  {
    if c != [] {
      var init := c[..|c| - 1];
      var last := |c| - 1;
      BusSectionFails(pins, init);
      MemberFails(pins, c[last].0, c[last].1);
      assert forall i :: 0 <= i < |init| ==> (BadMember(pins, init, i) <==> BadMember(pins, c, i));
      if BusSection(pins, c).Failure? {
        if BusSection(pins, init).Failure? {
          var i :| 0 <= i < |init| && BadMember(pins, init, i);
          assert BadMember(pins, c, i);
        } else {
          assert BadMember(pins, c, last);
        }
      }
      if exists i :: 0 <= i < |c| && BadMember(pins, c, i) {
        var i :| 0 <= i < |c| && BadMember(pins, c, i);
        if i < |init| {
          assert BadMember(pins, init, i);
        }
      }
    }
  }

  /** The source of SWBUS<k> fails exactly when the pin table lacks its source. */
  lemma SwbusLineFails(pins: PinTable, k: int)
    ensures SwbusLine(pins, k).Failure? <==> SwbusSource(k) !in pins
  {
  }

  /** Numbered lines fail exactly when one of them does. */
  lemma {:induction false} NumberedFail(line: int -> Result<string, PinsError>, n: nat)
    ensures Numbered(line, n).Failure? <==> exists k :: 1 <= k <= n && line(k).Failure?
    decreases n
  {
    if n > 0 {
      NumberedFail(line, n - 1);
      if exists k :: 1 <= k <= n && line(k).Failure? {
        var k :| 1 <= k <= n && line(k).Failure?;
        if k < n {
          assert exists j :: 1 <= j <= n - 1 && line(j).Failure?;
        }
      }
    }
  }

  /** The SWBUS lines up to `n` fail exactly when the pin table lacks one of their sources. */
  lemma SwbusLinesFail(pins: PinTable, n: nat)
    ensures SwbusLines(pins, n).Failure? <==> exists k :: 1 <= k <= n && SwbusSource(k) !in pins
  {
    NumberedFail(SwbusLineOf(pins), n);
    forall k
      ensures SwbusLineOf(pins)(k).Failure? <==> SwbusSource(k) !in pins
    {
      SwbusLineFails(pins, k);
    }
  }

  /**
   * The generator stops with an error exactly when some bus member has an
   * empty pin list, records instead of pins, or a first pin the pin table
   * lacks, or when the pin table lacks one of SBUS1..SBUS5 and DATA_SBUS6.
   */
  lemma PinsSubcktFails(pins: PinTable, c: Circuit)
    ensures PinsSubcktLines(pins, c).Failure? <==>
      (exists i :: 0 <= i < |c| && BadMember(pins, c, i)) ||
      (exists k :: 1 <= k <= SwbusCount && SwbusSource(k) !in pins)
  {
    BusSectionFails(pins, c);
    SwbusLinesFail(pins, SwbusCount);
  }

  /** The number of members the bus loop does not skip. */
  function BusCount(c: Circuit): nat {
    if c == [] then 0
    else BusCount(c[..|c| - 1]) + (if IsSkipped(c[|c| - 1].0) then 0 else 1)
  }

  /** A bus section that succeeds has two lines, a source and a comment, per bus. */
  lemma {:induction false} BusSectionCount(pins: PinTable, c: Circuit)
    requires BusSection(pins, c).Success?
    ensures |BusSection(pins, c).value| == 2 * BusCount(c)
    decreases |c|
  {
    if c != [] {
      BusSectionCount(pins, c[..|c| - 1]);
    }
  }

  /** Numbered lines that succeed are one line per number. */
  lemma {:induction false} NumberedCount(line: int -> Result<string, PinsError>, n: nat)
    requires Numbered(line, n).Success?
    ensures |Numbered(line, n).value| == n
    decreases n
  {
    if n > 0 {
      NumberedCount(line, n - 1);
    }
  }

  /**
   * A generated body has two lines per bus, then exactly six SWBUS lines,
   * then `.ENDS` as its last line.
   */
  lemma PinsSubcktShape(pins: PinTable, c: Circuit)
    requires PinsSubcktLines(pins, c).Success?
    ensures var lines := PinsSubcktLines(pins, c).value;
      |lines| == 2 * BusCount(c) + SwbusCount + 1 && lines[|lines| - 1] == ".ENDS"
  {
    BusSectionCount(pins, c);
    NumberedCount(SwbusLineOf(pins), SwbusCount);
  }

  // ---------------------------------------------------------------------------
  // What the file connects
  // ---------------------------------------------------------------------------

  /** Every bus name is free of blanks, so each source splits into four fields. */
  predicate BusNamesPlain(c: Circuit) {
    forall i :: 0 <= i < |c| ==> Lacks(c[i].0, ' ')
  }

  /** The connection of one member: its bracketed bus to the chip pin of its first pin. */
  function MemberShorts(pins: PinTable, bus: Name, value: BusValue): seq<Short> {
    if IsSkipped(bus) then []
    else
      match SelectedPin(pins, bus, value)
      case Failure(_) => []
      case Success(sel) => [(Bracketed(bus), PinNode(sel.1))]
  }

  function BusShorts(pins: PinTable, c: Circuit): seq<Short> {
    if c == [] then []
    else BusShorts(pins, c[..|c| - 1]) + MemberShorts(pins, c[|c| - 1].0, c[|c| - 1].1)
  }

  /** SWBUS<1> to SWBUS<n>, each to the chip pin of its source. */
  function SwbusShorts(pins: PinTable, n: nat): seq<Short>
    requires forall k :: 1 <= k <= n ==> SwbusSource(k) in pins
  {
    if n == 0 then []
    else SwbusShorts(pins, n - 1) + [(SwbusNode(n), PinNode(pins[SwbusSource(n)]))]
  }

  lemma SourceNamePlain(prefix: string, digits: int)
    requires Lacks(prefix, ' ')
    ensures Lacks("V" + prefix + "_to_pin" + IntToString(digits), ' ')
  {
    IntToStringLacks(digits, ' ');
    LacksConcat("V", prefix, ' ');
    LacksConcat("V" + prefix, "_to_pin", ' ');
    LacksConcat("V" + prefix + "_to_pin", IntToString(digits), ' ');
  }

  lemma MemberRead(pins: PinTable, bus: Name, value: BusValue)
    requires Lacks(bus, ' ')
    requires MemberLines(pins, bus, value).Success?
    ensures Shorts(MemberLines(pins, bus, value).value) == MemberShorts(pins, bus, value)
  {
    if !IsSkipped(bus) {
      var sel := SelectedPin(pins, bus, value).value;
      SourceNamePlain(bus, sel.1);
      assert Lacks(Bracketed(bus), ' ') by {
        assert Lacks("RBUS<", ' ');
        ReplaceLacks(bus, "RBUS", "RBUS<", ' ');
        LacksConcat(Replace(bus, "RBUS", "RBUS<"), ">", ' ');
      }
      PinNodePlain(sel.1);
      PairShortsElementFirst("V" + bus + "_to_pin" + IntToString(sel.1), Bracketed(bus), PinNode(sel.1),
                             "* " + bus + " connected to " + sel.0 + " (" + PinNode(sel.1) + ")");
    }
  }

  lemma {:induction false} BusSectionRead(pins: PinTable, c: Circuit)
    requires BusNamesPlain(c)
    requires BusSection(pins, c).Success?
    ensures Shorts(BusSection(pins, c).value) == BusShorts(pins, c)
    decreases |c|
  {
    if c != [] {
      var init := c[..|c| - 1];
      assert BusNamesPlain(init) by {
        forall i | 0 <= i < |init|
          ensures init[i] == c[i]
        {
        }
      }
      BusSectionRead(pins, init);
      MemberRead(pins, c[|c| - 1].0, c[|c| - 1].1);
      ShortsAppend(BusSection(pins, init).value, MemberLines(pins, c[|c| - 1].0, c[|c| - 1].1).value);
    }
  }

  lemma SwbusSourcePlain(k: int)
    ensures Lacks(SwbusSource(k), ' ')
  {
    if k != 6 {
      IntToStringLacks(k, ' ');
      LacksConcat("SBUS", IntToString(k), ' ');
    }
  }

  lemma SwbusLineRead(pins: PinTable, k: int)
    requires SwbusLine(pins, k).Success?
    ensures Shorts([SwbusLine(pins, k).value]) == [(SwbusNode(k), PinNode(pins[SwbusSource(k)]))]
  {
    var source := SwbusSource(k);
    SwbusSourcePlain(k);
    SourceNamePlain(source, pins[source]);
    IntToStringLacks(k, ' ');
    LacksConcat("SWBUS<", IntToString(k), ' ');
    LacksConcat("SWBUS<" + IntToString(k), ">", ' ');
    PinNodePlain(pins[source]);
    SingleShorts("V" + source + "_to_pin" + IntToString(pins[source]), SwbusNode(k), PinNode(pins[source]));
  }

  /** SWBUS lines up to `n` that succeed are those up to `n - 1` and the source of SWBUS<n>. */
  lemma SwbusLinesStep(pins: PinTable, n: nat)
    requires n > 0 && SwbusLines(pins, n).Success?
    ensures SwbusLines(pins, n - 1).Success? && SwbusLine(pins, n).Success?
    ensures SwbusLines(pins, n).value == SwbusLines(pins, n - 1).value + [SwbusLine(pins, n).value]
  {
    assert SwbusLineOf(pins)(n) == SwbusLine(pins, n);
  }

  /** SWBUS lines up to `n` that succeed have every source they read in the pin table. */
  lemma SwbusLinesSources(pins: PinTable, n: nat)
    requires SwbusLines(pins, n).Success?
    ensures forall k :: 1 <= k <= n ==> SwbusSource(k) in pins
  {
    SwbusLinesFail(pins, n);
  }

  lemma {:induction false} SwbusLinesRead(pins: PinTable, n: nat)
    requires SwbusLines(pins, n).Success?
    ensures forall k :: 1 <= k <= n ==> SwbusSource(k) in pins
    ensures Shorts(SwbusLines(pins, n).value) == SwbusShorts(pins, n)
    decreases n
  {
    SwbusLinesSources(pins, n);
    if n > 0 {
      SwbusLinesStep(pins, n);
      var init := SwbusLines(pins, n - 1).value;
      var line := SwbusLine(pins, n).value;
      SwbusLinesRead(pins, n - 1);
      SwbusLineRead(pins, n);
      ShortsAppend(init, [line]);
    }
  }

  /**
   * Read as SPICE, a generated file makes exactly these connections, in
   * order: each bus, bracketed, to the chip pin of its first pin; then
   * SWBUS<1> to SWBUS<6> to the chip pins of SBUS1..SBUS5 and DATA_SBUS6.
   */
  lemma PinsSubcktConnects(pins: PinTable, c: Circuit)
    requires BusNamesPlain(c)
    requires PinsSubcktLines(pins, c).Success?
    ensures forall k :: 1 <= k <= SwbusCount ==> SwbusSource(k) in pins
    ensures Shorts(PinsSubcktLines(pins, c).value) == BusShorts(pins, c) + SwbusShorts(pins, SwbusCount)
  {
    var busLines := BusSection(pins, c).value;
    var swbusLines := SwbusLines(pins, SwbusCount).value;
    BusSectionRead(pins, c);
    SwbusLinesRead(pins, SwbusCount);
    ShortsAppend(busLines, swbusLines);
    EndsShortsNothing(busLines + swbusLines);
  }

  /** The k-th SWBUS short ties `SWBUS<k>` to the node of its source pin. */
  lemma {:induction false} SwbusShortsAt(pins: PinTable, n: nat, k: int)
    requires forall j :: 1 <= j <= n ==> SwbusSource(j) in pins
    requires 1 <= k <= n
    ensures |SwbusShorts(pins, n)| == n
    ensures SwbusShorts(pins, n)[k - 1] == (SwbusNode(k), PinNode(pins[SwbusSource(k)]))
  {
    if k < n {
      SwbusShortsAt(pins, n - 1, k);
    } else if n > 1 {
      SwbusShortsAt(pins, n - 1, 1);
    }
  }

  /** A generated file ties each SWBUS<k> to the node of its source pin. */
  lemma SwbusShortIn(pins: PinTable, c: Circuit, k: int)
    requires BusNamesPlain(c)
    requires PinsSubcktLines(pins, c).Success?
    requires 1 <= k <= SwbusCount
    ensures SwbusSource(k) in pins
    ensures (SwbusNode(k), PinNode(pins[SwbusSource(k)])) in Shorts(PinsSubcktLines(pins, c).value)
  {
    PinsSubcktConnects(pins, c);
    SwbusShortsAt(pins, SwbusCount, k);
    var bus := BusShorts(pins, c);
    assert (bus + SwbusShorts(pins, SwbusCount))[|bus| + k - 1] == SwbusShorts(pins, SwbusCount)[k - 1];
  }

  /**
   * A generated file ties SWBUS<6> to the pin of DATA_SBUS6, and SWBUS<1>
   * to SWBUS<5> to the pins of SBUS1 to SBUS5.
   */
  lemma SwbusSources(pins: PinTable, c: Circuit)
    requires BusNamesPlain(c)
    requires PinsSubcktLines(pins, c).Success?
    ensures "DATA_SBUS6" in pins &&
            (SwbusNode(6), PinNode(pins["DATA_SBUS6"])) in Shorts(PinsSubcktLines(pins, c).value)
    ensures forall k :: 1 <= k <= 5 ==>
              "SBUS" + IntToString(k) in pins &&
              (SwbusNode(k), PinNode(pins["SBUS" + IntToString(k)])) in Shorts(PinsSubcktLines(pins, c).value)
  {
    forall k | 1 <= k <= 5
      ensures "SBUS" + IntToString(k) in pins &&
              (SwbusNode(k), PinNode(pins["SBUS" + IntToString(k)])) in Shorts(PinsSubcktLines(pins, c).value)
    {
      SwbusShortIn(pins, c, k);
    }
    SwbusShortIn(pins, c, 6);
  }
}
