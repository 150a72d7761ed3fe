/**
 * generate_nodes_subckt.py: the SPICE sub-circuit that shorts chip pins to
 * the supplies and to the numbered NODE nets of a circuit. The pins listed
 * under VDD are shorted to pin<13>, those under VSS to pin<1>, and the pins
 * of every member whose key reads as a node number n to NODE<n>; each
 * connection is a comment followed by a 0 V source, a pin missing from the
 * pin table is skipped, and `.ENDS` closes the file.
 */
module NodesSubckt {

  import opened Wrappers
  import opened Text
  import opened Circuits
  import opened Spice

  /** The chip pin VDD pins are shorted to. */
  const VddPin := 13

  /** The chip pin VSS pins are shorted to. */
  const VssPin := 1

  predicate IsSupplyKey(key: Name) {
    key == "VDD" || key == "VSS"
  }

  /**
   * The node number of a circuit key: `int(key.replace("NODE", "").strip("<>"))`,
   * None where Python raises ValueError.
   */
  function NodeNumber(key: Name): Option<int> {
    ParseInt(StripBy(Replace(key, "NODE", ""), IsAngle))
  }

  /** The net `NODE<k>`. */
  function NodeName(k: int): string {
    "NODE" + ("<" + IntToString(k) + ">")
  }

  /**
   * The shape the generator relies on: the supply members, and every member
   * whose key reads as a node number, list pin names (other shapes make the
   * Python code raise a TypeError).
   */
  predicate NodesShaped(c: Circuit) {
    forall i :: 0 <= i < |c| && (IsSupplyKey(c[i].0) || NodeNumber(c[i].0).Some?) ==> c[i].1.PinList?
  }

  /** `circuit_data.get(supply, [])`: the pins of the member named `supply`, none if there is no such member. */
  function SupplyPins(c: Circuit, supply: Name): seq<Name>
    requires IsSupplyKey(supply)
    requires NodesShaped(c)
  {
    if c == [] then []
    else if c[|c| - 1].0 == supply then c[|c| - 1].1.pins
    else SupplyPins(c[..|c| - 1], supply)
  }

  /** The comment and the source that short `pin` to pin `target`, when the pin table knows the pin. */
  function SupplyPinLines(pins: PinTable, supply: Name, target: int, pin: Name): seq<string> {
    if pin in pins then
      ["* " + pin + " connected to " + supply,
       ShortLine("Vshort_" + supply + "_" + pin, PinNode(pins[pin]), PinNode(target))]
    else []
  }

  /** The lines of a supply section, pin after pin. */
  function SupplyLines(pins: PinTable, supply: Name, target: int, names: seq<Name>): seq<string> {
    if names == [] then []
    else SupplyLines(pins, supply, target, names[..|names| - 1]) + SupplyPinLines(pins, supply, target, names[|names| - 1])
  }

  /** The comment and the source that short `pin` to NODE<k>, when the pin table knows the pin. */
  function NodePinLines(pins: PinTable, k: int, pin: Name): seq<string> {
    if pin in pins then
      ["* " + pin + " connected to " + NodeName(k),
       ShortLine("Vshort_NODE_" + IntToString(k) + "_" + pin, NodeName(k), PinNode(pins[pin]))]
    else []
  }

  /** The lines of one node, pin after pin. */
  function NodePinsLines(pins: PinTable, k: int, names: seq<Name>): seq<string> {
    if names == [] then []
    else NodePinsLines(pins, k, names[..|names| - 1]) + NodePinLines(pins, k, names[|names| - 1])
  }

  /** The lines of one circuit member in the node section: none for a supply or a key that is not a node. */
  function MemberLines(pins: PinTable, key: Name, value: BusValue): seq<string>
    requires IsSupplyKey(key) || NodeNumber(key).Some? ==> value.PinList?
  {
    if IsSupplyKey(key) then []
    else
      match NodeNumber(key)
      case None => []
      case Some(k) => NodePinsLines(pins, k, value.pins)
  }

  /** The node section: the members' lines in the file's order. */
  function NodeSectionLines(pins: PinTable, c: Circuit): seq<string>
    requires NodesShaped(c)
  {
    if c == [] then []
    else NodeSectionLines(pins, c[..|c| - 1]) + MemberLines(pins, c[|c| - 1].0, c[|c| - 1].1)
  }

  /** The body of the file after the header and template. */
  function NodesSubcktLines(pins: PinTable, c: Circuit): seq<string>
    requires NodesShaped(c)
  {
    SupplyLines(pins, "VDD", VddPin, SupplyPins(c, "VDD")) +
    SupplyLines(pins, "VSS", VssPin, SupplyPins(c, "VSS")) +
    NodeSectionLines(pins, c) + [".ENDS"]
  }

  // ---------------------------------------------------------------------------
  // The generator
  // ---------------------------------------------------------------------------

  /** One pass of a supply loop: the pin's two lines, or nothing when the pin table lacks it. */
  method EmitSupplyPin(pins: PinTable, supply: Name, target: int, pin: Name) returns (lines: seq<string>)
    ensures lines == SupplyPinLines(pins, supply, target, pin)
  {
    if pin in pins {
      var number := pins[pin];
      lines := ["* " + pin + " connected to " + supply,
                ShortLine("Vshort_" + supply + "_" + pin, PinNode(number), PinNode(target))];
    } else {
      lines := [];
    }
  }

  lemma SupplyLinesStep(pins: PinTable, supply: Name, target: int, names: seq<Name>, i: int)
    requires 0 <= i < |names|
    ensures SupplyLines(pins, supply, target, names[..i + 1]) ==
      SupplyLines(pins, supply, target, names[..i]) + SupplyPinLines(pins, supply, target, names[i])
  {
    assert names[..i + 1][..i] == names[..i];
  }

  /** A supply loop: every listed pin in turn. */
  method EmitSupply(pins: PinTable, supply: Name, target: int, names: seq<Name>) returns (lines: seq<string>)
    ensures lines == SupplyLines(pins, supply, target, names)
  {
    lines := [];
    var i := 0;
    while i < |names|
      invariant 0 <= i <= |names|
      invariant lines == SupplyLines(pins, supply, target, names[..i])
    {
      var pinLines := EmitSupplyPin(pins, supply, target, names[i]);
      SupplyLinesStep(pins, supply, target, names, i);
      lines := lines + pinLines;
      i := i + 1;
    }
    assert names[..i] == names;
  }

  /** One pass of the pin loop of a node. */
  method EmitNodePin(pins: PinTable, k: int, pin: Name) returns (lines: seq<string>)
    ensures lines == NodePinLines(pins, k, pin)
  {
    if pin in pins {
      var number := pins[pin];
      lines := ["* " + pin + " connected to " + NodeName(k),
                ShortLine("Vshort_NODE_" + IntToString(k) + "_" + pin, NodeName(k), PinNode(number))];
    } else {
      lines := [];
    }
  }

  lemma NodePinsLinesStep(pins: PinTable, k: int, names: seq<Name>, i: int)
    requires 0 <= i < |names|
    ensures NodePinsLines(pins, k, names[..i + 1]) == NodePinsLines(pins, k, names[..i]) + NodePinLines(pins, k, names[i])
  {
    assert names[..i + 1][..i] == names[..i];
  }

  /** The pin loop of a node. */
  method EmitNodePins(pins: PinTable, k: int, names: seq<Name>) returns (lines: seq<string>)
    ensures lines == NodePinsLines(pins, k, names)
  {
    lines := [];
    var i := 0;
    while i < |names|
      invariant 0 <= i <= |names|
      invariant lines == NodePinsLines(pins, k, names[..i])
    {
      var pinLines := EmitNodePin(pins, k, names[i]);
      NodePinsLinesStep(pins, k, names, i);
      lines := lines + pinLines;
      i := i + 1;
    }
    assert names[..i] == names;
  }

  /** One pass of the member loop: supplies and keys that are not node numbers are skipped. */
  method EmitMember(pins: PinTable, key: Name, value: BusValue) returns (lines: seq<string>)
    requires IsSupplyKey(key) || NodeNumber(key).Some? ==> value.PinList?
    ensures lines == MemberLines(pins, key, value)
  {
    if key == "VDD" || key == "VSS" {
      return [];
    }
    var number := NodeNumber(key);
    if number.None? {
      return [];
    }
    lines := EmitNodePins(pins, number.value, value.pins);
  }

  /** Walking one more member appends its lines. */
  lemma NodeSectionStep(pins: PinTable, c: Circuit, i: int)
    requires NodesShaped(c)
    requires 0 <= i < |c|
    ensures NodesShaped(c[..i]) && NodesShaped(c[..i + 1])
    ensures NodeSectionLines(pins, c[..i + 1]) == NodeSectionLines(pins, c[..i]) + MemberLines(pins, c[i].0, c[i].1)
  {
    assert c[..i + 1][..i] == c[..i];
  }

  /** The member loop. */
  method EmitNodeSection(pins: PinTable, c: Circuit) returns (lines: seq<string>)
    requires NodesShaped(c)
    ensures lines == NodeSectionLines(pins, c)
  {
    lines := [];
    var i := 0;
    while i < |c|
      invariant 0 <= i <= |c|
      invariant NodesShaped(c[..i])
      invariant lines == NodeSectionLines(pins, c[..i])
    {
      var memberLines := EmitMember(pins, c[i].0, c[i].1);
      NodeSectionStep(pins, c, i);
      lines := lines + memberLines;
      i := i + 1;
    }
    assert c[..i] == c;
  }

  /**
   * `generate_nodes_subckt` after the header and template: the VDD section,
   * the VSS section, the node section, `.ENDS`.
   */
  method GenerateNodesSubckt(pins: PinTable, c: Circuit) returns (lines: seq<string>)
    requires NodesShaped(c)
    ensures lines == NodesSubcktLines(pins, c)
  {
    var vdd := EmitSupply(pins, "VDD", VddPin, SupplyPins(c, "VDD"));
    var vss := EmitSupply(pins, "VSS", VssPin, SupplyPins(c, "VSS"));
    var nodes := EmitNodeSection(pins, c);
    lines := vdd + vss + nodes + [".ENDS"];
  }

  // ---------------------------------------------------------------------------
  // Node keys
  // ---------------------------------------------------------------------------

  /** A key written as NODE<k> reads back as node k. */
  lemma NodeNumberOfName(k: int)
    ensures NodeNumber(NodeName(k)) == Some(k)
  {
    var digits := IntToString(k);
    var inner := "<" + digits + ">";
    assert !Contains(inner, "NODE") by {
      IntToStringLacks(k, 'N');
      LacksConcat("<", digits, 'N');
      LacksConcat("<" + digits, ">", 'N');
      NotContainsWithoutChar(inner, "NODE", 0);
    }
    ReplaceAtStart("NODE", inner, "");
    assert "" + inner == inner;
    StripByEnclosed(digits, '<', '>', IsAngle);
    assert ['<'] + digits + ['>'] == inner;
    ParseIntToString(k);
  }

  /** A bare number is read as that node too: the NODE prefix and the brackets are optional. */
  lemma NodeNumberOfNumeral(k: int)
    ensures NodeNumber(IntToString(k)) == Some(k)
  {
    var digits := IntToString(k);
    IntToStringLacks(k, 'N');
    NotContainsWithoutChar(digits, "NODE", 0);
    StripByUnchanged(digits, IsAngle);
    ParseIntToString(k);
  }

  // ---------------------------------------------------------------------------
  // Line structure
  // ---------------------------------------------------------------------------

  /**
   * Lines made of connections: a comment at every even position, a 0 V
   * source named Vshort_… right after it.
   */
  predicate Paired(lines: seq<string>) {
    |lines| % 2 == 0 &&
    forall i :: 0 <= i < |lines| ==>
      (i % 2 == 0 ==> StartsWith(lines[i], "* ")) && (i % 2 == 1 ==> StartsWith(lines[i], "Vshort_"))
  }

  lemma PairedAppend(a: seq<string>, b: seq<string>)
    requires Paired(a) && Paired(b)
    ensures Paired(a + b)
  {
    forall i | 0 <= i < |a + b|
      ensures (i % 2 == 0 ==> StartsWith((a + b)[i], "* ")) && (i % 2 == 1 ==> StartsWith((a + b)[i], "Vshort_"))
    {
      if i < |a| {
        assert (a + b)[i] == a[i];
      } else {
        var j := i - |a|;
        assert (a + b)[i] == b[j];
        assert i == j + 2 * (|a| / 2);
        assert j % 2 == i % 2;
      }
    }
  }

  /** A comment followed by a source is a pair. */
  lemma TwoPaired(comment: string, element: string)
    requires StartsWith(comment, "* ") && StartsWith(element, "Vshort_")
    ensures Paired([comment, element])
  {
  }

  /** A line built as `p + rest` starts with `p`. */
  lemma StartsWithPrefix(p: string, rest: string)
    ensures StartsWith(p + rest, p)
  {
    assert (p + rest)[..|p|] == p;
  }

  /** Text appended to a line keeps the prefix it starts with. */
  lemma StartsWithExtend(a: string, b: string, p: string)
    requires StartsWith(a, p)
    ensures StartsWith(a + b, p)
  {
    assert (a + b)[..|p|] == a[..|p|];
  }

  /** A comment `* <pin> connected to <net>` starts with `* `. */
  lemma CommentStarts(pin: Name, net: string)
    ensures StartsWith("* " + pin + " connected to " + net, "* ")
  {
    StartsWithPrefix("* ", pin);
    StartsWithExtend("* " + pin, " connected to ", "* ");
    StartsWithExtend("* " + pin + " connected to ", net, "* ");
  }

  /** A source named `<p><a>_<b>`, where `p` starts with `Vshort_`, starts with `Vshort_`. */
  lemma ShortStarts(p: string, a: string, b: string, x: string, y: string)
    requires StartsWith(p, "Vshort_")
    ensures StartsWith(ShortLine(p + a + "_" + b, x, y), "Vshort_")
  {
    var name := p + a + "_" + b;
    StartsWithExtend(p, a, "Vshort_");
    StartsWithExtend(p + a, "_", "Vshort_");
    StartsWithExtend(p + a + "_", b, "Vshort_");
    StartsWithExtend(name, " " + (x + (" " + (y + " 0"))), "Vshort_");
  }

  lemma NodeShortPrefix()
    ensures StartsWith("Vshort_NODE_", "Vshort_")
  {
  }

  lemma SupplyPinPaired(pins: PinTable, supply: Name, target: int, pin: Name)
    ensures Paired(SupplyPinLines(pins, supply, target, pin))
  {
    if pin in pins {
      CommentStarts(pin, supply);
      StartsWithPrefix("Vshort_", []);
      assert "Vshort_" + [] == "Vshort_";
      ShortStarts("Vshort_", supply, pin, PinNode(pins[pin]), PinNode(target));
      TwoPaired("* " + pin + " connected to " + supply,
                ShortLine("Vshort_" + supply + "_" + pin, PinNode(pins[pin]), PinNode(target)));
    }
  }

  lemma NodePinPaired(pins: PinTable, k: int, pin: Name)
    ensures Paired(NodePinLines(pins, k, pin))
  {
    if pin in pins {
      CommentStarts(pin, NodeName(k));
      NodeShortPrefix();
      ShortStarts("Vshort_NODE_", IntToString(k), pin, NodeName(k), PinNode(pins[pin]));
      TwoPaired("* " + pin + " connected to " + NodeName(k),
                ShortLine("Vshort_NODE_" + IntToString(k) + "_" + pin, NodeName(k), PinNode(pins[pin])));
    }
  }

  lemma {:induction false} SupplyLinesPaired(pins: PinTable, supply: Name, target: int, names: seq<Name>)
    ensures Paired(SupplyLines(pins, supply, target, names))
    decreases |names|
  {
    if names != [] {
      var pin := names[|names| - 1];
      SupplyLinesPaired(pins, supply, target, names[..|names| - 1]);
      SupplyPinPaired(pins, supply, target, pin);
      PairedAppend(SupplyLines(pins, supply, target, names[..|names| - 1]), SupplyPinLines(pins, supply, target, pin));
    }
  }

  lemma {:induction false} NodePinsLinesPaired(pins: PinTable, k: int, names: seq<Name>)
    ensures Paired(NodePinsLines(pins, k, names))
    decreases |names|
  {
    if names != [] {
      var pin := names[|names| - 1];
      NodePinsLinesPaired(pins, k, names[..|names| - 1]);
      NodePinPaired(pins, k, pin);
      PairedAppend(NodePinsLines(pins, k, names[..|names| - 1]), NodePinLines(pins, k, pin));
    }
  }

  lemma {:induction false} NodeSectionPaired(pins: PinTable, c: Circuit)
    requires NodesShaped(c)
    ensures Paired(NodeSectionLines(pins, c))
    decreases |c|
  {
    if c != [] {
      var init := c[..|c| - 1];
      var (key, value) := c[|c| - 1];
      assert NodesShaped(init);
      NodeSectionPaired(pins, init);
      if !IsSupplyKey(key) && NodeNumber(key).Some? {
        NodePinsLinesPaired(pins, NodeNumber(key).value, value.pins);
      }
      PairedAppend(NodeSectionLines(pins, init), MemberLines(pins, key, value));
    }
  }

  /**
   * Every connection the file makes is a comment immediately followed by
   * its source, and `.ENDS` is the last line.
   */
  lemma NodesSubcktPaired(pins: PinTable, c: Circuit)
    requires NodesShaped(c)
    ensures var lines := NodesSubcktLines(pins, c);
      lines[|lines| - 1] == ".ENDS" && Paired(lines[..|lines| - 1])
  {
    var vdd := SupplyLines(pins, "VDD", VddPin, SupplyPins(c, "VDD"));
    var vss := SupplyLines(pins, "VSS", VssPin, SupplyPins(c, "VSS"));
    var nodes := NodeSectionLines(pins, c);
    SupplyLinesPaired(pins, "VDD", VddPin, SupplyPins(c, "VDD"));
    SupplyLinesPaired(pins, "VSS", VssPin, SupplyPins(c, "VSS"));
    NodeSectionPaired(pins, c);
    PairedAppend(vdd, vss);
    PairedAppend(vdd + vss, nodes);
    assert (vdd + vss + nodes + [".ENDS"])[..|vdd + vss + nodes|] == vdd + vss + nodes;
  }

  // ---------------------------------------------------------------------------
  // What the file connects
  // ---------------------------------------------------------------------------

  /** Every pin name the circuit lists is free of blanks, so each source splits into four fields. */
  predicate PinNamesPlain(c: Circuit) {
    forall i, j :: 0 <= i < |c| && c[i].1.PinList? && 0 <= j < |c[i].1.pins| ==> Lacks(c[i].1.pins[j], ' ')
  }

  /** The short of a supply pin: its chip pin to `target`, when the pin table knows it. */
  function SupplyPinShorts(pins: PinTable, target: int, pin: Name): seq<Short> {
    if pin in pins then [(PinNode(pins[pin]), PinNode(target))] else []
  }

  function SupplyShorts(pins: PinTable, target: int, names: seq<Name>): seq<Short> {
    if names == [] then []
    else SupplyShorts(pins, target, names[..|names| - 1]) + SupplyPinShorts(pins, target, names[|names| - 1])
  }

  /** The short of a node pin: NODE<k> to its chip pin, when the pin table knows it. */
  function NodePinShorts(pins: PinTable, k: int, pin: Name): seq<Short> {
    if pin in pins then [(NodeName(k), PinNode(pins[pin]))] else []
  }

  function NodeShorts(pins: PinTable, k: int, names: seq<Name>): seq<Short> {
    if names == [] then []
    else NodeShorts(pins, k, names[..|names| - 1]) + NodePinShorts(pins, k, names[|names| - 1])
  }

  /** The shorts of one member: NODE<k> to each known pin when its key reads as node number k. */
  function MemberShorts(pins: PinTable, key: Name, value: BusValue): seq<Short> {
    if IsSupplyKey(key) || NodeNumber(key).None? || !value.PinList? then []
    else NodeShorts(pins, NodeNumber(key).value, value.pins)
  }

  function MemberShortsOf(pins: PinTable): ((Name, BusValue)) -> seq<Short> {
    (m: (Name, BusValue)) => MemberShorts(pins, m.0, m.1)
  }

  /** The shorts `f` gives each member of `c`, one member after the other. */
  function Flatten(f: ((Name, BusValue)) -> seq<Short>, c: Circuit): seq<Short> {
    if c == [] then []
    else Flatten(f, c[..|c| - 1]) + f(c[|c| - 1])
  }

  /** A short is in the flattening when some member gives it. */
  lemma {:induction false} FlattenHas(f: ((Name, BusValue)) -> seq<Short>, c: Circuit, s: Short)
    ensures s in Flatten(f, c) <==> exists i :: 0 <= i < |c| && s in f(c[i])
    decreases |c|
  {
    if c != [] {
      var init := c[..|c| - 1];
      FlattenHas(f, init, s);
      if exists i :: 0 <= i < |init| && s in f(init[i]) {
        var i :| 0 <= i < |init| && s in f(init[i]);
        assert c[i] == init[i];
      }
      if exists i :: 0 <= i < |c| && s in f(c[i]) {
        var i :| 0 <= i < |c| && s in f(c[i]);
        if i < |init| {
          assert init[i] == c[i];
        }
      }
    }
  }

  function NodeSectionShorts(pins: PinTable, c: Circuit): seq<Short> {
    Flatten(MemberShortsOf(pins), c)
  }

  /**
   * The connections the circuit asks for: each known VDD pin to pin<13>,
   * each known VSS pin to pin<1>, then NODE<k> to each known pin of node k.
   */
  function Connections(pins: PinTable, c: Circuit): seq<Short>
    requires NodesShaped(c)
  {
    SupplyShorts(pins, VddPin, SupplyPins(c, "VDD")) +
    SupplyShorts(pins, VssPin, SupplyPins(c, "VSS")) +
    NodeSectionShorts(pins, c)
  }

  /** A supply member's pins are some member's pins, so they are free of blanks. */
  lemma {:induction false} SupplyPinsPlain(c: Circuit, supply: Name)
    requires IsSupplyKey(supply) && NodesShaped(c) && PinNamesPlain(c)
    ensures forall p :: p in SupplyPins(c, supply) ==> Lacks(p, ' ')
    decreases |c|
  {
    if c != [] && c[|c| - 1].0 != supply {
      var init := c[..|c| - 1];
      assert NodesShaped(init) && PinNamesPlain(init) by {
        forall i | 0 <= i < |init|
          ensures init[i] == c[i]
        {
        }
      }
      SupplyPinsPlain(init, supply);
    } else if c != [] {
      var ps := c[|c| - 1].1.pins;
      forall p | p in ps
        ensures Lacks(p, ' ')
      {
        var j :| 0 <= j < |ps| && ps[j] == p;
        assert Lacks(c[|c| - 1].1.pins[j], ' ');
      }
    }
  }

  lemma SupplyPinRead(pins: PinTable, supply: Name, target: int, pin: Name)
    requires Lacks(pin, ' ') && Lacks(supply, ' ')
    ensures Shorts(SupplyPinLines(pins, supply, target, pin)) == SupplyPinShorts(pins, target, pin)
  {
    if pin in pins {
      var name := "Vshort_" + supply + "_" + pin;
      assert Lacks(name, ' ') by {
        LacksConcat("Vshort_", supply, ' ');
        LacksConcat("Vshort_" + supply, "_", ' ');
        LacksConcat("Vshort_" + supply + "_", pin, ' ');
      }
      PinNodePlain(pins[pin]);
      PinNodePlain(target);
      PairShorts("* " + pin + " connected to " + supply, name, PinNode(pins[pin]), PinNode(target));
    }
  }

  /** A section, collected by any reader `f` that reads each pin's lines as its short. */
  lemma {:induction false} CollectSupply(f: string -> seq<Short>, pins: PinTable, supply: Name, target: int,
                                         names: seq<Name>)
    requires forall p :: p in names ==>
      Collect(f, SupplyPinLines(pins, supply, target, p)) == SupplyPinShorts(pins, target, p)
    ensures Collect(f, SupplyLines(pins, supply, target, names)) == SupplyShorts(pins, target, names)
    decreases |names|
  {
    if names != [] {
      var init, last := names[..|names| - 1], names[|names| - 1];
      assert forall p :: p in init ==> p in names;
      CollectSupply(f, pins, supply, target, init);
      CollectAppend(f, SupplyLines(pins, supply, target, init), SupplyPinLines(pins, supply, target, last));
    }
  }

  lemma SupplyLinesRead(pins: PinTable, supply: Name, target: int, names: seq<Name>)
    requires Lacks(supply, ' ')
    requires forall p :: p in names ==> Lacks(p, ' ')
    ensures Shorts(SupplyLines(pins, supply, target, names)) == SupplyShorts(pins, target, names)
  {
    forall p | p in names
      ensures Collect(LineShorts, SupplyPinLines(pins, supply, target, p)) == SupplyPinShorts(pins, target, p)
    {
      SupplyPinRead(pins, supply, target, p);
    }
    CollectSupply(LineShorts, pins, supply, target, names);
  }

  lemma NodeNamePlain(k: int)
    ensures Lacks(NodeName(k), ' ')
  {
    IntToStringLacks(k, ' ');
    LacksConcat("NODE<", IntToString(k), ' ');
    LacksConcat("NODE<" + IntToString(k), ">", ' ');
  }

  lemma NodePinRead(pins: PinTable, k: int, pin: Name)
    requires Lacks(pin, ' ')
    ensures Shorts(NodePinLines(pins, k, pin)) == NodePinShorts(pins, k, pin)
  {
    if pin in pins {
      var digits := IntToString(k);
      var name := "Vshort_NODE_" + digits + "_" + pin;
      assert Lacks(name, ' ') by {
        IntToStringLacks(k, ' ');
        LacksConcat("Vshort_NODE_", digits, ' ');
        LacksConcat("Vshort_NODE_" + digits, "_", ' ');
        LacksConcat("Vshort_NODE_" + digits + "_", pin, ' ');
      }
      NodeNamePlain(k);
      PinNodePlain(pins[pin]);
      PairShorts("* " + pin + " connected to " + NodeName(k), name, NodeName(k), PinNode(pins[pin]));
    }
  }

  lemma {:induction false} CollectNodePins(f: string -> seq<Short>, pins: PinTable, k: int, names: seq<Name>)
    requires forall p :: p in names ==> Collect(f, NodePinLines(pins, k, p)) == NodePinShorts(pins, k, p)
    ensures Collect(f, NodePinsLines(pins, k, names)) == NodeShorts(pins, k, names)
    decreases |names|
  {
    if names != [] {
      var init, last := names[..|names| - 1], names[|names| - 1];
      assert forall p :: p in init ==> p in names;
      CollectNodePins(f, pins, k, init);
      CollectAppend(f, NodePinsLines(pins, k, init), NodePinLines(pins, k, last));
    }
  }

  lemma NodePinsRead(pins: PinTable, k: int, names: seq<Name>)
    requires forall p :: p in names ==> Lacks(p, ' ')
    ensures Shorts(NodePinsLines(pins, k, names)) == NodeShorts(pins, k, names)
  {
    forall p | p in names
      ensures Collect(LineShorts, NodePinLines(pins, k, p)) == NodePinShorts(pins, k, p)
    {
      NodePinRead(pins, k, p);
    }
    CollectNodePins(LineShorts, pins, k, names);
  }

  lemma {:induction false} NodeSectionRead(pins: PinTable, c: Circuit)
    requires NodesShaped(c) && PinNamesPlain(c)
    ensures Shorts(NodeSectionLines(pins, c)) == NodeSectionShorts(pins, c)
    decreases |c|
  {
    if c != [] {
      var init := c[..|c| - 1];
      var (key, value) := c[|c| - 1];
      assert NodesShaped(init) && PinNamesPlain(init) by {
        forall i | 0 <= i < |init|
          ensures init[i] == c[i]
        {
        }
      }
      NodeSectionRead(pins, init);
      if !IsSupplyKey(key) && NodeNumber(key).Some? {
        forall p | p in value.pins
          ensures Lacks(p, ' ')
        {
          var j :| 0 <= j < |value.pins| && value.pins[j] == p;
          assert Lacks(c[|c| - 1].1.pins[j], ' ');
        }
        NodePinsRead(pins, NodeNumber(key).value, value.pins);
      }
      ShortsAppend(NodeSectionLines(pins, init), MemberLines(pins, key, value));
    }
  }

  /**
   * Read as SPICE, the file makes exactly the connections the circuit asks
   * for, in order: the known VDD pins to pin<13>, the known VSS pins to
   * pin<1>, then each node's known pins to its NODE<k> net.
   */
  lemma NodesSubcktConnects(pins: PinTable, c: Circuit)
    requires NodesShaped(c) && PinNamesPlain(c)
    ensures Shorts(NodesSubcktLines(pins, c)) == Connections(pins, c)
  {
    var vdd := SupplyLines(pins, "VDD", VddPin, SupplyPins(c, "VDD"));
    var vss := SupplyLines(pins, "VSS", VssPin, SupplyPins(c, "VSS"));
    var nodes := NodeSectionLines(pins, c);
    SupplyPinsPlain(c, "VDD");
    SupplyPinsPlain(c, "VSS");
    assert Lacks("VDD", ' ') && Lacks("VSS", ' ');
    SupplyLinesRead(pins, "VDD", VddPin, SupplyPins(c, "VDD"));
    SupplyLinesRead(pins, "VSS", VssPin, SupplyPins(c, "VSS"));
    NodeSectionRead(pins, c);
    ShortsAppend(vdd, vss);
    ShortsAppend(vdd + vss, nodes);
    EndsShortsNothing(vdd + vss + nodes);
  }

  /** A known pin listed under VDD is shorted to pin<13>. */
  lemma {:induction false} SupplyPinShorted(pins: PinTable, target: int, names: seq<Name>, pin: Name)
    requires pin in names && pin in pins
    ensures (PinNode(pins[pin]), PinNode(target)) in SupplyShorts(pins, target, names)
    decreases |names|
  {
    var init, last := names[..|names| - 1], names[|names| - 1];
    assert names == init + [last];
    if last != pin {
      SupplyPinShorted(pins, target, init, pin);
    }
  }

  /** Every known VDD pin is shorted to pin<13> and every known VSS pin to pin<1>. */
  lemma SuppliesShorted(pins: PinTable, c: Circuit, pin: Name)
    requires NodesShaped(c) && PinNamesPlain(c)
    requires pin in pins
    ensures pin in SupplyPins(c, "VDD") ==> (PinNode(pins[pin]), PinNode(VddPin)) in Shorts(NodesSubcktLines(pins, c))
    ensures pin in SupplyPins(c, "VSS") ==> (PinNode(pins[pin]), PinNode(VssPin)) in Shorts(NodesSubcktLines(pins, c))
  {
    NodesSubcktConnects(pins, c);
    if pin in SupplyPins(c, "VDD") {
      SupplyPinShorted(pins, VddPin, SupplyPins(c, "VDD"), pin);
    }
    if pin in SupplyPins(c, "VSS") {
      SupplyPinShorted(pins, VssPin, SupplyPins(c, "VSS"), pin);
    }
  }

  /** A short of the node section comes from the key of a member that reads as a node number. */
  ghost predicate NodeMemberShort(pins: PinTable, m: (Name, BusValue), s: Short) {
    !IsSupplyKey(m.0) && NodeNumber(m.0).Some? && m.1.PinList? &&
    exists pin :: pin in m.1.pins && pin in pins && s == (NodeName(NodeNumber(m.0).value), PinNode(pins[pin]))
  }

  lemma {:induction false} NodeShortsAre(pins: PinTable, k: int, names: seq<Name>, s: Short)
    ensures s in NodeShorts(pins, k, names) <==>
      exists pin :: pin in names && pin in pins && s == (NodeName(k), PinNode(pins[pin]))
    decreases |names|
  {
    if names != [] {
      var init, last := names[..|names| - 1], names[|names| - 1];
      assert names == init + [last];
      NodeShortsAre(pins, k, init, s);
      if s in NodeShorts(pins, k, names) && s !in NodeShorts(pins, k, init) {
        assert last in names;
      }
    }
  }

  /** The shorts of one member of the node section are those NodeMemberShort describes. */
  lemma MemberShortsAre(pins: PinTable, m: (Name, BusValue), s: Short)
    ensures s in MemberShorts(pins, m.0, m.1) <==> NodeMemberShort(pins, m, s)
  {
    if !IsSupplyKey(m.0) && NodeNumber(m.0).Some? && m.1.PinList? {
      NodeShortsAre(pins, NodeNumber(m.0).value, m.1.pins, s);
    }
  }

  /**
   * The node section shorts NODE<k> to the known pins of the members whose
   * key reads as k, and nothing else: the VDD and VSS keys, and keys that
   * are not node numbers, never yield a node.
   */
  lemma NodeSectionShortsAre(pins: PinTable, c: Circuit, s: Short)
    ensures s in NodeSectionShorts(pins, c) <==> exists i :: 0 <= i < |c| && NodeMemberShort(pins, c[i], s)
  {
    FlattenHas(MemberShortsOf(pins), c, s);
    forall i | 0 <= i < |c|
      ensures s in MemberShortsOf(pins)(c[i]) <==> NodeMemberShort(pins, c[i], s)
    {
      MemberShortsAre(pins, c[i], s);
    }
  }
}
