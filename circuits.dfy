/**
 * The circuit JSON and the switch-matrix lookup tables, shared by every
 * converter that reads a circuit description.
 */
module Circuits {

  import opened Wrappers
  import opened Text

  /**
   * One record of an SBUS list: the terminal it connects and its connection
   * state ("ON", "PHI1", "PHI2"; any other string means off).
   */
  datatype Terminal = Terminal(terminal: Name, connection: string)

  /** The value of one member of the circuit JSON: pin names, or SBUS terminal records. */
  datatype BusValue = PinList(pins: seq<Name>) | TerminalList(entries: seq<Terminal>)

  /** A circuit JSON object: its (key, value) members in the file's order. */
  type Circuit = seq<(Name, BusValue)>

  predicate IsRbus(bus: Name) {
    StartsWith(bus, "RBUS")
  }

  predicate IsSbus(bus: Name) {
    StartsWith(bus, "SBUS")
  }

  /**
   * The JSON shape the switch-matrix readers index into: an RBUS member
   * lists pin names and an SBUS member lists terminal records (any other
   * shape makes the Python code raise a TypeError).
   */
  predicate SwitchMatrixShaped(c: Circuit) {
    forall i :: 0 <= i < |c| ==>
      (IsRbus(c[i].0) ==> c[i].1.PinList?) && (IsSbus(c[i].0) ==> c[i].1.TerminalList?)
  }

  /** The pin table `pin_name_to_number.json`: pin name -> chip pin number. */
  type PinTable = map<Name, int>

  /**
   * The two switch-matrix tables: pin name -> switch-matrix pin number
   * (pin_name_to_sw_matrix_pin_number.json) and switch-matrix pin number ->
   * bus key -> probe register (switch_matrix_register_map.json).
   */
  datatype SwitchTables = SwitchTables(pinToSw: map<Name, int>, swToReg: map<int, map<Name, int>>)

  /** `sw_matrix_to_register.get(str(sw), {}).get(key, None)`. */
  function RegisterOf(t: SwitchTables, sw: int, key: Name): Option<int> {
    if sw in t.swToReg && key in t.swToReg[sw] then Some(t.swToReg[sw][key]) else None
  }

  /** The register that connects `pin` to RBUS `bus`, when both lookups succeed. */
  function RbusRegister(t: SwitchTables, bus: Name, pin: Name): Option<int> {
    if pin in t.pinToSw then RegisterOf(t, t.pinToSw[pin], bus) else None
  }

  /**
   * The registers (a, b) that connect `terminal` to SBUS `bus`, found under
   * the keys bus + "a" and bus + "b"; None when the pin or either register
   * is missing.
   */
  function SbusRegisters(t: SwitchTables, bus: Name, terminal: Name): Option<(int, int)> {
    if terminal !in t.pinToSw then None
    else
      var a := RegisterOf(t, t.pinToSw[terminal], bus + "a");
      var b := RegisterOf(t, t.pinToSw[terminal], bus + "b");
      if a.Some? && b.Some? then Some((a.value, b.value)) else None
  }
}
