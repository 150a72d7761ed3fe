/**
 * The two ways the repository produces a scan-chain vector, side by side:
 * generate_scan_chain_input.py computes it straight from the JSON files;
 * combine_probes_circuits_to_scan_input.py reads it back out of the
 * switch-matrix and sizes sub-circuits generated from the same files. Both
 * place probe p at position 2008 - p, but they merge with opposite
 * precedence, and the switch-matrix file also ties every unconnected probe
 * up to 1888 to VSS.
 */
module ScanChainAgreement {

  import opened Text
  import opened RegisterWrites
  import opened Circuits
  import opened ScanChainInput
  import opened CombineProbes
  import opened SwitchMatrixSubckt
  import opened SizesSubckt

  /** The vector generate_scan_chain_input.py writes for the JSON files. */
  ghost function DirectBits(c: Circuit, t: SwitchTables, sizes: Sizes, table: SizingTable, order: seq<Name>): seq<int>
    requires SwitchMatrixShaped(c) && SizesReadable(sizes, table) && IsKeyOrder(order, table.Keys)
  {
    ScanChainBits(Merge(SizingValues(sizes, table, order), SwitchMatrixValues(c, t)))
  }

  /** The vector combine_probes_circuits_to_scan_input.py writes for the sub-circuits generated from the same files. */
  ghost function CombinedBits(c: Circuit, t: SwitchTables, sizes: Sizes, table: SizingTable, order: seq<Name>): seq<int>
    requires SwitchMatrixShaped(c) && SizesReadable(sizes, table) && IsKeyOrder(order, table.Keys)
  {
    ScanChainBits(Merge(ExtractedValues(SubcktLines(c, t)), ExtractedValues(SizesSubcktLines(sizes, table, order))))
  }

  /** The probe values the combiner reads back: the switch-matrix settings with the VSS fill, overridden by the sizes. */
  lemma CombinedValues(c: Circuit, t: SwitchTables, sizes: Sizes, table: SizingTable, order: seq<Name>)
    requires SwitchMatrixShaped(c) && CircuitClean(c, t)
    requires SizesReadable(sizes, table) && IsKeyOrder(order, table.Keys) && SizesClean(table)
    ensures var sw := SwitchMatrixValues(c, t);
      Merge(ExtractedValues(SubcktLines(c, t)), ExtractedValues(SizesSubcktLines(sizes, table, order))) ==
      Merge(sw + ZeroFill(sw.Keys, SwitchProbeCount), SizingValues(sizes, table, order))
  {
    SubcktReadsBack(c, t);
    SizesSubcktReadsBack(sizes, table, order);
  }

  /**
   * When no probe is set both by the switch matrix and by the sizing
   * registers, the two routes give the same 2008 bits: the opposite merge
   * precedence never shows, and the VSS fill only restates the default 0.
   */
  lemma WritersAgreeWithoutOverlap(c: Circuit, t: SwitchTables, sizes: Sizes, table: SizingTable, order: seq<Name>)
    requires SwitchMatrixShaped(c) && CircuitClean(c, t)
    requires SizesReadable(sizes, table) && IsKeyOrder(order, table.Keys) && SizesClean(table)
    requires SwitchMatrixValues(c, t).Keys !! SizingValues(sizes, table, order).Keys
    ensures CombinedBits(c, t, sizes, table, order) == DirectBits(c, t, sizes, table, order)
  {
    var sw := SwitchMatrixValues(c, t);
    var sz := SizingValues(sizes, table, order);
    var fill := ZeroFill(sw.Keys, SwitchProbeCount);
    CombinedValues(c, t, sizes, table, order);
    var combined := Merge(sw + fill, sz);
    var direct := Merge(sz, sw);
    forall p
      ensures ProbeValue(combined, p) == ProbeValue(direct, p)
    {
      if p !in sz && p !in sw && p in fill {
        assert fill[p] == 0;
      }
    }
  }

  /**
   * Where both sources set probe p (1..2008) to different values, the two
   * routes disagree on bit 2008 - p: the direct generator keeps the
   * switch-matrix value, the combiner the sizing value.
   */
  lemma WritersDisagreeOnConflict(c: Circuit, t: SwitchTables, sizes: Sizes, table: SizingTable, order: seq<Name>, p: int)
    requires SwitchMatrixShaped(c) && CircuitClean(c, t)
    requires SizesReadable(sizes, table) && IsKeyOrder(order, table.Keys) && SizesClean(table)
    requires 1 <= p <= MaxProbeCount
    requires p in SwitchMatrixValues(c, t) && p in SizingValues(sizes, table, order)
    ensures DirectBits(c, t, sizes, table, order)[MaxProbeCount - p] == SwitchMatrixValues(c, t)[p]
    ensures CombinedBits(c, t, sizes, table, order)[MaxProbeCount - p] == SizingValues(sizes, table, order)[p]
  {
    var sw := SwitchMatrixValues(c, t);
    var sz := SizingValues(sizes, table, order);
    CombinedValues(c, t, sizes, table, order);
    ProbePlacement(Merge(sz, sw), p);
    ProbePlacement(Merge(sw + ZeroFill(sw.Keys, SwitchProbeCount), sz), p);
  }
}
