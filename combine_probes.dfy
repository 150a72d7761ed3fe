/**
 * combine_probes_circuits_to_scan_input.py: read the probe levels back out
 * of the two generated SPICE sub-circuits (switch matrix and sizes), merge
 * them with the sizes file taking precedence, and write the 2008-bit
 * scan-chain vector, PROBE<2008> first.
 */
module CombineProbes {

  import opened Wrappers
  import opened Text
  import opened Order
  import opened RegisterWrites
  import opened ScanChainInput

  /** The literal text the probe pattern `PROBE<(\d+)>` starts with. */
  const ProbeTag: string := "PROBE<"

  /**
   * The pattern `PROBE<(\d+)>` tried at index `i` of `line`: the tag, one or
   * more decimal digits (as many as there are) and '>'. The value of the
   * digits when it matches. Backtracking to fewer digits can never help, as
   * a digit is never '>'.
   */
  function ProbeMatchAt(line: string, i: int): Option<int> {
    if OccursAt(line, ProbeTag, i) then
      var start := i + |ProbeTag|;
      var k := LeadingRun(line[start..], IsDigit);
      if k > 0 && start + k < |line| && line[start + k] == '>' then
        assert line[start..start + k] == line[start..][..k];
        Some(DigitsValue(line[start..start + k]))
      else None
    else None
  }

  /** `re.search(r'PROBE<(\d+)>', line[i:])`: the leftmost match at index `i` or later. */
  function SearchProbeFrom(line: string, i: nat): (r: Option<int>)
    ensures r.None? ==> forall j :: i <= j <= |line| ==> ProbeMatchAt(line, j).None?
    ensures r.Some? ==> exists j :: i <= j <= |line| && ProbeMatchAt(line, j) == r &&
                                    forall k :: i <= k < j ==> ProbeMatchAt(line, k).None?
    decreases |line| - i
  {
    if i > |line| then None
    else if ProbeMatchAt(line, i).Some? then ProbeMatchAt(line, i)
    else SearchProbeFrom(line, i + 1)
  }

  /** `int(re.search(r'PROBE<(\d+)>', line).group(1))`, or None when nothing matches. */
  function SearchProbe(line: string): Option<int> {
    SearchProbeFrom(line, 0)
  }

  /**
   * What one line of a SPICE file contributes (lines 40-54): nothing for a
   * comment or continuation line; for a voltage-source line mentioning a
   * probe, the first probe number with 1 if the line mentions VDD anywhere,
   * else 0 if it mentions VSS; nothing otherwise.
   */
  function ParseLine(line: string): Option<Write> {
    var trimmed := Strip(line);
    if StartsWith(trimmed, "*") || StartsWith(trimmed, "+") then None
    else if StartsWith(trimmed, "V") && Contains(line, ProbeTag) then
      match SearchProbe(line)
      case None => None
      case Some(p) =>
        if Contains(line, "VDD") then Some((p, 1))
        else if Contains(line, "VSS") then Some((p, 0))
        else None
    else None
  }

  /** The write one line makes: none, or the one it parses to. */
  function LineWrite(line: string): seq<Write> {
    match ParseLine(line)
    case None => []
    case Some(w) => [w]
  }

  /** The writes `f` assigns to each of the lines, first line first. */
  function Gather(f: string -> seq<Write>, lines: seq<string>): seq<Write> {
    if lines == [] then []
    else Gather(f, lines[..|lines| - 1]) + f(lines[|lines| - 1])
  }

  /** Gathering over two runs of lines is gathering over each in turn. */
  lemma {:induction false} GatherAppend(f: string -> seq<Write>, a: seq<string>, b: seq<string>)
    ensures Gather(f, a + b) == Gather(f, a) + Gather(f, b)
    decreases |b|
  {
    if b == [] {
      assert a + b == a;
    } else {
      GatherAppend(f, a, b[..|b| - 1]);
      assert (a + b)[..|a + b| - 1] == a + b[..|b| - 1];
    }
  }

  /** Gathering over two lines is gathering over each. */
  lemma GatherTwo(f: string -> seq<Write>, x: string, y: string)
    ensures Gather(f, [x, y]) == f(x) + f(y)
  {
    GatherAppend(f, [x], [y]);
    assert [x, y] == [x] + [y];
    assert [x][..0] == [] && [y][..0] == [];
  }

  /** Gathering over three lines is gathering over each. */
  lemma GatherThree(f: string -> seq<Write>, x: string, y: string, z: string)
    ensures Gather(f, [x, y, z]) == f(x) + f(y) + f(z)
  {
    GatherAppend(f, [x, y], [z]);
    GatherTwo(f, x, y);
    assert [x, y, z] == [x, y] + [z];
    assert [z][..0] == [];
  }

  function LineWrites(lines: seq<string>): seq<Write> {
    Gather(LineWrite, lines)
  }

  /** The probe map `extract_probe_values_from_file` returns for a file with these lines. */
  function ExtractedValues(lines: seq<string>): Settings {
    Apply(map[], LineWrites(lines))
  }

  /**
   * One pass of the line loop of `extract_probe_values_from_file`: skip
   * comment and continuation lines; for a voltage-source line with a probe,
   * set the first probe to 1 if the line mentions VDD, else to 0 if it
   * mentions VSS. These are the branches of `ParseLine`, taken step by step.
   */
  method ReadLine(probeValues: Settings, line: string) returns (updated: Settings)
    ensures updated == Apply(probeValues, LineWrite(line))
  {
    updated := probeValues;
    var trimmed := Strip(line);
    if StartsWith(trimmed, "*") || StartsWith(trimmed, "+") {
      return;
    }
    if StartsWith(trimmed, "V") && Contains(line, ProbeTag) {
      var found := SearchProbe(line);
      if found.Some? {
        var probeNumber := found.value;
        if Contains(line, "VDD") {
          updated := updated[probeNumber := 1];
          ApplySnoc(probeValues, [], (probeNumber, 1));
        } else if Contains(line, "VSS") {
          updated := updated[probeNumber := 0];
          ApplySnoc(probeValues, [], (probeNumber, 0));
        }
      }
    }
  }

  /** `extract_probe_values_from_file`, over the file's lines. */
  method ExtractProbeValues(lines: seq<string>) returns (probeValues: Settings)
    ensures probeValues == ExtractedValues(lines)
    ensures Binary(probeValues)
  {
    probeValues := map[];
    var i := 0;
    while i < |lines|
      invariant 0 <= i <= |lines|
      invariant probeValues == ExtractedValues(lines[..i])
    {
      probeValues := ReadLine(probeValues, lines[i]);
      ExtractedValuesNext(lines, i);
      i := i + 1;
    }
    assert lines[..i] == lines;
    ExtractedValuesBinary(lines);
  }

  /** Reading line `i` performs that line's write on what the lines before it left. */
  lemma ExtractedValuesNext(lines: seq<string>, i: int)
    requires 0 <= i < |lines|
    ensures ExtractedValues(lines[..i + 1]) == Apply(ExtractedValues(lines[..i]), LineWrite(lines[i]))
  {
    assert lines[..i + 1][..i] == lines[..i];
    ApplyAppend(map[], LineWrites(lines[..i]), LineWrite(lines[i]));
  }

  /** Appending a line appends that line's write, if it has one. */
  lemma LineWritesSnoc(lines: seq<string>, line: string)
    ensures LineWrites(lines + [line]) == LineWrites(lines) + LineWrite(line)
  {
    GatherAppend(LineWrite, lines, [line]);
    assert [line][..0] == [];
  }

  /** A comment line followed by two lines that each write once reads as those two writes. */
  lemma LineWritesThree(x: string, y: string, z: string, wy: Write, wz: Write)
    requires LineWrite(x) == [] && LineWrite(y) == [wy] && LineWrite(z) == [wz]
    ensures LineWrites([x, y, z]) == [wy, wz]
  {
    GatherThree(LineWrite, x, y, z);
  }

  /** A comment line followed by a line that writes once reads as that write. */
  lemma LineWritesTwo(x: string, y: string, wy: Write)
    requires LineWrite(x) == [] && LineWrite(y) == [wy]
    ensures LineWrites([x, y]) == [wy]
  {
    GatherTwo(LineWrite, x, y);
  }

  /** The writes of two files' lines one after the other are the writes of their concatenation. */
  lemma LineWritesAppend(a: seq<string>, b: seq<string>)
    ensures LineWrites(a + b) == LineWrites(a) + LineWrites(b)
  {
    GatherAppend(LineWrite, a, b);
  }

  /** Reading more lines continues from the probe map the earlier lines left. */
  lemma ExtractedValuesAppend(a: seq<string>, b: seq<string>)
    ensures ExtractedValues(a + b) == Apply(ExtractedValues(a), LineWrites(b))
  {
    LineWritesAppend(a, b);
    ApplyAppend(map[], LineWrites(a), LineWrites(b));
  }

  /** Reading one more line performs that line's write, if it has one. */
  lemma ExtractedValuesSnoc(lines: seq<string>, line: string)
    ensures ParseLine(line).None? ==> ExtractedValues(lines + [line]) == ExtractedValues(lines)
    ensures ParseLine(line).Some? ==>
      ExtractedValues(lines + [line]) == ExtractedValues(lines)[ParseLine(line).value.0 := ParseLine(line).value.1]
  {
    LineWritesSnoc(lines, line);
    var w := ParseLine(line);
    if w.Some? {
      ApplySnoc(map[], LineWrites(lines), w.value);
    } else {
      assert LineWrites(lines + [line]) == LineWrites(lines);
    }
  }

  /** Every line contributes a 0 or a 1, so the whole map holds only 0s and 1s. */
  lemma {:induction false} LineWritesBinary(lines: seq<string>)
    ensures BinaryWrites(LineWrites(lines))
    decreases |lines|
  {
    if lines != [] {
      LineWritesBinary(lines[..|lines| - 1]);
    }
  }

  lemma ExtractedValuesBinary(lines: seq<string>)
    ensures Binary(ExtractedValues(lines))
  {
    LineWritesBinary(lines);
    ApplyBinary(map[], LineWrites(lines));
  }

  /** A comment or continuation line leaves the extracted probe map as it was. */
  lemma CommentLineIgnored(lines: seq<string>, line: string)
    requires StartsWith(Strip(line), "*") || StartsWith(Strip(line), "+")
    ensures ExtractedValues(lines + [line]) == ExtractedValues(lines)
  {
    ExtractedValuesSnoc(lines, line);
  }

  /**
   * A later line for a probe overrides every earlier one: after a line that
   * parses to (p, v), probe p holds v and every other probe is unchanged.
   */
  lemma LaterLineOverrides(lines: seq<string>, line: string, p: int, v: int)
    requires ParseLine(line) == Some((p, v))
    ensures ExtractedValues(lines + [line]) == ExtractedValues(lines)[p := v]
  {
    ExtractedValuesSnoc(lines, line);
  }

  /** A voltage-source line that mentions both VDD and VSS reads as 1. */
  lemma VddWinsOverVss(line: string, p: int)
    requires StartsWith(Strip(line), "V")
    requires SearchProbe(line) == Some(p)
    requires Contains(line, "VDD") && Contains(line, "VSS")
    ensures ParseLine(line) == Some((p, 1))
  {
    var j :| 0 <= j <= |line| && ProbeMatchAt(line, j) == Some(p) && forall k :: 0 <= k < j ==> ProbeMatchAt(line, k).None?;
    assert OccursAt(line, ProbeTag, j);
  }

  // ---------------------------------------------------------------------------
  // Merge, placement and reversal
  // ---------------------------------------------------------------------------

  /** `all_probes` after the fill loop: index p - 1 holds probe p. */
  function StoredProbes(values: Settings): (a: seq<int>)
    ensures |a| == MaxProbeCount
  {
    seq(MaxProbeCount, i requires 0 <= i < MaxProbeCount => ProbeValue(values, i + 1))
  }

  /** `reversed(s)`. */
  function Reverse(s: seq<int>): (r: seq<int>)
    ensures |r| == |s|
    ensures forall i :: 0 <= i < |s| ==> r[i] == s[|s| - 1 - i]
  {
    if s == [] then [] else [s[|s| - 1]] + Reverse(s[..|s| - 1])
  }

  /** Reversing twice gives back the original sequence. */
  lemma ReverseReverse(s: seq<int>)
    ensures Reverse(Reverse(s)) == s
  {
  }

  /**
   * The fill loop of `main`: start from 2008 zeros and store each probe's
   * value at index probe - 1, ignoring probes outside 1..2008.
   */
  method StoreProbes(values: Settings) returns (allProbes: array<int>)
    ensures fresh(allProbes)
    ensures allProbes[..] == StoredProbes(values)
  {
    allProbes := new int[MaxProbeCount](_ => 0);
    var pending := values.Keys;
    while pending != {}
      invariant pending <= values.Keys
      invariant allProbes.Length == MaxProbeCount
      invariant forall i :: 0 <= i < MaxProbeCount ==>
        allProbes[i] == (if i + 1 in values && i + 1 !in pending then values[i + 1] else 0)
      decreases pending
    {
      var probeNum := Pick(pending);
      if 1 <= probeNum <= MaxProbeCount {
        allProbes[probeNum - 1] := values[probeNum];
      }
      pending := pending - {probeNum};
    }
  }

  /** The output loop of `main`: the stored values from the last index down to the first. */
  method WriteReversed(allProbes: array<int>) returns (output: seq<int>)
    ensures output == Reverse(allProbes[..])
  {
    output := [];
    var k := allProbes.Length;
    while k > 0
      invariant 0 <= k <= allProbes.Length
      invariant |output| == allProbes.Length - k
      invariant forall i :: 0 <= i < |output| ==> output[i] == allProbes[allProbes.Length - 1 - i]
    {
      k := k - 1;
      output := output + [allProbes[k]];
    }
  }

  /**
   * Storing probe p at index p - 1 and writing the array reversed puts it
   * at output position 2008 - p: the placement `generate_scan_chain_input`
   * uses.
   */
  lemma SamePlacement(values: Settings)
    ensures Reverse(StoredProbes(values)) == ScanChainBits(values)
  {
  }

  /**
   * The two scan-chain writers merge with opposite precedence: where both
   * maps set a probe to different values, the two merge orders disagree on
   * it, and where the maps share no probe, the order does not matter.
   */
  lemma OppositePrecedence(lower: Settings, upper: Settings)
    ensures forall p :: p in lower && p in upper && lower[p] != upper[p] ==> Merge(lower, upper)[p] != Merge(upper, lower)[p]
    ensures lower.Keys !! upper.Keys ==> Merge(lower, upper) == Merge(upper, lower)
  {
  }

  /**
   * `main`: both files' probe maps merged with the sizes file taking
   * precedence, written as 2008 values from PROBE<2008> down to PROBE<1>.
   */
  method CombineProbeFiles(swMatrixLines: seq<string>, sizesLines: seq<string>) returns (output: seq<int>)
    ensures output == ScanChainBits(Merge(ExtractedValues(swMatrixLines), ExtractedValues(sizesLines)))
    ensures |output| == MaxProbeCount
    ensures forall i :: 0 <= i < |output| ==> output[i] == 0 || output[i] == 1
  {
    var swMatrixValues := ExtractProbeValues(swMatrixLines);
    var sizesValues := ExtractProbeValues(sizesLines);
    var combinedValues := Merge(swMatrixValues, sizesValues);
    var allProbes := StoreProbes(combinedValues);
    output := WriteReversed(allProbes);
    SamePlacement(combinedValues);
  }
}
