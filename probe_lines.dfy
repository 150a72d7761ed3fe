/**
 * The probe-tie lines the SPICE generators write, `<name> PROBE<r> VDD 0`
 * or `<name> PROBE<r> VSS 0`, and the fact that the probe-file reader
 * reads each one back as the register and level it was written with.
 */
module ProbeLines {

  import opened Wrappers
  import opened Text
  import opened CombineProbes

  /** The supply a probe value ties to: VDD for 1, VSS for anything else. */
  function Level(v: int): string {
    if v == 1 then "VDD" else "VSS"
  }

  /** A zero-volt source named `head` from probe `r` to the supply `level`. */
  function ProbeSource(head: string, r: int, level: string): string {
    head + (" " + (ProbeTag + (IntToString(r) + ("> " + (level + " 0")))))
  }

  /**
   * A source name the reader cannot misread: it starts with V and mentions
   * neither a probe nor VDD.
   */
  predicate CleanHead(head: string) {
    StartsWith(head, "V") && !Contains(head, ProbeTag) && !Contains(head, "VDD")
  }

  /** A line whose first character is `c` strips to a line that starts with `c`, when `c` is not blank. */
  lemma StripKeepsFirst(line: string)
    requires line != [] && !IsSpace(line[0])
    ensures Strip(line) != [] && Strip(line)[..1] == [line[0]]
  {
  }

  /** A comment line, one starting with `*`, is skipped by the reader. */
  lemma CommentLineParsesToNothing(line: string)
    requires line != [] && line[0] == '*'
    ensures ParseLine(line) == None
  {
    StripKeepsFirst(line);
  }

  /** A line that does not start with V, `*` or `+` after stripping, such as `.ENDS`, is skipped. */
  lemma OtherLineParsesToNothing(line: string)
    requires line != [] && !IsSpace(line[0]) && line[0] != 'V'
    ensures ParseLine(line) == None
  {
    StripKeepsFirst(line);
  }

  /** A skipped line leaves the probe map the lines before it produced. */
  lemma SkippedLineKeepsValues(lines: seq<string>, line: string)
    requires line != [] && !IsSpace(line[0]) && line[0] != 'V' && line[0] != '*' && line[0] != '+'
    ensures ExtractedValues(lines + [line]) == ExtractedValues(lines)
  {
    OtherLineParsesToNothing(line);
    ExtractedValuesSnoc(lines, line);
  }

  /** The closing `.ENDS` line adds nothing to the probe map. */
  lemma EndsLineKeepsValues(lines: seq<string>)
    ensures ExtractedValues(lines + [".ENDS"]) == ExtractedValues(lines)
  {
    SkippedLineKeepsValues(lines, ".ENDS");
  }

  /** The pattern matches right after the clean name, with the written probe number. */
  lemma ProbeSourceMatch(head: string, r: int, level: string)
    requires 0 <= r
    ensures ProbeMatchAt(ProbeSource(head, r, level), |head| + 1) == Some(r)
  {
    var line := ProbeSource(head, r, level);
    var digits := IntToString(r);
    var rest := digits + ("> " + (level + " 0"));
    var m := |head| + 1;
    var start := m + |ProbeTag|;
    assert OccursAt(line, ProbeTag, m) && line[start..] == rest by {
      assert line[m..] == ProbeTag + rest;
      assert line[m..m + |ProbeTag|] == (ProbeTag + rest)[..|ProbeTag|];
    }
    assert LeadingRun(line[start..], IsDigit) == |digits| by {
      assert !IsDigit(rest[|digits|]);
    }
    assert line[start..start + |digits|] == digits by {
      assert line[start..start + |digits|] == rest[..|digits|];
    }
  }

  /** No match starts inside the clean name or at the blank after it. */
  lemma ProbeSourceNoEarlierMatch(head: string, r: int, level: string)
    requires CleanHead(head)
    ensures forall k :: 0 <= k <= |head| ==> !OccursAt(ProbeSource(head, r, level), ProbeTag, k)
  {
    var tail := " " + (ProbeTag + (IntToString(r) + ("> " + (level + " 0"))));
    forall k | 0 <= k <= |head|
      ensures !OccursAt(head + tail, ProbeTag, k)
    {
      OccursSplit(head, tail, ProbeTag, k);
    }
  }

  /** The search finds the probe number written after the clean name. */
  lemma ProbeSourceProbe(head: string, r: int, level: string)
    requires CleanHead(head) && 0 <= r
    ensures SearchProbe(ProbeSource(head, r, level)) == Some(r)
  {
    ProbeSourceMatch(head, r, level);
    ProbeSourceNoEarlierMatch(head, r, level);
    SearchFindsFirst(ProbeSource(head, r, level), |head| + 1, r);
  }

  /** A line tied to VSS does not mention VDD anywhere. */
  lemma ProbeSourceNoVdd(head: string, r: int)
    requires CleanHead(head) && 0 <= r
    ensures !Contains(ProbeSource(head, r, "VSS"), "VDD")
  {
    var digits := IntToString(r);
    var end := "VSS" + " 0";
    var tail := " " + (ProbeTag + (digits + ("> " + end)));
    assert Lacks(tail, 'D') by {
      DigitsLack(digits, 'D');
      LacksConcat("> ", end, 'D');
      LacksConcat(digits, "> " + end, 'D');
      LacksConcat(ProbeTag, digits + ("> " + end), 'D');
      LacksConcat(" ", ProbeTag + (digits + ("> " + end)), 'D');
    }
    NotContainsWithoutChar(tail, "VDD", 1);
    ContainsConcat(head, tail, "VDD");
  }

  /** The line mentions VDD exactly when its level is VDD, and VSS when its level is VSS. */
  lemma ProbeSourceLevel(head: string, r: int, level: string)
    requires CleanHead(head) && 0 <= r
    requires level == "VDD" || level == "VSS"
    ensures Contains(ProbeSource(head, r, level), "VDD") <==> level == "VDD"
    ensures level == "VSS" ==> Contains(ProbeSource(head, r, level), "VSS")
  {
    var line := ProbeSource(head, r, level);
    assert OccursAt(line, level, |line| - 5) by {
      var end := level + " 0";
      assert line[|line| - 5..|line| - 2] == end[..3] == level;
    }
    if level == "VSS" {
      ProbeSourceNoVdd(head, r);
    }
  }

  /**
   * A probe-tie line with a clean name and a non-negative probe number reads
   * back as that probe tied to 1 for VDD and 0 for VSS.
   */
  lemma ProbeSourceParses(head: string, r: int, level: string)
    requires CleanHead(head) && 0 <= r
    requires level == "VDD" || level == "VSS"
    ensures ParseLine(ProbeSource(head, r, level)) == Some((r, if level == "VDD" then 1 else 0))
  {
    var line := ProbeSource(head, r, level);
    assert line[0] == 'V';
    StripKeepsFirst(line);
    ProbeSourceProbe(head, r, level);
    ProbeSourceLevel(head, r, level);
  }

  /** The search returns the match at `m` when no match starts earlier. */
  lemma SearchFindsFirst(line: string, m: nat, r: int)
    requires m <= |line| && ProbeMatchAt(line, m) == Some(r)
    requires forall k :: 0 <= k < m ==> ProbeMatchAt(line, k).None?
    ensures SearchProbe(line) == Some(r)
  {
  }
}
