/**
 * How a SPICE reader sees the zero-volt sources the netlist generators
 * write: a line is split into blank-separated fields, and a line of four
 * fields `V<name> <a> <b> 0` is a 0 V source, that is a short between the
 * nodes `a` and `b`. The generators' element lines are read this way to
 * state which nodes they connect.
 */
module Spice {

  import opened Wrappers
  import opened Text

  /** A connection between two nodes of the netlist. */
  type Short = (string, string)

  /** The fields of a line between single blanks, as Python's `line.split(' ')` gives them. */
  function Fields(line: string): (fs: seq<string>)
    ensures |fs| >= 1
  {
    if line == [] then [""]
    else
      var rest := Fields(line[1..]);
      if line[0] == ' ' then [""] + rest else [[line[0]] + rest[0]] + rest[1..]
  }

  /** A 0 V source named `name` between the nodes `a` and `b`. */
  function ShortLine(name: string, a: string, b: string): string {
    name + (" " + (a + (" " + (b + " 0"))))
  }

  /** The nodes a line shorts: those of a four-field V source of value 0, nothing otherwise. */
  function ShortOf(line: string): Option<Short> {
    var fs := Fields(line);
    if |fs| == 4 && fs[0] != [] && fs[0][0] == 'V' && fs[3] == "0" then Some((fs[1], fs[2])) else None
  }

  /** The short of one line, as a sequence of zero or one connections. */
  function LineShorts(line: string): seq<Short> {
    match ShortOf(line)
    case None => []
    case Some(s) => [s]
  }

  /** The connections `f` finds in each of the lines, first line first. */
  function Collect(f: string -> seq<Short>, lines: seq<string>): seq<Short> {
    if lines == [] then []
    else Collect(f, lines[..|lines| - 1]) + f(lines[|lines| - 1])
  }

  /** The connections a netlist body makes, in line order. */
  function Shorts(lines: seq<string>): seq<Short> {
    Collect(LineShorts, lines)
  }

  /** Collecting over two runs of lines is collecting over each in turn. */
  lemma {:induction false} CollectAppend(f: string -> seq<Short>, a: seq<string>, b: seq<string>)
    ensures Collect(f, a + b) == Collect(f, a) + Collect(f, b)
    decreases |b|
  {
    if b == [] {
      assert a + b == a;
    } else {
      CollectAppend(f, a, b[..|b| - 1]);
      assert (a + b)[..|a + b| - 1] == a + b[..|b| - 1];
    }
  }

  lemma ShortsAppend(a: seq<string>, b: seq<string>)
    ensures Shorts(a + b) == Shorts(a) + Shorts(b)
  {
    CollectAppend(LineShorts, a, b);
  }

  /** A line without blanks is one field. */
  lemma {:induction false} FieldsOfPlain(f: string)
    requires Lacks(f, ' ')
    ensures Fields(f) == [f]
    decreases |f|
  {
    if f != [] {
      FieldsOfPlain(f[1..]);
      assert [f[0]] + f[1..] == f;
    }
  }

  /** A field without blanks followed by a blank starts the fields of the line. */
  lemma {:induction false} FieldsOfCons(f: string, rest: string)
    requires Lacks(f, ' ')
    ensures Fields(f + (" " + rest)) == [f] + Fields(rest)
    decreases |f|
  {
    var line := f + (" " + rest);
    if f == [] {
      assert line == " " + rest && line[1..] == rest;
    } else {
      assert line[1..] == f[1..] + (" " + rest);
      FieldsOfCons(f[1..], rest);
      assert [f[0]] + f[1..] == f;
    }
  }

  /** A line that does not start with a blank starts its first field with its first character. */
  lemma FieldsFirst(line: string)
    requires line != [] && line[0] != ' '
    ensures Fields(line)[0] != [] && Fields(line)[0][0] == line[0]
  {
  }

  /** The element line of a short splits into its name, its two nodes and its value. */
  lemma ShortLineFields(name: string, a: string, b: string)
    requires Lacks(name, ' ') && Lacks(a, ' ') && Lacks(b, ' ')
    ensures Fields(ShortLine(name, a, b)) == [name, a, b, "0"]
  {
    assert Lacks("0", ' ');
    FieldsOfPlain("0");
    assert b + " 0" == b + (" " + "0");
    FieldsOfCons(b, "0");
    FieldsOfCons(a, b + " 0");
    FieldsOfCons(name, a + (" " + (b + " 0")));
  }

  /** The element line of a short whose name starts with V connects its two nodes. */
  lemma ShortLineShorts(name: string, a: string, b: string)
    requires Lacks(name, ' ') && Lacks(a, ' ') && Lacks(b, ' ')
    requires name != [] && name[0] == 'V'
    ensures LineShorts(ShortLine(name, a, b)) == [(a, b)]
  {
    ShortLineFields(name, a, b);
  }

  /** A line that starts with neither a blank nor V, such as a comment or `.ENDS`, connects nothing. */
  lemma OtherLineShortsNothing(line: string)
    requires line != [] && line[0] != ' ' && line[0] != 'V'
    ensures LineShorts(line) == []
  {
    FieldsFirst(line);
  }

  /** A comment and a short element line, together, make the element's connection. */
  lemma PairShorts(comment: string, name: string, a: string, b: string)
    requires comment != [] && comment[0] == '*'
    requires Lacks(name, ' ') && Lacks(a, ' ') && Lacks(b, ' ')
    requires name != [] && name[0] == 'V'
    ensures Shorts([comment, ShortLine(name, a, b)]) == [(a, b)]
  {
    var element := ShortLine(name, a, b);
    OtherLineShortsNothing(comment);
    ShortLineShorts(name, a, b);
    CollectAppend(LineShorts, [comment], [element]);
    assert [comment, element] == [comment] + [element];
    assert [comment][..0] == [] && [element][..0] == [];
  }

  /** A short element line followed by its comment, together, make the element's connection. */
  lemma PairShortsElementFirst(name: string, a: string, b: string, comment: string)
    requires comment != [] && comment[0] == '*'
    requires Lacks(name, ' ') && Lacks(a, ' ') && Lacks(b, ' ')
    requires name != [] && name[0] == 'V'
    ensures Shorts([ShortLine(name, a, b), comment]) == [(a, b)]
  {
    var element := ShortLine(name, a, b);
    OtherLineShortsNothing(comment);
    ShortLineShorts(name, a, b);
    CollectAppend(LineShorts, [element], [comment]);
    assert [element, comment] == [element] + [comment];
    assert [comment][..0] == [] && [element][..0] == [];
  }

  /** A single short element line makes its connection. */
  lemma SingleShorts(name: string, a: string, b: string)
    requires Lacks(name, ' ') && Lacks(a, ' ') && Lacks(b, ' ')
    requires name != [] && name[0] == 'V'
    ensures Shorts([ShortLine(name, a, b)]) == [(a, b)]
  {
    var element := ShortLine(name, a, b);
    ShortLineShorts(name, a, b);
    assert [element][..0] == [];
    assert Collect(LineShorts, [element]) == Collect(LineShorts, []) + LineShorts(element);
  }

  /** The closing `.ENDS` line connects nothing. */
  lemma EndsShortsNothing(lines: seq<string>)
    ensures Shorts(lines + [".ENDS"]) == Shorts(lines)
  {
    var ends := ".ENDS";
    assert ends != [] && ends[0] == '.';
    OtherLineShortsNothing(ends);
    CollectAppend(LineShorts, lines, [ends]);
    assert [ends][..0] == [];
    assert Collect(LineShorts, [ends]) == Collect(LineShorts, []) + LineShorts(ends);
  }

  /** A printed integer has no character other than a sign and digits. */
  lemma IntToStringLacks(i: int, c: char)
    requires !IsDigit(c) && c != '-'
    ensures Lacks(IntToString(i), c)
  {
    if i < 0 {
      DigitsLack(NatToString(-i), c);
      LacksConcat("-", NatToString(-i), c);
    } else {
      DigitsLack(NatToString(i), c);
    }
  }

  /** The node `pin<n>` of chip pin `n`. */
  function PinNode(n: int): string {
    "pin<" + IntToString(n) + ">"
  }

  /** A pin node has no blank in it. */
  lemma PinNodePlain(n: int)
    ensures Lacks(PinNode(n), ' ')
  {
    IntToStringLacks(n, ' ');
    LacksConcat("pin<", IntToString(n), ' ');
    LacksConcat("pin<" + IntToString(n), ">", ' ');
  }
}
