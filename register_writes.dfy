/**
 * Probe-register settings as the Python code builds them: a dict from
 * register number to value, filled by a sequence of assignments
 * `settings[register] = value` in which a later write to the same register
 * overwrites an earlier one.
 */
module RegisterWrites {

  /** Probe register number -> value (0 ties the probe to VSS, 1 to VDD). */
  type Settings = map<int, int>

  /** One assignment `settings[register] = value`, as (register, value). */
  type Write = (int, int)

  predicate Binary(s: Settings) {
    forall r :: r in s ==> s[r] == 0 || s[r] == 1
  }

  predicate BinaryWrites(ws: seq<Write>) {
    forall w :: w in ws ==> w.1 == 0 || w.1 == 1
  }

  /** Some write in `ws` assigns register `r`. */
  predicate Targets(ws: seq<Write>, r: int) {
    exists w :: w in ws && w.0 == r
  }

  /** A register is assigned by two batches of writes when either batch assigns it. */
  lemma TargetsAppend(a: seq<Write>, b: seq<Write>, r: int)
    ensures Targets(a + b, r) <==> Targets(a, r) || Targets(b, r)
  {
    if Targets(a + b, r) {
      var w :| w in a + b && w.0 == r;
      assert w in a || w in b;
    }
    if Targets(a, r) {
      var w :| w in a && w.0 == r;
      assert w in a + b;
    }
    if Targets(b, r) {
      var w :| w in b && w.0 == r;
      assert w in a + b;
    }
  }

  /** The registers the writes `ws` assign. */
  function Written(ws: seq<Write>): (rs: set<int>)
    ensures forall r :: r in rs <==> Targets(ws, r)
  {
    set w | w in ws :: w.0
  }

  /** Two batches of writes assign the registers either batch assigns. */
  lemma WrittenAppend(a: seq<Write>, b: seq<Write>)
    ensures Written(a + b) == Written(a) + Written(b)
  {
    forall r
      ensures Targets(a + b, r) <==> Targets(a, r) || Targets(b, r)
    {
      TargetsAppend(a, b, r);
    }
  }

  /** Performs the writes `ws` on `s`, first to last. */
  function Apply(s: Settings, ws: seq<Write>): Settings {
    if ws == [] then s
    else Apply(s, ws[..|ws| - 1])[ws[|ws| - 1].0 := ws[|ws| - 1].1]
  }

  /** Performing two batches of writes one after the other is performing their concatenation. */
  lemma {:induction false} ApplyAppend(s: Settings, a: seq<Write>, b: seq<Write>)
    ensures Apply(s, a + b) == Apply(Apply(s, a), b)
    decreases |b|
  {
    if b == [] {
      assert a + b == a;
    } else {
      ApplyAppend(s, a, b[..|b| - 1]);
      assert (a + b)[..|a + b| - 1] == a + b[..|b| - 1];
    }
  }

  /** Performing one more write is updating that one register. */
  lemma ApplySnoc(s: Settings, ws: seq<Write>, w: Write)
    ensures Apply(s, ws + [w]) == Apply(s, ws)[w.0 := w.1]
  {
    assert (ws + [w])[..|ws|] == ws;
  }

  /** After the writes, exactly the old registers and the written ones are set. */
  lemma {:induction false} ApplyHas(s: Settings, ws: seq<Write>, r: int)
    ensures r in Apply(s, ws) <==> r in s || Targets(ws, r)
    decreases |ws|
  {
    if ws != [] {
      var init := ws[..|ws| - 1];
      var last := ws[|ws| - 1];
      ApplyHas(s, init, r);
      assert ws == init + [last];
      assert forall w :: w in ws <==> w in init || w == last;
    }
  }

  /** After the writes, the registers set are the old ones and the written ones. */
  lemma ApplyKeys(s: Settings, ws: seq<Write>)
    ensures Apply(s, ws).Keys == s.Keys + Written(ws)
  {
    forall r
      ensures r in Apply(s, ws) <==> r in s || r in Written(ws)
    {
      ApplyHas(s, ws, r);
    }
  }

  /** A register that no write assigns keeps its old value. */
  lemma {:induction false} ApplyUntouched(s: Settings, ws: seq<Write>, r: int)
    requires !Targets(ws, r)
    ensures r in Apply(s, ws) <==> r in s
    ensures r in s ==> Apply(s, ws)[r] == s[r]
    decreases |ws|
  {
    if ws != [] {
      var init := ws[..|ws| - 1];
      assert ws[|ws| - 1] in ws;
      assert forall w :: w in init ==> w in ws;
      ApplyUntouched(s, init, r);
    }
  }

  /** A register holds the value of the last write that assigns it. */
  lemma {:induction false} ApplyLast(s: Settings, ws: seq<Write>, k: int)
    requires 0 <= k < |ws|
    requires forall j :: k < j < |ws| ==> ws[j].0 != ws[k].0
    ensures ws[k].0 in Apply(s, ws) && Apply(s, ws)[ws[k].0] == ws[k].1
    decreases |ws|
  {
    if k < |ws| - 1 {
      ApplyLast(s, ws[..|ws| - 1], k);
    }
  }

  /** A register that is written, and only ever with the value `v`, ends up holding `v`. */
  lemma {:induction false} ApplyUniform(s: Settings, ws: seq<Write>, r: int, v: int)
    requires Targets(ws, r)
    requires forall w :: w in ws && w.0 == r ==> w.1 == v
    ensures r in Apply(s, ws) && Apply(s, ws)[r] == v
    decreases |ws|
  {
    var last := ws[|ws| - 1];
    var init := ws[..|ws| - 1];
    assert last in ws;
    if last.0 != r {
      assert ws == init + [last];
      assert Targets(init, r);
      assert forall w :: w in init ==> w in ws;
      ApplyUniform(s, init, r, v);
    }
  }

  /** Writing only 0s and 1s over 0s and 1s leaves only 0s and 1s. */
  lemma {:induction false} ApplyBinary(s: Settings, ws: seq<Write>)
    requires Binary(s) && BinaryWrites(ws)
    ensures Binary(Apply(s, ws))
    decreases |ws|
  {
    if ws != [] {
      var init := ws[..|ws| - 1];
      assert ws[|ws| - 1] in ws;
      assert forall w :: w in init ==> w in ws;
      ApplyBinary(s, init);
    }
  }
}
