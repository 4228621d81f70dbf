/**
  Quoting by doubling: inside quotes, the quote character is written twice.
 */
module Quoting {

  function Double(q: char, v: string): string {
    if v == "" then "" else (if v[0] == q then [q, q] else [v[0]]) + Double(q, v[1..])
  }

  /** A quote anywhere becomes two and everything else stays. */
  lemma {:induction false} DoublePart(q: char, before: string, c: char, after: string)
    ensures Double(q, before + [c] + after)
         == Double(q, before) + (if c == q then [q, q] else [c]) + Double(q, after)
    ensures Double(q, "") == ""
  {
    if before == "" {
      assert before + [c] + after == [c] + after;
    } else {
      var part := if before[0] == q then [q, q] else [before[0]];
      assert (before + [c] + after)[1..] == before[1..] + [c] + after;
      DoublePart(q, before[1..], c, after);
      Associate(part, Double(q, before[1..]), if c == q then [q, q] else [c]);
      Associate(part, Double(q, before[1..]) + if c == q then [q, q] else [c], Double(q, after));
    }
  }

  /** Replace every doubled quote by one, left to right. */
  function Undouble(q: char, s: string): string {
    if s == "" then ""
    else if [q, q] <= s then [q] + Undouble(q, s[2..])
    else [s[0]] + Undouble(q, s[1..])
  }

  /** What is left after the longest run of doubled quotes and other characters. */
  function Body(q: char, s: string): (rest: string)
    ensures |rest| <= |s|
  {
    if [q, q] <= s then Body(q, s[2..])
    else if s != "" && s[0] != q then Body(q, s[1..])
    else s
  }

  lemma {:induction false} UndoubleDouble(q: char, v: string)
    ensures Undouble(q, Double(q, v)) == v
  {
    if v != "" {
      UndoubleDouble(q, v[1..]);
      var d := Double(q, v);
      if v[0] == q {
        assert d[2..] == Double(q, v[1..]);
      } else {
        assert d[1..] == Double(q, v[1..]);
      }
    }
  }

  /** A quote ends the run unless it is doubled. */
  predicate StopsBody(q: char, s: string) {
    s == "" || (s[0] == q && !([q, q] <= s))
  }

  lemma BodyTakes(q: char, part: string, rest: string)
    requires part == [q, q] || (|part| == 1 && part[0] != q)
    ensures Body(q, part + rest) == Body(q, rest)
  {
    var s := part + rest;
    assert s[|part|..] == rest && s[0] == part[0];
  }

  lemma Associate(a: string, b: string, c: string)
    ensures a + b + c == a + (b + c)
  {
  }

  /** A doubled value is read exactly up to the quote that ends it. */
  lemma {:induction false} BodyOfDouble(q: char, v: string, rest: string)
    requires StopsBody(q, rest)
    ensures Body(q, Double(q, v) + rest) == rest
  {
    if v == "" {
      assert Double(q, v) + rest == rest;
    } else {
      BodyOfDouble(q, v[1..], rest);
      var part := if v[0] == q then [q, q] else [v[0]];
      var tail := Double(q, v[1..]);
      BodyTakes(q, part, tail + rest);
      assert Double(q, v) == part + tail;
      Associate(part, tail, rest);
    }
  }

  /** Whatever is read is the doubling of its decoded value. */
  lemma {:induction false} BodyIsDoubled(q: char, s: string) returns (taken: string)
    ensures s == taken + Body(q, s) && StopsBody(q, Body(q, s)) && taken == Double(q, Undouble(q, taken))
  {
    taken := "";
    if [q, q] <= s {
      var t := BodyIsDoubled(q, s[2..]);
      taken := [q, q] + t;
      TakesQuotes(q, t);
      assert s == [q, q] + s[2..];
      Associate([q, q], t, Body(q, s));
    } else if s != "" && s[0] != q {
      var t := BodyIsDoubled(q, s[1..]);
      taken := [s[0]] + t;
      TakesOther(q, s[0], t);
      assert s == [s[0]] + s[1..];
      Associate([s[0]], t, Body(q, s));
    }
  }

  lemma TakesQuotes(q: char, t: string)
    requires t == Double(q, Undouble(q, t))
    ensures [q, q] + t == Double(q, Undouble(q, [q, q] + t))
  {
    var taken := [q, q] + t;
    assert taken[2..] == t;
    assert Undouble(q, taken) == [q] + Undouble(q, t);
    assert Undouble(q, taken)[1..] == Undouble(q, t);
  }

  lemma TakesOther(q: char, c: char, t: string)
    requires c != q && t == Double(q, Undouble(q, t))
    ensures [c] + t == Double(q, Undouble(q, [c] + t))
  {
    var taken := [c] + t;
    assert taken[1..] == t;
    assert Undouble(q, taken) == [c] + Undouble(q, t);
    assert Undouble(q, taken)[1..] == Undouble(q, t);
  }
}
