/**
  The startup sweep: which databases its LIKE pattern finds, when it would find the
  template itself, and when it is sure to find every database an earlier pool left.
 */
module Sweep {
  import opened DatabaseName

  const ESCAPE := '\\'

  /** LIKE (PostgreSQL documentation, section 9.7.1). A pattern that ends in its
      escape character matches nothing. */
  ghost predicate Like(name: string, pattern: string)
    decreases |pattern|
  {
    if pattern == "" then name == ""
    else if pattern[0] == '%' then exists k | 0 <= k <= |name| :: Like(name[k..], pattern[1..])
    else if pattern[0] == ESCAPE then
      |pattern| >= 2 && name != "" && name[0] == pattern[1] && Like(name[1..], pattern[2..])
    else name != "" && (pattern[0] == '_' || name[0] == pattern[0]) && Like(name[1..], pattern[1..])
  }

  function SweepPattern(template: string): string {
    template + "_%"
  }

  // ------------------------------------------------------ joining patterns

  /** No escape is left unfinished at the end. */
  predicate Closed(pattern: string)
    decreases |pattern|
  {
    if pattern == "" then true
    else if pattern[0] == ESCAPE then |pattern| >= 2 && Closed(pattern[2..])
    else Closed(pattern[1..])
  }

  /** The part of a pattern that its first unit takes. */
  function UnitLen(pattern: string): (n: nat)
    requires pattern != "" && Closed(pattern)
    ensures 1 <= n <= |pattern| && Closed(pattern[n..])
  {
    if pattern[0] == ESCAPE then 2 else 1
  }

  lemma LikeHead(name: string, pattern: string, rest: string)
    requires pattern != "" && Closed(pattern) && pattern[0] != '%'
    ensures var n := UnitLen(pattern);
            Like(name, pattern + rest)
            <==> name != "" && (pattern[0] == '_' || name[0] == pattern[n - 1]) && Like(name[1..], pattern[n..] + rest)
  {
    var n, all := UnitLen(pattern), pattern + rest;
    assert all[n..] == pattern[n..] + rest && all[0] == pattern[0] && all[n - 1] == pattern[n - 1];
  }

  lemma LikeMany(name: string, pattern: string, rest: string)
    requires pattern != "" && pattern[0] == '%'
    ensures Like(name, pattern + rest) <==> exists k | 0 <= k <= |name| :: Like(name[k..], pattern[1..] + rest)
  {
    var all := pattern + rest;
    assert all[1..] == pattern[1..] + rest && all[0] == '%';
  }

  lemma NothingAfter(pattern: string)
    ensures pattern + "" == pattern
  {
  }

  /** What matches two patterns in turn matches them joined. */
  lemma {:induction false} LikeJoin(x: string, y: string, pattern: string, rest: string)
    requires Closed(pattern) && Like(x, pattern) && Like(y, rest)
    ensures Like(x + y, pattern + rest)
    decreases |pattern|
  {
    if pattern == "" {
      assert x + y == y && pattern + rest == rest;
    } else if pattern[0] == '%' {
      var k :| 0 <= k <= |x| && Like(x[k..], pattern[1..]);
      LikeJoin(x[k..], y, pattern[1..], rest);
      JoinMany(x, y, k, pattern, rest);
    } else {
      var n := UnitLen(pattern);
      NothingAfter(pattern);
      NothingAfter(pattern[n..]);
      LikeHead(x, pattern, "");
      LikeJoin(x[1..], y, pattern[n..], rest);
      JoinHead(x, y, pattern, rest);
    }
  }

  lemma JoinMany(x: string, y: string, k: nat, pattern: string, rest: string)
    requires pattern != "" && pattern[0] == '%' && k <= |x| && Like(x[k..] + y, pattern[1..] + rest)
    ensures Like(x + y, pattern + rest)
  {
    assert (x + y)[k..] == x[k..] + y;
    LikeMany(x + y, pattern, rest);
  }

  lemma JoinHead(x: string, y: string, pattern: string, rest: string)
    requires pattern != "" && Closed(pattern) && pattern[0] != '%' && x != ""
    requires var n := UnitLen(pattern);
             (pattern[0] == '_' || x[0] == pattern[n - 1]) && Like(x[1..] + y, pattern[n..] + rest)
    ensures Like(x + y, pattern + rest)
  {
    assert (x + y)[1..] == x[1..] + y;
    LikeHead(x + y, pattern, rest);
  }

  /** What matches two patterns joined splits into matches of each. */
  lemma {:induction false} LikeSplit(name: string, pattern: string, rest: string) returns (k: nat)
    requires Closed(pattern) && Like(name, pattern + rest)
    ensures k <= |name| && Like(name[..k], pattern) && Like(name[k..], rest)
    decreases |pattern|
  {
    NothingAfter(pattern);
    if pattern == "" {
      k := 0;
      assert pattern + rest == rest && name[0..] == name;
    } else if pattern[0] == '%' {
      LikeMany(name, pattern, rest);
      var j :| 0 <= j <= |name| && Like(name[j..], pattern[1..] + rest);
      var i := LikeSplit(name[j..], pattern[1..], rest);
      k := j + i;
      Slices(name, j, i);
      assert Like(name[..k][j..], pattern[1..]);
    } else {
      var n := UnitLen(pattern);
      LikeHead(name, pattern, rest);
      var i := LikeSplit(name[1..], pattern[n..], rest);
      k := i + 1;
      Slices(name, 1, i);
      NothingAfter(pattern[n..]);
      LikeHead(name[..k], pattern, "");
    }
  }

  lemma Slices(name: string, j: nat, i: nat)
    requires j + i <= |name|
    ensures name[..j + i][j..] == name[j..][..i] && name[j + i..] == name[j..][i..]
  {
  }

  lemma {:induction false} ClosedBeforeUnderscore(template: string)
    ensures Closed(template + "_")
    decreases |template|
  {
    var p := template + "_";
    if template == "" {
      assert p[1..] == "";
    } else if template[0] == ESCAPE {
      if |template| == 1 {
        assert p[2..] == "";
      } else {
        assert p[2..] == template[2..] + "_";
        ClosedBeforeUnderscore(template[2..]);
      }
    } else {
      assert p[1..] == template[1..] + "_";
      ClosedBeforeUnderscore(template[1..]);
    }
  }

  lemma AnythingLike(name: string)
    ensures Like(name, "%")
  {
    assert name[|name|..] == "" && "%"[1..] == "";
    assert Like(name[|name|..], "%"[1..]);
  }

  /** For every template whatsoever: a name is found exactly when some prefix of it is
      like the template followed by one more character. */
  lemma SweepFindsPrefix(template: string, name: string)
    ensures Like(name, SweepPattern(template))
       <==> exists k | 0 <= k <= |name| :: Like(name[..k], template + "_")
  {
    var first := template + "_";
    assert SweepPattern(template) == first + "%";
    ClosedBeforeUnderscore(template);
    if Like(name, SweepPattern(template)) {
      var k := LikeSplit(name, first, "%");
    }
    if k :| 0 <= k <= |name| && Like(name[..k], first) {
      PrefixFound(name, k, first);
    }
  }

  /** After a prefix that is like the pattern anything may follow. */
  lemma PrefixFound(name: string, k: nat, first: string)
    requires k <= |name| && Like(name[..k], first) && Closed(first)
    ensures Like(name, first + "%")
  {
    AnythingLike(name[k..]);
    LikeJoin(name[..k], name[k..], first, "%");
    assert name[..k] + name[k..] == name;
  }

  // ------------------------------------------ templates without percent sign

  /** One character of a name, as a pattern asks for it. */
  datatype Unit = Any | Exactly(c: char)

  predicate Fits(c: char, u: Unit) {
    u.Any? || u.c == c
  }

  function Units(pattern: string): seq<Unit>
    requires Closed(pattern)
    decreases |pattern|
  {
    if pattern == "" then [] else
      var n := UnitLen(pattern);
      [if pattern[0] == '_' then Any else Exactly(pattern[n - 1])] + Units(pattern[n..])
  }

  /** The name has the units, character by character. */
  predicate Begins(name: string, units: seq<Unit>) {
    |units| <= |name| && forall i | 0 <= i < |units| :: Fits(name[i], units[i])
  }

  lemma BeginsTail(name: string, units: seq<Unit>)
    requires units != []
    ensures Begins(name, units) <==> name != "" && Fits(name[0], units[0]) && Begins(name[1..], units[1..])
  {
    if name != "" && Fits(name[0], units[0]) && Begins(name[1..], units[1..]) {
      forall i | 0 <= i < |units| ensures Fits(name[i], units[i]) {
        if i > 0 { assert name[i] == name[1..][i - 1] && units[i] == units[1..][i - 1]; }
      }
    }
  }

  lemma {:induction false} LikeUnits(name: string, pattern: string)
    requires Closed(pattern) && '%' !in pattern
    ensures Like(name, pattern + "%") <==> Begins(name, Units(pattern))
    decreases |pattern|
  {
    if pattern == "" {
      AnythingLike(name);
      assert pattern + "%" == "%";
    } else {
      var n := UnitLen(pattern);
      assert pattern[0] in pattern;
      LikeHead(name, pattern, "%");
      assert Units(pattern)[1..] == Units(pattern[n..]);
      BeginsTail(name, Units(pattern));
      if name != "" {
        LikeUnits(name[1..], pattern[n..]);
      }
    }
  }

  function SweepUnits(template: string): seq<Unit> {
    ClosedBeforeUnderscore(template);
    Units(template + "_")
  }

  /** Without a percent sign, escapes or not, the sweep finds exactly the names whose
      first characters are the ones the template asks for and one more. */
  lemma SweepExactly(template: string, name: string)
    requires '%' !in template
    ensures Like(name, SweepPattern(template)) <==> Begins(name, SweepUnits(template))
  {
    ClosedBeforeUnderscore(template);
    assert SweepPattern(template) == template + "_" + "%";
    LikeUnits(name, template + "_");
  }

  // ---------------------------------------------- templates without escapes

  predicate IsWild(c: char) {
    c == '_' || c == '%'
  }

  /** Where the last character that stands for itself ends. */
  function Fixed(s: string): (f: nat)
    ensures f <= |s| && (f > 0 ==> !IsWild(s[f - 1]))
  {
    if s == "" then 0
    else if IsWild(s[|s| - 1]) then Fixed(s[..|s| - 1])
    else |s|
  }

  predicate Wild(s: string) {
    forall i | 0 <= i < |s| :: IsWild(s[i])
  }

  /** The characters a run of wildcards needs at least. */
  function Blanks(s: string): (n: nat)
    ensures n <= |s|
  {
    if s == "" then 0 else (if s[0] == '_' then 1 else 0) + Blanks(s[1..])
  }

  lemma {:induction false} BlanksLess(s: string, i: nat)
    requires i < |s| && s[i] != '_'
    ensures Blanks(s) < |s|
  {
    if i > 0 {
      BlanksLess(s[1..], i - 1);
    }
  }

  lemma {:induction false} NotBlank(s: string) returns (i: nat)
    requires Blanks(s) < |s|
    ensures i < |s| && s[i] != '_'
  {
    i := 0;
    if s[0] == '_' {
      var j := NotBlank(s[1..]);
      i := j + 1;
    }
  }

  lemma {:induction false} WildTail(name: string, wild: string)
    requires Wild(wild)
    ensures Like(name, wild + "%") <==> |name| >= Blanks(wild)
    decreases |wild|
  {
    if wild == "" {
      AnythingLike(name);
      assert wild + "%" == "%";
    } else if wild[0] == '%' {
      LikeMany(name, wild, "%");
      forall k | 0 <= k <= |name| ensures Like(name[k..], wild[1..] + "%") <==> |name| - k >= Blanks(wild[1..]) {
        WildTail(name[k..], wild[1..]);
      }
      if |name| >= Blanks(wild[1..]) {
        assert Like(name[0..], wild[1..] + "%");
      }
    } else {
      assert wild[0] == '_';
      var all := wild + "%";
      assert all[0] == '_' && all[1..] == wild[1..] + "%";
      if name != "" {
        WildTail(name[1..], wild[1..]);
      }
    }
  }

  lemma {:induction false} PlainClosed(s: string)
    requires ESCAPE !in s
    ensures Closed(s)
  {
    if s != "" {
      assert s[0] in s;
      PlainClosed(s[1..]);
    }
  }

  /** Without escapes, a text is like itself. */
  lemma {:induction false} LikeItself(s: string)
    requires ESCAPE !in s
    ensures Like(s, s)
  {
    if s != "" {
      assert s[0] in s;
      LikeItself(s[1..]);
      assert s[0] == '%' ==> Like(s[1..], s[1..]);
    }
  }

  function Count(c: char, s: string): nat {
    if s == "" then 0 else Count(c, s[..|s| - 1]) + if s[|s| - 1] == c then 1 else 0
  }

  lemma {:induction false} CountJoin(c: char, s: string, t: string)
    ensures Count(c, s + t) == Count(c, s) + Count(c, t)
  {
    if t == "" {
      assert s + t == s;
    } else {
      assert (s + t)[..|s + t| - 1] == s + t[..|t| - 1];
      CountJoin(c, s, t[..|t| - 1]);
    }
  }

  lemma CountFirst(c: char, s: string)
    requires s != ""
    ensures Count(c, s) == (if s[0] == c then 1 else 0) + Count(c, s[1..])
  {
    assert s == s[..1] + s[1..];
    CountJoin(c, s[..1], s[1..]);
    assert s[..1][..0] == "";
  }

  lemma CountRest(c: char, s: string, k: nat)
    requires k <= |s|
    ensures Count(c, s) == Count(c, s[..k]) + Count(c, s[k..])
  {
    assert s == s[..k] + s[k..];
    CountJoin(c, s[..k], s[k..]);
  }

  /** A name has every character its pattern asks for, as often as it asks. */
  lemma {:induction false} LikeCounts(c: char, name: string, pattern: string)
    requires ESCAPE !in pattern && !IsWild(c) && Like(name, pattern)
    ensures Count(c, name) >= Count(c, pattern)
    decreases |pattern|
  {
    if pattern != "" {
      assert pattern[0] in pattern;
      CountFirst(c, pattern);
      if pattern[0] == '%' {
        var k :| 0 <= k <= |name| && Like(name[k..], pattern[1..]);
        LikeCounts(c, name[k..], pattern[1..]);
        CountRest(c, name, k);
      } else {
        LikeCounts(c, name[1..], pattern[1..]);
        CountFirst(c, name);
      }
    }
  }

  /** The template stands for itself up to `f` and is wildcards from there on. */
  predicate FixedUpTo(template: string, f: nat) {
    f <= |template| && Wild(template[f..]) && (f > 0 ==> !IsWild(template[f - 1]))
  }

  lemma {:induction false} FixedIs(template: string)
    ensures FixedUpTo(template, Fixed(template))
  {
    if template != "" && IsWild(template[|template| - 1]) {
      var init, f := template[..|template| - 1], Fixed(template);
      FixedIs(init);
      forall i | 0 <= i < |template[f..]| ensures IsWild(template[f..][i]) {
        if i < |init| - f { assert init[f..][i] == template[f..][i]; }
      }
    }
  }

  /** A shorter prefix of the fixed part has fewer of its last character. */
  lemma FewerBefore(template: string, f: nat, k: nat)
    requires k < f <= |template|
    ensures Count(template[f - 1], template[..k]) < Count(template[f - 1], template[..f])
  {
    var c, head := template[f - 1], template[..f];
    CountRest(c, head, f - 1);
    assert head[f - 1..] == [c] && [c][..0] == "";
    CountRest(c, head[..f - 1], k);
    assert head[..f - 1][..k] == template[..k];
  }

  /** So it is not like the fixed part. */
  lemma PrefixTooShort(template: string, f: nat, k: nat)
    requires ESCAPE !in template && FixedUpTo(template, f) && k < f
    ensures !Like(template[..k], template[..f])
  {
    FewerBefore(template, f, k);
    TooFew(template[f - 1], template[..k], template[..f]);
  }

  lemma TooFew(c: char, name: string, pattern: string)
    requires ESCAPE !in pattern && !IsWild(c) && Count(c, name) < Count(c, pattern)
    ensures !Like(name, pattern)
  {
    if Like(name, pattern) {
      LikeCounts(c, name, pattern);
    }
  }

  lemma SweepParts(template: string, f: nat)
    requires FixedUpTo(template, f)
    ensures SweepPattern(template) == template[..f] + (template[f..] + "_" + "%")
    ensures Wild(template[f..] + "_") && Blanks(template[f..] + "_") == Blanks(template[f..]) + 1
  {
    BlanksMore(template[f..]);
    Halves(template, f);
    Associate(template[..f], template[f..]);
  }

  lemma Associate(head: string, tail: string)
    ensures head + tail + "_%" == head + (tail + "_" + "%")
  {
  }

  lemma Halves(s: string, k: nat)
    requires k <= |s|
    ensures s == s[..k] + s[k..]
  {
  }

  lemma SplitRoom(name: string, head: string, wild: string) returns (k: nat)
    requires ESCAPE !in head && Wild(wild) && Like(name, head + (wild + "%"))
    ensures k <= |name| && Like(name[..k], head) && |name| - k >= Blanks(wild)
  {
    PlainClosed(head);
    k := LikeSplit(name, head, wild + "%");
    WildTail(name[k..], wild);
  }

  lemma JoinRoom(head: string, tail: string, wild: string)
    requires ESCAPE !in head && Wild(wild) && |tail| >= Blanks(wild)
    ensures Like(head + tail, head + (wild + "%"))
  {
    PlainClosed(head);
    LikeItself(head);
    WildTail(tail, wild);
    LikeJoin(head, tail, head, wild + "%");
  }

  /** A name that agrees with the template on its fixed part is found exactly when the
      rest of the name has room for the template's underscores and one character. */
  lemma SharedPrefix(template: string, f: nat, tail: string)
    requires ESCAPE !in template && FixedUpTo(template, f)
    ensures Like(template[..f] + tail, SweepPattern(template)) <==> |tail| > Blanks(template[f..])
  {
    var head, wild := template[..f], template[f..] + "_";
    SweepParts(template, f);
    if Like(head + tail, head + (wild + "%")) {
      var k := SplitRoom(head + tail, head, wild);
      if k < f {
        assert (head + tail)[..k] == template[..k];
        PrefixTooShort(template, f, k);
      }
    }
    if |tail| >= Blanks(wild) {
      JoinRoom(head, tail, wild);
    }
  }

  lemma {:induction false} BlanksMore(s: string)
    ensures Blanks(s + "_") == Blanks(s) + 1
  {
    if s != "" {
      BlanksMore(s[1..]);
      assert (s + "_")[1..] == s[1..] + "_";
    } else {
      assert (s + "_")[1..] == "";
    }
  }

  // ------------------------------------------------------- the template itself

  /** The last character that is not an underscore is a percent sign. */
  predicate EndsInPercent(template: string) {
    exists k | 0 <= k < |template| :: template[k] == '%' && forall i | k < i < |template| :: template[i] == '_'
  }

  lemma PercentInTail(template: string, f: nat)
    requires FixedUpTo(template, f)
    ensures EndsInPercent(template) <==> Blanks(template[f..]) < |template| - f
  {
    if EndsInPercent(template) {
      PercentLeavesRoom(template, f);
    }
    if Blanks(template[f..]) < |template| - f {
      var i := NotBlank(template[f..]);
      var k := LastPercent(template, f + i);
    }
  }

  lemma PercentLeavesRoom(template: string, f: nat)
    requires FixedUpTo(template, f) && EndsInPercent(template)
    ensures Blanks(template[f..]) < |template| - f
  {
    var k :| 0 <= k < |template| && template[k] == '%' && forall i | k < i < |template| :: template[i] == '_';
    BlanksLess(template[f..], k - f);
  }

  /** The last percent sign among the wildcards at the end. */
  lemma {:induction false} LastPercent(template: string, i: nat) returns (k: nat)
    requires i < |template| && template[i] == '%' && forall j | i <= j < |template| :: IsWild(template[j])
    ensures k < |template| && template[k] == '%' && forall j | k < j < |template| :: template[j] == '_'
  {
    k := |template| - 1;
    if template[k] != '%' {
      k := LastPercent(template[..k], i);
    }
  }

  /** Without escapes the sweep spares the template exactly when the last character of
      its name other than an underscore is not a percent sign. */
  lemma SweepSparesTemplate(template: string)
    requires ESCAPE !in template
    ensures !Like(template, SweepPattern(template)) <==> !EndsInPercent(template)
  {
    var f := Fixed(template);
    FixedIs(template);
    Halves(template, f);
    SharedPrefix(template, f, template[f..]);
    PercentInTail(template, f);
  }

  /** Such a template: the pattern finds it. */
  lemma PercentTemplateFound()
    ensures Like("a%", SweepPattern("a%"))
  {
    assert "a%"[1] == '%';
    SweepSparesTemplate("a%");
  }

  // ----------------------------------------------------- generated databases

  /** The part of a generated name that follows what it keeps of a long template. */
  function Suffix(discriminator: string, id: string): string {
    "_" + discriminator + "_" + id
  }

  const SUFFIX_LEN: nat := 1 + DISCRIMINATOR_LEN + 1 + GENERATED_ID_LEN

  lemma LongName(template: string, discriminator: string, id: string)
    requires Len(template) > MAX_PREFIX_LEN
    ensures var k := Fit(template, MAX_PREFIX_LEN);
            && template == template[..k] + template[k..]
            && GeneratedName(template, discriminator, id) == template[..k] + Suffix(discriminator, id)
  {
    Halves(template, Fit(template, MAX_PREFIX_LEN));
    Rejoin(template[..Fit(template, MAX_PREFIX_LEN)], discriminator, id);
  }

  lemma Rejoin(kept: string, discriminator: string, id: string)
    ensures kept + "_" + discriminator + "_" + id == kept + ("_" + discriminator + "_" + id)
  {
  }

  /** What can be told from the template alone: it was not cut, or only wildcards were
      cut off and the generated part has room for them. */
  predicate Sweepable(template: string) {
    || Len(template) <= MAX_PREFIX_LEN
    || (var k, f := Fit(template, MAX_PREFIX_LEN), Fixed(template);
        f <= k && Blanks(template[f..]) < k - f + SUFFIX_LEN)
  }

  ghost predicate AlwaysFound(template: string) {
    forall discriminator, id | GeneratedIds(discriminator, id) ::
      Like(GeneratedName(template, discriminator, id), SweepPattern(template))
  }

  /** The names generated for a template of at most 25 bytes are all found. */
  lemma SweepFindsShort(template: string, discriminator: string, id: string)
    requires ESCAPE !in template && Len(template) <= MAX_PREFIX_LEN
    ensures Like(GeneratedName(template, discriminator, id), SweepPattern(template))
  {
    FixedIs(template);
    KeptFound(template, Fixed(template), |template|, "_" + id);
    assert template[..|template|] == template;
    assert template + "_" + id == template + ("_" + id);
  }

  /** When only wildcards were cut off, it is a matter of room. */
  lemma KeptFound(template: string, f: nat, k: nat, suffix: string)
    requires ESCAPE !in template && FixedUpTo(template, f) && f <= k <= |template|
    ensures Like(template[..k] + suffix, SweepPattern(template)) <==> Blanks(template[f..]) < k - f + |suffix|
  {
    KeptParts(template, f, k, suffix);
    SharedPrefix(template, f, template[f..k] + suffix);
  }

  lemma KeptParts(template: string, f: nat, k: nat, suffix: string)
    requires f <= k <= |template|
    ensures template[..k] + suffix == template[..f] + (template[f..k] + suffix)
  {
  }

  function Repeat(c: char, n: nat): string {
    seq(n, _ => c)
  }

  lemma {:induction false} CountAbsent(c: char, s: string)
    requires c !in s
    ensures Count(c, s) == 0
  {
    if s != "" {
      assert s[|s| - 1] in s;
      CountAbsent(c, s[..|s| - 1]);
    }
  }

  /** The name generated when every letter comes out as `x`. */
  function Probe(template: string, x: char): string {
    GeneratedName(template, Repeat(x, DISCRIMINATOR_LEN), Repeat(x, GENERATED_ID_LEN))
  }

  lemma ProbeName(template: string, x: char) returns (k: nat, suffix: string)
    requires Len(template) > MAX_PREFIX_LEN
    ensures k == Fit(template, MAX_PREFIX_LEN) && Probe(template, x) == template[..k] + suffix
    ensures forall c | c in suffix :: c == '_' || c == x
  {
    k := Fit(template, MAX_PREFIX_LEN);
    suffix := Suffix(Repeat(x, DISCRIMINATOR_LEN), Repeat(x, GENERATED_ID_LEN));
    LongName(template, Repeat(x, DISCRIMINATOR_LEN), Repeat(x, GENERATED_ID_LEN));
  }

  /** A fixed character that was cut off is missing from a name whose letters avoid it. */
  lemma CutOffMissing(template: string, f: nat, k: nat, suffix: string)
    requires ESCAPE !in template && FixedUpTo(template, f) && k < f && template[f - 1] !in suffix
    ensures !Like(template[..k] + suffix, SweepPattern(template))
  {
    CutOffCounts(template, k, suffix, f - 1);
    TooFew(template[f - 1], template[..k] + suffix, SweepPattern(template));
  }

  lemma CutOffCounts(template: string, k: nat, suffix: string, i: nat)
    requires k <= i < |template| && template[i] !in suffix
    ensures Count(template[i], template[..k] + suffix) < Count(template[i], SweepPattern(template))
  {
    var c := template[i];
    CountJoin(c, template[..k], suffix);
    CountAbsent(c, suffix);
    CountRest(c, template, k);
    CountJoin(c, template, "_%");
    CountAtLeastOne(c, template[k..], i - k);
  }

  lemma CountAtLeastOne(c: char, s: string, i: nat)
    requires i < |s| && s[i] == c
    ensures Count(c, s) > 0
  {
    CountRest(c, s, i);
    CountFirst(c, s[i..]);
  }

  /** A restarted pool sweeps every database an earlier one generated, whatever the
      random letters were, exactly for the sweepable templates. */
  lemma SweepIsComplete(template: string)
    requires ESCAPE !in template
    ensures AlwaysFound(template) <==> Sweepable(template)
  {
    if Len(template) <= MAX_PREFIX_LEN {
      AllShortFound(template);
    } else if Fixed(template) <= Fit(template, MAX_PREFIX_LEN) {
      AllLongFound(template);
    } else {
      FixedIs(template);
      var x := SomeMissed(template, Fixed(template));
      NotAlways(template, x);
    }
  }

  lemma AllShortFound(template: string)
    requires ESCAPE !in template && Len(template) <= MAX_PREFIX_LEN
    ensures AlwaysFound(template)
  {
    forall discriminator, id | GeneratedIds(discriminator, id)
      ensures Like(GeneratedName(template, discriminator, id), SweepPattern(template))
    {
      SweepFindsShort(template, discriminator, id);
    }
  }

  lemma Letter(x: char)
    requires 'a' <= x <= 'z'
    ensures GeneratedIds(Repeat(x, DISCRIMINATOR_LEN), Repeat(x, GENERATED_ID_LEN))
  {
  }

  lemma AllLongFound(template: string)
    requires ESCAPE !in template && Len(template) > MAX_PREFIX_LEN && Fixed(template) <= Fit(template, MAX_PREFIX_LEN)
    ensures AlwaysFound(template) <==> Sweepable(template)
  {
    forall discriminator, id | GeneratedIds(discriminator, id)
      ensures Like(GeneratedName(template, discriminator, id), SweepPattern(template)) <==> Sweepable(template)
    {
      LongFound(template, discriminator, id);
    }
    Letter('a');
  }

  lemma LongFound(template: string, discriminator: string, id: string)
    requires ESCAPE !in template && Len(template) > MAX_PREFIX_LEN && Fixed(template) <= Fit(template, MAX_PREFIX_LEN)
    requires GeneratedIds(discriminator, id)
    ensures Like(GeneratedName(template, discriminator, id), SweepPattern(template)) <==> Sweepable(template)
  {
    LongName(template, discriminator, id);
    FixedIs(template);
    KeptFound(template, Fixed(template), Fit(template, MAX_PREFIX_LEN), Suffix(discriminator, id));
  }

  lemma SomeMissed(template: string, f: nat) returns (x: char)
    requires ESCAPE !in template && Len(template) > MAX_PREFIX_LEN && FixedUpTo(template, f)
    requires Fit(template, MAX_PREFIX_LEN) < f
    ensures 'a' <= x <= 'z' && !Like(Probe(template, x), SweepPattern(template))
  {
    x := if template[f - 1] == 'a' then 'b' else 'a';
    ProbeMissed(template, f, x);
  }

  lemma NotAlways(template: string, x: char)
    requires 'a' <= x <= 'z' && !Like(Probe(template, x), SweepPattern(template))
    ensures !AlwaysFound(template)
  {
    Letter(x);
  }

  lemma ProbeMissed(template: string, f: nat, x: char)
    requires ESCAPE !in template && Len(template) > MAX_PREFIX_LEN && FixedUpTo(template, f)
    requires Fit(template, MAX_PREFIX_LEN) < f && x != template[f - 1]
    ensures !Like(Probe(template, x), SweepPattern(template))
  {
    var k, suffix := ProbeName(template, x);
    CutOffMissing(template, f, k, suffix);
  }

  /** A template of 26 letters: none of its databases is ever found again. */
  lemma LongTemplateMissed(discriminator: string, id: string)
    ensures var template := Repeat('a', 26);
            !Like(GeneratedName(template, discriminator, id), SweepPattern(template))
  {
    var template := Repeat('a', 26);
    var name := GeneratedName(template, discriminator, id);
    LettersLen(template);
    LettersFit(template);
    LongName(template, discriminator, id);
    assert name[25] == '_';
    SweepExactly(template, name);
    AllLetters(26);
  }

  lemma LettersFit(s: string)
    requires Letters(s) && |s| > MAX_PREFIX_LEN
    ensures Fit(s, MAX_PREFIX_LEN) == MAX_PREFIX_LEN
  {
    OneByteEach(s, Fit(s, MAX_PREFIX_LEN));
  }

  lemma OneByteEach(s: string, k: nat)
    requires Letters(s) && k <= |s| && Len(s[..k]) <= MAX_PREFIX_LEN < |s|
    requires k < |s| ==> Len(s[..k + 1]) > MAX_PREFIX_LEN
    ensures k == MAX_PREFIX_LEN
  {
    LettersLen(s[..k]);
    if k < |s| {
      LettersLen(s[..k + 1]);
    }
  }

  lemma {:induction false} AllLetters(n: nat)
    ensures |SweepUnits(Repeat('a', n))| == n + 1
    ensures forall i | 0 <= i < n :: SweepUnits(Repeat('a', n))[i] == Exactly('a')
  {
    var s := Repeat('a', n);
    ClosedBeforeUnderscore(s);
    if n == 0 {
      assert s + "_" == "_" && "_"[1..] == "";
      assert Units("") == [];
    } else {
      AllLetters(n - 1);
      ClosedBeforeUnderscore(Repeat('a', n - 1));
      assert (s + "_")[1..] == Repeat('a', n - 1) + "_";
    }
  }

  /** The sweep also finds names that no pool generated. */
  lemma ForeignNameFound()
    ensures Like("apple", SweepPattern("app"))
  {
    assert "app"[..3] == "app" && "app"[3..] == "" && "app" + "le" == "apple";
    SharedPrefix("app", 3, "le");
  }

  // ------------------------------------------------- templates with escapes

  lemma {:induction false} EscapesShorten(template: string)
    requires ESCAPE in template
    ensures |SweepUnits(template)| <= |template|
    decreases |template|
  {
    var p := template + "_";
    ClosedBeforeUnderscore(template);
    if template[0] == ESCAPE {
      if |template| == 1 {
        assert p[2..] == "" && Units("") == [];
      } else {
        assert p[2..] == template[2..] + "_";
        UnitsAtMost(template[2..]);
      }
    } else {
      assert p[1..] == template[1..] + "_";
      ClosedBeforeUnderscore(template[1..]);
      EscapesShorten(template[1..]);
    }
  }

  lemma {:induction false} UnitsAtMost(template: string)
    ensures |SweepUnits(template)| <= |template| + 1
    decreases |template|
  {
    var p := template + "_";
    ClosedBeforeUnderscore(template);
    if template == "" {
      assert p[1..] == "" && Units("") == [];
    } else if template[0] == ESCAPE {
      if |template| == 1 {
        assert p[2..] == "" && Units("") == [];
      } else {
        assert p[2..] == template[2..] + "_";
        UnitsAtMost(template[2..]);
      }
    } else {
      assert p[1..] == template[1..] + "_";
      UnitsAtMost(template[1..]);
    }
  }

  /** With escapes and no percent sign, the sweep finds a name generated for a template
      of at most 25 bytes exactly when it would find the template as well. */
  lemma EscapedTemplate(template: string, discriminator: string, id: string)
    requires ESCAPE in template && '%' !in template && Len(template) <= MAX_PREFIX_LEN
    ensures Like(GeneratedName(template, discriminator, id), SweepPattern(template))
       <==> Like(template, SweepPattern(template))
  {
    var name := GeneratedName(template, discriminator, id);
    EscapesShorten(template);
    SweepExactly(template, name);
    SweepExactly(template, template);
    assert forall i | 0 <= i < |template| :: name[i] == template[i];
  }

  lemma EscapeThenAny()
    ensures Like("\\\\", "\\\\_%")
  {
    assert "_%"[1..] == "%" && "\\"[1..] == "";
    AnythingLike("");
    assert Like("\\", "_%");
    assert "\\\\_%"[2..] == "_%" && "\\\\"[1..] == "\\";
  }

  /** A doubled escape at the end: the template is found. */
  lemma EscapedTemplateFound()
    ensures Like("a\\\\", SweepPattern("a\\\\"))
  {
    EscapeThenAny();
    assert SweepPattern("a\\\\")[1..] == "\\\\_%" && "a\\\\"[1..] == "\\\\";
  }

  /** An escape before a letter: the databases of the template are never found. */
  lemma EscapedTemplateMissed(discriminator: string, id: string)
    ensures !Like(GeneratedName("\\b", discriminator, id), SweepPattern("\\b"))
  {
    var name := GeneratedName("\\b", discriminator, id);
    assert SweepPattern("\\b")[2..] == "_%";
    assert name[0] == '\\';
  }

  /** Without a percent sign, two choices of letters that agree nowhere decide for all. */
  lemma TwoProbes(template: string)
    requires '%' !in template
    ensures AlwaysFound(template) <==>
            Like(Probe(template, 'a'), SweepPattern(template)) && Like(Probe(template, 'b'), SweepPattern(template))
  {
    Letter('a');
    Letter('b');
    if Like(Probe(template, 'a'), SweepPattern(template)) && Like(Probe(template, 'b'), SweepPattern(template)) {
      forall discriminator, id | GeneratedIds(discriminator, id)
        ensures Like(GeneratedName(template, discriminator, id), SweepPattern(template))
      {
        Probed(template, discriminator, id);
      }
    }
  }

  /** A generated name agrees with a probe outside its letters. */
  lemma ProbeShape(template: string, discriminator: string, id: string, i: nat)
    requires GeneratedIds(discriminator, id)
    ensures |GeneratedName(template, discriminator, id)| == |Probe(template, 'a')| == |Probe(template, 'b')|
    ensures i < |Probe(template, 'a')| ==>
              || GeneratedName(template, discriminator, id)[i] == Probe(template, 'a')[i]
              || (Probe(template, 'a')[i] == 'a' && Probe(template, 'b')[i] == 'b')
  {
    if Len(template) > MAX_PREFIX_LEN {
      LongName(template, discriminator, id);
      LongName(template, Repeat('a', DISCRIMINATOR_LEN), Repeat('a', GENERATED_ID_LEN));
      LongName(template, Repeat('b', DISCRIMINATOR_LEN), Repeat('b', GENERATED_ID_LEN));
    }
  }

  lemma Probed(template: string, discriminator: string, id: string)
    requires '%' !in template && GeneratedIds(discriminator, id)
    requires Like(Probe(template, 'a'), SweepPattern(template)) && Like(Probe(template, 'b'), SweepPattern(template))
    ensures Like(GeneratedName(template, discriminator, id), SweepPattern(template))
  {
    var name := GeneratedName(template, discriminator, id);
    SweepExactly(template, name);
    SweepExactly(template, Probe(template, 'a'));
    SweepExactly(template, Probe(template, 'b'));
    ProbeShape(template, discriminator, id, 0);
    forall i | 0 <= i < |SweepUnits(template)| ensures Fits(name[i], SweepUnits(template)[i]) {
      ProbeShape(template, discriminator, id, i);
    }
  }
}
