/**
  Names of cloned databases: how a template's name is cut on a character boundary so
  that generated names fit PostgreSQL's 63 bytes, and how identifiers are quoted.
 */
module DatabaseName {
  import opened Bytes
  import opened Quoting

  const MAX_IDENTIFIER_LEN: nat := 63
  const GENERATED_ID_LEN: nat := 32
  const DISCRIMINATOR_LEN: nat := 4
  const MAX_PREFIX_LEN: nat := MAX_IDENTIFIER_LEN - GENERATED_ID_LEN - 1 - DISCRIMINATOR_LEN - 1
  const CHARSET_LEN: nat := 52

  // ----------------------------------------------------------------- UTF-8

  /** A byte that continues a character (RFC 3629, section 3). */
  predicate Continues(b: Byte) {
    0x80 <= b < 0xC0
  }

  /** The last `k` bytes of a character, six bits each. */
  function Trail(n: nat, k: nat): (b: seq<Byte>)
    ensures |b| == k && forall i | 0 <= i < k :: Continues(b[i])
  {
    if k == 0 then [] else Trail(n / 0x40, k - 1) + [0x80 + n % 0x40]
  }

  function EncodeChar(c: char): (b: seq<Byte>)
    ensures 1 <= |b| <= 4 && !Continues(b[0]) && forall i | 1 <= i < |b| :: Continues(b[i])
  {
    var n := c as int;
    if n < 0x80 then [n]
    else if n < 0x800 then [0xC0 + n / 0x40] + Trail(n, 1)
    else if n < 0x1_0000 then [0xE0 + n / 0x1000] + Trail(n, 2)
    else [0xF0 + n / 0x4_0000] + Trail(n, 3)
  }

  /** The character number that one to four bytes stand for: the marker bits of RFC 3629,
      section 3, are taken off and six bits follow for each further byte. */
  function CharNumber(b: seq<Byte>): int
    requires 1 <= |b| <= 4
  {
    match |b|
    case 1 => b[0]
    case 2 => Bits(b[0], 192) * 64 + Bits(b[1], 128)
    case 3 => (Bits(b[0], 224) * 64 + Bits(b[1], 128)) * 64 + Bits(b[2], 128)
    case _ => ((Bits(b[0], 240) * 64 + Bits(b[1], 128)) * 64 + Bits(b[2], 128)) * 64 + Bits(b[3], 128)
  }

  function Bits(b: int, marker: int): int {
    b - marker
  }

  /** The bytes stand for the character and are as few as possible. */
  lemma EncodesShortest(c: char)
    ensures CharNumber(EncodeChar(c)) == c as int
    ensures |EncodeChar(c)| == if c as int <= 127 then 1 else if c as int <= 2047 then 2
                               else if c as int <= 65535 then 3 else 4
  {
    var n := c as int;
    if 0x80 <= n < 0x800 {
      TrailBytes(n);
    } else if 0x800 <= n < 0x1_0000 {
      TrailBytes(n);
      assert n / 0x40 / 0x40 == n / 0x1000;
    } else if 0x1_0000 <= n {
      TrailBytes(n);
      assert n / 0x40 / 0x40 == n / 0x1000 && n / 0x1000 / 0x40 == n / 0x4_0000;
    }
  }

  lemma TrailBytes(n: nat)
    ensures Trail(n, 1) == [0x80 + n % 0x40]
    ensures Trail(n, 2) == [0x80 + n / 0x40 % 0x40, 0x80 + n % 0x40]
    ensures Trail(n, 3) == [0x80 + n / 0x40 / 0x40 % 0x40, 0x80 + n / 0x40 % 0x40, 0x80 + n % 0x40]
  {
    var m := n / 0x40;
    assert Trail(m / 0x40, 0) == [] && Trail(m, 0) == [] && Trail(m / 0x40, 1) == [0x80 + m / 0x40 % 0x40];
    assert Trail(m, 1) == [0x80 + m % 0x40];
    assert Trail(m, 2) == Trail(m / 0x40, 1) + [0x80 + m % 0x40];
  }

  function Encode(s: string): (b: seq<Byte>)
  {
    if s == "" then [] else Encode(s[..|s| - 1]) + EncodeChar(s[|s| - 1])
  }

  function Len(s: string): nat {
    |Encode(s)|
  }

  predicate IsCharBoundary(b: seq<Byte>, i: nat) {
    i == 0 || i == |b| || (i < |b| && !Continues(b[i]))
  }

  lemma EncodeMore(s: string, c: char)
    ensures Encode(s + [c]) == Encode(s) + EncodeChar(c)
  {
    assert (s + [c])[..|s|] == s;
  }

  lemma Regroup(a: seq<Byte>, b: seq<Byte>, c: seq<Byte>)
    ensures a + b + c == a + (b + c)
  {
  }

  lemma {:induction false} EncodeJoin(s: string, t: string)
    ensures Encode(s + t) == Encode(s) + Encode(t)
  {
    if t == "" {
      assert s + t == s;
    } else {
      var init, last := t[..|t| - 1], t[|t| - 1];
      EncodeJoin(s, init);
      JoinLast(s, init, last);
      assert t == init + [last];
    }
  }

  lemma JoinLast(s: string, init: string, last: char)
    requires Encode(s + init) == Encode(s) + Encode(init)
    ensures Encode(s + (init + [last])) == Encode(s) + Encode(init + [last])
  {
    assert s + (init + [last]) == s + init + [last];
    EncodeMore(init, last);
    EncodeMore(s + init, last);
    Regroup(Encode(s), Encode(init), EncodeChar(last));
  }

  /** Cutting the text cuts its bytes. */
  lemma EncodePrefix(s: string, k: nat)
    requires k <= |s|
    ensures Len(s[..k]) <= Len(s) && Encode(s)[..Len(s[..k])] == Encode(s[..k])
    ensures k < |s| ==> Len(s[..k]) < Len(s)
  {
    assert s == s[..k] + s[k..];
    EncodeJoin(s[..k], s[k..]);
    if k < |s| {
      assert Encode(s[k..]) != [];
    }
  }

  lemma LenGrows(s: string, j: nat, k: nat)
    requires j < k <= |s|
    ensures Len(s[..j]) < Len(s[..k])
  {
    assert s[..k][..j] == s[..j];
    EncodePrefix(s[..k], j);
  }

  ghost predicate CharStart(s: string, i: nat) {
    exists k | 0 <= k <= |s| :: i == Len(s[..k])
  }

  /** The bytes where a character may be cut are exactly where characters start. */
  lemma {:induction false} BoundaryIsCharStart(s: string, i: nat)
    requires i <= Len(s)
    ensures IsCharBoundary(Encode(s), i) <==> CharStart(s, i)
  {
    assert s[..|s|] == s;
    if s == "" {
      assert i == Len(s[..0]);
    } else {
      var init := s[..|s| - 1];
      if i < Len(init) {
        BoundaryIsCharStart(init, i);
        CharStartInit(s, i);
      } else if i == Len(init) {
        assert i == Len(s[..|s| - 1]);
      } else if i < Len(s) {
        forall k | 0 <= k <= |s| ensures i != Len(s[..k]) {
          if k < |s| - 1 { LenGrows(s, k, |s| - 1); }
        }
      } else {
        assert i == Len(s[..|s|]);
      }
    }
  }

  /** Within all but the last character, the last one makes no difference. */
  lemma CharStartInit(s: string, i: nat)
    requires s != "" && i < Len(s[..|s| - 1])
    ensures CharStart(s, i) <==> CharStart(s[..|s| - 1], i)
  {
    var init := s[..|s| - 1];
    if CharStart(s, i) {
      var k :| 0 <= k <= |s| && i == Len(s[..k]);
      if k == |s| {
        LenGrows(s, |s| - 1, |s|);
      }
      assert init[..k] == s[..k];
    }
    if CharStart(init, i) {
      var k :| 0 <= k <= |init| && i == Len(init[..k]);
      assert init[..k] == s[..k];
    }
  }

  // ------------------------------------------------------------ truncation

  /** How many leading characters fit into `max` bytes. */
  function Fit(s: string, max: nat): (k: nat)
    ensures k <= |s| && Len(s[..k]) <= max && (k < |s| ==> Len(s[..k + 1]) > max)
  {
    if Len(s) <= max then
      assert s[..|s|] == s;
      |s|
    else
      var k := Fit(s[..|s| - 1], max);
      assert s[..|s| - 1][..k] == s[..k];
      assert if k < |s| - 1 then s[..|s| - 1][..k + 1] == s[..k + 1] else s[..k + 1] == s;
      k
  }

  function Prefix(template: string, discriminator: string): string {
    if Len(template) <= MAX_PREFIX_LEN then template
    else template[..Fit(template, MAX_PREFIX_LEN)] + "_" + discriminator
  }

  /** A template of at most 25 bytes is kept; of a longer one, the leading characters
      that fit into 25 bytes, and a discriminator. */
  lemma PrefixKeeps(template: string, discriminator: string, k: nat)
    requires k <= |template| && Len(template[..k]) <= 25 && (k < |template| ==> 25 < Len(template[..k + 1]))
    ensures Prefix(template, discriminator)
         == if k == |template| then template else template[..k] + "_" + discriminator
  {
    assert template[..|template|] == template;
    var j := Fit(template, MAX_PREFIX_LEN);
    if k < |template| {
      LenAtLeast(template, k + 1, |template|);
      if j < k {
        LenAtLeast(template, j + 1, k);
      } else if k < j {
        LenAtLeast(template, k + 1, j);
      }
    }
  }

  /** Step back from the limit to a character boundary. */
  method CutAt(template: string) returns (cut: nat)
    requires Len(template) > MAX_PREFIX_LEN
    ensures cut <= MAX_PREFIX_LEN && cut == Len(template[..Fit(template, MAX_PREFIX_LEN)])
  {
    var bytes := Encode(template);
    ghost var k := Fit(template, MAX_PREFIX_LEN);
    assert template[..|template|] == template;
    cut := MAX_PREFIX_LEN;
    while !IsCharBoundary(bytes, cut)
      invariant Len(template[..k]) <= cut <= MAX_PREFIX_LEN
      decreases cut
    {
      BoundaryIsCharStart(template, cut);
      cut := cut - 1;
    }
    BoundaryIsCharStart(template, cut);
    OnlyFit(template, cut);
  }

  lemma OnlyFit(s: string, cut: nat)
    requires Len(s) > MAX_PREFIX_LEN && Len(s[..Fit(s, MAX_PREFIX_LEN)]) <= cut <= MAX_PREFIX_LEN && CharStart(s, cut)
    ensures cut == Len(s[..Fit(s, MAX_PREFIX_LEN)])
  {
    var k := Fit(s, MAX_PREFIX_LEN);
    var j :| 0 <= j <= |s| && cut == Len(s[..j]);
    assert k < |s| by { assert s[..|s|] == s; }
    if j < k {
      LenGrows(s, j, k);
    } else if j > k {
      LenAtLeast(s, k + 1, j);
    }
  }

  lemma LenAtLeast(s: string, j: nat, k: nat)
    requires j <= k <= |s|
    ensures Len(s[..j]) <= Len(s[..k])
  {
    if j < k { LenGrows(s, j, k); }
  }

  /** The prefix of the generated names. */
  method Truncate(template: string, discriminator: string) returns (prefix: seq<Byte>)
    ensures prefix == Encode(Prefix(template, discriminator))
  {
    var bytes := Encode(template);
    if |bytes| <= MAX_PREFIX_LEN {
      return bytes;
    }
    var cut := CutAt(template);
    ghost var k := Fit(template, MAX_PREFIX_LEN);
    EncodePrefix(template, k);
    assert template[..k] + "_" + discriminator == template[..k] + ("_" + discriminator);
    EncodeJoin(template[..k], "_" + discriminator);
    prefix := bytes[..cut] + Encode("_" + discriminator);
  }

  predicate Letters(s: string) {
    forall i | 0 <= i < |s| :: 'A' <= s[i] <= 'Z' || 'a' <= s[i] <= 'z'
  }

  function CharsetAt(i: nat): char
    requires i < CHARSET_LEN
  {
    if i < 26 then 'A' + i as char else 'a' + (i - 26) as char
  }

  /** The text has the picked letters, in order. */
  predicate Spelt(picks: seq<nat>, id: string) {
    |id| == |picks| && forall i | 0 <= i < |picks| :: picks[i] < CHARSET_LEN && id[i] == CharsetAt(picks[i])
  }

  lemma LetterPicked(c: char) returns (i: nat)
    requires Letters([c])
    ensures i < CHARSET_LEN && CharsetAt(i) == c && forall j | 0 <= j < CHARSET_LEN && CharsetAt(j) == c :: j == i
  {
    assert [c][0] == c;
    i := if c <= 'Z' then (c - 'A') as nat else (c - 'a') as nat + 26;
  }

  /** Every text of letters can be generated, and by one sequence of picks only:
      different picks give different names. */
  lemma {:induction false} EveryIdOnce(id: string)
    ensures Letters(id) <==> exists picks :: Spelt(picks, id)
    ensures forall p, q | Spelt(p, id) && Spelt(q, id) :: p == q
  {
    if Letters(id) {
      var picks := PicksOf(id);
    }
    forall p, q | Spelt(p, id) && Spelt(q, id) ensures p == q {
      forall i | 0 <= i < |id| ensures p[i] == q[i] {
        assert CharsetAt(p[i]) == CharsetAt(q[i]);
      }
    }
  }

  lemma {:induction false} PicksOf(id: string) returns (picks: seq<nat>)
    requires Letters(id)
    ensures Spelt(picks, id)
  {
    picks := [];
    if id != "" {
      var n := |id| - 1;
      picks := PicksOf(id[..n]);
      var last := LetterPicked(id[n]);
      picks := picks + [last];
    }
  }

  /** Letters for arbitrary picks. */
  method PickLetters(picks: seq<nat>) returns (id: string)
    requires forall i | 0 <= i < |picks| :: picks[i] < CHARSET_LEN
    ensures Letters(id) && Spelt(picks, id)
  {
    id := "";
    for i := 0 to |picks|
      invariant |id| == i && Letters(id)
      invariant forall j | 0 <= j < i :: id[j] == CharsetAt(picks[j])
    {
      id := id + [CharsetAt(picks[i])];
    }
  }

  function GeneratedName(template: string, discriminator: string, id: string): string {
    Prefix(template, discriminator) + "_" + id
  }

  predicate GeneratedIds(discriminator: string, id: string) {
    && Letters(discriminator) && |discriminator| == DISCRIMINATOR_LEN
    && Letters(id) && |id| == GENERATED_ID_LEN
  }

  lemma {:induction false} LettersLen(s: string)
    requires Letters(s)
    ensures Len(s) == |s|
  {
    if s != "" {
      LettersLen(s[..|s| - 1]);
    }
  }

  lemma PrefixFits(template: string, discriminator: string)
    requires Letters(discriminator) && |discriminator| == DISCRIMINATOR_LEN
    ensures Len(Prefix(template, discriminator)) <= MAX_PREFIX_LEN + 1 + DISCRIMINATOR_LEN
  {
    if Len(template) > MAX_PREFIX_LEN {
      var kept := template[..Fit(template, MAX_PREFIX_LEN)];
      EncodeJoin(kept, "_");
      EncodeJoin(kept + "_", discriminator);
      LettersLen(discriminator);
      assert "_"[..0] == "";
    }
  }

  /** Every generated name fits a PostgreSQL identifier. */
  lemma NameFits(template: string, discriminator: string, id: string)
    requires GeneratedIds(discriminator, id)
    ensures Len(GeneratedName(template, discriminator, id)) <= 63
  {
    var prefix := Prefix(template, discriminator);
    PrefixFits(template, discriminator);
    EncodeJoin(prefix, "_");
    EncodeJoin(prefix + "_", id);
    LettersLen(id);
    assert "_"[..0] == "";
  }

  // --------------------------------------------------------------- quoting

  const DOUBLE_QUOTE := '\"'

  function QuoteIdent(ident: string): string {
    [DOUBLE_QUOTE] + Double(DOUBLE_QUOTE, ident) + [DOUBLE_QUOTE]
  }

  datatype Token = NoToken | Token(ident: string, rest: string)

  /** Read a quoted identifier off SQL text (PostgreSQL documentation, section 4.1.1). */
  function ReadQuoted(sql: string): Token {
    if ['\"'] <= sql && ['\"'] <= Body('\"', sql[1..]) then
      var rest := Body('\"', sql[1..]);
      Token(Undouble('\"', sql[1..|sql| - |rest|]), rest[1..])
    else NoToken
  }

  /** A quoted identifier is read back as itself, and the token ends where it should:
      nothing in the identifier leaks into the statement around it. */
  lemma QuotedIsOneToken(ident: string, after: string)
    requires after == "" || after[0] != '\"'
    ensures ReadQuoted(QuoteIdent(ident) + after) == Token(ident, after)
  {
    var sql := QuoteIdent(ident) + after;
    var end := [DOUBLE_QUOTE] + after;
    assert sql[1..] == Double(DOUBLE_QUOTE, ident) + end;
    assert StopsBody(DOUBLE_QUOTE, end) by {
      if |end| > 1 { assert end[1] == after[0]; }
    }
    BodyOfDouble(DOUBLE_QUOTE, ident, end);
    assert sql[1..|sql| - |end|] == Double(DOUBLE_QUOTE, ident);
    UndoubleDouble(DOUBLE_QUOTE, ident);
    assert end[1..] == after;
  }
}
