/**
  The control panel's SQL: the recogniser as its grammar runs it, greedy and without
  backtracking into a choice once made, against the texts it is meant to accept.
 */
module ControlSql {
  import opened Quoting

  const QUOTE := '\''

  // --------------------------------------------------------------- grammar

  /** What is left after a rule, if it matched. */
  datatype Parsed = NoMatch | Rest(rest: string)

  predicate IsSpace(c: char) {
    c == ' ' || c == '\t' || c == '\r' || c == '\n'
  }

  function Lower(c: char): char {
    if 'A' <= c <= 'Z' then c - 'A' + 'a' else c
  }

  /** The same text up to ASCII letter case. */
  predicate SameLetters(a: string, b: string) {
    |a| == |b| && forall i | 0 <= i < |a| :: Lower(a[i]) == Lower(b[i])
  }

  /** Any number of spaces. */
  function Skip(s: string): string {
    if s != "" && IsSpace(s[0]) then Skip(s[1..]) else s
  }

  /** At least one space. */
  function SkipSome(s: string): Parsed {
    if s != "" && IsSpace(s[0]) then Rest(Skip(s)) else NoMatch
  }

  function Exact(word: string, s: string): Parsed {
    if word <= s then Rest(s[|word|..]) else NoMatch
  }

  function Word(word: string, s: string): Parsed {
    if |word| <= |s| && SameLetters(s[..|word|], word) then Rest(s[|word|..]) else NoMatch
  }

  /** A quote, a body in which quotes are doubled, and the quote that ends it. */
  function TextLiteral(s: string): (r: Parsed)
    ensures r.Rest? ==> |r.rest| + 2 <= |s|
  {
    if "'" <= s && "'" <= Body(QUOTE, s[1..]) then Rest(Body(QUOTE, s[1..])[1..]) else NoMatch
  }

  function Cast(s: string): Parsed {
    match Exact("::", Skip(s))
    case NoMatch => NoMatch
    case Rest(t) => Word("text", Skip(t))
  }

  function Parameter(s: string): Parsed {
    match Exact("$1", s)
    case NoMatch => NoMatch
    case Rest(t) => match Cast(t) case NoMatch => Rest(t) case Rest(u) => Rest(u)
  }

  function Ping(s: string): Parsed {
    match Word("SELECT", s)
    case NoMatch => NoMatch
    case Rest(t) => match SkipSome(t) case NoMatch => NoMatch case Rest(u) => Exact("1", u)
  }

  /** The argument pair of a release: the rule that matched and its text. */
  datatype Argument = NoArgument | LiteralText(text: string, rest: string) | ParameterText(rest: string)

  function ReadArgument(s: string): Argument {
    match TextLiteral(s)
    case Rest(t) => LiteralText(s[..|s| - |t|], t)
    case NoMatch => match Parameter(s) case Rest(t) => ParameterText(t) case NoMatch => NoArgument
  }

  /** Up to the argument. */
  function ReleaseHead(s: string): Parsed {
    match Word("SELECT", s)
    case NoMatch => NoMatch
    case Rest(t) =>
      match SkipSome(t)
      case NoMatch => NoMatch
      case Rest(u) =>
        match Word("pgtest_release", u)
        case NoMatch => NoMatch
        case Rest(v) => match Exact("(", Skip(v)) case NoMatch => NoMatch case Rest(w) => Rest(Skip(w))
  }

  /** Nothing but spaces is left, with at most one semicolon among them. */
  predicate Ends(s: string) {
    var t := Skip(s);
    Skip(if ";" <= t then t[1..] else t) == ""
  }

  // ------------------------------------------------------------- statement

  datatype LeaseArgument = Literal(value: string) | Indexed(index: nat)

  datatype Statement = Release(argument: LeaseArgument) | PingStatement

  datatype Outcome = Accepted(statement: Statement) | InvalidControlQuery

  /** Strip the quotes and decode. */
  function Unquote(text: string): string
    requires |text| >= 2
  {
    Undouble(QUOTE, text[1..|text| - 1])
  }

  function Parse(query: string): Outcome {
    var s := Skip(query);
    match Ping(s)
    case Rest(t) => if Ends(t) then Accepted(PingStatement) else InvalidControlQuery
    case NoMatch =>
      match ReleaseHead(s)
      case NoMatch => InvalidControlQuery
      case Rest(t) =>
        match ReadArgument(t)
        case NoArgument => InvalidControlQuery
        case LiteralText(text, u) =>
          if ClosesCall(u) then Accepted(Release(Literal(Unquote(text)))) else InvalidControlQuery
        case ParameterText(u) =>
          if ClosesCall(u) then Accepted(Release(Indexed(0))) else InvalidControlQuery
  }

  predicate ClosesCall(s: string) {
    var t := Skip(s);
    ")" <= t && Ends(t[1..])
  }

  // ------------------------------------------------------- the texts meant

  /** A space, a tab, a carriage return or a line feed, by its code. */
  predicate SpaceCode(code: int) {
    code == 32 || code == 9 || code == 13 || code == 10
  }

  predicate Spaces(w: string) {
    forall i | 0 <= i < |w| :: SpaceCode(w[i] as int)
  }

  /** The character itself or, when it is one of the letters A to Z (codes 65 to 90) or
      a to z (codes 97 to 122), the same letter in the other case. */
  predicate EitherCase(code: int, own: int) {
    || code == own
    || (65 <= own <= 90 && code == own + 32)
    || (97 <= own <= 122 && code == own - 32)
  }

  /** The text is the word, each letter in either case. */
  predicate Spells(text: string, word: string) {
    |text| == |word| && forall i | 0 <= i < |text| :: EitherCase(text[i] as int, word[i] as int)
  }

  /** A value as an SQL string literal. */
  function Quoted(v: string): string {
    "'" + Double('\'', v) + "'"
  }

  /** Everything a query may vary around its command. */
  datatype Layout = Layout(before: string, select: string, gap: string, after: string, semicolon: bool, last: string) {
    predicate Allowed() {
      && Spaces(before) && Spells(select, "SELECT") && gap != "" && Spaces(gap)
      && Spaces(after) && Spaces(last)
    }

    function End(): string {
      after + ((if semicolon then ";" else "") + last)
    }

    function Print(command: string): string {
      before + (select + (gap + (command + End())))
    }
  }

  /** Everything a call may vary around its argument. */
  datatype Call = Call(name: string, open: string, inside: string, close: string) {
    predicate Allowed() {
      Spells(name, "pgtest_release") && Spaces(open) && Spaces(inside) && Spaces(close)
    }

    function Print(argument: string): string {
      name + (open + ("(" + (inside + (argument + (close + ")")))))
    }
  }

  predicate ParameterForm(argument: string, cast: bool, left: string, right: string, text: string) {
    && Spaces(left) && Spaces(right) && Spells(text, "text")
    && argument == "$1" + if cast then left + ("::" + (right + text)) else ""
  }

  ghost predicate IsParameter(argument: string) {
    exists cast, left, right, text :: ParameterForm(argument, cast, left, right, text)
  }

  ghost predicate PingText(query: string) {
    exists l: Layout :: l.Allowed() && query == l.Print("1")
  }

  ghost predicate ReleaseText(query: string, argument: string) {
    exists l: Layout, c: Call :: l.Allowed() && c.Allowed() && query == l.Print(c.Print(argument))
  }

  // --------------------------------------------------------- small matches

  /** Letters match when they are the same up to case, and nothing else does. */
  lemma LettersMatch(c: char, own: char)
    ensures Lower(c) == Lower(own) <==> EitherCase(c as int, own as int)
  {
  }

  lemma WordsMatch(text: string, word: string)
    ensures SameLetters(text, word) <==> Spells(text, word)
  {
    forall i | 0 <= i < |text| && |text| == |word|
      ensures Lower(text[i]) == Lower(word[i]) <==> EitherCase(text[i] as int, word[i] as int)
    {
      LettersMatch(text[i], word[i]);
    }
  }

  predicate StartsDark(s: string) {
    s == "" || !IsSpace(s[0])
  }

  lemma {:induction false} SkipSpaces(w: string, rest: string)
    requires Spaces(w) && StartsDark(rest)
    ensures Skip(w + rest) == rest
  {
    if w == "" {
      assert w + rest == rest;
    } else {
      assert (w + rest)[1..] == w[1..] + rest;
      SkipSpaces(w[1..], rest);
    }
  }

  lemma SkipSomeSpaces(w: string, rest: string)
    requires w != "" && Spaces(w) && StartsDark(rest)
    ensures SkipSome(w + rest) == Rest(rest)
  {
    SkipSpaces(w, rest);
  }

  lemma {:induction false} SkipSplit(s: string) returns (w: string)
    ensures Spaces(w) && s == w + Skip(s) && StartsDark(Skip(s))
  {
    w := "";
    if s != "" && IsSpace(s[0]) {
      var v := SkipSplit(s[1..]);
      w := s[..1] + v;
      OneMoreSpace(s, v, Skip(s[1..]));
    }
  }

  lemma OneMoreSpace(s: string, v: string, rest: string)
    requires s != "" && IsSpace(s[0]) && Spaces(v) && s[1..] == v + rest
    ensures Spaces(s[..1] + v) && s == s[..1] + v + rest
  {
    assert s == s[..1] + s[1..];
  }

  lemma WordMatches(word: string, w: string, rest: string)
    requires Spells(w, word)
    ensures Word(word, w + rest) == Rest(rest)
  {
    WordsMatch(w, word);
    assert (w + rest)[..|word|] == w;
  }

  lemma ExactMatches(word: string, rest: string)
    ensures Exact(word, word + rest) == Rest(rest)
  {
  }

  lemma WordSplit(word: string, s: string) returns (w: string)
    requires Word(word, s).Rest?
    ensures Spells(w, word) && s == w + Word(word, s).rest
  {
    w := s[..|word|];
    WordsMatch(w, word);
  }

  // ------------------------------------------------------------ completeness

  lemma EndsAfter(l: Layout)
    requires l.Allowed()
    ensures Ends(l.End())
  {
    var tail := (if l.semicolon then ";" else "") + l.last;
    SkipSpaces(l.last, "");
    assert l.last + "" == l.last;
    if l.semicolon {
      SkipSpaces(l.after, tail);
      assert tail[1..] == l.last;
    } else {
      assert tail == l.last;
      SkipSpaces(l.after + l.last, "");
      assert l.after + l.last + "" == l.after + l.last;
    }
  }

  lemma SelectMatches(l: Layout, rest: string)
    requires l.Allowed() && StartsDark(rest)
    ensures var s := l.select + (l.gap + rest);
            && StartsDark(s) && Word("SELECT", s) == Rest(l.gap + rest) && SkipSome(l.gap + rest) == Rest(rest)
  {
    WordMatches("SELECT", l.select, l.gap + rest);
    SkipSomeSpaces(l.gap, rest);
    assert EitherCase(l.select[0] as int, "SELECT"[0] as int);
  }

  lemma PingAccepted(l: Layout)
    requires l.Allowed()
    ensures Parse(l.Print("1")) == Accepted(PingStatement)
  {
    var rest := "1" + l.End();
    SelectMatches(l, rest);
    SkipSpaces(l.before, l.select + (l.gap + rest));
    ExactMatches("1", l.End());
    EndsAfter(l);
  }

  lemma CallHead(l: Layout, c: Call, argument: string)
    requires l.Allowed() && c.Allowed() && StartsDark(argument)
    ensures var rest := c.name + (c.open + ("(" + (c.inside + argument)));
            var s := l.select + (l.gap + rest);
            StartsDark(s) && Ping(s) == NoMatch && ReleaseHead(s) == Rest(argument)
  {
    var paren := "(" + (c.inside + argument);
    var rest := c.name + (c.open + paren);
    assert EitherCase(c.name[0] as int, "pgtest_release"[0] as int);
    SelectMatches(l, rest);
    WordMatches("pgtest_release", c.name, c.open + paren);
    SkipSpaces(c.open, paren);
    ExactMatches("(", c.inside + argument);
    SkipSpaces(c.inside, argument);
  }

  lemma CallCloses(l: Layout, c: Call)
    requires l.Allowed() && c.Allowed()
    ensures ClosesCall(c.close + (")" + l.End()))
  {
    SkipSpaces(c.close, ")" + l.End());
    assert (")" + l.End())[1..] == l.End();
    EndsAfter(l);
  }

  lemma Reassociate(l: Layout, c: Call, argument: string)
    ensures var end := c.close + (")" + l.End());
            l.Print(c.Print(argument)) ==
            l.before + (l.select + (l.gap + (c.name + (c.open + ("(" + (c.inside + (argument + end)))))))
  {
    var end := c.close + (")" + l.End());
    assert c.Print(argument) + l.End() == c.name + (c.open + ("(" + (c.inside + (argument + end))));
  }

  /** The text of a literal, and what follows it, as the grammar reads them. */
  lemma LiteralRead(v: string, end: string)
    requires end != "" && end[0] != '\''
    ensures ReadArgument(Quoted(v) + end) == LiteralText(Quoted(v), end) && Unquote(Quoted(v)) == v
  {
    QuotedAgain(Double(QUOTE, v), end);
    QuotedParts(Quoted(v) + end, Double(QUOTE, v), end);
    EndStops(end);
    BodyOfDouble(QUOTE, v, "'" + end);
    UndoubleDouble(QUOTE, v);
  }

  lemma QuotedAgain(taken: string, rest: string)
    ensures "'" + taken + "'" + rest == "'" + (taken + ("'" + rest))
  {
  }

  /** A quote that nothing doubles ends the literal. */
  lemma EndStops(end: string)
    requires end != "" && end[0] != QUOTE
    ensures StopsBody(QUOTE, "'" + end) && "'" <= "'" + end && ("'" + end)[1..] == end
  {
    assert ("'" + end)[1] == end[0];
  }

  lemma LiteralAccepted(l: Layout, c: Call, v: string)
    requires l.Allowed() && c.Allowed()
    ensures Parse(l.Print(c.Print(Quoted(v)))) == Accepted(Release(Literal(v)))
  {
    var end := c.close + (")" + l.End());
    assert end[0] != '\'';
    Reassociate(l, c, Quoted(v));
    CallHead(l, c, Quoted(v) + end);
    LiteralRead(v, end);
    CallCloses(l, c);
    SkipSpaces(l.before, l.select + (l.gap + (c.name + (c.open + ("(" + (c.inside + (Quoted(v) + end)))))));
  }

  lemma CastRead(left: string, right: string, text: string, end: string)
    requires Spaces(left) && Spaces(right) && Spells(text, "text")
    ensures Cast(left + ("::" + (right + (text + end)))) == Rest(end)
  {
    SkipSpaces(left, "::" + (right + (text + end)));
    ExactMatches("::", right + (text + end));
    assert EitherCase(text[0] as int, "text"[0] as int);
    SkipSpaces(right, text + end);
    WordMatches("text", text, end);
  }

  lemma NoCast(c: Call, l: Layout)
    requires c.Allowed()
    ensures Cast(c.close + (")" + l.End())) == NoMatch
  {
    SkipSpaces(c.close, ")" + l.End());
  }

  lemma ParameterRead(c: Call, l: Layout, argument: string, cast: bool, left: string, right: string, text: string)
    requires c.Allowed() && ParameterForm(argument, cast, left, right, text)
    ensures var end := c.close + (")" + l.End()); ReadArgument(argument + end) == ParameterText(end)
  {
    var end := c.close + (")" + l.End());
    var s := argument + end;
    assert s[0] == '$';
    if cast {
      assert s == "$1" + (left + ("::" + (right + (text + end))));
      ExactMatches("$1", left + ("::" + (right + (text + end))));
      CastRead(left, right, text, end);
    } else {
      ExactMatches("$1", end);
      NoCast(c, l);
    }
  }

  lemma ParameterAccepted(l: Layout, c: Call, argument: string)
    requires l.Allowed() && c.Allowed() && IsParameter(argument)
    ensures Parse(l.Print(c.Print(argument))) == Accepted(Release(Indexed(0)))
  {
    var cast, left, right, text :| ParameterForm(argument, cast, left, right, text);
    var end := c.close + (")" + l.End());
    assert argument[0] == '$';
    Reassociate(l, c, argument);
    CallHead(l, c, argument + end);
    ParameterRead(c, l, argument, cast, left, right, text);
    CallCloses(l, c);
    SkipSpaces(l.before, l.select + (l.gap + (c.name + (c.open + ("(" + (c.inside + (argument + end)))))));
  }

  // --------------------------------------------------------------- soundness

  lemma EndsSplit(s: string) returns (after: string, semicolon: bool, last: string)
    requires Ends(s)
    ensures Spaces(after) && Spaces(last) && s == after + ((if semicolon then ";" else "") + last)
  {
    after := SkipSplit(s);
    var t := Skip(s);
    semicolon := ";" <= t;
    var u := if semicolon then t[1..] else t;
    last := SkipSplit(u);
    assert u == last;
    assert t == (if semicolon then ";" else "") + u;
  }

  lemma SelectSplit(s: string) returns (select: string, gap: string)
    requires Word("SELECT", s).Rest? && SkipSome(Word("SELECT", s).rest).Rest?
    ensures Spells(select, "SELECT") && gap != "" && Spaces(gap)
    ensures s == select + (gap + SkipSome(Word("SELECT", s).rest).rest)
  {
    select := WordSplit("SELECT", s);
    gap := SkipSplit(Word("SELECT", s).rest);
  }

  lemma ExactSplit(word: string, s: string)
    requires Exact(word, s).Rest?
    ensures s == word + Exact(word, s).rest
  {
  }

  /** Assemble a layout around a command. */
  lemma Lay(query: string, command: string, rest: string) returns (l: Layout)
    requires var s := Skip(query);
             && Word("SELECT", s).Rest? && SkipSome(Word("SELECT", s).rest) == Rest(command + rest) && Ends(rest)
    ensures l.Allowed() && query == l.Print(command)
  {
    var before := SkipSplit(query);
    var select, gap := SelectSplit(Skip(query));
    var after, semicolon, last := EndsSplit(rest);
    l := Layout(before, select, gap, after, semicolon, last);
  }

  lemma PingSound(query: string)
    requires Parse(query) == Accepted(PingStatement)
    ensures PingText(query)
  {
    var s := Skip(query);
    var t := Ping(s).rest;
    ExactSplit("1", SkipSome(Word("SELECT", s).rest).rest);
    var l := Lay(query, "1", t);
  }

  /** Assemble a call around its argument. */
  lemma LayCall(query: string, argument: string, end: string)
    requires ReleaseHead(Skip(query)) == Rest(argument + end) && ClosesCall(end)
    ensures ReleaseText(query, argument)
  {
    var u := SkipSome(Word("SELECT", Skip(query)).rest).rest;
    var name := WordSplit("pgtest_release", u);
    var v := Word("pgtest_release", u).rest;
    var open := SkipSplit(v);
    ExactSplit("(", Skip(v));
    var w := Exact("(", Skip(v)).rest;
    var inside := SkipSplit(w);
    var close, rest := CloseSplit(end);
    var c := Call(name, open, inside, close);
    CallText(c, argument, rest);
    assert u == name + (open + ("(" + (inside + (argument + end))));
    var l := Lay(query, c.Print(argument), rest);
  }

  lemma CloseSplit(end: string) returns (close: string, rest: string)
    requires ClosesCall(end)
    ensures Spaces(close) && Ends(rest) && end == close + (")" + rest)
  {
    close := SkipSplit(end);
    rest := Skip(end)[1..];
    ExactSplit(")", Skip(end));
  }

  lemma CallText(c: Call, argument: string, rest: string)
    ensures c.name + (c.open + ("(" + (c.inside + (argument + (c.close + (")" + rest)))))) == c.Print(argument) + rest
  {
  }

  lemma LiteralSplit(s: string)
    requires TextLiteral(s).Rest?
    ensures var text := s[..|s| - |TextLiteral(s).rest|];
            text == Quoted(Unquote(text)) && s == text + TextLiteral(s).rest
  {
    var taken := BodyIsDoubled(QUOTE, s[1..]);
    var rest := TextLiteral(s).rest;
    var text := s[..|s| - |rest|];
    ExactSplit("'", s);
    ExactSplit("'", Body(QUOTE, s[1..]));
    QuotedParts(s, taken, rest);
  }

  lemma QuotedParts(s: string, taken: string, rest: string)
    requires s == "'" + (taken + ("'" + rest))
    ensures var text := s[..|s| - |rest|];
            |text| >= 2 && text == "'" + taken + "'" && text[1..|text| - 1] == taken && s == text + rest
    ensures "'" <= s && s[1..] == taken + ("'" + rest)
  {
  }

  lemma LiteralSound(query: string, v: string)
    requires Parse(query) == Accepted(Release(Literal(v)))
    ensures ReleaseText(query, Quoted(v))
  {
    var t := ReleaseHead(Skip(query)).rest;
    LiteralSplit(t);
    var text, end := ReadArgument(t).text, ReadArgument(t).rest;
    LayCall(query, text, end);
  }

  lemma CastSplit(t: string) returns (left: string, right: string, text: string)
    requires Cast(t).Rest?
    ensures Spaces(left) && Spaces(right) && Spells(text, "text")
    ensures t == left + ("::" + (right + text)) + Cast(t).rest
  {
    left := SkipSplit(t);
    ExactSplit("::", Skip(t));
    var u := Exact("::", Skip(t)).rest;
    right := SkipSplit(u);
    text := WordSplit("text", Skip(u));
    CastText(left, right, text, Cast(t).rest);
  }

  lemma CastText(left: string, right: string, text: string, rest: string)
    ensures left + ("::" + (right + (text + rest))) == left + ("::" + (right + text)) + rest
  {
  }

  lemma ParameterSplit(s: string) returns (argument: string)
    requires Parameter(s).Rest?
    ensures IsParameter(argument) && s == argument + Parameter(s).rest
  {
    ExactSplit("$1", s);
    var t := Exact("$1", s).rest;
    if Cast(t).Rest? {
      var left, right, text := CastSplit(t);
      var cast := left + ("::" + (right + text));
      argument := "$1" + cast;
      assert ParameterForm(argument, true, left, right, text);
    } else {
      argument := "$1";
      assert ParameterForm(argument, false, "", "", "text");
    }
  }

  lemma ParameterSound(query: string, index: nat) returns (argument: string)
    requires Parse(query) == Accepted(Release(Indexed(index)))
    ensures index == 0 && IsParameter(argument) && ReleaseText(query, argument)
  {
    var t := ReleaseHead(Skip(query)).rest;
    argument := ParameterSplit(t);
    LayCall(query, argument, Parameter(t).rest);
  }

  // ------------------------------------------------------------ both ways

  /** A query is a ping exactly when it is SELECT 1 in some spelling. */
  lemma PingExactly(query: string)
    ensures Parse(query) == Accepted(PingStatement) <==> PingText(query)
  {
    if Parse(query) == Accepted(PingStatement) {
      PingSound(query);
    }
    if l: Layout :| l.Allowed() && query == l.Print("1") {
      PingAccepted(l);
    }
  }

  /** A query releases the lease `v` exactly when it calls pgtest_release with `v`
      quoted, quotes doubled, in some spelling. */
  lemma LiteralExactly(query: string, v: string)
    ensures Parse(query) == Accepted(Release(Literal(v))) <==> ReleaseText(query, Quoted(v))
  {
    if Parse(query) == Accepted(Release(Literal(v))) {
      LiteralSound(query, v);
    }
    if l: Layout, c: Call :| l.Allowed() && c.Allowed() && query == l.Print(c.Print(Quoted(v))) {
      LiteralAccepted(l, c, v);
    }
  }

  /** A query releases the lease bound to its first parameter exactly when it calls
      pgtest_release with $1, cast to text or not, in some spelling. */
  lemma ParameterExactly(query: string, index: nat)
    ensures Parse(query) == Accepted(Release(Indexed(index)))
       <==> index == 0 && exists argument :: IsParameter(argument) && ReleaseText(query, argument)
  {
    if Parse(query) == Accepted(Release(Indexed(index))) {
      var argument := ParameterSound(query, index);
    }
    if argument :| index == 0 && IsParameter(argument) && ReleaseText(query, argument) {
      var l: Layout, c: Call :| l.Allowed() && c.Allowed() && query == l.Print(c.Print(argument));
      ParameterAccepted(l, c, argument);
    }
  }

  /** No text is two statements: a ping releases nothing, and a release names one
      lease. */
  lemma Unambiguous(query: string, v: string)
    requires ReleaseText(query, Quoted(v))
    ensures !PingText(query)
    ensures forall argument | IsParameter(argument) :: !ReleaseText(query, argument)
    ensures forall w | ReleaseText(query, Quoted(w)) :: w == v
  {
    LiteralExactly(query, v);
    PingExactly(query);
    ParameterExactly(query, 0);
    forall w | ReleaseText(query, Quoted(w)) ensures w == v {
      LiteralExactly(query, w);
    }
  }
}
