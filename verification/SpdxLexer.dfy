/** The lexer of the licence check (`tokenize` in scripts/ci/check-licenses.py) and the whole
    check of one expression (`compatible`). */
module SpdxLexer {
  import opened Wrappers
  import opened Spdx

  // ---------------------------------------------------------------- characters

  predicate IsIdStart(c: char) {
    'A' <= c <= 'Z' || 'a' <= c <= 'z' || '0' <= c <= '9'
  }

  predicate IsIdChar(c: char) {
    IsIdStart(c) || c == '.' || c == '+' || c == '-'
  }

  /** What Python's `str.strip` removes. */
  predicate IsSpace(c: char) {
    var n := c as int;
    9 <= n <= 13 || 28 <= n <= 32 || n == 0x85 || n == 0xA0 || n == 0x1680 || 0x2000 <= n <= 0x200A
    || n == 0x2028 || n == 0x2029 || n == 0x202F || n == 0x205F || n == 0x3000
  }

  /** `expression.replace("/", " OR ")` */
  function Normalize(s: string): string {
    if s == [] then []
    else (if s[0] == '/' then " OR " else [s[0]]) + Normalize(s[1..])
  }

  // ---------------------------------------------------------------- the token pattern

  function IdEnd(s: string, i: nat): (j: nat)
    requires i <= |s|
    ensures i <= j <= |s|
    ensures forall k :: i <= k < j ==> IsIdChar(s[k])
    ensures j < |s| ==> !IsIdChar(s[j])
    decreases |s| - i
  {
    if i < |s| && IsIdChar(s[i]) then IdEnd(s, i + 1) else i
  }

  predicate HasAt(s: string, i: nat, word: string) {
    i + |word| <= |s| && s[i..i + |word|] == word
  }

  /** The end of the match of the token pattern at `i`: its alternatives are tried in order. */
  function MatchAt(s: string, i: nat): (r: Option<nat>)
    requires i < |s|
    ensures r.Some? ==> i < r.value <= |s| && !IsSpace(s[i])
  {
    if s[i] == '(' || s[i] == ')' then Some(i + 1)
    else if HasAt(s, i, "AND") then assert s[i] == "AND"[0]; Some(i + 3)
    else if HasAt(s, i, "OR") then assert s[i] == "OR"[0]; Some(i + 2)
    else if HasAt(s, i, "WITH") then assert s[i] == "WITH"[0]; Some(i + 4)
    else if IsIdStart(s[i]) then Some(IdEnd(s, i + 1))
    else None
  }

  /** The next match at or after `from`, as `finditer` finds it; the length if there is none. */
  function FindMatch(s: string, from: nat): (i: nat)
    requires from <= |s|
    ensures from <= i <= |s|
    ensures i < |s| ==> MatchAt(s, i).Some?
    ensures forall k :: from <= k < i ==> MatchAt(s, k).None?
    decreases |s| - from
  {
    if from == |s| || MatchAt(s, from).Some? then from else FindMatch(s, from + 1)
  }

  predicate AllSpace(s: string) {
    forall i :: 0 <= i < |s| ==> IsSpace(s[i])
  }

  // ---------------------------------------------------------------- lexing

  /** Lexing character by character from `i`, the last token having ended at `position`. */
  function Lex(s: string, position: nat, i: nat): Result<seq<string>, SpdxError>
    requires position <= i <= |s|
    decreases |s| - i
  {
    if i == |s| then Ok([])
    else if IsSpace(s[i]) then Lex(s, position, i + 1)
    else
      var end := MatchAt(s, i);
      if end.None? then Err(UnsupportedSyntax(s[position..]))
      else
        var rest :- Lex(s, end.value, end.value);
        Ok([s[i..end.value]] + rest)
  }

  function TokensOf(expression: string): Result<seq<string>, SpdxError> {
    Lex(Normalize(expression), 0, 0)
  }

  /** `tokenize`: jump from match to match and inspect what lies between. */
  method Tokenize(expression: string) returns (r: Result<seq<string>, SpdxError>)
    ensures r == TokensOf(expression)
  {
    var normalized := Normalize(expression);
    var tokens: seq<string> := [];
    var position := 0;
    var start := FindMatch(normalized, 0);
    ghost var all := Lex(normalized, 0, 0);
    PrependNone(all);
    while start < |normalized|
      invariant position <= |normalized| && start == FindMatch(normalized, position)
      invariant all == Prepend(tokens, Lex(normalized, position, position))
      decreases |normalized| - position
    {
      NextToken(normalized, tokens, position);
      if !AllSpace(normalized[position..start]) {
        return Err(UnsupportedSyntax(normalized[position..]));
      }
      var end := MatchAt(normalized, start).value;
      tokens := tokens + [normalized[start..end]];
      position := end;
      start := FindMatch(normalized, position);
    }
    NextToken(normalized, tokens, position);
    assert normalized[position..start] == normalized[position..];
    if !AllSpace(normalized[position..]) {
      return Err(UnsupportedSyntax(normalized[position..]));
    }
    r := Ok(tokens);
  }

  function Prepend(tokens: seq<string>, r: Result<seq<string>, SpdxError>): Result<seq<string>, SpdxError> {
    if r.Ok? then Ok(tokens + r.value) else r
  }

  lemma PrependNone(r: Result<seq<string>, SpdxError>)
    ensures Prepend([], r) == r
  {
    if r.Ok? { assert [] + r.value == r.value; }
  }

  lemma PrependOne(tokens: seq<string>, token: string, r: Result<seq<string>, SpdxError>)
    ensures Prepend(tokens, Prepend([token], r)) == Prepend(tokens + [token], r)
  {
    if r.Ok? { assert tokens + ([token] + r.value) == tokens + [token] + r.value; }
  }

  lemma AllSpaceCons(c: char, s: string)
    ensures AllSpace([c] + s) <==> IsSpace(c) && AllSpace(s)
  {
    if AllSpace([c] + s) {
      assert IsSpace(([c] + s)[0]);
      assert forall i :: 0 <= i < |s| ==> s[i] == ([c] + s)[i + 1];
    }
  }

  /** Between two matches lexing goes on exactly when there is nothing but white space. */
  lemma {:induction false} SkipToMatch(s: string, position: nat, i: nat)
    requires position <= i <= |s|
    ensures var start := FindMatch(s, i);
      Lex(s, position, i) ==
        if !AllSpace(s[i..start]) then Err(UnsupportedSyntax(s[position..]))
        else if start == |s| then Ok([])
        else Prepend([s[start..MatchAt(s, start).value]], Lex(s, MatchAt(s, start).value, MatchAt(s, start).value))
    decreases |s| - i
  {
    var start := FindMatch(s, i);
    if i == start {
      assert AllSpace(s[i..start]);
    } else {
      assert MatchAt(s, i).None? && start == FindMatch(s, i + 1);
      assert s[i..start] == [s[i]] + s[i + 1..start];
      AllSpaceCons(s[i], s[i + 1..start]);
      if IsSpace(s[i]) {
        LexAtSpace(s, position, i);
        SkipToMatch(s, position, i + 1);
      } else {
        LexAtJunk(s, position, i);
      }
    }
  }

  lemma LexAtSpace(s: string, position: nat, i: nat)
    requires position <= i < |s| && IsSpace(s[i])
    ensures Lex(s, position, i) == Lex(s, position, i + 1)
  {
  }

  lemma LexAtJunk(s: string, position: nat, i: nat)
    requires position <= i < |s| && !IsSpace(s[i]) && MatchAt(s, i).None?
    ensures Lex(s, position, i) == Err(UnsupportedSyntax(s[position..]))
  {
  }

  /** One turn of the loop of `tokenize`. */
  lemma NextToken(s: string, tokens: seq<string>, position: nat)
    requires position <= |s|
    ensures var start := FindMatch(s, position);
      Prepend(tokens, Lex(s, position, position)) ==
        if !AllSpace(s[position..start]) then Err(UnsupportedSyntax(s[position..]))
        else if start == |s| then Ok(tokens)
        else Prepend(tokens + [s[start..MatchAt(s, start).value]], Lex(s, MatchAt(s, start).value, MatchAt(s, start).value))
  {
    var start := FindMatch(s, position);
    SkipToMatch(s, position, position);
    if start < |s| {
      var end := MatchAt(s, start).value;
      PrependOne(tokens, s[start..end], Lex(s, end, end));
    } else {
      assert tokens + [] == tokens;
    }
  }

  // ---------------------------------------------------------------- conservation

  function WithoutSpace(s: string): string {
    if s == [] then []
    else (if IsSpace(s[0]) then [] else [s[0]]) + WithoutSpace(s[1..])
  }

  function Concat(tokens: seq<string>): string {
    if tokens == [] then [] else tokens[0] + Concat(tokens[1..])
  }

  lemma {:induction false} WithoutSpaceConcat(a: string, b: string)
    ensures WithoutSpace(a + b) == WithoutSpace(a) + WithoutSpace(b)
  {
    if a == [] {
      assert a + b == b;
    } else {
      assert (a + b)[1..] == a[1..] + b;
      WithoutSpaceConcat(a[1..], b);
    }
  }

  lemma {:induction false} NoSpaceStays(s: string)
    requires forall i :: 0 <= i < |s| ==> !IsSpace(s[i])
    ensures WithoutSpace(s) == s
  {
    if s != [] { NoSpaceStays(s[1..]); }
  }

  lemma MatchHasNoSpace(s: string, i: nat)
    requires i < |s| && MatchAt(s, i).Some?
    ensures forall k :: i <= k < MatchAt(s, i).value ==> !IsSpace(s[k])
  {
    var end := MatchAt(s, i).value;
    if HasAt(s, i, "AND") {
      assert forall k :: i <= k < i + 3 ==> s[k] == s[i..i + 3][k - i];
    } else if HasAt(s, i, "OR") {
      assert forall k :: i <= k < i + 2 ==> s[k] == s[i..i + 2][k - i];
    } else if HasAt(s, i, "WITH") {
      assert forall k :: i <= k < i + 4 ==> s[k] == s[i..i + 4][k - i];
    }
  }

  /** The tokens, put together, are the normalised text without its white space. */
  lemma {:induction false} LexConserves(s: string, position: nat, i: nat)
    requires position <= i <= |s| && Lex(s, position, i).Ok?
    ensures Concat(Lex(s, position, i).value) == WithoutSpace(s[i..])
    decreases |s| - i
  {
    if i < |s| {
      if IsSpace(s[i]) {
        LexConserves(s, position, i + 1);
        assert s[i..][1..] == s[i + 1..];
      } else {
        var end := MatchAt(s, i).value;
        LexConserves(s, end, end);
        MatchHasNoSpace(s, i);
        NoSpaceStays(s[i..end]);
        WithoutSpaceConcat(s[i..end], s[end..]);
        assert s[i..] == s[i..end] + s[end..];
        var rest := Lex(s, end, end).value;
        assert ([s[i..end]] + rest)[1..] == rest;
      }
    }
  }

  /** A tokenised expression loses nothing but white space. */
  lemma TokenizeConserves(expression: string)
    requires TokensOf(expression).Ok?
    ensures Concat(TokensOf(expression).value) == WithoutSpace(Normalize(expression))
  {
    LexConserves(Normalize(expression), 0, 0);
    assert Normalize(expression)[0..] == Normalize(expression);
  }

  // ---------------------------------------------------------------- round trip

  predicate IsIdentifier(t: string) {
    t != [] && IsIdStart(t[0]) && forall i :: 0 <= i < |t| ==> IsIdChar(t[i])
  }

  /** A token that the pattern can denote. */
  predicate IsToken(t: string) {
    t == "(" || t == ")" || IsIdentifier(t)
  }

  /** An identifier whose first letters are a keyword, without being one. */
  predicate HidesKeyword(t: string) {
    IsIdentifier(t) && t !in RESERVED && (HasAt(t, 0, "AND") || HasAt(t, 0, "OR") || HasAt(t, 0, "WITH"))
  }

  function Join(tokens: seq<string>): string {
    if tokens == [] then []
    else if |tokens| == 1 then tokens[0]
    else tokens[0] + " " + Join(tokens[1..])
  }

  /** At a token followed by a space or the end, the pattern matches the token, unless the token
      hides a keyword; then it matches less. */
  lemma MatchToken(s: string, i: nat, t: string)
    requires IsToken(t) && HasAt(s, i, t) && (i + |t| < |s| ==> s[i + |t|] == ' ')
    ensures MatchAt(s, i).Some?
    ensures MatchAt(s, i).value <= i + |t|
    ensures MatchAt(s, i).value == i + |t| <==> !HidesKeyword(t)
  {
    assert forall k :: 0 <= k < |t| ==> s[i + k] == t[k] by {
      assert forall k :: 0 <= k < |t| ==> s[i..i + |t|][k] == t[k];
    }
    KeywordAt(s, i, t, "AND");
    KeywordAt(s, i, t, "OR");
    KeywordAt(s, i, t, "WITH");
    if IsIdentifier(t) {
      var j := IdEnd(s, i + 1);
      assert forall k :: i <= k < i + |t| ==> s[k] == t[k - i];
      assert forall k :: i <= k < i + |t| ==> IsIdChar(s[k]);
      assert i + |t| < |s| ==> !IsIdChar(s[i + |t|]);
      assert j == i + |t|;
    }
  }

  lemma KeywordAt(s: string, i: nat, t: string, keyword: string)
    requires IsToken(t) && HasAt(s, i, t) && (i + |t| < |s| ==> s[i + |t|] == ' ')
    requires keyword == "AND" || keyword == "OR" || keyword == "WITH"
    ensures HasAt(s, i, keyword) <==> HasAt(t, 0, keyword)
  {
    assert forall k :: 0 <= k < |t| ==> s[i + k] == t[k] by {
      assert forall k :: 0 <= k < |t| ==> s[i..i + |t|][k] == t[k];
    }
    if HasAt(t, 0, keyword) {
      assert forall k :: 0 <= k < |keyword| ==> t[0..|keyword|][k] == keyword[k];
      assert s[i..i + |keyword|] == keyword;
    }
    if HasAt(s, i, keyword) {
      assert forall k :: 0 <= k < |keyword| ==> s[i..i + |keyword|][k] == keyword[k];
      assert t[0..|keyword|] == keyword;
    }
  }

  ghost predicate NoneHides(tokens: seq<string>) {
    forall t :: t in tokens ==> !HidesKeyword(t)
  }

  lemma NoneHidesCons(t: string, rest: seq<string>)
    ensures NoneHides([t] + rest) <==> !HidesKeyword(t) && NoneHides(rest)
  {
    assert t in [t] + rest && forall r :: r in rest ==> r in [t] + rest;
  }

  /** Lexing at such a token yields it, unless it hides a keyword; then it yields something
      else or fails. */
  lemma LexToken(s: string, position: nat, i: nat, t: string)
    requires position <= i && IsToken(t) && HasAt(s, i, t) && (i + |t| < |s| ==> s[i + |t|] == ' ')
    ensures !HidesKeyword(t) ==> Lex(s, position, i) == Prepend([t], Lex(s, i + |t|, i + |t|))
    ensures HidesKeyword(t) && Lex(s, position, i).Ok? ==>
              |Lex(s, position, i).value| > 0 && Lex(s, position, i).value[..1] != [t]
  {
    MatchToken(s, i, t);
    var end := MatchAt(s, i).value;
    if HidesKeyword(t) {
      assert |s[i..end]| < |t|;
    } else {
      assert s[i..end] == t;
    }
  }

  /** Lexing what was joined with spaces gives the tokens back exactly when none of them hides a
      keyword. */
  lemma {:induction false} LexJoined(s: string, position: nat, i: nat, tokens: seq<string>)
    requires position <= i <= |s| && s[i..] == Join(tokens)
    requires forall t :: t in tokens ==> IsToken(t)
    ensures Lex(s, position, i) == Ok(tokens) <==> NoneHides(tokens)
    decreases |tokens|
  {
    if tokens == [] {
      assert i == |s|;
    } else {
      var t, rest := tokens[0], tokens[1..];
      var end := i + |t|;
      var next := if rest == [] then end else end + 1;
      AfterToken(s, i, tokens);
      LexJoined(s, end, next, rest);
      LexJoinedStep(s, position, i, t, rest, next);
      assert tokens == [t] + rest;
    }
  }

  lemma LexJoinedStep(s: string, position: nat, i: nat, t: string, rest: seq<string>, next: nat)
    requires position <= i && IsToken(t) && HasAt(s, i, t) && (i + |t| < |s| ==> s[i + |t|] == ' ')
    requires i + |t| <= next <= |s| && (next == i + |t| || (next == i + |t| + 1 && s[i + |t|] == ' '))
    requires Lex(s, i + |t|, next) == Ok(rest) <==> NoneHides(rest)
    ensures Lex(s, position, i) == Ok([t] + rest) <==> NoneHides([t] + rest)
  {
    var end := i + |t|;
    LexToken(s, position, i, t);
    if next != end { LexAtSpace(s, end, end); }
    FirstTokenDecides(Lex(s, position, i), Lex(s, end, end), t, rest);
  }

  lemma FirstTokenDecides(r: Result<seq<string>, SpdxError>, later: Result<seq<string>, SpdxError>, t: string, rest: seq<string>)
    requires !HidesKeyword(t) ==> r == Prepend([t], later)
    requires HidesKeyword(t) && r.Ok? ==> |r.value| > 0 && r.value[..1] != [t]
    requires later == Ok(rest) <==> NoneHides(rest)
    ensures r == Ok([t] + rest) <==> NoneHides([t] + rest)
  {
    NoneHidesCons(t, rest);
    if HidesKeyword(t) {
      assert ([t] + rest)[..1] == [t];
    } else {
      PrependEqual(t, rest, later);
    }
  }

  lemma PrependEqual(t: string, rest: seq<string>, r: Result<seq<string>, SpdxError>)
    ensures Prepend([t], r) == Ok([t] + rest) <==> r == Ok(rest)
  {
    if r.Ok? && [t] + r.value == [t] + rest {
      assert ([t] + r.value)[1..] == r.value && ([t] + rest)[1..] == rest;
    }
  }

  lemma AfterToken(s: string, i: nat, tokens: seq<string>)
    requires i <= |s| && tokens != [] && s[i..] == Join(tokens)
    ensures HasAt(s, i, tokens[0]) && (i + |tokens[0]| < |s| ==> s[i + |tokens[0]|] == ' ')
    ensures |tokens| == 1 ==> i + |tokens[0]| == |s| && s[i + |tokens[0]|..] == Join(tokens[1..])
    ensures |tokens| > 1 ==> i + |tokens[0]| < |s| && s[i + |tokens[0]|] == ' ' && s[i + |tokens[0]| + 1..] == Join(tokens[1..])
  {
    var t := tokens[0];
    assert s[i..][..|t|] == t;
    if |tokens| > 1 {
      assert s[i..][|t|] == ' ';
      assert s[i..][|t| + 1..] == Join(tokens[1..]);
    }
  }

  lemma {:induction false} JoinHasNoSlash(tokens: seq<string>)
    requires forall t :: t in tokens ==> IsToken(t)
    ensures forall c :: c in Join(tokens) ==> c != '/'
  {
    if tokens != [] {
      assert tokens[0] in tokens;
      if |tokens| > 1 {
        assert forall t :: t in tokens[1..] ==> t in tokens;
        JoinHasNoSlash(tokens[1..]);
      }
    }
  }

  lemma {:induction false} NormalizeKeeps(s: string)
    requires forall c :: c in s ==> c != '/'
    ensures Normalize(s) == s
  {
    if s != [] {
      assert s[0] in s && forall c :: c in s[1..] ==> c in s;
      NormalizeKeeps(s[1..]);
    }
  }

  /** `tokenize` inverts joining with spaces exactly when no identifier begins with a keyword:
      the pattern tries the keywords before the identifiers. */
  lemma TokenizeRoundTrip(tokens: seq<string>)
    requires forall t :: t in tokens ==> IsToken(t)
    ensures TokensOf(Join(tokens)) == Ok(tokens) <==> NoneHides(tokens)
  {
    JoinHasNoSlash(tokens);
    NormalizeKeeps(Join(tokens));
    assert Join(tokens)[0..] == Join(tokens);
    LexJoined(Join(tokens), 0, 0, tokens);
  }

  // ---------------------------------------------------------------- the whole check

  const APPROVED_LICENSES := {"Apache-2.0", "CC0-1.0", "ISC", "MIT", "Unicode-3.0", "Unlicense", "Zlib"}
  const APPROVED_EXCEPTIONS := {"LLVM-exception"}

  /** `compatible` */
  method Compatible(expression: string) returns (r: Result<bool, SpdxError>)
    ensures r == CompatibleValue(expression)
  {
    var tokens := Tokenize(expression);
    if tokens.Err? {
      return Err(tokens.error);
    }
    if tokens.value == [] {
      return Err(EmptyExpression);
    }
    var parser := new Parser(tokens.value, APPROVED_LICENSES, APPROVED_EXCEPTIONS);
    r := parser.ParseAll();
  }

  function CompatibleValue(expression: string): Result<bool, SpdxError> {
    var tokens :- TokensOf(expression);
    if tokens == [] then Err(EmptyExpression)
    else
      var e :- Parse(tokens);
      Ok(Eval(e, APPROVED_LICENSES, APPROVED_EXCEPTIONS))
  }

  /** The check passes an expression exactly when its tokens are those of a tree of the grammar
      that offers a complete path of approved licences and exceptions, and fails it (without an
      error) exactly when there is a tree but no such path. */
  lemma CompatibleMeaning(expression: string)
    ensures CompatibleValue(expression) == Ok(true) <==>
      exists e, c :: IsOr(e) && TokensOf(expression) == Ok(Render(e))
                     && c in Choices(e) && Approved(c, APPROVED_LICENSES, APPROVED_EXCEPTIONS)
    ensures CompatibleValue(expression).Ok? <==> exists e :: IsOr(e) && TokensOf(expression) == Ok(Render(e))
  {
    if TokensOf(expression).Ok? {
      var tokens := TokensOf(expression).value;
      ParserCorrect(tokens);
      if Parse(tokens).Ok? {
        EvalIsApprovedChoice(Parse(tokens).value, APPROVED_LICENSES, APPROVED_EXCEPTIONS);
      }
    }
  }

  /** A tree written out with spaces is checked as the tree, provided that its identifiers are
      well formed and hide no keyword. */
  lemma CompatibleOfRendered(e: Expr)
    requires IsOr(e) && NoneHides(Render(e)) && forall t :: t in Render(e) ==> IsToken(t)
    ensures CompatibleValue(Join(Render(e))) == Ok(Eval(e, APPROVED_LICENSES, APPROVED_EXCEPTIONS))
  {
    TokenizeRoundTrip(Render(e));
    ParseRendered(e);
  }
}
