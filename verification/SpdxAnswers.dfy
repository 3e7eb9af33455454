/** What the licence check of scripts/ci/check-licenses.py answers to small expressions, written
    out, and to characters that no expression may have. */
module SpdxAnswers {
  import opened Wrappers
  import opened Spdx
  import opened SpdxLexer

  // ---------------------------------------------------------------- the slash

  lemma {:induction false} NormalizeConcat(a: string, b: string)
    ensures Normalize(a + b) == Normalize(a) + Normalize(b)
  {
    if a == [] {
      assert a + b == b;
    } else {
      assert (a + b)[0] == a[0] && (a + b)[1..] == a[1..] + b;
      NormalizeConcat(a[1..], b);
    }
  }

  lemma NormalizeOr()
    ensures Normalize("/") == " OR " && Normalize(" OR ") == " OR "
  {
    assert "/"[1..] == [] && Normalize("/") == " OR " + Normalize([]);
    NormalizeKeeps(" OR ");
  }

  /** A slash is read as OR, wherever it stands. */
  lemma SlashIsOr(a: string, b: string)
    ensures TokensOf(a + "/" + b) == TokensOf(a + " OR " + b)
  {
    NormalizeConcat(a + "/", b);
    NormalizeConcat(a, "/");
    NormalizeConcat(a + " OR ", b);
    NormalizeConcat(a, " OR ");
    NormalizeOr();
  }

  // ---------------------------------------------------------------- identifiers

  predicate IsLetter(c: char) { 'A' <= c <= 'Z' || 'a' <= c <= 'z' }

  predicate IsDigit(c: char) { '0' <= c <= '9' }

  /** A letter or a digit, and then letters, digits, dots, pluses and hyphens; no keyword, and none
      at the start. */
  ghost predicate IsPlain(id: string) {
    && id != [] && (IsLetter(id[0]) || IsDigit(id[0]))
    && (forall i :: 0 <= i < |id| ==> IsLetter(id[i]) || IsDigit(id[i]) || id[i] == '.' || id[i] == '+' || id[i] == '-')
    && !("AND" <= id) && !("OR" <= id) && !("WITH" <= id)
  }

  /** A token that the parser takes for a licence. */
  ghost predicate IsLicenceToken(id: string) {
    IsToken(id) && !HidesKeyword(id) && id !in RESERVED
  }

  lemma PlainIsToken(id: string)
    requires IsPlain(id)
    ensures IsLicenceToken(id)
  {
    assert HasAt(id, 0, "AND") ==> "AND" <= id;
    assert HasAt(id, 0, "OR") ==> "OR" <= id;
    assert HasAt(id, 0, "WITH") ==> "WITH" <= id;
    assert id[0] != '(' && id[0] != ')';
  }

  // ---------------------------------------------------------------- small expressions

  /** The seven licences and the one exception. */
  ghost predicate IsOneOfSeven(id: string) {
    id == "Apache-2.0" || id == "MIT" || id == "ISC" || id == "Zlib" || id == "Unicode-3.0" || id == "CC0-1.0" || id == "Unlicense"
  }

  lemma Approves(id: string)
    ensures id in APPROVED_LICENSES <==> IsOneOfSeven(id)
    ensures id in APPROVED_EXCEPTIONS <==> id == "LLVM-exception"
  {
  }

  ghost function Verdict(e: Expr): Result<bool, SpdxError> {
    Ok(Eval(e, APPROVED_LICENSES, APPROVED_EXCEPTIONS))
  }

  lemma OneToken(a: string)
    requires IsLicenceToken(a)
    ensures CompatibleValue(a) == Verdict(License(a))
  {
    LicenceIsOperand(a);
    assert Join([a]) == a;
    CompatibleOfRendered(License(a));
  }

  lemma LicenceIsOperand(a: string)
    requires a !in RESERVED
    ensures IsPrimary(License(a)) && IsWith(License(a)) && IsAnd(License(a)) && IsOr(License(a)) && Render(License(a)) == [a]
  {
    LevelsNest(License(a));
  }

  lemma LicenceVerdict(a: string)
    ensures Verdict(License(a)) == Ok(IsOneOfSeven(a))
  {
    Approves(a);
  }

  /** One licence passes iff it is one of the seven. */
  lemma OneLicence(a: string)
    requires IsPlain(a)
    ensures CompatibleValue(a) == Ok(IsOneOfSeven(a))
  {
    PlainIsToken(a);
    OneToken(a);
    LicenceVerdict(a);
  }

  lemma JoinThree(a: string, middle: string, b: string)
    ensures Join([a, middle, b]) == a + " " + middle + " " + b
  {
    assert [a, middle, b][1..] == [middle, b] && [middle, b][1..] == [b];
    assert Join([middle, b]) == middle + " " + Join([b]);
    assert Join([a, middle, b]) == a + " " + (middle + " " + b);
    assert a + " " + (middle + " " + b) == a + " " + middle + " " + b;
  }

  lemma OperatorIsToken(operator: string)
    requires operator == "AND" || operator == "OR" || operator == "WITH"
    ensures IsToken(operator) && !HidesKeyword(operator)
  {
    assert operator[0] in {'A', 'O', 'W'} && forall i :: 0 <= i < |operator| ==> 'A' <= operator[i] <= 'Z';
  }

  lemma TwoOperands(a: string, operator: string, b: string, e: Expr)
    requires IsLicenceToken(a) && IsLicenceToken(b) && (operator == "AND" || operator == "OR" || operator == "WITH")
    requires IsOr(e) && Render(e) == [a, operator, b]
    ensures CompatibleValue(a + " " + operator + " " + b) == Verdict(e)
  {
    OperatorIsToken(operator);
    JoinThree(a, operator, b);
    CompatibleOfRendered(e);
  }

  lemma OrVerdict(a: string, b: string)
    ensures Verdict(Or(License(a), License(b))) == Ok(IsOneOfSeven(a) || IsOneOfSeven(b))
  {
    LicenceVerdict(a);
    LicenceVerdict(b);
    var l, e := APPROVED_LICENSES, APPROVED_EXCEPTIONS;
    assert Eval(Or(License(a), License(b)), l, e) == (Eval(License(a), l, e) || Eval(License(b), l, e));
  }

  lemma AndVerdict(a: string, b: string)
    ensures Verdict(And(License(a), License(b))) == Ok(IsOneOfSeven(a) && IsOneOfSeven(b))
  {
    LicenceVerdict(a);
    LicenceVerdict(b);
    var l, e := APPROVED_LICENSES, APPROVED_EXCEPTIONS;
    assert Eval(And(License(a), License(b)), l, e) == (Eval(License(a), l, e) && Eval(License(b), l, e));
  }

  lemma WithVerdict(a: string, x: string)
    ensures Verdict(With(License(a), x)) == Ok(IsOneOfSeven(a) && x == "LLVM-exception")
  {
    LicenceVerdict(a);
    Approves(x);
    var l, e := APPROVED_LICENSES, APPROVED_EXCEPTIONS;
    assert Eval(With(License(a), x), l, e) == (Eval(License(a), l, e) && x in e);
  }

  lemma OperationStands(a: string, b: string)
    requires a !in RESERVED && b !in RESERVED
    ensures IsOr(Or(License(a), License(b))) && Render(Or(License(a), License(b))) == [a, "OR", b]
    ensures IsOr(And(License(a), License(b))) && Render(And(License(a), License(b))) == [a, "AND", b]
    ensures IsOr(With(License(a), b)) && Render(With(License(a), b)) == [a, "WITH", b]
  {
    LicenceIsOperand(a);
    LicenceIsOperand(b);
    LevelsNest(And(License(a), License(b)));
    LevelsNest(With(License(a), b));
  }

  /** An alternative passes iff one of its licences is among the seven, with OR or with a slash. */
  lemma Alternative(a: string, b: string)
    requires IsPlain(a) && IsPlain(b)
    ensures CompatibleValue(a + " OR " + b) == Ok(IsOneOfSeven(a) || IsOneOfSeven(b))
    ensures CompatibleValue(a + "/" + b) == Ok(IsOneOfSeven(a) || IsOneOfSeven(b))
  {
    PlainIsToken(a);
    PlainIsToken(b);
    assert a + " " + "OR" + " " + b == a + " OR " + b;
    OperationStands(a, b);
    TwoOperands(a, "OR", b, Or(License(a), License(b)));
    OrVerdict(a, b);
    SlashIsOr(a, b);
  }

  /** A conjunction passes iff both are. */
  lemma Conjunction(a: string, b: string)
    requires IsPlain(a) && IsPlain(b)
    ensures CompatibleValue(a + " AND " + b) == Ok(IsOneOfSeven(a) && IsOneOfSeven(b))
  {
    PlainIsToken(a);
    PlainIsToken(b);
    assert a + " " + "AND" + " " + b == a + " AND " + b;
    OperationStands(a, b);
    TwoOperands(a, "AND", b, And(License(a), License(b)));
    AndVerdict(a, b);
  }

  /** With an exception a licence passes iff it is one of the seven and the exception is that of
      LLVM. */
  lemma Exception(a: string, x: string)
    requires IsPlain(a) && IsPlain(x)
    ensures CompatibleValue(a + " WITH " + x) == Ok(IsOneOfSeven(a) && x == "LLVM-exception")
  {
    PlainIsToken(a);
    PlainIsToken(x);
    assert a + " " + "WITH" + " " + x == a + " WITH " + x;
    OperationStands(a, x);
    TwoOperands(a, "WITH", x, With(License(a), x));
    WithVerdict(a, x);
  }

  // ---------------------------------------------------------------- tokens and errors

  /** Parentheses hold an expression; WITH takes the token after it. */
  lemma Groups(e: Expr, p: Expr, x: string)
    requires IsOr(e) && IsPrimary(p)
    ensures Parse(["("] + Render(e) + [")"]) == Ok(Paren(e))
    ensures Parse(Render(p) + ["WITH", x]) == Ok(With(p, x))
  {
    LevelsNest(Paren(e));
    LevelsNest(With(p, x));
    ParseRendered(Paren(e));
    ParseRendered(With(p, x));
  }

  lemma PrimaryFails(ts: seq<string>, i: nat, error: SpdxError)
    requires i <= |ts| && ParsePrimary(ts, i) == Err(error)
    ensures ParseOr(ts, i) == Err(error)
  {
    assert ParseWith(ts, i) == Err(error);
    assert ParseAnd(ts, i) == Err(error);
  }

  lemma LicenceStands(ts: seq<string>, i: nat)
    requires i < |ts| && ts[i] !in RESERVED
    requires !At(ts, i + 1, "AND") && !At(ts, i + 1, "OR") && !At(ts, i + 1, "WITH")
    ensures ParseOr(ts, i) == Ok((License(ts[i]), i + 1))
  {
    assert ParsePrimary(ts, i) == Ok((License(ts[i]), i + 1));
    assert ParseWith(ts, i) == Ok((License(ts[i]), i + 1));
    AndFirst(ts, i, License(ts[i]), i + 1);
    OrFirst(ts, i, License(ts[i]), i + 1);
  }

  /** A single token is a licence unless it is one of five. */
  lemma SingleToken(t: string)
    ensures Parse([t]) ==
      if t == "(" then Err(UnexpectedEnd)
      else if t == "AND" || t == "OR" || t == "WITH" || t == ")" then Err(ExpectedLicense(t))
      else Ok(License(t))
  {
    var ts := [t];
    if t == "(" {
      assert ParsePrimary(ts, 1) == Err(UnexpectedEnd);
      PrimaryFails(ts, 1, UnexpectedEnd);
      PrimaryFails(ts, 0, UnexpectedEnd);
    } else if t == "AND" || t == "OR" || t == "WITH" || t == ")" {
      PrimaryFails(ts, 0, ExpectedLicense(t));
    } else {
      LicenceStands(ts, 0);
    }
  }

  predicate IsPunctuation(t: string) { t == "AND" || t == "OR" || t == "WITH" || t == "(" || t == ")" }

  /** No tokens, two licences in a row, a missing exception. */
  lemma MalformedTokens(a: string, b: string)
    requires !IsPunctuation(a) && !IsPunctuation(b)
    ensures Parse([]) == Err(UnexpectedEnd)
    ensures Parse([a, b]) == Err(UnexpectedToken(b))
    ensures Parse([a, "WITH"]) == Err(UnexpectedEnd)
  {
    PrimaryFails([], 0, UnexpectedEnd);
    LicenceStands([a, b], 0);
    var ts := [a, "WITH"];
    assert ParsePrimary(ts, 0) == Ok((License(a), 1));
    assert ParseWith(ts, 0) == Err(UnexpectedEnd);
    assert ParseAnd(ts, 0) == Err(UnexpectedEnd);
  }

  /** A parenthesis that is not closed. */
  lemma UnclosedParenthesis(a: string, rest: seq<string>)
    requires !IsPunctuation(a) && (rest != [] ==> !IsPunctuation(rest[0]))
    ensures Parse(["(", a] + rest) == Err(ExpectedClosing(if rest != [] then rest[0] else "<end>"))
  {
    var ts := ["(", a] + rest;
    LicenceStands(ts, 1);
    PrimaryFails(ts, 0, ExpectedClosing(if rest != [] then rest[0] else "<end>"));
  }

  /** What is blank has no tokens, and is refused as empty. */
  lemma BlankIsEmpty(expression: string)
    requires forall c :: c in expression ==> c == ' ' || c == '\t' || c == '\n' || c == '\r'
    ensures TokensOf(expression) == Ok([]) && CompatibleValue(expression) == Err(EmptyExpression)
  {
    NormalizeKeeps(expression);
    assert forall i :: 0 <= i < |expression| ==> expression[i] in expression;
    BlankLexes(expression, 0);
  }

  lemma {:induction false} BlankLexes(s: string, i: nat)
    requires i <= |s| && forall k :: i <= k < |s| ==> s[k] == ' ' || s[k] == '\t' || s[k] == '\n' || s[k] == '\r'
    ensures Lex(s, 0, i) == Ok([])
    decreases |s| - i
  {
    if i < |s| { BlankLexes(s, i + 1); }
  }

  /** White space, and what tokens are made of. */
  ghost predicate MayStand(c: char) {
    c as int in {9, 10, 11, 12, 13, 28, 29, 30, 31, 32, 0x85, 0xA0, 0x1680, 0x2000, 0x2001, 0x2002, 0x2003, 0x2004, 0x2005,
                 0x2006, 0x2007, 0x2008, 0x2009, 0x200A, 0x2028, 0x2029, 0x202F, 0x205F, 0x3000}
    || IsLetter(c) || IsDigit(c) || c in {'(', ')', '.', '+', '-'}
  }

  lemma MatchMayStand(s: string, i: nat)
    requires i < |s| && MatchAt(s, i).Some?
    ensures forall k :: i <= k < MatchAt(s, i).value ==> MayStand(s[k])
  {
    if HasAt(s, i, "AND") {
      assert forall k :: i <= k < i + 3 ==> s[k] == s[i..i + 3][k - i];
    } else if HasAt(s, i, "OR") {
      assert forall k :: i <= k < i + 2 ==> s[k] == s[i..i + 2][k - i];
    } else if HasAt(s, i, "WITH") {
      assert forall k :: i <= k < i + 4 ==> s[k] == s[i..i + 4][k - i];
    }
  }

  lemma {:induction false} LexedMayStand(s: string, position: nat, i: nat, k: nat)
    requires position <= i <= k < |s| && Lex(s, position, i).Ok?
    ensures MayStand(s[k])
    decreases |s| - i
  {
    if IsSpace(s[i]) {
      if k > i { LexedMayStand(s, position, i + 1, k); }
    } else {
      var end := MatchAt(s, i).value;
      MatchMayStand(s, i);
      if k >= end { LexedMayStand(s, end, end, k); }
    }
  }

  lemma {:induction false} NormalizeHas(s: string, c: char)
    requires c in s && c != '/'
    ensures c in Normalize(s)
  {
    assert s == [s[0]] + s[1..];
    if s[0] != c { NormalizeHas(s[1..], c); }
  }

  /** An expression with any other character, slashes aside, is refused. */
  lemma OtherCharactersFail(expression: string, c: char)
    requires c in expression && !MayStand(c) && c != '/'
    ensures TokensOf(expression).Err? && CompatibleValue(expression).Err?
  {
    NormalizeHas(expression, c);
    var s := Normalize(expression);
    var k :| 0 <= k < |s| && s[k] == c;
    if TokensOf(expression).Ok? { LexedMayStand(s, 0, 0, k); }
  }

  /** Dots, pluses and hyphens do not begin anything. */
  lemma PunctuationDoesNotBegin(expression: string)
    requires expression != [] && expression[0] in {'.', '+', '-'}
    ensures TokensOf(expression).Err?
  {
    var s := Normalize(expression);
    assert s[0] == expression[0];
    NoKeywordAtPunctuation(s, "AND");
    NoKeywordAtPunctuation(s, "OR");
    NoKeywordAtPunctuation(s, "WITH");
    assert MatchAt(s, 0).None?;
  }

  lemma NoKeywordAtPunctuation(s: string, keyword: string)
    requires s != [] && s[0] in {'.', '+', '-'} && keyword != [] && IsLetter(keyword[0])
    ensures !HasAt(s, 0, keyword)
  {
    if HasAt(s, 0, keyword) { KeywordBegins(s, keyword); }
  }

  lemma KeywordBegins(s: string, keyword: string)
    requires keyword != [] && HasAt(s, 0, keyword)
    ensures s[0] == keyword[0]
  {
    assert s[0..|keyword|][0] == s[0];
  }
}
