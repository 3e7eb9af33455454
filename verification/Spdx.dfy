/** The licence check of CI (scripts/ci/check-licenses.py): a lexer for SPDX expressions, a
    recursive-descent parser that evaluates while it parses, and what its answer means. */
module Spdx {
  import opened Wrappers

  /** The `ValueError`s of the script. */
  datatype SpdxError =
    | UnsupportedSyntax(near: string)
    | EmptyExpression
    | UnexpectedToken(token: string)
    | ExpectedLicense(found: string)
    | ExpectedClosing(found: string)
    | UnexpectedEnd

  // ---------------------------------------------------------------- abstract syntax

  datatype Expr =
    | License(id: string)
    | With(base: Expr, exception: string)
    | And(left: Expr, right: Expr)
    | Or(left: Expr, right: Expr)
    | Paren(inner: Expr)

  const RESERVED := {"AND", "OR", "WITH", "(", ")"}

  predicate IsPrimary(e: Expr)
    decreases e, 0
  {
    match e
    case License(id) => id !in RESERVED
    case Paren(inner) => IsOr(inner)
    case _ => false
  }

  predicate IsWith(e: Expr)
    decreases e, 1
  {
    if e.With? then IsPrimary(e.base) else IsPrimary(e)
  }

  predicate IsAnd(e: Expr)
    decreases e, 2
  {
    if e.And? then IsAnd(e.left) && IsWith(e.right) else IsWith(e)
  }

  /** The accepted grammar: OR of AND of an optionally excepted licence or parenthesised
      expression, both operators to the left. What follows WITH is any token. */
  predicate IsOr(e: Expr)
    decreases e, 3
  {
    if e.Or? then IsOr(e.left) && IsAnd(e.right) else IsAnd(e)
  }

  lemma LevelsNest(e: Expr)
    ensures IsPrimary(e) ==> IsWith(e)
    ensures IsWith(e) ==> IsAnd(e)
    ensures IsAnd(e) ==> IsOr(e)
  {
    if e.And? {
      assert !IsPrimary(e);
    } else if e.Or? {
      assert !IsPrimary(e) && !IsWith(e);
    }
  }

  function Render(e: Expr): (ts: seq<string>)
    ensures |ts| > 0
  {
    match e
    case License(id) => [id]
    case With(base, exception) => Render(base) + ["WITH", exception]
    case And(left, right) => Render(left) + ["AND"] + Render(right)
    case Or(left, right) => Render(left) + ["OR"] + Render(right)
    case Paren(inner) => ["("] + Render(inner) + [")"]
  }

  function Eval(e: Expr, licenses: set<string>, exceptions: set<string>): bool {
    match e
    case License(id) => id in licenses
    case With(base, exception) => Eval(base, licenses, exceptions) && exception in exceptions
    case And(left, right) => Eval(left, licenses, exceptions) && Eval(right, licenses, exceptions)
    case Or(left, right) => Eval(left, licenses, exceptions) || Eval(right, licenses, exceptions)
    case Paren(inner) => Eval(inner, licenses, exceptions)
  }

  // ---------------------------------------------------------------- parsing as functions

  type Parsed = Result<(Expr, nat), SpdxError>

  predicate At(ts: seq<string>, i: nat, token: string) {
    i < |ts| && ts[i] == token
  }

  function ParseOr(ts: seq<string>, i: nat): (r: Parsed)
    requires i <= |ts|
    ensures r.Ok? ==> i < r.value.1 <= |ts|
    decreases |ts| - i, 4
  {
    var (first, j) :- ParseAnd(ts, i);
    OrTail(ts, first, j)
  }

  function OrTail(ts: seq<string>, left: Expr, i: nat): (r: Parsed)
    requires i <= |ts|
    ensures r.Ok? ==> i <= r.value.1 <= |ts|
    decreases |ts| - i, 3
  {
    if !At(ts, i, "OR") then Ok((left, i))
    else
      var (right, j) :- ParseAnd(ts, i + 1);
      OrTail(ts, Or(left, right), j)
  }

  function ParseAnd(ts: seq<string>, i: nat): (r: Parsed)
    requires i <= |ts|
    ensures r.Ok? ==> i < r.value.1 <= |ts|
    decreases |ts| - i, 2
  {
    var (first, j) :- ParseWith(ts, i);
    AndTail(ts, first, j)
  }

  function AndTail(ts: seq<string>, left: Expr, i: nat): (r: Parsed)
    requires i <= |ts|
    ensures r.Ok? ==> i <= r.value.1 <= |ts|
    decreases |ts| - i, 2
  {
    if !At(ts, i, "AND") then Ok((left, i))
    else
      var (right, j) :- ParseWith(ts, i + 1);
      AndTail(ts, And(left, right), j)
  }

  function ParseWith(ts: seq<string>, i: nat): (r: Parsed)
    requires i <= |ts|
    ensures r.Ok? ==> i < r.value.1 <= |ts|
    decreases |ts| - i, 1
  {
    var (base, j) :- ParsePrimary(ts, i);
    if !At(ts, j, "WITH") then Ok((base, j))
    else if j + 1 >= |ts| then Err(UnexpectedEnd)
    else Ok((With(base, ts[j + 1]), j + 2))
  }

  function ParsePrimary(ts: seq<string>, i: nat): (r: Parsed)
    requires i <= |ts|
    ensures r.Ok? ==> i < r.value.1 <= |ts|
    decreases |ts| - i, 0
  {
    if At(ts, i, "(") then
      var (inner, j) :- ParseOr(ts, i + 1);
      if At(ts, j, ")") then Ok((Paren(inner), j + 1))
      else Err(ExpectedClosing(if j < |ts| then ts[j] else "<end>"))
    else if i >= |ts| then Err(UnexpectedEnd)
    else if ts[i] in RESERVED then Err(ExpectedLicense(ts[i]))
    else Ok((License(ts[i]), i + 1))
  }

  function Parse(ts: seq<string>): Result<Expr, SpdxError> {
    var (e, j) :- ParseOr(ts, 0);
    if j != |ts| then Err(UnexpectedToken(ts[j])) else Ok(e)
  }

  // ---------------------------------------------------------------- the parser in place

  /** The parser object: it advances `position` and never builds a tree. */
  class Parser {
    const tokens: seq<string>
    const licenses: set<string>
    const exceptions: set<string>
    var position: nat

    constructor (tokens: seq<string>, licenses: set<string>, exceptions: set<string>)
      ensures this.tokens == tokens && this.licenses == licenses && this.exceptions == exceptions && position == 0
    {
      this.tokens, this.licenses, this.exceptions := tokens, licenses, exceptions;
      position := 0;
    }

    /** What a parsing method owes its specification function. */
    ghost predicate Meets(parsed: Parsed, r: Result<bool, SpdxError>)
      reads this
    {
      && position <= |tokens|
      && match parsed
         case Ok((e, j)) => r == Ok(Eval(e, licenses, exceptions)) && position == j
         case Err(error) => r == Err(error)
    }

    method Accept(token: string) returns (accepted: bool)
      requires position <= |tokens|
      modifies this`position
      ensures accepted == At(tokens, old(position), token)
      ensures position == if accepted then old(position) + 1 else old(position)
    {
      accepted := position < |tokens| && tokens[position] == token;
      if accepted { position := position + 1; }
    }

    method Take() returns (r: Result<string, SpdxError>)
      requires position <= |tokens|
      modifies this`position
      ensures if old(position) >= |tokens| then r == Err(UnexpectedEnd) && position == old(position)
              else r == Ok(tokens[old(position)]) && position == old(position) + 1
    {
      if position >= |tokens| {
        return Err(UnexpectedEnd);
      }
      r := Ok(tokens[position]);
      position := position + 1;
    }

    method ParseAll() returns (r: Result<bool, SpdxError>)
      requires position == 0
      modifies this`position
      ensures r == match Parse(tokens)
                   case Ok(e) => Ok(Eval(e, licenses, exceptions))
                   case Err(error) => Err(error)
    {
      r := ParseDisjunction();
      if r.Ok? && position != |tokens| {
        r := Err(UnexpectedToken(tokens[position]));
      }
    }

    method ParseDisjunction() returns (r: Result<bool, SpdxError>)
      requires position <= |tokens|
      modifies this`position
      ensures Meets(ParseOr(tokens, old(position)), r)
      decreases |tokens| - position, 4
    {
      r := ParseConjunction();
      if r.Err? { return; }
      ghost var parsed := ParseOr(tokens, old(position));
      ghost var left := ParseAnd(tokens, old(position)).value.0;
      var more := Accept("OR");
      while more
        invariant old(position) < position <= |tokens|
        invariant r == Ok(Eval(left, licenses, exceptions))
        invariant more ==> At(tokens, position - 1, "OR") && parsed == OrTail(tokens, left, position - 1)
        invariant !more ==> parsed == OrTail(tokens, left, position) && !At(tokens, position, "OR")
        decreases |tokens| - position, more
      {
        ghost var from := position;
        var alternative := ParseConjunction();
        if alternative.Err? { return alternative; }
        r := Ok(r.value || alternative.value);
        left := Or(left, ParseAnd(tokens, from).value.0);
        more := Accept("OR");
      }
    }

    method ParseConjunction() returns (r: Result<bool, SpdxError>)
      requires position <= |tokens|
      modifies this`position
      ensures Meets(ParseAnd(tokens, old(position)), r)
      decreases |tokens| - position, 3
    {
      r := ParseException();
      if r.Err? { return; }
      ghost var parsed := ParseAnd(tokens, old(position));
      ghost var left := ParseWith(tokens, old(position)).value.0;
      var more := Accept("AND");
      while more
        invariant old(position) < position <= |tokens|
        invariant r == Ok(Eval(left, licenses, exceptions))
        invariant more ==> At(tokens, position - 1, "AND") && parsed == AndTail(tokens, left, position - 1)
        invariant !more ==> parsed == AndTail(tokens, left, position) && !At(tokens, position, "AND")
        decreases |tokens| - position, more
      {
        ghost var from := position;
        var requirement := ParseException();
        if requirement.Err? { return requirement; }
        r := Ok(r.value && requirement.value);
        left := And(left, ParseWith(tokens, from).value.0);
        more := Accept("AND");
      }
    }

    method ParseException() returns (r: Result<bool, SpdxError>)
      requires position <= |tokens|
      modifies this`position
      ensures Meets(ParseWith(tokens, old(position)), r)
      decreases |tokens| - position, 2
    {
      r := ParseAtom();
      if r.Err? { return; }
      var excepted := Accept("WITH");
      if excepted {
        var exception := Take();
        if exception.Err? { return Err(exception.error); }
        r := Ok(r.value && exception.value in exceptions);
      }
    }

    method ParseAtom() returns (r: Result<bool, SpdxError>)
      requires position <= |tokens|
      modifies this`position
      ensures Meets(ParsePrimary(tokens, old(position)), r)
      decreases |tokens| - position, 1
    {
      var opens := Accept("(");
      if opens {
        r := ParseDisjunction();
        if r.Err? { return; }
        var closes := Accept(")");
        if !closes {
          return Err(ExpectedClosing(if position < |tokens| then tokens[position] else "<end>"));
        }
        return;
      }
      var id := Take();
      if id.Err? { return Err(id.error); }
      if id.value in RESERVED {
        return Err(ExpectedLicense(id.value));
      }
      r := Ok(id.value in licenses);
    }
  }

  // ---------------------------------------------------------------- soundness

  lemma {:induction false} OrIsSound(ts: seq<string>, i: nat)
    requires i <= |ts| && ParseOr(ts, i).Ok?
    ensures var (e, j) := ParseOr(ts, i).value; IsOr(e) && Render(e) == ts[i..j]
    decreases |ts| - i, 4
  {
    AndIsSound(ts, i);
    var (first, j) := ParseAnd(ts, i).value;
    LevelsNest(first);
    OrTailIsSound(ts, i, first, j);
  }

  lemma {:induction false} OrTailIsSound(ts: seq<string>, start: nat, left: Expr, i: nat)
    requires start <= i <= |ts| && OrTail(ts, left, i).Ok?
    requires IsOr(left) && Render(left) == ts[start..i]
    ensures var (e, j) := OrTail(ts, left, i).value; IsOr(e) && Render(e) == ts[start..j]
    decreases |ts| - i, 3
  {
    if At(ts, i, "OR") {
      AndIsSound(ts, i + 1);
      var (right, j) := ParseAnd(ts, i + 1).value;
      assert ts[start..j] == ts[start..i] + ["OR"] + ts[i + 1..j];
      OrTailIsSound(ts, start, Or(left, right), j);
    }
  }

  lemma {:induction false} AndIsSound(ts: seq<string>, i: nat)
    requires i <= |ts| && ParseAnd(ts, i).Ok?
    ensures var (e, j) := ParseAnd(ts, i).value; IsAnd(e) && Render(e) == ts[i..j]
    decreases |ts| - i, 2
  {
    WithIsSound(ts, i);
    var (first, j) := ParseWith(ts, i).value;
    LevelsNest(first);
    AndTailIsSound(ts, i, first, j);
  }

  lemma {:induction false} AndTailIsSound(ts: seq<string>, start: nat, left: Expr, i: nat)
    requires start <= i <= |ts| && AndTail(ts, left, i).Ok?
    requires IsAnd(left) && Render(left) == ts[start..i]
    ensures var (e, j) := AndTail(ts, left, i).value; IsAnd(e) && Render(e) == ts[start..j]
    decreases |ts| - i, 2
  {
    if At(ts, i, "AND") {
      WithIsSound(ts, i + 1);
      var (right, j) := ParseWith(ts, i + 1).value;
      assert ts[start..j] == ts[start..i] + ["AND"] + ts[i + 1..j];
      AndTailIsSound(ts, start, And(left, right), j);
    }
  }

  lemma {:induction false} WithIsSound(ts: seq<string>, i: nat)
    requires i <= |ts| && ParseWith(ts, i).Ok?
    ensures var (e, j) := ParseWith(ts, i).value; IsWith(e) && Render(e) == ts[i..j]
    decreases |ts| - i, 1
  {
    PrimaryIsSound(ts, i);
    var (base, j) := ParsePrimary(ts, i).value;
    if At(ts, j, "WITH") {
      assert ts[i..j + 2] == ts[i..j] + [ts[j], ts[j + 1]];
    }
  }

  lemma {:induction false} PrimaryIsSound(ts: seq<string>, i: nat)
    requires i <= |ts| && ParsePrimary(ts, i).Ok?
    ensures var (e, j) := ParsePrimary(ts, i).value; IsPrimary(e) && Render(e) == ts[i..j]
    decreases |ts| - i, 0
  {
    if At(ts, i, "(") {
      OrIsSound(ts, i + 1);
      var (inner, j) := ParseOr(ts, i + 1).value;
      assert ts[i..j + 1] == ["("] + ts[i + 1..j] + [")"];
    } else {
      assert ts[i..i + 1] == [ts[i]];
    }
  }

  // ---------------------------------------------------------------- completeness

  /** `part` stands in `ts` from `i` on. */
  ghost predicate Stands(ts: seq<string>, i: nat, part: seq<string>) {
    i + |part| <= |ts| && ts[i..i + |part|] == part
  }

  lemma StandsConcat(ts: seq<string>, i: nat, a: seq<string>, b: seq<string>)
    requires Stands(ts, i, a + b)
    ensures Stands(ts, i, a) && Stands(ts, i + |a|, b)
  {
    assert ts[i..i + |a|] == (a + b)[..|a|];
    assert ts[i + |a|..i + |a| + |b|] == (a + b)[|a|..];
  }

  lemma StandsAround(ts: seq<string>, i: nat, a: seq<string>, token: string, b: seq<string>)
    requires Stands(ts, i, a + [token] + b)
    ensures Stands(ts, i, a) && At(ts, i + |a|, token) && Stands(ts, i + |a| + 1, b)
  {
    StandsConcat(ts, i, a + [token], b);
    StandsConcat(ts, i, a, [token]);
    assert ts[i + |a|..i + |a| + 1][0] == [token][0];
  }

  lemma StandsBinary(ts: seq<string>, i: nat, e: Expr, left: Expr, token: string, right: Expr)
    requires Render(e) == Render(left) + [token] + Render(right) && Stands(ts, i, Render(e))
    ensures Stands(ts, i, Render(left)) && At(ts, i + |Render(left)|, token)
    ensures Stands(ts, i + |Render(left)| + 1, Render(right))
    ensures i + |Render(left)| + 1 + |Render(right)| == i + |Render(e)|
  {
    StandsAround(ts, i, Render(left), token, Render(right));
  }

  lemma StandsParen(ts: seq<string>, i: nat, inner: seq<string>)
    requires Stands(ts, i, ["("] + inner + [")"])
    ensures At(ts, i, "(") && Stands(ts, i + 1, inner) && At(ts, i + 1 + |inner|, ")")
  {
    assert ["("] + inner + [")"] == [] + ["("] + (inner + [")"]);
    StandsAround(ts, i, [], "(", inner + [")"]);
    assert inner + [")"] == inner + [")"] + [];
    StandsAround(ts, i + 1, inner, ")", []);
  }

  lemma AndFirst(ts: seq<string>, i: nat, first: Expr, j: nat)
    requires i <= |ts| && ParseWith(ts, i) == Ok((first, j))
    ensures ParseAnd(ts, i) == AndTail(ts, first, j)
  {
  }

  lemma AndTailStep(ts: seq<string>, left: Expr, i: nat, right: Expr, j: nat)
    requires At(ts, i, "AND") && ParseWith(ts, i + 1) == Ok((right, j))
    ensures AndTail(ts, left, i) == AndTail(ts, And(left, right), j)
  {
  }

  lemma OrFirst(ts: seq<string>, i: nat, first: Expr, j: nat)
    requires i <= |ts| && ParseAnd(ts, i) == Ok((first, j))
    ensures ParseOr(ts, i) == OrTail(ts, first, j)
  {
  }

  lemma OrTailStep(ts: seq<string>, left: Expr, i: nat, right: Expr, j: nat)
    requires At(ts, i, "OR") && ParseAnd(ts, i + 1) == Ok((right, j))
    ensures OrTail(ts, left, i) == OrTail(ts, Or(left, right), j)
  {
  }

  /** Where a disjunction is rendered, the parser gets to its end with exactly its tree. */
  lemma {:induction false} OrReaches(ts: seq<string>, i: nat, e: Expr)
    requires i <= |ts| && IsOr(e) && Stands(ts, i, Render(e))
    requires !At(ts, i + |Render(e)|, "AND") && !At(ts, i + |Render(e)|, "WITH")
    ensures ParseOr(ts, i) == OrTail(ts, e, i + |Render(e)|)
    decreases e, 4
  {
    if e.Or? {
      var j := i + |Render(e.left)|;
      StandsBinary(ts, i, e, e.left, "OR", e.right);
      OrReaches(ts, i, e.left);
      AndReaches(ts, j + 1, e.right);
      OrTailStep(ts, e.left, j, e.right, i + |Render(e)|);
    } else {
      AndReaches(ts, i, e);
      OrFirst(ts, i, e, i + |Render(e)|);
    }
  }

  lemma {:induction false} AndReaches(ts: seq<string>, i: nat, e: Expr)
    requires i <= |ts| && IsAnd(e) && Stands(ts, i, Render(e))
    requires !At(ts, i + |Render(e)|, "AND") && !At(ts, i + |Render(e)|, "WITH")
    ensures ParseAnd(ts, i) == Ok((e, i + |Render(e)|))
    decreases e, 3
  {
    AndPrefix(ts, i, e);
  }

  lemma {:induction false} AndPrefix(ts: seq<string>, i: nat, e: Expr)
    requires i <= |ts| && IsAnd(e) && Stands(ts, i, Render(e))
    requires !At(ts, i + |Render(e)|, "WITH")
    ensures ParseAnd(ts, i) == AndTail(ts, e, i + |Render(e)|)
    decreases e, 2
  {
    if e.And? {
      var j := i + |Render(e.left)|;
      StandsBinary(ts, i, e, e.left, "AND", e.right);
      AndPrefix(ts, i, e.left);
      WithReaches(ts, j + 1, e.right);
      AndTailStep(ts, e.left, j, e.right, i + |Render(e)|);
    } else {
      WithReaches(ts, i, e);
      AndFirst(ts, i, e, i + |Render(e)|);
    }
  }

  lemma {:induction false} WithReaches(ts: seq<string>, i: nat, e: Expr)
    requires i <= |ts| && IsWith(e) && Stands(ts, i, Render(e))
    requires !At(ts, i + |Render(e)|, "WITH")
    ensures ParseWith(ts, i) == Ok((e, i + |Render(e)|))
    decreases e, 1
  {
    if e.With? {
      assert Render(e) == Render(e.base) + ["WITH"] + [e.exception];
      StandsAround(ts, i, Render(e.base), "WITH", [e.exception]);
      var j := i + |Render(e.base)|;
      assert ts[j + 1] == ts[j + 1..j + 2][0];
      PrimaryReaches(ts, i, e.base);
    } else {
      PrimaryReaches(ts, i, e);
    }
  }

  lemma {:induction false} PrimaryReaches(ts: seq<string>, i: nat, e: Expr)
    requires i <= |ts| && IsPrimary(e) && Stands(ts, i, Render(e))
    ensures ParsePrimary(ts, i) == Ok((e, i + |Render(e)|))
    decreases e, 0
  {
    if e.Paren? {
      StandsParen(ts, i, Render(e.inner));
      OrReaches(ts, i + 1, e.inner);
    } else {
      assert ts[i..i + 1][0] == e.id;
    }
  }

  /** Parsing what a tree of the grammar renders to gives back the tree. */
  lemma ParseRendered(e: Expr)
    requires IsOr(e)
    ensures Parse(Render(e)) == Ok(e)
  {
    assert Stands(Render(e), 0, Render(e)) by { assert Render(e)[0..|Render(e)|] == Render(e); }
    OrReaches(Render(e), 0, e);
  }

  /** The parser accepts exactly the renderings of the grammar, with the value of the tree, and
      no token list has two trees. */
  lemma ParserCorrect(ts: seq<string>)
    ensures Parse(ts).Ok? <==> exists e :: IsOr(e) && Render(e) == ts
    ensures forall e :: Parse(ts) == Ok(e) <==> IsOr(e) && Render(e) == ts
  {
    if Parse(ts).Ok? {
      OrIsSound(ts, 0);
      var (e, j) := ParseOr(ts, 0).value;
      assert ts[0..j] == ts;
    }
    forall e | IsOr(e) && Render(e) == ts ensures Parse(ts) == Ok(e) {
      ParseRendered(e);
    }
  }

  /** AND binds tighter than OR, on either side. */
  lemma AndBindsTighter(a: Expr, b: Expr, c: Expr)
    requires IsWith(a) && IsWith(b) && IsWith(c)
    ensures Parse(Render(a) + ["OR"] + Render(b) + ["AND"] + Render(c)) == Ok(Or(a, And(b, c)))
    ensures Parse(Render(a) + ["AND"] + Render(b) + ["OR"] + Render(c)) == Ok(Or(And(a, b), c))
  {
    LevelsNest(a);
    LevelsNest(b);
    LevelsNest(c);
    LevelsNest(And(a, b));
    ParseRenderedAs(Or(a, And(b, c)), Render(a) + ["OR"] + Render(b) + ["AND"] + Render(c));
    ParseRenderedAs(Or(And(a, b), c), Render(a) + ["AND"] + Render(b) + ["OR"] + Render(c));
  }

  lemma ParseRenderedAs(e: Expr, ts: seq<string>)
    requires IsOr(e) && Render(e) == ts
    ensures Parse(ts) == Ok(e)
  {
    ParseRendered(e);
  }

  // ---------------------------------------------------------------- what acceptance means

  datatype Need = LicenseNeed(id: string) | ExceptionNeed(id: string)

  /** The complete paths through an expression: one alternative per OR, every part of an AND. */
  ghost function Choices(e: Expr): set<set<Need>> {
    match e
    case License(id) => {{LicenseNeed(id)}}
    case With(base, exception) => set c | c in Choices(base) :: c + {ExceptionNeed(exception)}
    case And(left, right) => set a, b | a in Choices(left) && b in Choices(right) :: a + b
    case Or(left, right) => Choices(left) + Choices(right)
    case Paren(inner) => Choices(inner)
  }

  ghost predicate Approved(needs: set<Need>, licenses: set<string>, exceptions: set<string>) {
    forall n :: n in needs ==>
      match n case LicenseNeed(id) => id in licenses case ExceptionNeed(id) => id in exceptions
  }

  /** An expression passes exactly when it offers a complete path of approved licences and
      exceptions. */
  lemma {:induction false} EvalIsApprovedChoice(e: Expr, licenses: set<string>, exceptions: set<string>)
    ensures Eval(e, licenses, exceptions) <==> exists c :: c in Choices(e) && Approved(c, licenses, exceptions)
  {
    match e
    case License(id) =>
      assert {LicenseNeed(id)} in Choices(e);
      assert Approved({LicenseNeed(id)}, licenses, exceptions) <==> id in licenses;
    case With(base, exception) =>
      EvalIsApprovedChoice(base, licenses, exceptions);
      if Eval(e, licenses, exceptions) {
        var c :| c in Choices(base) && Approved(c, licenses, exceptions);
        assert c + {ExceptionNeed(exception)} in Choices(e);
        assert Approved(c + {ExceptionNeed(exception)}, licenses, exceptions);
      }
      if c' :| c' in Choices(e) && Approved(c', licenses, exceptions) {
        var c :| c in Choices(base) && c' == c + {ExceptionNeed(exception)};
        assert ExceptionNeed(exception) in c';
        assert Approved(c, licenses, exceptions);
      }
    case And(left, right) =>
      EvalIsApprovedChoice(left, licenses, exceptions);
      EvalIsApprovedChoice(right, licenses, exceptions);
      if Eval(e, licenses, exceptions) {
        var a :| a in Choices(left) && Approved(a, licenses, exceptions);
        var b :| b in Choices(right) && Approved(b, licenses, exceptions);
        assert a + b in Choices(e) && Approved(a + b, licenses, exceptions);
      }
      if c :| c in Choices(e) && Approved(c, licenses, exceptions) {
        var a, b :| a in Choices(left) && b in Choices(right) && c == a + b;
        assert Approved(a, licenses, exceptions) && Approved(b, licenses, exceptions);
      }
    case Or(left, right) =>
      EvalIsApprovedChoice(left, licenses, exceptions);
      EvalIsApprovedChoice(right, licenses, exceptions);
    case Paren(inner) =>
      EvalIsApprovedChoice(inner, licenses, exceptions);
  }

  /** Approving more never turns a pass into a failure. */
  lemma {:induction false} EvalMonotone(e: Expr, licenses: set<string>, exceptions: set<string>, licenses': set<string>, exceptions': set<string>)
    requires licenses <= licenses' && exceptions <= exceptions'
    requires Eval(e, licenses, exceptions)
    ensures Eval(e, licenses', exceptions')
  {
    EvalIsApprovedChoice(e, licenses, exceptions);
    EvalIsApprovedChoice(e, licenses', exceptions');
    var c :| c in Choices(e) && Approved(c, licenses, exceptions);
    assert Approved(c, licenses', exceptions');
  }
}
