/**
 Marker expressions: substitution of markers by booleans, and evaluation.  The parser stands in
 for Python's `eval` on the only tokens the scanner lets through: parentheses, `and`, `or`,
 `not` and booleans.  Python reads `()` as the empty tuple and a parenthesis after an operand
 as a call, so both are part of the grammar.
 */
module MarkerExpression {
  import opened Wrappers
  import opened MarkerScanner

  datatype Expr<A> =
    | Lit(value: A)
    | Unit
    | Call(callee: Expr<A>, argument: Option<Expr<A>>)
    | Group(inner: Expr<A>)
    | Not(arg: Expr<A>)
    | And(left: Expr<A>, right: Expr<A>)
    | Or(left: Expr<A>, right: Expr<A>)

  datatype Error = InvalidMarker | SyntaxError | TypeError

  // ------------------------------------------------------------------ the precedence parser

  type Parsed<!A> = Option<(Expr<A>, seq<Token<A>>)>

  predicate Starts<A(==)>(ts: seq<Token<A>>, t: Token<A>) {
    ts != [] && ts[0] == t
  }

  // or_test: and_test ("or" or_test)?
  function ParseOr<A(==)>(ts: seq<Token<A>>): (p: Parsed<A>)
    ensures p.Some? ==> |p.value.1| < |ts|
    decreases |ts|, 4
  {
    match ParseAnd(ts)
    case None => None
    case Some((left, rest)) =>
      if Starts(rest, OrOp) then
        match ParseOr(rest[1..])
        case None => None
        case Some((right, rest')) => Some((Or(left, right), rest'))
      else Some((left, rest))
  }

  // and_test: not_test ("and" and_test)?
  function ParseAnd<A(==)>(ts: seq<Token<A>>): (p: Parsed<A>)
    ensures p.Some? ==> |p.value.1| < |ts|
    decreases |ts|, 3
  {
    match ParseNot(ts)
    case None => None
    case Some((left, rest)) =>
      if Starts(rest, AndOp) then
        match ParseAnd(rest[1..])
        case None => None
        case Some((right, rest')) => Some((And(left, right), rest'))
      else Some((left, rest))
  }

  // not_test: "not" not_test | primary
  function ParseNot<A(==)>(ts: seq<Token<A>>): (p: Parsed<A>)
    ensures p.Some? ==> |p.value.1| < |ts|
    decreases |ts|, 2
  {
    if Starts(ts, NotOp) then
      match ParseNot(ts[1..])
      case None => None
      case Some((arg, rest)) => Some((Not(arg), rest))
    else ParsePrimary(ts)
  }

  // primary: atom call*
  function ParsePrimary<A(==)>(ts: seq<Token<A>>): (p: Parsed<A>)
    ensures p.Some? ==> |p.value.1| < |ts|
    decreases |ts|, 1
  {
    if ts == [] then None
    else match ts[0]
      case Operand(a) => ParseCalls(Lit(a), ts[1..])
      case LParen =>
        if Starts(ts[1..], RParen) then ParseCalls(Unit, ts[2..])
        else (match ParseOr(ts[1..])
              case None => None
              case Some((inner, rest)) =>
                if Starts(rest, RParen) then ParseCalls(inner, rest[1..]) else None)
      case _ => None
  }

  // call*: "(" ")" | "(" or_test ")"
  function ParseCalls<A(==)>(callee: Expr<A>, ts: seq<Token<A>>): (p: Parsed<A>)
    ensures p.Some? ==> |p.value.1| <= |ts|
    decreases |ts|, 0
  {
    if !Starts(ts, LParen) then Some((callee, ts))
    else if Starts(ts[1..], RParen) then ParseCalls(Call(callee, None), ts[2..])
    else match ParseOr(ts[1..])
      case None => None
      case Some((argument, rest)) =>
        if Starts(rest, RParen) then ParseCalls(Call(callee, Some(argument)), rest[1..]) else None
  }

  function Parse<A(==)>(ts: seq<Token<A>>): Option<Expr<A>> {
    match ParseOr(ts)
    case None => None
    case Some((e, rest)) => if rest == [] then Some(e) else None
  }

  // ------------------------------------------------------------------ meaning

  // Python's evaluation of the parsed tokens: `and` and `or` stop early, calling a boolean or
  // the empty tuple raises, and only the truth value of the outcome matters.
  function Eval<A>(e: Expr<A>, truth: A -> bool): Result<bool, Error> {
    match e
    case Lit(a) => Ok(truth(a))
    case Unit => Ok(false)
    case Call(_, _) => Err(TypeError)
    case Group(inner) => Eval(inner, truth)
    case Not(arg) => (match Eval(arg, truth) case Ok(b) => Ok(!b) case Err(x) => Err(x))
    case And(l, r) => (match Eval(l, truth) case Ok(true) => Eval(r, truth) case other => other)
    case Or(l, r) => (match Eval(l, truth) case Ok(false) => Eval(r, truth) case other => other)
  }

  // A marker expression proper: markers joined by and, or, not and parentheses
  predicate Boolean<A>(e: Expr<A>) {
    match e
    case Lit(_) => true
    case Unit => false
    case Call(_, _) => false
    case Group(inner) => Boolean(inner)
    case Not(arg) => Boolean(arg)
    case And(l, r) => Boolean(l) && Boolean(r)
    case Or(l, r) => Boolean(l) && Boolean(r)
  }

  // Its intended meaning: which marker sets it selects
  predicate Selects(e: Expr<string>, markers: set<string>)
    requires Boolean(e)
  {
    match e
    case Lit(name) => name in markers
    case Group(inner) => Selects(inner, markers)
    case Not(arg) => !Selects(arg, markers)
    case And(l, r) => Selects(l, markers) && Selects(r, markers)
    case Or(l, r) => Selects(l, markers) || Selects(r, markers)
  }

  // ------------------------------------------------------------------ substitution

  function SubstToken(t: Token<string>, markers: set<string>): Token<bool> {
    match t
    case Operand(name) => Operand(name in markers)
    case LParen => LParen
    case RParen => RParen
    case AndOp => AndOp
    case OrOp => OrOp
    case NotOp => NotOp
  }

  function Subst(ts: seq<Token<string>>, markers: set<string>): (r: seq<Token<bool>>)
    ensures |r| == |ts|
    ensures forall i :: 0 <= i < |ts| ==> r[i] == SubstToken(ts[i], markers)
  {
    seq(|ts|, i requires 0 <= i < |ts| => SubstToken(ts[i], markers))
  }

  function SubstExpr(e: Expr<string>, markers: set<string>): Expr<bool> {
    match e
    case Lit(name) => Lit(name in markers)
    case Unit => Unit
    case Call(f, None) => Call(SubstExpr(f, markers), None)
    case Call(f, Some(a)) => Call(SubstExpr(f, markers), Some(SubstExpr(a, markers)))
    case Group(inner) => Group(SubstExpr(inner, markers))
    case Not(arg) => Not(SubstExpr(arg, markers))
    case And(l, r) => And(SubstExpr(l, markers), SubstExpr(r, markers))
    case Or(l, r) => Or(SubstExpr(l, markers), SubstExpr(r, markers))
  }

  function SubstParsed(p: Parsed<string>, markers: set<string>): Parsed<bool> {
    match p
    case None => None
    case Some((e, rest)) => Some((SubstExpr(e, markers), Subst(rest, markers)))
  }

  lemma SubstStarts(ts: seq<Token<string>>, markers: set<string>)
    ensures Starts(ts, LParen) <==> Starts(Subst(ts, markers), LParen)
    ensures Starts(ts, RParen) <==> Starts(Subst(ts, markers), RParen)
    ensures Starts(ts, AndOp) <==> Starts(Subst(ts, markers), AndOp)
    ensures Starts(ts, OrOp) <==> Starts(Subst(ts, markers), OrOp)
    ensures Starts(ts, NotOp) <==> Starts(Subst(ts, markers), NotOp)
    ensures ts != [] ==> Subst(ts, markers)[1..] == Subst(ts[1..], markers)
    ensures |ts| > 1 ==> Subst(ts, markers)[2..] == Subst(ts[2..], markers)
  {}

  // The parser never looks inside an operand, so it commutes with substitution
  lemma {:induction false} ParseOrSubst(ts: seq<Token<string>>, markers: set<string>)
    ensures ParseOr(Subst(ts, markers)) == SubstParsed(ParseOr(ts), markers)
    decreases |ts|, 4
  {
    ParseAndSubst(ts, markers);
    var p := ParseAnd(ts);
    if p.Some? {
      SubstStarts(p.value.1, markers);
      if Starts(p.value.1, OrOp) { ParseOrSubst(p.value.1[1..], markers); }
    }
  }

  lemma {:induction false} ParseAndSubst(ts: seq<Token<string>>, markers: set<string>)
    ensures ParseAnd(Subst(ts, markers)) == SubstParsed(ParseAnd(ts), markers)
    decreases |ts|, 3
  {
    ParseNotSubst(ts, markers);
    var p := ParseNot(ts);
    if p.Some? {
      SubstStarts(p.value.1, markers);
      if Starts(p.value.1, AndOp) { ParseAndSubst(p.value.1[1..], markers); }
    }
  }

  lemma {:induction false} ParseNotSubst(ts: seq<Token<string>>, markers: set<string>)
    ensures ParseNot(Subst(ts, markers)) == SubstParsed(ParseNot(ts), markers)
    decreases |ts|, 2
  {
    SubstStarts(ts, markers);
    if Starts(ts, NotOp) { ParseNotSubst(ts[1..], markers); } else { ParsePrimarySubst(ts, markers); }
  }

  lemma {:induction false} ParsePrimarySubst(ts: seq<Token<string>>, markers: set<string>)
    ensures ParsePrimary(Subst(ts, markers)) == SubstParsed(ParsePrimary(ts), markers)
    decreases |ts|, 1
  {
    if ts == [] { return; }
    SubstStarts(ts, markers);
    SubstStarts(ts[1..], markers);
    match ts[0]
    case Operand(a) => ParseCallsSubst(Lit(a), ts[1..], markers);
    case LParen =>
      if Starts(ts[1..], RParen) {
        ParseCallsSubst(Unit, ts[2..], markers);
      } else {
        ParseOrSubst(ts[1..], markers);
        var p := ParseOr(ts[1..]);
        if p.Some? {
          SubstStarts(p.value.1, markers);
          if Starts(p.value.1, RParen) { ParseCallsSubst(p.value.0, p.value.1[1..], markers); }
        }
      }
    case _ =>
  }

  lemma {:induction false} ParseCallsSubst(callee: Expr<string>, ts: seq<Token<string>>, markers: set<string>)
    ensures ParseCalls(SubstExpr(callee, markers), Subst(ts, markers)) == SubstParsed(ParseCalls(callee, ts), markers)
    decreases |ts|, 0
  {
    SubstStarts(ts, markers);
    if Starts(ts, LParen) {
      SubstStarts(ts[1..], markers);
      if Starts(ts[1..], RParen) {
        ParseCallsSubst(Call(callee, None), ts[2..], markers);
      } else {
        ParseOrSubst(ts[1..], markers);
        var p := ParseOr(ts[1..]);
        if p.Some? {
          SubstStarts(p.value.1, markers);
          if Starts(p.value.1, RParen) { ParseCallsSubst(Call(callee, Some(p.value.0)), p.value.1[1..], markers); }
        }
      }
    }
  }

  lemma {:induction false} EvalSubst(e: Expr<string>, markers: set<string>)
    ensures Eval(SubstExpr(e, markers), b => b) == Eval(e, name => name in markers)
  {
    match e
    case Group(inner) => EvalSubst(inner, markers);
    case Not(arg) => EvalSubst(arg, markers);
    case And(l, r) => EvalSubst(l, markers); EvalSubst(r, markers);
    case Or(l, r) => EvalSubst(l, markers); EvalSubst(r, markers);
    case _ =>
  }

  // ------------------------------------------------------------------ printing trees

  // Binding strength: or < and < not < operand
  function Level<A>(e: Expr<A>): nat {
    match e
    case Or(_, _) => 0
    case And(_, _) => 1
    case Not(_) => 2
    case _ => 3
  }

  // The tokens of e where an operand of the given strength is expected.  A Group is a pair of
  // parentheses the writer chose; the others are the ones precedence forces.
  function Print<A>(e: Expr<A>, level: nat): seq<Token<A>>
    decreases e, if Level(e) < level then 1 else 0
  {
    if Level(e) < level then [LParen] + Print(e, 0) + [RParen]
    else match e
      case Lit(a) => [Operand(a)]
      case Unit => [LParen, RParen]
      case Call(f, None) => Print(f, 3) + [LParen, RParen]
      case Call(f, Some(a)) => Print(f, 3) + [LParen] + Print(a, 0) + [RParen]
      case Group(inner) => [LParen] + Print(inner, 0) + [RParen]
      case Not(arg) => [NotOp] + Print(arg, 2)
      case And(l, r) => Print(l, 2) + [AndOp] + Print(r, 1)
      case Or(l, r) => Print(l, 1) + [OrOp] + Print(r, 0)
  }

  // Parentheses leave no trace in the parsed tree
  function Strip<A>(e: Expr<A>): Expr<A> {
    match e
    case Lit(a) => Lit(a)
    case Unit => Unit
    case Call(f, None) => Call(Strip(f), None)
    case Call(f, Some(a)) => Call(Strip(f), Some(Strip(a)))
    case Group(inner) => Strip(inner)
    case Not(arg) => Not(Strip(arg))
    case And(l, r) => And(Strip(l), Strip(r))
    case Or(l, r) => Or(Strip(l), Strip(r))
  }

  // What may follow a printed operand of the given strength without being absorbed by it
  predicate Ends<A(==)>(rest: seq<Token<A>>, level: nat) {
    && !Starts(rest, LParen)
    && (level <= 1 ==> !Starts(rest, AndOp))
    && (level == 0 ==> !Starts(rest, OrOp))
  }

  lemma PrintIsNotEmpty<A>(e: Expr<A>, level: nat)
    ensures Print(e, level) != []
    ensures level >= 3 ==> Print(e, level)[0] != NotOp
    ensures Print(e, level)[0] != RParen
    decreases e, if Level(e) < level then 1 else 0
  {
    if Level(e) < level {
    } else {
      match e
      case Call(f, _) => PrintIsNotEmpty(f, 3);
      case And(l, _) => PrintIsNotEmpty(l, 2);
      case Or(l, _) => PrintIsNotEmpty(l, 1);
      case _ =>
    }
  }

  // A parenthesised operand is read as its inside, then any calls
  lemma ReadParenthesised<A>(inside: seq<Token<A>>, e: Expr<A>, rest: seq<Token<A>>)
    requires inside != [] && !Starts(inside, RParen)
    requires ParseOr(inside) == Some((e, [RParen] + rest))
    ensures ParsePrimary([LParen] + inside) == ParseCalls(e, rest)
    ensures forall callee: Expr<A> :: ParseCalls(callee, [LParen] + inside) == ParseCalls(Call(callee, Some(e)), rest)
  {
    assert ([LParen] + inside)[1..] == inside;
    assert ([RParen] + rest)[1..] == rest;
  }

  lemma ReadOr<A>(ts: seq<Token<A>>, l: Expr<A>, after: seq<Token<A>>, r: Expr<A>, rest: seq<Token<A>>)
    requires ParseAnd(ts) == Some((l, [OrOp] + after)) && ParseOr(after) == Some((r, rest))
    ensures ParseOr(ts) == Some((Or(l, r), rest))
  {
    assert ([OrOp] + after)[1..] == after;
  }

  lemma ReadAnd<A>(ts: seq<Token<A>>, l: Expr<A>, after: seq<Token<A>>, r: Expr<A>, rest: seq<Token<A>>)
    requires ParseNot(ts) == Some((l, [AndOp] + after)) && ParseAnd(after) == Some((r, rest))
    ensures ParseAnd(ts) == Some((And(l, r), rest))
  {
    assert ([AndOp] + after)[1..] == after;
  }

  lemma ReadNot<A>(after: seq<Token<A>>, e: Expr<A>, rest: seq<Token<A>>)
    requires ParseNot(after) == Some((e, rest))
    ensures ParseNot([NotOp] + after) == Some((Not(e), rest))
  {
    assert ([NotOp] + after)[1..] == after;
  }

  lemma PrintOr<A>(e: Expr<A>, rest: seq<Token<A>>)
    requires e.Or?
    ensures Print(e, 0) + rest == Print(e.left, 1) + ([OrOp] + (Print(e.right, 0) + rest))
  {}

  lemma PrintAnd<A>(e: Expr<A>, rest: seq<Token<A>>)
    requires e.And?
    ensures Print(e, 1) + rest == Print(e.left, 2) + ([AndOp] + (Print(e.right, 1) + rest))
  {}

  lemma PrintNot<A>(e: Expr<A>, rest: seq<Token<A>>)
    requires e.Not?
    ensures Print(e, 2) + rest == [NotOp] + (Print(e.arg, 2) + rest)
  {}

  lemma PrintCall<A>(e: Expr<A>, rest: seq<Token<A>>)
    requires e.Call?
    ensures e.argument.None? ==> Print(e, 3) + rest == Print(e.callee, 3) + ([LParen, RParen] + rest)
    ensures e.argument.Some? ==>
      Print(e, 3) + rest == Print(e.callee, 3) + ([LParen] + (Print(e.argument.value, 0) + ([RParen] + rest)))
  {}

  // Parsing what was printed gives back the tree, whatever comes after it
  lemma {:induction false} ParsePrintedOr<A>(e: Expr<A>, rest: seq<Token<A>>)
    requires Ends(rest, 0)
    ensures ParseOr(Print(e, 0) + rest) == Some((Strip(e), rest))
    decreases e, 3
  {
    if e.Or? {
      PrintOr(e, rest);
      ParsePrintedAnd(e.left, [OrOp] + (Print(e.right, 0) + rest));
      ParsePrintedOr(e.right, rest);
      ReadOr(Print(e, 0) + rest, Strip(e.left), Print(e.right, 0) + rest, Strip(e.right), rest);
    } else {
      assert Print(e, 0) == Print(e, 1);
      ParsePrintedAnd(e, rest);
    }
  }

  lemma {:induction false} ParsePrintedAnd<A>(e: Expr<A>, rest: seq<Token<A>>)
    requires Ends(rest, 1)
    ensures ParseAnd(Print(e, 1) + rest) == Some((Strip(e), rest))
    decreases e, if e.Or? then 10 else 2
  {
    if e.And? {
      PrintAnd(e, rest);
      ParsePrintedNot(e.left, [AndOp] + (Print(e.right, 1) + rest));
      ParsePrintedAnd(e.right, rest);
      ReadAnd(Print(e, 1) + rest, Strip(e.left), Print(e.right, 1) + rest, Strip(e.right), rest);
    } else {
      assert Print(e, 1) == Print(e, 2);
      ParsePrintedNot(e, rest);
    }
  }

  lemma {:induction false} ParsePrintedNot<A>(e: Expr<A>, rest: seq<Token<A>>)
    requires Ends(rest, 2)
    ensures ParseNot(Print(e, 2) + rest) == Some((Strip(e), rest))
    decreases e, if Level(e) < 2 then 9 else 1
  {
    if e.Not? {
      PrintNot(e, rest);
      ParsePrintedNot(e.arg, rest);
      ReadNot(Print(e.arg, 2) + rest, Strip(e.arg), rest);
    } else {
      assert Print(e, 2) == Print(e, 3);
      PrintIsNotEmpty(e, 3);
      ParsePrintedPrimary(e, rest);
    }
  }

  lemma {:induction false} ParsePrintedPrimary<A>(e: Expr<A>, rest: seq<Token<A>>)
    ensures ParsePrimary(Print(e, 3) + rest) == ParseCalls(Strip(e), rest)
    decreases e, if Level(e) < 3 then 5 else 0
  {
    match e
    case Lit(a) =>
      assert ([Operand(a)] + rest)[1..] == rest;
    case Unit =>
      ReadUnit(rest);
    case Call(f, None) =>
      PrintCall(e, rest);
      ParsePrintedPrimary(f, [LParen, RParen] + rest);
      ReadUnit(rest);
    case Call(f, Some(a)) =>
      PrintCall(e, rest);
      ParsePrintedPrimary(f, [LParen] + (Print(a, 0) + ([RParen] + rest)));
      ParsePrintedOr(a, [RParen] + rest);
      PrintIsNotEmpty(a, 0);
      ReadParenthesised(Print(a, 0) + ([RParen] + rest), Strip(a), rest);
    case Group(inner) =>
      assert Print(e, 3) + rest == [LParen] + (Print(inner, 0) + ([RParen] + rest));
      ParsePrintedOr(inner, [RParen] + rest);
      PrintIsNotEmpty(inner, 0);
      ReadParenthesised(Print(inner, 0) + ([RParen] + rest), Strip(inner), rest);
    case _ =>
      assert Print(e, 3) + rest == [LParen] + (Print(e, 0) + ([RParen] + rest));
      ParsePrintedOr(e, [RParen] + rest);
      PrintIsNotEmpty(e, 0);
      ReadParenthesised(Print(e, 0) + ([RParen] + rest), Strip(e), rest);
  }

  lemma ReadUnit<A>(rest: seq<Token<A>>)
    ensures ParsePrimary([LParen, RParen] + rest) == ParseCalls(Unit, rest)
    ensures forall callee: Expr<A> ::
              ParseCalls(callee, [LParen, RParen] + rest) == ParseCalls(Call(callee, None), rest)
  {
    var ts := [LParen, RParen] + rest;
    assert ts[1..] == [RParen] + rest && ts[2..] == rest;
  }

  lemma ParsePrintRoundTrip<A>(e: Expr<A>)
    ensures Parse(Print(e, 0)) == Some(Strip(e))
  {
    assert Print(e, 0) + [] == Print(e, 0);
    ParsePrintedOr(e, []);
  }

  // On a marker expression proper, evaluation is the intended meaning, with or without groups
  lemma {:induction false} EvalIsSelects(e: Expr<string>, markers: set<string>)
    requires Boolean(e)
    ensures Eval(Strip(e), name => name in markers) == Ok(Selects(e, markers))
  {
    match e
    case Lit(_) =>
    case Group(inner) => EvalIsSelects(inner, markers);
    case Not(arg) => EvalIsSelects(arg, markers);
    case And(l, r) => EvalIsSelects(l, markers); EvalIsSelects(r, markers);
    case Or(l, r) => EvalIsSelects(l, markers); EvalIsSelects(r, markers);
  }

  // The value of an expression, were calls false
  predicate Value<A>(e: Expr<A>, truth: A -> bool) {
    match e
    case Lit(a) => truth(a)
    case Unit => false
    case Call(_, _) => false
    case Group(inner) => Value(inner, truth)
    case Not(arg) => !Value(arg, truth)
    case And(l, r) => Value(l, truth) && Value(r, truth)
    case Or(l, r) => Value(l, truth) || Value(r, truth)
  }

  // Evaluation, stopping early, comes to a call
  predicate ReachesCall<A>(e: Expr<A>, truth: A -> bool) {
    match e
    case Lit(_) => false
    case Unit => false
    case Call(_, _) => true
    case Group(inner) => ReachesCall(inner, truth)
    case Not(arg) => ReachesCall(arg, truth)
    case And(l, r) => ReachesCall(l, truth) || (Value(l, truth) && ReachesCall(r, truth))
    case Or(l, r) => ReachesCall(l, truth) || (!Value(l, truth) && ReachesCall(r, truth))
  }

  // Evaluation raises exactly when it comes to a call, and is the boolean value otherwise
  lemma {:induction false} EvalRaisesAtCalls<A>(e: Expr<A>, truth: A -> bool)
    ensures Eval(e, truth) == if ReachesCall(e, truth) then Err(TypeError) else Ok(Value(e, truth))
  {
    match e
    case Group(inner) => EvalRaisesAtCalls(inner, truth);
    case Not(arg) => EvalRaisesAtCalls(arg, truth);
    case And(l, r) => EvalRaisesAtCalls(l, truth); EvalRaisesAtCalls(r, truth);
    case Or(l, r) => EvalRaisesAtCalls(l, truth); EvalRaisesAtCalls(r, truth);
    case _ =>
  }

  // ------------------------------------------------------------------ printed trees as tokens

  predicate WritableExpr(e: Expr<string>) {
    match e
    case Lit(name) => IsName(name)
    case Unit => true
    case Call(f, None) => WritableExpr(f)
    case Call(f, Some(a)) => WritableExpr(f) && WritableExpr(a)
    case Group(inner) => WritableExpr(inner)
    case Not(arg) => WritableExpr(arg)
    case And(l, r) => WritableExpr(l) && WritableExpr(r)
    case Or(l, r) => WritableExpr(l) && WritableExpr(r)
  }

  lemma {:induction false} PrintIsWritable(e: Expr<string>, level: nat)
    requires WritableExpr(e)
    ensures forall t <- Print(e, level) :: Writable(t)
    decreases e, if Level(e) < level then 1 else 0
  {
    if Level(e) < level { PrintIsWritable(e, 0); return; }
    match e
    case Call(f, None) => PrintIsWritable(f, 3);
    case Call(f, Some(a)) => PrintIsWritable(f, 3); PrintIsWritable(a, 0);
    case Group(inner) => PrintIsWritable(inner, 0);
    case Not(arg) => PrintIsWritable(arg, 2);
    case And(l, r) => PrintIsWritable(l, 2); PrintIsWritable(r, 1);
    case Or(l, r) => PrintIsWritable(l, 1); PrintIsWritable(r, 0);
    case _ =>
  }

  // ------------------------------------------------------------------ the evaluator

  lemma SubstAppend(ts: seq<Token<string>>, t: Token<string>, markers: set<string>)
    ensures Subst(ts + [t], markers) == Subst(ts, markers) + [SubstToken(t, markers)]
  {}

  // What `eval` makes of the substituted tokens
  function EvalTokens(tokens: seq<Token<bool>>): Result<bool, Error> {
    match Parse(tokens)
    case None => Err(SyntaxError)
    case Some(e) => Eval(e, b => b)
  }

  lemma EvalTokensSubst(names: seq<Token<string>>, markers: set<string>)
    ensures EvalTokens(Subst(names, markers)) ==
      match Parse(names) case None => Err(SyntaxError) case Some(e) => Eval(e, name => name in markers)
  {
    ParseOrSubst(names, markers);
    if Parse(names).Some? { EvalSubst(Parse(names).value, markers); }
  }

  // The reference: read the markers' names first, and look them up only while evaluating
  function Meaning(expression: string, markers: set<string>): Result<bool, Error> {
    match Scan(expression)
    case None => Err(InvalidMarker)
    case Some(tokens) =>
      match Parse(tokens)
      case None => Err(SyntaxError)
      case Some(e) => Eval(e, name => name in markers)
  }

  lemma ScannedNothing(expression: string)
    ensures expression[0..] == expression && Scan(expression) == Prepend([], Scan(expression))
  {
    if Scan(expression).Some? { assert [] + Scan(expression).value == Scan(expression).value; }
  }

  // The tokens read so far, and one more
  lemma ScannedFurther(whole: Option<seq<Token<string>>>, names: seq<Token<string>>, rest: string,
      token: Token<string>, advance: nat)
    requires !Blank(rest) && Match(rest) == Some((token, advance)) && whole == Prepend(names, Scan(rest))
    ensures 0 < advance <= |rest| && whole == Prepend(names + [token], Scan(rest[advance..]))
  {
    ScanStep(rest, token, advance);
    PrependPrepend(names, [token], Scan(rest[advance..]));
  }

  lemma SliceFrom(s: string, i: nat, n: nat)
    requires i + n <= |s|
    ensures s[i + n..] == s[i..][n..]
  {
  }

  lemma ScannedAll(expression: string, names: seq<Token<string>>, markers: set<string>)
    requires Scan(expression) == Some(names)
    ensures EvalTokens(Subst(names, markers)) == Meaning(expression, markers)
  {
    EvalTokensSubst(names, markers);
  }

  // Substituting each identifier while scanning, then evaluating what is left, computes the
  // reference meaning of every string: the malformed ones fail in the same way.
  method EvaluateMarkerExpression(expression: string, markers: set<string>) returns (r: Result<bool, Error>)
    ensures r == Meaning(expression, markers)
  {
    var tokens: seq<Token<bool>> := [];
    var position := 0;
    var rest := expression[position..];
    ghost var names: seq<Token<string>> := [];
    ghost var whole, left := Scan(expression), Scan(rest);
    ScannedNothing(expression);
    while !Blank(rest)
      invariant position <= |expression| && rest == expression[position..] && left == Scan(rest)
      invariant tokens == Subst(names, markers) && whole == Prepend(names, left)
      decreases |rest|
    {
      match Match(rest) {
        case None => return Err(InvalidMarker);
        case Some((token, advance)) =>
          ScannedFurther(whole, names, rest, token, advance);
          SubstAppend(names, token, markers);
          SliceFrom(expression, position, advance);
          tokens, names := tokens + [SubstToken(token, markers)], names + [token];
          position := position + advance;
          rest := expression[position..];
          left := Scan(rest);
      }
    }
    assert names + [] == names;
    ScannedAll(expression, names, markers);
    r := EvalTokens(tokens);
  }

  // Main result.  For every tree, every choice of redundant parentheses, every layout of its
  // printed form and every marker set, the evaluator returns what the tree means.
  lemma MeaningOfPrintedTree(e: Expr<string>, gaps: seq<string>, markers: set<string>)
    requires Boolean(e) && WritableExpr(e) && IsLayout(Print(e, 0), gaps)
    ensures Meaning(Text(Print(e, 0), gaps), markers) == Ok(Selects(e, markers))
  {
    PrintIsWritable(e, 0);
    ScanText(Print(e, 0), gaps);
    ParsePrintRoundTrip(e);
    EvalIsSelects(e, markers);
  }
}
