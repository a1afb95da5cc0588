/** Two marker expressions that are valid Python, but no boolean combination of markers. */
module MarkerSurprises {
  import opened Wrappers
  import opened MarkerScanner
  import opened MarkerExpression

  const EmptyTuple: seq<Token<string>> := [LParen, RParen]
  const NameCalled: seq<Token<string>> := [Operand("a")] + EmptyTuple

  lemma ScanEmptyTuple()
    ensures Scan("()") == Some(EmptyTuple)
  {
    var gaps := ["", "", ""];
    assert gaps[1..] == ["", ""] && gaps[1..][1..] == [""] && EmptyTuple[1..] == [RParen] && EmptyTuple[1..][1..] == [];
    assert Text(EmptyTuple, gaps) == "()";
    ScanText(EmptyTuple, gaps);
  }

  lemma ScanNameCalled()
    ensures Scan("a()") == Some(NameCalled)
  {
    assert IsName("a");
    MatchLexeme(Operand("a"), "()");
    assert "a" + "()" == "a()" && "a()"[1..] == "()";
    ScanStep("a()", Operand("a"), 1);
    ScanEmptyTuple();
  }

  // Two parentheses are the empty tuple, which is false
  lemma EmptyParenthesesAreFalse(markers: set<string>)
    ensures Meaning("()", markers) == Ok(false)
  {
    ScanEmptyTuple();
    assert EmptyTuple[2..] == [];
    assert ParsePrimary(EmptyTuple) == Some((Unit, []));
    assert Parse(EmptyTuple) == Some(Unit);
  }

  // A marker followed by parentheses is a call, which raises
  lemma CallsRaise(markers: set<string>)
    ensures Meaning("a()", markers) == Err(TypeError)
  {
    ScanNameCalled();
    ParseNameCalled();
  }

  lemma ParseNameCalled()
    ensures Parse(NameCalled) == Some(Call(Lit("a"), None))
  {
    assert NameCalled[1..] == EmptyTuple && EmptyTuple[1..] == [RParen] && EmptyTuple[2..] == [];
    assert Starts(EmptyTuple, LParen) && Starts(EmptyTuple[1..], RParen);
    assert ParseCalls(Lit("a"), EmptyTuple) == Some((Call(Lit("a"), None), []));
    assert ParsePrimary(NameCalled) == Some((Call(Lit("a"), None), []));
    assert ParseNot(NameCalled) == Some((Call(Lit("a"), None), []));
    assert ParseAnd(NameCalled) == Some((Call(Lit("a"), None), []));
  }
}
