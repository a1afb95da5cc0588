/**
 Scanning a marker expression: the tokens of a text, and the texts of a list of tokens.
 */
module MarkerScanner {
  import opened Wrappers

  datatype Token<A> = LParen | RParen | AndOp | OrOp | NotOp | Operand(value: A)

  // ------------------------------------------------------------------ characters and scanner

  // str.isspace, which both `\s` and strip() use
  predicate IsSpace(c: char) {
    || '\t' <= c <= '\r' || '\U{1c}' <= c <= ' '
      || c in {'\U{85}', '\U{a0}', '\U{1680}', '\U{2028}', '\U{2029}', '\U{202f}', '\U{205f}', '\U{3000}'}
    || '\U{2000}' <= c <= '\U{200a}'
  }

  predicate IsNameStart(c: char) {
    'a' <= c <= 'z' || 'A' <= c <= 'Z' || c == '_'
  }

  predicate IsNameChar(c: char) {
    IsNameStart(c) || '0' <= c <= '9' || c == '.' || c == '-'
  }

  // Length of the longest prefix of s whose characters all satisfy p
  function Span(p: char -> bool, s: string): (n: nat)
    ensures n <= |s|
    ensures forall i :: 0 <= i < n ==> p(s[i])
    ensures n < |s| ==> !p(s[n])
  {
    if s == [] || !p(s[0]) then 0 else 1 + Span(p, s[1..])
  }

  predicate IsKeyword(name: string) {
    name == "and" || name == "or" || name == "not"
  }

  function Classify(name: string): Token<string> {
    if name == "and" then AndOp else if name == "or" then OrOp else if name == "not" then NotOp else Operand(name)
  }

  // One match of the token expression at the start of s: the token and how far it advances
  function Match(s: string): (m: Option<(Token<string>, nat)>)
    ensures m.Some? ==> 0 < m.value.1 <= |s|
  {
    if s == [] then None
    else if IsSpace(s[0]) then
      match Match(s[1..])
      case None => None
      case Some((token, advance)) => Some((token, advance + 1))
    else if s[0] == '(' then Some((LParen, 1))
    else if s[0] == ')' then Some((RParen, 1))
    else if !IsNameStart(s[0]) then None
    else
      var n := Span(IsNameChar, s);
      assert IsNameChar(s[0]);
      Some((Classify(s[..n]), n))
  }

  predicate Blank(s: string) {
    Span(IsSpace, s) == |s|
  }

  function Scan(s: string): Option<seq<Token<string>>>
    decreases |s|
  {
    if Blank(s) then Some([])
    else match Match(s)
      case None => None
      case Some((token, advance)) =>
        match Scan(s[advance..])
        case None => None
        case Some(tokens) => Some([token] + tokens)
  }

  // ------------------------------------------------------------------ text layouts

  predicate IsName(name: string) {
    name != [] && IsNameStart(name[0]) && (forall c <- name :: IsNameChar(c)) && !IsKeyword(name)
  }

  predicate Writable(t: Token<string>) {
    t.Operand? ==> IsName(t.value)
  }

  function Lexeme(t: Token<string>): string {
    match t
    case LParen => "("
    case RParen => ")"
    case AndOp => "and"
    case OrOp => "or"
    case NotOp => "not"
    case Operand(name) => name
  }

  predicate IsWord(t: Token<string>) {
    !t.LParen? && !t.RParen?
  }

  // gaps[i] is the blank space before token i, and the last one ends the text.  Two words need
  // some space between them.
  predicate IsLayout(ts: seq<Token<string>>, gaps: seq<string>) {
    && |gaps| == |ts| + 1
    && (forall gap <- gaps :: Blank(gap))
    && (forall i :: 0 <= i < |ts| - 1 && IsWord(ts[i]) && IsWord(ts[i + 1]) ==> gaps[i + 1] != [])
  }

  function Text(ts: seq<Token<string>>, gaps: seq<string>): string
    requires |gaps| == |ts| + 1
  {
    if ts == [] then gaps[0] else gaps[0] + Lexeme(ts[0]) + Text(ts[1..], gaps[1..])
  }

  lemma {:induction false} SpanExact(p: char -> bool, prefix: string, rest: string)
    requires forall c <- prefix :: p(c)
    requires rest == [] || !p(rest[0])
    ensures Span(p, prefix + rest) == |prefix|
  {
    if prefix == [] {
      assert prefix + rest == rest;
    } else {
      assert (prefix + rest)[1..] == prefix[1..] + rest;
      SpanExact(p, prefix[1..], rest);
    }
  }

  // A token is read back exactly from its text when the next character cannot prolong it
  lemma MatchLexeme(t: Token<string>, rest: string)
    requires Writable(t)
    requires IsWord(t) ==> rest == [] || !IsNameChar(rest[0])
    ensures Match(Lexeme(t) + rest) == Some((t, |Lexeme(t)|))
    ensures !IsSpace(Lexeme(t)[0])
  {
    var s := Lexeme(t) + rest;
    assert s[0] == Lexeme(t)[0];
    if IsWord(t) {
      SpanExact(IsNameChar, Lexeme(t), rest);
      assert s[..|Lexeme(t)|] == Lexeme(t);
    }
  }

  // Leading blanks are skipped
  lemma {:induction false} MatchAfterGap(gap: string, s: string, t: Token<string>, n: nat)
    requires Blank(gap) && s != [] && !IsSpace(s[0])
    requires Match(s) == Some((t, n))
    ensures Match(gap + s) == Some((t, |gap| + n))
    ensures !Blank(gap + s)
  {
    if gap == [] {
      assert gap + s == s;
      assert s[0] in s;
    } else {
      assert gap[0] in gap;
      assert (gap + s)[1..] == gap[1..] + s;
      MatchAfterGap(gap[1..], s, t, n);
      assert forall c <- gap[1..] + s :: c in gap + s;
    }
  }

  // The text after a token starts with nothing that could prolong a word
  lemma TextAfterWord(ts: seq<Token<string>>, gaps: seq<string>)
    requires IsLayout(ts, gaps) && ts != [] && IsWord(ts[0])
    ensures var rest := Text(ts[1..], gaps[1..]); rest == [] || !IsNameChar(rest[0])
  {
    assert gaps[1] in gaps;
    var rest := Text(ts[1..], gaps[1..]);
    if gaps[1] != [] {
      assert rest[0] == gaps[1][0] && gaps[1][0] in gaps[1];
    } else if |ts| > 1 {
      assert rest[0] == Lexeme(ts[1])[0];
    }
  }

  function Prepend<A>(front: seq<A>, back: Option<seq<A>>): Option<seq<A>> {
    match back case None => None case Some(ts) => Some(front + ts)
  }

  lemma ScanStep(s: string, t: Token<string>, advance: nat)
    requires !Blank(s) && Match(s) == Some((t, advance))
    ensures Scan(s) == Prepend([t], Scan(s[advance..]))
  {}

  lemma PrependPrepend<A>(a: seq<A>, b: seq<A>, back: Option<seq<A>>)
    ensures Prepend(a, Prepend(b, back)) == Prepend(a + b, back)
  {
    assert back.Some? ==> a + (b + back.value) == a + b + back.value;
  }

  lemma ScanAfterGap(gap: string, s: string, t: Token<string>, n: nat)
    requires Blank(gap) && s != [] && !IsSpace(s[0])
    requires n <= |s| && Match(s) == Some((t, n))
    ensures Scan(gap + s) == Prepend([t], Scan(s[n..]))
  {
    var text, advance := gap + s, |gap| + n;
    assert !Blank(text) && Match(text) == Some((t, advance)) by { MatchAfterGap(gap, s, t, n); }
    assert text[advance..] == s[n..];
    ScanStep(text, t, advance);
  }

  lemma ScanGapLexeme(gap: string, t: Token<string>, rest: string)
    requires Blank(gap) && Writable(t)
    requires IsWord(t) ==> rest == [] || !IsNameChar(rest[0])
    ensures Scan(gap + (Lexeme(t) + rest)) == Prepend([t], Scan(rest))
  {
    var s := Lexeme(t) + rest;
    MatchLexeme(t, rest);
    assert s[0] == Lexeme(t)[0] && s[|Lexeme(t)|..] == rest;
    ScanAfterGap(gap, s, t, |Lexeme(t)|);
  }

  lemma ScanFirst(ts: seq<Token<string>>, gaps: seq<string>)
    requires IsLayout(ts, gaps) && ts != [] && Writable(ts[0])
    ensures Scan(Text(ts, gaps)) == Prepend([ts[0]], Scan(Text(ts[1..], gaps[1..])))
  {
    var gap, t, rest := gaps[0], ts[0], Text(ts[1..], gaps[1..]);
    assert gap in gaps;
    if IsWord(t) { TextAfterWord(ts, gaps); }
    ScanGapLexeme(gap, t, rest);
    assert Text(ts, gaps) == gap + (Lexeme(t) + rest);
  }

  lemma {:induction false} ScanText(ts: seq<Token<string>>, gaps: seq<string>)
    requires IsLayout(ts, gaps) && forall t <- ts :: Writable(t)
    ensures Scan(Text(ts, gaps)) == Some(ts)
  {
    if ts == [] {
      assert gaps[0] in gaps;
    } else {
      assert ts[0] in ts;
      ScanFirst(ts, gaps);
      LayoutTail(ts, gaps);
      ScanText(ts[1..], gaps[1..]);
      assert [ts[0]] + ts[1..] == ts;
    }
  }

  lemma LayoutTail(ts: seq<Token<string>>, gaps: seq<string>)
    requires IsLayout(ts, gaps) && ts != []
    ensures IsLayout(ts[1..], gaps[1..])
  {
    forall i | 0 <= i < |ts[1..]| - 1 && IsWord(ts[1..][i]) && IsWord(ts[1..][i + 1]) ensures gaps[1..][i + 1] != [] {
      assert IsWord(ts[i + 1]) && IsWord(ts[i + 2]);
    }
  }
}
