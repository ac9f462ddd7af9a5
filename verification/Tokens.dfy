/** safeeval.go's tokenizer, and the spelling of tokens that it reads back. */
module Tokens {
  import opened Options
  import opened Values
  import opened Grammar
  import Text

  predicate IsQuote(c: char) { c == '"' || c == '\'' }

  predicate IsNumberChar(c: char) { Text.IsDigit(c) || c == '.' }

  predicate StartsNumber(s: string) {
    s != "" && (Text.IsDigit(s[0]) || (s[0] == '.' && |s| > 1 && Text.IsDigit(s[1])))
  }

  predicate StartsName(s: string) { s != "" && (Text.IsAlpha(s[0]) || s[0] == '_') }

  predicate IsNameChar(c: char) { Text.IsAlpha(c) || Text.IsDigit(c) || c == '_' }

  predicate TwoCharOp(s: string) {
    s == "==" || s == "!=" || s == "<=" || s == ">=" || s == "//" || s == "**"
  }

  predicate OneCharOp(c: char) { c in "+-*/%<>()[]," }

  /** How far the text runs before the quote `q`, or to its end. */
  function QuotedSpan(s: string, q: char): (n: nat)
    ensures n <= |s| && q !in s[..n] && (n < |s| ==> s[n] == q)
  {
    if s == "" || s[0] == q then 0 else 1 + QuotedSpan(s[1..], q)
  }

  function NumberSpan(s: string): (n: nat)
    ensures n <= |s| && (StartsNumber(s) ==> n > 0)
    ensures forall i | 0 <= i < n :: '0' <= s[i] <= '9' || s[i] == '.'
    ensures n < |s| ==> !('0' <= s[n] <= '9') && s[n] != '.'
  {
    if s == "" || !IsNumberChar(s[0]) then 0 else 1 + NumberSpan(s[1..])
  }

  function NameSpan(s: string): (n: nat)
    ensures n <= |s| && (StartsName(s) ==> n > 0)
    ensures forall i | 0 <= i < n :: Text.IsAlpha(s[i]) || Text.IsDigit(s[i]) || s[i] == '_'
    ensures n < |s| ==> !Text.IsAlpha(s[n]) && !Text.IsDigit(s[n]) && s[n] != '_'
  {
    if s == "" || !IsNameChar(s[0]) then 0 else 1 + NameSpan(s[1..])
  }

  function Push(t: Token, rest: Result<seq<Token>>): Result<seq<Token>> {
    match rest
    case Ok(toks) => Ok([t] + toks)
    case Err(x) => Err(x)
  }

  /** What the front of a non-empty text is: a blank, a token of some width, or nothing legal. */
  datatype Front = Blank | Emit(token: Token, width: nat) | Illegal(error: Error)

  function Next(s: string): (f: Front)
    requires s != ""
    ensures f.Emit? ==> 0 < f.width <= |s| && !f.token.EofTok?
  {
    if Text.IsSpace(s[0]) then Blank
    else if IsQuote(s[0]) then
      var n := QuotedSpan(s[1..], s[0]);
      if n == |s| - 1 then Illegal(UnsafeExpression("unterminated string"))
      else Emit(StrTok(s[1..n + 1]), n + 2)
    else if StartsNumber(s) then Emit(NumTok(s[..NumberSpan(s)]), NumberSpan(s))
    else if StartsName(s) then Emit(NameTok(s[..NameSpan(s)]), NameSpan(s))
    else if |s| > 1 && TwoCharOp(s[..2]) then Emit(OpTok(s[..2]), 2)
    else if OneCharOp(s[0]) then Emit(OpTok(s[..1]), 1)
    else Illegal(UnsafeExpression("unexpected character: " + s[..1]))
  }

  /** The tokens of a text, read from its front. */
  function Lex(s: string): Result<seq<Token>>
    decreases |s|
  {
    if s == "" then Ok([EofTok])
    else
      match Next(s)
      case Blank => Lex(s[1..])
      case Emit(t, n) => Push(t, Lex(s[n..]))
      case Illegal(x) => Err(x)
  }

  lemma {:induction false} LexTerminates(s: string)
    ensures Lex(s).Ok? ==> Terminated(Lex(s).value)
    decreases |s|
  {
    if s != "" {
      match Next(s)
      case Blank => LexTerminates(s[1..]);
      case Emit(_, n) => LexTerminates(s[n..]);
      case Illegal(_) =>
    }
  }

  function Prepend(done: seq<Token>, rest: Result<seq<Token>>): Result<seq<Token>> {
    match rest
    case Ok(toks) => Ok(done + toks)
    case Err(x) => Err(x)
  }

  lemma LexStep(s: string, i: nat, done: seq<Token>, front: Front)
    requires i < |s| && Next(s[i..]) == front
    ensures front.Blank? ==> Prepend(done, Lex(s[i..])) == Prepend(done, Lex(s[i + 1..]))
    ensures front.Emit? ==> Prepend(done, Lex(s[i..])) == Prepend(done + [front.token], Lex(s[i + front.width..]))
    ensures front.Illegal? ==> Prepend(done, Lex(s[i..])) == Err(front.error)
  {
    hide Next;
    assert s[i..][1..] == s[i + 1..];
    if front.Emit? {
      assert s[i..][front.width..] == s[i + front.width..];
      var rest := Lex(s[i + front.width..]);
      if rest.Ok? {
        assert done + ([front.token] + rest.value) == done + [front.token] + rest.value;
      }
    }
  }

  method QuotedEnd(s: string, start: nat, q: char) returns (i: nat)
    requires start <= |s|
    ensures i == start + QuotedSpan(s[start..], q)
  {
    i := start;
    while i < |s| && s[i] != q
      invariant start <= i <= |s|
      invariant QuotedSpan(s[start..], q) == i - start + QuotedSpan(s[i..], q)
    {
      assert s[i..][1..] == s[i + 1..];
      i := i + 1;
    }
  }

  method NumberEnd(s: string, start: nat) returns (i: nat)
    requires start <= |s|
    ensures i == start + NumberSpan(s[start..])
  {
    i := start;
    while i < |s| && IsNumberChar(s[i])
      invariant start <= i <= |s|
      invariant NumberSpan(s[start..]) == i - start + NumberSpan(s[i..])
    {
      assert s[i..][1..] == s[i + 1..];
      i := i + 1;
    }
  }

  method NameEnd(s: string, start: nat) returns (i: nat)
    requires start <= |s|
    ensures i == start + NameSpan(s[start..])
  {
    i := start;
    while i < |s| && IsNameChar(s[i])
      invariant start <= i <= |s|
      invariant NameSpan(s[start..]) == i - start + NameSpan(s[i..])
    {
      assert s[i..][1..] == s[i + 1..];
      i := i + 1;
    }
  }

  /** What stands at index `i`, by the case analysis of safeeval.go:82-121. */
  method FrontAt(s: string, i: nat) returns (front: Front)
    requires i < |s|
    ensures front == Next(s[i..])
  {
    var c := s[i];
    ghost var rest := s[i..];
    if Text.IsSpace(c) {
      front := Blank;
    } else if IsQuote(c) {
      var end := QuotedEnd(s, i + 1, c);
      assert rest[1..] == s[i + 1..];
      if end >= |s| {
        front := Illegal(UnsafeExpression("unterminated string"));
      } else {
        assert rest[1..end - i] == s[i + 1..end];
        front := Emit(StrTok(s[i + 1..end]), end - i + 1);
      }
    } else if Text.IsDigit(c) || (c == '.' && i + 1 < |s| && Text.IsDigit(s[i + 1])) {
      var end := NumberEnd(s, i);
      assert rest[..end - i] == s[i..end];
      front := Emit(NumTok(s[i..end]), end - i);
    } else if Text.IsAlpha(c) || c == '_' {
      var end := NameEnd(s, i);
      assert rest[..end - i] == s[i..end];
      front := Emit(NameTok(s[i..end]), end - i);
    } else {
      assert |rest| > 1 ==> rest[..2] == s[i..i + 2];
      assert rest[..1] == [c];
      if i + 1 < |s| && TwoCharOp(s[i..i + 2]) {
        front := Emit(OpTok(s[i..i + 2]), 2);
      } else if OneCharOp(c) {
        front := Emit(OpTok([c]), 1);
      } else {
        front := Illegal(UnsafeExpression("unexpected character: " + [c]));
      }
    }
  }

  method Tokenize(s: string) returns (r: Result<seq<Token>>)
    ensures r == Lex(s)
    ensures r.Ok? ==> Terminated(r.value)
  {
    hide Next;
    LexTerminates(s);
    var toks: seq<Token> := [];
    var i := 0;
    assert s[0..] == s && (Lex(s).Ok? ==> toks + Lex(s).value == Lex(s).value);
    while i < |s|
      invariant 0 <= i <= |s|
      invariant Lex(s) == Prepend(toks, Lex(s[i..]))
    {
      var front := FrontAt(s, i);
      LexStep(s, i, toks, front);
      match front
      case Blank =>
        i := i + 1;
      case Emit(t, n) =>
        toks := toks + [t];
        i := i + n;
      case Illegal(x) =>
        return Err(x);
    }
    assert s[i..] == "";
    r := Ok(toks + [EofTok]);
  }

  /** A character of an operator starts no blank, quote, number or name. */
  lemma OpCharacter(c: char)
    requires c in "+-*/%<>()[],=!"
    ensures !Text.IsSpace(c) && !IsQuote(c) && !Text.IsDigit(c) && c != '.' && !Text.IsAlpha(c) && c != '_'
  {
  }

  /** Of two operators that start alike the longer is read, whatever follows. */
  lemma TwoCharactersFirst(s: string)
    requires |s| > 1 && s[..2] in {"==", "!=", "<=", ">=", "//", "**"}
    ensures Next(s) == Emit(OpTok(s[..2]), 2)
  {
    hide QuotedSpan, NumberSpan, NameSpan, Text.IsSpace, IsQuote, Text.IsDigit, Text.IsAlpha;
    assert s[..2] == [s[0], s[1]];
    assert s[0] in "=!<>/*";
    OpCharacter(s[0]);
  }

  lemma OneCharacterElse(s: string)
    requires s != "" && s[0] in "+-*/%<>()[]," && (|s| == 1 || s[..2] !in {"<=", ">=", "//", "**"})
    ensures Next(s) == Emit(OpTok(s[..1]), 1)
  {
    hide QuotedSpan, NumberSpan, NameSpan, Text.IsSpace, IsQuote, Text.IsDigit, Text.IsAlpha;
    OpCharacter(s[0]);
    if |s| > 1 {
      assert s[..2] == [s[0], s[1]];
      NotEquals(s[0], s[1]);
    }
  }

  lemma NotEquals(c: char, d: char)
    requires c in "+-*/%<>()[]," && [c, d] !in {"<=", ">=", "//", "**"}
    ensures !TwoCharOp([c, d])
  {
    assert "=="[0] == '=' && "!="[0] == '!';
  }

  // -- spelling tokens back ------------------------------------------------------------------------

  predicate AllNumberChars(s: string) { forall i | 0 <= i < |s| :: IsNumberChar(s[i]) }

  predicate AllNameChars(s: string) { forall i | 0 <= i < |s| :: IsNameChar(s[i]) }

  predicate IsOpText(s: string) { TwoCharOp(s) || (|s| == 1 && OneCharOp(s[0])) }

  /** Tokens some text spells: a string must leave one of the two quote characters unused. */
  predicate Spellable(t: Token) {
    match t
    case NumTok(text) => StartsNumber(text) && AllNumberChars(text)
    case NameTok(text) => StartsName(text) && AllNameChars(text)
    case StrTok(text) => '"' !in text || '\'' !in text
    case OpTok(text) => IsOpText(text)
    case EofTok => false
  }

  function SpellToken(t: Token): string {
    match t
    case StrTok(text) => if '"' !in text then "\"" + text + "\"" else "'" + text + "'"
    case EofTok => ""
    case _ => t.text
  }

  function Spell(toks: seq<Token>): string {
    if toks == [] then "" else SpellToken(toks[0]) + " " + Spell(toks[1..])
  }

  lemma {:induction false} QuotedSpanStops(text: string, q: char, rest: string)
    requires q !in text
    ensures QuotedSpan(text + [q] + rest, q) == |text|
  {
    if text != "" {
      assert (text + [q] + rest)[1..] == text[1..] + [q] + rest;
      assert forall c | c in text[1..] :: c in text;
      QuotedSpanStops(text[1..], q, rest);
    }
  }

  lemma {:induction false} NumberSpanStops(text: string, rest: string)
    requires AllNumberChars(text)
    ensures NumberSpan(text + " " + rest) == |text|
  {
    if text != "" {
      assert (text + " " + rest)[1..] == text[1..] + " " + rest;
      NumberSpanStops(text[1..], rest);
    }
  }

  lemma {:induction false} NameSpanStops(text: string, rest: string)
    requires AllNameChars(text)
    ensures NameSpan(text + " " + rest) == |text|
  {
    if text != "" {
      assert (text + " " + rest)[1..] == text[1..] + " " + rest;
      NameSpanStops(text[1..], rest);
    }
  }

  lemma SpelledStringIsNext(text: string, q: char, rest: string)
    requires IsQuote(q) && q !in text
    ensures Next([q] + text + [q] + " " + rest) == Emit(StrTok(text), |text| + 2)
  {
    hide QuotedSpan;
    var s := [q] + text + [q] + " " + rest;
    assert s[1..] == text + [q] + (" " + rest);
    QuotedSpanStops(text, q, " " + rest);
    assert s[1..|text| + 1] == text;
  }

  lemma SpelledStringLexes(text: string, q: char, rest: string)
    requires IsQuote(q) && q !in text
    ensures Lex([q] + text + [q] + " " + rest) == Push(StrTok(text), Lex(rest))
  {
    hide Next;
    var s := [q] + text + [q] + " " + rest;
    SpelledStringIsNext(text, q, rest);
    assert s[|text| + 2..] == " " + rest;
    BlankIsSkipped(rest);
  }

  lemma SpelledWordLexes(t: Token, rest: string)
    requires Spellable(t) && (t.NumTok? || t.NameTok?)
    ensures Lex(t.text + " " + rest) == Push(t, Lex(rest))
  {
    hide Next;
    var s := t.text + " " + rest;
    SpelledWordIsNext(t, rest);
    assert s[|t.text|..] == " " + rest;
    BlankIsSkipped(rest);
  }

  lemma SpelledWordIsNext(t: Token, rest: string)
    requires Spellable(t) && (t.NumTok? || t.NameTok?)
    ensures t.text != "" && Next(t.text + " " + rest) == Emit(t, |t.text|)
  {
    hide NumberSpan, NameSpan;
    var s := t.text + " " + rest;
    if t.NumTok? {
      NumberSpanStops(t.text, rest);
      assert StartsNumber(s);
    } else {
      NameSpanStops(t.text, rest);
      assert StartsName(s) && !StartsNumber(s);
    }
    assert s[..|t.text|] == t.text;
  }

  lemma SpelledOpIsNext(text: string, rest: string)
    requires IsOpText(text)
    ensures Next(text + " " + rest) == Emit(OpTok(text), |text|)
  {
    hide IsQuote, StartsName, StartsNumber;
    var s := text + " " + rest;
    OpStart(text, rest);
    if |text| == 1 {
      assert s[..2] == [text[0], ' '] && s[..1] == text;
    } else {
      assert s[..2] == text;
    }
  }

  /** An operator starts no other token. */
  lemma OpStart(text: string, rest: string)
    requires IsOpText(text)
    ensures var s := text + " " + rest;
            !IsQuote(s[0]) && !StartsName(s) && !Text.IsSpace(s[0]) && !StartsNumber(s)
  {
  }

  lemma SpelledOpLexes(text: string, rest: string)
    requires IsOpText(text)
    ensures Lex(text + " " + rest) == Push(OpTok(text), Lex(rest))
  {
    hide Next;
    var s := text + " " + rest;
    SpelledOpIsNext(text, rest);
    assert s[|text|..] == " " + rest && (" " + rest)[1..] == rest;
    BlankIsSkipped(rest);
  }

  lemma BlankIsSkipped(rest: string)
    ensures Lex(" " + rest) == Lex(rest)
  {
    assert (" " + rest)[1..] == rest;
  }

  /** The tokenizer reads every spelled token back and goes on with what follows. */
  lemma SpelledTokenLexes(t: Token, rest: string)
    requires Spellable(t)
    ensures Lex(SpellToken(t) + " " + rest) == Push(t, Lex(rest))
  {
    match t
    case StrTok(text) => SpelledStringLexes(text, if '"' !in text then '"' else '\'', rest);
    case OpTok(text) => SpelledOpLexes(text, rest);
    case _ => SpelledWordLexes(t, rest);
  }

  lemma {:induction false} LexSpell(toks: seq<Token>)
    requires forall t | t in toks :: Spellable(t)
    ensures Lex(Spell(toks)) == Ok(toks + [EofTok])
  {
    hide Next, SpellToken, Spellable;
    if toks == [] {
      assert toks + [EofTok] == [EofTok];
    } else {
      assert toks[0] in toks && forall t | t in toks[1..] :: t in toks;
      SpelledTokenLexes(toks[0], Spell(toks[1..]));
      LexSpell(toks[1..]);
      assert [toks[0]] + (toks[1..] + [EofTok]) == toks + [EofTok];
    }
  }
}
