/** The lexer: a cursor over an immutable source string that yields one token
    per call. `Scan` is the specification of one call; class `Lexer` is the
    stateful scanner, proved to follow it. */
module Lexing {
  import opened Syntax
  import SyntaxFacts

  /** Largest value of a signed 32-bit integer. */
  const Int32Max: int := 0x7FFF_FFFF

  // Character classes (ASCII).
  predicate IsDigit(c: char) { '0' <= c <= '9' }
  predicate IsWhiteSpace(c: char) { c == ' ' || '\t' <= c <= '\r' }
  predicate IsLetter(c: char) { 'a' <= c <= 'z' || 'A' <= c <= 'Z' }

  /** The three classes whose runs the lexer consumes maximally. */
  datatype CharClass = Digits | WhiteSpace | Letters

  predicate InClass(c: char, cls: CharClass) {
    match cls
    case Digits => IsDigit(c)
    case WhiteSpace => IsWhiteSpace(c)
    case Letters => IsLetter(c)
  }

  /** The end of the maximal run of class `cls` that starts at `i`. */
  function RunEnd(text: string, i: nat, cls: CharClass): (j: nat)
    requires i <= |text|
    ensures i <= j <= |text|
    ensures forall k :: i <= k < j ==> InClass(text[k], cls)
    ensures j == |text| || !InClass(text[j], cls)
    decreases |text| - i
  {
    if i < |text| && InClass(text[i], cls) then RunEnd(text, i + 1, cls) else i
  }

  predicate AllDigits(s: string) {
    forall k :: 0 <= k < |s| ==> IsDigit(s[k])
  }

  function Pow10(n: nat): (p: nat)
    ensures p >= 1
  {
    if n == 0 then 1 else 10 * Pow10(n - 1)
  }

  /** The value of a decimal numeral: below 10^|s|, and its last decimal
      digit is the numeral's last digit. */
  function DecimalValue(s: string): (v: nat)
    requires AllDigits(s)
    ensures v < Pow10(|s|)
    ensures s != [] ==> v % 10 == s[|s| - 1] as int - '0' as int
  {
    if s == [] then 0 else DecimalValue(s[..|s| - 1]) * 10 + (s[|s| - 1] as int - '0' as int)
  }

  /** `int.TryParse` on a run of digits: it succeeds exactly when the value fits
      in a signed 32-bit integer, and otherwise yields the default 0. */
  function TryParseInt32(s: string): (r: (bool, int32))
    requires AllDigits(s)
    ensures r.0 <==> DecimalValue(s) <= Int32Max
    ensures r.0 ==> r.1 as int == DecimalValue(s)
    ensures !r.0 ==> r.1 == 0
  {
    var v := DecimalValue(s);
    if v <= Int32Max then (true, v as int32) else (false, 0)
  }

  lemma Pow10Nine()
    ensures Pow10(9) == 1_000_000_000
  {
    assert Pow10(1) == 10;
    assert Pow10(2) == 100;
    assert Pow10(3) == 1_000;
    assert Pow10(4) == 10_000;
    assert Pow10(5) == 100_000;
    assert Pow10(6) == 1_000_000;
    assert Pow10(7) == 10_000_000;
    assert Pow10(8) == 100_000_000;
  }

  /** Every digit run of at most nine digits parses; only longer runs can overflow. */
  lemma ShortNumbersParse(s: string)
    requires AllDigits(s) && |s| <= 9
    ensures TryParseInt32(s).0
  {
    Pow10Nine();
    Pow10Monotone(|s|, 9);
  }

  lemma {:induction false} Pow10Monotone(m: nat, n: nat)
    requires m <= n
    ensures Pow10(m) <= Pow10(n)
    decreases n - m
  {
    if m < n {
      Pow10Monotone(m, n - 1);
    }
  }

  /** A diagnostic the lexer reports: the span of an overflowing numeral, or
      the position and value of a character no token starts with. */
  datatype Diagnostic = InvalidNumber(span: TextSpan) | BadCharacter(position: nat, character: char)

  /** The diagnostic points into `text[lo..hi]`; a bad-character diagnostic
      names the character that is actually there. */
  predicate Within(text: string, d: Diagnostic, lo: nat, hi: nat) {
    match d
    case InvalidNumber(span) => lo <= span.start && span.start + span.length <= hi
    case BadCharacter(p, c) => lo <= p < hi && p < |text| && text[p] == c
  }

  /** Characters that are, or begin, an operator lexeme without help from the next character. */
  predicate StartsSingleOperator(c: char) {
    c == '+' || c == '-' || c == '*' || c == '/' || c == '(' || c == ')' || c == '!' || c == '='
  }

  /** The token kind of each operator and punctuation lexeme. */
  const OperatorKinds: map<string, SyntaxKind> := map[
    "+" := PlusToken, "-" := MinusToken, "*" := StarToken, "/" := SlashToken,
    "(" := OpenParenthesisToken, ")" := CloseParenthesisToken,
    "&&" := AmpersandAmpersandToken, "||" := PipePipeToken,
    "==" := EqualsEqualsToken, "!=" := BangEqualsToken,
    "!" := BangToken, "=" := EqualsToken]

  /** The operator or punctuation lexeme that starts with `c` when the next
      character is `lookahead`, with its kind; None when no lexeme matches. */
  function MatchOperator(c: char, lookahead: char): (r: Option<(SyntaxKind, string)>)
    ensures r.Some? ==> 1 <= |r.value.1| <= 2 && r.value.1[0] == c
    ensures r.Some? && |r.value.1| == 2 ==> r.value.1[1] == lookahead
    ensures r.Some? ==> r.value.0 != EndOfFileToken && r.value.0 != BadToken
    ensures r.Some? ==> r.value.1 in OperatorKinds && r.value.0 == OperatorKinds[r.value.1]
    ensures r.None? <==> !StartsSingleOperator(c) && !(c == '&' && lookahead == '&') && !(c == '|' && lookahead == '|')
  {
    if c == '+' then Some((PlusToken, "+"))
    else if c == '-' then Some((MinusToken, "-"))
    else if c == '*' then Some((StarToken, "*"))
    else if c == '/' then Some((SlashToken, "/"))
    else if c == '(' then Some((OpenParenthesisToken, "("))
    else if c == ')' then Some((CloseParenthesisToken, ")"))
    else if c == '&' && lookahead == '&' then Some((AmpersandAmpersandToken, "&&"))
    else if c == '|' && lookahead == '|' then Some((PipePipeToken, "||"))
    else if c == '=' && lookahead == '=' then Some((EqualsEqualsToken, "=="))
    else if c == '!' && lookahead == '=' then Some((BangEqualsToken, "!="))
    else if c == '!' then Some((BangToken, "!"))
    else if c == '=' then Some((EqualsToken, "="))
    else None
  }

  /** The character at `i`, or the sentinel '\0' past the end. */
  function CharAt(text: string, i: nat): char {
    if i < |text| then text[i] else '\0'
  }

  /** The outcome of one call of the lexer with the cursor at `start`: the token,
      the new cursor and the diagnostics appended. */
  datatype Step = Step(token: SyntaxToken, next: nat, reported: seq<Diagnostic>)

  function EndOfFile(position: nat): SyntaxToken {
    SyntaxToken(EndOfFileToken, position, "\0", None)
  }

  /** A digit run: a number token carrying the run's 32-bit value, or 0 and an
      invalid-number diagnostic when the run overflows. */
  function NumberStep(text: string, start: nat): (s: Step)
    requires start < |text| && IsDigit(text[start])
    ensures s.token.position == start && start < s.next <= |text|
    ensures s.token.text == text[start..s.next] && s.token.kind == NumberToken
    ensures |s.reported| <= 1
  {
    var end := RunEnd(text, start, Digits);
    var lexeme := text[start..end];
    var (ok, value) := TryParseInt32(lexeme);
    Step(SyntaxToken(NumberToken, start, lexeme, Some(IntValue(value))), end,
         if ok then [] else [InvalidNumber(TextSpan(start, end - start))])
  }

  /** A whitespace or letter run: a whitespace token, or a keyword or identifier. */
  function WordStep(text: string, start: nat, cls: CharClass): (s: Step)
    requires cls != Digits && start < |text| && InClass(text[start], cls)
    ensures s.token.position == start && start < s.next <= |text|
    ensures s.token.text == text[start..s.next] && s.reported == []
    ensures s.token.kind in {WhitespaceToken, TrueKeyword, FalseKeyword, IdentifierToken}
    ensures s.token.value == None
  {
    var end := RunEnd(text, start, cls);
    var lexeme := text[start..end];
    var kind := if cls == WhiteSpace then WhitespaceToken else SyntaxFacts.GetKeywordKind(lexeme);
    Step(SyntaxToken(kind, start, lexeme, None), end, [])
  }

  /** An operator or punctuation lexeme, or else a one-character bad token
      together with a bad-character diagnostic. */
  function OperatorStep(text: string, start: nat): (s: Step)
    requires start < |text|
    ensures s.token.position == start && start < s.next <= |text|
    ensures s.token.text == text[start..s.next]
    ensures s.token.kind != EndOfFileToken
    ensures s.reported != [] <==> s.token.kind == BadToken
    ensures s.token.kind != BadToken ==> s.token.text in OperatorKinds && s.token.kind == OperatorKinds[s.token.text]
    ensures s.token.value == None
    ensures |s.reported| <= 1
  {
    var c := text[start];
    match MatchOperator(c, CharAt(text, start + 1))
    case Some((kind, lexeme)) =>
      Step(SyntaxToken(kind, start, lexeme, None), start + |lexeme|, [])
    case None =>
      Step(SyntaxToken(BadToken, start, text[start..start + 1], None), start + 1,
           [BadCharacter(start, c)])
  }

  /** The token a matched operator lexeme makes at `start`. */
  function MatchedToken(m: Option<(SyntaxKind, string)>, start: nat): Option<SyntaxToken> {
    match m
    case Some((kind, lexeme)) => Some(SyntaxToken(kind, start, lexeme, None))
    case None => None
  }

  lemma OperatorStepIsMatch(text: string, start: nat)
    requires start < |text|
    ensures var m := MatchedToken(MatchOperator(text[start], CharAt(text, start + 1)), start);
      var s := OperatorStep(text, start);
      && (m.Some? ==> s == Step(m.value, start + |m.value.text|, []))
      && (m.None? ==> s == Step(SyntaxToken(BadToken, start, [text[start]], None), start + 1,
                                 [BadCharacter(start, text[start])]))
  {
  }

  /** One call of the lexer. At the end it yields end-of-file and stays put;
      otherwise the cursor moves forward, never past the end, and the token's
      text is exactly the characters it moved over. */
  function Scan(text: string, start: nat): (s: Step)
    requires start <= |text|
    ensures s.token.position == start && start <= s.next <= |text|
    ensures start == |text| ==> s == Step(EndOfFile(start), start, [])
    ensures start < |text| ==> start < s.next && s.token.text == text[start..s.next]
    ensures s.token.kind == EndOfFileToken <==> start == |text|
    ensures |s.reported| <= 1
    ensures s.reported != [] ==> s.token.kind == NumberToken || s.token.kind == BadToken
  {
    if start >= |text| then Step(EndOfFile(start), start, [])
    else if IsDigit(text[start]) then NumberStep(text, start)
    else if IsWhiteSpace(text[start]) then WordStep(text, start, WhiteSpace)
    else if IsLetter(text[start]) then WordStep(text, start, Letters)
    else OperatorStep(text, start)
  }

  /** Runs of digits, whitespace and letters are consumed maximally: every
      character of the token is in the class of the first one, and the next
      character is not. A letter run is a keyword or an identifier. Whitespace
      and letter tokens carry no value. */
  lemma ScanRunIsMaximal(text: string, start: nat, cls: CharClass)
    requires start < |text| && InClass(text[start], cls)
    ensures var s := Scan(text, start);
      && (forall k :: start <= k < s.next ==> InClass(text[k], cls))
      && (s.next == |text| || !InClass(text[s.next], cls))
      && s.token.kind == (match cls
                          case Digits => NumberToken
                          case WhiteSpace => WhitespaceToken
                          case Letters => SyntaxFacts.GetKeywordKind(s.token.text))
      && (cls != Digits ==> s.token.value == None)
  {
  }

  /** A digit run always yields a number token. When it does not fit in 32 bits
      the lexer reports one invalid-number diagnostic spanning the run and the
      token carries the value 0; otherwise it carries the run's value and
      nothing is reported. */
  lemma ScanNumber(text: string, start: nat)
    requires start < |text| && IsDigit(text[start])
    ensures var s := Scan(text, start);
      && s.token.kind == NumberToken && s.token.value.Some? && s.token.value.value.IntValue?
      && AllDigits(s.token.text)
      && (DecimalValue(s.token.text) <= Int32Max ==>
            s.token.value.value.i as int == DecimalValue(s.token.text) && s.reported == [])
      && (DecimalValue(s.token.text) > Int32Max ==>
            s.token.value.value.i == 0 && s.reported == [InvalidNumber(TextSpan(start, s.next - start))])
  {
  }

  /** `&&`, `||`, `==` and `!=` are read as one token when both characters are
      there: the cursor moves by 2 and nothing is reported. */
  lemma ScanTwoCharacterOperator(text: string, start: nat)
    requires start + 1 < |text| && text[start..start + 2] in {"&&", "||", "==", "!="}
    ensures var s := Scan(text, start);
      && s.next == start + 2 && s.token.text == text[start..start + 2] && s.reported == []
      && s.token.kind == OperatorKinds[text[start..start + 2]] && s.token.value == None
  {
    assert text[start] == text[start..start + 2][0] && text[start + 1] == text[start..start + 2][1];
  }

  /** Otherwise `+ - * / ( ) ! =` are one-character tokens: the cursor moves by 1
      and nothing is reported. */
  lemma ScanOneCharacterOperator(text: string, start: nat)
    requires start < |text| && StartsSingleOperator(text[start])
    requires !((text[start] == '=' || text[start] == '!') && CharAt(text, start + 1) == '=')
    ensures var s := Scan(text, start);
      && s.next == start + 1 && s.reported == [] && s.token.text == [text[start]]
      && [text[start]] in OperatorKinds && s.token.kind == OperatorKinds[[text[start]]]
      && s.token.value == None
  {
  }

  /** A lone `&` or `|` is not an operator: it is a bad character. */
  lemma ScanLoneAmpersandOrPipe(text: string, start: nat)
    requires start < |text| && (text[start] == '&' || text[start] == '|')
    requires CharAt(text, start + 1) != text[start]
    ensures var s := Scan(text, start);
      && s.token.kind == BadToken && s.next == start + 1
      && s.reported == [BadCharacter(start, text[start])]
  {
  }

  /** A character that starts no token yields one bad token holding just that
      character, one bad-character diagnostic at its position, and a one-step advance. */
  lemma ScanBadCharacter(text: string, start: nat)
    requires start < |text|
    requires var c := text[start];
      !IsDigit(c) && !IsWhiteSpace(c) && !IsLetter(c) && MatchOperator(c, CharAt(text, start + 1)).None?
    ensures Scan(text, start) ==
      Step(SyntaxToken(BadToken, start, [text[start]], None), start + 1, [BadCharacter(start, text[start])])
  {
  }

  /** All tokens of an exhaustive scan from `start`, up to and including the
      first end-of-file token; there are at most one more than the characters left. */
  function Tokens(text: string, start: nat): (ts: seq<SyntaxToken>)
    requires start <= |text|
    ensures 1 <= |ts| <= |text| - start + 1
    ensures ts[|ts| - 1] == EndOfFile(|text|)
    ensures forall i :: 0 <= i < |ts| - 1 ==> ts[i].kind != EndOfFileToken
    decreases |text| - start
  {
    var s := Scan(text, start);
    if start == |text| then [s.token] else [s.token] + Tokens(text, s.next)
  }

  /** All diagnostics of an exhaustive scan from `start`, in scan order. Each
      one points into the scanned part of the text. */
  function Reports(text: string, start: nat): (r: seq<Diagnostic>)
    requires start <= |text|
    ensures forall i :: 0 <= i < |r| ==> Within(text, r[i], start, |text|)
    decreases |text| - start
  {
    var s := Scan(text, start);
    ScanReportsWithin(text, start);
    if start == |text| then [] else s.reported + Reports(text, s.next)
  }

  /** The diagnostic of one scan points into the characters it moved over. */
  lemma ScanReportsWithin(text: string, start: nat)
    requires start <= |text|
    ensures var s := Scan(text, start); s.reported != [] ==> Within(text, s.reported[0], start, s.next)
  {
  }

  /** The concatenated texts of a token sequence. */
  function Concat(ts: seq<SyntaxToken>): string {
    if ts == [] then "" else ts[0].text + Concat(ts[1..])
  }

  /** Round trip: the texts of the tokens before end-of-file spell out the rest of the source. */
  lemma {:induction false} TokensRoundTrip(text: string, start: nat)
    requires start <= |text|
    ensures var ts := Tokens(text, start); Concat(ts[..|ts| - 1]) == text[start..]
    decreases |text| - start
  {
    if start < |text| {
      var s := Scan(text, start);
      TokensRoundTrip(text, s.next);
      ConcatStep(text, start, s.next, s.token, Tokens(text, s.next));
    }
  }

  /** One step of the round trip: a token spelling text[start..next] put before
      tokens spelling text[next..] spells text[start..]. */
  lemma ConcatStep(text: string, start: nat, next: nat, t: SyntaxToken, rest: seq<SyntaxToken>)
    requires start <= next <= |text| && t.text == text[start..next]
    requires |rest| >= 1 && Concat(rest[..|rest| - 1]) == text[next..]
    ensures var ts := [t] + rest; Concat(ts[..|ts| - 1]) == text[start..]
  {
    var ts := [t] + rest;
    assert ts[..|ts| - 1] == [t] + rest[..|rest| - 1];
    ConcatCons(t, rest[..|rest| - 1]);
    assert text[start..] == text[start..next] + text[next..];
  }

  lemma ConcatCons(t: SyntaxToken, ts: seq<SyntaxToken>)
    ensures Concat([t] + ts) == t.text + Concat(ts)
  {
    assert ([t] + ts)[1..] == ts;
  }

  /** Tokens are contiguous: the first starts at `start`, and each one starts
      where the previous one's text ends. */
  lemma {:induction false} TokensAreContiguous(text: string, start: nat)
    requires start <= |text|
    ensures var ts := Tokens(text, start);
      && ts[0].position == start
      && forall i :: 0 <= i < |ts| - 1 ==> ts[i + 1].position == ts[i].position + |ts[i].text|
    decreases |text| - start
  {
    if start < |text| {
      var s := Scan(text, start);
      TokensAreContiguous(text, s.next);
      var ts := Tokens(text, start);
      var rest := Tokens(text, s.next);
      assert ts == [s.token] + rest;
      forall i | 0 <= i < |ts| - 1
        ensures ts[i + 1].position == ts[i].position + |ts[i].text|
      {
        if i > 0 {
          assert ts[i] == rest[i - 1] && ts[i + 1] == rest[i];
        }
      }
    }
  }

  /** An exhaustive scan reports at most one diagnostic per token before end-of-file. */
  lemma {:induction false} ReportsBound(text: string, start: nat)
    requires start <= |text|
    ensures |Reports(text, start)| <= |Tokens(text, start)| - 1
    decreases |text| - start
  {
    if start < |text| {
      ReportsBound(text, Scan(text, start).next);
    }
  }

  /** `12+3` scans as the number 12, a plus sign, the number 3 and end-of-file,
      with nothing reported. */
  lemma ScansSumOfNumbers()
    ensures Tokens("12+3", 0) == [SyntaxToken(NumberToken, 0, "12", Some(IntValue(12))),
                                   SyntaxToken(PlusToken, 2, "+", None),
                                   SyntaxToken(NumberToken, 3, "3", Some(IntValue(3))),
                                   EndOfFile(4)]
    ensures Reports("12+3", 0) == []
  {
    var text := "12+3";
    SumOfNumbersSteps();
    TokensFrom(text, 3, Step(SyntaxToken(NumberToken, 3, "3", Some(IntValue(3))), 4, []));
    TokensFrom(text, 2, Step(SyntaxToken(PlusToken, 2, "+", None), 3, []));
    TokensFrom(text, 0, Step(SyntaxToken(NumberToken, 0, "12", Some(IntValue(12))), 2, []));
  }

  /** The three single scans of `12+3`. */
  lemma SumOfNumbersSteps()
    ensures Scan("12+3", 0) == Step(SyntaxToken(NumberToken, 0, "12", Some(IntValue(12))), 2, [])
    ensures Scan("12+3", 2) == Step(SyntaxToken(PlusToken, 2, "+", None), 3, [])
    ensures Scan("12+3", 3) == Step(SyntaxToken(NumberToken, 3, "3", Some(IntValue(3))), 4, [])
  {
    var text := "12+3";
    assert RunEnd(text, 0, Digits) == 2 by {
      assert RunEnd(text, 2, Digits) == 2;
    }
    assert DecimalValue("12") == 12 by {
      assert "12"[..1] == "1";
    }
    assert text[0..2] == "12";
    assert RunEnd(text, 3, Digits) == 4;
    assert text[3..4] == "3";
  }

  /** Unfolds an exhaustive scan by one known step. */
  lemma TokensFrom(text: string, start: nat, s: Step)
    requires start < |text| && Scan(text, start) == s
    ensures Tokens(text, start) == [s.token] + Tokens(text, s.next)
    ensures Reports(text, start) == s.reported + Reports(text, s.next)
  {
  }

  /** A run of digits is consumed as a whole when it reaches the end of the text. */
  lemma {:induction false} RunEndAtEnd(text: string, i: nat, cls: CharClass)
    requires i <= |text|
    requires forall k :: i <= k < |text| ==> InClass(text[k], cls)
    ensures RunEnd(text, i, cls) == |text|
    decreases |text| - i
  {
    if i < |text| {
      RunEndAtEnd(text, i + 1, cls);
    }
  }

  /** `9999999999` does not fit in 32 bits: one invalid-number diagnostic
      spanning all ten digits, and a number token carrying 0. */
  lemma ScansOverflowingNumber()
    ensures Scan("9999999999", 0) ==
      Step(SyntaxToken(NumberToken, 0, "9999999999", Some(IntValue(0))), 10, [InvalidNumber(TextSpan(0, 10))])
  {
    var text := "9999999999";
    RunEndAtEnd(text, 0, Digits);
    assert text[0..10] == text;
    assert DecimalValue(text) > Int32Max by {
      AllNinesValue(text);
      Pow10Nine();
    }
  }

  /** A numeral of n nines is 10^n - 1. */
  lemma {:induction false} AllNinesValue(s: string)
    requires forall k :: 0 <= k < |s| ==> s[k] == '9'
    ensures AllDigits(s) && DecimalValue(s) == Pow10(|s|) - 1
  {
    if s != [] {
      AllNinesValue(s[..|s| - 1]);
    }
  }

  /** `@` starts no token: one bad-character diagnostic at 0, a bad token `@`, cursor at 1. */
  lemma ScansBadCharacter()
    ensures Scan("@", 0) == Step(SyntaxToken(BadToken, 0, "@", None), 1, [BadCharacter(0, '@')])
  {
    assert "@"[0..1] == "@";
  }

  /** The stateful scanner. `position` is the cursor and `diagnostics` the
      append-only diagnostic bag. */
  class Lexer {
    const text: string
    var position: nat
    var diagnostics: seq<Diagnostic>

    /** The cursor never passes the end of the text. */
    ghost predicate Valid()
      reads this
    {
      position <= |text|
    }

    constructor (text: string)
      ensures Valid() && this.text == text && position == 0 && diagnostics == []
    {
      this.text := text;
      position := 0;
      diagnostics := [];
    }

    /** The character `offset` places after the cursor, or '\0' past the end. */
    function Peek(offset: nat): (c: char)
      reads this
      ensures position + offset < |text| ==> c == text[position + offset]
      ensures position + offset >= |text| ==> c == '\0'
    {
      CharAt(text, position + offset)
    }

    /** The character under the cursor. The end sentinel is in no character
        class, so a run of a class always stops at the end of the text. */
    function Current(): (c: char)
      reads this
      ensures IsDigit(c) || IsWhiteSpace(c) || IsLetter(c) ==> position < |text| && c == text[position]
    {
      Peek(0)
    }

    /** The character after the cursor; a character that can complete a
        two-character operator is always a real character of the text. */
    function Lookahead(): (c: char)
      reads this
      ensures c == '&' || c == '|' || c == '=' ==> position + 1 < |text| && c == text[position + 1]
    {
      Peek(1)
    }

    method Next()
      modifies this`position
      ensures position == old(position) + 1
    {
      position := position + 1;
    }

    /** Moves the cursor over the maximal run of class `cls` under it (the
        `while (...) Next();` loops of Lex). */
    method SkipRun(cls: CharClass)
      requires Valid()
      modifies this`position
      ensures Valid()
      ensures position == RunEnd(text, old(position), cls)
    {
      ghost var start := position;
      while InClass(Current(), cls)
        invariant start <= position <= |text|
        invariant RunEnd(text, position, cls) == RunEnd(text, start, cls)
        decreases |text| - position
      {
        Next();
      }
    }

    /** The tail of Lex for a character that starts no run: an operator or
        punctuation lexeme, or else a bad character. */
    method LexPunctuation() returns (token: SyntaxToken)
      requires Valid() && position < |text|
      modifies this`position, this`diagnostics
      ensures Valid()
      ensures var s := OperatorStep(text, old(position));
        token == s.token && position == s.next && diagnostics == old(diagnostics) + s.reported
    {
      // Single-character lexemes take the cursor and advance it themselves;
      // the others leave it and say how far to move it in `addPosition`.
      var start := position;
      var c, lookahead := Current(), Lookahead();
      assert c == text[start] && lookahead == CharAt(text, start + 1);
      var addPosition: nat := 0;
      var matched: Option<SyntaxToken> := None;
      if c == '+' {
        matched := Some(SyntaxToken(PlusToken, position, "+", None)); position := position + 1;
      } else if c == '-' {
        matched := Some(SyntaxToken(MinusToken, position, "-", None)); position := position + 1;
      } else if c == '*' {
        matched := Some(SyntaxToken(StarToken, position, "*", None)); position := position + 1;
      } else if c == '/' {
        matched := Some(SyntaxToken(SlashToken, position, "/", None)); position := position + 1;
      } else if c == '(' {
        matched := Some(SyntaxToken(OpenParenthesisToken, position, "(", None)); position := position + 1;
      } else if c == ')' {
        matched := Some(SyntaxToken(CloseParenthesisToken, position, ")", None)); position := position + 1;
      } else if c == '&' && lookahead == '&' {
        addPosition, matched := 2, Some(SyntaxToken(AmpersandAmpersandToken, start, "&&", None));
      } else if c == '|' && lookahead == '|' {
        addPosition, matched := 2, Some(SyntaxToken(PipePipeToken, start, "||", None));
      } else if c == '=' && lookahead == '=' {
        addPosition, matched := 2, Some(SyntaxToken(EqualsEqualsToken, start, "==", None));
      } else if c == '!' && lookahead == '=' {
        addPosition, matched := 2, Some(SyntaxToken(BangEqualsToken, start, "!=", None));
      } else if c == '!' {
        matched := Some(SyntaxToken(BangToken, position, "!", None)); position := position + 1;
      } else if c == '=' {
        addPosition, matched := 1, Some(SyntaxToken(EqualsToken, start, "=", None));
      }

      position := position + addPosition;
      assert matched == MatchedToken(MatchOperator(c, lookahead), start)
        && position == start + (if matched.Some? then |matched.value.text| else 0);
      OperatorStepIsMatch(text, start);

      if matched.Some? {
        return matched.value;
      }

      diagnostics := diagnostics + [BadCharacter(position, Current())];
      var at := position;
      position := position + 1;
      token := SyntaxToken(BadToken, at, text[position - 1..position], None);
    }

    /** The digit branch of Lex: the maximal digit run, its 32-bit value, and an
        invalid-number diagnostic over the run when it does not fit. */
    method LexNumber() returns (token: SyntaxToken)
      requires Valid() && position < |text| && IsDigit(text[position])
      modifies this`position, this`diagnostics
      ensures Valid()
      ensures var s := NumberStep(text, old(position));
        token == s.token && position == s.next && diagnostics == old(diagnostics) + s.reported
    {
      var start := position;
      SkipRun(Digits);
      var length := position - start;
      var lexeme := text[start..start + length];
      var (ok, value) := TryParseInt32(lexeme);
      if !ok {
        diagnostics := diagnostics + [InvalidNumber(TextSpan(start, length))];
      }
      token := SyntaxToken(NumberToken, start, lexeme, Some(IntValue(value)));
    }

    /** The whitespace and letter branches of Lex: the maximal run, as a
        whitespace token or as a keyword or identifier. */
    method LexWord(cls: CharClass) returns (token: SyntaxToken)
      requires Valid() && cls != Digits && position < |text| && InClass(text[position], cls)
      modifies this`position
      ensures Valid()
      ensures var s := WordStep(text, old(position), cls); token == s.token && position == s.next
    {
      var start := position;
      SkipRun(cls);
      var length := position - start;
      var lexeme := text[start..start + length];
      if cls == WhiteSpace {
        token := SyntaxToken(WhitespaceToken, start, lexeme, None);
      } else {
        var kind := SyntaxFacts.GetKeywordKind(lexeme);
        token := SyntaxToken(kind, start, lexeme, None);
      }
    }

    /** Scans one token and moves the cursor past it, appending any diagnostic. */
    method Lex() returns (token: SyntaxToken)
      requires Valid()
      modifies this`position, this`diagnostics
      ensures Valid()
      ensures var s := Scan(text, old(position));
        token == s.token && position == s.next && diagnostics == old(diagnostics) + s.reported
    {
      if position >= |text| {
        return SyntaxToken(EndOfFileToken, position, "\0", None);
      }

      var start := position;
      assert Current() == text[start];

      if IsDigit(Current()) {
        token := LexNumber();
      } else if IsWhiteSpace(Current()) {
        token := LexWord(WhiteSpace);
      } else if IsLetter(Current()) {
        token := LexWord(Letters);
      } else {
        token := LexPunctuation();
      }
    }
  }
}
