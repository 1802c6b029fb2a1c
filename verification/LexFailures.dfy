/** Where and why a source fails to lex: the first token that cannot be read, and where reading it stops. */
module LexFailures {
  import opened Basics
  import opened Text
  import opened Syntax
  import opened Lexer
  import opened LexerLaws
  import opened Words
  import opened Spelling
  import opened StringForms

  // ---------------------------------------------------------------- the first failing token

  /** From `i` on, the tokens from the `k`-th on and whitespace lead to `p`, where another token begins. */
  ghost predicate Leads(host: Host, src: Utf16, i: nat, tokens: seq<Token>, k: nat, p: nat)
    decreases |tokens| - k
  {
    if k >= |tokens| then Blank(src, i, p) && p < |src| && !IsSpace(src[p])
    else
      && Blank(src, i, tokens[k].span.start) && Placed(host, src, tokens[k])
      && Leads(host, src, tokens[k].span.end, tokens, k + 1, p)
  }

  /** What is wrong with the token at `p`, `count` tokens having been read before it. */
  function Trouble(host: Host, src: Utf16, count: nat, p: nat): Option<Diagnostic>
    requires p < |src|
  {
    match ScanToken(host, src, p)
    case Bad(code, from, to) => Some(SourceDiagnostic(src, code, from, to))
    case Found(_, next) =>
      if count == MAX_TOKEN_COUNT then Some(SourceDiagnostic(src, TokenLimitExceeded, p, next)) else None
  }

  lemma TroubleNow(host: Host, src: Utf16, i: nat, before: seq<Token>)
    requires i < |src| && !IsSpace(src[i]) && |before| <= MAX_TOKEN_COUNT && Trouble(host, src, |before|, i).Some?
    ensures LexFrom(host, src, i, before) == LexError(Trouble(host, src, |before|, i).value)
  {}

  lemma NoTroubleYet(host: Host, src: Utf16, i: nat, before: seq<Token>) returns (token: Token)
    requires i < |src| && !IsSpace(src[i]) && |before| <= MAX_TOKEN_COUNT && Trouble(host, src, |before|, i).None?
    ensures |before| < MAX_TOKEN_COUNT && Placed(host, src, token) && token.span.start == i < token.span.end <= |src|
    ensures LexFrom(host, src, i, before) == LexFrom(host, src, token.span.end, before + [token])
  {
    token := ScanToken(host, src, i).value;
  }

  lemma {:induction false} LeadsToTrouble(host: Host, src: Utf16, i: nat, tokens: seq<Token>, k: nat, p: nat)
    requires i <= |src| && k <= |tokens| <= MAX_TOKEN_COUNT && Leads(host, src, i, tokens, k, p)
    requires p < |src| && Trouble(host, src, |tokens|, p).Some?
    ensures LexFrom(host, src, i, tokens[..k]) == LexError(Trouble(host, src, |tokens|, p).value)
    decreases |src| - i
  {
    if i < |src| && IsSpace(src[i]) {
      StepOverSpace(host, src, i, tokens, k, p);
      LeadsToTrouble(host, src, i + 1, tokens, k, p);
      LexOneSpace(host, src, i, tokens[..k]);
    } else if k < |tokens| {
      StandsNext(host, src, i, tokens, k, p);
      TakeOne(tokens, k);
      LexOneToken(host, src, tokens[k], tokens[..k]);
      LeadsToTrouble(host, src, tokens[k].span.end, tokens, k + 1, p);
    } else {
      assert tokens[..k] == tokens;
      TroubleNow(host, src, p, tokens);
    }
  }

  lemma StandsNext(host: Host, src: Utf16, i: nat, tokens: seq<Token>, k: nat, p: nat)
    requires i <= |src| && k < |tokens| && Leads(host, src, i, tokens, k, p) && !(i < |src| && IsSpace(src[i]))
    ensures Placed(host, src, tokens[k]) && tokens[k].span.start == i
    ensures tokens[k].span.end <= |src| && Leads(host, src, tokens[k].span.end, tokens, k + 1, p)
  {}

  lemma StepOverSpace(host: Host, src: Utf16, i: nat, tokens: seq<Token>, k: nat, p: nat)
    requires i < |src| && IsSpace(src[i]) && Leads(host, src, i, tokens, k, p)
    ensures Leads(host, src, i + 1, tokens, k, p)
  {
    var to := if k >= |tokens| then p else tokens[k].span.start;
    BlankStep(src, i, to);
  }

  /** The other way: every failure past `i` has tokens that lead to it. */
  lemma {:induction false} TroubleIsReached(host: Host, src: Utf16, i: nat, before: seq<Token>, d: Diagnostic)
    returns (tokens: seq<Token>, p: nat)
    requires i <= |src| && |before| <= MAX_TOKEN_COUNT && LexFrom(host, src, i, before) == LexError(d)
    ensures before <= tokens && |tokens| <= MAX_TOKEN_COUNT && p < |src|
    ensures Leads(host, src, i, tokens, |before|, p) && Trouble(host, src, |tokens|, p) == Some(d)
    decreases |src| - i
  {
    if IsSpace(src[i]) {
      LexOneSpace(host, src, i, before);
      tokens, p := TroubleIsReached(host, src, i + 1, before, d);
      StepBackToSpace(host, src, i, tokens, |before|, p);
    } else if Trouble(host, src, |before|, i).Some? {
      TroubleNow(host, src, i, before);
      tokens, p := before, i;
    } else {
      var token := NoTroubleYet(host, src, i, before);
      tokens, p := TroubleIsReached(host, src, token.span.end, before + [token], d);
      assert tokens[|before|] == token;
    }
  }

  lemma StepBackToSpace(host: Host, src: Utf16, i: nat, tokens: seq<Token>, k: nat, p: nat)
    requires i < |src| && IsSpace(src[i]) && Leads(host, src, i + 1, tokens, k, p)
    ensures Leads(host, src, i, tokens, k, p)
  {
    var to := if k >= |tokens| then p else tokens[k].span.start;
    BlankStep(src, i, to);
  }

  ghost predicate FailsAs(host: Host, src: Utf16, tokens: seq<Token>, p: nat, d: Diagnostic) {
    && |tokens| <= MAX_TOKEN_COUNT && p < |src| && Leads(host, src, 0, tokens, 0, p)
    && Trouble(host, src, |tokens|, p) == Some(d)
  }

  /** A source within its length fails with the trouble of the first token that has any, and with nothing else. */
  lemma LexingFailsFirst(host: Host, src: Utf16, d: Diagnostic)
    ensures Lexed(host, src) == LexError(d) <==>
      if |src| > MAX_SOURCE_LENGTH then d == Diagnostic(SourceTooLong, Span(MAX_SOURCE_LENGTH, MAX_SOURCE_LENGTH + 1))
      else exists tokens, p :: FailsAs(host, src, tokens, p, d)
  {
    if |src| <= MAX_SOURCE_LENGTH {
      if Lexed(host, src) == LexError(d) {
        var tokens, p := TroubleIsReached(host, src, 0, [], d);
        assert FailsAs(host, src, tokens, p, d);
      }
      if tokens, p :| FailsAs(host, src, tokens, p, d) {
        assert tokens[..0] == [];
        LeadsToTrouble(host, src, 0, tokens, 0, p);
      }
    }
  }

  // ---------------------------------------------------------------- strings

  lemma BadBody(host: Host, src: Utf16, start: nat, code: Code, from: nat, to: nat)
    requires start < |src| && src[start] == QUOTE && ScanString(src, start, start + 1, []) == Bad(code, from, to)
    ensures ScanToken(host, src, start) == Bad(code, from, to)
  {}

  predicate BreaksLine(c: CodeUnit) { c == '\n' as int || c == '\r' as int || c == 0x2028 || c == 0x2029 }

  /** Half of a surrogate pair without its other half, and no escape. */
  predicate LoneHalf(src: Utf16, i: nat)
    requires i < |src|
  {
    IsLow(src[i]) || (IsHigh(src[i]) && !(i + 1 < |src| && IsLow(src[i + 1])))
  }

  /** How a string ends badly at `i`, if it does. */
  function StringTrouble(src: Utf16, start: nat, i: nat): Option<Scan<Utf16>> {
    if i >= |src| then Some(Bad(InvalidString, start, |src|))
    else if BreaksLine(src[i]) then Some(Bad(InvalidString, start, i + 1))
    else if LoneHalf(src, i) then Some(Bad(InvalidString, i, i + 1))
    else if src[i] == '\\' as int && ScanCharacter(src, i).Bad? then Some(ScanCharacter(src, i))
    else None
  }

  lemma StringStops(src: Utf16, start: nat, i: nat, value: Utf16)
    requires i <= |src| && |value| <= MAX_STRING_LENGTH && StringTrouble(src, start, i).Some?
    ensures ScanString(src, start, i, value) == StringTrouble(src, start, i).value
  {}

  /**
   * After well-formed pieces a string fails at the end of the source and at a line break, from its quote on, and at half
   * a pair or a bad escape with just that.
   */
  lemma StringFails(host: Host, src: Utf16, start: nat, ps: seq<Piece>, i: nat)
    requires ArePieces(ps) && |AllUnits(ps)| <= MAX_STRING_LENGTH
    requires start < |src| && src[start] == '"' as int && StandAt(src, start + 1, ps)
    requires i == EndOf(start + 1, ps) && StringTrouble(src, start, i).Some?
    ensures
      var bad := StringTrouble(src, start, i).value;
      ScanToken(host, src, start) == Bad(bad.code, bad.start, bad.end)
  {
    BodyPasses(src, start, start + 1, ps);
    StringStops(src, start, i, AllUnits(ps));
    var bad := StringTrouble(src, start, i).value;
    BadBody(host, src, start, bad.code, bad.start, bad.end);
  }

  lemma PieceTooMuch(src: Utf16, start: nat, i: nat, value: Utf16, p: Piece)
    requires IsPiece(p) && |value| <= MAX_STRING_LENGTH < |value| + |UnitsOf(p)| && Occurs(src, i, TextOf(p))
    ensures ScanString(src, start, i, value) == Bad(StringLiteralTooLong, start, i + |TextOf(p)|)
  {
    PieceScans(src, i, p);
  }

  /** The piece that takes a string past its limit ends the failing span. */
  lemma StringTooLong(host: Host, src: Utf16, start: nat, ps: seq<Piece>, i: nat, p: Piece)
    requires ArePieces(ps) && IsPiece(p) && |AllUnits(ps)| <= MAX_STRING_LENGTH < |AllUnits(ps)| + |UnitsOf(p)|
    requires start < |src| && src[start] == '"' as int && StandAt(src, start + 1, ps)
    requires i == EndOf(start + 1, ps) && Occurs(src, i, TextOf(p))
    ensures ScanToken(host, src, start) == Bad(StringLiteralTooLong, start, i + |TextOf(p)|)
  {
    BodyPasses(src, start, start + 1, ps);
    PieceTooMuch(src, start, i, AllUnits(ps), p);
    BadBody(host, src, start, StringLiteralTooLong, start, i + |TextOf(p)|);
  }

  // ---------------------------------------------------------------- fields

  lemma {:induction false} NamePasses(src: Utf16, start: nat, i: nat, value: Utf16, name: Utf16)
    requires |value| + |name| <= MAX_FIELD_NAME_LENGTH && Occurs(src, i, Double(name))
    ensures ScanField(src, start, i, value) == ScanField(src, start, i + |Double(name)|, value + name)
    decreases |name|
  {
    if name == [] {
      assert value + [] == value;
    } else {
      var head := if name[0] == CLOSE_BRACKET then [CLOSE_BRACKET, CLOSE_BRACKET] else [name[0]];
      OccursConcat(src, i, head, Double(name[1..]));
      assert src[i + 0] == head[0];
      if |head| == 2 { assert src[i + 1] == head[1]; }
      NamePasses(src, start, i + |head|, value + [name[0]], name[1..]);
      assert value + [name[0]] + name[1..] == value + name;
    }
  }

  /** A field fails without a closing bracket, without a name, and with the unit that takes its name past the limit. */
  lemma FieldFails(host: Host, src: Utf16, start: nat, name: Utf16)
    requires |name| <= MAX_FIELD_NAME_LENGTH && start < |src| && src[start] == '[' as int
    requires Occurs(src, start + 1, Double(name))
    ensures
      var i := start + 1 + |Double(name)|;
      && (i == |src| ==> ScanToken(host, src, start) == Bad(UnexpectedToken, start, |src|))
      && (name == [] && i < |src| && src[i] == ']' as int && !(i + 1 < |src| && src[i + 1] == ']' as int) ==>
            ScanToken(host, src, start) == Bad(UnexpectedToken, start, start + 2))
      && (|name| == MAX_FIELD_NAME_LENGTH && i < |src| && src[i] != ']' as int ==>
            ScanToken(host, src, start) == Bad(FieldNameTooLong, start, i + 1))
      && (|name| == MAX_FIELD_NAME_LENGTH && i + 1 < |src| && src[i] == ']' as int && src[i + 1] == ']' as int ==>
            ScanToken(host, src, start) == Bad(FieldNameTooLong, start, i + 2))
  {
    NamePasses(src, start, start + 1, [], name);
    assert [] + name == name;
  }

  // ---------------------------------------------------------------- numbers

  lemma {:induction false} RunGoesOn(src: Utf16, i: nat, j: nat)
    requires i <= j <= |src| && forall k | i <= k < j :: IsWordUnit(src[k]) || src[k] == '.' as int
    requires j < |src| ==> !IsWordUnit(src[j]) && src[j] != '.' as int
    ensures MalformedEnd(src, i) == j
    decreases j - i
  {
    if i < j { RunGoesOn(src, i + 1, j); }
  }

  /** A decimal that runs on into letters, digits, underscores or points is malformed up to their end. */
  lemma NumberFails(host: Host, src: Utf16, start: nat, j: nat)
    requires start < |src| && src[start] != '"' as int && src[start] != '[' as int
    requires start < DecimalEnd(src, start) < j <= |src|
    requires forall k | DecimalEnd(src, start) <= k < j :: IsWordUnit(src[k]) || src[k] == '.' as int
    requires j < |src| ==> !IsWordUnit(src[j]) && src[j] != '.' as int
    ensures ScanToken(host, src, start) == Bad(InvalidNumber, start, j)
  {
    RunGoesOn(src, DecimalEnd(src, start), j);
  }

  /** Any other decimal is one number token if the runtime reads its text as a finite number, and invalid if not. */
  lemma NumberIsRead(host: Host, src: Utf16, start: nat, end: nat)
    requires start < |src| && src[start] != '"' as int && src[start] != '[' as int
    requires start < end == DecimalEnd(src, start) && (end < |src| ==> !IsWordUnit(src[end]) && src[end] != '.' as int)
    ensures
      ScanToken(host, src, start)
      == match host.number(src[start..end])
         case Some(x) => Found(Token(NumberKind, Number(x), Span(start, end)), end)
         case None => Bad(InvalidNumber, start, end)
  {}
}
