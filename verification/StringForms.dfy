/** String literals in all their spellings: raw characters and every escape, mixed at will. */
module StringForms {
  import opened Basics
  import opened Text
  import opened Syntax
  import opened Lexer
  import opened Words
  import opened Spelling

  /** One way to write one or two code units of a string. */
  datatype Piece =
    | Raw(unit: CodeUnit)
    | RawPair(high: CodeUnit, low: CodeUnit)
    | Lettered(letter: CodeUnit)
    | Numeric(digits: Utf16)
    | NumericPair(first: Utf16, second: Utf16)

  predicate IsDigitInAnyCase(c: CodeUnit) {
    '0' as int <= c <= '9' as int || 'A' as int <= c <= 'F' as int || 'a' as int <= c <= 'f' as int
  }

  predicate IsQuad(s: Utf16) { |s| == 4 && forall k | 0 <= k < 4 :: IsDigitInAnyCase(s[k]) }

  function ValueOf(c: CodeUnit): (n: nat)
    requires IsDigitInAnyCase(c)
    ensures n < 16
  {
    if c <= '9' as int then c - '0' as int else if c <= 'F' as int then c - 'A' as int + 10 else c - 'a' as int + 10
  }

  function QuadValue(s: Utf16): (n: CodeUnit)
    requires IsQuad(s)
  {
    Numbered(ValueOf(s[0]), ValueOf(s[1]), ValueOf(s[2]), ValueOf(s[3]))
  }

  predicate IsHigh(n: int) { 0xD800 <= n <= 0xDBFF }

  predicate IsLow(n: int) { 0xDC00 <= n <= 0xDFFF }

  /** Quotes, backslashes, line breaks and lone halves of surrogate pairs cannot be written raw. */
  predicate IsPiece(p: Piece) {
    match p
    case Raw(c) =>
      && c != '"' as int && c != '\\' as int && c != '\n' as int && c != '\r' as int && c != 0x2028 && c != 0x2029
      && !IsHigh(c) && !IsLow(c)
    case RawPair(high, low) => IsHigh(high) && IsLow(low)
    case Lettered(letter) => Escaped(letter).Some?
    case Numeric(digits) => IsQuad(digits) && !IsHigh(QuadValue(digits)) && !IsLow(QuadValue(digits))
    case NumericPair(first, second) =>
      IsQuad(first) && IsHigh(QuadValue(first)) && IsQuad(second) && IsLow(QuadValue(second))
  }

  function TextOf(p: Piece): Utf16 {
    match p
    case Raw(c) => [c]
    case RawPair(high, low) => [high, low]
    case Lettered(letter) => ['\\' as int, letter]
    case Numeric(digits) => ['\\' as int, 'u' as int] + digits
    case NumericPair(first, second) => ['\\' as int, 'u' as int] + first + ['\\' as int, 'u' as int] + second
  }

  function UnitsOf(p: Piece): Utf16
    requires IsPiece(p)
  {
    match p
    case Raw(c) => [c]
    case RawPair(high, low) => [high, low]
    case Lettered(letter) => [Escaped(letter).value]
    case Numeric(digits) => [QuadValue(digits)]
    case NumericPair(first, second) => [QuadValue(first), QuadValue(second)]
  }

  lemma QuadStands(src: Utf16, i: nat, s: Utf16)
    requires IsQuad(s) && Occurs(src, i, s)
    ensures FourDigits(src, i, ValueOf(s[0]), ValueOf(s[1]), ValueOf(s[2]), ValueOf(s[3]))
  {
    assert src[i] == src[i + 0] == s[0] && src[i + 1] == s[1] && src[i + 2] == s[2] && src[i + 3] == s[3];
  }

  lemma NumericStands(src: Utf16, i: nat, digits: Utf16)
    requires IsQuad(digits) && Occurs(src, i, ['\\' as int, 'u' as int] + digits)
    ensures StandsEscape(src, i)
    ensures FourDigits(src, i + 2, ValueOf(digits[0]), ValueOf(digits[1]), ValueOf(digits[2]), ValueOf(digits[3]))
  {
    var start: Utf16 := ['\\' as int, 'u' as int];
    OccursConcat(src, i, start, digits);
    assert src[i + 0] == start[0] && src[i + 1] == start[1];
    QuadStands(src, i + 2, digits);
  }

  lemma NumericScans(src: Utf16, i: nat, p: Piece)
    requires p.Numeric? && IsPiece(p) && Occurs(src, i, TextOf(p))
    ensures src[i] == '\\' as int && ScanCharacter(src, i) == Found(UnitsOf(p), i + 6)
  {
    var s := p.digits;
    NumericStands(src, i, s);
    NumberedEscapes(src, i, ValueOf(s[0]), ValueOf(s[1]), ValueOf(s[2]), ValueOf(s[3]));
  }

  lemma NumericPairScans(src: Utf16, i: nat, p: Piece)
    requires p.NumericPair? && IsPiece(p) && Occurs(src, i, TextOf(p))
    ensures src[i] == '\\' as int && ScanCharacter(src, i) == Found(UnitsOf(p), i + 12)
  {
    var s, t := p.first, p.second;
    var start: Utf16 := ['\\' as int, 'u' as int];
    assert start + s + start + t == (start + s) + (start + t);
    OccursConcat(src, i, start + s, start + t);
    NumericStands(src, i, s);
    NumericStands(src, i + 6, t);
    PairedEscapes(src, i, QuadValue(s), QuadValue(t), ValueOf(s[0]), ValueOf(s[1]), ValueOf(s[2]), ValueOf(s[3]),
                  ValueOf(t[0]), ValueOf(t[1]), ValueOf(t[2]), ValueOf(t[3]));
  }

  lemma LetteredScans(src: Utf16, i: nat, p: Piece)
    requires p.Lettered? && IsPiece(p) && Occurs(src, i, TextOf(p))
    ensures src[i] == '\\' as int && ScanCharacter(src, i) == Found(UnitsOf(p), i + 2)
  {
    var s := TextOf(p);
    assert src[i + 0] == s[0] && src[i + 1] == s[1];
    LetterEscapes(src, i);
  }

  lemma RawScans(src: Utf16, i: nat, c: CodeUnit)
    requires IsPiece(Raw(c)) && Occurs(src, i, [c])
    ensures src[i] == c && ScanCharacter(src, i) == Found([c], i + 1)
  {
    assert src[i + 0] == [c][0];
  }

  lemma PieceScans(src: Utf16, i: nat, p: Piece)
    requires IsPiece(p) && Occurs(src, i, TextOf(p))
    ensures i < |src| && src[i] != QUOTE && !IsLineBreak(src[i])
    ensures ScanCharacter(src, i) == Found(UnitsOf(p), i + |TextOf(p)|)
  {
    match p
    case Raw(c) => RawScans(src, i, c);
    case RawPair(high, low) => PairScans(src, i, [high, low]);
    case Lettered(_) => LetteredScans(src, i, p);
    case Numeric(_) => NumericScans(src, i, p);
    case NumericPair(_, _) => NumericPairScans(src, i, p);
  }

  ghost predicate ArePieces(ps: seq<Piece>) { forall k | 0 <= k < |ps| :: IsPiece(ps[k]) }

  /** The pieces stand in `src` one after the other from position `i` on. */
  ghost predicate StandAt(src: Utf16, i: nat, ps: seq<Piece>)
    decreases |ps|
  {
    if ps == [] then i <= |src| else Occurs(src, i, TextOf(ps[0])) && StandAt(src, i + |TextOf(ps[0])|, ps[1..])
  }

  /** The position after them. */
  function EndOf(i: nat, ps: seq<Piece>): nat
    decreases |ps|
  {
    if ps == [] then i else EndOf(i + |TextOf(ps[0])|, ps[1..])
  }

  function AllUnits(ps: seq<Piece>): Utf16
    requires ArePieces(ps)
  {
    if ps == [] then [] else UnitsOf(ps[0]) + AllUnits(ps[1..])
  }

  lemma PieceStep(src: Utf16, start: nat, i: nat, value: Utf16, p: Piece)
    requires IsPiece(p) && |value| + |UnitsOf(p)| <= MAX_STRING_LENGTH && Occurs(src, i, TextOf(p))
    ensures ScanString(src, start, i, value) == ScanString(src, start, i + |TextOf(p)|, value + UnitsOf(p))
  {
    PieceScans(src, i, p);
    CharacterStep(src, start, i, value, UnitsOf(p), i + |TextOf(p)|);
  }

  lemma AllUnitsSplit(value: Utf16, ps: seq<Piece>)
    requires ps != [] && ArePieces(ps)
    ensures ArePieces(ps[1..]) && value + UnitsOf(ps[0]) + AllUnits(ps[1..]) == value + AllUnits(ps)
    ensures |AllUnits(ps)| == |UnitsOf(ps[0])| + |AllUnits(ps[1..])|
  {}

  lemma {:induction false} PiecesPass(src: Utf16, start: nat, i: nat, value: Utf16, ps: seq<Piece>)
    requires ArePieces(ps) && |value| + |AllUnits(ps)| <= MAX_STRING_LENGTH && StandAt(src, i, ps)
    ensures EndOf(i, ps) <= |src|
    ensures ScanString(src, start, i, value) == ScanString(src, start, EndOf(i, ps), value + AllUnits(ps))
    decreases |ps|
  {
    if ps == [] {
      assert value + [] == value;
    } else {
      AllUnitsSplit(value, ps);
      PieceStep(src, start, i, value, ps[0]);
      PiecesPass(src, start, i + |TextOf(ps[0])|, value + UnitsOf(ps[0]), ps[1..]);
    }
  }

  lemma BodyPasses(src: Utf16, start: nat, i: nat, ps: seq<Piece>)
    requires ArePieces(ps) && |AllUnits(ps)| <= MAX_STRING_LENGTH && StandAt(src, i, ps)
    ensures EndOf(i, ps) <= |src|
    ensures ScanString(src, start, i, []) == ScanString(src, start, EndOf(i, ps), AllUnits(ps))
  {
    PiecesPass(src, start, i, [], ps);
    assert [] + AllUnits(ps) == AllUnits(ps);
  }

  lemma StringCloses(src: Utf16, start: nat, i: nat, value: Utf16)
    requires i < |src| && src[i] == QUOTE && |value| <= MAX_STRING_LENGTH
    ensures ScanString(src, start, i, value) == Found(value, i + 1)
  {}

  /** Such pieces between quotes are one string token with the units they stand for. */
  lemma AnyStringScans(host: Host, src: Utf16, start: nat, ps: seq<Piece>, end: nat, token: Token)
    requires ArePieces(ps) && |AllUnits(ps)| <= MAX_STRING_LENGTH
    requires start < |src| && src[start] == '"' as int && StandAt(src, start + 1, ps)
    requires end == EndOf(start + 1, ps) < |src| && src[end] == '"' as int
    requires token == Token(StringKind, Str(AllUnits(ps)), Span(start, end + 1))
    ensures ScanToken(host, src, start) == Found(token, end + 1)
  {
    BodyPasses(src, start, start + 1, ps);
    StringCloses(src, start, end, AllUnits(ps));
    QuotedScans(host, src, start, token.value.s, end + 1);
  }
}
