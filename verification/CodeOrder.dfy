/** Diagnostics at one place are listed in the alphabetical order of their codes. */
module CodeOrder {
  import opened Syntax
  import opened Analyzer

  function NameOf(code: Code): string {
    match code
    case SourceTooLong => "SOURCE_TOO_LONG"
    case TokenLimitExceeded => "TOKEN_LIMIT_EXCEEDED"
    case StringLiteralTooLong => "STRING_LITERAL_TOO_LONG"
    case FieldNameTooLong => "FIELD_NAME_TOO_LONG"
    case NestingLimitExceeded => "NESTING_LIMIT_EXCEEDED"
    case InvalidCharacter => "INVALID_CHARACTER"
    case InvalidString => "INVALID_STRING"
    case InvalidNumber => "INVALID_NUMBER"
    case UnexpectedToken => "UNEXPECTED_TOKEN"
    case UnknownField => "UNKNOWN_FIELD"
    case TypeMismatch => "TYPE_MISMATCH"
    case InvalidArgumentCount => "INVALID_ARGUMENT_COUNT"
    case ExpectedResultTypeMismatch => "EXPECTED_RESULT_TYPE_MISMATCH"
    case StringValueLimitExceeded => "STRING_VALUE_LIMIT_EXCEEDED"
    case NullNotAllowed => "NULL_NOT_ALLOWED"
    case EvaluationStepLimitExceeded => "EVALUATION_STEP_LIMIT_EXCEEDED"
  }

  /** `a` comes first in a dictionary, the first different character deciding at `k`. */
  predicate DiffersAt(a: string, b: string, k: nat) {
    k < |a| && k < |b| && a[k] < b[k] && forall j | 0 <= j < k :: a[j] == b[j]
  }

  ghost predicate Alphabetical(a: string, b: string) { exists k: nat :: DiffersAt(a, b, k) }

  lemma AlphabeticalChains(a: string, b: string, c: string)
    requires Alphabetical(a, b) && Alphabetical(b, c)
    ensures Alphabetical(a, c)
  {
    var j: nat :| DiffersAt(a, b, j);
    var k: nat :| DiffersAt(b, c, k);
    assert DiffersAt(a, c, if j < k then j else k);
  }

  lemma NotBothWays(a: string, b: string)
    requires Alphabetical(a, b)
    ensures !Alphabetical(b, a)
  {
    var j: nat :| DiffersAt(a, b, j);
    forall k: nat ensures !DiffersAt(b, a, k) {}
  }

  function Ranked(rank: nat): Code
    requires rank < 16
  {
    [EvaluationStepLimitExceeded, ExpectedResultTypeMismatch, FieldNameTooLong, InvalidArgumentCount,
     InvalidCharacter, InvalidNumber, InvalidString, NestingLimitExceeded, NullNotAllowed, SourceTooLong,
     StringLiteralTooLong, StringValueLimitExceeded, TokenLimitExceeded, TypeMismatch, UnexpectedToken, UnknownField][rank]
  }

  lemma RankedBack(code: Code)
    ensures CodeRank(code) < 16 && Ranked(CodeRank(code)) == code
  {}

  /** Where the names of neighbours differ. */
  function Place(rank: nat): nat
    requires rank < 15
  {
    [1, 0, 0, 8, 8, 8, 0, 1, 0, 1, 7, 0, 1, 0, 2][rank]
  }

  lemma FirstNeighbours(rank: nat)
    requires rank < 2
    ensures DiffersAt(NameOf(Ranked(rank)), NameOf(Ranked(rank + 1)), Place(rank))
  {}

  lemma EarlyNeighbours(rank: nat)
    requires 2 <= rank < 4
    ensures DiffersAt(NameOf(Ranked(rank)), NameOf(Ranked(rank + 1)), Place(rank))
  {}

  lemma SecondNeighbours(rank: nat)
    requires 4 <= rank < 8
    ensures DiffersAt(NameOf(Ranked(rank)), NameOf(Ranked(rank + 1)), Place(rank))
  {}

  lemma ThirdNeighbours(rank: nat)
    requires 8 <= rank < 12
    ensures DiffersAt(NameOf(Ranked(rank)), NameOf(Ranked(rank + 1)), Place(rank))
  {}

  lemma LastNeighbours(rank: nat)
    requires 12 <= rank < 15
    ensures DiffersAt(NameOf(Ranked(rank)), NameOf(Ranked(rank + 1)), Place(rank))
  {}

  lemma NeighboursInOrder(rank: nat)
    requires rank < 15
    ensures Alphabetical(NameOf(Ranked(rank)), NameOf(Ranked(rank + 1)))
  {
    if rank < 2 {
      FirstNeighbours(rank);
    } else if rank < 4 {
      EarlyNeighbours(rank);
    } else if rank < 8 {
      SecondNeighbours(rank);
    } else if rank < 12 {
      ThirdNeighbours(rank);
    } else {
      LastNeighbours(rank);
    }
  }

  lemma {:induction false} RanksInOrder(low: nat, high: nat)
    requires low < high < 16
    ensures Alphabetical(NameOf(Ranked(low)), NameOf(Ranked(high)))
    decreases high
  {
    NeighboursInOrder(high - 1);
    if low < high - 1 {
      RanksInOrder(low, high - 1);
      AlphabeticalChains(NameOf(Ranked(low)), NameOf(Ranked(high - 1)), NameOf(Ranked(high)));
    }
  }

  lemma RankIsAlphabetical(a: Code, b: Code)
    ensures CodeRank(a) < CodeRank(b) <==> Alphabetical(NameOf(a), NameOf(b))
  {
    RankedBack(a);
    RankedBack(b);
    if CodeRank(a) < CodeRank(b) {
      RanksInOrder(CodeRank(a), CodeRank(b));
    } else if CodeRank(b) < CodeRank(a) {
      RanksInOrder(CodeRank(b), CodeRank(a));
      NotBothWays(NameOf(b), NameOf(a));
    }
  }

  /** Earlier start first, then earlier end, then the code whose name comes first. */
  lemma OrderOfDiagnostics(a: Diagnostic, b: Diagnostic)
    ensures Before(a, b) <==>
      || a.span.start < b.span.start
      || (a.span.start == b.span.start && a.span.end < b.span.end)
      || (a.span == b.span && Alphabetical(NameOf(a.code), NameOf(b.code)))
  {
    RankIsAlphabetical(a.code, b.code);
  }
}
