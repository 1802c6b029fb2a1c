/** The recursive-descent parser: a specification by functions and the cursor-moving code. */
module Parser {
  import opened Basics
  import opened Text
  import opened Syntax

  /** A parsed node with the position after it, or the position of the token at which parsing gave up. */
  datatype Parsed<+T> = Ok(node: T, next: nat) | Fail(code: Code, at: nat)

  datatype ParseResult = Tree(expression: Expr) | ParseError(diagnostic: Diagnostic)

  predicate IsLiteralKind(kind: Kind) {
    kind.NumberKind? || kind.StringKind? || kind.TrueKind? || kind.FalseKind? || kind.NullKind?
  }

  function ComparisonOp(kind: Kind): Option<BinaryOp> {
    match kind
    case EqualKind => Some(Equal)
    case NotEqualKind => Some(NotEqual)
    case LessKind => Some(Less)
    case LessEqualKind => Some(LessEqual)
    case GreaterKind => Some(Greater)
    case GreaterEqualKind => Some(GreaterEqual)
    case _ => None
  }

  function NameOf(token: Token): Utf16 { if token.value.Str? then token.value.s else [] }

  function LiteralFrom(token: Token): LiteralNode { LiteralNode(token.value, token.span) }

  function LiteralExpr(token: Token): Expr { Literal(token.value, token.span) }

  function Join(op: BinaryOp, left: Expr, right: Expr): Expr {
    Binary(op, left, right, Span(left.span.start, right.span.end))
  }

  // ------------------------------------------------------------- specification

  predicate IsParseCode(code: Code) { code.UnexpectedToken? || code.NestingLimitExceeded? }

  function PrimaryAt(tokens: seq<Token>, i: nat, depth: int): (r: Parsed<Expr>)
    requires Ended(tokens) && i < |tokens|
    ensures r.Ok? ==> i < r.next < |tokens|
    ensures r.Fail? ==> i <= r.at < |tokens| && IsParseCode(r.code)
    decreases |tokens| - i, 0
  {
    var token := tokens[i];
    if IsLiteralKind(token.kind) then Ok(LiteralExpr(token), i + 1)
    else if token.kind.FieldKind? then Ok(Field(NameOf(token), token.span), i + 1)
    else if token.kind.IdentifierKind? then
      if !tokens[i + 1].kind.LeftParen? then Ok(Field(NameOf(token), token.span), i + 1)
      else match GetBuiltin(NameOf(token))
        case None => Fail(UnexpectedToken, i + 1)
        case Some(builtin) => CallAt(tokens, i, depth, builtin)
    else if token.kind.LeftParen? then
      if depth >= MAX_NESTING_DEPTH then Fail(NestingLimitExceeded, i)
      else
        match OrAt(tokens, i + 1, depth + 1)
        case Fail(code, at) => Fail(code, at)
        case Ok(inner, j) => if !tokens[j].kind.RightParen? then Fail(UnexpectedToken, j) else Ok(inner, j + 1)
    else Fail(UnexpectedToken, i)
  }

  /** The call whose name is at `i` and whose opening parenthesis follows it. */
  function CallAt(tokens: seq<Token>, i: nat, depth: int, builtin: Builtin): (r: Parsed<Expr>)
    requires Ended(tokens) && i + 2 < |tokens|
    ensures r.Ok? ==> i < r.next < |tokens|
    ensures r.Fail? ==> i <= r.at < |tokens| && IsParseCode(r.code)
    decreases |tokens| - i - 1, 7
  {
    if depth >= MAX_NESTING_DEPTH then Fail(NestingLimitExceeded, i + 1)
    else
      match ListAt(tokens, i + 2, depth + 1)
      case Fail(code, at) => Fail(code, at)
      case Ok(args, j) =>
        if !tokens[j].kind.RightParen? then Fail(UnexpectedToken, j)
        else Ok(Call(builtin, args, Span(tokens[i].span.start, tokens[j].span.end)), j + 1)
  }

  /** The argument list at `i`, up to the closing parenthesis. */
  function ListAt(tokens: seq<Token>, i: nat, depth: int): (r: Parsed<seq<Expr>>)
    requires Ended(tokens) && i < |tokens|
    ensures r.Ok? ==> i <= r.next < |tokens|
    ensures r.Fail? ==> i <= r.at < |tokens| && IsParseCode(r.code)
    decreases |tokens| - i, 7
  {
    if tokens[i].kind.RightParen? then Ok([], i) else ArgumentsAt(tokens, i, depth, [])
  }

  /** The rest of an argument list, `args` being the arguments before position `i`. */
  function ArgumentsAt(tokens: seq<Token>, i: nat, depth: int, args: seq<Expr>): (r: Parsed<seq<Expr>>)
    requires Ended(tokens) && i < |tokens|
    ensures r.Ok? ==> i < r.next < |tokens|
    ensures r.Fail? ==> i <= r.at < |tokens| && IsParseCode(r.code)
    decreases |tokens| - i, 6
  {
    match OrAt(tokens, i, depth)
    case Fail(code, at) => Fail(code, at)
    case Ok(argument, j) =>
      if !tokens[j].kind.Comma? then Ok(args + [argument], j)
      else if tokens[j + 1].kind.RightParen? then Fail(UnexpectedToken, j + 1)
      else ArgumentsAt(tokens, j + 1, depth, args + [argument])
  }

  function NotAt(tokens: seq<Token>, i: nat, depth: int): (r: Parsed<Expr>)
    requires Ended(tokens) && i < |tokens|
    ensures r.Ok? ==> i < r.next < |tokens|
    ensures r.Fail? ==> i <= r.at < |tokens| && IsParseCode(r.code)
    decreases |tokens| - i, 1
  {
    var token := tokens[i];
    if !token.kind.NotKind? then PrimaryAt(tokens, i, depth)
    else if depth >= MAX_NESTING_DEPTH then Fail(NestingLimitExceeded, i)
    else
      match NotAt(tokens, i + 1, depth + 1)
      case Fail(code, at) => Fail(code, at)
      case Ok(operand, j) => Ok(Not(operand, Span(token.span.start, operand.span.end)), j)
  }

  /** The rest of an IN list, `members` being the literals before position `i`. */
  function MembersAt(tokens: seq<Token>, i: nat, members: seq<LiteralNode>): (r: Parsed<seq<LiteralNode>>)
    requires Ended(tokens) && i < |tokens|
    ensures r.Ok? ==> i < r.next < |tokens|
    ensures r.Fail? ==> i <= r.at < |tokens| && IsParseCode(r.code)
    decreases |tokens| - i
  {
    if !IsLiteralKind(tokens[i].kind) then Fail(UnexpectedToken, i)
    else
      var extended := members + [LiteralFrom(tokens[i])];
      if !tokens[i + 1].kind.Comma? then Ok(extended, i + 1)
      else if tokens[i + 2].kind.RightParen? then Fail(UnexpectedToken, i + 2)
      else MembersAt(tokens, i + 2, extended)
  }

  function ComparisonAt(tokens: seq<Token>, i: nat, depth: int): (r: Parsed<Expr>)
    requires Ended(tokens) && i < |tokens|
    ensures r.Ok? ==> i < r.next < |tokens|
    ensures r.Fail? ==> i <= r.at < |tokens| && IsParseCode(r.code)
    decreases |tokens| - i, 2
  {
    match NotAt(tokens, i, depth)
    case Fail(code, at) => Fail(code, at)
    case Ok(left, j) => ComparisonRest(tokens, left, j, depth)
  }

  /** What follows the operand `left`, which ends before `j`: a comparison, an IN list or nothing of either. */
  function ComparisonRest(tokens: seq<Token>, left: Expr, j: nat, depth: int): (r: Parsed<Expr>)
    requires Ended(tokens) && j < |tokens|
    ensures r.Ok? ==> j <= r.next < |tokens|
    ensures r.Fail? ==> j <= r.at < |tokens| && IsParseCode(r.code)
    decreases |tokens| - j, 2
  {
    var op := ComparisonOp(tokens[j].kind);
    if op.Some? then
      match NotAt(tokens, j + 1, depth)
      case Fail(code, at) => Fail(code, at)
      case Ok(right, k) => Ok(Join(op.value, left, right), k)
    else if tokens[j].kind.InKind? then InAt(tokens, left, j)
    else Ok(left, j)
  }

  /** The list after the IN at `j`, whose candidate is `left`. */
  function InAt(tokens: seq<Token>, left: Expr, j: nat): (r: Parsed<Expr>)
    requires Ended(tokens) && j < |tokens| && tokens[j].kind.InKind?
    ensures r.Ok? ==> j < r.next < |tokens|
    ensures r.Fail? ==> j <= r.at < |tokens| && IsParseCode(r.code)
  {
    if !tokens[j + 1].kind.LeftParen? then Fail(UnexpectedToken, j + 1)
    else if tokens[j + 2].kind.RightParen? then Fail(UnexpectedToken, j + 2)
    else
      match MembersAt(tokens, j + 2, [])
      case Fail(code, at) => Fail(code, at)
      case Ok(members, k) =>
        if !tokens[k].kind.RightParen? then Fail(UnexpectedToken, k)
        else Ok(Membership(left, members, Span(left.span.start, tokens[k].span.end)), k + 1)
  }

  /** Extends `left`, which ends before `i`, with every AND operand that follows. */
  function AndLoop(tokens: seq<Token>, left: Expr, i: nat, depth: int): (r: Parsed<Expr>)
    requires Ended(tokens) && i < |tokens|
    ensures r.Ok? ==> i <= r.next < |tokens|
    ensures r.Fail? ==> i <= r.at < |tokens| && IsParseCode(r.code)
    decreases |tokens| - i, 3
  {
    if !tokens[i].kind.AndKind? then Ok(left, i)
    else
      match ComparisonAt(tokens, i + 1, depth)
      case Fail(code, at) => Fail(code, at)
      case Ok(right, j) => AndLoop(tokens, Join(And, left, right), j, depth)
  }

  function AndAt(tokens: seq<Token>, i: nat, depth: int): (r: Parsed<Expr>)
    requires Ended(tokens) && i < |tokens|
    ensures r.Ok? ==> i < r.next < |tokens|
    ensures r.Fail? ==> i <= r.at < |tokens| && IsParseCode(r.code)
    decreases |tokens| - i, 4
  {
    match ComparisonAt(tokens, i, depth)
    case Fail(code, at) => Fail(code, at)
    case Ok(left, j) => AndLoop(tokens, left, j, depth)
  }

  function OrLoop(tokens: seq<Token>, left: Expr, i: nat, depth: int): (r: Parsed<Expr>)
    requires Ended(tokens) && i < |tokens|
    ensures r.Ok? ==> i <= r.next < |tokens|
    ensures r.Fail? ==> i <= r.at < |tokens| && IsParseCode(r.code)
    decreases |tokens| - i, 4
  {
    if !tokens[i].kind.OrKind? then Ok(left, i)
    else
      match AndAt(tokens, i + 1, depth)
      case Fail(code, at) => Fail(code, at)
      case Ok(right, j) => OrLoop(tokens, Join(Or, left, right), j, depth)
  }

  function OrAt(tokens: seq<Token>, i: nat, depth: int): (r: Parsed<Expr>)
    requires Ended(tokens) && i < |tokens|
    ensures r.Ok? ==> i < r.next < |tokens|
    ensures r.Fail? ==> i <= r.at < |tokens| && IsParseCode(r.code)
    decreases |tokens| - i, 5
  {
    match AndAt(tokens, i, depth)
    case Fail(code, at) => Fail(code, at)
    case Ok(left, j) => OrLoop(tokens, left, j, depth)
  }

  /** Parsing the whole stream: an expression and then its end of file. */
  function WholeAt(tokens: seq<Token>): (r: Parsed<Expr>)
    requires Ended(tokens)
    ensures r.Fail? ==> r.at < |tokens| && IsParseCode(r.code)
  {
    match OrAt(tokens, 0, 0)
    case Fail(code, at) => Fail(code, at)
    case Ok(expression, j) => if tokens[j].kind.Eof? then Ok(expression, j) else Fail(UnexpectedToken, j)
  }

  function TreeOf(source: Utf16, tokens: seq<Token>): ParseResult
    requires Ended(tokens)
  {
    match WholeAt(tokens)
    case Ok(expression, _) => Tree(expression)
    case Fail(code, at) => ParseError(SourceDiagnostic(source, code, tokens[at].span.start, tokens[at].span.end))
  }

  // ---------------------------------------------------------------------- code

  class TokenParser {
    const tokens: seq<Token>
    var cursor: nat
    var nesting: nat

    ghost predicate Valid()
      reads this
    {
      Ended(tokens) && cursor < |tokens|
    }

    constructor (tokens: seq<Token>)
      requires Ended(tokens)
      ensures Valid() && this.tokens == tokens && cursor == 0 && nesting == 0
    {
      this.tokens, cursor, nesting := tokens, 0, 0;
    }

    function Current(): Token
      requires Valid()
      reads this
    {
      tokens[cursor]
    }

    /** Moves past the current token; the end of file is never passed. */
    method Advance() returns (token: Token)
      requires Valid()
      modifies this`cursor
      ensures Valid() && token == tokens[old(cursor)]
      ensures cursor == if old(cursor) < |tokens| - 1 then old(cursor) + 1 else old(cursor)
    {
      token := tokens[cursor];
      if cursor < |tokens| - 1 {
        cursor := cursor + 1;
      }
    }

    method ParsePrimary() returns (r: Parsed<Expr>)
      requires Valid()
      modifies this
      ensures Valid() && nesting == old(nesting)
      ensures r == PrimaryAt(tokens, old(cursor), nesting)
      ensures r.Ok? ==> cursor == r.next
      decreases |tokens| - cursor, 0
    {
      var token := Current();
      if IsLiteralKind(token.kind) {
        var _ := Advance();
        return Ok(LiteralExpr(token), cursor);
      }
      if token.kind.FieldKind? {
        var _ := Advance();
        return Ok(Field(NameOf(token), token.span), cursor);
      }
      if token.kind.IdentifierKind? {
        var _ := Advance();
        var opening := Current();
        if !opening.kind.LeftParen? {
          return Ok(Field(NameOf(token), token.span), cursor);
        }
        var builtin := GetBuiltin(NameOf(token));
        if builtin.None? {
          return Fail(UnexpectedToken, cursor);
        }
        r := ParseCall(token, builtin.value);
        return;
      }
      if token.kind.LeftParen? {
        if nesting >= MAX_NESTING_DEPTH {
          return Fail(NestingLimitExceeded, cursor);
        }
        nesting := nesting + 1;
        var _ := Advance();
        var inner := ParseOr();
        nesting := nesting - 1;
        if inner.Fail? {
          return inner;
        }
        if !Current().kind.RightParen? {
          return Fail(UnexpectedToken, cursor);
        }
        var _ := Advance();
        return Ok(inner.node, cursor);
      }
      r := Fail(UnexpectedToken, cursor);
    }

    /** Parses the rest of a call, the cursor being at its opening parenthesis. */
    method ParseCall(name: Token, builtin: Builtin) returns (r: Parsed<Expr>)
      requires Valid() && 0 < cursor && cursor + 1 < |tokens| && name == tokens[cursor - 1]
      modifies this
      ensures Valid() && nesting == old(nesting)
      ensures r == CallAt(tokens, old(cursor) - 1, nesting, builtin)
      ensures r.Ok? ==> cursor == r.next
      decreases |tokens| - cursor, 7
    {
      if nesting >= MAX_NESTING_DEPTH {
        return Fail(NestingLimitExceeded, cursor);
      }
      nesting := nesting + 1;
      var _ := Advance();
      var list := ParseArguments();
      nesting := nesting - 1;
      if list.Fail? {
        return Fail(list.code, list.at);
      }
      if !Current().kind.RightParen? {
        return Fail(UnexpectedToken, cursor);
      }
      var closing := Advance();
      r := Ok(Call(builtin, list.node, Span(name.span.start, closing.span.end)), cursor);
    }

    method ParseArguments() returns (r: Parsed<seq<Expr>>)
      requires Valid()
      modifies this
      ensures Valid() && nesting == old(nesting)
      ensures r == ListAt(tokens, old(cursor), nesting)
      ensures r.Ok? ==> cursor == r.next
      decreases |tokens| - cursor, 6
    {
      var args: seq<Expr> := [];
      if Current().kind.RightParen? {
        return Ok(args, cursor);
      }
      while true
        invariant Valid() && nesting == old(nesting) && old(cursor) <= cursor
        invariant ArgumentsAt(tokens, cursor, nesting, args) == ArgumentsAt(tokens, old(cursor), nesting, [])
        decreases |tokens| - cursor
      {
        var argument := ParseOr();
        if argument.Fail? {
          return Fail(argument.code, argument.at);
        }
        args := args + [argument.node];
        if !Current().kind.Comma? {
          return Ok(args, cursor);
        }
        var _ := Advance();
        if Current().kind.RightParen? {
          return Fail(UnexpectedToken, cursor);
        }
      }
    }

    method ParseNot() returns (r: Parsed<Expr>)
      requires Valid()
      modifies this
      ensures Valid() && nesting == old(nesting)
      ensures r == NotAt(tokens, old(cursor), nesting)
      ensures r.Ok? ==> cursor == r.next
      decreases |tokens| - cursor, 1
    {
      if !Current().kind.NotKind? {
        r := ParsePrimary();
        return;
      }
      var at := cursor;
      var token := Advance();
      if nesting >= MAX_NESTING_DEPTH {
        return Fail(NestingLimitExceeded, at);
      }
      nesting := nesting + 1;
      var operand := ParseNot();
      nesting := nesting - 1;
      if operand.Fail? {
        return operand;
      }
      r := Ok(Not(operand.node, Span(token.span.start, operand.node.span.end)), cursor);
    }

    method ParseMembers() returns (r: Parsed<seq<LiteralNode>>)
      requires Valid()
      modifies this`cursor
      ensures Valid()
      ensures r == MembersAt(tokens, old(cursor), [])
      ensures r.Ok? ==> cursor == r.next
    {
      var members: seq<LiteralNode> := [];
      while true
        invariant Valid()
        invariant MembersAt(tokens, cursor, members) == MembersAt(tokens, old(cursor), [])
        decreases |tokens| - cursor
      {
        var member := Current();
        if !IsLiteralKind(member.kind) {
          return Fail(UnexpectedToken, cursor);
        }
        var _ := Advance();
        members := members + [LiteralFrom(member)];
        if !Current().kind.Comma? {
          return Ok(members, cursor);
        }
        var _ := Advance();
        if Current().kind.RightParen? {
          return Fail(UnexpectedToken, cursor);
        }
      }
    }

    method ParseComparison() returns (r: Parsed<Expr>)
      requires Valid()
      modifies this
      ensures Valid() && nesting == old(nesting)
      ensures r == ComparisonAt(tokens, old(cursor), nesting)
      ensures r.Ok? ==> cursor == r.next
      decreases |tokens| - cursor, 2
    {
      var left := ParseNot();
      if left.Fail? {
        return left;
      }
      var op := ComparisonOp(Current().kind);
      if op.Some? {
        var _ := Advance();
        var right := ParseNot();
        if right.Fail? {
          return right;
        }
        return Ok(Join(op.value, left.node, right.node), cursor);
      }
      if !Current().kind.InKind? {
        return left;
      }
      assert ComparisonAt(tokens, old(cursor), nesting) == InAt(tokens, left.node, cursor);
      var _ := Advance();
      if !Current().kind.LeftParen? {
        return Fail(UnexpectedToken, cursor);
      }
      var _ := Advance();
      if Current().kind.RightParen? {
        return Fail(UnexpectedToken, cursor);
      }
      var members := ParseMembers();
      if members.Fail? {
        return Fail(members.code, members.at);
      }
      if !Current().kind.RightParen? {
        return Fail(UnexpectedToken, cursor);
      }
      var closing := Advance();
      r := Ok(Membership(left.node, members.node, Span(left.node.span.start, closing.span.end)), cursor);
    }

    method ParseAnd() returns (r: Parsed<Expr>)
      requires Valid()
      modifies this
      ensures Valid() && nesting == old(nesting)
      ensures r == AndAt(tokens, old(cursor), nesting)
      ensures r.Ok? ==> cursor == r.next
      decreases |tokens| - cursor, 4
    {
      var left := ParseComparison();
      if left.Fail? {
        return left;
      }
      var expression := left.node;
      while Current().kind.AndKind?
        invariant Valid() && nesting == old(nesting) && old(cursor) < cursor
        invariant AndLoop(tokens, expression, cursor, nesting) == AndAt(tokens, old(cursor), nesting)
        decreases |tokens| - cursor
      {
        var _ := Advance();
        var right := ParseComparison();
        if right.Fail? {
          return right;
        }
        expression := Join(And, expression, right.node);
      }
      r := Ok(expression, cursor);
    }

    method ParseOr() returns (r: Parsed<Expr>)
      requires Valid()
      modifies this
      ensures Valid() && nesting == old(nesting)
      ensures r == OrAt(tokens, old(cursor), nesting)
      ensures r.Ok? ==> cursor == r.next
      decreases |tokens| - cursor, 5
    {
      var left := ParseAnd();
      if left.Fail? {
        return left;
      }
      var expression := left.node;
      while Current().kind.OrKind?
        invariant Valid() && nesting == old(nesting) && old(cursor) < cursor
        invariant OrLoop(tokens, expression, cursor, nesting) == OrAt(tokens, old(cursor), nesting)
        decreases |tokens| - cursor
      {
        var _ := Advance();
        var right := ParseAnd();
        if right.Fail? {
          return right;
        }
        expression := Join(Or, expression, right.node);
      }
      r := Ok(expression, cursor);
    }
  }

  /** Parses a complete token stream. */
  method Parse(source: Utf16, tokens: seq<Token>) returns (r: ParseResult)
    requires Ended(tokens)
    ensures r == TreeOf(source, tokens)
  {
    var parser := new TokenParser(tokens);
    var whole := parser.ParseOr();
    if whole.Fail? {
      var found := tokens[whole.at];
      return ParseError(SourceDiagnostic(source, whole.code, found.span.start, found.span.end));
    }
    var after := parser.Current();
    if !after.kind.Eof? {
      return ParseError(SourceDiagnostic(source, UnexpectedToken, after.span.start, after.span.end));
    }
    r := Tree(whole.node);
  }
}
