/** The parser accepts exactly the streams the grammar derives, with exactly the derived tree. */
module ParserLaws {
  import opened Basics
  import opened Text
  import opened Syntax
  import opened Parser
  import opened Grammar
  import opened Derivations
  import opened ParserSound
  import opened ParserComplete

  lemma {:induction false} AcceptedIsDerived(tokens: seq<Token>) returns (t: Tree)
    requires Terminated(tokens) && WholeAt(tokens).Ok?
    ensures Spells(t, tokens) && Denotes(t) == WholeAt(tokens).node
  {
    t := OrSound(tokens, 0, 0);
    YieldIsDerived(t, tokens, 0);
  }

  lemma {:induction false} DerivedIsAccepted(tokens: seq<Token>, t: Tree)
    requires Terminated(tokens) && Spells(t, tokens)
    ensures WholeAt(tokens) == Ok(Denotes(t), |tokens| - 1)
  {
    YieldIsDerived(t, tokens, 0);
    OrComplete(t, tokens, 0, 0);
  }

  /** The parser returns a tree exactly when the grammar derives the whole stream as that tree. */
  lemma ParserMeetsGrammar(source: Utf16, tokens: seq<Token>, e: Expr)
    requires Terminated(tokens)
    ensures TreeOf(source, tokens) == Tree(e) <==>
      exists t :: Spells(t, tokens) && Denotes(t) == e
  {
    if TreeOf(source, tokens) == Parser.Tree(e) {
      var t := AcceptedIsDerived(tokens);
    }
    if exists t :: Spells(t, tokens) && Denotes(t) == e {
      var t :| Spells(t, tokens) && Denotes(t) == e;
      DerivedIsAccepted(tokens, t);
    }
  }

  /** Read from a depth that leaves room for its nesting, every derivation is what the parser finds. */
  lemma {:induction false} DerivationIsFound(t: Tree, tokens: seq<Token>, depth: int)
    requires Derives(t) && Ended(tokens) && Yield(t) == tokens[..|tokens| - 1]
    requires depth + Nesting(t) <= MAX_NESTING_DEPTH
    ensures OrAt(tokens, 0, depth) == Ok(Denotes(t), |tokens| - 1)
  {
    YieldIsDerived(t, tokens, depth);
    OrComplete(t, tokens, 0, depth);
  }

  /** The grammar is unambiguous at any nesting: two derivations of the same tokens denote the same expression. */
  lemma {:induction false} GrammarIsUnambiguous(t: Tree, u: Tree)
    requires Derives(t) && Derives(u) && Yield(t) == Yield(u)
    ensures Denotes(t) == Denotes(u)
  {
    var tokens := Yield(t) + [Token(Eof, Null, Span(0, 0))];
    assert tokens[..|tokens| - 1] == Yield(t);
    var depth := MAX_NESTING_DEPTH - Max(Nesting(t), Nesting(u));
    DerivationIsFound(t, tokens, depth);
    DerivationIsFound(u, tokens, depth);
  }
}
