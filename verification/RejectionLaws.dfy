/** Where and why a stream of tokens is rejected, said by the grammar alone. */
module RejectionLaws {
  import opened Basics
  import opened Text
  import opened Syntax
  import opened Parser
  import opened Grammar
  import opened ParserLaws
  import opened ParserLocal
  import opened ParserStops

  /** The first `n` tokens begin this derivation. */
  ghost predicate Begins(t: Tree, tokens: seq<Token>, n: nat) { Derives(t) && n <= |tokens| && tokens[..n] <= Yield(t) }

  /** The first `n` tokens can be gone on with to an expression within the nesting limit. */
  ghost predicate Viable(tokens: seq<Token>, n: nat) {
    exists t :: Begins(t, tokens, n) && Nesting(t) <= MAX_NESTING_DEPTH
  }

  /** The first `n` tokens can be gone on with to an expression, however deep. */
  ghost predicate ViableDeeper(tokens: seq<Token>, n: nat) { exists t :: Begins(t, tokens, n) }

  lemma ShorterIsViable(tokens: seq<Token>, m: nat, n: nat)
    requires m <= n && Viable(tokens, n)
    ensures Viable(tokens, m)
  {
    var t :| Begins(t, tokens, n) && Nesting(t) <= MAX_NESTING_DEPTH;
    assert tokens[..m] == tokens[..n][..m];
    assert Begins(t, tokens, m);
  }

  /** The tokens of `t` and an end of file. */
  function StreamOf(t: Tree): (s: seq<Token>)
    ensures Ended(s) && s[..|s| - 1] == Yield(t)
  {
    Yield(t) + [Token(Eof, Null, Span(0, 0))]
  }

  lemma BeginsAlike(t: Tree, tokens: seq<Token>, n: nat)
    requires Ended(tokens) && Begins(t, tokens, n)
    ensures Alike(tokens, StreamOf(t), n) && n < |StreamOf(t)|
  {
    forall k | 0 <= k < n ensures tokens[k] == StreamOf(t)[k] {
      assert tokens[..n][k] == tokens[k];
    }
  }

  /** A derivation that begins with the tokens up to the one the parser stops at nests too deeply. */
  lemma BlockedAt(t: Tree, tokens: seq<Token>, depth: int)
    requires Ended(tokens) && WholeAt(tokens).Fail? && Begins(t, tokens, WholeAt(tokens).at + 1)
    requires depth == 0 || (depth < 0 && !WholeAt(tokens).code.NestingLimitExceeded?)
    ensures depth + Nesting(t) > MAX_NESTING_DEPTH
  {
    if depth + Nesting(t) <= MAX_NESTING_DEPTH {
      var k := WholeAt(tokens).at;
      BeginsAlike(t, tokens, k + 1);
      OrLocal(tokens, StreamOf(t), k + 1, 0, 0, depth);
      DerivationIsFound(t, StreamOf(t), depth);
    }
  }

  lemma StopsAfterViable(tokens: seq<Token>)
    requires Ended(tokens) && WholeAt(tokens).Fail?
    ensures Viable(tokens, WholeAt(tokens).at)
  {
    var t: Tree;
    if OrAt(tokens, 0, 0).Fail? {
      t := OrStops(tokens, 0, 0, false);
    } else {
      t := OrCovered(tokens, 0, 0);
    }
    assert Begins(t, tokens, WholeAt(tokens).at);
  }

  lemma StopsBeforeDeeper(tokens: seq<Token>)
    requires Ended(tokens) && WholeAt(tokens).Fail? && WholeAt(tokens).code.NestingLimitExceeded?
    ensures ViableDeeper(tokens, WholeAt(tokens).at + 1)
  {
    var t := OrStops(tokens, 0, 0, true);
    assert Begins(t, tokens, WholeAt(tokens).at + 1);
  }

  /**
   * The tokens before the one at which a stream is rejected can still be gone on with, together with it they cannot; the
   * nesting limit is what was passed exactly when a deeper expression could go on from there.
   */
  lemma RejectedWhere(tokens: seq<Token>)
    requires Ended(tokens) && WholeAt(tokens).Fail?
    ensures
      var k := WholeAt(tokens).at;
      && Viable(tokens, k) && !Viable(tokens, k + 1)
      && (WholeAt(tokens).code.NestingLimitExceeded? <==> ViableDeeper(tokens, k + 1))
      && (WholeAt(tokens).code.UnexpectedToken? <==> !ViableDeeper(tokens, k + 1))
  {
    var k := WholeAt(tokens).at;
    StopsAfterViable(tokens);
    if Viable(tokens, k + 1) {
      var t :| Begins(t, tokens, k + 1) && Nesting(t) <= MAX_NESTING_DEPTH;
      BlockedAt(t, tokens, 0);
    }
    if WholeAt(tokens).code.NestingLimitExceeded? {
      StopsBeforeDeeper(tokens);
    } else if ViableDeeper(tokens, k + 1) {
      var t :| Begins(t, tokens, k + 1);
      BlockedAt(t, tokens, MAX_NESTING_DEPTH - Max(MAX_NESTING_DEPTH, Nesting(t)));
    }
  }

  /** The longest viable beginning ends before token `k`. */
  ghost predicate Breaks(tokens: seq<Token>, k: nat) { k < |tokens| && Viable(tokens, k) && !Viable(tokens, k + 1) }

  ghost function Complaint(source: Utf16, tokens: seq<Token>, k: nat): Diagnostic
    requires k < |tokens|
  {
    SourceDiagnostic(source, if ViableDeeper(tokens, k + 1) then NestingLimitExceeded else UnexpectedToken,
                     tokens[k].span.start, tokens[k].span.end)
  }

  /** A stream is rejected with a diagnostic exactly when nothing derives it and the diagnostic is at the token that breaks it. */
  lemma RejectionIsDetermined(source: Utf16, tokens: seq<Token>, d: Diagnostic)
    requires Terminated(tokens)
    ensures TreeOf(source, tokens) == ParseError(d) <==>
      (forall t :: !Spells(t, tokens)) && exists k :: Breaks(tokens, k) && d == Complaint(source, tokens, k)
  {
    if WholeAt(tokens).Fail? {
      RejectedWhere(tokens);
      var at := WholeAt(tokens).at;
      forall t ensures !Spells(t, tokens) {
        if Spells(t, tokens) { DerivedIsAccepted(tokens, t); }
      }
      assert Breaks(tokens, at) && TreeOf(source, tokens) == ParseError(Complaint(source, tokens, at));
      forall k | Breaks(tokens, k) ensures k == at {
        if k < at { ShorterIsViable(tokens, k + 1, at); }
        if at < k { ShorterIsViable(tokens, at + 1, k); }
      }
    } else {
      var t := AcceptedIsDerived(tokens);
    }
  }
}
