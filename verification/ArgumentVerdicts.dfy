/** What every recognised option and every issue of a parse says about its argument. */
module ArgumentVerdicts {
  import opened Basics
  import opened Text
  import opened Arguments
  import opened ArgumentLaws
  import opened ArgumentValues

  /** It begins with a dash and is no negative number. */
  ghost predicate IsOptionLike(argument: Utf16) {
    argument != [] && argument[0] == '-' as int && !LooksNegative(argument)
  }

  lemma OptionLikeMeans(argument: Utf16)
    ensures IsOptionToken(argument) <==> IsOptionLike(argument)
  {
    NegativeLooks(argument);
  }

  ghost predicate SpellsNothing(argument: Utf16) { forall token :: !IsSpelled(argument, token) }

  ghost predicate TakesNothing(args: seq<Utf16>, index: nat, token: OptionToken, kind: OptionType) {
    forall text, additional: nat :: !Takes(args, index, token, kind, text, additional)
  }

  /** The token spells a visible option, which takes a text that stands for the value, or is a flag without one. */
  ghost predicate Gives(args: seq<Utf16>, ctx: Context, o: Occurrence, token: OptionToken) {
    && IsSpelled(o.spelling, token) && VisibleOption(ctx, token, o.index) == Some(o.option)
    && (|| (exists text, additional: nat ::
              Takes(args, o.index, token, o.option.kind, text, additional) && StandsFor(ctx.host, text, o.option.kind, o.value))
        || (o.option.kind.BooleanOption? && o.value == Flag(true) && TakesNothing(args, o.index, token, o.option.kind)))
  }

  ghost predicate OccurrenceFits(args: seq<Utf16>, ctx: Context, o: Occurrence) {
    && o.index < |args| && o.spelling == args[o.index] && IsOptionLike(o.spelling)
    && exists token :: Gives(args, ctx, o, token)
  }

  /** The token spells an option that is not visible, or one that misses its value. */
  ghost predicate FailsToGive(args: seq<Utf16>, ctx: Context, issue: Issue, token: OptionToken) {
    && IsSpelled(issue.argument, token)
    && match VisibleOption(ctx, token, issue.index)
       case None => issue.kind.UnknownOption? && issue.optionName == Some(token.name)
       case Some(option) =>
         && issue.kind.MalformedArgument? && issue.optionName == Some(option.name)
         && !option.kind.BooleanOption? && TakesNothing(args, issue.index, token, option.kind)
  }

  ghost predicate IssueFits(args: seq<Utf16>, ctx: Context, issue: Issue) {
    && issue.index < |args| && issue.argument == args[issue.index]
    && if IsOptionLike(issue.argument) then
         || (issue.kind.MalformedArgument? && issue.optionName == None && SpellsNothing(issue.argument))
         || exists token :: FailsToGive(args, ctx, issue, token)
       else
         && issue.optionName == None && ctx.selection.CommandIndex() != Some(issue.index)
         && (issue.kind.UnexpectedArgument?
             || (issue.kind.UnknownCommand? && ctx.selection == Unknown(issue)
                 && FindCommand(ctx.host, ctx.mode, issue.argument, ctx.registry).None?))
  }

  // ---------------------------------------------------------------- one step

  lemma UnspelledIsNone(argument: Utf16)
    requires argument != [] && argument[0] == '-' as int && ParseOptionToken(argument).None?
    ensures SpellsNothing(argument)
  {
    forall token ensures !IsSpelled(argument, token) { OptionIsAsSpelled(argument, token); }
  }

  lemma BareDashFits(args: seq<Utf16>, ctx: Context, index: nat)
    requires index < |args| && IsBareDash(args[index])
    ensures IssueFits(args, ctx, Issue(MalformedArgument, args[index], index, ctx.selection.Name(), None))
  {
    OptionLikeMeans(args[index]);
    assert ParseOptionToken(args[index]).None?;
    UnspelledIsNone(args[index]);
  }

  lemma OptionStepFits(args: seq<Utf16>, ctx: Context, index: nat)
    requires index < |args| && IsOptionToken(args[index])
    ensures
      var step := OptionStep(args, ctx, index);
      && (step.Refused? ==> IssueFits(args, ctx, step.issue))
      && (step.Taken? ==> OccurrenceFits(args, ctx, step.occurrence))
  {
    var step, argument := OptionStep(args, ctx, index), args[index];
    OptionLikeMeans(argument);
    match ParseOptionToken(argument)
    case None => UnspelledIsNone(argument);
    case Some(token) =>
      OptionIsAsSpelled(argument, token);
      match VisibleOption(ctx, token, index)
      case None => assert FailsToGive(args, ctx, step.issue, token);
      case Some(option) => ValueFits(args, ctx, index, token, option);
  }

  lemma ValueFits(args: seq<Utf16>, ctx: Context, index: nat, token: OptionToken, option: Opt)
    requires index < |args| && IsOptionLike(args[index])
    requires ParseOptionToken(args[index]) == Some(token) && IsSpelled(args[index], token)
    requires VisibleOption(ctx, token, index) == Some(option)
    ensures
      var step := OptionStep(args, ctx, index);
      && (step.Refused? ==> IssueFits(args, ctx, step.issue))
      && (step.Taken? ==> OccurrenceFits(args, ctx, step.occurrence))
  {
    var step, c := OptionStep(args, ctx, index), Consume(args, index, token, option);
    OptionTakesItsValue(ctx.host, args, index, token, option);
    if c.value.Raw? {
      assert c == Consumption(Raw(c.value.s), c.additional);
      assert Takes(args, index, token, option.kind, c.value.s, c.additional);
    } else {
      NothingTaken(ctx.host, args, index, token, option);
    }
    if step.Taken? { assert Gives(args, ctx, step.occurrence, token); }
    if step.Refused? { assert FailsToGive(args, ctx, step.issue, token); }
  }

  lemma NothingTaken(host: Host, args: seq<Utf16>, index: nat, token: OptionToken, option: Opt)
    requires !Consume(args, index, token, option).value.Raw?
    ensures TakesNothing(args, index, token, option.kind)
  {
    OptionTakesItsValue(host, args, index, token, option);
    forall text, additional: nat ensures !Takes(args, index, token, option.kind, text, additional) {
      assert Consume(args, index, token, option) != Consumption(Raw(text), additional);
    }
  }

  lemma StepFits(args: seq<Utf16>, ctx: Context, index: nat)
    requires index < |args|
    ensures
      var step := StepAt(args, ctx, index);
      && (step.Refused? ==> IssueFits(args, ctx, step.issue))
      && (step.Taken? ==> OccurrenceFits(args, ctx, step.occurrence))
  {
    OptionLikeMeans(args[index]);
    if IsBareDash(args[index]) { BareDashFits(args, ctx, index); }
    if IsOptionToken(args[index]) { OptionStepFits(args, ctx, index); }
  }

  // ---------------------------------------------------------------- the whole pass

  ghost predicate AllFit(args: seq<Utf16>, ctx: Context, trail: Trail) {
    match trail
    case Done => true
    case Then(step, rest) =>
      && (step.Refused? ==> IssueFits(args, ctx, step.issue))
      && (step.Taken? ==> OccurrenceFits(args, ctx, step.occurrence))
      && AllFit(args, ctx, rest)
  }

  lemma {:induction false} TrailFits(args: seq<Utf16>, ctx: Context, index: nat)
    ensures AllFit(args, ctx, TrailFrom(args, ctx, index))
    decreases |args| - index
  {
    if index < |args| {
      StepFits(args, ctx, index);
      TrailFits(args, ctx, index + Width(StepAt(args, ctx, index)));
    }
  }

  lemma {:induction false} OccurrencesFit(args: seq<Utf16>, ctx: Context, trail: Trail, o: Occurrence)
    requires AllFit(args, ctx, trail) && o in Occurrences(trail)
    ensures OccurrenceFits(args, ctx, o)
  {
    if !(trail.step.Taken? && trail.step.occurrence == o) { OccurrencesFit(args, ctx, trail.rest, o); }
  }

  lemma {:induction false} IssuesFit(args: seq<Utf16>, ctx: Context, trail: Trail, issue: Issue)
    requires AllFit(args, ctx, trail) && issue in Issues(trail)
    ensures IssueFits(args, ctx, issue)
  {
    if trail.step != Refused(issue) { IssuesFit(args, ctx, trail.rest, issue); }
  }

  /** An unknown command is the argument the scan stopped at. */
  lemma {:induction false} UnknownIsScanned(args: seq<Utf16>, host: Host, mode: Mode, registry: Registry, lookup: Lookup, index: nat)
    requires SelectFrom(args, host, mode, registry, lookup, index).Unknown?
    ensures
      var issue := SelectFrom(args, host, mode, registry, lookup, index).issue;
      && issue.index < |args| && issue.argument == args[issue.index] && !IsOptionToken(issue.argument)
      && issue.kind.UnknownCommand? && issue.optionName == None && FindCommand(host, mode, issue.argument, registry).None?
    decreases |args| - index
  {
    if IsBareDash(args[index]) {
      UnknownIsScanned(args, host, mode, registry, lookup, index + 1);
    } else if IsOptionToken(args[index]) {
      UnknownIsScanned(args, host, mode, registry, lookup, index + ScanExtra(args, host, mode, lookup, index) + 1);
    }
  }

  /** Every option a parse recognises is spelled by its argument, visible there, and has the value its text stands for. */
  lemma OccurrencesAreJustified(args: seq<Utf16>, ctx: Context, o: Occurrence)
    requires o in ResultOf(args, ctx).occurrences
    ensures OccurrenceFits(args, ctx, o)
  {
    TrailFits(args, ctx, 0);
    OccurrencesFit(args, ctx, TrailFrom(args, ctx, 0), o);
  }

  /** Every issue of a parse is of the kind its argument calls for. */
  lemma IssuesAreJustified(args: seq<Utf16>, ctx: Context, issue: Issue)
    requires IsContextFor(args, ctx) && issue in ResultOf(args, ctx).issues
    ensures IssueFits(args, ctx, issue)
  {
    var issues := Issues(TrailFrom(args, ctx, 0));
    SortKeeps(Reported(ctx.selection) + issues, 0);
    assert issue in multiset(Reported(ctx.selection) + issues);
    TrailFits(args, ctx, 0);
    if issue in issues {
      IssuesFit(args, ctx, TrailFrom(args, ctx, 0), issue);
    } else {
      var defaults :| ScansWith(args, ctx, defaults);
      UnknownIsScanned(args, ctx.host, ctx.mode, ctx.registry, Merge(GlobalLookup(ctx.registry, ctx.mode), defaults), 0);
      OptionLikeMeans(issue.argument);
    }
  }
}
