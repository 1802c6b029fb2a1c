/** No argument is lost or used twice, although two passes read the arguments with different option tables. */
module ArgumentLaws {
  import opened Basics
  import opened Text
  import opened Arguments

  // ---------------------------------------------------------------- roles

  /** How many arguments after its own the occurrence took. */
  function Additional(args: seq<Utf16>, occurrence: Occurrence): nat {
    match ParseOptionToken(occurrence.spelling)
    case None => 0
    case Some(token) => Consume(args, occurrence.index, token, occurrence.option).additional
  }

  function OptionsAt(occurrences: seq<Occurrence>, index: nat): nat {
    if occurrences == [] then 0
    else (if occurrences[0].index == index then 1 else 0) + OptionsAt(occurrences[1..], index)
  }

  function ValuesAt(args: seq<Utf16>, occurrences: seq<Occurrence>, index: nat): nat {
    if occurrences == [] then 0
    else
      var first := occurrences[0].index;
      (if first < index <= first + Additional(args, occurrences[0]) then 1 else 0)
      + ValuesAt(args, occurrences[1..], index)
  }

  function IssuesAt(issues: seq<Issue>, index: nat): nat {
    if issues == [] then 0 else (if issues[0].index == index then 1 else 0) + IssuesAt(issues[1..], index)
  }

  /** How often an argument is the command, an option, the value of an option, or an issue. */
  function Roles(args: seq<Utf16>, result: ParseResult, index: nat): nat {
    (if result.commandIndex == Some(index) then 1 else 0)
    + OptionsAt(result.occurrences, index) + ValuesAt(args, result.occurrences, index) + IssuesAt(result.issues, index)
  }

  // ---------------------------------------------------------------- the two passes stay together

  lemma {:induction false} ScanDecidesAhead(args: seq<Utf16>, ctx: Context, defaults: Lookup, index: nat)
    ensures
      match Scan(args, ctx, defaults, index).Decisive()
      case None => true
      case Some(at) => index <= at < |args| && !IsOptionToken(args[at])
    decreases |args| - index
  {
    var lookup := Merge(GlobalLookup(ctx.registry, ctx.mode), defaults);
    if index < |args| {
      if IsBareDash(args[index]) {
        ScanDecidesAhead(args, ctx, defaults, index + 1);
      } else if IsOptionToken(args[index]) {
        ScanDecidesAhead(args, ctx, defaults, index + ScanExtra(args, ctx.host, ctx.mode, lookup, index) + 1);
      }
    }
  }

  /**
   * The main pass at `index` is past the argument that decided the selection, or the scan passes through
   * `index` too, or the scan has jumped over it as a value that only the default command's option takes.
   */
  predicate InSync(args: seq<Utf16>, ctx: Context, defaults: Lookup, index: nat) {
    match ctx.selection.Decisive()
    case None => true
    case Some(at) =>
      || at < index
      || Scan(args, ctx, defaults, index) == ctx.selection
      || (index < |args| && !IsOptionToken(args[index]) && Scan(args, ctx, defaults, index + 1) == ctx.selection)
  }

  /** With the default command's options the scan takes at most a value that is no option token itself. */
  lemma MergedExtra(args: seq<Utf16>, host: Host, mode: Mode, global: Lookup, defaults: Lookup, index: nat)
    requires index < |args|
    ensures
      var narrow, wide := ScanExtra(args, host, mode, global, index), ScanExtra(args, host, mode, Merge(global, defaults), index);
      narrow == wide || (narrow == 0 && wide == 1 && index + 1 < |args| && !IsOptionToken(args[index + 1]))
  {
    match ParseOptionToken(args[index])
    case None =>
    case Some(token) =>
      if FindOption(host, mode, token, global).Some? {
        assert FindOption(host, mode, token, Merge(global, defaults)) == FindOption(host, mode, token, global);
      }
  }

  /** The arguments the main pass reads with global options only. */
  predicate GlobalOnly(ctx: Context, index: nat) {
    || BeforeCommand(ctx.selection, index)
    || (ctx.selection.Unknown? && ctx.commandLookup == Lookup(map[], map[]))
  }

  lemma GlobalWidth(args: seq<Utf16>, ctx: Context, index: nat)
    requires index < |args| && GlobalOnly(ctx, index)
    requires IsOptionToken(args[index]) && !IsBareDash(args[index])
    ensures Width(StepAt(args, ctx, index))
         == 1 + ScanExtra(args, ctx.host, ctx.mode, GlobalLookup(ctx.registry, ctx.mode), index)
  {
    assert StepAt(args, ctx, index) == OptionStep(args, ctx, index);
    match ParseOptionToken(args[index])
    case None =>
    case Some(token) =>
      var global := FindOption(ctx.host, ctx.mode, token, GlobalLookup(ctx.registry, ctx.mode));
      assert VisibleOption(ctx, token, index) == global;
  }

  lemma OptionKeepsSync(args: seq<Utf16>, ctx: Context, defaults: Lookup, index: nat)
    requires index < |args| && GlobalOnly(ctx, index)
    requires IsOptionToken(args[index]) && !IsBareDash(args[index])
    requires Scan(args, ctx, defaults, index) == ctx.selection
    ensures InSync(args, ctx, defaults, index + Width(StepAt(args, ctx, index)))
    ensures Width(StepAt(args, ctx, index)) == 2 ==> Scan(args, ctx, defaults, index + 2) == ctx.selection
  {
    var global := GlobalLookup(ctx.registry, ctx.mode);
    GlobalWidth(args, ctx, index);
    MergedExtra(args, ctx.host, ctx.mode, global, defaults, index);
  }

  lemma StepKeepsSync(args: seq<Utf16>, ctx: Context, defaults: Lookup, index: nat)
    requires index < |args| && InSync(args, ctx, defaults, index)
    requires ctx.selection.Unknown? ==> ctx.commandLookup == Lookup(map[], map[])
    ensures InSync(args, ctx, defaults, index + Width(StepAt(args, ctx, index)))
  {
    match ctx.selection.Decisive()
    case None =>
    case Some(at) =>
      if at > index {
        ScanDecidesAhead(args, ctx, defaults, index);
        if IsOptionToken(args[index]) && !IsBareDash(args[index]) {
          OptionKeepsSync(args, ctx, defaults, index);
        }
      }
  }

  /** Reaching the deciding argument, the main pass recognises it. */
  lemma DecisiveStep(args: seq<Utf16>, ctx: Context, defaults: Lookup, index: nat)
    requires index < |args| && InSync(args, ctx, defaults, index)
    ensures
      var step := StepAt(args, ctx, index);
      (step.Named? || step.AlreadyReported?) <==> ctx.selection.Decisive() == Some(index)
  {
    ScanDecidesAhead(args, ctx, defaults, index);
    ScanDecidesAhead(args, ctx, defaults, index + 1);
  }

  // ---------------------------------------------------------------- conservation

  lemma TakenIsExact(args: seq<Utf16>, ctx: Context, index: nat)
    requires index < |args| && StepAt(args, ctx, index).Taken?
    ensures
      var step := StepAt(args, ctx, index);
      step.occurrence.index == index && Additional(args, step.occurrence) == step.additional
  {
  }

  /** The roles a whole trail hands out. */
  function TrailRolesAt(args: seq<Utf16>, trail: Trail, at: nat): nat {
    match trail
    case Done => 0
    case Then(step, rest) => StepRoles(args, step, at) + TrailRolesAt(args, rest, at)
  }

  lemma {:induction false} RolesAddUp(args: seq<Utf16>, trail: Trail, at: nat)
    ensures OptionsAt(Occurrences(trail), at) + ValuesAt(args, Occurrences(trail), at) + IssuesAt(Issues(trail), at)
         == TrailRolesAt(args, trail, at)
  {
    match trail
    case Done =>
    case Then(step, rest) =>
      RolesAddUp(args, rest, at);
      match step
      case Taken(occurrence, _) => assert ([occurrence] + Occurrences(rest))[1..] == Occurrences(rest);
      case Refused(issue) => assert ([issue] + Issues(rest))[1..] == Issues(rest);
      case _ =>
  }

  /** The deciding argument is never taken as a value. */
  lemma ValueDecidesNothing(args: seq<Utf16>, ctx: Context, defaults: Lookup, index: nat)
    requires index < |args| && InSync(args, ctx, defaults, index)
    requires ctx.selection.Unknown? ==> ctx.commandLookup == Lookup(map[], map[])
    requires StepAt(args, ctx, index).Taken?
    ensures forall at | index < at < index + Width(StepAt(args, ctx, index)) :: ctx.selection.Decisive() != Some(at)
  {
    if ctx.selection.Decisive() == Some(index + 1) {
      ScanDecidesAhead(args, ctx, defaults, index);
      OptionKeepsSync(args, ctx, defaults, index);
      ScanDecidesAhead(args, ctx, defaults, index + 2);
    }
  }

  /** The roles one step hands out to the argument at `at`. */
  function StepRoles(args: seq<Utf16>, step: Step, at: nat): nat {
    match step
    case Taken(o, _) =>
      (if o.index == at then 1 else 0) + (if o.index < at <= o.index + Additional(args, o) then 1 else 0)
    case Refused(issue) => if issue.index == at then 1 else 0
    case _ => 0
  }

  /** One step gives the arguments it covers one role each, and no role to any other. */
  lemma StepCovers(args: seq<Utf16>, ctx: Context, index: nat, at: nat)
    requires index < |args|
    ensures
      var step := StepAt(args, ctx, index);
      StepRoles(args, step, at)
      == if index <= at < index + Width(step) && !step.Named? && !step.AlreadyReported? then 1 else 0
  {
    if StepAt(args, ctx, index).Taken? {
      TakenIsExact(args, ctx, index);
    }
  }

  /** The main pass, going on from `index`, comes to the argument at `at`. */
  ghost predicate Visits(args: seq<Utf16>, ctx: Context, index: nat, at: nat)
    decreases |args| - index
  {
    index < |args| && (index == at || Visits(args, ctx, index + Width(StepAt(args, ctx, index)), at))
  }

  lemma StepStaysBefore(args: seq<Utf16>, ctx: Context, defaults: Lookup, index: nat, at: nat)
    requires index < |args| && InSync(args, ctx, defaults, index)
    requires ctx.selection.Unknown? ==> ctx.commandLookup == Lookup(map[], map[])
    requires ctx.selection.Decisive() == Some(at) && index < at
    ensures index + Width(StepAt(args, ctx, index)) <= at
  {
    if StepAt(args, ctx, index).Taken? { ValueDecidesNothing(args, ctx, defaults, index); }
  }

  lemma {:induction false} PassVisits(args: seq<Utf16>, ctx: Context, defaults: Lookup, index: nat, at: nat)
    requires at < |args| && InSync(args, ctx, defaults, index) && ctx.selection.Decisive() == Some(at) && index <= at
    requires ctx.selection.Unknown? ==> ctx.commandLookup == Lookup(map[], map[])
    ensures Visits(args, ctx, index, at) && InSync(args, ctx, defaults, at)
    decreases |args| - index
  {
    if index < at {
      var next := index + Width(StepAt(args, ctx, index));
      StepKeepsSync(args, ctx, defaults, index);
      StepStaysBefore(args, ctx, defaults, index, at);
      PassVisits(args, ctx, defaults, next, at);
    }
  }

  /** One step gives what it covers one role each, except the deciding argument. */
  lemma StepGives(args: seq<Utf16>, ctx: Context, defaults: Lookup, index: nat, at: nat)
    requires index < |args| && InSync(args, ctx, defaults, index)
    requires ctx.selection.Unknown? ==> ctx.commandLookup == Lookup(map[], map[])
    ensures
      var step := StepAt(args, ctx, index);
      StepRoles(args, step, at)
      == if index <= at < index + Width(step) && ctx.selection.Decisive() != Some(at) then 1 else 0
  {
    StepCovers(args, ctx, index, at);
    DecisiveStep(args, ctx, defaults, index);
    if StepAt(args, ctx, index).Taken? { ValueDecidesNothing(args, ctx, defaults, index); }
  }

  /** From `index` on every argument has one role, counting the deciding one as taken. */
  lemma {:induction false} TrailRoles(args: seq<Utf16>, ctx: Context, defaults: Lookup, index: nat, at: nat)
    requires index <= |args| && InSync(args, ctx, defaults, index)
    requires ctx.selection.Unknown? ==> ctx.commandLookup == Lookup(map[], map[])
    ensures
      var roles := TrailRolesAt(args, TrailFrom(args, ctx, index), at);
      && (at < index ==> roles == 0)
      && (index <= at < |args| ==> roles == if ctx.selection.Decisive() == Some(at) then 0 else 1)
    decreases |args| - index
  {
    if index < |args| {
      var step := StepAt(args, ctx, index);
      var next := index + Width(step);
      StepKeepsSync(args, ctx, defaults, index);
      TrailRoles(args, ctx, defaults, next, at);
      StepGives(args, ctx, defaults, index, at);
    }
  }

  // ---------------------------------------------------------------- sorting the issues

  lemma {:induction false} InsertKeeps(issue: Issue, sorted: seq<Issue>, at: nat)
    ensures IssuesAt(InsertByIndex(issue, sorted), at) == (if issue.index == at then 1 else 0) + IssuesAt(sorted, at)
    ensures multiset(InsertByIndex(issue, sorted)) == multiset{issue} + multiset(sorted)
  {
    if sorted == [] || issue.index <= sorted[0].index {
      assert ([issue] + sorted)[1..] == sorted;
    } else {
      var rest := InsertByIndex(issue, sorted[1..]);
      InsertKeeps(issue, sorted[1..], at);
      assert ([sorted[0]] + rest)[1..] == rest;
      assert sorted == [sorted[0]] + sorted[1..];
    }
  }

  lemma {:induction false} SortKeeps(issues: seq<Issue>, at: nat)
    ensures IssuesAt(SortByIndex(issues), at) == IssuesAt(issues, at)
    ensures multiset(SortByIndex(issues)) == multiset(issues)
  {
    if issues != [] {
      SortKeeps(issues[1..], at);
      InsertKeeps(issues[0], SortByIndex(issues[1..]), at);
      assert issues == [issues[0]] + issues[1..];
    }
  }

  predicate Ascending(issues: seq<Issue>) {
    |issues| <= 1 || (issues[0].index <= issues[1].index && Ascending(issues[1..]))
  }

  lemma {:induction false} InsertAscends(issue: Issue, sorted: seq<Issue>)
    requires Ascending(sorted)
    ensures Ascending(InsertByIndex(issue, sorted))
  {
    if sorted == [] || issue.index <= sorted[0].index {
      assert ([issue] + sorted)[1..] == sorted;
    } else {
      var rest := InsertByIndex(issue, sorted[1..]);
      InsertAscends(issue, sorted[1..]);
      assert ([sorted[0]] + rest)[1..] == rest;
    }
  }

  lemma {:induction false} SortAscends(issues: seq<Issue>)
    ensures Ascending(SortByIndex(issues))
  {
    if issues != [] {
      SortAscends(issues[1..]);
      InsertAscends(issues[0], SortByIndex(issues[1..]));
    }
  }

  /** Two entries with one index count twice, so an ascending list without such entries ascends strictly. */
  lemma {:induction false} PairCounts(issues: seq<Issue>, i: nat, j: nat)
    requires i < j < |issues| && issues[i].index == issues[j].index
    ensures IssuesAt(issues, issues[i].index) >= 2
  {
    if i == 0 {
      SingleCounts(issues[1..], j - 1);
    } else {
      PairCounts(issues[1..], i - 1, j - 1);
    }
  }

  lemma {:induction false} SingleCounts(issues: seq<Issue>, i: nat)
    requires i < |issues|
    ensures IssuesAt(issues, issues[i].index) >= 1
  {
    if i > 0 { SingleCounts(issues[1..], i - 1); }
  }

  lemma {:induction false} AscendingOrders(issues: seq<Issue>, i: nat, j: nat)
    requires Ascending(issues) && i <= j < |issues|
    ensures issues[i].index <= issues[j].index
  {
    if i > 0 {
      AscendingOrders(issues[1..], i - 1, j - 1);
    } else if j > 0 {
      AscendingOrders(issues[1..], 0, j - 1);
    }
  }

  // ---------------------------------------------------------------- main results

  lemma EmptyTables(host: Host, mode: Mode, lookup: Lookup)
    requires IsLookupOf(host, mode, lookup, [])
    ensures lookup == Lookup(map[], map[])
  {
    forall key ensures key !in lookup.long && key !in lookup.short {
      assert Get(lookup.long, key) == None && Get(lookup.short, key) == None;
    }
  }

  /** Every argument is exactly one of the command, a recognised option, the value of one option, or one issue. */
  lemma ArgumentsAreConserved(args: seq<Utf16>, ctx: Context, index: nat)
    requires IsContextFor(args, ctx) && index < |args|
    ensures Roles(args, ResultOf(args, ctx), index) == 1
  {
    var defaults :| ScansWith(args, ctx, defaults);
    if ctx.selection.Unknown? {
      EmptyTables(ctx.host, ctx.mode, ctx.commandLookup);
    }
    TrailRoles(args, ctx, defaults, 0, index);
    RolesAddUp(args, TrailFrom(args, ctx, 0), index);
    ReportedCount(ctx.selection, Issues(TrailFrom(args, ctx, 0)), index);
  }

  /**
   * The main pass comes to the argument that the scan decided on and recognises it there, although the scan reads the
   * arguments before it with the default command's options too.
   */
  lemma DecidingArgumentIsRead(args: seq<Utf16>, ctx: Context, at: nat)
    requires IsContextFor(args, ctx) && ctx.selection.Decisive() == Some(at)
    ensures at < |args| && Visits(args, ctx, 0, at)
    ensures StepAt(args, ctx, at).Named? || StepAt(args, ctx, at).AlreadyReported?
  {
    var defaults :| ScansWith(args, ctx, defaults);
    if ctx.selection.Unknown? {
      EmptyTables(ctx.host, ctx.mode, ctx.commandLookup);
    }
    ScanDecidesAhead(args, ctx, defaults, 0);
    PassVisits(args, ctx, defaults, 0, at);
    DecisiveStep(args, ctx, defaults, at);
  }

  lemma ReportedCount(selection: Selection, issues: seq<Issue>, at: nat)
    ensures IssuesAt(SortByIndex(Reported(selection) + issues), at)
         == IssuesAt(issues, at) + if selection.Unknown? && selection.issue.index == at then 1 else 0
  {
    SortKeeps(Reported(selection) + issues, at);
    if selection.Unknown? {
      assert ([selection.issue] + issues)[1..] == issues;
    } else {
      assert Reported(selection) + issues == issues;
    }
  }

  /** Nothing in the result points outside the arguments. */
  lemma RolesAreInside(args: seq<Utf16>, ctx: Context, index: nat)
    requires IsContextFor(args, ctx) && index >= |args|
    ensures Roles(args, ResultOf(args, ctx), index) == 0
  {
    var defaults :| ScansWith(args, ctx, defaults);
    ScanDecidesAhead(args, ctx, defaults, 0);
    TrailInside(args, ctx, 0, index);
    RolesAddUp(args, TrailFrom(args, ctx, 0), index);
    ReportedCount(ctx.selection, Issues(TrailFrom(args, ctx, 0)), index);
  }

  lemma {:induction false} TrailInside(args: seq<Utf16>, ctx: Context, index: nat, at: nat)
    requires index <= |args| <= at
    ensures TrailRolesAt(args, TrailFrom(args, ctx, index), at) == 0
    decreases |args| - index
  {
    if index < |args| {
      var step := StepAt(args, ctx, index);
      TrailInside(args, ctx, index + Width(step), at);
      StepCovers(args, ctx, index, at);
    }
  }

  /** The issues come out strictly ordered by position. */
  lemma IssuesAscend(args: seq<Utf16>, ctx: Context, i: nat, j: nat)
    requires IsContextFor(args, ctx)
    requires i < j < |ResultOf(args, ctx).issues|
    ensures ResultOf(args, ctx).issues[i].index < ResultOf(args, ctx).issues[j].index
  {
    var issues := ResultOf(args, ctx).issues;
    SortAscends(Reported(ctx.selection) + Issues(TrailFrom(args, ctx, 0)));
    AscendingOrders(issues, i, j);
    if issues[i].index == issues[j].index {
      PairCounts(issues, i, j);
      if issues[i].index < |args| {
        ArgumentsAreConserved(args, ctx, issues[i].index);
      } else {
        RolesAreInside(args, ctx, issues[i].index);
      }
    }
  }

  /** The option of an occurrence is the one its spelling finds at its place. */
  predicate IsVisible(ctx: Context, occurrence: Occurrence) {
    && ParseOptionToken(occurrence.spelling).Some?
    && VisibleOption(ctx, ParseOptionToken(occurrence.spelling).value, occurrence.index) == Some(occurrence.option)
  }

  ghost predicate AllVisible(ctx: Context, trail: Trail) {
    match trail
    case Done => true
    case Then(step, rest) => (step.Taken? ==> IsVisible(ctx, step.occurrence)) && AllVisible(ctx, rest)
  }

  lemma TakenIsVisible(args: seq<Utf16>, ctx: Context, index: nat)
    requires index < |args| && StepAt(args, ctx, index).Taken?
    ensures IsVisible(ctx, StepAt(args, ctx, index).occurrence)
  {
    assert StepAt(args, ctx, index) == OptionStep(args, ctx, index);
  }

  lemma {:induction false} TrailIsVisible(args: seq<Utf16>, ctx: Context, from: nat)
    ensures AllVisible(ctx, TrailFrom(args, ctx, from))
    decreases |args| - from
  {
    if from < |args| {
      var step := StepAt(args, ctx, from);
      TrailIsVisible(args, ctx, from + Width(step));
      if step.Taken? {
        TakenIsVisible(args, ctx, from);
      }
    }
  }

  lemma {:induction false} OccurrenceIsVisible(ctx: Context, trail: Trail, occurrence: Occurrence)
    requires AllVisible(ctx, trail) && occurrence in Occurrences(trail)
    ensures IsVisible(ctx, occurrence)
  {
    if !(trail.step.Taken? && trail.step.occurrence == occurrence) {
      OccurrenceIsVisible(ctx, trail.rest, occurrence);
    }
  }

  /** Whatever stands before the command can only be a global option. */
  lemma LeadingOptionsAreGlobal(args: seq<Utf16>, ctx: Context, from: nat, occurrence: Occurrence)
    requires occurrence in Occurrences(TrailFrom(args, ctx, from))
    ensures ParseOptionToken(occurrence.spelling).Some?
    ensures
      var token := ParseOptionToken(occurrence.spelling).value;
      var global := FindOption(ctx.host, ctx.mode, token, GlobalLookup(ctx.registry, ctx.mode));
      && (global.Some? ==> occurrence.option == global.value)
      && (global.None? ==>
            && !BeforeCommand(ctx.selection, occurrence.index)
            && FindOption(ctx.host, ctx.mode, token, ctx.commandLookup) == Some(occurrence.option))
  {
    TrailIsVisible(args, ctx, from);
    OccurrenceIsVisible(ctx, TrailFrom(args, ctx, from), occurrence);
  }

  /** With no command named and none expected, every argument was taken or is a faulty option. */
  lemma DefaultCommandTakesAll(args: seq<Utf16>, ctx: Context, issue: Issue)
    requires IsContextFor(args, ctx) && ctx.selection.Implicit?
    requires issue in ResultOf(args, ctx).issues
    ensures issue.kind == MalformedArgument || issue.kind == UnknownOption
  {
    var defaults :| ScansWith(args, ctx, defaults);
    ScanEndsInDefault(args, ctx, defaults, 0);
    var issues := Issues(TrailFrom(args, ctx, 0));
    assert Reported(ctx.selection) + issues == issues;
    SortKeeps(issues, 0);
    assert issue in multiset(issues);
    NothingUnexpected(args, ctx, defaults, 0);
    IssueRefusesOption(TrailFrom(args, ctx, 0), issue);
  }

  lemma {:induction false} ScanEndsInDefault(args: seq<Utf16>, ctx: Context, defaults: Lookup, index: nat)
    requires Scan(args, ctx, defaults, index).Implicit?
    ensures Scan(args, ctx, defaults, index) == Implicit(ctx.registry.defaultCommand)
    decreases |args| - index
  {
    var lookup := Merge(GlobalLookup(ctx.registry, ctx.mode), defaults);
    if index < |args| {
      if IsBareDash(args[index]) {
        ScanEndsInDefault(args, ctx, defaults, index + 1);
      } else {
        ScanEndsInDefault(args, ctx, defaults, index + ScanExtra(args, ctx.host, ctx.mode, lookup, index) + 1);
      }
    }
  }

  /** The default command's options are the same whichever pass builds the table. */
  lemma SameOption(args: seq<Utf16>, ctx: Context, defaults: Lookup, token: OptionToken, index: nat)
    requires IsLookupOf(ctx.host, ctx.mode, defaults, OptionsOf(ctx.registry.defaultCommand))
    requires IsLookupOf(ctx.host, ctx.mode, ctx.commandLookup, OptionsOf(ctx.selection.Command()))
    requires ctx.selection == Implicit(ctx.registry.defaultCommand)
    ensures VisibleOption(ctx, token, index)
         == FindOption(ctx.host, ctx.mode, token, Merge(GlobalLookup(ctx.registry, ctx.mode), defaults))
  {
    var key := Folded(ctx.host, ctx.mode, token.name);
    assert Get(defaults.long, key) == Get(ctx.commandLookup.long, key);
    assert Get(defaults.short, key) == Get(ctx.commandLookup.short, key);
  }

  predicate RefusesOption(issue: Issue) { issue.kind == MalformedArgument || issue.kind == UnknownOption }

  ghost predicate OnlyOptionsRefused(trail: Trail) {
    match trail
    case Done => true
    case Then(step, rest) => (step.Refused? ==> RefusesOption(step.issue)) && OnlyOptionsRefused(rest)
  }

  lemma {:induction false} IssueRefusesOption(trail: Trail, issue: Issue)
    requires OnlyOptionsRefused(trail) && issue in Issues(trail)
    ensures RefusesOption(issue)
  {
    if trail.step != Refused(issue) {
      IssueRefusesOption(trail.rest, issue);
    }
  }

  /** While the selection goes on, the main pass steps as it does, and over nothing but options. */
  lemma StepIsExpected(args: seq<Utf16>, ctx: Context, defaults: Lookup, index: nat)
    requires IsLookupOf(ctx.host, ctx.mode, defaults, OptionsOf(ctx.registry.defaultCommand))
    requires IsLookupOf(ctx.host, ctx.mode, ctx.commandLookup, OptionsOf(ctx.selection.Command()))
    requires ctx.selection == Implicit(ctx.registry.defaultCommand)
    requires index < |args| && Scan(args, ctx, defaults, index).Implicit?
    ensures
      var step := StepAt(args, ctx, index);
      && Scan(args, ctx, defaults, index + Width(step)).Implicit?
      && (step.Refused? ==> RefusesOption(step.issue))
  {
    if !IsBareDash(args[index]) {
      assert IsOptionToken(args[index]);
      assert StepAt(args, ctx, index) == OptionStep(args, ctx, index);
      match ParseOptionToken(args[index])
      case None =>
      case Some(token) => SameOption(args, ctx, defaults, token, index);
    }
  }

  lemma RefusedFirst(args: seq<Utf16>, ctx: Context, index: nat, step: Step)
    requires index < |args| && step == StepAt(args, ctx, index)
    requires (step.Refused? ==> RefusesOption(step.issue)) && OnlyOptionsRefused(TrailFrom(args, ctx, index + Width(step)))
    ensures OnlyOptionsRefused(TrailFrom(args, ctx, index))
  {
    assert TrailFrom(args, ctx, index) == Then(step, TrailFrom(args, ctx, index + Width(step)));
  }

  /** Where the main pass goes next; what it refuses from there on decides what it refuses from `index` on. */
  lemma NextExpected(args: seq<Utf16>, ctx: Context, defaults: Lookup, index: nat) returns (next: nat)
    requires IsLookupOf(ctx.host, ctx.mode, defaults, OptionsOf(ctx.registry.defaultCommand))
    requires IsLookupOf(ctx.host, ctx.mode, ctx.commandLookup, OptionsOf(ctx.selection.Command()))
    requires ctx.selection == Implicit(ctx.registry.defaultCommand)
    requires index < |args| && Scan(args, ctx, defaults, index).Implicit?
    ensures index < next && Scan(args, ctx, defaults, next).Implicit?
    ensures OnlyOptionsRefused(TrailFrom(args, ctx, next)) ==> OnlyOptionsRefused(TrailFrom(args, ctx, index))
  {
    StepIsExpected(args, ctx, defaults, index);
    var step := StepAt(args, ctx, index);
    next := index + Width(step);
    if OnlyOptionsRefused(TrailFrom(args, ctx, next)) {
      RefusedFirst(args, ctx, index, step);
    }
  }

  lemma {:induction false} NothingUnexpected(args: seq<Utf16>, ctx: Context, defaults: Lookup, index: nat)
    requires IsLookupOf(ctx.host, ctx.mode, defaults, OptionsOf(ctx.registry.defaultCommand))
    requires IsLookupOf(ctx.host, ctx.mode, ctx.commandLookup, OptionsOf(ctx.selection.Command()))
    requires ctx.selection == Implicit(ctx.registry.defaultCommand)
    requires Scan(args, ctx, defaults, index).Implicit?
    ensures OnlyOptionsRefused(TrailFrom(args, ctx, index))
    decreases |args| - index
  {
    if index < |args| {
      var next := NextExpected(args, ctx, defaults, index);
      NothingUnexpected(args, ctx, defaults, next);
    }
  }

  // ---------------------------------------------------------------- stored values

  function ValuesOf(occurrences: seq<Occurrence>, name: Utf16): seq<Scalar> {
    if occurrences == [] then []
    else (if occurrences[0].option.name == name then [occurrences[0].value] else []) + ValuesOf(occurrences[1..], name)
  }

  /** What is stored after `values` of a repeatable option: they add to an earlier list, or replace anything else. */
  function Collecting(before: Option<Stored>, values: seq<Scalar>): Option<Stored> {
    if values == [] then before else Some(Many(ListOf(before) + values))
  }

  function ListOf(stored: Option<Stored>): seq<Scalar> {
    if stored.Some? && stored.value.Many? then stored.value.values else []
  }

  lemma CollectOne(before: Option<Stored>, value: Scalar, rest: seq<Scalar>)
    ensures Collecting(Some(Many(ListOf(before) + [value])), rest) == Collecting(before, [value] + rest)
  {
    Collected(ListOf(before), value, rest);
    assert rest == [] ==> [value] + rest == [value];
  }

  lemma StoreRepeatable(options: Options, option: Opt, value: Scalar, name: Utf16)
    requires option.name == name ==> option.multiple
    ensures
      Get(Store(options, option, value), name)
      == if option.name == name then Some(Many(ListOf(Get(options, name)) + [value])) else Get(options, name)
  {
    assert [] + [value] == [value];
  }

  predicate AllRepeatable(occurrences: seq<Occurrence>, name: Utf16) {
    forall k | 0 <= k < |occurrences| :: occurrences[k].option.name == name ==> occurrences[k].option.multiple
  }

  /** Repeatable values are stored in the order they were given, after those of an earlier list. */
  lemma {:induction false} RepeatedValuesCollect(options: Options, occurrences: seq<Occurrence>, name: Utf16)
    requires AllRepeatable(occurrences, name)
    ensures Get(StoreAll(options, occurrences), name) == Collecting(Get(options, name), ValuesOf(occurrences, name))
    decreases |occurrences|
  {
    if occurrences != [] {
      var first := occurrences[0];
      var rest := ValuesOf(occurrences[1..], name);
      assert AllRepeatable(occurrences[1..], name);
      StoreRepeatable(options, first.option, first.value, name);
      RepeatedValuesCollect(Store(options, first.option, first.value), occurrences[1..], name);
      CollectOne(Get(options, name), first.value, rest);
      assert [] + rest == rest;
    }
  }

  lemma Collected(before: seq<Scalar>, value: Scalar, rest: seq<Scalar>)
    ensures before + ([value] + rest) == (before + [value]) + rest
    ensures [] + [value] == [value]
  {
  }

  lemma {:induction false} OthersUntouched(options: Options, occurrences: seq<Occurrence>, name: Utf16)
    requires forall o <- occurrences :: o.option.name != name
    ensures Get(StoreAll(options, occurrences), name) == Get(options, name)
    decreases |occurrences|
  {
    if occurrences != [] {
      OthersUntouched(Store(options, occurrences[0].option, occurrences[0].value), occurrences[1..], name);
    }
  }

  /** Any other option keeps the last value given under its name. */
  lemma {:induction false} LastValueWins(options: Options, occurrences: seq<Occurrence>, last: nat)
    requires last < |occurrences| && !occurrences[last].option.multiple
    requires forall k | last < k < |occurrences| :: occurrences[k].option.name != occurrences[last].option.name
    ensures Get(StoreAll(options, occurrences), occurrences[last].option.name) == Some(One(occurrences[last].value))
    decreases |occurrences|
  {
    var stored := Store(options, occurrences[0].option, occurrences[0].value);
    if last > 0 {
      LastValueWins(stored, occurrences[1..], last - 1);
    } else {
      OthersUntouched(stored, occurrences[1..], occurrences[0].option.name);
    }
  }

  lemma {:induction false} StoreAllConcat(options: Options, a: seq<Occurrence>, b: seq<Occurrence>)
    ensures StoreAll(options, a + b) == StoreAll(StoreAll(options, a), b)
    decreases |a|
  {
    if a == [] {
      assert a + b == b;
    } else {
      assert (a + b)[1..] == a[1..] + b;
      StoreAllConcat(Store(options, a[0].option, a[0].value), a[1..], b);
    }
  }

  lemma StoreSingle(options: Options, front: seq<Occurrence>, single: Occurrence)
    requires !single.option.multiple
    ensures Get(StoreAll(options, front + [single]), single.option.name) == Some(One(single.value))
  {
    StoreAllConcat(options, front, [single]);
    var stored := StoreAll(options, front);
    assert StoreAll(stored, [single]) == StoreAll(Store(stored, single.option, single.value), []);
  }

  /**
   * Options of both kinds may share a name. The last single value given under it replaces everything before, and stays
   * until repeatable values follow it; then they alone are stored, in order.
   */
  lemma StoredSinceSingle(options: Options, front: seq<Occurrence>, single: Occurrence, rest: seq<Occurrence>)
    requires !single.option.multiple && AllRepeatable(rest, single.option.name)
    ensures
      var values := ValuesOf(rest, single.option.name);
      Get(StoreAll(options, front + [single] + rest), single.option.name)
      == Some(if values == [] then One(single.value) else Many(values))
  {
    var name := single.option.name;
    StoreSingle(options, front, single);
    StoreAllConcat(options, front + [single], rest);
    RepeatedValuesCollect(StoreAll(options, front + [single]), rest, name);
    assert [] + ValuesOf(rest, name) == ValuesOf(rest, name);
  }

  /** Every list either has no single value under the name, or is split by the last one; so one of the two laws applies. */
  lemma {:induction false} EveryListSplits(occurrences: seq<Occurrence>, name: Utf16)
    returns (front: seq<Occurrence>, single: seq<Occurrence>, rest: seq<Occurrence>)
    ensures occurrences == front + single + rest && |single| <= 1 && AllRepeatable(rest, name)
    ensures if single == [] then front == [] else single[0].option.name == name && !single[0].option.multiple
  {
    if occurrences == [] {
      front, single, rest := [], [], [];
    } else {
      var last := occurrences[|occurrences| - 1];
      var before := occurrences[..|occurrences| - 1];
      assert occurrences == before + [last];
      if last.option.name == name && !last.option.multiple {
        front, single, rest := before, [last], [];
      } else {
        front, single, rest := EveryListSplits(before, name);
        assert front + single + (rest + [last]) == front + single + rest + [last];
        rest := rest + [last];
      }
    }
  }
}
