/** Recognising commands and options in an argument list. */
module Arguments {
  import opened Basics
  import opened Text

  datatype Mode = Strict | Legacy

  /** `lower` and `number` are `toLowerCase` and `Number` of the runtime; `number` gives None when not finite. */
  datatype Host = Host(lower: Utf16 -> Utf16, number: Utf16 -> Option<real>)

  /** A declared option without a type is a String option. An empty `short` means there is none. */
  datatype OptionType = StringOption | NumberOption | BooleanOption

  datatype Opt = Opt(name: Utf16, short: Utf16, kind: OptionType, multiple: bool)

  datatype Command = Command(name: Utf16, aliases: seq<Utf16>, options: seq<Opt>, isDefault: bool)

  datatype Scalar = Text(s: Utf16) | Flag(b: bool) | Numeric(r: real)

  datatype Stored = One(value: Scalar) | Many(values: seq<Scalar>)

  type Options = map<Utf16, Stored>

  datatype Lookup = Lookup(long: map<Utf16, Opt>, short: map<Utf16, Opt>)

  datatype Registry = Registry(
    parserName: Utf16,
    strictCommands: map<Utf16, Command>, legacyCommands: map<Utf16, Command>,
    defaultCommand: Option<Command>,
    strictGlobal: Lookup, legacyGlobal: Lookup)

  datatype IssueKind = MalformedArgument | UnknownCommand | UnknownOption | UnexpectedArgument

  datatype Issue = Issue(kind: IssueKind, argument: Utf16, index: nat,
                         commandName: Option<Utf16>, optionName: Option<Utf16>)

  datatype Occurrence = Occurrence(option: Opt, value: Scalar, index: nat, spelling: Utf16)

  datatype ParseResult = ParseResult(command: Option<Command>, commandIndex: Option<nat>,
                                     options: Options, occurrences: seq<Occurrence>, issues: seq<Issue>)

  // ---------------------------------------------------------------- tokens

  const DASH: CodeUnit := 45
  const EQUALS: CodeUnit := 61
  const TRUE_TEXT: Utf16 := [116, 114, 117, 101]
  const FALSE_TEXT: Utf16 := [102, 97, 108, 115, 101]

  predicate AllDigits(s: Utf16) { s != [] && forall i | 0 <= i < |s| :: IsDigit(s[i]) }

  predicate IsNegativeNumber(argument: Utf16) {
    && argument != [] && argument[0] == DASH
    && (|| AllDigits(argument[1..])
        || exists k | 1 < k < |argument| ::
             argument[k] == DOT && AllDigits(argument[1..k]) && AllDigits(argument[k + 1..]))
  }

  predicate IsOptionToken(argument: Utf16) { StartsWith(argument, [DASH]) && !IsNegativeNumber(argument) }

  predicate IsBareDash(argument: Utf16) { argument == [DASH] || argument == [DASH, DASH] }

  predicate IsLongName(name: Utf16) {
    && name != [] && IsLetter(name[0])
    && forall i | 0 <= i < |name| :: IsIdentifierPart(name[i]) || name[i] == DASH
  }

  datatype OptionToken = OptionToken(name: Utf16, attached: Option<Utf16>, isLong: bool)

  function IndexOf(content: Utf16, c: CodeUnit): (k: nat)
    ensures k <= |content|
    ensures k < |content| ==> content[k] == c
  {
    if content == [] || content[0] == c then 0 else 1 + IndexOf(content[1..], c)
  }

  function ParseOptionToken(argument: Utf16): Option<OptionToken> {
    if StartsWith(argument, [DASH, DASH]) then
      var content := argument[2..];
      var separator := IndexOf(content, EQUALS);
      if !IsLongName(content[..separator]) then None
      else Some(OptionToken(content[..separator],
                            if separator < |content| then Some(content[separator + 1..]) else None, true))
    else if |argument| >= 2 && IsLetter(argument[1]) then
      var remainder := argument[2..];
      var attached :=
        if remainder == [] then None
        else if remainder[0] == EQUALS then Some(remainder[1..])
        else Some(remainder);
      Some(OptionToken([argument[1]], attached, false))
    else None
  }

  // ---------------------------------------------------------------- lookup tables

  function Folded(host: Host, mode: Mode, name: Utf16): Utf16 {
    if mode.Strict? then name else host.lower(name)
  }

  function Get<V>(table: map<Utf16, V>, key: Utf16): Option<V> { if key in table then Some(table[key]) else None }

  function FindOption(host: Host, mode: Mode, token: OptionToken, lookup: Lookup): Option<Opt> {
    Get(if token.isLong then lookup.long else lookup.short, Folded(host, mode, token.name))
  }

  function FindCommand(host: Host, mode: Mode, spelling: Utf16, registry: Registry): Option<Command> {
    Get(if mode.Strict? then registry.strictCommands else registry.legacyCommands, Folded(host, mode, spelling))
  }

  function GlobalLookup(registry: Registry, mode: Mode): Lookup {
    if mode.Strict? then registry.strictGlobal else registry.legacyGlobal
  }

  /** What a table holds for `key` when earlier declarations keep their names: the first owner. */
  function FirstLong(host: Host, mode: Mode, options: seq<Opt>, key: Utf16): Option<Opt> {
    if options == [] then None
    else
      var last := options[|options| - 1];
      match FirstLong(host, mode, options[..|options| - 1], key)
      case Some(earlier) => Some(earlier)
      case None => if Folded(host, mode, last.name) == key then Some(last) else None
  }

  function FirstShort(host: Host, mode: Mode, options: seq<Opt>, key: Utf16): Option<Opt> {
    if options == [] then None
    else
      var last := options[|options| - 1];
      match FirstShort(host, mode, options[..|options| - 1], key)
      case Some(earlier) => Some(earlier)
      case None => if last.short != [] && Folded(host, mode, last.short) == key then Some(last) else None
  }

  ghost predicate IsLookupOf(host: Host, mode: Mode, lookup: Lookup, options: seq<Opt>) {
    && (forall key :: Get(lookup.long, key) == FirstLong(host, mode, options, key))
    && (forall key :: Get(lookup.short, key) == FirstShort(host, mode, options, key))
  }

  method CreateOptionLookup(host: Host, mode: Mode, options: seq<Opt>) returns (lookup: Lookup)
    ensures IsLookupOf(host, mode, lookup, options)
  {
    var long: map<Utf16, Opt>, short: map<Utf16, Opt> := map[], map[];
    for i := 0 to |options|
      invariant IsLookupOf(host, mode, Lookup(long, short), options[..i])
    {
      ghost var before := Lookup(long, short);
      var option := options[i];
      var longName := Folded(host, mode, option.name);
      if longName !in long {
        long := long[longName := option];
      }
      if option.short != [] {
        var shortName := Folded(host, mode, option.short);
        if shortName !in short {
          short := short[shortName := option];
        }
      }
      assert options[..i + 1][..i] == options[..i] && options[..i + 1][i] == option;
      forall key
        ensures Get(long, key) == FirstLong(host, mode, options[..i + 1], key)
        ensures Get(short, key) == FirstShort(host, mode, options[..i + 1], key)
      {
        assert Get(before.long, key) == FirstLong(host, mode, options[..i], key);
        assert Get(before.short, key) == FirstShort(host, mode, options[..i], key);
      }
    }
    assert options[..|options|] == options;
    lookup := Lookup(long, short);
  }

  /** The command that first claimed a spelling, as its name or as an alias. */
  function FirstCommand(host: Host, mode: Mode, commands: seq<Command>, key: Utf16): Option<Command> {
    if commands == [] then None
    else
      var last := commands[|commands| - 1];
      match FirstCommand(host, mode, commands[..|commands| - 1], key)
      case Some(earlier) => Some(earlier)
      case None => if Spells(host, mode, last, last.aliases, key) then Some(last) else None
  }

  predicate Spells(host: Host, mode: Mode, command: Command, aliases: seq<Utf16>, key: Utf16) {
    Folded(host, mode, command.name) == key || exists i | 0 <= i < |aliases| :: Folded(host, mode, aliases[i]) == key
  }

  function Claim(host: Host, mode: Mode, table: map<Utf16, Command>, spelling: Utf16, command: Command): map<Utf16, Command> {
    var key := Folded(host, mode, spelling);
    if key in table then table else table[key := command]
  }

  ghost predicate IsTableOf(host: Host, mode: Mode, table: map<Utf16, Command>, commands: seq<Command>) {
    forall key :: Get(table, key) == FirstCommand(host, mode, commands, key)
  }

  method RegisterCommand(host: Host, mode: Mode, before: map<Utf16, Command>, command: Command)
    returns (table: map<Utf16, Command>)
    ensures forall key ::
      Get(table, key) == if key in before then Some(before[key])
                         else if Spells(host, mode, command, command.aliases, key) then Some(command) else None
  {
    table := Claim(host, mode, before, command.name, command);
    for i := 0 to |command.aliases|
      invariant forall key ::
        Get(table, key) == if key in before then Some(before[key])
                           else if Spells(host, mode, command, command.aliases[..i], key) then Some(command) else None
    {
      table := Claim(host, mode, table, command.aliases[i], command);
      forall key
        ensures Spells(host, mode, command, command.aliases[..i + 1], key)
           <==> Spells(host, mode, command, command.aliases[..i], key) || Folded(host, mode, command.aliases[i]) == key
      {
        assert forall k | 0 <= k < i :: command.aliases[..i + 1][k] == command.aliases[..i][k];
        assert command.aliases[..i + 1][i] == command.aliases[i];
      }
    }
    assert command.aliases[..|command.aliases|] == command.aliases;
  }

  method CommandTable(host: Host, mode: Mode, commands: seq<Command>) returns (table: map<Utf16, Command>)
    ensures IsTableOf(host, mode, table, commands)
  {
    table := map[];
    for i := 0 to |commands|
      invariant IsTableOf(host, mode, table, commands[..i])
    {
      ghost var before := table;
      table := RegisterCommand(host, mode, table, commands[i]);
      assert commands[..i + 1][..i] == commands[..i] && commands[..i + 1][i] == commands[i];
      forall key ensures Get(table, key) == FirstCommand(host, mode, commands[..i + 1], key) {
        assert Get(before, key) == FirstCommand(host, mode, commands[..i], key);
      }
    }
    assert commands[..|commands|] == commands;
  }

  /** A single command declared as the default is the only one that can be selected without being named. */
  method CreateArgumentRegistry(host: Host, parserName: Utf16, commands: seq<Command>, globalOptions: seq<Opt>)
    returns (registry: Registry)
    ensures registry.parserName == parserName
    ensures IsTableOf(host, Strict, registry.strictCommands, commands)
    ensures IsTableOf(host, Legacy, registry.legacyCommands, commands)
    ensures IsLookupOf(host, Strict, registry.strictGlobal, globalOptions)
    ensures IsLookupOf(host, Legacy, registry.legacyGlobal, globalOptions)
    ensures forall command ::
      registry.defaultCommand == Some(command) <==> commands == [command] && command.isDefault
  {
    var strictCommands := CommandTable(host, Strict, commands);
    var legacyCommands := CommandTable(host, Legacy, commands);
    var strictGlobal := CreateOptionLookup(host, Strict, globalOptions);
    var legacyGlobal := CreateOptionLookup(host, Legacy, globalOptions);
    var default := if |commands| == 1 && commands[0].isDefault then Some(commands[0]) else None;
    registry := Registry(parserName, strictCommands, legacyCommands, default, strictGlobal, legacyGlobal);
  }

  /** Both scopes, the first taking precedence. */
  function Merge(first: Lookup, second: Lookup): Lookup {
    Lookup(second.long + first.long, second.short + first.short)
  }

  // ---------------------------------------------------------------- values

  datatype RawValue = NoValue | Raw(s: Utf16) | Implied

  datatype Consumption = Consumption(value: RawValue, additional: nat)

  /** The value an option token takes and whether it takes the next argument for it. */
  function Consume(args: seq<Utf16>, index: nat, token: OptionToken, option: Opt): (c: Consumption)
    ensures c.additional <= 1
    ensures c.additional == 1 ==> index + 1 < |args| && !IsOptionToken(args[index + 1])
  {
    match token.attached
    case Some(value) => Consumption(Raw(value), 0)
    case None =>
      var hasNext := index + 1 < |args|;
      if option.kind.BooleanOption? then
        if hasNext && (args[index + 1] == TRUE_TEXT || args[index + 1] == FALSE_TEXT)
        then Consumption(Raw(args[index + 1]), 1)
        else Consumption(Implied, 0)
      else if hasNext
              && (!IsOptionToken(args[index + 1])
                  || (option.kind.NumberOption? && IsNegativeNumber(args[index + 1])))
      then Consumption(Raw(args[index + 1]), 1)
      else Consumption(NoValue, 0)
  }

  function Convert(host: Host, raw: RawValue, option: Opt): Scalar
    requires !raw.NoValue?
  {
    match raw
    case Implied => Flag(true)
    case Raw(value) =>
      match option.kind
      case BooleanOption => if value == TRUE_TEXT then Flag(true) else if value == FALSE_TEXT then Flag(false) else Text(value)
      case NumberOption =>
        var trimmed := Trim(value);
        if trimmed == [] then Text(value)
        else (match host.number(trimmed) case Some(number) => Numeric(number) case None => Text(value))
      case StringOption => Text(value)
  }

  function Store(options: Options, option: Opt, value: Scalar): Options {
    if !option.multiple then options[option.name := One(value)]
    else if option.name in options && options[option.name].Many?
    then options[option.name := Many(options[option.name].values + [value])]
    else options[option.name := Many([value])]
  }

  // ---------------------------------------------------------------- selecting the command

  datatype Selection =
    | Explicit(command: Command, index: nat)
    | Implicit(default: Option<Command>)
    | Unknown(issue: Issue)
  {
    function Command(): Option<Command> {
      match this
      case Explicit(command, _) => Some(command)
      case Implicit(default) => default
      case Unknown(_) => None
    }

    function CommandIndex(): Option<nat> { if Explicit? then Some(index) else None }

    function Name(): Option<Utf16> {
      match Command() case None => None case Some(command) => Some(command.name)
    }

    /** The position that decided the selection, when there is one. */
    function Decisive(): Option<nat> {
      match this
      case Explicit(_, index) => Some(index)
      case Implicit(_) => None
      case Unknown(issue) => Some(issue.index)
    }
  }

  /** What every position of one invocation sees. */
  datatype Context = Context(host: Host, mode: Mode, registry: Registry, selection: Selection, commandLookup: Lookup)

  /** How far the selection scan moves at an option token. */
  function ScanExtra(args: seq<Utf16>, host: Host, mode: Mode, lookup: Lookup, index: nat): (extra: nat)
    requires index < |args|
    ensures index + extra < |args|
  {
    match ParseOptionToken(args[index])
    case None => 0
    case Some(token) =>
      match FindOption(host, mode, token, lookup)
      case None => 0
      case Some(option) => Consume(args, index, token, option).additional
  }

  function SelectFrom(args: seq<Utf16>, host: Host, mode: Mode, registry: Registry, lookup: Lookup, index: nat): Selection
    decreases |args| - index
  {
    if index >= |args| then Implicit(registry.defaultCommand)
    else if IsBareDash(args[index]) then SelectFrom(args, host, mode, registry, lookup, index + 1)
    else if IsOptionToken(args[index]) then
      SelectFrom(args, host, mode, registry, lookup, index + ScanExtra(args, host, mode, lookup, index) + 1)
    else
      match FindCommand(host, mode, args[index], registry)
      case Some(command) => Explicit(command, index)
      case None => Unknown(Issue(UnknownCommand, args[index], index, Some(args[index]), None))
  }

  method ScanOption(args: seq<Utf16>, host: Host, mode: Mode, lookup: Lookup, index: nat) returns (extra: nat)
    requires index < |args|
    ensures extra == ScanExtra(args, host, mode, lookup, index)
  {
    var parsed := ParseOptionToken(args[index]);
    var option := if parsed.Some? then FindOption(host, mode, parsed.value, lookup) else None;
    extra := 0;
    if parsed.Some? && option.Some? {
      extra := Consume(args, index, parsed.value, option.value).additional;
    }
  }

  method SelectCommand(args: seq<Utf16>, host: Host, mode: Mode, registry: Registry, defaults: Lookup)
    returns (selection: Selection)
    ensures selection == SelectFrom(args, host, mode, registry, Merge(GlobalLookup(registry, mode), defaults), 0)
  {
    var lookup := Merge(GlobalLookup(registry, mode), defaults);
    ghost var goal := SelectFrom(args, host, mode, registry, lookup, 0);
    var index := 0;
    while index < |args|
      invariant 0 <= index <= |args|
      invariant SelectFrom(args, host, mode, registry, lookup, index) == goal
    {
      var argument := args[index];
      if IsBareDash(argument) {
        index := index + 1;
        continue;
      }
      if IsOptionToken(argument) {
        var extra := ScanOption(args, host, mode, lookup, index);
        index := index + extra + 1;
        continue;
      }
      var command := FindCommand(host, mode, argument, registry);
      if command.Some? {
        return Explicit(command.value, index);
      }
      return Unknown(Issue(UnknownCommand, argument, index, Some(argument), None));
    }
    return Implicit(registry.defaultCommand);
  }

  // ---------------------------------------------------------------- the main pass

  /** What the main pass does with the argument it stands on. */
  datatype Step = Named | Taken(occurrence: Occurrence, additional: nat) | Refused(issue: Issue) | AlreadyReported

  function Width(step: Step): nat { if step.Taken? then 1 + step.additional else 1 }

  predicate BeforeCommand(selection: Selection, index: nat) { selection.Explicit? && index < selection.index }

  /** The option a token names here: a global one first, then one of the command that has begun. */
  function VisibleOption(ctx: Context, token: OptionToken, index: nat): Option<Opt> {
    match FindOption(ctx.host, ctx.mode, token, GlobalLookup(ctx.registry, ctx.mode))
    case Some(option) => Some(option)
    case None =>
      if BeforeCommand(ctx.selection, index) then None
      else FindOption(ctx.host, ctx.mode, token, ctx.commandLookup)
  }

  function OptionStep(args: seq<Utf16>, ctx: Context, index: nat): (step: Step)
    requires index < |args|
    ensures index + Width(step) <= |args|
    ensures step.Refused? ==> step.issue.index == index
    ensures step.Taken? ==> step.occurrence.index == index
  {
    var argument := args[index];
    match ParseOptionToken(argument)
    case None => Refused(Issue(MalformedArgument, argument, index, ctx.selection.Name(), None))
    case Some(token) =>
      match VisibleOption(ctx, token, index)
      case None =>
        var name := match ctx.selection.Name() case Some(name) => name case None => ctx.registry.parserName;
        Refused(Issue(UnknownOption, argument, index, Some(name), Some(token.name)))
      case Some(option) =>
        var consumed := Consume(args, index, token, option);
        if consumed.value.NoValue?
        then Refused(Issue(MalformedArgument, argument, index, ctx.selection.Name(), Some(option.name)))
        else Taken(Occurrence(option, Convert(ctx.host, consumed.value, option), index, argument), consumed.additional)
  }

  function StepAt(args: seq<Utf16>, ctx: Context, index: nat): (step: Step)
    requires index < |args|
    ensures index + Width(step) <= |args|
    ensures step.Refused? ==> step.issue.index == index
    ensures step.Taken? ==> step.occurrence.index == index
  {
    var argument := args[index];
    if ctx.selection.CommandIndex() == Some(index) then Named
    else if IsBareDash(argument) then
      Refused(Issue(MalformedArgument, argument, index, ctx.selection.Name(), None))
    else if IsOptionToken(argument) then OptionStep(args, ctx, index)
    else if ctx.selection.Unknown? && ctx.selection.issue.index == index then AlreadyReported
    else Refused(Issue(UnexpectedArgument, argument, index, ctx.selection.Name(), None))
  }

  /** Everything the main pass does, in order. */
  datatype Trail = Done | Then(step: Step, rest: Trail)

  function TrailFrom(args: seq<Utf16>, ctx: Context, index: nat): Trail
    decreases |args| - index
  {
    if index >= |args| then Done
    else
      var step := StepAt(args, ctx, index);
      Then(step, TrailFrom(args, ctx, index + Width(step)))
  }

  function Occurrences(trail: Trail): seq<Occurrence> {
    match trail
    case Done => []
    case Then(Taken(occurrence, _), rest) => [occurrence] + Occurrences(rest)
    case Then(_, rest) => Occurrences(rest)
  }

  function Issues(trail: Trail): seq<Issue> {
    match trail
    case Done => []
    case Then(Refused(issue), rest) => [issue] + Issues(rest)
    case Then(_, rest) => Issues(rest)
  }

  function StoreAll(options: Options, occurrences: seq<Occurrence>): Options
    decreases |occurrences|
  {
    if occurrences == [] then options
    else StoreAll(Store(options, occurrences[0].option, occurrences[0].value), occurrences[1..])
  }

  /** A stable sort by index, as `issues.sort` makes it: an issue moves in front of the later ones. */
  function InsertByIndex(issue: Issue, sorted: seq<Issue>): seq<Issue> {
    if sorted == [] || issue.index <= sorted[0].index then [issue] + sorted
    else [sorted[0]] + InsertByIndex(issue, sorted[1..])
  }

  function SortByIndex(issues: seq<Issue>): seq<Issue> {
    if issues == [] then [] else InsertByIndex(issues[0], SortByIndex(issues[1..]))
  }

  function Reported(selection: Selection): seq<Issue> { if selection.Unknown? then [selection.issue] else [] }

  function OptionsOf(command: Option<Command>): seq<Opt> { if command.Some? then command.value.options else [] }

  /** The selection as the scan makes it from `index` on. */
  function Scan(args: seq<Utf16>, ctx: Context, defaults: Lookup, index: nat): Selection {
    SelectFrom(args, ctx.host, ctx.mode, ctx.registry, Merge(GlobalLookup(ctx.registry, ctx.mode), defaults), index)
  }

  ghost predicate ScansWith(args: seq<Utf16>, ctx: Context, defaults: Lookup) {
    && IsLookupOf(ctx.host, ctx.mode, defaults, OptionsOf(ctx.registry.defaultCommand))
    && ctx.selection == Scan(args, ctx, defaults, 0)
  }

  /** A context whose selection and tables come from the arguments and the registry, as `parseArguments` makes it. */
  ghost predicate IsContextFor(args: seq<Utf16>, ctx: Context) {
    && IsLookupOf(ctx.host, ctx.mode, ctx.commandLookup, OptionsOf(ctx.selection.Command()))
    && exists defaults :: ScansWith(args, ctx, defaults)
  }

  function ResultOf(args: seq<Utf16>, ctx: Context): ParseResult {
    var trail := TrailFrom(args, ctx, 0);
    ParseResult(ctx.selection.Command(), ctx.selection.CommandIndex(), StoreAll(map[], Occurrences(trail)),
                Occurrences(trail), SortByIndex(Reported(ctx.selection) + Issues(trail)))
  }

  /** The loop body: what it does with one argument, except for recording it. */
  method ReadArgument(args: seq<Utf16>, ctx: Context, index: nat) returns (step: Step)
    requires index < |args|
    ensures step == StepAt(args, ctx, index)
  {
    var argument := args[index];
    if ctx.selection.CommandIndex() == Some(index) {
      return Named;
    }
    if IsBareDash(argument) {
      return Refused(Issue(MalformedArgument, argument, index, ctx.selection.Name(), None));
    }
    if IsOptionToken(argument) {
      step := ReadOption(args, ctx, index);
      return;
    }
    if ctx.selection.Unknown? && ctx.selection.issue.index == index {
      return AlreadyReported;
    }
    return Refused(Issue(UnexpectedArgument, argument, index, ctx.selection.Name(), None));
  }

  /** The part of the loop body that deals with an option token. */
  method ReadOption(args: seq<Utf16>, ctx: Context, index: nat) returns (step: Step)
    requires index < |args|
    ensures step == OptionStep(args, ctx, index)
  {
    var argument := args[index];
    var parsed := ParseOptionToken(argument);
    if parsed.None? {
      return Refused(Issue(MalformedArgument, argument, index, ctx.selection.Name(), None));
    }
    var option := FindOption(ctx.host, ctx.mode, parsed.value, GlobalLookup(ctx.registry, ctx.mode));
    if option.None? && !BeforeCommand(ctx.selection, index) {
      option := FindOption(ctx.host, ctx.mode, parsed.value, ctx.commandLookup);
    }
    if option.None? {
      var name := if ctx.selection.Command().Some? then ctx.selection.Command().value.name else ctx.registry.parserName;
      return Refused(Issue(UnknownOption, argument, index, Some(name), Some(parsed.value.name)));
    }
    var consumed := Consume(args, index, parsed.value, option.value);
    if consumed.value.NoValue? {
      return Refused(Issue(MalformedArgument, argument, index, ctx.selection.Name(), Some(option.value.name)));
    }
    var value := Convert(ctx.host, consumed.value, option.value);
    return Taken(Occurrence(option.value, value, index, argument), consumed.additional);
  }

  /** The two passes: some context the scan and the tables make of the arguments gives this result. */
  ghost predicate IsResultFor(args: seq<Utf16>, host: Host, registry: Registry, mode: Mode, result: ParseResult) {
    exists ctx | IsContextFor(args, ctx) ::
      ctx.host == host && ctx.mode == mode && ctx.registry == registry && result == ResultOf(args, ctx)
  }

  method ParseArguments(args: seq<Utf16>, host: Host, registry: Registry, mode: Mode) returns (result: ParseResult)
    ensures IsResultFor(args, host, registry, mode, result)
  {
    var defaults := CreateOptionLookup(host, mode, OptionsOf(registry.defaultCommand));
    var selection := SelectCommand(args, host, mode, registry, defaults);
    var commandLookup := CreateOptionLookup(host, mode, OptionsOf(selection.Command()));
    var ctx := Context(host, mode, registry, selection, commandLookup);
    assert ScansWith(args, ctx, defaults);
    var record := Recognise(args, ctx);
    RunSplits(TrailFrom(args, ctx, 0), Record(map[], [], Reported(selection)));
    result := ParseResult(selection.Command(), selection.CommandIndex(),
                          record.options, record.occurrences, SortByIndex(record.issues));
    assert IsContextFor(args, ctx) && result == ResultOf(args, ctx);
  }

  /** What the loop has recorded: values, occurrences and issues. */
  datatype Record = Record(options: Options, occurrences: seq<Occurrence>, issues: seq<Issue>)

  function Recorded(step: Step, record: Record): Record {
    match step
    case Taken(occurrence, _) =>
      Record(Store(record.options, occurrence.option, occurrence.value),
             record.occurrences + [occurrence], record.issues)
    case Refused(issue) => record.(issues := record.issues + [issue])
    case _ => record
  }

  /** The loop as a function of what it has recorded so far. */
  ghost function Run(trail: Trail, record: Record): Record {
    match trail
    case Done => record
    case Then(step, rest) => Run(rest, Recorded(step, record))
  }

  /** The loop over the arguments once the command is selected. */
  method Recognise(args: seq<Utf16>, ctx: Context) returns (record: Record)
    ensures record == Run(TrailFrom(args, ctx, 0), Record(map[], [], Reported(ctx.selection)))
  {
    record := Record(map[], [], Reported(ctx.selection));
    ghost var goal := Run(TrailFrom(args, ctx, 0), record);
    var index := 0;
    while index < |args|
      invariant 0 <= index <= |args|
      invariant Run(TrailFrom(args, ctx, index), record) == goal
    {
      var step := ReadArgument(args, ctx, index);
      assert TrailFrom(args, ctx, index) == Then(step, TrailFrom(args, ctx, index + Width(step)));
      ghost var next, recorded := index + Width(step), Recorded(step, record);
      assert Run(TrailFrom(args, ctx, next), recorded) == goal;
      if step.Taken? {
        var occurrence := step.occurrence;
        record := record.(options := Store(record.options, occurrence.option, occurrence.value),
                          occurrences := record.occurrences + [occurrence]);
        index := index + step.additional;
      } else if step.Refused? {
        record := record.(issues := record.issues + [step.issue]);
      }
      index := index + 1;
      assert index == next && record == recorded;
    }
  }

  lemma {:induction false} RunSplits(trail: Trail, record: Record)
    ensures Run(trail, record)
         == Record(StoreAll(record.options, Occurrences(trail)),
                   record.occurrences + Occurrences(trail), record.issues + Issues(trail))
  {
    match trail
    case Done =>
    case Then(step, rest) =>
      RunSplits(rest, Recorded(step, record));
      match step
      case Taken(occurrence, _) =>
        assert ([occurrence] + Occurrences(rest))[1..] == Occurrences(rest);
      case _ =>
  }
}
