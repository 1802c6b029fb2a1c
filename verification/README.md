# Verified models of the workspace's hard parts

This project models seven parts of the repository in Dafny and proves what each of them is for.
`dafny verify dfyconfig.toml` checks everything.

**BlendScript** (`packages/blendscript/src`), the expression language, is modelled from source text to result.
`Basics` has options and a few notions used everywhere. `Text` has strings as sequences of 16-bit code units. `Syntax` has
tokens, trees, diagnostics and limits.
`Lexer`, `Parser`, `Analyzer`, `Records`, `Evaluator` and `Pipeline` hold the code: loops over a cursor, a parser class
with a shared cursor and nesting counter, a checker class that collects references and diagnostics, and an
interpreter class that counts steps. Each method is proved against a specification function. The other modules hold what
those specifications are worth:

* `LexerLaws`: the lexer accepts a source exactly when tokens tile it, and what its tokens carry. `Words`, `Decimals`,
  `StringForms`: what words, symbols, numbers and string literals stand for, character by character. `LexFailures`: where
  and why a source fails to lex.
* `Grammar`, `Positions`, `Derivations`: derivation trees of the layered grammar and where they stand in a stream.
  `ParserSteps`, `ParserSound`, `ParserComplete`, `ParserLaws`: the proof that the parser accepts exactly what they
  derive, with a unique tree. `ParserLocal`, `ParserStops`, `RejectionLaws`: where and why it rejects everything else, said
  by the grammar alone. `TreeLaws`: size, spans and literals of parsed trees. `BuiltinNames`: the words that name built-ins.
* `Spelling`, `Layout`, `Render`: writing a tree with as few parentheses as its precedences allow, and reading it back.
  `RoundTrip`: the same for the tree of any accepted source.
* `Types`, `AnalyzerLaws`: a typing judgement without diagnostics, and the proof that the analyzer decides it.
  `SmallestLaws`, `CodeOrder`: the problems it reports otherwise are the twenty smallest, and in which order. `TypeTables`:
  the typing tables by the values they let through.
* `Semantics`, `Soundness`: an unmetered meaning with a list of charges, the proof that metering only cuts it off,
  type soundness, null precision, non-interference and the work bound.
  `Meanings`: what every operator and built-in comes to, value by value.
* `Diagnostics`: lines, columns and excerpts.

**Publication order** (`scripts/lockstep.ts`) is `Lockstep`: Kahn's algorithm over a graph with repeated edges.

**Session refresh** (`packages/webafx-auth`) is `Refresh`, `RefreshAlone`, `RefreshLaws`, `RefreshGrants`, `RefreshTokens`,
`RefreshRetries` and `RefreshCarries`: single flight, grants, session store and rotation as steps between two awaits. A run
is any sequence of steps, and a step whose turn it is not changes nothing, so statements about all runs cover all
interleavings.
`Coalescing` and `CoalescingLaws` are the public `refreshToken` on its own, where any number of calls may meet on one grant.

**Transactions** (`packages/postgresql`) is `Transactions` and `TransactionLaws`: pooled clients, the queue of each
client, transactions, queries on and off their call chains, in the same style. `TransactionHistory` follows one transaction
through such a run and compares it with the sequential program.

**Command lines** (`packages/cmdline`) is `Arguments`, `ArgumentLaws`, `ArgumentValues`, `ArgumentVerdicts`, `Suggestions` and
`SuggestionLaws`: recognising options and commands in two passes, and the budgeted search for a similar name.

**Token introspection** (`packages/webafx-auth`) is `Introspection`, `IntrospectionLaws` and `IntrospectionAnswers`: the cache
in order of use, its expiry, and the calls that read and fill it.

The JavaScript runtime and other foreign parts are parameters: `Number`, `String(n)` and case mapping, the edit
distance, answers of the identity provider and of the database server, clock readings, fresh ids.

One documented claim is false of the code. The comment on `computeCacheTtl` says that a cached entry never outlives its
token; `IntrospectionLaws.EntryCanOutliveToken` gives an input where it does, `EntryOutlivesToken` says of any run and any
response when the stored entry does, and `AnswersAreLive` shows that no expired answer comes of it.

## Model

| member | source | states |
|---|---|---|
| Lexer.Lex | packages/blendscript/src/lexer.ts:79-376 | the tokenizing loop computes the recursive scan, with the source and token limits and every lexical failure at its place; `Words`, `Decimals`, `StringForms` and `LexFailures` say what that scan gives |
| Lexer.ReadString | packages/blendscript/src/lexer.ts:124-263 | the string loop decodes escapes and surrogate pairs as the scan of characters does, and fails where it fails |
| Lexer.ReadField | packages/blendscript/src/lexer.ts:264-305 | the bracketed name with doubled closing brackets, its length limit and missing bracket |
| LexerLaws.LexingIsTiling | packages/blendscript/src/lexer.ts:103-376 | lexing yields a token list if and only if its tokens lie in order on the source, each the one determined by its start, with whitespace between, within the limits |
| LexerLaws.TokenSpans | packages/blendscript/src/lexer.ts:116-376 | spans are ordered and disjoint, the stream ends in its only end of file, payloads are within limits and of the form of their kind, and every non-space code unit is covered |
| LexerLaws.StringWellFormed | packages/blendscript/src/lexer.ts:124-263 | whatever mixture of escapes and raw code units a string is written with, its decoded text has no lone surrogate |
| LexFailures.LexingFailsFirst | packages/blendscript/src/lexer.ts:79-376 | a source fails to lex if and only if it is too long, or tokens and whitespace lead to a token that cannot be read or is one too many, with the diagnostic of that token |
| LexFailures.StringFails | packages/blendscript/src/lexer.ts:124-260 | after any well-formed beginning, a string fails at the end of the source or a line break from its quote on, and at half a surrogate pair or a bad escape with just that |
| LexFailures.StringTooLong | packages/blendscript/src/lexer.ts:244-251 | the piece that takes a string past its limit ends the failing span |
| LexFailures.FieldFails | packages/blendscript/src/lexer.ts:265-301 | a field fails without its bracket, without a name, and at the unit that takes its name past the limit |
| LexFailures.NumberFails | packages/blendscript/src/lexer.ts:307-313 | a decimal that runs on into letters, digits, underscores or points is malformed up to their end |
| LexFailures.NumberIsRead | packages/blendscript/src/lexer.ts:314-320 | any other decimal is one number token if the runtime reads its text as a finite number, and invalid if not |
| Words.WordKinds | packages/blendscript/src/lexer.ts:48-56 | a word is each of the seven keywords if and only if it has its letters in any mixture of cases, and any other word is an identifier; with the value it carries |
| Words.WordIsScanned | packages/blendscript/src/lexer.ts:322-334 | the longest run of letters, digits and underscores after a first letter or underscore is one word |
| Words.SymbolIsScanned | packages/blendscript/src/lexer.ts:336-372 | any other character is the longest symbol there, or invalid |
| Words.LetterEscapes | packages/blendscript/src/lexer.ts:146-217 | the seven escapes by a letter or a quote or backslash, and every other one refused with its span |
| Words.NumberedEscapes | packages/blendscript/src/lexer.ts:159-209 | four hexadecimal digits in either case stand for the unit they number, and a lone half of a pair is refused with its span |
| Words.PairedEscapes | packages/blendscript/src/lexer.ts:171-199 | an escaped high half takes the escaped low half after it along, or is refused together with what is there instead |
| Words.BrokenEscapes | packages/blendscript/src/lexer.ts:159-168 | without four digits the escape is refused up to where they would end, or the end of the source |
| Words.BrokenSecondHalf | packages/blendscript/src/lexer.ts:180-188 | the same of the second half of a pair, from that half on |
| StringForms.AnyStringScans | packages/blendscript/src/lexer.ts:124-263 | raw characters, raw pairs and all escapes, mixed at will between quotes, are one string token with the units they stand for |
| Decimals.DecimalIsLongest | packages/blendscript/src/number-parsing.ts:1-8 | the scanner finds a sign, digits with a point, and an exponent as the pattern allows them, no longer one starts there, and it finds none if and only if there is none |
| Decimals.CompleteDecimal | packages/blendscript/src/number-parsing.ts:14-19 | a text is a decimal in full if and only if the scanner takes all of it |
| Parser.TokenParser.ParsePrimary | packages/blendscript/src/parser.ts:74-141 | literals, fields, calls and groups as specified, the cursor at the end of the phrase and the nesting counter restored |
| Parser.TokenParser.ParseCall | packages/blendscript/src/parser.ts:97-127 | a call counts one nesting level around its arguments and ends at its closing parenthesis |
| Parser.TokenParser.ParseComparison | packages/blendscript/src/parser.ts:171-212 | one comparison or IN list, never a chain |
| Parser.TokenParser.ParseOr | packages/blendscript/src/parser.ts:230-244 | the loop builds the left-leaning tree of the specification |
| Parser.Parse | packages/blendscript/src/parser.ts:29-256 | a whole stream gives the specified tree or the diagnostic at the offending token |
| ParserLaws.AcceptedIsDerived | packages/blendscript/src/parser.ts:51-249 | every accepted token array whose only end of file is its last token has a derivation that spells it within the nesting limit and denotes the returned tree |
| ParserLaws.DerivedIsAccepted | packages/blendscript/src/parser.ts:51-249 | every derivation within the nesting limit of such a token array is accepted, with the tree it denotes, up to the end of file |
| ParserLaws.ParserMeetsGrammar | packages/blendscript/src/parser.ts:51-249 | on any token array whose only end of file is its last token, the parser returns a tree if and only if the layered grammar derives the whole array as that tree |
| ParserLaws.GrammarIsUnambiguous | packages/blendscript/src/parser.ts:143-244 | two derivations of the same tokens denote the same expression, however deeply nested |
| RejectionLaws.RejectedWhere | packages/blendscript/src/parser.ts:46-249 | the tokens before the one at which a stream is rejected begin some derivation within the nesting limit, together with it they begin none; the nesting limit is what was passed if and only if a deeper derivation begins with them |
| RejectionLaws.RejectionIsDetermined | packages/blendscript/src/parser.ts:29-249 | a stream is rejected with a diagnostic if and only if nothing derives it and the diagnostic is that of the token after its longest viable beginning |
| ParserLocal.OrLocal | packages/blendscript/src/parser.ts:74-244 | two streams with the same first tokens are parsed alike as far as these go, and so is one with more room for nesting, unless room was what was missing |
| ParserStops.OrStops | packages/blendscript/src/parser.ts:74-244 | wherever a phrase fails, the tokens before that begin a derivation for it within the limit, and with the token that passed the limit one beyond it |
| BuiltinNames.NamesInAnyCase | packages/blendscript/src/builtins.ts:19-119 | a word names a built-in if and only if it has the letters of its name, in any mixture of cases |
| TreeLaws.ParsedTrees | packages/blendscript/src/parser.ts:67-244 | a parsed tree has fewer nodes than tokens, its spans nest with siblings from left to right, and its literals are within the string limit |
| Layout.WrittenLexes | packages/blendscript/src/lexer.ts:124-376 | spelled tokens separated by spaces are lexed back as the same kinds and values |
| Render.SourceRoundTrip | packages/blendscript/src/parser.ts:74-244 | a tree written with doubled brackets, escapes and only the needed parentheses is lexed and parsed back to itself up to spans, within the limits |
| Render.TreeRoundTrip | packages/blendscript/src/lexer.ts:48-376 | any derivation, whatever parentheses it has and whether AND, OR and NOT are words in any case or symbols, is lexed and parsed back as the expression it denotes, up to spans |
| RoundTrip.ParsedIsReadable | packages/blendscript/src/parser.ts:51-249 | the tree of any accepted stream can be written and read back but for its numbers, in no more tokens and no deeper nesting than the limits allow |
| RoundTrip.ParseRenderParse | packages/blendscript/src/api.ts:27-41 | the tree of any accepted source, written out, is lexed and parsed again as the same tree up to spans, if the runtime reads back the numbers it prints and the text is not too long |
| Analyzer.Checker.AddDiagnostic | packages/blendscript/src/analyzer.ts:94-106 | a new diagnostic joins the sorted list, the largest leaving it when there are more than twenty; a repeated one changes nothing |
| Analyzer.Checker.VisitExpr | packages/blendscript/src/analyzer.ts:108-242 | the recursive visit has the findings and the type of the specification |
| Analyzer.Analyze | packages/blendscript/src/analyzer.ts:73-275 | the verdict on an expression, a schema and an expected result is the specified one |
| SmallestLaws.PushPopKeepsSmallest | packages/blendscript/src/analyzer.ts:85-106 | sorting and popping at every report keeps the twenty smallest of everything reported |
| SmallestLaws.SmallestIsUnique | packages/blendscript/src/analyzer.ts:85-106 | there is one sorted list of the smallest diagnostics of a set |
| CodeOrder.OrderOfDiagnostics | packages/blendscript/src/analyzer.ts:85-92 | diagnostics are ordered by start, then end, then the alphabetical order of the names of their codes |
| TypeTables.ArgumentTable | packages/blendscript/src/analyzer.ts:58-70 | an argument suits a parameter if and only if every value of its type other than null is one of the parameter's; the null literal where null is accepted |
| TypeTables.OperandTable | packages/blendscript/src/analyzer.ts:153-188 | AND and OR want operands all of whose values are Boolean where not null, orderings numbers, and equality two types with the same values or a null literal beside a type that may be null |
| TypeTables.LiteralTable | packages/blendscript/src/analyzer.ts:37-42 | a literal has the type of exactly its own kind of value, and only the null literal may be null |
| TypeTables.ExpectedTable | packages/blendscript/src/analyzer.ts:248-259 | an expected type is met by a type with exactly the same values, so by no nullable one |
| TypeTables.ParameterTable | packages/blendscript/src/builtins.ts:19-104 | the declared parameters of a built-in are exactly the values it takes without an internal error; `isEmpty` declares less than it takes |
| TypeTables.NullTable | packages/blendscript/src/builtins.ts:19-104 | null is declared as accepted exactly where the built-in has an answer for it |
| TypeTables.ResultTable | packages/blendscript/src/builtins.ts:19-104 | the declared result type is that of every result but null, and nullable exactly where null is a result |
| AnalyzerLaws.AnalysisVerdict | packages/blendscript/src/analyzer.ts:108-275 | analysis reports the leftmost bare built-in, else the twenty smallest distinct problems in order, else accepts with the judged type and the references |
| AnalyzerLaws.AcceptsExactlyTyped | packages/blendscript/src/analyzer.ts:108-275 | acceptance if and only if the typing judgement types the expression as expected and no bare built-in occurs |
| AnalyzerLaws.ReferencesAreFirstMentions | packages/blendscript/src/analyzer.ts:113-139 | the references are the mentioned fields without repetition, in order of first mention |
| Records.SnapshotRecord | packages/blendscript/src/input-validation.ts:210-295 | the values of all declared fields, or the diagnostic of the first field that fails its check |
| Records.FieldIsItsSlot | packages/blendscript/src/input-validation.ts:221-294 | a field is accepted with a value if and only if that is the value in the slot and of the declared type; a refusal names the field, as missing exactly without a slot and as too long exactly for a long text |
| Records.AcceptedConforms | packages/blendscript/src/input-validation.ts:210-295 | an accepted record holds for every declared field a value of its type, null only where allowed, strings within the limit |
| Evaluator.Interpreter.Charge | packages/blendscript/src/evaluator.ts:42-51 | the step counter grows by the amount or the step-limit failure is raised and it stays |
| Evaluator.Interpreter.Visit | packages/blendscript/src/evaluator.ts:66-137 | the tree walk returns the metered result and leaves the metered step count |
| Evaluator.Interpreter.CallBuiltin | packages/blendscript/src/builtins.ts:149-208 | argument checks, work charge and result of every built-in in that order |
| Evaluator.Interpreter.CountCodePoints | packages/blendscript/src/builtins.ts:202-206 | stepping over the text counts its code points, surrogate pairs once |
| Meanings.LeafMeans | packages/blendscript/src/evaluator.ts:69-78 | literals and fields have their own values |
| Meanings.FirstFailureWins | packages/blendscript/src/evaluator.ts:85-111 | a failure of the left operand is that of the whole, and a failure of the right one where it is visited |
| Meanings.OrderingMeans | packages/blendscript/src/evaluator.ts:103-111 | the four orderings are the order of the operands' numbers |
| Meanings.EqualityMeans | packages/blendscript/src/evaluator.ts:100-102 | equality is equality of values, of any type and null, and inequality its negation |
| Meanings.MembershipMeans | packages/blendscript/src/evaluator.ts:113-119 | membership holds if and only if some member has the candidate's value |
| Meanings.NotMeans | packages/blendscript/src/evaluator.ts:79-84 | the truth table of NOT, and null refused |
| Meanings.AndMeans | packages/blendscript/src/evaluator.ts:87-99 | the truth table of AND, the right side counting only after a true left |
| Meanings.OrMeans | packages/blendscript/src/evaluator.ts:87-99 | the truth table of OR, the right side counting only after a false left |
| Meanings.ArgumentsMean | packages/blendscript/src/evaluator.ts:120-122 | a call sees the values of its arguments in order, or fails as the first that fails |
| Meanings.NullArguments | packages/blendscript/src/builtins.ts:128-141 | a null first argument fails every built-in that refuses it |
| Meanings.ContainsMeans | packages/blendscript/src/builtins.ts:181-188 | contains: the text splits around the search text |
| Meanings.AffixMeans | packages/blendscript/src/builtins.ts:181-188 | startsWith and endsWith: some rest completes the text after or before the search text |
| Meanings.EqualsIgnoreCaseMeans | packages/blendscript/src/builtins.ts:189-196 | equalsIgnoreCase: the lowered texts are equal, unless one became too long |
| Meanings.CaseMeans | packages/blendscript/src/builtins.ts:197-201 | lower and upper: the text in that case, unless it became too long |
| Meanings.TrimMeans | packages/blendscript/src/builtins.ts:199-199 | trim: the text between the whitespace at both ends |
| Meanings.LengthMeans | packages/blendscript/src/builtins.ts:202-206 | length: the code units less the surrogate pairs |
| Meanings.EmptyMeans | packages/blendscript/src/builtins.ts:170-180 | isEmpty: null or the empty text; isBlank: null or nothing but whitespace |
| Meanings.TryNumberMeans | packages/blendscript/src/builtins.ts:154-163 | tryNumber: a number as it is, the number of a text that is a decimal in full, else null |
| Meanings.TextMeans | packages/blendscript/src/builtins.ts:164-169 | text: a text as it is, a number as the runtime prints it |
| Meanings.TwoTextsCost | packages/blendscript/src/builtins.ts:184-192 | comparing two texts costs their lengths, without case also the longer one again |
| Meanings.OneValueCosts | packages/blendscript/src/builtins.ts:154-206 | a call on one text costs its length, `text` of a number that of what it prints, any other nothing |
| Semantics.EvalSpends | packages/blendscript/src/evaluator.ts:66-139 | metered evaluation from any count is the plain meaning paid for charge by charge |
| Semantics.BudgetRefinement | packages/blendscript/src/evaluator.ts:42-51 | the plain result when all charges fit 10,000 steps, otherwise the step-limit failure at the first charge that crosses it; never more steps spent |
| Soundness.TypeSoundness | packages/blendscript/src/evaluator.ts:66-139 | on a conforming record a well-typed expression never reaches an internal error; it yields a value of its type or a failure blamed on one of its nodes |
| Soundness.BuiltinSound | packages/blendscript/src/builtins.ts:128-208 | on suitable arguments a built-in gives its declared result, a null failure only with a null argument it refuses, a string-limit failure only where case mapping can lengthen |
| Soundness.NeverFailsOnNull | packages/blendscript/src/evaluator.ts:52-111 | without nullable fields and `tryNumber` an accepted expression never fails on null |
| Soundness.NonInterference | packages/blendscript/src/evaluator.ts:71-78 | records that agree on the referenced fields give the same result and the same step count, failures included |
| Soundness.WorkWithinSize | packages/blendscript/src/evaluator.ts:66-119 | an expression without calls costs at most one step per node |
| Pipeline.CompileExpression | packages/blendscript/src/api.ts:27-41 | lexing, parsing and analysis in order, the first failure deciding |
| Pipeline.EvaluatePayload | packages/blendscript/src/evaluator.ts:22-30 | a record is either rejected by its first bad field or evaluated under its accepted values by name |
| Pipeline.CompiledPayload | packages/blendscript/src/api.ts:73-90 | compilation never ends without a verdict; a payload is typed, bounded in size and lists its references |
| Pipeline.EndToEnd | packages/blendscript/src/evaluator.ts:22-149 | a compiled expression on an accepted record gives a value of its type or a justified failure, and the step limit only if it calls a built-in |
| Pipeline.OnlyReferencesMatter | packages/blendscript/src/analyzer.ts:113-139 | two accepted records with equal values in the listed references have the same outcome |
| Diagnostics.PositionAt | packages/blendscript/src/diagnostics.ts:15-35 | the scan gives one more than the line breaks that begin before the offset, and one more than the code units since the last one |
| Diagnostics.PositionsAreFaithful | packages/blendscript/src/diagnostics.ts:38-47 | positions of a span are in order, and two offsets share one only around the line feed of a pair |
| Diagnostics.ExcerptShowsStart | packages/blendscript/src/diagnostics.ts:57-61 | the excerpt is as long as allowed and shows the start of the span |
| Lockstep.BuildGraph | scripts/lockstep.ts:313-327 | every package has as dependents, in order and with repetition, the packages that list it, and names outside the workspace have no entry |
| Lockstep.TopoSort | scripts/lockstep.ts:253-286 | an order is a permutation of the names with every edge forward, and failure happens if and only if there is a cycle |
| Lockstep.PublicationOrder | scripts/lockstep.ts:297-327 | the same for the graph built from distinct packages |
| Lockstep.OrderHasNoCycle | scripts/lockstep.ts:253-286 | a forward order rules out every cycle |
| Refresh.RefreshSingleFlight.Run | packages/webafx-auth/src/oidc-refresh.ts:67-85 | the running execution of the key, or a new one that is then registered |
| Refresh.RefreshSingleFlight.Settle | packages/webafx-auth/src/oidc-refresh.ts:78-84 | a settled execution removes its own entry and no other |
| RefreshAlone.SessionProvider.GetSession | packages/webafx-auth/src/oidc-auth-provider.ts:1126-1138 | a stored session before its deadline, else nothing and the entry is gone |
| RefreshAlone.SessionProvider.ExecuteSessionRefresh | packages/webafx-auth/src/oidc-refresh.ts:119-171 | outcome and store of one refresh, for every answer of the identity provider, with and without rotation |
| RefreshAlone.UndisturbedRefresh | packages/webafx-auth/src/oidc-refresh.ts:119-171 | the steps of the protocol, left alone, do what the program text does |
| RefreshLaws.OneExecutionPerSession | packages/webafx-auth/src/oidc-refresh.ts:67-85 | in every run at most one execution per session id is unsettled |
| RefreshLaws.JoinedCallersShareOutcome | packages/webafx-auth/src/oidc-refresh.ts:67-85 | a request during an unsettled execution joins it and at any later time has the answer all its joined callers have |
| RefreshLaws.AnswersAreFinal | packages/webafx-auth/src/oidc-refresh.ts:67-85 | an answer a request has got is the same after any further events |
| RefreshLaws.DeadlineIsFinal | packages/webafx-auth/src/oidc-auth-provider.ts:1104-1138 | in every run a session is handed out with the stamp of its login's first store, and only before that stamp plus the absolute lifetime |
| RefreshLaws.StampNeverChanges | packages/webafx-auth/src/oidc-auth-provider.ts:1104-1118 | with an absolute lifetime configured, along any run two stored copies of one login, under whatever ids and however many refreshes apart, carry the same creation stamp |
| RefreshGrants.OneOpenGrantPerToken | packages/webafx-auth/src/oidc-refresh.ts:67-85 | in every run of the refresh protocol and with any identity provider, no refresh token has two grants that wait for an answer |
| Coalescing.GrantRegistry.Enter | packages/webafx-auth/src/oidc-auth-provider.ts:772-786 | a call gets the registered grant of its tenant and token, or registers a new one |
| Coalescing.GrantRegistry.Leave | packages/webafx-auth/src/oidc-auth-provider.ts:787-792 | the entry goes away without a look at it, and no other does |
| CoalescingLaws.ConcurrentCallsShare | packages/webafx-auth/src/oidc-auth-provider.ts:736-793 | in every run of calls, answers and returns, a call that comes before the starter of a grant for its tenant and token has returned sends none, and all calls on that grant return the same tokens or the same rejection |
| CoalescingLaws.OneOpenGrantPerKey | packages/webafx-auth/src/oidc-auth-provider.ts:763-793 | at most one grant for a tenant and token has a starter that has not returned |
| CoalescingLaws.StartsWhenClosed | packages/webafx-auth/src/oidc-auth-provider.ts:763-793 | a call sends a grant of its own if and only if every earlier grant for its tenant and token has been returned by its starter |
| CoalescingLaws.OnlyStarterRemoves | packages/webafx-auth/src/oidc-auth-provider.ts:786-793 | an entry stays until the call that started its grant returns, and is then gone even if the grant was rejected |
| CoalescingLaws.CallsDoMeet | packages/webafx-auth/src/oidc-auth-provider.ts:736-793 | a run in which calls join a grant before and after its rejection, all get that rejection, and the next call sends a new grant |
| RefreshRetries.RetryFollowsFailure | packages/webafx-auth/src/oidc-refresh.ts:119-171 | with fresh refresh tokens per grant, a token is presented a second time only after the program saw its earlier grant fail, lost answers included |
| RefreshCarries.StoresWhatWasGranted | packages/webafx-auth/src/oidc-refresh.ts:130-171 | in every run, what an execution stores carries the access token, the new refresh and ID tokens or else the old ones, and the expiry of a grant for the refresh token of the session it read, a new CSRF token where it gets a new id, and else what that session had |
| RefreshTokens.NoTokenRedeemedTwice | packages/webafx-auth/src/oidc-refresh.ts:119-171 | with fresh refresh tokens per grant, no token is redeemed twice in any run, with or without rotation of session ids |
| RefreshTokens.RestingTokenIsUnspent | packages/webafx-auth/src/oidc-refresh.ts:135-171 | outside a refresh of its session the store holds no used-up token |
| RefreshTokens.OtherUser | packages/webafx-auth/src/oidc-refresh.ts:124-137 | in every run, no grant is in flight or unanswered for a token another execution has just read |
| Transactions.RunTransaction | packages/postgresql/src/database.ts:292-335 | for every outcome of BEGIN, callback, COMMIT and ROLLBACK: the statements sent, one release, destroyed exactly after a failed BEGIN or ROLLBACK, otherwise no transaction open, context closed |
| TransactionLaws.ReleasedExactlyOnce | packages/postgresql/src/database.ts:264-335 | in every run an acquired client is released once, when its call ends, and never before |
| TransactionLaws.NoClientLeaks | packages/postgresql/src/database.ts:264-335 | a client that is out belongs to exactly one call, which has not ended |
| TransactionLaws.ReuseIsClean | packages/postgresql/src/database.ts:299-335 | a client goes back for reuse only with no transaction open and nothing queued |
| TransactionHistory.EndsByItsFate | packages/postgresql/src/database.ts:292-335 | in every run, the commands carried out for an ended transaction are, in order and with their answers, those the sequential program asks for the same outcomes of BEGIN, callback, COMMIT and ROLLBACK; its one release destroys the client exactly when that program does; it succeeded if and only if BEGIN, callback and COMMIT did; and without a client nothing was asked |
| TransactionHistory.CallbackDecides | packages/postgresql/src/database.ts:304-318 | in every run COMMIT is on its way only after the callback succeeded, ROLLBACK only after the callback or COMMIT failed, and neither before BEGIN succeeded |
| TransactionLaws.StatementsRunWhereTheyBelong | packages/postgresql/src/database.ts:447-483 | every statement the server carried out ran on a client that was out: for a callback the one its transaction holds, inside that transaction, for any other query its own, outside every transaction |
| TransactionLaws.NestedNeverStarts | packages/postgresql/src/database.ts:270-277 | in every run a transaction asked for on the chain of another has failed, holds no client and has nothing queued for it |
| TransactionLaws.ActiveQueryRuns | packages/postgresql/src/database.ts:447-483 | a query on the chain of a running callback whose hook throws is refused and never runs; any other one is, whatever happens next, waiting with its statement on the transaction's client or carried out there inside the transaction, and does not end before that |
| TransactionLaws.AnswersDrain | packages/postgresql/src/database.ts:447-483 | while the callback runs, answers of its client carry out the queued queries one by one in the order they were asked |
| TransactionLaws.LateQueryNeverRuns | packages/postgresql/src/database.ts:447-483 | a query on the chain of a transaction whose callback is over is refused, and in no later run is a statement carried out for it |
| Arguments.CreateArgumentRegistry | packages/cmdline/src/argument-parser.ts:111-147 | in every table the first declared owner of a spelling keeps it, and only a single default command is the default |
| Arguments.CreateOptionLookup | packages/cmdline/src/argument-parser.ts:408-427 | the table holds for every key the first option declared with it |
| Arguments.SelectCommand | packages/cmdline/src/argument-parser.ts:348-387 | the scanning loop selects as the specification does, with global and default options |
| Arguments.ParseArguments | packages/cmdline/src/argument-parser.ts:171-259 | the two passes together give the specified result for some selection made by the scan |
| ArgumentValues.OptionIsAsSpelled | packages/cmdline/src/argument-parser.ts:457-489 | an argument that begins with a dash is read as an option if and only if it is `--name`, `--name=value`, `-n`, `-n=value` or `-nvalue` of that name and value |
| ArgumentValues.OptionTakesItsValue | packages/cmdline/src/argument-parser.ts:491-541 | which text an option takes, attached or from the next argument, and the flag, number or text it stands for; a Boolean option without one is true, any other has no value |
| ArgumentVerdicts.OccurrencesAreJustified | packages/cmdline/src/argument-parser.ts:171-259 | every recognised option is spelled by its argument, visible at its place, and has the value its text stands for, or is a flag without one |
| ArgumentVerdicts.IssuesAreJustified | packages/cmdline/src/argument-parser.ts:171-259 | every issue is of the kind its argument calls for: malformed where nothing is spelled or a value is missing, an unknown option where none is visible, an unknown command where the scan stopped, else unexpected |
| ArgumentLaws.ArgumentsAreConserved | packages/cmdline/src/argument-parser.ts:160-259 | every argument is exactly one of the command, a recognised option, the value of one option, or one issue |
| ArgumentLaws.DecidingArgumentIsRead | packages/cmdline/src/argument-parser.ts:165-259 | the main pass comes to the argument the scan decided on and recognises it there, although the scan also knows the default command's options |
| ArgumentLaws.IssuesAscend | packages/cmdline/src/argument-parser.ts:251-258 | issues come out strictly increasing by index |
| ArgumentLaws.LeadingOptionsAreGlobal | packages/cmdline/src/argument-parser.ts:202-217 | an occurrence is the global option of its spelling if there is one, and before the command there is |
| ArgumentLaws.DefaultCommandTakesAll | packages/cmdline/src/argument-parser.ts:348-387 | when no command is named, every issue is a malformed argument or an unknown option |
| ArgumentLaws.RepeatedValuesCollect | packages/cmdline/src/argument-parser.ts:544-559 | repeatable values are stored in order, after those of an earlier list and in place of anything else |
| ArgumentLaws.StoredSinceSingle | packages/cmdline/src/argument-parser.ts:544-559 | when single and repeatable options share a name, stored are the repeatable values since the last single one, or that one if none followed |
| ArgumentLaws.EveryListSplits | packages/cmdline/src/argument-parser.ts:544-559 | every list of occurrences is covered by one of these two laws |
| ArgumentLaws.LastValueWins | packages/cmdline/src/argument-parser.ts:544-559 | any other option keeps the last value given under its name |
| Suggestions.PrepareCandidates | packages/cmdline/src/suggestions.ts:151-156 | the candidates of eligible length, each once, with their compared form |
| Suggestions.FindUniqueBest | packages/cmdline/src/suggestions.ts:165-190 | the loop finds the near candidate nearer than all others, and nothing on a tie |
| Suggestions.SuggestionMatcher.Find | packages/cmdline/src/suggestions.ts:115-148 | suggestion, usage and cache after one find |
| SuggestionLaws.FilterLosesNothing | packages/cmdline/src/suggestions.ts:159-162 | the length filter drops no candidate that could win or tie |
| SuggestionLaws.WorkIsBounded | packages/cmdline/src/suggestions.ts:124-146 | over any sequence of finds by all matchers of a session, lookups and comparisons stay within their limits |
| SuggestionLaws.SuggestionIsNearest | packages/cmdline/src/suggestions.ts:115-190 | a suggestion, cached or not, is the unique nearest of all prepared candidates; with budget left the answer is always the exhaustive one |
| SuggestionLaws.SuggestionIsClosest | packages/cmdline/src/suggestions.ts:158-190 | a suggestion is one step away, or two when both spellings have eight units, and fewer steps than every other such candidate |
| Introspection.IntrospectionCache.Get | packages/webafx-auth/src/introspection-auth-provider.ts:205-221 | a live entry is returned and becomes the newest, an expired one is deleted |
| Introspection.IntrospectionCache.Set | packages/webafx-auth/src/introspection-auth-provider.ts:229-246 | a lifetime above zero stores the entry as the newest and evicts from the oldest; any other does nothing |
| Introspection.FromResponse | packages/webafx-auth/src/introspection-auth-provider.ts:417-436 | an active and usable response is stored and mapped, any other answers nothing and stores nothing |
| IntrospectionLaws.RunAgrees | packages/webafx-auth/src/introspection-auth-provider.ts:187-252 | in every run the ordered map holds what a cache that dates every use holds, in order of last use |
| IntrospectionLaws.SizeIsBounded | packages/webafx-auth/src/introspection-auth-provider.ts:229-246 | the cache never holds more than its limit |
| IntrospectionLaws.EvictionFollowsUse | packages/webafx-auth/src/introspection-auth-provider.ts:240-246 | no entry is evicted while one used less recently stays |
| IntrospectionLaws.HitsAreLastStored | packages/webafx-auth/src/introspection-auth-provider.ts:205-246 | a hit is what the last effective set for its endpoint, client and token stored, before its expiry |
| IntrospectionLaws.AnswersAreLive | packages/webafx-auth/src/introspection-auth-provider.ts:401-475 | cached or fresh, an answer is unexpired at its whole second, meets the audience of its own call, and is an active response to the same endpoint, client and token |
| IntrospectionAnswers.AnsweredExactly | packages/webafx-auth/src/introspection-auth-provider.ts:401-480 | a call is answered if and only if its response is active, or cached, meets the configured audience if there is one, and is unexpired at every check |
| IntrospectionLaws.OutlivesLessThanASecond | packages/webafx-auth/src/introspection-auth-provider.ts:162-171 | an entry outlives its token by less than a second plus the time between the two clock readings |
| IntrospectionLaws.StoredIsPresent | packages/webafx-auth/src/introspection-auth-provider.ts:229-246 | after any run, a response that is stored is in the cache with its own end and nothing evicts it at once, if the cache may hold an entry at all |
| IntrospectionLaws.EntryOutlivesToken | packages/webafx-auth/src/introspection-auth-provider.ts:162-171 | after any run and for any two clock readings, the cache holds an entry past its token's end if and only if the response is stored, the cache may hold entries, the second reading is later than the whole second of the first, and the configured lifetime counted from the second reaches past that end; for a response that is not stored, if and only if it did before |
| IntrospectionLaws.EntryCanOutliveToken | packages/webafx-auth/src/introspection-auth-provider.ts:151-171 | an input for which the documented bound fails |

## Left out

Things the repository does and the model does not:

- JavaScript numbers: values are reals, `Number(text)` and `String(n)` are parameters, and results that are not finite count as absent.
- SuggestionLaws.SuggestionIsNearest: case mapping and the distance are parameters; this, `SuggestionIsClosest` and `FilterLosesNothing` need that lowercasing keeps the length and that a distance is at least the difference of the lengths.
- Render.SourceRoundTrip: names are rendered in brackets, and bare only when they are identifiers too long for them; numbers are those that the runtime prints in a form it reads back.
- Soundness.TypeSoundness: this and what follows from it need that `String(n)` is never longer than the string limit.
- Diagnostic messages: codes, spans, positions and the excerpt only.
- Property descriptors beyond their kind, prototypes, freezing and the compiled handle; `compiled-expression.ts` is not part of this model.
- The built-in names are an enumeration after parsing, not strings, so that a lookup at run time cannot miss.
- An identifier longer than 256 code units is a field like any other, as in the lexer; the field name limit is only checked in brackets.
- Validation of options and schema (`snapshotOptions`) beyond the entries it yields.
- `Array.sort` is modelled as insertion into the sorted list, or by its effect.
- Lockstep: manifests, versions, git and publishing; the order among independent packages is not specified.
- Refresh: a logout or an expiry in the store is a deletion at any moment and nothing is claimed about its effect on a running refresh; store failures; several tenants; sessions stored before an absolute lifetime was configured; cookies and HTTP.
- RefreshTokens.NoTokenRedeemedTwice: assumes an identity provider that sends a new refresh token with every grant and a store that does not fail; a grant whose answer is lost counts as refused, and not as redeemed, which leaves `RetryFollowsFailure` for it.
- Transactions: shutdown, isolation levels and SQL text; statements are taken not to begin or end transactions themselves; an exception from `release` counts as a release.
- Transactions.RunTransaction: the callback's own statements are not part of the sequential form; the interleaved model has them.
- `findLegacyCommandIndex`, the legacy token path of the command line, help output and validators.
- Arguments.ParseArguments: options stored under names that collide with `Object.prototype` members.
- Suggestions.SuggestionSession.constructor: limits that are not finite.
- Coalescing: what a grant sends and checks, and how the configuration of a call is resolved.
- Introspection: the HTTP request, hashing (keys are taken as distinct for distinct endpoint, client and token), `claimsMapper` and the principal type.
- dbcore, expression, codegen, authz, i18n, stdlib and the remaining packages.
