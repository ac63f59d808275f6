# Launch-guard analysers, modelled in Dafny

iOSLaunchTimeOPT has a few small static checkers for things that slow down an
iOS app's launch, plus a helper script for link-order files. This project
models them:

- **The SwiftSyntax scanner** (`LaunchGuardSyntax`, in `launch_guard_syntax.dfy`).
  It walks a Swift file. In every global or `static` variable initializer, and
  in every `init` body, it reports each call whose type and method are on a
  blacklist (`Data.init`, `CryptoHelper.performExpensiveSyncOperation`). Each
  report is printed as `path:line:column: warning: [rule] Potential expensive
  call 'Base.name(labels:)' found.`
- **The two SwiftLint rules** (`SwiftLintRules`, in `launch_guard_lint.dfy`).
  `expensive_initializer` and `expensive_init_method` look at the same places
  and record positions, not text. The init-method rule also records every
  member access whose text contains a blacklisted method name.
- **The clang plugin** (`ClangRules` and `LaunchGuardPlugin`).
  - One rule warns about `NSFileManager` selectors (`fileExistsAtPath:`,
    `createDirectoryAtPath:withIntermediateDirectories:attributes:error:`) sent
    inside a class method `+load`.
  - The other warns about `[Bugly startWithAppId:]`.
  - The AST consumer registers both rules, initializes them, and fans every
    method declaration and message expression out to each of them in turn. It
    finalizes the rules when it is destroyed.
- **The order-file generator** (`OrderFile`, in `order_file.dfy`). It reads a
  raw symbol list, strips each line, and drops empty lines and `[OrderFile]`
  log lines. It keeps the first occurrence of each symbol, in order, and writes
  one symbol per line.

Support modules:

- `Wrappers`: `Option`.
- `Text`: joining, decimal rendering, substring search and Python's
  `str.strip`.
- `SwiftAst`: the closed set of Swift syntax nodes the analysers look at. A call carries its labelled arguments and its trailing closures. A pattern binding carries an optional initializer and an optional accessor block. Walks descend into both.
- `ApiBlacklist`: the shared dictionary of expensive APIs.

Each visitor is a class. Its recorded violations (or the diagnostics engine's
warnings) are a `seq` field that its methods append to. Every method is proved
against a recursive specification function, such as `CallsIn`, `PositionsIn`,
`ViolationsIn` or `LoadRuleWarnings`. Lemmas then state what those functions
mean: exactly which calls are reported, that nothing is missed, and that every
report comes from a real call.

## Model

| member | source | states |
|---|---|---|
| `Text.Strip` | scripts/generate_order_file.py:24 | the result is the input with the maximal run of Python whitespace removed at both ends; a non-empty result begins and ends with a non-space |
| `Text.NatToString` | docs/02_analysis_tools/swift/swiftSyntax/main.swift:62-64 | a line or column prints as a non-empty run of decimal digits with no leading zero |
| `Text.ParseNatToString` | docs/02_analysis_tools/swift/swiftSyntax/main.swift:64 | the printed number reads back as the same number |
| `Text.JoinThenSeparator` | docs/02_analysis_tools/swift/swiftSyntax/main.swift:117 | joining the labels with ':' and then appending one ':' when there are any labels is the same as terminating every label with ':' |
| `Text.MemberInQualifiedText` | docs/02_analysis_tools/swift/swiftlint/CustomRules.swift:192-194 | the text `base.member` always contains `member` |
| `Text.SubstringNoLonger` | docs/02_analysis_tools/swift/swiftlint/CustomRules.swift:194 | a text contains nothing longer than itself |
| `SwiftAst.Leftmost` | docs/02_analysis_tools/swift/swiftSyntax/main.swift:88-91 | following `.base` through member accesses ends at something that is not a member access (or at nothing) |
| `SwiftAst.AccessorBlockIsChild` | docs/02_analysis_tools/swift/swiftSyntax/main.swift:32-44 | a binding's accessor block is one of its declaration's children, so walks below the declaration reach it |
| `SwiftAst.LeftmostOfChain` | docs/02_analysis_tools/swift/swiftSyntax/main.swift:88-91 | for any chain `root.a.b…`, the loop stops exactly at `root` |
| `ApiBlacklist.ExpensiveApisWellFormed` | docs/02_analysis_tools/swift/swiftSyntax/main.swift:9-12 | the blacklist has two distinct keys: `Data` with {`init`}, and `CryptoHelper` with {`performExpensiveSyncOperation`} |
| `ApiBlacklist.Lookup` | docs/02_analysis_tools/swift/swiftSyntax/main.swift:114 | the dictionary lookup is absent iff no entry has that key; otherwise it returns that entry's method set |
| `ApiBlacklist.MatchesExactly` | docs/02_analysis_tools/swift/swiftSyntax/main.swift:114 | a (base, name) pair matches iff some entry has key `base` and contains `name` |
| `ApiBlacklist.FlatMembers` | docs/02_analysis_tools/swift/swiftlint/CustomRules.swift:193 | the flattened values hold exactly the method names of all entries |
| `LaunchGuardSyntax.ResolveCallee` | docs/02_analysis_tools/swift/swiftSyntax/main.swift:83-104 | the loop-based resolution of base and function name equals the recursive definition `Resolve` |
| `LaunchGuardSyntax.ResolveMemberChain` | docs/02_analysis_tools/swift/swiftSyntax/main.swift:84-97 | for a member access over any chain, the name is the member. A base exists iff the chain's root is an identifier or an identifier type, and it is that root's name |
| `LaunchGuardSyntax.Describe` | docs/02_analysis_tools/swift/swiftSyntax/main.swift:117 | the description is `base.name(` then each label (`_` when unlabeled) terminated by ':' then `)` |
| `LaunchGuardSyntax.ArgumentLabels` | docs/02_analysis_tools/swift/swiftSyntax/main.swift:107-110 | one label per argument, in argument order |
| `LaunchGuardSyntax.CallCheckExact` | docs/02_analysis_tools/swift/swiftSyntax/main.swift:112-125 | a call yields at most one violation. It yields one iff the callee is a member access with a resolved base that is a blacklist key whose set holds the member. The violation sits at the call and carries its description |
| `LaunchGuardSyntax.BareCalleeNeverReports` | docs/02_analysis_tools/swift/swiftSyntax/main.swift:120-124 | a call whose callee is not a member access is never reported (the no-base branch does nothing) |
| `LaunchGuardSyntax.CallCheckIgnoresLabels` | docs/02_analysis_tools/swift/swiftSyntax/main.swift:115-116 | argument labels never decide whether a call is reported |
| `LaunchGuardSyntax.CallsInComplete` | docs/02_analysis_tools/swift/swiftSyntax/main.swift:127 | every violating call anywhere inside the walked subtree is among the collected violations |
| `LaunchGuardSyntax.TrailingClosureWalked` | docs/02_analysis_tools/swift/swiftSyntax/main.swift:127 | the calls inside a trailing closure are among those collected for the call that carries it |
| `LaunchGuardSyntax.CallsInSound` | docs/02_analysis_tools/swift/swiftSyntax/main.swift:118 | every collected violation comes from a call inside the walked subtree |
| `LaunchGuardSyntax.NonSensitiveVariableReportsNothing` | docs/02_analysis_tools/swift/swiftSyntax/main.swift:27-30 | a variable that is neither global nor `static` produces no report |
| `LaunchGuardSyntax.MissingLocationPrintsZero` | docs/02_analysis_tools/swift/swiftSyntax/main.swift:61-65 | without a location the warning prints line 0 and column 0, in the fixed warning format |
| `LaunchGuardSyntax.DescribeNoArguments` | docs/02_analysis_tools/swift/swiftSyntax/main.swift:117 | a call with no arguments is described with `()` |
| `LaunchGuardSyntax.DescribeUnlabeledThenLabeled` | docs/02_analysis_tools/swift/swiftSyntax/main.swift:117 | an unlabeled argument shows as `_:` before the next label |
| `LaunchGuardSyntax.DescribeContentsOf` | docs/02_analysis_tools/swift/swiftSyntax/main.swift:117 | `Data.init(contentsOf:)` is described as exactly that |
| `LaunchGuardSyntax.DataInitCallReported` | docs/02_analysis_tools/swift/swiftSyntax/main.swift:113-119 | an explicit `Data.init(contentsOf: url)` is reported once, at the call, as `Data.init(contentsOf:)` |
| `LaunchGuardSyntax.CryptoCallReported` | docs/02_analysis_tools/swift/swiftSyntax/main.swift:107-119 | `CryptoHelper.performExpensiveSyncOperation()` is reported once, at the call, with `()`; trailing closures do not change that, since labels come from the arguments only |
| `LaunchGuardSyntax.BareDataCallIgnored` | docs/02_analysis_tools/swift/swiftSyntax/main.swift:99-104 | `Data(contentsOf: url)` is not reported: its callee is a bare identifier, so no base is resolved |
| `LaunchGuardSyntax.ChainRootDecidesBase` | docs/02_analysis_tools/swift/swiftSyntax/main.swift:88-93 | in `self.helper.performExpensiveSyncOperation()` the base is `self`, which is not on the blacklist, so nothing is reported |
| `LaunchGuardSyntax.CallExprVisitor.constructor` | docs/02_analysis_tools/swift/swiftSyntax/main.swift:74-75 | a new call visitor has no violations |
| `LaunchGuardSyntax.CallExprVisitor.VisitFunctionCall` | docs/02_analysis_tools/swift/swiftSyntax/main.swift:77-128 | visiting a call appends exactly that call's violations |
| `LaunchGuardSyntax.CallExprVisitor.Walk` | docs/02_analysis_tools/swift/swiftSyntax/main.swift:74-136 | walking a subtree appends the violations of all calls in it, in pre-order |
| `LaunchGuardSyntax.CallExprVisitor.WalkChildren` | docs/02_analysis_tools/swift/swiftSyntax/main.swift:127 | walking the children in order appends the violations of each child's subtree in turn |
| `LaunchGuardSyntax.LaunchGuardVisitor.constructor` | docs/02_analysis_tools/swift/swiftSyntax/main.swift:19-24 | the visitor keeps the file path and location converter and has printed nothing |
| `LaunchGuardSyntax.LaunchGuardVisitor.PrintViolation` | docs/02_analysis_tools/swift/swiftSyntax/main.swift:61-65 | prints exactly one formatted warning line |
| `LaunchGuardSyntax.LaunchGuardVisitor.PrintViolations` | docs/02_analysis_tools/swift/swiftSyntax/main.swift:37-41 | prints one line per violation, in order, under the given rule name |
| `LaunchGuardSyntax.LaunchGuardVisitor.VisitVariableDecl` | docs/02_analysis_tools/swift/swiftSyntax/main.swift:26-45 | a global or static declaration prints the "Expensive Initializer" reports of every binding's initializer; any other declaration prints nothing |
| `LaunchGuardSyntax.LaunchGuardVisitor.VisitBinding` | docs/02_analysis_tools/swift/swiftSyntax/main.swift:32-43 | a binding with an initializer prints the violations found in that value; one without prints nothing |
| `LaunchGuardSyntax.LaunchGuardVisitor.VisitInitializerDecl` | docs/02_analysis_tools/swift/swiftSyntax/main.swift:47-59 | an `init` with a body prints the "Expensive Init Method" reports of the body; one without a body prints nothing |
| `LaunchGuardSyntax.LaunchGuardVisitor.Walk` | docs/02_analysis_tools/swift/swiftSyntax/main.swift:26-59 | walking a subtree prints the reports of every declaration in it, with nested declarations visited as children |
| `LaunchGuardSyntax.InitializerReportsComplete` | docs/02_analysis_tools/swift/swiftSyntax/main.swift:47-59 | every `init` with a body anywhere in the walked tree, whatever encloses it, has all its reports among the walk's |
| `LaunchGuardSyntax.AccessorInitializerChecked` | docs/02_analysis_tools/swift/swiftSyntax/main.swift:26-59 | an `init` inside a property's accessor block is checked by the walk of that property's declaration |
| `LaunchGuardSyntax.StaticVariableReportsComplete` | docs/02_analysis_tools/swift/swiftSyntax/main.swift:26-45 | every `static` variable anywhere in the walked tree, whatever encloses it, has all its reports among the walk's |
| `LaunchGuardSyntax.LaunchGuardVisitor.WalkChildren` | docs/02_analysis_tools/swift/swiftSyntax/main.swift:44 | children are visited in source order, each child's output following the previous one's |
| `LaunchGuardSyntax.AnalyzeFile` | docs/02_analysis_tools/swift/swiftSyntax/main.swift:147-152 | the scanner's output for a file is the rendering of all reports of the tree |
| `SwiftLintRules.ExtractCallInfo` | docs/02_analysis_tools/swift/swiftlint/CustomRules.swift:14-33 | the recursive, loop-based extraction equals the specification `CallInfoOf` |
| `SwiftLintRules.CallInfoLooksThroughCalls` | docs/02_analysis_tools/swift/swiftlint/CustomRules.swift:15-16 | a called call (`f()()`, `a.b()()`) gives the same information as its innermost callee |
| `SwiftLintRules.CallInfoAgreesWithScanner` | docs/02_analysis_tools/swift/swiftlint/CustomRules.swift:17-31 | extraction succeeds iff the scanner resolves a name, with the same name. The bases agree, except that a type-expression root gives the scanner a base and the rules none |
| `SwiftLintRules.CallPositionsExact` | docs/02_analysis_tools/swift/swiftlint/CustomRules.swift:89-102 | a call records at most one position, namely its own. It does so iff its innermost callee is a member access whose root identifier is a blacklist key holding the member |
| `SwiftLintRules.CallPositionsAgreeWithScanner` | docs/02_analysis_tools/swift/swiftlint/CustomRules.swift:90-94 | outside type roots and called calls, the rules record a call exactly when the scanner reports it |
| `SwiftLintRules.BareCallNeverRecorded` | docs/02_analysis_tools/swift/swiftlint/CustomRules.swift:95-99 | a call on a bare identifier is never recorded (the no-base branch does nothing) |
| `SwiftLintRules.MemberHits` | docs/02_analysis_tools/swift/swiftlint/CustomRules.swift:191-200 | a member access records its position, and only it, exactly as many times as there are blacklisted names its trimmed text contains; nothing iff it contains none |
| `SwiftLintRules.QualifiedMemberAccessRecorded` | docs/02_analysis_tools/swift/swiftlint/CustomRules.swift:108-114 | `Base.member` for a blacklisted member is recorded by the init-method rule's member check and never by the initializer rule's |
| `SwiftLintRules.PositionsInComplete` | docs/02_analysis_tools/swift/swiftlint/CustomRules.swift:179-201 | whatever any node inside the walked subtree records appears among the subtree's positions (as a multiset) |
| `SwiftLintRules.InitMethodRecordsCallTwice` | docs/02_analysis_tools/swift/swiftlint/CustomRules.swift:179-201 | a blacklisted `Base.member()` is recorded once at the call by the initializer rule. The init-method rule records the call, then the member access once per blacklisted name in `Base.member`, so at least twice |
| `SwiftLintRules.AccessOnIdentifierPositions` | docs/02_analysis_tools/swift/swiftlint/CustomRules.swift:191-200 | a member access on an identifier records only what the access itself records |
| `SwiftLintRules.OneArgumentCallPositions` | docs/02_analysis_tools/swift/swiftlint/CustomRules.swift:179-201 | walking `base.member(label: x)` records the call's own position, if any, then the member access's hits |
| `SwiftLintRules.DataInitCallRecorded` | docs/02_analysis_tools/swift/swiftlint/CustomRules.swift:89-102 | a call through `Data.init` is recorded at the call |
| `SwiftLintRules.MemberHitsFirstOfTwo` | docs/02_analysis_tools/swift/swiftlint/CustomRules.swift:193-197 | with two blacklisted names, a text that holds the first and is shorter than the second is recorded exactly once |
| `SwiftLintRules.DataInitMemberHits` | docs/02_analysis_tools/swift/swiftlint/CustomRules.swift:191-198 | `Data.init` contains `init` but not `performExpensiveSyncOperation`, so its access is recorded exactly once |
| `SwiftLintRules.OneArgumentCallRecordedTwice` | docs/02_analysis_tools/swift/swiftlint/CustomRules.swift:179-201 | under the init-method rule, a recorded one-argument call whose member access holds exactly one blacklisted name is recorded exactly twice, at the call and then at the access |
| `SwiftLintRules.InitMethodRecordsDataInitTwice` | docs/02_analysis_tools/swift/swiftlint/CustomRules.swift:179-201 | with the installed blacklist, the init-method rule records `Data.init(contentsOf: url)` exactly twice: at the call, then at `Data.init` |
| `SwiftLintRules.RulesSplitDeclarations` | docs/02_analysis_tools/swift/swiftlint/CustomRules.swift:168-172 | the initializer rule only reports at variable declarations, without a reason. The init-method rule only reports at `init` declarations, always with its fixed reason |
| `SwiftLintRules.InitViolationsComplete` | docs/02_analysis_tools/swift/swiftlint/CustomRules.swift:162-175 | every `init` anywhere in the file, whatever encloses it, has all its violations among the init-method rule's |
| `SwiftLintRules.StaticViolationsComplete` | docs/02_analysis_tools/swift/swiftlint/CustomRules.swift:63-82 | every `static` declaration anywhere in the file, whatever encloses it, has all its violations among the initializer rule's |
| `SwiftLintRules.BindingViolationsHaveNoReason` | docs/02_analysis_tools/swift/swiftlint/CustomRules.swift:71-80 | violations from variable bindings carry no reason |
| `SwiftLintRules.SingleBindingViolations` | docs/02_analysis_tools/swift/swiftlint/CustomRules.swift:63-82 | a global or static declaration with one initialized binding reports exactly the positions recorded in that value |
| `SwiftLintRules.SharedInstanceNotReported` | docs/02_analysis_tools/swift/swiftlint/CustomRules.swift:46 | `static let shared = MyManager()` is not reported |
| `SwiftLintRules.GlobalValueNotReported` | docs/02_analysis_tools/swift/swiftlint/CustomRules.swift:45 | `let globalValue = 10`, a global whose value holds no call, is not reported |
| `SwiftLintRules.QualifiedCallRecordedOnce` | docs/02_analysis_tools/swift/swiftlint/CustomRules.swift:89-102 | under the initializer rule, a blacklisted `Base.member()` records only the call's position |
| `SwiftLintRules.StaticCryptoResultReported` | docs/02_analysis_tools/swift/swiftlint/CustomRules.swift:51 | `static let cryptoResult = CryptoHelper.performExpensiveSyncOperation()` yields one violation at the call |
| `SwiftLintRules.DataContentsOfNotRecorded` | docs/02_analysis_tools/swift/swiftlint/CustomRules.swift:50 | `Data(contentsOf: url)` records nothing under either rule, although the rules list it as triggering |
| `SwiftLintRules.CallPositionVisitor.constructor` | docs/02_analysis_tools/swift/swiftlint/CustomRules.swift:86-87 | a new call visitor has recorded no positions |
| `SwiftLintRules.CallPositionVisitor.VisitFunctionCall` | docs/02_analysis_tools/swift/swiftlint/CustomRules.swift:182-190 | visiting a call appends exactly the positions the call check records |
| `SwiftLintRules.CallPositionVisitor.VisitMemberAccess` | docs/02_analysis_tools/swift/swiftlint/CustomRules.swift:191-200 | the loop over all blacklisted names appends the access's position once per name its text contains |
| `SwiftLintRules.CallPositionVisitor.VisitNode` | docs/02_analysis_tools/swift/swiftlint/CustomRules.swift:179-201 | a node appends its call positions, plus its member-access hits for the init-method rule only |
| `SwiftLintRules.CallPositionVisitor.Walk` | docs/02_analysis_tools/swift/swiftlint/CustomRules.swift:86-115 | walking a subtree appends the positions of every node in it, in pre-order |
| `SwiftLintRules.CallPositionVisitor.WalkChildren` | docs/02_analysis_tools/swift/swiftlint/CustomRules.swift:101 | children are walked in order, appending each child's positions in turn |
| `SwiftLintRules.RuleVisitor.constructor` | docs/02_analysis_tools/swift/swiftlint/CustomRules.swift:57-59 | a new rule visitor has no violations |
| `SwiftLintRules.RuleVisitor.AppendViolations` | docs/02_analysis_tools/swift/swiftlint/CustomRules.swift:168-172 | one violation per recorded position, in order, each carrying the given reason |
| `SwiftLintRules.RuleVisitor.VisitVariableDecl` | docs/02_analysis_tools/swift/swiftlint/CustomRules.swift:63-82 | a global or static declaration appends the positions recorded in each binding's initializer; any other appends nothing |
| `SwiftLintRules.RuleVisitor.VisitBinding` | docs/02_analysis_tools/swift/swiftlint/CustomRules.swift:71-80 | a binding with an initializer appends the positions recorded in its value; one without appends nothing |
| `SwiftLintRules.RuleVisitor.VisitInitializerDecl` | docs/02_analysis_tools/swift/swiftlint/CustomRules.swift:162-175 | an `init` with a body appends one reasoned violation per position recorded in the body |
| `SwiftLintRules.RuleVisitor.Walk` | docs/02_analysis_tools/swift/swiftlint/CustomRules.swift:62-83 | walking a subtree appends the violations of every declaration the rule looks at |
| `SwiftLintRules.RuleVisitor.WalkChildren` | docs/02_analysis_tools/swift/swiftlint/CustomRules.swift:81 | children are visited in order, each appending after the previous one |
| `SwiftLintRules.Validate` | docs/02_analysis_tools/swift/swiftlint/CustomRules.swift:156-158 | running a rule over a file gives exactly the rule's violations for the whole tree |
| `ClangRules.DiagnosticsEngine.ReportWarning` | src/clang_plugin/DiagnosticRule.h:76-79 | reporting a warning appends exactly one warning with that location and message |
| `ClangRules.LoadRuleWarnings` | src/clang_plugin/LoadMethodFileManagerRule.cpp:51-87 | a message produces at most one warning |
| `ClangRules.LoadRuleWarnsExactly` | src/clang_plugin/LoadMethodFileManagerRule.cpp:51-87 | a warning is issued iff all three hold: the enclosing method is a class method `load`; the receiver is `NSFileManager` or an instance of it; the selector is one of the targets. The warning sits at the message and reads prefix, selector, suffix |
| `ClangRules.LoadRuleIgnoresRepeatedTargets` | src/clang_plugin/LoadMethodFileManagerRule.cpp:76-84 | listing the targets twice changes nothing, because the loop stops at the first match |
| `ClangRules.InstalledLoadTargets` | src/clang_plugin/LoadMethodFileManagerRule.cpp:16-30 | with the installed targets, an `NSFileManager` message in `+load` warns iff its selector is `fileExistsAtPath:` or `createDirectoryAtPath:withIntermediateDirectories:attributes:error:` |
| `ClangRules.LoadMethodFileManagerRule.constructor` | src/clang_plugin/LoadMethodFileManagerRule.cpp:8-9 | a new rule is outside `+load`, has no targets and reports to the given engine |
| `ClangRules.LoadMethodFileManagerRule.Initialize` | src/clang_plugin/LoadMethodFileManagerRule.cpp:16-30 | initialization appends the two target selectors and changes nothing else |
| `ClangRules.LoadMethodFileManagerRule.Finalize` | src/clang_plugin/DiagnosticRule.h:45 | finalization changes no rule state |
| `ClangRules.LoadMethodFileManagerRule.VisitObjCMethodDecl` | src/clang_plugin/LoadMethodFileManagerRule.cpp:32-49 | the in-`+load` flag is set by a class method `load` and is never cleared; traversal always continues |
| `ClangRules.LoadMethodFileManagerRule.VisitObjCMessageExpr` | src/clang_plugin/LoadMethodFileManagerRule.cpp:51-87 | the target loop with its early exit appends exactly the rule's warnings for the message; traversal always continues |
| `ClangRules.FlagAfterSticky` | src/clang_plugin/LoadMethodFileManagerRule.cpp:32-49 | after a run of method declarations the flag is set iff it was set before or one of them is `+load` |
| `ClangRules.SyncRuleWarnings` | src/clang_plugin/MainThreadSyncSDKRule.cpp:27-51 | a message produces at most one warning |
| `ClangRules.SyncRuleWarnsExactly` | src/clang_plugin/MainThreadSyncSDKRule.cpp:27-51 | a warning is issued iff some target has the receiver's interface name and the message's selector. The message reads prefix, class name, ` +` or ` -`, selector, suffix |
| `ClangRules.SyncRuleNeedsReceiverInterface` | src/clang_plugin/MainThreadSyncSDKRule.cpp:29-33 | without a receiver interface nothing is reported |
| `ClangRules.InstalledSyncTarget` | src/clang_plugin/MainThreadSyncSDKRule.cpp:15-25 | with the installed target, a message warns iff it is `startWithAppId:` sent to `Bugly` |
| `ClangRules.MainThreadSyncSDKRule.constructor` | src/clang_plugin/MainThreadSyncSDKRule.cpp:8-9 | a new rule has no targets and reports to the given engine |
| `ClangRules.MainThreadSyncSDKRule.Initialize` | src/clang_plugin/MainThreadSyncSDKRule.cpp:15-25 | initialization appends the Bugly target |
| `ClangRules.MainThreadSyncSDKRule.Finalize` | src/clang_plugin/DiagnosticRule.h:45 | finalization changes no rule state |
| `ClangRules.MainThreadSyncSDKRule.VisitObjCMethodDecl` | src/clang_plugin/DiagnosticRule.h:53 | the inherited default always continues |
| `ClangRules.MainThreadSyncSDKRule.VisitObjCMessageExpr` | src/clang_plugin/MainThreadSyncSDKRule.cpp:27-51 | the target loop with its early exit appends exactly the rule's warnings; traversal always continues |
| `LaunchGuardPlugin.AllContinueIffEvery` | src/clang_plugin/LaunchGuardPlugin.cpp:25-33 | the combined answer is true iff every rule answered true |
| `LaunchGuardPlugin.DispatchWarningsBound` | src/clang_plugin/LaunchGuardPlugin.cpp:35-43 | one message yields at most one warning per registered rule |
| `LaunchGuardPlugin.LaunchGuardAstConsumer.constructor` | src/clang_plugin/LaunchGuardPlugin.cpp:56-68 | the consumer holds two fresh rules, load rule first, each initialized once with its targets; no warning is issued |
| `LaunchGuardPlugin.LaunchGuardAstConsumer.RegisterRules` | src/clang_plugin/LaunchGuardPlugin.cpp:91-104 | registration installs a new load rule and a new sync rule, in that order, sharing the consumer's engine |
| `LaunchGuardPlugin.LaunchGuardAstConsumer.InitializeRules` | src/clang_plugin/LaunchGuardPlugin.cpp:64-67 | every registered rule is initialized exactly once, and nothing else about it changes |
| `LaunchGuardPlugin.LaunchGuardAstConsumer.FinalizeRules` | src/clang_plugin/LaunchGuardPlugin.cpp:70-76 | every registered rule is finalized exactly once, and its state is otherwise unchanged |
| `LaunchGuardPlugin.LaunchGuardAstConsumer.VisitObjCMethodDecl` | src/clang_plugin/LaunchGuardPlugin.cpp:25-33 | every rule sees the declaration; the load rule's flag is updated; every rule answers true, so the answer, their conjunction, is true and traversal continues |
| `LaunchGuardPlugin.LaunchGuardAstConsumer.VisitObjCMessageExpr` | src/clang_plugin/LaunchGuardPlugin.cpp:35-43 | the engine receives each rule's warnings in registration order; every rule answers true, so the answer, their conjunction, is true and traversal continues |
| `LaunchGuardPlugin.DispatchMessage` | src/clang_plugin/LaunchGuardPlugin.cpp:37-41 | one rule's visit appends exactly that rule's warnings, computed from its configuration |
| `OrderFile.SymbolSound` | scripts/generate_order_file.py:24-26 | every kept symbol is some stripped input line that is non-empty and lacks the `[OrderFile]` prefix |
| `OrderFile.SymbolComplete` | scripts/generate_order_file.py:24-26 | every stripped line that is non-empty and lacks the prefix is kept |
| `OrderFile.DedupCorrect` | scripts/generate_order_file.py:28-30 | de-duplication keeps exactly the same elements, with no repeats, in order of first occurrence |
| `OrderFile.DedupOfNoRepeats` | scripts/generate_order_file.py:28-30 | a list without repeats is left unchanged |
| `OrderFile.OrderedSymbolsExactly` | scripts/generate_order_file.py:22-30 | the output holds a string iff it is a symbol and the stripped form of some input line; no symbol appears twice |
| `OrderFile.CollectSymbols` | scripts/generate_order_file.py:18-30 | the reading loop with its seen-set computes the first-occurrence order of the kept symbols |
| `OrderFile.AddSymbol` | scripts/generate_order_file.py:26-30 | a new symbol is appended and added to the seen set; a repeat or a skipped line changes nothing; the seen set stays the set of written symbols |
| `OrderFile.ConsiderSymbol` | scripts/generate_order_file.py:26-30 | the set-based membership test gives the same result as de-duplicating the longer list |
| `OrderFile.WriteOrderFile` | scripts/generate_order_file.py:35-37 | the written file is each symbol followed by a newline, in order |
| `OrderFile.GenerateOrderFile` | scripts/generate_order_file.py:8-44 | it succeeds iff the raw file exists and no I/O error occurs. On success the order file holds the rendered symbols; on failure none is produced |
| `OrderFile.LineEnd` | scripts/generate_order_file.py:23 | a line read from a file ends just after its first newline, or at the end of the text |
| `OrderFile.ReadBackRendered` | scripts/generate_order_file.py:35-37 | reading a written order file back yields each symbol with its newline |
| `OrderFile.StripOfStripped` | scripts/generate_order_file.py:24 | stripping a string that does not begin or end with whitespace leaves it unchanged |
| `OrderFile.StripOfStrippedLine` | scripts/generate_order_file.py:24 | stripping such a string followed by a newline gives the string back |
| `OrderFile.StrippedFileLineIsWritable` | scripts/generate_order_file.py:24-26 | a symbol stripped from a file line contains no newline and no edge whitespace |
| `OrderFile.KeptSymbolsOfFileLinesWritable` | scripts/generate_order_file.py:22-26 | every symbol kept from file lines can be written and read back unchanged |
| `OrderFile.KeptSymbolsOfWritten` | scripts/generate_order_file.py:22-37 | reading back the written lines keeps exactly the written symbols |
| `OrderFile.GeneratorIdempotent` | scripts/generate_order_file.py:8-44 | running the generator on its own output gives the same order file |

## Left out

- Command-line handling and exit codes. This covers the scanner's argument check and parse-error path (docs/02_analysis_tools/swift/swiftSyntax/main.swift:139-156), the script's `argparse` entry point, and the plugin action, argument parsing and registry entry. Their progress messages (`llvm::outs`, `print`) are left out too.
- Parsing Swift and Objective-C. The model takes syntax trees as values.
  - The SwiftSyntax `SourceLocationConverter` is a map from positions to line and column.
  - clang's `getAncestorOfType`, `getReceiverInterface` and the instance receiver's pointer type are fields of the message expression.
- The SwiftSyntax and clang visitor machinery is replaced by explicit `Walk` methods.
  - A Swift walk visits every node in pre-order, and every handler continues into children.
  - The plugin's `HandleTranslationUnit` traversal (src/clang_plugin/LaunchGuardPlugin.cpp:79-83) is not modelled. The order in which clang's traversal calls the two dispatchers is clang's, and the model's lemmas take any sequence of calls.
- Global variables are modelled as direct children of the file node. Real SwiftSyntax puts a `CodeBlockItem` between the file and a top-level statement. So `node.parent is SourceFileSyntax` would be false for every top-level declaration, and the global check would never fire. The model follows the evident intent.
- A missing modifier list counts as empty (the `?? false` in docs/02_analysis_tools/swift/swiftlint/CustomRules.swift:66). Modifiers are names, and `static` is matched by name.
- Swift dictionaries and sets are ordered lists here. Only the flattened name order in the init-method rule's member check could depend on that order, and every position it records is the same, so the recorded list does not depend on it.
- `String.contains` with an empty needle (Swift says false, the model's substring says true). No blacklisted name is empty, so this cannot arise.
- ClangRules.LoadMethodFileManagerRule.Initialize: the `createDirectoryAtPath:` target is modelled as the intended four-keyword selector. src/clang_plugin/LoadMethodFileManagerRule.cpp:27 passes an `IdentifierInfo *` where `Selectors.getSelector` takes an `IdentifierInfo **`, so that line does not compile as written.
- ClangRules.InstalledLoadTargets: states the intended behaviour, not the code as written. The `fileExistsAtPath:` target is a one-argument selector built from an identifier that itself ends in a colon (src/clang_plugin/LoadMethodFileManagerRule.cpp:22-23). The selector of a real `fileExistsAtPath:` message has the identifier without the colon, so the equality at line 77 never holds for it. The model compares selectors by their spelled text, so the target matches.
- ClangRules.InstalledSyncTarget: states the intended behaviour, not the code as written. The `startWithAppId:` target is built the same way from `"startWithAppId:"` (src/clang_plugin/MainThreadSyncSDKRule.cpp:20-21), so the comparison at line 39 never holds for a real `[Bugly startWithAppId:]`. The model compares selectors by their spelled text.
- Swift compares strings by extended grapheme cluster with canonical equivalence. That applies to `==`, dictionary lookup (docs/02_analysis_tools/swift/swiftSyntax/main.swift:114) and `String.contains` (docs/02_analysis_tools/swift/swiftlint/CustomRules.swift:194). The model compares sequences of code points. The two agree on the ASCII names of the blacklist, but not on text with combining marks.
- clang's `DiagnosticsEngine` is reduced to a list of warnings it has received, with custom diagnostic IDs left out.
- The rules' `getName` strings are left out: nothing in the core reads them.
- The order-file generator's file system is parameters: whether the raw file exists, its lines, and whether an I/O error occurs.
  - Python's universal-newline translation is left out.
  - A write error that happens after part of the file is written is reported as no file, not as a partial file.
  - Console messages are left out.
- The context files (the launch-time tracker and reporter, the Mach-O `+load` scanner, the app delegate and tests) are not part of this model.
- Both SwiftLint rules list `Data(contentsOf: url)` as a triggering example (docs/02_analysis_tools/swift/swiftlint/CustomRules.swift:50 and 142). The code as written never records it, because a bare `Data` callee has no base. The model follows the code; `SwiftLintRules.DataContentsOfNotRecorded` and `LaunchGuardSyntax.BareDataCallIgnored` state the outcome.
