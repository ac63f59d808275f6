/**
 * The standalone launch-guard scanner (docs/02_analysis_tools/swift/swiftSyntax/main.swift).
 *
 * `LaunchGuardVisitor` walks a whole file. A variable declaration whose
 * parent is the file, or that carries `static`, is sensitive: each of its
 * bindings' initializer values is scanned by a fresh `CallExprVisitor`. Every
 * initializer body is scanned the same way. The call visitor resolves each
 * function call to a (base, name) pair, matches it exactly against the
 * blacklist and describes each hit as `Base.name(label:...)`; the file
 * visitor prints one warning line per hit.
 *
 * The functions `Resolve`, `CallCheck`, `CallsIn` and `ReportsIn` are the
 * reference definitions the visitors' methods are proved against.
 */
module LaunchGuardSyntax {
  import opened Wrappers
  import opened Text
  import opened SwiftAst
  import opened ApiBlacklist

  /** A called expression resolved to its base name and called name, either possibly unknown. */
  datatype ResolvedCall = ResolvedCall(base: Option<string>, name: Option<string>)

  /** A blacklisted call found by the call visitor: the call's position and its description. */
  datatype CallViolation = CallViolation(position: nat, callDescription: string)

  /** A line and column as the location converter gives them; either may be unknown. */
  datatype SourceLocation = SourceLocation(line: Option<nat>, column: Option<nat>)

  /** A warning before rendering: the rule that found it and the call it is about. */
  datatype Report = Report(rule: string, violation: CallViolation)

  const InitializerRule := "Expensive Initializer"
  const InitMethodRule := "Expensive Init Method"

  // ---------------------------------------------------------------- resolution

  /** The name a fully unwrapped receiver contributes: an identifier, or an identifier type. */
  function BaseIdentifier(receiver: Option<Syntax>): Option<string>
  {
    if receiver.None? then None
    else match receiver.value
      case DeclReference(name) => Some(name)
      case TypeExpr(IdentifierType(name)) => Some(name)
      case _ => None
  }

  /** Reference resolution of a called expression. */
  function Resolve(callee: Syntax): ResolvedCall
  {
    match callee
    case MemberAccess(base, declName, _, _) => ResolvedCall(BaseIdentifier(Leftmost(base)), Some(declName))
    case DeclReference(name) => ResolvedCall(None, Some(name))
    case _ => ResolvedCall(None, None)
  }

  /** The resolution step of `visit(FunctionCallExprSyntax)`, with its unwrapping loop. */
  method ResolveCallee(callee: Syntax) returns (baseName: Option<string>, funcName: Option<string>)
    ensures ResolvedCall(baseName, funcName) == Resolve(callee)
  {
    baseName := None;
    funcName := None;
    if callee.MemberAccess? {
      funcName := Some(callee.declName);
      var currentBase := callee.base;
      while currentBase.Some? && currentBase.value.MemberAccess?
        invariant Leftmost(currentBase) == Leftmost(callee.base)
        decreases currentBase
      {
        currentBase := currentBase.value.base;
      }
      if currentBase.Some? && currentBase.value.DeclReference? {
        baseName := Some(currentBase.value.baseName);
      } else if currentBase.Some? && currentBase.value.TypeExpr? && currentBase.value.typeSyntax.IdentifierType? {
        baseName := Some(currentBase.value.typeSyntax.name);
      }
    } else if callee.DeclReference? {
      funcName := Some(callee.baseName);
      baseName := None;
    }
  }

  /**
   * Chain unwrapping: the called name is the outermost member, and the base
   * is the chain's root when that root is an identifier or an identifier
   * type; any other root, or an implicit one (`.foo()`), gives no base.
   */
  lemma ResolveMemberChain(callee: Syntax, root: Option<Syntax>)
    requires IsAccessChainOver(callee, root)
    requires root.None? || !root.value.MemberAccess?
    ensures Resolve(callee).name == Some(callee.declName)
    ensures Resolve(callee).base == BaseIdentifier(root)
    ensures Resolve(callee).base.Some? <==>
      root.Some? && (root.value.DeclReference? || (root.value.TypeExpr? && root.value.typeSyntax.IdentifierType?))
  {
    LeftmostOfChain(callee, root);
  }

  // ---------------------------------------------------------------- description

  function LabelTexts(labels: seq<Option<string>>): seq<string>
  {
    seq(|labels|, i requires 0 <= i < |labels| => labels[i].GetOr("_"))
  }

  /** The argument labels of a call, in order. */
  function LabelsOf(arguments: seq<LabeledExpr>): seq<Option<string>>
  {
    seq(|arguments|, i requires 0 <= i < |arguments| => arguments[i].argLabel)
  }

  /**
   * `base.name(l1:l2:...:)`: every label (or `_` for an unlabeled argument)
   * followed by a colon, and `()` for a call without arguments.
   */
  function Describe(base: string, name: string, labels: seq<Option<string>>): (desc: string)
    ensures desc == base + "." + name + "(" + Terminated(LabelTexts(labels), ":") + ")"
  {
    JoinThenSeparator(LabelTexts(labels), ":");
    base + "." + name + "(" + Join(LabelTexts(labels), ":") + (if |labels| == 0 then "" else ":") + ")"
  }

  /** The label-collecting loop of `visit(FunctionCallExprSyntax)`. */
  method ArgumentLabels(arguments: seq<LabeledExpr>) returns (labels: seq<Option<string>>)
    ensures |labels| == |arguments|
    ensures forall i :: 0 <= i < |arguments| ==> labels[i] == arguments[i].argLabel
  {
    labels := [];
    for i := 0 to |arguments|
      invariant |labels| == i
      invariant forall j :: 0 <= j < i ==> labels[j] == arguments[j].argLabel
    {
      labels := labels + [arguments[i].argLabel];
    }
  }

  // ---------------------------------------------------------------- matching

  /** What `visit(FunctionCallExprSyntax)` appends for one call node. */
  function CallCheck(bl: Blacklist, call: Syntax): seq<CallViolation>
    requires call.FunctionCall?
  {
    var r := Resolve(call.calledExpression);
    if r.base.Some? && r.name.Some? && Matches(bl, r.base.value, r.name.value)
    then [CallViolation(call.position, Describe(r.base.value, r.name.value, LabelsOf(call.arguments)))]
    else []
  }

  /**
   * A call is reported iff its callee is a member access whose base resolves
   * and some blacklist entry has exactly that base and lists exactly that
   * name; then it is reported once, at the call, described with its labels.
   */
  lemma CallCheckExact(bl: Blacklist, call: Syntax)
    requires WellFormed(bl) && call.FunctionCall?
    ensures |CallCheck(bl, call)| <= 1
    ensures CallCheck(bl, call) != [] <==>
      var r := Resolve(call.calledExpression);
      call.calledExpression.MemberAccess? && r.base.Some?
      && exists i :: 0 <= i < |bl| && bl[i].base == r.base.value && call.calledExpression.declName in bl[i].members
    ensures CallCheck(bl, call) != [] ==>
      CallCheck(bl, call)[0].position == call.position
      && CallCheck(bl, call)[0].callDescription
         == Resolve(call.calledExpression).base.value + "." + call.calledExpression.declName
            + "(" + Terminated(LabelTexts(LabelsOf(call.arguments)), ":") + ")"
  {
    var r := Resolve(call.calledExpression);
    if r.base.Some? && r.name.Some? {
      MatchesExactly(bl, r.base.value, r.name.value);
    }
  }

  /** A bare callee (`f()`, `Data(contentsOf:)`) and every other non-member shape are never reported. */
  lemma BareCalleeNeverReports(bl: Blacklist, call: Syntax)
    requires call.FunctionCall? && !call.calledExpression.MemberAccess?
    ensures CallCheck(bl, call) == []
  {
  }

  /** Argument labels take no part in matching: relabelling a call does not change whether it is reported. */
  lemma CallCheckIgnoresLabels(bl: Blacklist, call: Syntax, arguments: seq<LabeledExpr>)
    requires call.FunctionCall?
    ensures |CallCheck(bl, call)| == |CallCheck(bl, call.(arguments := arguments))|
  {
  }

  // ---------------------------------------------------------------- sub-walk

  /** What a fresh `CallExprVisitor` collects from walking `n`: every call below it, in pre-order. */
  function CallsIn(bl: Blacklist, n: Syntax): seq<CallViolation>
    decreases n, |Children(n)| + 1
  {
    (if n.FunctionCall? then CallCheck(bl, n) else []) + CallsInAll(bl, Children(n), n)
  }

  function CallsInAll(bl: Blacklist, ns: seq<Syntax>, ghost parent: Syntax): seq<CallViolation>
    requires forall i :: 0 <= i < |ns| ==> ns[i] < parent
    decreases parent, |ns|
  {
    if ns == [] then [] else CallsInAll(bl, ns[..|ns| - 1], parent) + CallsIn(bl, ns[|ns| - 1])
  }

  lemma CallsInAllStep(bl: Blacklist, ns: seq<Syntax>, parent: Syntax, i: nat)
    requires forall j :: 0 <= j < |ns| ==> ns[j] < parent
    requires i < |ns|
    ensures CallsInAll(bl, ns[..i + 1], parent) == CallsInAll(bl, ns[..i], parent) + CallsIn(bl, ns[i])
  {
    assert ns[..i + 1][..i] == ns[..i];
  }

  lemma CallsInAllWhole(bl: Blacklist, ns: seq<Syntax>, parent: Syntax)
    requires forall j :: 0 <= j < |ns| ==> ns[j] < parent
    ensures CallsInAll(bl, ns[..|ns|], parent) == CallsInAll(bl, ns, parent)
  {
    assert ns[..|ns|] == ns;
  }

  /** `c` is `n` or a node somewhere below it. */
  predicate Within(c: Syntax, n: Syntax)
    decreases n
  {
    c == n || exists i :: 0 <= i < |Children(n)| && Within(c, Children(n)[i])
  }

  lemma {:induction false} CallsInAllHasChild(bl: Blacklist, ns: seq<Syntax>, parent: Syntax, i: nat)
    requires forall j :: 0 <= j < |ns| ==> ns[j] < parent
    requires i < |ns|
    ensures multiset(CallsIn(bl, ns[i])) <= multiset(CallsInAll(bl, ns, parent))
    decreases |ns|
  {
    if i < |ns| - 1 {
      CallsInAllHasChild(bl, ns[..|ns| - 1], parent, i);
    }
  }

  /**
   * Completeness of the sub-walk: every call anywhere below the walked node
   * contributes its own findings to what the walk collects.
   */
  lemma {:induction false} CallsInComplete(bl: Blacklist, c: Syntax, n: Syntax)
    requires Within(c, n) && c.FunctionCall?
    ensures multiset(CallCheck(bl, c)) <= multiset(CallsIn(bl, n))
    decreases n
  {
    if c != n {
      var i :| 0 <= i < |Children(n)| && Within(c, Children(n)[i]);
      CallsInComplete(bl, c, Children(n)[i]);
      CallsInAllHasChild(bl, Children(n), n, i);
    }
  }

  lemma {:induction false} CallsInAllFromChild(bl: Blacklist, ns: seq<Syntax>, parent: Syntax, v: CallViolation)
    requires forall j :: 0 <= j < |ns| ==> ns[j] < parent
    requires v in CallsInAll(bl, ns, parent)
    ensures exists i :: 0 <= i < |ns| && v in CallsIn(bl, ns[i])
    decreases |ns|
  {
    if v !in CallsIn(bl, ns[|ns| - 1]) {
      CallsInAllFromChild(bl, ns[..|ns| - 1], parent, v);
      var i :| 0 <= i < |ns| - 1 && v in CallsIn(bl, ns[..|ns| - 1][i]);
      assert ns[..|ns| - 1][i] == ns[i];
    }
  }

  /** The sub-walk also descends into a call's trailing closures. */
  lemma TrailingClosureWalked(bl: Blacklist, call: Syntax, k: nat)
    requires call.FunctionCall? && k < |call.trailingClosures|
    ensures multiset(CallsIn(bl, call.trailingClosures[k])) <= multiset(CallsIn(bl, call))
  {
    var j := 1 + |call.arguments| + k;
    assert Children(call)[j] == call.trailingClosures[k];
    CallsInAllHasChild(bl, Children(call), call, j);
  }

  /** Soundness of the sub-walk: everything it collects is the finding of some call below the walked node. */
  lemma {:induction false} CallsInSound(bl: Blacklist, n: Syntax, v: CallViolation)
    requires v in CallsIn(bl, n)
    ensures exists c :: Within(c, n) && c.FunctionCall? && v in CallCheck(bl, c)
    decreases n
  {
    if n.FunctionCall? && v in CallCheck(bl, n) {
      assert Within(n, n);
    } else {
      CallsInAllFromChild(bl, Children(n), n, v);
      var i :| 0 <= i < |Children(n)| && v in CallsIn(bl, Children(n)[i]);
      CallsInSound(bl, Children(n)[i], v);
      var c :| Within(c, Children(n)[i]) && c.FunctionCall? && v in CallCheck(bl, c);
      assert Within(c, n);
    }
  }

  // ---------------------------------------------------------------- file walk

  /** Sensitivity of a variable declaration: its parent is the file, or it carries `static`. */
  predicate IsSensitiveVariable(modifiers: seq<string>, parentIsFile: bool)
  {
    parentIsFile || "static" in modifiers
  }

  function Tagged(rule: string, vs: seq<CallViolation>): seq<Report>
  {
    seq(|vs|, i requires 0 <= i < |vs| => Report(rule, vs[i]))
  }

  /** The reports of one binding: its initializer value, when it has one, scanned on its own. */
  function InitializerReports(bl: Blacklist, binding: PatternBinding): seq<Report>
  {
    match binding.initializer
    case Some(value) => Tagged(InitializerRule, CallsIn(bl, value))
    case None => []
  }

  /** The reports of a sensitive declaration's bindings, binding by binding. */
  function BindingReports(bl: Blacklist, bindings: seq<PatternBinding>): seq<Report>
  {
    if bindings == [] then []
    else BindingReports(bl, bindings[..|bindings| - 1]) + InitializerReports(bl, bindings[|bindings| - 1])
  }

  lemma BindingReportsStep(bl: Blacklist, bindings: seq<PatternBinding>, i: nat)
    requires i < |bindings|
    ensures BindingReports(bl, bindings[..i + 1]) == BindingReports(bl, bindings[..i]) + InitializerReports(bl, bindings[i])
  {
    assert bindings[..i + 1][..i] == bindings[..i];
  }

  /** What visiting the declaration `n` itself reports. */
  function DeclReports(bl: Blacklist, n: Syntax, parentIsFile: bool): seq<Report>
  {
    match n
    case VariableDecl(modifiers, bindings) =>
      if IsSensitiveVariable(modifiers, parentIsFile) then BindingReports(bl, bindings) else []
    case InitializerDecl(body) =>
      if body.Some? then Tagged(InitMethodRule, CallsIn(bl, body.value)) else []
    case _ => []
  }

  /** Everything the file walk reports at `n` and below it, in pre-order. */
  function ReportsIn(bl: Blacklist, n: Syntax, parentIsFile: bool): seq<Report>
    decreases n, |Children(n)| + 1
  {
    DeclReports(bl, n, parentIsFile) + ReportsInAll(bl, Children(n), n.SourceFile?, n)
  }

  function ReportsInAll(bl: Blacklist, ns: seq<Syntax>, parentIsFile: bool, ghost parent: Syntax): seq<Report>
    requires forall i :: 0 <= i < |ns| ==> ns[i] < parent
    decreases parent, |ns|
  {
    if ns == [] then [] else ReportsInAll(bl, ns[..|ns| - 1], parentIsFile, parent) + ReportsIn(bl, ns[|ns| - 1], parentIsFile)
  }

  lemma {:induction false} ReportsInAllHasChild(bl: Blacklist, ns: seq<Syntax>, parentIsFile: bool, parent: Syntax, i: nat)
    requires forall j :: 0 <= j < |ns| ==> ns[j] < parent
    requires i < |ns|
    ensures multiset(ReportsIn(bl, ns[i], parentIsFile)) <= multiset(ReportsInAll(bl, ns, parentIsFile, parent))
    decreases |ns|
  {
    if i < |ns| - 1 {
      ReportsInAllHasChild(bl, ns[..|ns| - 1], parentIsFile, parent, i);
    }
  }

  /**
   * Every `init` anywhere in the walked tree is checked, whatever encloses it
   * (a type, a closure, a property's accessor block): its reports appear among
   * the walk's.
   */
  lemma {:induction false} InitializerReportsComplete(bl: Blacklist, d: Syntax, n: Syntax, parentIsFile: bool)
    requires Within(d, n) && d.InitializerDecl?
    ensures multiset(DeclReports(bl, d, false)) <= multiset(ReportsIn(bl, n, parentIsFile))
    decreases n
  {
    if d != n {
      var i :| 0 <= i < |Children(n)| && Within(d, Children(n)[i]);
      InitializerReportsComplete(bl, d, Children(n)[i], n.SourceFile?);
      ReportsInAllHasChild(bl, Children(n), n.SourceFile?, n, i);
    }
  }

  /**
   * Every `static` variable anywhere in the walked tree, whatever encloses it
   * (a type, an extension, an accessor block), is checked: its reports appear
   * among the walk's.
   */
  lemma {:induction false} StaticVariableReportsComplete(bl: Blacklist, d: Syntax, n: Syntax, parentIsFile: bool)
    requires Within(d, n) && d.VariableDecl? && "static" in d.modifiers
    ensures multiset(DeclReports(bl, d, false)) <= multiset(ReportsIn(bl, n, parentIsFile))
    decreases n
  {
    if d != n {
      var i :| 0 <= i < |Children(n)| && Within(d, Children(n)[i]);
      StaticVariableReportsComplete(bl, d, Children(n)[i], n.SourceFile?);
      ReportsInAllHasChild(bl, Children(n), n.SourceFile?, n, i);
    }
  }

  /** An `init` inside a property's accessor block is checked by the file walk. */
  lemma AccessorInitializerChecked(bl: Blacklist, n: Syntax, j: nat, d: Syntax, parentIsFile: bool)
    requires n.VariableDecl? && j < |n.bindings| && n.bindings[j].accessorBlock.Some?
    requires Within(d, n.bindings[j].accessorBlock.value) && d.InitializerDecl?
    ensures multiset(DeclReports(bl, d, false)) <= multiset(ReportsIn(bl, n, parentIsFile))
  {
    var i := AccessorBlockIsChild(n.bindings, j);
    assert Children(n)[i] == n.bindings[j].accessorBlock.value;
    assert Within(d, n);
    InitializerReportsComplete(bl, d, n, parentIsFile);
  }

  lemma ReportsInAllStep(bl: Blacklist, ns: seq<Syntax>, parentIsFile: bool, parent: Syntax, i: nat)
    requires forall j :: 0 <= j < |ns| ==> ns[j] < parent
    requires i < |ns|
    ensures ReportsInAll(bl, ns[..i + 1], parentIsFile, parent)
         == ReportsInAll(bl, ns[..i], parentIsFile, parent) + ReportsIn(bl, ns[i], parentIsFile)
  {
    assert ns[..i + 1][..i] == ns[..i];
  }

  lemma ReportsInAllWhole(bl: Blacklist, ns: seq<Syntax>, parentIsFile: bool, parent: Syntax)
    requires forall j :: 0 <= j < |ns| ==> ns[j] < parent
    ensures ReportsInAll(bl, ns[..|ns|], parentIsFile, parent) == ReportsInAll(bl, ns, parentIsFile, parent)
  {
    assert ns[..|ns|] == ns;
  }

  /** A variable declaration that is neither at file level nor `static` (`class` does not count) reports nothing itself. */
  lemma NonSensitiveVariableReportsNothing(bl: Blacklist, n: Syntax, parentIsFile: bool)
    requires n.VariableDecl? && !parentIsFile && "static" !in n.modifiers
    ensures DeclReports(bl, n, parentIsFile) == []
  {
  }

  // ---------------------------------------------------------------- rendering

  function LocationOf(converter: map<nat, SourceLocation>, position: nat): Option<SourceLocation>
  {
    if position in converter then Some(converter[position]) else None
  }

  /** `printViolation`: a missing location, line or column is printed as 0. */
  function FormatWarning(path: string, location: Option<SourceLocation>, rule: string, call: string): string
  {
    var line := if location.Some? then location.value.line.GetOr(0) else 0;
    var column := if location.Some? then location.value.column.GetOr(0) else 0;
    path + ":" + NatToString(line) + ":" + NatToString(column) + ": warning: [" + rule
    + "] Potential expensive call '" + call + "' found."
  }

  /** A warning without a location is printed at line 0, column 0. */
  lemma MissingLocationPrintsZero(path: string, rule: string, call: string)
    ensures FormatWarning(path, None, rule, call)
         == path + ":0:0: warning: [" + rule + "] Potential expensive call '" + call + "' found."
    ensures FormatWarning(path, None, rule, call) == FormatWarning(path, Some(SourceLocation(None, None)), rule, call)
  {
  }

  function RenderReports(path: string, converter: map<nat, SourceLocation>, rs: seq<Report>): seq<string>
  {
    seq(|rs|, i requires 0 <= i < |rs| =>
      FormatWarning(path, LocationOf(converter, rs[i].violation.position), rs[i].rule, rs[i].violation.callDescription))
  }

  lemma RenderAppend(path: string, converter: map<nat, SourceLocation>, a: seq<Report>, b: seq<Report>)
    ensures RenderReports(path, converter, a + b) == RenderReports(path, converter, a) + RenderReports(path, converter, b)
  {
  }

  // ---------------------------------------------------------------- scenarios

  /** A call without arguments is described with empty parentheses. */
  lemma DescribeNoArguments(base: string, name: string)
    ensures Describe(base, name, []) == base + "." + name + "()"
  {
    assert LabelTexts([]) == [];
  }

  /** An unlabeled argument is written `_`, and every label is followed by a colon. */
  lemma DescribeUnlabeledThenLabeled(base: string, name: string, argLabel: string)
    ensures Describe(base, name, [None, Some(argLabel)]) == base + "." + name + "(_:" + argLabel + ":)"
  {
    var texts := LabelTexts([None, Some(argLabel)]);
    assert texts == ["_", argLabel];
    assert texts[1..] == [argLabel] && texts[1..][1..] == [];
    assert Terminated(texts[1..], ":") == argLabel + ":";
    assert Terminated(texts, ":") == "_" + ":" + (argLabel + ":");
  }

  /** `Data.init(contentsOf: url)` at the position `p`. */
  function DataInitCall(p: nat): Syntax
  {
    FunctionCall(MemberAccess(Some(DeclReference("Data")), "init", "Data.init", p),
                 [LabeledExpr(Some("contentsOf"), DeclReference("url"))], [], p)
  }

  /** `Data.init(contentsOf: url)` is reported at its position, with its label in the description. */
  lemma DataInitCallReported(p: nat)
    ensures CallCheck(ExpensiveApis, DataInitCall(p)) == [CallViolation(p, "Data.init(contentsOf:)")]
  {
    var call := DataInitCall(p);
    assert LabelsOf(call.arguments) == [Some("contentsOf")];
    DescribeContentsOf();
  }

  lemma DescribeContentsOf()
    ensures Describe("Data", "init", [Some("contentsOf")]) == "Data.init(contentsOf:)"
  {
    assert LabelTexts([Some("contentsOf")]) == ["contentsOf"];
    assert Terminated(["contentsOf"], ":") == "contentsOf:";
  }

  /**
   * `CryptoHelper.performExpensiveSyncOperation()` at the position `p`, or
   * `CryptoHelper.performExpensiveSyncOperation { ... }` when it has trailing closures.
   */
  function CryptoCall(p: nat, closures: seq<Syntax>): Syntax
  {
    FunctionCall(MemberAccess(Some(DeclReference("CryptoHelper")), "performExpensiveSyncOperation",
                              "CryptoHelper.performExpensiveSyncOperation", p), [], closures, p)
  }

  lemma CryptoDescription()
    ensures "CryptoHelper" + "." + "performExpensiveSyncOperation" + "()" == "CryptoHelper.performExpensiveSyncOperation()"
  {
  }

  /**
   * `CryptoHelper.performExpensiveSyncOperation()` is reported at its position,
   * with empty parentheses, and so is the same call with trailing closures only:
   * they are not arguments and add no label.
   */
  lemma CryptoCallReported(p: nat, closures: seq<Syntax>)
    ensures CallCheck(ExpensiveApis, CryptoCall(p, closures)) == [CallViolation(p, "CryptoHelper.performExpensiveSyncOperation()")]
  {
    var call := CryptoCall(p, closures);
    assert LabelsOf(call.arguments) == [];
    DescribeNoArguments("CryptoHelper", "performExpensiveSyncOperation");
    CryptoDescription();
    assert Lookup(ExpensiveApis, "CryptoHelper") == Some(["performExpensiveSyncOperation"]);
  }

  /** `Data(contentsOf: url)`, the same call with a bare callee, is not reported. */
  lemma BareDataCallIgnored(p: nat)
    ensures CallCheck(ExpensiveApis, FunctionCall(DeclReference("Data"), [LabeledExpr(Some("contentsOf"), DeclReference("url"))], [], p)) == []
  {
  }

  /** `self.helper.performExpensiveSyncOperation()` resolves to the base `self`, which is not in the blacklist. */
  lemma ChainRootDecidesBase(p: nat)
    ensures CallCheck(ExpensiveApis, FunctionCall(
              MemberAccess(Some(MemberAccess(Some(DeclReference("self")), "helper", "self.helper", p)),
                           "performExpensiveSyncOperation", "self.helper.performExpensiveSyncOperation", p), [], [], p)) == []
  {
    var inner := MemberAccess(Some(DeclReference("self")), "helper", "self.helper", p);
    assert Leftmost(Some(inner)) == Some(DeclReference("self"));
    assert Lookup(ExpensiveApis, "self") == None;
  }

  // ---------------------------------------------------------------- visitors

  /** The helper visitor that collects blacklisted calls below the node it walks. */
  class CallExprVisitor {
    var violations: seq<CallViolation>

    constructor()
      ensures violations == []
    {
      violations := [];
    }

    method VisitFunctionCall(node: Syntax)
      requires node.FunctionCall?
      modifies this
      ensures violations == old(violations) + CallCheck(ExpensiveApis, node)
    {
      var baseName, funcName := ResolveCallee(node.calledExpression);
      var argumentLabels := ArgumentLabels(node.arguments);
      assert argumentLabels == LabelsOf(node.arguments);
      if baseName.Some? && funcName.Some? {
        var methods := Lookup(ExpensiveApis, baseName.value);
        if methods.Some? && funcName.value in methods.value {
          var desc := Describe(baseName.value, funcName.value, argumentLabels);
          violations := violations + [CallViolation(node.position, desc)];
        }
      } else if funcName.Some? && baseName.None? {
        // A bare name would be looked up as a key with an empty member set;
        // the source records nothing in this branch.
      }
    }

    /** `walk(node)`: visits `node` and everything below it in pre-order; every visit continues into children. */
    method Walk(node: Syntax)
      modifies this
      decreases node, 1
      ensures violations == old(violations) + CallsIn(ExpensiveApis, node)
    {
      if node.FunctionCall? {
        VisitFunctionCall(node);
      }
      WalkChildren(Children(node), node);
    }

    /** Walks the children of `parent` one after the other. */
    method WalkChildren(children: seq<Syntax>, ghost parent: Syntax)
      requires forall j :: 0 <= j < |children| ==> children[j] < parent
      modifies this
      decreases parent, 0
      ensures violations == old(violations) + CallsInAll(ExpensiveApis, children, parent)
    {
      for i := 0 to |children|
        invariant violations == old(violations) + CallsInAll(ExpensiveApis, children[..i], parent)
      {
        ghost var before := violations;
        Walk(children[i]);
        CallsInAllStep(ExpensiveApis, children, parent, i);
        AppendAssoc(old(violations), CallsInAll(ExpensiveApis, children[..i], parent), CallsIn(ExpensiveApis, children[i]));
      }
      CallsInAllWhole(ExpensiveApis, children, parent);
    }
  }

  /** The file visitor; `output` holds the printed warning lines. */
  class LaunchGuardVisitor {
    const filePath: string
    const converter: map<nat, SourceLocation>
    var output: seq<string>

    constructor(filePath: string, converter: map<nat, SourceLocation>)
      ensures this.filePath == filePath && this.converter == converter && output == []
    {
      this.filePath := filePath;
      this.converter := converter;
      output := [];
    }

    method PrintViolation(location: Option<SourceLocation>, rule: string, call: string)
      modifies this
      ensures output == old(output) + [FormatWarning(filePath, location, rule, call)]
    {
      output := output + [FormatWarning(filePath, location, rule, call)];
    }

    /** The `for violation in callVisitor.violations` loop of both visit methods. */
    method PrintViolations(rule: string, violations: seq<CallViolation>)
      modifies this
      ensures output == old(output) + RenderReports(filePath, converter, Tagged(rule, violations))
    {
      for i := 0 to |violations|
        invariant output == old(output) + RenderReports(filePath, converter, Tagged(rule, violations[..i]))
      {
        var violation := violations[i];
        PrintViolation(LocationOf(converter, violation.position), rule, violation.callDescription);
        assert Tagged(rule, violations[..i + 1]) == Tagged(rule, violations[..i]) + [Report(rule, violation)];
        RenderAppend(filePath, converter, Tagged(rule, violations[..i]), [Report(rule, violation)]);
      }
      assert violations[..|violations|] == violations;
    }

    /** `visit(VariableDeclSyntax)`: a declaration at file level or marked `static` has each initializer value scanned. */
    method VisitVariableDecl(node: Syntax, parentIsFile: bool)
      requires node.VariableDecl?
      modifies this
      ensures output == old(output) + RenderReports(filePath, converter, DeclReports(ExpensiveApis, node, parentIsFile))
    {
      var isGlobal := parentIsFile;
      var isStatic := "static" in node.modifiers;
      if !(isGlobal || isStatic) {
        return;
      }
      var bindings := node.bindings;
      for i := 0 to |bindings|
        invariant output == old(output) + RenderReports(filePath, converter, BindingReports(ExpensiveApis, bindings[..i]))
      {
        ghost var done := BindingReports(ExpensiveApis, bindings[..i]);
        VisitBinding(bindings[i]);
        BindingReportsStep(ExpensiveApis, bindings, i);
        RenderAppend(filePath, converter, done, InitializerReports(ExpensiveApis, bindings[i]));
        AppendAssoc(old(output), RenderReports(filePath, converter, done),
                    RenderReports(filePath, converter, InitializerReports(ExpensiveApis, bindings[i])));
      }
      assert bindings[..|bindings|] == bindings;
    }

    /** The body of the binding loop: a binding with an initializer has its value scanned by a fresh call visitor. */
    method VisitBinding(binding: PatternBinding)
      modifies this
      ensures output == old(output) + RenderReports(filePath, converter, InitializerReports(ExpensiveApis, binding))
    {
      if binding.initializer.Some? {
        var callVisitor := new CallExprVisitor();
        callVisitor.Walk(binding.initializer.value);
        PrintViolations(InitializerRule, callVisitor.violations);
      }
    }

    /** `visit(InitializerDeclSyntax)`: an initializer with a body has the whole body scanned. */
    method VisitInitializerDecl(node: Syntax)
      requires node.InitializerDecl?
      modifies this
      ensures output == old(output) + RenderReports(filePath, converter, DeclReports(ExpensiveApis, node, false))
    {
      if node.body.Some? {
        var callVisitor := new CallExprVisitor();
        callVisitor.Walk(node.body.value);
        PrintViolations(InitMethodRule, callVisitor.violations);
      }
    }

    /** `walk(node)` of the file visitor; `parentIsFile` says whether `node`'s parent is the file root. */
    method Walk(node: Syntax, parentIsFile: bool)
      modifies this
      decreases node, 1
      ensures output == old(output) + RenderReports(filePath, converter, ReportsIn(ExpensiveApis, node, parentIsFile))
    {
      if node.VariableDecl? {
        VisitVariableDecl(node, parentIsFile);
      } else if node.InitializerDecl? {
        VisitInitializerDecl(node);
      }
      ghost var own := RenderReports(filePath, converter, DeclReports(ExpensiveApis, node, parentIsFile));
      assert output == old(output) + own;
      ghost var mid := output;
      WalkChildren(Children(node), node.SourceFile?, node);
      ghost var below := RenderReports(filePath, converter, ReportsInAll(ExpensiveApis, Children(node), node.SourceFile?, node));
      assert output == mid + below;
      RenderAppend(filePath, converter, DeclReports(ExpensiveApis, node, parentIsFile),
                   ReportsInAll(ExpensiveApis, Children(node), node.SourceFile?, node));
      assert RenderReports(filePath, converter, ReportsIn(ExpensiveApis, node, parentIsFile)) == own + below;
      AppendAssoc(old(output), own, below);
    }

    /** Walks the children of `parent` one after the other; `parentIsFile` says whether `parent` is the file root. */
    method WalkChildren(children: seq<Syntax>, parentIsFile: bool, ghost parent: Syntax)
      requires forall j :: 0 <= j < |children| ==> children[j] < parent
      modifies this
      decreases parent, 0
      ensures output == old(output) + RenderReports(filePath, converter, ReportsInAll(ExpensiveApis, children, parentIsFile, parent))
    {
      for i := 0 to |children|
        invariant output == old(output) + RenderReports(filePath, converter, ReportsInAll(ExpensiveApis, children[..i], parentIsFile, parent))
      {
        ghost var before := output;
        ghost var done := ReportsInAll(ExpensiveApis, children[..i], parentIsFile, parent);
        Walk(children[i], parentIsFile);
        ghost var next := ReportsIn(ExpensiveApis, children[i], parentIsFile);
        assert output == before + RenderReports(filePath, converter, next);
        ReportsInAllStep(ExpensiveApis, children, parentIsFile, parent, i);
        RenderAppend(filePath, converter, done, next);
        AppendAssoc(old(output), RenderReports(filePath, converter, done), RenderReports(filePath, converter, next));
      }
      ReportsInAllWhole(ExpensiveApis, children, parentIsFile, parent);
    }
  }

  /** Scans one parsed file and returns the warning lines it prints, in order. */
  method AnalyzeFile(filePath: string, converter: map<nat, SourceLocation>, tree: Syntax) returns (lines: seq<string>)
    requires tree.SourceFile?
    ensures lines == RenderReports(filePath, converter, ReportsIn(ExpensiveApis, tree, false))
  {
    var visitor := new LaunchGuardVisitor(filePath, converter);
    visitor.Walk(tree, false);
    lines := visitor.output;
  }
}
