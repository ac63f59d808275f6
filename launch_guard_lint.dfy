/**
 * The SwiftLint variant of the launch guard
 * (docs/02_analysis_tools/swift/swiftlint/CustomRules.swift): two rules that
 * share the blacklist and a call resolver, `extractCallInfo`.
 *
 * `expensive_initializer` scans the initializer values of declarations at
 * file level or marked `static` and records the position of every
 * blacklisted call. `expensive_init_method` scans every initializer body; its
 * call visitor records blacklisted calls too, and in addition records a
 * member access once for every blacklisted member name occurring anywhere in
 * the access's text.
 *
 * Both rules' call visitors are modelled by one class whose constant
 * `checksMemberAccess` says which of the two it is, and both rules' file
 * visitors by one class whose constant `rule` says which rule it applies.
 */
module SwiftLintRules {
  import opened Wrappers
  import opened Text
  import opened SwiftAst
  import opened ApiBlacklist
  import LaunchGuardSyntax

  /** What `extractCallInfo` returns: a possibly unknown base and the called name. */
  datatype CallInfo = CallInfo(base: Option<string>, name: string)

  datatype LintRule = ExpensiveInitializer | ExpensiveInitMethod

  /** A violation as SwiftLint receives it: a position and, for the init-method rule, a reason. */
  datatype RuleViolation = RuleViolation(position: nat, reason: Option<string>)

  const InitMethodReason := "Potential expensive API call found in init method."

  // ---------------------------------------------------------------- call resolution

  /** Only a bare identifier at the root of a member chain names a base here. */
  function RootIdentifier(root: Option<Syntax>): Option<string>
  {
    if root.Some? && root.value.DeclReference? then Some(root.value.baseName) else None
  }

  /** Reference definition of `extractCallInfo`. */
  function CallInfoOf(e: Syntax): Option<CallInfo>
  {
    match e
    case FunctionCall(callee, _, _, _) => CallInfoOf(callee)
    case MemberAccess(base, declName, _, _) => Some(CallInfo(RootIdentifier(Leftmost(base)), declName))
    case DeclReference(name) => Some(CallInfo(None, name))
    case _ => None
  }

  /** `extractCallInfo`: recurses through called calls, then unwraps a member chain with a loop. */
  method ExtractCallInfo(node: Syntax) returns (info: Option<CallInfo>)
    ensures info == CallInfoOf(node)
    decreases node
  {
    if node.FunctionCall? {
      info := ExtractCallInfo(node.calledExpression);
    } else if node.MemberAccess? {
      var name := node.declName;
      var currentBase := node.base;
      while currentBase.Some? && currentBase.value.MemberAccess?
        invariant Leftmost(currentBase) == Leftmost(node.base)
        decreases currentBase
      {
        currentBase := currentBase.value.base;
      }
      var base := if currentBase.Some? && currentBase.value.DeclReference? then Some(currentBase.value.baseName) else None;
      info := Some(CallInfo(base, name));
    } else if node.DeclReference? {
      info := Some(CallInfo(None, node.baseName));
    } else {
      info := None;
    }
  }

  /** The expression a chain of calls finally calls: `f()()` gives `f`. */
  function StripCalls(e: Syntax): (r: Syntax)
    ensures !r.FunctionCall?
  {
    if e.FunctionCall? then StripCalls(e.calledExpression) else e
  }

  /** Calls are looked through: a called call resolves as the expression it finally calls. */
  lemma {:induction false} CallInfoLooksThroughCalls(e: Syntax)
    ensures CallInfoOf(e) == CallInfoOf(StripCalls(e))
  {
    if e.FunctionCall? {
      CallInfoLooksThroughCalls(e.calledExpression);
    }
  }

  /** A chain root that is an identifier type, as in `Data.init` parsed with `Data` as a type. */
  predicate IsTypeRoot(root: Option<Syntax>)
  {
    root.Some? && root.value.TypeExpr? && root.value.typeSyntax.IdentifierType?
  }

  /**
   * On a callee that is not itself a call, the rules resolve as the
   * standalone scanner does: the same called name, and the same base unless
   * the chain's root is an identifier type, which only the scanner accepts.
   */
  lemma CallInfoAgreesWithScanner(e: Syntax)
    requires !e.FunctionCall?
    ensures CallInfoOf(e).Some? <==> LaunchGuardSyntax.Resolve(e).name.Some?
    ensures CallInfoOf(e).Some? ==> LaunchGuardSyntax.Resolve(e).name == Some(CallInfoOf(e).value.name)
    ensures CallInfoOf(e).Some? && !(e.MemberAccess? && IsTypeRoot(Leftmost(e.base))) ==>
      LaunchGuardSyntax.Resolve(e).base == CallInfoOf(e).value.base
    ensures e.MemberAccess? && IsTypeRoot(Leftmost(e.base)) ==>
      CallInfoOf(e).value.base.None? && LaunchGuardSyntax.Resolve(e).base.Some?
  {
  }

  // ---------------------------------------------------------------- what one node records

  /** What `visit(FunctionCallExprSyntax)` of either call visitor records for one call. */
  function CallPositions(bl: Blacklist, call: Syntax): seq<nat>
    requires call.FunctionCall?
  {
    var info := CallInfoOf(call.calledExpression);
    if info.Some? && info.value.base.Some? && Matches(bl, info.value.base.value, info.value.name)
    then [call.position]
    else []
  }

  /**
   * A call is recorded iff what it finally calls is a member access rooted
   * in an identifier, and some entry has exactly that identifier as base and
   * lists exactly the accessed name; it is then recorded once, at the call.
   */
  lemma CallPositionsExact(bl: Blacklist, call: Syntax)
    requires WellFormed(bl) && call.FunctionCall?
    ensures |CallPositions(bl, call)| <= 1
    ensures CallPositions(bl, call) != [] ==> CallPositions(bl, call) == [call.position]
    ensures CallPositions(bl, call) != [] <==>
      var target := StripCalls(call.calledExpression);
      target.MemberAccess? && RootIdentifier(Leftmost(target.base)).Some?
      && exists i :: 0 <= i < |bl| && bl[i].base == RootIdentifier(Leftmost(target.base)).value
                     && target.declName in bl[i].members
  {
    CallInfoLooksThroughCalls(call.calledExpression);
    var info := CallInfoOf(call.calledExpression);
    if info.Some? && info.value.base.Some? {
      MatchesExactly(bl, info.value.base.value, info.value.name);
    }
  }

  /**
   * On an ordinary call whose chain is not rooted in an identifier type, the
   * rules record a call exactly when the standalone scanner reports it.
   */
  lemma CallPositionsAgreeWithScanner(bl: Blacklist, call: Syntax)
    requires call.FunctionCall? && !call.calledExpression.FunctionCall?
    requires !(call.calledExpression.MemberAccess? && IsTypeRoot(Leftmost(call.calledExpression.base)))
    ensures CallPositions(bl, call) == (if LaunchGuardSyntax.CallCheck(bl, call) == [] then [] else [call.position])
  {
    CallInfoAgreesWithScanner(call.calledExpression);
  }

  /** A bare callee such as `Data(contentsOf:)` or `MyManager()` has no base and is never recorded. */
  lemma BareCallNeverRecorded(bl: Blacklist, call: Syntax)
    requires call.FunctionCall? && call.calledExpression.DeclReference?
    ensures CallPositions(bl, call) == []
  {
  }

  /** The indices of the names in `names` that occur in `text`. */
  ghost function MatchingNames(names: seq<string>, text: string): set<nat>
  {
    set i: nat | i < |names| && IsSubstring(names[i], text)
  }

  lemma MatchingNamesSnoc(names: seq<string>, text: string)
    requires names != []
    ensures var n := |names| - 1;
      n !in MatchingNames(names[..n], text)
      && MatchingNames(names, text)
         == MatchingNames(names[..n], text) + (if IsSubstring(names[n], text) then {n} else {})
  {
    var n := |names| - 1;
    assert forall i :: 0 <= i < n ==> names[..n][i] == names[i];
  }

  /** One recorded position for every name in `names` that occurs in `text`, in the order of `names`. */
  function MemberHits(names: seq<string>, text: string, position: nat): (ps: seq<nat>)
    ensures |ps| == |MatchingNames(names, text)|
    ensures forall i :: 0 <= i < |ps| ==> ps[i] == position
    ensures ps == [] <==> forall i :: 0 <= i < |names| ==> !IsSubstring(names[i], text)
  {
    if names == [] then []
    else
      MatchingNamesSnoc(names, text);
      MemberHits(names[..|names| - 1], text, position)
      + (if IsSubstring(names[|names| - 1], text) then [position] else [])
  }

  lemma MemberHitsStep(names: seq<string>, text: string, position: nat, i: nat)
    requires i < |names|
    ensures MemberHits(names[..i + 1], text, position)
         == MemberHits(names[..i], text, position) + (if IsSubstring(names[i], text) then [position] else [])
  {
    assert names[..i + 1][..i] == names[..i];
  }

  /** What a node itself contributes to a call visitor's positions. */
  function NodePositions(bl: Blacklist, n: Syntax, checksMemberAccess: bool): seq<nat>
  {
    if n.FunctionCall? then CallPositions(bl, n)
    else if n.MemberAccess? && checksMemberAccess then MemberHits(FlatMembers(bl), n.trimmedText, n.position)
    else []
  }

  /**
   * The init-method rule's member check is textual: an access `Base.member`
   * with a blacklisted member name is recorded whatever its base, and only
   * when the rule checks member accesses.
   */
  lemma QualifiedMemberAccessRecorded(bl: Blacklist, i: nat, base: Syntax, baseText: string, member: string, position: nat)
    requires i < |bl| && member in bl[i].members
    ensures position in NodePositions(bl, MemberAccess(Some(base), member, baseText + "." + member, position), true)
    ensures NodePositions(bl, MemberAccess(Some(base), member, baseText + "." + member, position), false) == []
  {
    var names := FlatMembers(bl);
    MemberInQualifiedText(baseText, member);
    assert member in names;
    var j :| 0 <= j < |names| && names[j] == member;
    var hits := MemberHits(names, baseText + "." + member, position);
    assert hits != [];
    assert hits[0] == position;
  }

  // ---------------------------------------------------------------- call visitor walk

  /** Everything a fresh call visitor records from walking `n`, in pre-order. */
  function PositionsIn(bl: Blacklist, n: Syntax, checksMemberAccess: bool): seq<nat>
    decreases n, |Children(n)| + 1
  {
    NodePositions(bl, n, checksMemberAccess) + PositionsInAll(bl, Children(n), checksMemberAccess, n)
  }

  function PositionsInAll(bl: Blacklist, ns: seq<Syntax>, checksMemberAccess: bool, ghost parent: Syntax): seq<nat>
    requires forall i :: 0 <= i < |ns| ==> ns[i] < parent
    decreases parent, |ns|
  {
    if ns == [] then []
    else PositionsInAll(bl, ns[..|ns| - 1], checksMemberAccess, parent) + PositionsIn(bl, ns[|ns| - 1], checksMemberAccess)
  }

  lemma PositionsInAllStep(bl: Blacklist, ns: seq<Syntax>, checksMemberAccess: bool, parent: Syntax, i: nat)
    requires forall j :: 0 <= j < |ns| ==> ns[j] < parent
    requires i < |ns|
    ensures PositionsInAll(bl, ns[..i + 1], checksMemberAccess, parent)
         == PositionsInAll(bl, ns[..i], checksMemberAccess, parent) + PositionsIn(bl, ns[i], checksMemberAccess)
  {
    assert ns[..i + 1][..i] == ns[..i];
  }

  lemma PositionsInAllWhole(bl: Blacklist, ns: seq<Syntax>, checksMemberAccess: bool, parent: Syntax)
    requires forall j :: 0 <= j < |ns| ==> ns[j] < parent
    ensures PositionsInAll(bl, ns[..|ns|], checksMemberAccess, parent) == PositionsInAll(bl, ns, checksMemberAccess, parent)
  {
    assert ns[..|ns|] == ns;
  }

  lemma {:induction false} PositionsInAllHasChild(bl: Blacklist, ns: seq<Syntax>, checksMemberAccess: bool, parent: Syntax, i: nat)
    requires forall j :: 0 <= j < |ns| ==> ns[j] < parent
    requires i < |ns|
    ensures multiset(PositionsIn(bl, ns[i], checksMemberAccess)) <= multiset(PositionsInAll(bl, ns, checksMemberAccess, parent))
    decreases |ns|
  {
    if i < |ns| - 1 {
      PositionsInAllHasChild(bl, ns[..|ns| - 1], checksMemberAccess, parent, i);
    }
  }

  /**
   * Completeness of a call visitor's walk: whatever a node anywhere below the
   * walked node records is among the recorded positions, as often as it records it.
   */
  lemma {:induction false} PositionsInComplete(bl: Blacklist, c: Syntax, n: Syntax, checksMemberAccess: bool)
    requires LaunchGuardSyntax.Within(c, n)
    ensures multiset(NodePositions(bl, c, checksMemberAccess)) <= multiset(PositionsIn(bl, n, checksMemberAccess))
    decreases n
  {
    if c != n {
      var i :| 0 <= i < |Children(n)| && LaunchGuardSyntax.Within(c, Children(n)[i]);
      PositionsInComplete(bl, c, Children(n)[i], checksMemberAccess);
      PositionsInAllHasChild(bl, Children(n), checksMemberAccess, n, i);
    }
  }

  /**
   * `Base.member()` with a blacklisted pair is recorded once by the
   * initializer rule's visitor, but by the init-method rule's visitor also at
   * its member access: a blacklisted call in an init body is recorded twice.
   */
  lemma InitMethodRecordsCallTwice(bl: Blacklist, i: nat, base: string, member: string, p: nat, q: nat)
    requires WellFormed(bl) && i < |bl| && bl[i].base == base && member in bl[i].members
    ensures PositionsIn(bl, FunctionCall(MemberAccess(Some(DeclReference(base)), member, base + "." + member, q), [], [], p), false) == [p]
    ensures var ps := PositionsIn(bl, FunctionCall(MemberAccess(Some(DeclReference(base)), member, base + "." + member, q), [], [], p), true);
      |ps| >= 2 && ps[0] == p && q in ps[1..]
         && ps == [p] + MemberHits(FlatMembers(bl), base + "." + member, q)
  {
    var root := DeclReference(base);
    var callee := MemberAccess(Some(root), member, base + "." + member, q);
    var call := FunctionCall(callee, [], [], p);
    MatchesExactly(bl, base, member);
    assert CallPositions(bl, call) == [p];
    QualifiedMemberAccessRecorded(bl, i, root, base, member, q);
    assert Children(call) == [callee];
    forall checks: bool
      ensures PositionsIn(bl, call, checks) == [p] + NodePositions(bl, callee, checks)
    {
      AccessOnIdentifierPositions(bl, callee, checks);
      assert PositionsInAll(bl, Children(call), checks, call) == NodePositions(bl, callee, checks);
    }
  }

  /** A text holding the first of two names and shorter than the second is recorded once. */
  lemma MemberHitsFirstOfTwo(first: string, second: string, text: string, position: nat)
    requires IsSubstring(first, text) && |text| < |second|
    ensures MemberHits([first, second], text, position) == [position]
  {
    var names := [first, second];
    if IsSubstring(second, text) {
      SubstringNoLonger(second, text);
    }
    MemberHitsStep(names, text, position, 0);
    MemberHitsStep(names, text, position, 1);
    assert names[..2] == names;
  }

  /** Of the installed member names, the text `Data.init` contains `init` only. */
  lemma DataInitMemberHits(q: nat)
    ensures MemberHits(FlatMembers(ExpensiveApis), "Data.init", q) == [q]
  {
    assert FlatMembers(ExpensiveApis) == ["init"] + (["performExpensiveSyncOperation"] + FlatMembers([]));
    MemberInQualifiedText("Data", "init");
    assert "Data" + "." + "init" == "Data.init";
    MemberHitsFirstOfTwo("init", "performExpensiveSyncOperation", "Data.init", q);
  }

  /** A call through `Data.init` is one the installed blacklist records. */
  lemma DataInitCallRecorded(call: Syntax)
    requires call.FunctionCall? && call.calledExpression.MemberAccess?
    requires call.calledExpression.base == Some(DeclReference("Data")) && call.calledExpression.declName == "init"
    ensures CallPositions(ExpensiveApis, call) == [call.position]
  {
    assert CallInfoOf(call.calledExpression) == Some(CallInfo(Some("Data"), "init"));
    assert Lookup(ExpensiveApis, "Data") == Some(["init"]);
  }

  /** A member access on an identifier records only what the access itself records. */
  lemma AccessOnIdentifierPositions(bl: Blacklist, access: Syntax, checks: bool)
    requires access.MemberAccess? && access.base.Some? && access.base.value.DeclReference?
    ensures PositionsIn(bl, access, checks) == NodePositions(bl, access, checks)
  {
    assert Children(access) == [access.base.value];
    IdentifiersRecordNothing(bl, Children(access), checks, access);
  }

  /**
   * A call `base.member(label: arg)` on identifiers is walked as the call
   * itself, then its member access; the identifiers record nothing.
   */
  lemma OneArgumentCallPositions(bl: Blacklist, call: Syntax, checks: bool)
    requires call.FunctionCall? && |call.arguments| == 1 && call.trailingClosures == []
    requires call.calledExpression.MemberAccess? && call.calledExpression.base.Some?
    requires call.calledExpression.base.value.DeclReference? && call.arguments[0].expression.DeclReference?
    ensures PositionsIn(bl, call, checks) == CallPositions(bl, call) + NodePositions(bl, call.calledExpression, checks)
  {
    var callee, arg := call.calledExpression, call.arguments[0].expression;
    var cs := Children(call);
    assert cs == [callee, arg];
    var ownCallee := NodePositions(bl, callee, checks);
    AccessOnIdentifierPositions(bl, callee, checks);
    PositionsInAllStep(bl, cs, checks, call, 0);
    PositionsInAllStep(bl, cs, checks, call, 1);
    PositionsInAllWhole(bl, cs, checks, call);
    IdentifierRecordsNothing(bl, arg, checks);
    assert cs[..0] == [];
    assert PositionsInAll(bl, cs, checks, call) == ownCallee;
  }

  /**
   * Under the init-method rule, a recorded one-argument call whose member
   * access holds exactly one blacklisted name is recorded exactly twice.
   */
  lemma OneArgumentCallRecordedTwice(bl: Blacklist, call: Syntax)
    requires call.FunctionCall? && |call.arguments| == 1 && call.trailingClosures == []
    requires call.calledExpression.MemberAccess? && call.calledExpression.base.Some?
    requires call.calledExpression.base.value.DeclReference? && call.arguments[0].expression.DeclReference?
    requires CallPositions(bl, call) == [call.position]
    requires MemberHits(FlatMembers(bl), call.calledExpression.trimmedText, call.calledExpression.position)
          == [call.calledExpression.position]
    ensures PositionsIn(bl, call, true) == [call.position, call.calledExpression.position]
  {
    OneArgumentCallPositions(bl, call, true);
  }

  /**
   * With the installed blacklist, the init-method rule records
   * `Data.init(contentsOf: url)` exactly twice: at the call, then at its member
   * access, whose text contains `init` but not the other blacklisted name.
   */
  lemma InitMethodRecordsDataInitTwice(p: nat, q: nat)
    ensures PositionsIn(ExpensiveApis,
      FunctionCall(MemberAccess(Some(DeclReference("Data")), "init", "Data.init", q),
                   [LabeledExpr(Some("contentsOf"), DeclReference("url"))], [], p), true) == [p, q]
  {
    var callee := MemberAccess(Some(DeclReference("Data")), "init", "Data.init", q);
    var call := FunctionCall(callee, [LabeledExpr(Some("contentsOf"), DeclReference("url"))], [], p);
    DataInitCallRecorded(call);
    DataInitMemberHits(q);
    OneArgumentCallRecordedTwice(ExpensiveApis, call);
  }

  // ---------------------------------------------------------------- rule walk

  function WithReason(positions: seq<nat>, reason: Option<string>): seq<RuleViolation>
  {
    seq(|positions|, i requires 0 <= i < |positions| => RuleViolation(positions[i], reason))
  }

  /** What the initializer rule records for one binding: its initializer value's calls, without a reason. */
  function InitializerViolations(bl: Blacklist, binding: PatternBinding): seq<RuleViolation>
  {
    match binding.initializer
    case Some(value) => WithReason(PositionsIn(bl, value, false), None)
    case None => []
  }

  function BindingViolations(bl: Blacklist, bindings: seq<PatternBinding>): seq<RuleViolation>
  {
    if bindings == [] then []
    else BindingViolations(bl, bindings[..|bindings| - 1]) + InitializerViolations(bl, bindings[|bindings| - 1])
  }

  lemma BindingViolationsStep(bl: Blacklist, bindings: seq<PatternBinding>, i: nat)
    requires i < |bindings|
    ensures BindingViolations(bl, bindings[..i + 1]) == BindingViolations(bl, bindings[..i]) + InitializerViolations(bl, bindings[i])
  {
    assert bindings[..i + 1][..i] == bindings[..i];
  }

  /** What visiting `n` itself records under `rule`. */
  function DeclViolations(bl: Blacklist, rule: LintRule, n: Syntax, parentIsFile: bool): seq<RuleViolation>
  {
    match n
    case VariableDecl(modifiers, bindings) =>
      if rule.ExpensiveInitializer? && LaunchGuardSyntax.IsSensitiveVariable(modifiers, parentIsFile)
      then BindingViolations(bl, bindings) else []
    case InitializerDecl(body) =>
      if rule.ExpensiveInitMethod? && body.Some?
      then WithReason(PositionsIn(bl, body.value, true), Some(InitMethodReason)) else []
    case _ => []
  }

  /** Everything `rule` records at `n` and below it, in pre-order. */
  function ViolationsIn(bl: Blacklist, rule: LintRule, n: Syntax, parentIsFile: bool): seq<RuleViolation>
    decreases n, |Children(n)| + 1
  {
    DeclViolations(bl, rule, n, parentIsFile) + ViolationsInAll(bl, rule, Children(n), n.SourceFile?, n)
  }

  function ViolationsInAll(bl: Blacklist, rule: LintRule, ns: seq<Syntax>, parentIsFile: bool, ghost parent: Syntax): seq<RuleViolation>
    requires forall i :: 0 <= i < |ns| ==> ns[i] < parent
    decreases parent, |ns|
  {
    if ns == [] then []
    else ViolationsInAll(bl, rule, ns[..|ns| - 1], parentIsFile, parent) + ViolationsIn(bl, rule, ns[|ns| - 1], parentIsFile)
  }

  lemma ViolationsInAllStep(bl: Blacklist, rule: LintRule, ns: seq<Syntax>, parentIsFile: bool, parent: Syntax, i: nat)
    requires forall j :: 0 <= j < |ns| ==> ns[j] < parent
    requires i < |ns|
    ensures ViolationsInAll(bl, rule, ns[..i + 1], parentIsFile, parent)
         == ViolationsInAll(bl, rule, ns[..i], parentIsFile, parent) + ViolationsIn(bl, rule, ns[i], parentIsFile)
  {
    assert ns[..i + 1][..i] == ns[..i];
  }

  lemma ViolationsInAllWhole(bl: Blacklist, rule: LintRule, ns: seq<Syntax>, parentIsFile: bool, parent: Syntax)
    requires forall j :: 0 <= j < |ns| ==> ns[j] < parent
    ensures ViolationsInAll(bl, rule, ns[..|ns|], parentIsFile, parent) == ViolationsInAll(bl, rule, ns, parentIsFile, parent)
  {
    assert ns[..|ns|] == ns;
  }

  /** Each rule looks at one kind of declaration only: variables for one, initializers for the other. */
  lemma {:induction false} ViolationsInAllHasChild(bl: Blacklist, rule: LintRule, ns: seq<Syntax>, parentIsFile: bool, parent: Syntax, i: nat)
    requires forall j :: 0 <= j < |ns| ==> ns[j] < parent
    requires i < |ns|
    ensures multiset(ViolationsIn(bl, rule, ns[i], parentIsFile)) <= multiset(ViolationsInAll(bl, rule, ns, parentIsFile, parent))
    decreases |ns|
  {
    if i < |ns| - 1 {
      ViolationsInAllHasChild(bl, rule, ns[..|ns| - 1], parentIsFile, parent, i);
    }
  }

  /**
   * Every `init` anywhere in the file, whatever encloses it, is checked by the
   * init-method rule: its violations appear among the rule's.
   */
  lemma {:induction false} InitViolationsComplete(bl: Blacklist, d: Syntax, n: Syntax, parentIsFile: bool)
    requires LaunchGuardSyntax.Within(d, n) && d.InitializerDecl?
    ensures multiset(DeclViolations(bl, ExpensiveInitMethod, d, false))
         <= multiset(ViolationsIn(bl, ExpensiveInitMethod, n, parentIsFile))
    decreases n
  {
    if d != n {
      var i :| 0 <= i < |Children(n)| && LaunchGuardSyntax.Within(d, Children(n)[i]);
      InitViolationsComplete(bl, d, Children(n)[i], n.SourceFile?);
      ViolationsInAllHasChild(bl, ExpensiveInitMethod, Children(n), n.SourceFile?, n, i);
    }
  }

  /**
   * Every `static` declaration anywhere in the file, whatever encloses it, is
   * checked by the initializer rule: its violations appear among the rule's.
   */
  lemma {:induction false} StaticViolationsComplete(bl: Blacklist, d: Syntax, n: Syntax, parentIsFile: bool)
    requires LaunchGuardSyntax.Within(d, n) && d.VariableDecl? && "static" in d.modifiers
    ensures multiset(DeclViolations(bl, ExpensiveInitializer, d, false))
         <= multiset(ViolationsIn(bl, ExpensiveInitializer, n, parentIsFile))
    decreases n
  {
    if d != n {
      var i :| 0 <= i < |Children(n)| && LaunchGuardSyntax.Within(d, Children(n)[i]);
      StaticViolationsComplete(bl, d, Children(n)[i], n.SourceFile?);
      ViolationsInAllHasChild(bl, ExpensiveInitializer, Children(n), n.SourceFile?, n, i);
    }
  }

  lemma RulesSplitDeclarations(bl: Blacklist, n: Syntax, parentIsFile: bool)
    ensures DeclViolations(bl, ExpensiveInitializer, n, parentIsFile) != [] ==> n.VariableDecl?
    ensures DeclViolations(bl, ExpensiveInitMethod, n, parentIsFile) != [] ==> n.InitializerDecl?
    ensures forall v :: v in DeclViolations(bl, ExpensiveInitializer, n, parentIsFile) ==> v.reason.None?
    ensures forall v :: v in DeclViolations(bl, ExpensiveInitMethod, n, parentIsFile) ==> v.reason == Some(InitMethodReason)
  {
    if n.VariableDecl? && LaunchGuardSyntax.IsSensitiveVariable(n.modifiers, parentIsFile) {
      BindingViolationsHaveNoReason(bl, n.bindings);
    }
  }

  lemma {:induction false} BindingViolationsHaveNoReason(bl: Blacklist, bindings: seq<PatternBinding>)
    ensures forall v :: v in BindingViolations(bl, bindings) ==> v.reason.None?
    decreases |bindings|
  {
    if bindings != [] {
      BindingViolationsHaveNoReason(bl, bindings[..|bindings| - 1]);
    }
  }

  // ---------------------------------------------------------------- the rules' own examples

  /** A bare identifier records nothing, whichever visitor walks it. */
  lemma IdentifierRecordsNothing(bl: Blacklist, n: Syntax, checksMemberAccess: bool)
    requires n.DeclReference?
    ensures PositionsIn(bl, n, checksMemberAccess) == []
  {
    assert Children(n) == [];
  }

  lemma {:induction false} IdentifiersRecordNothing(bl: Blacklist, ns: seq<Syntax>, checksMemberAccess: bool, parent: Syntax)
    requires forall j :: 0 <= j < |ns| ==> ns[j] < parent
    requires forall j :: 0 <= j < |ns| ==> ns[j].DeclReference?
    ensures PositionsInAll(bl, ns, checksMemberAccess, parent) == []
    decreases |ns|
  {
    if ns != [] {
      IdentifiersRecordNothing(bl, ns[..|ns| - 1], checksMemberAccess, parent);
      IdentifierRecordsNothing(bl, ns[|ns| - 1], checksMemberAccess);
    }
  }

  /** The initializer rule on a declaration with one binding reports exactly that binding's calls. */
  lemma SingleBindingViolations(bl: Blacklist, modifiers: seq<string>, value: Syntax, parentIsFile: bool)
    requires LaunchGuardSyntax.IsSensitiveVariable(modifiers, parentIsFile)
    ensures DeclViolations(bl, ExpensiveInitializer, VariableDecl(modifiers, [PatternBinding(Some(value), None)]), parentIsFile)
         == WithReason(PositionsIn(bl, value, false), None)
  {
    var bindings := [PatternBinding(Some(value), None)];
    assert bindings[..|bindings| - 1] == [];
    assert BindingViolations(bl, bindings) == [] + InitializerViolations(bl, bindings[0]);
  }

  /** `static let shared = MyManager()`: a bare initializer call is not reported. */
  lemma SharedInstanceNotReported(p: nat)
    ensures DeclViolations(ExpensiveApis, ExpensiveInitializer,
      VariableDecl(["static"], [PatternBinding(Some(FunctionCall(DeclReference("MyManager"), [], [], p)), None)]), false) == []
  {
    var call := FunctionCall(DeclReference("MyManager"), [], [], p);
    assert Children(call) == [DeclReference("MyManager")];
    IdentifiersRecordNothing(ExpensiveApis, Children(call), false, call);
    SingleBindingViolations(ExpensiveApis, ["static"], call, false);
  }

  /** `let globalValue = 10`: a global whose value holds no call is not reported. */
  lemma GlobalValueNotReported()
    ensures DeclViolations(ExpensiveApis, ExpensiveInitializer,
      VariableDecl([], [PatternBinding(Some(Other([])), None)]), true) == []
  {
    assert Children(Other([])) == [];
    SingleBindingViolations(ExpensiveApis, [], Other([]), true);
  }

  /** A call `Base.member()` of a blacklisted pair records its own position, and nothing below it does. */
  lemma QualifiedCallRecordedOnce(bl: Blacklist, i: nat, base: string, member: string, text: string, p: nat, q: nat)
    requires WellFormed(bl) && i < |bl| && bl[i].base == base && member in bl[i].members
    ensures PositionsIn(bl, FunctionCall(MemberAccess(Some(DeclReference(base)), member, text, q), [], [], p), false) == [p]
  {
    var callee := MemberAccess(Some(DeclReference(base)), member, text, q);
    var call := FunctionCall(callee, [], [], p);
    MatchesExactly(bl, base, member);
    assert CallPositions(bl, call) == [p];
    assert Children(callee) == [DeclReference(base)];
    IdentifiersRecordNothing(bl, Children(callee), false, callee);
    assert Children(call) == [callee];
    assert PositionsInAll(bl, Children(call), false, call) == PositionsIn(bl, callee, false);
  }

  /**
   * `static let cryptoResult = CryptoHelper.performExpensiveSyncOperation()`
   * is reported once, at the call, without a reason.
   */
  lemma StaticCryptoResultReported(text: string, p: nat, q: nat)
    ensures var callee := MemberAccess(Some(DeclReference("CryptoHelper")), "performExpensiveSyncOperation", text, q);
      DeclViolations(ExpensiveApis, ExpensiveInitializer,
        VariableDecl(["static"], [PatternBinding(Some(FunctionCall(callee, [], [], p)), None)]), false)
      == [RuleViolation(p, None)]
  {
    ExpensiveApisWellFormed();
    var callee := MemberAccess(Some(DeclReference("CryptoHelper")), "performExpensiveSyncOperation", text, q);
    QualifiedCallRecordedOnce(ExpensiveApis, 1, "CryptoHelper", "performExpensiveSyncOperation", text, p, q);
    SingleBindingViolations(ExpensiveApis, ["static"], FunctionCall(callee, [], [], p), false);
  }

  /**
   * `Data(contentsOf: url)`, listed among both rules' triggering examples,
   * is recorded by neither call visitor: its callee is a bare identifier,
   * which has no base, and it contains no member access.
   */
  lemma DataContentsOfNotRecorded(p: nat, checksMemberAccess: bool)
    ensures PositionsIn(ExpensiveApis,
      FunctionCall(DeclReference("Data"), [LabeledExpr(Some("contentsOf"), DeclReference("url"))], [], p),
      checksMemberAccess) == []
  {
    var call := FunctionCall(DeclReference("Data"), [LabeledExpr(Some("contentsOf"), DeclReference("url"))], [], p);
    assert Children(call) == [DeclReference("Data"), DeclReference("url")];
    IdentifiersRecordNothing(ExpensiveApis, Children(call), checksMemberAccess, call);
  }

  // ---------------------------------------------------------------- visitors

  /** The call visitor of either rule; the init-method rule's one also checks member accesses. */
  class CallPositionVisitor {
    const checksMemberAccess: bool
    var violationPositions: seq<nat>

    constructor(checksMemberAccess: bool)
      ensures this.checksMemberAccess == checksMemberAccess && violationPositions == []
    {
      this.checksMemberAccess := checksMemberAccess;
      violationPositions := [];
    }

    method VisitFunctionCall(node: Syntax)
      requires node.FunctionCall?
      modifies this
      ensures violationPositions == old(violationPositions) + CallPositions(ExpensiveApis, node)
    {
      var info := ExtractCallInfo(node.calledExpression);
      if info.Some? {
        var base := info.value.base;
        var name := info.value.name;
        if base.Some? {
          var methods := Lookup(ExpensiveApis, base.value);
          if methods.Some? && name in methods.value {
            violationPositions := violationPositions + [node.position];
          }
        }
      }
    }

    /** `visit(MemberAccessExprSyntax)` of the init-method rule: one position per blacklisted name in the access's text. */
    method VisitMemberAccess(node: Syntax)
      requires node.MemberAccess?
      modifies this
      ensures violationPositions == old(violationPositions) + MemberHits(FlatMembers(ExpensiveApis), node.trimmedText, node.position)
    {
      var fullAccess := node.trimmedText;
      var names := FlatMembers(ExpensiveApis);
      for i := 0 to |names|
        invariant violationPositions == old(violationPositions) + MemberHits(names[..i], fullAccess, node.position)
      {
        MemberHitsStep(names, fullAccess, node.position, i);
        if IsSubstring(names[i], fullAccess) {
          violationPositions := violationPositions + [node.position];
        }
      }
      assert names[..|names|] == names;
    }

    /** The visit of `node` itself: a call, or a member access when this visitor checks those. */
    method VisitNode(node: Syntax)
      modifies this
      ensures violationPositions == old(violationPositions) + NodePositions(ExpensiveApis, node, checksMemberAccess)
    {
      if node.FunctionCall? {
        VisitFunctionCall(node);
      } else if node.MemberAccess? && checksMemberAccess {
        VisitMemberAccess(node);
      }
    }

    method Walk(node: Syntax)
      modifies this
      decreases node, 1
      ensures violationPositions == old(violationPositions) + PositionsIn(ExpensiveApis, node, checksMemberAccess)
    {
      VisitNode(node);
      WalkChildren(Children(node), node);
      AppendAssoc(old(violationPositions), NodePositions(ExpensiveApis, node, checksMemberAccess),
                  PositionsInAll(ExpensiveApis, Children(node), checksMemberAccess, node));
    }

    method WalkChildren(children: seq<Syntax>, ghost parent: Syntax)
      requires forall j :: 0 <= j < |children| ==> children[j] < parent
      modifies this
      decreases parent, 0
      ensures violationPositions == old(violationPositions) + PositionsInAll(ExpensiveApis, children, checksMemberAccess, parent)
    {
      for i := 0 to |children|
        invariant violationPositions == old(violationPositions) + PositionsInAll(ExpensiveApis, children[..i], checksMemberAccess, parent)
      {
        Walk(children[i]);
        PositionsInAllStep(ExpensiveApis, children, checksMemberAccess, parent, i);
        AppendAssoc(old(violationPositions), PositionsInAll(ExpensiveApis, children[..i], checksMemberAccess, parent),
                    PositionsIn(ExpensiveApis, children[i], checksMemberAccess));
      }
      PositionsInAllWhole(ExpensiveApis, children, checksMemberAccess, parent);
    }
  }

  /** The file visitor of one rule, collecting what SwiftLint reports for it. */
  class RuleVisitor {
    const rule: LintRule
    var violations: seq<RuleViolation>

    constructor(rule: LintRule)
      ensures this.rule == rule && violations == []
    {
      this.rule := rule;
      violations := [];
    }

    /** Appends every position collected by a call visitor, with the given reason. */
    method AppendViolations(positions: seq<nat>, reason: Option<string>)
      modifies this
      ensures violations == old(violations) + WithReason(positions, reason)
    {
      for i := 0 to |positions|
        invariant violations == old(violations) + WithReason(positions[..i], reason)
      {
        assert WithReason(positions[..i + 1], reason) == WithReason(positions[..i], reason) + [RuleViolation(positions[i], reason)];
        violations := violations + [RuleViolation(positions[i], reason)];
      }
      assert positions[..|positions|] == positions;
    }

    /** `visit(VariableDeclSyntax)` of the initializer rule. */
    method VisitVariableDecl(node: Syntax, parentIsFile: bool)
      requires node.VariableDecl? && rule.ExpensiveInitializer?
      modifies this
      ensures violations == old(violations) + DeclViolations(ExpensiveApis, rule, node, parentIsFile)
    {
      var isGlobal := parentIsFile;
      var isStatic := "static" in node.modifiers;
      if !(isGlobal || isStatic) {
        return;
      }
      var bindings := node.bindings;
      for i := 0 to |bindings|
        invariant violations == old(violations) + BindingViolations(ExpensiveApis, bindings[..i])
      {
        VisitBinding(bindings[i]);
        BindingViolationsStep(ExpensiveApis, bindings, i);
        AppendAssoc(old(violations), BindingViolations(ExpensiveApis, bindings[..i]), InitializerViolations(ExpensiveApis, bindings[i]));
      }
      assert bindings[..|bindings|] == bindings;
    }

    method VisitBinding(binding: PatternBinding)
      modifies this
      ensures violations == old(violations) + InitializerViolations(ExpensiveApis, binding)
    {
      if binding.initializer.Some? {
        var callVisitor := new CallPositionVisitor(false);
        callVisitor.Walk(binding.initializer.value);
        AppendViolations(callVisitor.violationPositions, None);
      }
    }

    /** `visit(InitializerDeclSyntax)` of the init-method rule. */
    method VisitInitializerDecl(node: Syntax)
      requires node.InitializerDecl? && rule.ExpensiveInitMethod?
      modifies this
      ensures violations == old(violations) + DeclViolations(ExpensiveApis, rule, node, false)
    {
      if node.body.Some? {
        var callVisitor := new CallPositionVisitor(true);
        callVisitor.Walk(node.body.value);
        var reason := InitMethodReason;
        AppendViolations(callVisitor.violationPositions, Some(reason));
      }
    }

    method Walk(node: Syntax, parentIsFile: bool)
      modifies this
      decreases node, 1
      ensures violations == old(violations) + ViolationsIn(ExpensiveApis, rule, node, parentIsFile)
    {
      if node.VariableDecl? && rule.ExpensiveInitializer? {
        VisitVariableDecl(node, parentIsFile);
      } else if node.InitializerDecl? && rule.ExpensiveInitMethod? {
        VisitInitializerDecl(node);
      }
      assert violations == old(violations) + DeclViolations(ExpensiveApis, rule, node, parentIsFile);
      WalkChildren(Children(node), node.SourceFile?, node);
      AppendAssoc(old(violations), DeclViolations(ExpensiveApis, rule, node, parentIsFile),
                  ViolationsInAll(ExpensiveApis, rule, Children(node), node.SourceFile?, node));
    }

    method WalkChildren(children: seq<Syntax>, parentIsFile: bool, ghost parent: Syntax)
      requires forall j :: 0 <= j < |children| ==> children[j] < parent
      modifies this
      decreases parent, 0
      ensures violations == old(violations) + ViolationsInAll(ExpensiveApis, rule, children, parentIsFile, parent)
    {
      for i := 0 to |children|
        invariant violations == old(violations) + ViolationsInAll(ExpensiveApis, rule, children[..i], parentIsFile, parent)
      {
        Walk(children[i], parentIsFile);
        ViolationsInAllStep(ExpensiveApis, rule, children, parentIsFile, parent, i);
        AppendAssoc(old(violations), ViolationsInAll(ExpensiveApis, rule, children[..i], parentIsFile, parent),
                    ViolationsIn(ExpensiveApis, rule, children[i], parentIsFile));
      }
      ViolationsInAllWhole(ExpensiveApis, rule, children, parentIsFile, parent);
    }
  }

  /** Runs one rule over a parsed file and returns its violations in order. */
  method Validate(rule: LintRule, tree: Syntax) returns (violations: seq<RuleViolation>)
    requires tree.SourceFile?
    ensures violations == ViolationsIn(ExpensiveApis, rule, tree, false)
  {
    var visitor := new RuleVisitor(rule);
    visitor.Walk(tree, false);
    violations := visitor.violations;
  }
}
