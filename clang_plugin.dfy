/**
 * The clang plugin's driver (src/clang_plugin/LaunchGuardPlugin.cpp): the AST
 * consumer that registers the rules, initializes and finalizes them, and the
 * visitor that hands every Objective-C method declaration and message
 * expression to every registered rule.
 *
 * The visitor only holds a reference to the consumer's rule list, so its two
 * dispatch methods are modelled on the consumer. A registered rule is one of
 * the two rule classes; the list is kept free of repeated objects.
 */
module LaunchGuardPlugin {
  import opened ClangRules
  import Text

  datatype RegisteredRule =
    | LoadRule(load: LoadMethodFileManagerRule)
    | SyncRule(sync: MainThreadSyncSDKRule)

  /** The rule object behind a registry entry. */
  function RuleObject(r: RegisteredRule): object
  {
    match r
    case LoadRule(l) => l
    case SyncRule(s) => s
  }

  function RuleObjects(rules: seq<RegisteredRule>): set<object>
  {
    set i | 0 <= i < |rules| :: RuleObject(rules[i])
  }

  /** No rule object is registered twice. */
  predicate DistinctRules(rules: seq<RegisteredRule>)
  {
    forall i, j :: 0 <= i < j < |rules| ==> RuleObject(rules[i]) != RuleObject(rules[j])
  }

  /** The rules' state is apart from the diagnostics engine they report to. */
  predicate ApartFrom(rules: seq<RegisteredRule>, diags: DiagnosticsEngine)
  {
    forall i :: 0 <= i < |rules| ==> RuleObject(rules[i]) != diags
  }

  /** Every rule reports to `diags`. */
  predicate ReportTo(rules: seq<RegisteredRule>, diags: DiagnosticsEngine)
  {
    forall i :: 0 <= i < |rules| ==>
      match rules[i]
      case LoadRule(l) => l.diags == diags
      case SyncRule(s) => s.diags == diags
  }

  /** The visitor's result after hearing `results` from the rules in order: it starts true and any false makes it false. */
  function AllContinue(results: seq<bool>): bool
  {
    if results == [] then true else AllContinue(results[..|results| - 1]) && results[|results| - 1]
  }

  /** The aggregate is true iff every rule asked to continue; in particular it is true with no rules. */
  lemma {:induction false} AllContinueIffEvery(results: seq<bool>)
    ensures AllContinue(results) <==> forall i :: 0 <= i < |results| ==> results[i]
    decreases |results|
  {
    if results != [] {
      var init := results[..|results| - 1];
      AllContinueIffEvery(init);
      assert forall i :: 0 <= i < |init| ==> init[i] == results[i];
    }
  }

  lemma AllContinueAppend(results: seq<bool>, last: bool)
    ensures AllContinue(results + [last]) == (AllContinue(results) && last)
  {
    assert (results + [last])[..|results|] == results;
  }

  /** The rules of a prefix of the list are rules of the list. */
  lemma RuleObjectsPrefix(rules: seq<RegisteredRule>, k: nat)
    requires k <= |rules|
    ensures RuleObjects(rules[..k]) <= RuleObjects(rules)
  {
    forall o | o in RuleObjects(rules[..k])
      ensures o in RuleObjects(rules)
    {
      var i :| 0 <= i < k && o == RuleObject(rules[..k][i]);
      assert o == RuleObject(rules[i]);
    }
  }

  /** The part of a rule's state that decides what it reports: its targets. */
  datatype RuleConfig =
    | LoadConfig(targetSelectors: seq<Selector>)
    | SyncConfig(targetSDKCalls: seq<SdkCall>)

  function Config(r: RegisteredRule): RuleConfig
    reads if r.LoadRule? then r.load as object else r.sync as object
  {
    if r.LoadRule? then LoadConfig(r.load.targetSelectors) else SyncConfig(r.sync.targetSDKCalls)
  }

  function Configs(rules: seq<RegisteredRule>): (cs: seq<RuleConfig>)
    reads RuleObjects(rules)
    ensures |cs| == |rules| && forall i :: 0 <= i < |rules| ==> cs[i] == Config(rules[i])
  {
    if rules == [] then []
    else
      assert RuleObject(rules[|rules| - 1]) in RuleObjects(rules);
      RuleObjectsPrefix(rules, |rules| - 1);
      Configs(rules[..|rules| - 1]) + [Config(rules[|rules| - 1])]
  }

  /** What one rule reports for a message expression. */
  function RuleWarnings(c: RuleConfig, e: MessageExpr): seq<Warning>
  {
    match c
    case LoadConfig(targets) => LoadRuleWarnings(targets, e)
    case SyncConfig(targets) => SyncRuleWarnings(targets, e)
  }

  /** What all rules report for a message expression, in registration order. */
  function DispatchWarnings(cs: seq<RuleConfig>, e: MessageExpr): seq<Warning>
  {
    if cs == [] then []
    else DispatchWarnings(cs[..|cs| - 1], e) + RuleWarnings(cs[|cs| - 1], e)
  }

  lemma DispatchWarningsStep(cs: seq<RuleConfig>, e: MessageExpr, i: nat)
    requires i < |cs|
    ensures DispatchWarnings(cs[..i + 1], e) == DispatchWarnings(cs[..i], e) + RuleWarnings(cs[i], e)
  {
    assert cs[..i + 1][..i] == cs[..i];
  }

  /** Each rule reports at most once per message expression, so the dispatch reports at most once per rule. */
  lemma {:induction false} DispatchWarningsBound(cs: seq<RuleConfig>, e: MessageExpr)
    ensures |DispatchWarnings(cs, e)| <= |cs|
    decreases |cs|
  {
    if cs != [] {
      DispatchWarningsBound(cs[..|cs| - 1], e);
    }
  }

  class LaunchGuardAstConsumer {
    const diags: DiagnosticsEngine
    var registeredRules: seq<RegisteredRule>

    ghost predicate Valid()
      reads this
    {
      DistinctRules(registeredRules) && ReportTo(registeredRules, diags) && ApartFrom(registeredRules, diags)
    }

    /**
     * Registers the file-manager rule and then the SDK rule, and only then
     * initializes each of them once.
     */
    constructor(diags: DiagnosticsEngine)
      ensures this.diags == diags && Valid()
      ensures |registeredRules| == 2 && registeredRules[0].LoadRule? && registeredRules[1].SyncRule?
      ensures fresh(registeredRules[0].load) && fresh(registeredRules[1].sync)
      ensures registeredRules[0].load.targetSelectors == LoadTargetSelectors && !registeredRules[0].load.isInLoadMethod
      ensures registeredRules[1].sync.targetSDKCalls == SyncTargetCalls
      ensures registeredRules[0].load.initializeCalls == 1 && registeredRules[0].load.finalizeCalls == 0
      ensures registeredRules[1].sync.initializeCalls == 1 && registeredRules[1].sync.finalizeCalls == 0
      ensures diags.warnings == old(diags.warnings)
    {
      this.diags := diags;
      registeredRules := [];
      new;
      RegisterRules();
      var load := registeredRules[0].load;
      var sync := registeredRules[1].sync;
      InitializeRules();
    }

    /** `registerRules`: appends a fresh rule of each kind, in this order. */
    method RegisterRules()
      requires registeredRules == []
      modifies this
      ensures |registeredRules| == 2 && registeredRules[0].LoadRule? && registeredRules[1].SyncRule?
      ensures fresh(registeredRules[0].load) && fresh(registeredRules[1].sync)
      ensures registeredRules[0].load.targetSelectors == [] && !registeredRules[0].load.isInLoadMethod
      ensures registeredRules[1].sync.targetSDKCalls == []
      ensures registeredRules[0].load.initializeCalls == 0 && registeredRules[0].load.finalizeCalls == 0
      ensures registeredRules[1].sync.initializeCalls == 0 && registeredRules[1].sync.finalizeCalls == 0
      ensures Valid()
    {
      var load := new LoadMethodFileManagerRule(diags);
      registeredRules := registeredRules + [LoadRule(load)];
      var sync := new MainThreadSyncSDKRule(diags);
      registeredRules := registeredRules + [SyncRule(sync)];
      assert registeredRules == [LoadRule(load), SyncRule(sync)];
      forall o | o in RuleObjects(registeredRules)
        ensures o == load || o == sync
      {
        var i :| 0 <= i < 2 && o == RuleObject(registeredRules[i]);
      }
    }

    /** Calls `initialize` on every registered rule, in order. */
    method InitializeRules()
      requires Valid()
      modifies RuleObjects(registeredRules)
      ensures forall i :: 0 <= i < |registeredRules| && registeredRules[i].LoadRule? ==>
        var l := registeredRules[i].load;
        l.targetSelectors == old(l.targetSelectors) + LoadTargetSelectors && l.isInLoadMethod == old(l.isInLoadMethod)
        && l.initializeCalls == old(l.initializeCalls) + 1 && l.finalizeCalls == old(l.finalizeCalls)
      ensures forall i :: 0 <= i < |registeredRules| && registeredRules[i].SyncRule? ==>
        var s := registeredRules[i].sync;
        s.targetSDKCalls == old(s.targetSDKCalls) + SyncTargetCalls
        && s.initializeCalls == old(s.initializeCalls) + 1 && s.finalizeCalls == old(s.finalizeCalls)
    {
      var rules := registeredRules;
      for k := 0 to |rules|
        invariant forall i :: 0 <= i < |rules| && rules[i].LoadRule? ==>
          var l := rules[i].load;
          if i < k then
            l.targetSelectors == old(l.targetSelectors) + LoadTargetSelectors && l.isInLoadMethod == old(l.isInLoadMethod)
            && l.initializeCalls == old(l.initializeCalls) + 1 && l.finalizeCalls == old(l.finalizeCalls)
          else
            l.targetSelectors == old(l.targetSelectors) && l.isInLoadMethod == old(l.isInLoadMethod)
            && l.initializeCalls == old(l.initializeCalls) && l.finalizeCalls == old(l.finalizeCalls)
        invariant forall i :: 0 <= i < |rules| && rules[i].SyncRule? ==>
          var s := rules[i].sync;
          if i < k then
            s.targetSDKCalls == old(s.targetSDKCalls) + SyncTargetCalls
            && s.initializeCalls == old(s.initializeCalls) + 1 && s.finalizeCalls == old(s.finalizeCalls)
          else
            s.targetSDKCalls == old(s.targetSDKCalls)
            && s.initializeCalls == old(s.initializeCalls) && s.finalizeCalls == old(s.finalizeCalls)
      {
        assert RuleObject(rules[k]) in RuleObjects(rules);
        match rules[k] {
          case LoadRule(l) => l.Initialize();
          case SyncRule(s) => s.Initialize();
        }
      }
    }

    /** The destructor: calls `finalize` on every registered rule, in order. */
    method FinalizeRules()
      requires Valid()
      modifies RuleObjects(registeredRules)
      ensures forall i :: 0 <= i < |registeredRules| && registeredRules[i].LoadRule? ==>
        var l := registeredRules[i].load;
        l.targetSelectors == old(l.targetSelectors) && l.isInLoadMethod == old(l.isInLoadMethod)
        && l.initializeCalls == old(l.initializeCalls) && l.finalizeCalls == old(l.finalizeCalls) + 1
      ensures forall i :: 0 <= i < |registeredRules| && registeredRules[i].SyncRule? ==>
        var s := registeredRules[i].sync;
        s.targetSDKCalls == old(s.targetSDKCalls)
        && s.initializeCalls == old(s.initializeCalls) && s.finalizeCalls == old(s.finalizeCalls) + 1
    {
      var rules := registeredRules;
      for k := 0 to |rules|
        invariant forall i :: 0 <= i < |rules| && rules[i].LoadRule? ==>
          var l := rules[i].load;
          l.targetSelectors == old(l.targetSelectors) && l.isInLoadMethod == old(l.isInLoadMethod)
          && l.initializeCalls == old(l.initializeCalls)
          && l.finalizeCalls == old(l.finalizeCalls) + (if i < k then 1 else 0)
        invariant forall i :: 0 <= i < |rules| && rules[i].SyncRule? ==>
          var s := rules[i].sync;
          s.targetSDKCalls == old(s.targetSDKCalls) && s.initializeCalls == old(s.initializeCalls)
          && s.finalizeCalls == old(s.finalizeCalls) + (if i < k then 1 else 0)
      {
        assert RuleObject(rules[k]) in RuleObjects(rules);
        match rules[k] {
          case LoadRule(l) => l.Finalize();
          case SyncRule(s) => s.Finalize();
        }
      }
    }

    /**
     * `VisitObjCMethodDecl` of the visitor: every rule sees the declaration,
     * even after one asked to stop, and the answer is the conjunction of theirs.
     */
    method VisitObjCMethodDecl(d: MethodDecl) returns (shouldContinue: bool, ghost results: seq<bool>)
      requires Valid()
      modifies RuleObjects(registeredRules)
      ensures |results| == |registeredRules| && shouldContinue == AllContinue(results)
      ensures forall i :: 0 <= i < |results| ==> results[i]
      ensures shouldContinue
      ensures forall i :: 0 <= i < |registeredRules| && registeredRules[i].LoadRule? ==>
        var l := registeredRules[i].load;
        l.isInLoadMethod == (old(l.isInLoadMethod) || IsLoadMethod(d)) && l.targetSelectors == old(l.targetSelectors)
        && l.initializeCalls == old(l.initializeCalls) && l.finalizeCalls == old(l.finalizeCalls)
      ensures forall i :: 0 <= i < |registeredRules| && registeredRules[i].SyncRule? ==>
        var s := registeredRules[i].sync;
        s.targetSDKCalls == old(s.targetSDKCalls)
        && s.initializeCalls == old(s.initializeCalls) && s.finalizeCalls == old(s.finalizeCalls)
    {
      var rules := registeredRules;
      shouldContinue := true;
      results := [];
      for k := 0 to |rules|
        invariant |results| == k && shouldContinue && shouldContinue == AllContinue(results)
        invariant forall i :: 0 <= i < |rules| && rules[i].LoadRule? ==>
          var l := rules[i].load;
          l.isInLoadMethod == (old(l.isInLoadMethod) || (i < k && IsLoadMethod(d))) && l.targetSelectors == old(l.targetSelectors)
          && l.initializeCalls == old(l.initializeCalls) && l.finalizeCalls == old(l.finalizeCalls)
        invariant forall i :: 0 <= i < |rules| && rules[i].SyncRule? ==>
          var s := rules[i].sync;
          s.targetSDKCalls == old(s.targetSDKCalls)
          && s.initializeCalls == old(s.initializeCalls) && s.finalizeCalls == old(s.finalizeCalls)
      {
        assert RuleObject(rules[k]) in RuleObjects(rules);
        var ruleContinues: bool;
        match rules[k] {
          case LoadRule(l) => ruleContinues := l.VisitObjCMethodDecl(d);
          case SyncRule(s) => ruleContinues := s.VisitObjCMethodDecl(d);
        }
        if !ruleContinues {
          shouldContinue := false;
        }
        AllContinueAppend(results, ruleContinues);
        results := results + [ruleContinues];
      }
      AllContinueIffEvery(results);
    }

    /**
     * `VisitObjCMessageExpr` of the visitor: every rule sees the expression,
     * their warnings arrive in registration order, and the answer is the
     * conjunction of theirs.
     */
    method VisitObjCMessageExpr(e: MessageExpr) returns (shouldContinue: bool, ghost results: seq<bool>)
      requires Valid()
      modifies diags
      ensures |results| == |registeredRules| && shouldContinue == AllContinue(results)
      ensures forall i :: 0 <= i < |results| ==> results[i]
      ensures shouldContinue
      ensures diags.warnings == old(diags.warnings) + DispatchWarnings(old(Configs(registeredRules)), e)
    {
      var rules := registeredRules;
      ghost var configs := Configs(rules);
      shouldContinue := true;
      results := [];
      for k := 0 to |rules|
        invariant |results| == k && shouldContinue && shouldContinue == AllContinue(results)
        invariant diags.warnings == old(diags.warnings) + DispatchWarnings(configs[..k], e)
      {
        assert RuleObject(rules[k]) != diags;
        assert Config(rules[k]) == configs[k];
        var ruleContinues := DispatchMessage(rules[k], e, diags);
        DispatchWarningsStep(configs, e, k);
        Text.AppendAssoc(old(diags.warnings), DispatchWarnings(configs[..k], e), RuleWarnings(configs[k], e));
        if !ruleContinues {
          shouldContinue := false;
        }
        AllContinueAppend(results, ruleContinues);
        results := results + [ruleContinues];
      }
      AllContinueIffEvery(results);
      assert configs[..|rules|] == configs;
    }
  }

  /** Hands a message expression to one rule, which reports to `diags`. */
  method DispatchMessage(r: RegisteredRule, e: MessageExpr, diags: DiagnosticsEngine) returns (ruleContinues: bool)
    requires if r.LoadRule? then r.load.diags == diags else r.sync.diags == diags
    modifies diags
    ensures ruleContinues
    ensures diags.warnings == old(diags.warnings) + RuleWarnings(Config(r), e)
  {
    match r
    case LoadRule(l) => ruleContinues := l.VisitObjCMessageExpr(e);
    case SyncRule(s) => ruleContinues := s.VisitObjCMessageExpr(e);
  }

}
