/**
 * The two diagnostic rules of the clang plugin
 * (src/clang_plugin/LoadMethodFileManagerRule.cpp and
 * src/clang_plugin/MainThreadSyncSDKRule.cpp) and the diagnostics engine
 * they report to.
 *
 * Clang's AST nodes are reduced to the facts the rules ask of them: a method
 * declaration is its class-method flag and selector; a message expression is
 * the record below, whose fields are what `getReceiverInterface`,
 * `getReceiverKind`, the instance receiver's pointer type,
 * `getAncestorOfType<ObjCMethodDecl>` and `getExprLoc` return.
 */
module ClangRules {
  import opened Wrappers

  /** An Objective-C selector, identified by its printed form (`getAsString`). */
  datatype Selector = Selector(text: string)

  datatype ReceiverKind = Class | Instance | SuperClass | SuperInstance

  datatype MethodDecl = MethodDecl(isClassMethod: bool, selector: Selector)

  datatype MessageExpr = MessageExpr(
    /** The name of the receiver's interface, if clang knows it. */
    receiverInterface: Option<string>,
    receiverKind: ReceiverKind,
    /** For an instance receiver of object-pointer type, the name of the pointee interface, if any. */
    instanceReceiverInterface: Option<string>,
    selector: Selector,
    /** The nearest enclosing method declaration, if any. */
    enclosingMethod: Option<MethodDecl>,
    /** Whether the message sends to a class method. */
    isClassMethod: bool,
    location: nat)

  /** A custom warning diagnostic: where it was reported and its text. */
  datatype Warning = Warning(location: nat, message: string)

  /** Clang's diagnostics engine, reduced to the warnings reported to it, in order. */
  class DiagnosticsEngine {
    var warnings: seq<Warning>

    constructor()
      ensures warnings == []
    {
      warnings := [];
    }

    /** `reportWarning`: a custom warning with the given text, at the given location. */
    method ReportWarning(location: nat, message: string)
      modifies this
      ensures warnings == old(warnings) + [Warning(location, message)]
    {
      warnings := warnings + [Warning(location, message)];
    }
  }

  // ---------------------------------------------------------------- LoadMethodFileManagerRule

  const LoadSelectorText := "load"
  const FileManagerInterface := "NSFileManager"
  const FileExistsAtPath := Selector("fileExistsAtPath:")
  const CreateDirectoryAtPath := Selector("createDirectoryAtPath:withIntermediateDirectories:attributes:error:")

  /** The selectors `initialize` installs, in order. */
  const LoadTargetSelectors := [FileExistsAtPath, CreateDirectoryAtPath]

  const LoadMessagePrefix := "在 +load 方法中调用 NSFileManager 的方法 '"
  const LoadMessageSuffix := "' 可能导致启动性能问题。"

  /** A class method named `load`. */
  predicate IsLoadMethod(d: MethodDecl)
  {
    d.isClassMethod && d.selector.text == LoadSelectorText
  }

  /** The receiver is `NSFileManager` itself, or an instance whose pointer type names it. */
  predicate ReceiverIsFileManager(e: MessageExpr)
  {
    e.receiverInterface == Some(FileManagerInterface)
    || (e.receiverKind == Instance && e.instanceReceiverInterface == Some(FileManagerInterface))
  }

  /** What the rule reports for one message expression, given its target selectors. */
  function LoadRuleWarnings(targets: seq<Selector>, e: MessageExpr): (ws: seq<Warning>)
    ensures |ws| <= 1
  {
    if e.enclosingMethod.Some? && IsLoadMethod(e.enclosingMethod.value) && ReceiverIsFileManager(e) && e.selector in targets
    then [Warning(e.location, LoadMessagePrefix + e.selector.text + LoadMessageSuffix)]
    else []
  }

  /**
   * The rule warns exactly for a targeted selector sent to the file manager
   * from inside a `+load` class method, and the warning names that selector
   * between the fixed prefix and suffix.
   */
  lemma LoadRuleWarnsExactly(targets: seq<Selector>, e: MessageExpr)
    ensures LoadRuleWarnings(targets, e) != [] <==>
      (exists d :: e.enclosingMethod == Some(d) && d.isClassMethod && d.selector.text == "load")
      && (e.receiverInterface == Some("NSFileManager")
          || (e.receiverKind == Instance && e.instanceReceiverInterface == Some("NSFileManager")))
      && (exists i :: 0 <= i < |targets| && targets[i] == e.selector)
    ensures forall w :: w in LoadRuleWarnings(targets, e) ==>
      w.location == e.location
      && w.message[..|LoadMessagePrefix|] == LoadMessagePrefix
      && w.message[|LoadMessagePrefix|..|w.message| - |LoadMessageSuffix|] == e.selector.text
      && w.message[|w.message| - |LoadMessageSuffix|..] == LoadMessageSuffix
  {
    if LoadRuleWarnings(targets, e) != [] {
      var m := LoadMessagePrefix + e.selector.text + LoadMessageSuffix;
      assert m[..|LoadMessagePrefix|] == LoadMessagePrefix;
      assert m[|LoadMessagePrefix|..|m| - |LoadMessageSuffix|] == e.selector.text;
      assert m[|m| - |LoadMessageSuffix|..] == LoadMessageSuffix;
    }
  }

  /** A selector listed twice is still reported once: the search stops at the first match. */
  lemma LoadRuleIgnoresRepeatedTargets(targets: seq<Selector>, e: MessageExpr)
    ensures LoadRuleWarnings(targets + targets, e) == LoadRuleWarnings(targets, e)
  {
  }

  /** With the installed targets, exactly the two file-manager selectors are reported. */
  lemma InstalledLoadTargets(e: MessageExpr)
    requires e.enclosingMethod.Some? && IsLoadMethod(e.enclosingMethod.value) && ReceiverIsFileManager(e)
    ensures LoadRuleWarnings(LoadTargetSelectors, e) != [] <==>
      e.selector.text == "fileExistsAtPath:"
      || e.selector.text == "createDirectoryAtPath:withIntermediateDirectories:attributes:error:"
  {
  }

  class LoadMethodFileManagerRule {
    const diags: DiagnosticsEngine
    var isInLoadMethod: bool
    var targetSelectors: seq<Selector>
    /** How often the plugin has called `initialize` and `finalize` on this rule. */
    ghost var initializeCalls: nat
    ghost var finalizeCalls: nat

    constructor(diags: DiagnosticsEngine)
      ensures this.diags == diags
      ensures !isInLoadMethod && targetSelectors == []
      ensures initializeCalls == 0 && finalizeCalls == 0
    {
      this.diags := diags;
      isInLoadMethod := false;
      targetSelectors := [];
      initializeCalls := 0;
      finalizeCalls := 0;
    }

    /** Installs the two target selectors, in order. */
    method Initialize()
      modifies this
      ensures targetSelectors == old(targetSelectors) + LoadTargetSelectors
      ensures isInLoadMethod == old(isInLoadMethod)
      ensures initializeCalls == old(initializeCalls) + 1 && finalizeCalls == old(finalizeCalls)
    {
      targetSelectors := targetSelectors + [FileExistsAtPath];
      targetSelectors := targetSelectors + [CreateDirectoryAtPath];
      initializeCalls := initializeCalls + 1;
    }

    /** The inherited `finalize`, which does nothing. */
    method Finalize()
      modifies this
      ensures targetSelectors == old(targetSelectors) && isInLoadMethod == old(isInLoadMethod)
      ensures initializeCalls == old(initializeCalls) && finalizeCalls == old(finalizeCalls) + 1
    {
      finalizeCalls := finalizeCalls + 1;
    }

    /** Raises the flag on entering a `+load` method; nothing ever lowers it. */
    method VisitObjCMethodDecl(d: MethodDecl) returns (shouldContinue: bool)
      modifies this
      ensures shouldContinue
      ensures isInLoadMethod == (old(isInLoadMethod) || IsLoadMethod(d))
      ensures targetSelectors == old(targetSelectors)
      ensures initializeCalls == old(initializeCalls) && finalizeCalls == old(finalizeCalls)
    {
      if d.isClassMethod && d.selector.text == LoadSelectorText {
        isInLoadMethod := true;
      }
      shouldContinue := true;
    }

    /** Checks one message expression; the search over the targets stops at the first match. */
    method VisitObjCMessageExpr(e: MessageExpr) returns (shouldContinue: bool)
      modifies diags
      ensures shouldContinue
      ensures diags.warnings == old(diags.warnings) + LoadRuleWarnings(targetSelectors, e)
    {
      shouldContinue := true;
      var parentMethod := e.enclosingMethod;
      if parentMethod.None? || !parentMethod.value.isClassMethod || parentMethod.value.selector.text != LoadSelectorText {
        return;
      }
      var receiverDecl := e.receiverInterface;
      if receiverDecl.None? || receiverDecl.value != FileManagerInterface {
        if e.receiverKind == Instance {
          var pointee := e.instanceReceiverInterface;
          if pointee.None? || pointee.value != FileManagerInterface {
            return;
          }
        } else {
          return;
        }
      }
      var calledSelector := e.selector;
      var i := 0;
      while i < |targetSelectors|
        invariant 0 <= i <= |targetSelectors|
        invariant calledSelector !in targetSelectors[..i]
        invariant diags.warnings == old(diags.warnings)
      {
        if calledSelector == targetSelectors[i] {
          var message := LoadMessagePrefix + calledSelector.text + LoadMessageSuffix;
          diags.ReportWarning(e.location, message);
          break;
        }
        assert targetSelectors[..i + 1] == targetSelectors[..i] + [targetSelectors[i]];
        i := i + 1;
      }
      assert i == |targetSelectors| ==> targetSelectors[..i] == targetSelectors;
    }
  }

  /** The flag after visiting `decls` in order, starting from `flag`. */
  function FlagAfter(flag: bool, decls: seq<MethodDecl>): bool
  {
    if decls == [] then flag else FlagAfter(flag, decls[..|decls| - 1]) || IsLoadMethod(decls[|decls| - 1])
  }

  /** The flag is sticky: it is up after a sequence of declarations iff it was up before or one of them is `+load`. */
  lemma {:induction false} FlagAfterSticky(flag: bool, decls: seq<MethodDecl>)
    ensures FlagAfter(flag, decls) <==> flag || exists i :: 0 <= i < |decls| && IsLoadMethod(decls[i])
    decreases |decls|
  {
    if decls != [] {
      var init := decls[..|decls| - 1];
      FlagAfterSticky(flag, init);
      if exists i :: 0 <= i < |init| && IsLoadMethod(init[i]) {
        var i :| 0 <= i < |init| && IsLoadMethod(init[i]);
        assert decls[i] == init[i];
      }
      if exists i :: 0 <= i < |decls| && IsLoadMethod(decls[i]) {
        var i :| 0 <= i < |decls| && IsLoadMethod(decls[i]);
        if i < |init| {
          assert init[i] == decls[i];
        }
      }
    }
  }

  // ---------------------------------------------------------------- MainThreadSyncSDKRule

  /** A monitored SDK call: a receiver class name and a selector. */
  datatype SdkCall = SdkCall(className: string, selector: Selector)

  /** The targets `initialize` installs: `+[Bugly startWithAppId:]`. */
  const SyncTargetCalls := [SdkCall("Bugly", Selector("startWithAppId:"))]

  const SyncMessagePrefix := "检测到调用 '"
  const SyncMessageSuffix := "'。请确认此调用是否发生在主线程，以及是否可能导致性能问题。"

  /** The text of the warning for `className`, the method kind of `e` and its selector. */
  function SyncMessage(className: string, e: MessageExpr): string
  {
    SyncMessagePrefix + className + (if e.isClassMethod then " +" else " -") + e.selector.text + SyncMessageSuffix
  }

  /** What the rule reports for one message expression, given its targets. */
  function SyncRuleWarnings(targets: seq<SdkCall>, e: MessageExpr): (ws: seq<Warning>)
    ensures |ws| <= 1
  {
    if e.receiverInterface.Some? && SdkCall(e.receiverInterface.value, e.selector) in targets
    then [Warning(e.location, SyncMessage(e.receiverInterface.value, e))]
    else []
  }

  /**
   * The rule warns exactly when the receiver's interface is known and some
   * target has that class name and the sent selector; the warning names the
   * class, the method kind and the selector.
   */
  lemma SyncRuleWarnsExactly(targets: seq<SdkCall>, e: MessageExpr)
    ensures SyncRuleWarnings(targets, e) != [] <==>
      exists i :: 0 <= i < |targets| && Some(targets[i].className) == e.receiverInterface
                  && targets[i].selector == e.selector
    ensures forall w :: w in SyncRuleWarnings(targets, e) ==>
      var name := e.receiverInterface.value;
      var kind := if e.isClassMethod then " +" else " -";
      w.location == e.location
      && w.message[..|SyncMessagePrefix|] == SyncMessagePrefix
      && w.message[|SyncMessagePrefix|..|SyncMessagePrefix| + |name|] == name
      && w.message[|SyncMessagePrefix| + |name|..|SyncMessagePrefix| + |name| + 2] == kind
      && w.message[|SyncMessagePrefix| + |name| + 2..|w.message| - |SyncMessageSuffix|] == e.selector.text
  {
    if e.receiverInterface.Some? && SdkCall(e.receiverInterface.value, e.selector) in targets {
      var i :| 0 <= i < |targets| && targets[i] == SdkCall(e.receiverInterface.value, e.selector);
      var name := e.receiverInterface.value;
      var kind := if e.isClassMethod then " +" else " -";
      var m := SyncMessage(name, e);
      assert m == SyncMessagePrefix + name + kind + e.selector.text + SyncMessageSuffix;
      assert m[..|SyncMessagePrefix|] == SyncMessagePrefix;
      assert m[|SyncMessagePrefix|..|SyncMessagePrefix| + |name|] == name;
      assert m[|SyncMessagePrefix| + |name|..|SyncMessagePrefix| + |name| + 2] == kind;
      assert m[|SyncMessagePrefix| + |name| + 2..|m| - |SyncMessageSuffix|] == e.selector.text;
    }
  }

  /** Without a known receiver interface (an unresolved instance receiver, say) nothing is reported. */
  lemma SyncRuleNeedsReceiverInterface(targets: seq<SdkCall>, e: MessageExpr)
    requires e.receiverInterface.None?
    ensures SyncRuleWarnings(targets, e) == []
  {
  }

  /** With the installed target, only `startWithAppId:` sent to `Bugly` is reported. */
  lemma InstalledSyncTarget(e: MessageExpr)
    ensures SyncRuleWarnings(SyncTargetCalls, e) != [] <==>
      e.receiverInterface == Some("Bugly") && e.selector == Selector("startWithAppId:")
  {
  }

  class MainThreadSyncSDKRule {
    const diags: DiagnosticsEngine
    var targetSDKCalls: seq<SdkCall>
    ghost var initializeCalls: nat
    ghost var finalizeCalls: nat

    constructor(diags: DiagnosticsEngine)
      ensures this.diags == diags && targetSDKCalls == []
      ensures initializeCalls == 0 && finalizeCalls == 0
    {
      this.diags := diags;
      targetSDKCalls := [];
      initializeCalls := 0;
      finalizeCalls := 0;
    }

    /** Installs the one monitored call. */
    method Initialize()
      modifies this
      ensures targetSDKCalls == old(targetSDKCalls) + SyncTargetCalls
      ensures initializeCalls == old(initializeCalls) + 1 && finalizeCalls == old(finalizeCalls)
    {
      targetSDKCalls := targetSDKCalls + [SdkCall("Bugly", Selector("startWithAppId:"))];
      initializeCalls := initializeCalls + 1;
    }

    /** The inherited `finalize`, which does nothing. */
    method Finalize()
      modifies this
      ensures targetSDKCalls == old(targetSDKCalls)
      ensures initializeCalls == old(initializeCalls) && finalizeCalls == old(finalizeCalls) + 1
    {
      finalizeCalls := finalizeCalls + 1;
    }

    /** The inherited `visitObjCMethodDecl`, which only asks to continue. */
    method VisitObjCMethodDecl(d: MethodDecl) returns (shouldContinue: bool)
      ensures shouldContinue
    {
      shouldContinue := true;
    }

    /** Checks one message expression; the search over the targets stops at the first match. */
    method VisitObjCMessageExpr(e: MessageExpr) returns (shouldContinue: bool)
      modifies diags
      ensures shouldContinue
      ensures diags.warnings == old(diags.warnings) + SyncRuleWarnings(targetSDKCalls, e)
    {
      shouldContinue := true;
      var receiverDecl := e.receiverInterface;
      if receiverDecl.None? {
        return;
      }
      var receiverName := receiverDecl.value;
      var calledSelector := e.selector;
      var i := 0;
      while i < |targetSDKCalls|
        invariant 0 <= i <= |targetSDKCalls|
        invariant SdkCall(receiverName, calledSelector) !in targetSDKCalls[..i]
        invariant diags.warnings == old(diags.warnings)
      {
        var targetCall := targetSDKCalls[i];
        if receiverName == targetCall.className && calledSelector == targetCall.selector {
          var message := SyncMessagePrefix;
          message := message + targetCall.className;
          message := message + (if e.isClassMethod then " +" else " -");
          message := message + calledSelector.text;
          message := message + SyncMessageSuffix;
          diags.ReportWarning(e.location, message);
          break;
        }
        assert targetSDKCalls[..i + 1] == targetSDKCalls[..i] + [targetCall];
        i := i + 1;
      }
      assert i == |targetSDKCalls| ==> targetSDKCalls[..i] == targetSDKCalls;
    }
  }
}
