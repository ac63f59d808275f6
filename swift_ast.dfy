/**
 * The part of a Swift syntax tree the launch-guard analysers look at, as a
 * closed set of node kinds. Anything else (statements, code blocks,
 * closures, type and function declarations, operators, subscripts, ...) is
 * an `Other` node that only carries its children in source order.
 */
module SwiftAst {
  import opened Wrappers

  datatype TypeSyntax =
    | IdentifierType(name: string)
    | OtherType

  datatype Syntax =
      /** The file root; its statements are the nodes whose parent is the file. */
    | SourceFile(statements: seq<Syntax>)
      /** `static let a = f(), b = g()`: modifier keywords and one binding per pattern. */
    | VariableDecl(modifiers: seq<string>, bindings: seq<PatternBinding>)
      /** `init(...) { body }`; a protocol requirement has no body. */
    | InitializerDecl(body: Option<Syntax>)
      /**
       * `callee(label: value, ...) { ... }`, at the absolute position of its
       * first token. Trailing closures are walked after the arguments but carry
       * no label.
       */
    | FunctionCall(calledExpression: Syntax, arguments: seq<LabeledExpr>, trailingClosures: seq<Syntax>, position: nat)
      /**
       * `base.declName`, or `.declName` when the base is implicit. `trimmedText`
       * is the node's source text with surrounding whitespace removed.
       */
    | MemberAccess(base: Option<Syntax>, declName: string, trimmedText: string, position: nat)
      /** A bare identifier such as `url` or `Data`. */
    | DeclReference(baseName: string)
      /** A type used as an expression, as in `Data.init`. */
    | TypeExpr(typeSyntax: TypeSyntax)
    | Other(children: seq<Syntax>)

  /** `x = value` or `x: T { get { ... } }`: an initializer value and/or an accessor block. */
  datatype PatternBinding = PatternBinding(initializer: Option<Syntax>, accessorBlock: Option<Syntax>)

  datatype LabeledExpr = LabeledExpr(argLabel: Option<string>, expression: Syntax)

  /** The initializer values and accessor blocks of `bindings`, binding by binding, in source order. */
  function BindingChildren(bindings: seq<PatternBinding>): (values: seq<Syntax>)
    ensures forall i :: 0 <= i < |values| ==>
      exists j :: 0 <= j < |bindings|
        && (bindings[j].initializer == Some(values[i]) || bindings[j].accessorBlock == Some(values[i]))
  {
    if bindings == [] then []
    else
      (if bindings[0].initializer.Some? then [bindings[0].initializer.value] else [])
      + (if bindings[0].accessorBlock.Some? then [bindings[0].accessorBlock.value] else [])
      + BindingChildren(bindings[1..])
  }

  /** The expression nodes directly below `n`, in source order. */
  function Children(n: Syntax): (cs: seq<Syntax>)
    ensures forall i :: 0 <= i < |cs| ==> cs[i] < n
  {
    match n
    case SourceFile(statements) => statements
    case VariableDecl(_, bindings) => BindingChildren(bindings)
    case InitializerDecl(body) => if body.Some? then [body.value] else []
    case FunctionCall(callee, arguments, trailingClosures, _) =>
      [callee] + seq(|arguments|, i requires 0 <= i < |arguments| => arguments[i].expression) + trailingClosures
    case MemberAccess(base, _, _, _) => if base.Some? then [base.value] else []
    case DeclReference(_) => []
    case TypeExpr(_) => []
    case Other(children) => children
  }

  /** The accessor block of a binding is one of its declaration's children. */
  lemma {:induction false} AccessorBlockIsChild(bindings: seq<PatternBinding>, j: nat) returns (i: nat)
    requires j < |bindings| && bindings[j].accessorBlock.Some?
    ensures i < |BindingChildren(bindings)| && BindingChildren(bindings)[i] == bindings[j].accessorBlock.value
    decreases j
  {
    var init := if bindings[0].initializer.Some? then [bindings[0].initializer.value] else [];
    var tail := BindingChildren(bindings[1..]);
    if j == 0 {
      assert BindingChildren(bindings) == init + [bindings[0].accessorBlock.value] + tail;
      i := |init|;
    } else {
      var head := init + (if bindings[0].accessorBlock.Some? then [bindings[0].accessorBlock.value] else []);
      assert BindingChildren(bindings) == head + tail;
      var k := AccessorBlockIsChild(bindings[1..], j - 1);
      assert bindings[1..][j - 1] == bindings[j];
      i := |head| + k;
    }
  }

  /**
   * The receiver left after stripping every member-access layer from `e`:
   * `a.b.c` gives `a`, and `.c` (an implicit member) gives nothing.
   */
  function Leftmost(e: Option<Syntax>): (r: Option<Syntax>)
    ensures r.None? || !r.value.MemberAccess?
  {
    if e.Some? && e.value.MemberAccess? then Leftmost(e.value.base) else e
  }

  /** `e` is a member-access chain `root.m1. ... .mk` (k >= 1), with `root` possibly absent. */
  predicate IsAccessChainOver(e: Syntax, root: Option<Syntax>)
  {
    e.MemberAccess? && (e.base == root || (e.base.Some? && IsAccessChainOver(e.base.value, root)))
  }

  /** Unwrapping a chain whose root is not itself a member access ends at that root. */
  lemma {:induction false} LeftmostOfChain(e: Syntax, root: Option<Syntax>)
    requires IsAccessChainOver(e, root)
    requires root.None? || !root.value.MemberAccess?
    ensures Leftmost(e.base) == root
  {
    if e.base != root {
      LeftmostOfChain(e.base.value, root);
    }
  }
}
