/** The slice of the ECMAScript syntax tree that the union-usage checker inspects,
    and the depth-first pre-order walk that replaces the traversal library. */
module Syntax {

  datatype Option<+T> = None | Some(value: T)

  /** Source span of a node: first and last line. */
  datatype Loc = Loc(startLine: nat, endLine: nat)

  /** One specifier of an import declaration. `import { a as b }` is an
      ImportSpecifier("a", "b"); `import b` and `import * as b` carry no
      imported name. */
  datatype Specifier =
    | ImportSpecifier(imported: string, local: string)
    | ImportDefaultSpecifier(local: string)
    | ImportNamespaceSpecifier(local: string)

  datatype Node = Node(loc: Loc, kind: Kind)

  datatype Kind =
    | ImportDeclaration(specifiers: seq<Specifier>, source: string)
    | VariableDeclaration(declarations: seq<Node>)        // its declarators
    | VariableDeclarator(id: Node, init: Option<Node>)    // `id = init`; no init in `let x;`
    | CallExpression(callee: Node, arguments: seq<Node>)
    | MemberExpression(obj: Node, property: Node)  // `obj.property`
    | Identifier(name: string)
    | StringLiteral(value: string)
    | ArrayExpression(elements: seq<Node>)
    | ObjectExpression(properties: seq<Node>)             // its properties
    | ObjectProperty(key: string, handler: Node)          // `key: handler` or method `key() {...}`
    | Other(children: seq<Node>)                          // any other node kind, with its sub-nodes

  /** The `.name` of a node: defined for identifiers only (`undefined` otherwise). */
  function NameOf(n: Node): (r: Option<string>)
    ensures r.Some? <==> n.kind.Identifier?
    ensures r.Some? ==> r.value == n.kind.name
  {
    match n.kind
    case Identifier(name) => Some(name)
    case _ => None
  }

  /** The `.value` of a node when it is a string: defined for string literals only. */
  function StringValueOf(n: Node): (r: Option<string>)
    ensures r.Some? <==> n.kind.StringLiteral?
    ensures r.Some? ==> r.value == n.kind.value
  {
    match n.kind
    case StringLiteral(v) => Some(v)
    case _ => None
  }

  /** Every node of the tree rooted at `n`, in the order a depth-first traversal
      enters them: the node itself, then its children in source order. */
  function Walk(n: Node): (r: seq<Node>)
    ensures |r| >= 1 && r[0] == n
  {
    [n] + match n.kind
      case VariableDeclaration(ds) => WalkAll(ds)
      case VariableDeclarator(id, init) => Walk(id) + (match init case Some(e) => Walk(e) case None => [])
      case CallExpression(callee, args) => Walk(callee) + WalkAll(args)
      case MemberExpression(obj, prop) => Walk(obj) + Walk(prop)
      case ArrayExpression(es) => WalkAll(es)
      case ObjectExpression(ps) => WalkAll(ps)
      case ObjectProperty(_, v) => Walk(v)
      case Other(cs) => WalkAll(cs)
      case _ => []
  }

  function WalkAll(ns: seq<Node>): seq<Node>
  {
    if ns == [] then [] else Walk(ns[0]) + WalkAll(ns[1..])
  }

  /** The direct children of a node, in the order the traversal visits them. */
  function Children(n: Node): seq<Node>
  {
    match n.kind
    case VariableDeclaration(ds) => ds
    case VariableDeclarator(id, init) => [id] + (match init case Some(e) => [e] case None => [])
    case CallExpression(callee, args) => [callee] + args
    case MemberExpression(obj, prop) => [obj, prop]
    case ArrayExpression(es) => es
    case ObjectExpression(ps) => ps
    case ObjectProperty(_, v) => [v]
    case Other(cs) => cs
    case _ => []
  }

  /** The walk of a forest is the walk of its first part followed by the walk of the rest. */
  lemma {:induction false} WalkAllAppend(a: seq<Node>, b: seq<Node>)
    ensures WalkAll(a + b) == WalkAll(a) + WalkAll(b)
  {
    if a == [] {
      assert a + b == b;
    } else {
      assert (a + b)[0] == a[0];
      assert (a + b)[1..] == a[1..] + b;
      WalkAllAppend(a[1..], b);
    }
  }

  /** Entering a node comes before the walk of its children. */
  lemma WalkUnfold(n: Node)
    ensures Walk(n) == [n] + WalkAll(Children(n))
  {
    match n.kind
    case VariableDeclarator(id, init) =>
      if init.Some? { WalkAllAppend([id], [init.value]); }
    case CallExpression(callee, args) => WalkAllAppend([callee], args);
    case MemberExpression(obj, prop) => WalkAllAppend([obj], [prop]);
    case _ =>
  }

  /** The worklist step used by the collector: entering the first pending node
      and queueing its children in front of the rest walks the same nodes. */
  lemma WalkAllStep(ns: seq<Node>)
    requires ns != []
    ensures WalkAll(ns) == [ns[0]] + WalkAll(Children(ns[0]) + ns[1..])
  {
    var n, rest := ns[0], ns[1..];
    var inner, tail := WalkAll(Children(n)), WalkAll(rest);
    assert Walk(n) == [n] + inner by { WalkUnfold(n); }
    assert WalkAll(Children(n) + rest) == inner + tail by { WalkAllAppend(Children(n), rest); }
    assert ([n] + inner) + tail == [n] + (inner + tail);
  }

  /** Every top-level statement is itself entered by the walk. */
  lemma {:induction false} RootsAreWalked(ns: seq<Node>, i: nat)
    requires i < |ns|
    ensures ns[i] in WalkAll(ns)
  {
    if i > 0 {
      RootsAreWalked(ns[1..], i - 1);
    }
  }
}
