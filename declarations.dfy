/** Collection of the top-level union declarations `const T = alias([ 'A', 'B', ... ])`
    of one file (analyzer.js, findUnionDeclarations). */
module Declarations {
  import opened Syntax
  import opened Imports

  /** One declared union type and its case names, in array order, duplicates kept. */
  datatype UnionDeclaration = UnionDeclaration(unionType: string, cases: seq<string>)

  /** A single-declarator variable statement binding an identifier to a call of
      `alias` with exactly one argument, an array literal. Arrays holding anything
      but string literals, and declarators without initializer, are treated as
      not matching. */
  predicate IsUnionDeclaration(n: Node, alias: Option<string>)
    ensures IsUnionDeclaration(n, alias) ==> !UnionImported(n) && !UnionRequired(n)
  {
    && n.kind.VariableDeclaration?
    && |n.kind.declarations| == 1
    && n.kind.declarations[0].kind.VariableDeclarator?
    && n.kind.declarations[0].kind.id.kind.Identifier?
    && n.kind.declarations[0].kind.init.Some?
    && var init := n.kind.declarations[0].kind.init.value;
    && init.kind.CallExpression?
    && NameOf(init.kind.callee) == alias
    && |init.kind.arguments| == 1
    && init.kind.arguments[0].kind.ArrayExpression?
    && AllStringLiterals(init.kind.arguments[0].kind.elements)
  }

  predicate AllStringLiterals(elements: seq<Node>)
  {
    forall i :: 0 <= i < |elements| ==> elements[i].kind.StringLiteral?
  }

  /** The values of an array of string literals, in order. */
  function CaseValues(elements: seq<Node>): seq<string>
    requires AllStringLiterals(elements)
  {
    seq(|elements|, i requires 0 <= i < |elements| => elements[i].kind.value)
  }

  function DeclarationOf(n: Node, alias: Option<string>): UnionDeclaration
    requires IsUnionDeclaration(n, alias)
  {
    var d := n.kind.declarations[0].kind;
    UnionDeclaration(d.id.kind.name, CaseValues(d.init.value.kind.arguments[0].kind.elements))
  }

  /** The declaration one statement makes with `alias`, if any. */
  function DeclarationIn(n: Node, alias: Option<string>): (r: seq<UnionDeclaration>)
    ensures |r| <= 1
  {
    if IsUnionDeclaration(n, alias) then [DeclarationOf(n, alias)] else []
  }

  /** The declarations made with `alias` among the statements, in statement order. */
  function DeclarationsWith(nodes: seq<Node>, alias: Option<string>): (r: seq<UnionDeclaration>)
    ensures |r| <= |nodes|
  {
    if nodes == [] then [] else DeclarationIn(nodes[0], alias) + DeclarationsWith(nodes[1..], alias)
  }

  /** Without a factory binding there is no declaration; otherwise only the first
      binding's alias is honoured. */
  function FindUnionDeclarations(nodes: seq<Node>, imports: seq<FactoryImport>): (r: seq<UnionDeclaration>)
    ensures imports == [] ==> r == []
    ensures |r| <= |nodes|
  {
    if imports == [] then [] else DeclarationsWith(nodes, imports[0].local)
  }

  /** Bindings after the first one change nothing. */
  lemma OnlyFirstAliasHonoured(nodes: seq<Node>, imports: seq<FactoryImport>, more: seq<FactoryImport>)
    requires imports != []
    ensures FindUnionDeclarations(nodes, imports + more) == FindUnionDeclarations(nodes, [imports[0]])
  {
  }

  /** Declarations come out one per matching statement, in statement order. */
  lemma {:induction false} DeclarationsAppend(a: seq<Node>, b: seq<Node>, alias: Option<string>)
    ensures DeclarationsWith(a + b, alias) == DeclarationsWith(a, alias) + DeclarationsWith(b, alias)
  {
    if a == [] {
      assert a + b == b;
    } else {
      assert (a + b)[0] == a[0];
      assert (a + b)[1..] == a[1..] + b;
      DeclarationsAppend(a[1..], b, alias);
    }
  }

  /** Each declaration found comes from a matching statement. */
  lemma {:induction false} DeclarationsSound(nodes: seq<Node>, alias: Option<string>, k: nat)
    requires k < |DeclarationsWith(nodes, alias)|
    ensures exists i :: 0 <= i < |nodes| && IsUnionDeclaration(nodes[i], alias)
                        && DeclarationsWith(nodes, alias)[k] == DeclarationOf(nodes[i], alias)
  {
    var head := DeclarationIn(nodes[0], alias);
    if k >= |head| {
      DeclarationsSound(nodes[1..], alias, k - |head|);
      var i :| 0 <= i < |nodes[1..]| && IsUnionDeclaration(nodes[1..][i], alias)
               && DeclarationsWith(nodes[1..], alias)[k - |head|] == DeclarationOf(nodes[1..][i], alias);
      assert nodes[i + 1] == nodes[1..][i];
    }
  }

  /** An array literal of the given strings, every node spanning `loc`. */
  function StringArray(loc: Loc, names: seq<string>): (r: Node)
    ensures r.kind.ArrayExpression? && |r.kind.elements| == |names|
    ensures AllStringLiterals(r.kind.elements)
  {
    Node(loc, ArrayExpression(seq(|names|, i requires 0 <= i < |names| => Node(loc, StringLiteral(names[i])))))
  }

  /** The statement `const typeName = alias([ names... ])`, every node spanning `loc`. */
  function UnionStatement(loc: Loc, typeName: string, alias: string, names: seq<string>): Node
  {
    var call := Node(loc, CallExpression(Node(loc, Identifier(alias)), [StringArray(loc, names)]));
    Node(loc, VariableDeclaration([Node(loc, VariableDeclarator(Node(loc, Identifier(typeName)), Some(call)))]))
  }

  /** A declaration made through the first binding's alias is found with its type
      name and exactly the array's strings as cases, in order and with duplicates,
      whatever the alias is. */
  lemma DeclarationForm(loc: Loc, typeName: string, alias: string, names: seq<string>, imports: seq<FactoryImport>)
    requires imports != [] && imports[0].local == Some(alias)
    ensures FindUnionDeclarations([UnionStatement(loc, typeName, alias, names)], imports)
         == [UnionDeclaration(typeName, names)]
  {
    var n := UnionStatement(loc, typeName, alias, names);
    assert IsUnionDeclaration(n, Some(alias));
    assert CaseValues(StringArray(loc, names).kind.elements) == names;
  }

  /** A call through any other name than the honoured alias declares nothing. */
  lemma OtherCalleeDeclaresNothing(loc: Loc, typeName: string, callee: string, names: seq<string>, imports: seq<FactoryImport>)
    requires imports != [] && imports[0].local != Some(callee)
    ensures FindUnionDeclarations([UnionStatement(loc, typeName, callee, names)], imports) == []
  {
  }
}
