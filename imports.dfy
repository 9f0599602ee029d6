/** Detection of the local name bound to the `union` factory of the tagmeme
    library (analyzer.js, unionImported, unionRequired, findImports). */
module Imports {
  import opened Syntax

  /** One binding of the factory: the imported name and the local alias.
      The alias is the declarator's `.name`, so it is undefined (None) when
      the required value is bound to a destructuring pattern. */
  datatype FactoryImport = FactoryImport(imported: string, local: Option<string>)

  /** `import { union [as L] } from 'tagmeme'`: exactly one specifier, which
      imports `union`. A default or namespace specifier in that position is
      treated as not matching. */
  predicate UnionImported(n: Node)
    ensures UnionImported(n) ==> !UnionRequired(n)
  {
    && n.kind.ImportDeclaration?
    && |n.kind.specifiers| == 1
    && n.kind.specifiers[0].ImportSpecifier?
    && n.kind.specifiers[0].imported == "union"
    && n.kind.source == "tagmeme"
  }

  /** `const L = require('tagmeme').union` (any declaration keyword): one
      declarator whose initializer is the member `union` of a call to `require`
      with the single string argument 'tagmeme'. A declarator without
      initializer is treated as not matching. */
  predicate UnionRequired(n: Node)
  {
    && n.kind.VariableDeclaration?
    && |n.kind.declarations| == 1
    && n.kind.declarations[0].kind.VariableDeclarator?
    && n.kind.declarations[0].kind.init.Some?
    && var init := n.kind.declarations[0].kind.init.value;
    && init.kind.MemberExpression?
    && NameOf(init.kind.property) == Some("union")
    && init.kind.obj.kind.CallExpression?
    && NameOf(init.kind.obj.kind.callee) == Some("require")
    && |init.kind.obj.kind.arguments| == 1
    && StringValueOf(init.kind.obj.kind.arguments[0]) == Some("tagmeme")
  }

  /** The binding a matching statement introduces; the import form is tested first. */
  function BindingOf(n: Node): (b: FactoryImport)
    requires UnionImported(n) || UnionRequired(n)
    ensures b.imported == "union"
  {
    if UnionImported(n) then
      FactoryImport(n.kind.specifiers[0].imported, Some(n.kind.specifiers[0].local))
    else
      var d := n.kind.declarations[0].kind;
      FactoryImport(d.init.value.kind.property.kind.name, NameOf(d.id))
  }

  /** The factory bindings among the top-level statements, in source order. */
  function FindImports(nodes: seq<Node>): (r: seq<FactoryImport>)
    ensures |r| <= |nodes|
    ensures forall i :: 0 <= i < |r| ==> r[i].imported == "union"
  {
    if nodes == [] then []
    else
      (if UnionImported(nodes[0]) || UnionRequired(nodes[0]) then [BindingOf(nodes[0])] else [])
      + FindImports(nodes[1..])
  }

  /** Bindings come out one per matching statement, in statement order. */
  lemma {:induction false} FindImportsAppend(a: seq<Node>, b: seq<Node>)
    ensures FindImports(a + b) == FindImports(a) + FindImports(b)
  {
    if a == [] {
      assert a + b == b;
    } else {
      assert (a + b)[0] == a[0];
      assert (a + b)[1..] == a[1..] + b;
      FindImportsAppend(a[1..], b);
    }
  }

  /** No binding is found exactly when no top-level statement has either shape. */
  lemma {:induction false} FindImportsEmpty(nodes: seq<Node>)
    ensures FindImports(nodes) == [] <==> forall n :: n in nodes ==> !UnionImported(n) && !UnionRequired(n)
  {
    if nodes != [] {
      assert nodes[0] in nodes;
      FindImportsEmpty(nodes[1..]);
      assert forall n :: n in nodes ==> n == nodes[0] || n in nodes[1..];
    }
  }

  /** The import form `import { union as L } from source` binds L, and only when
      the source is 'tagmeme'. */
  lemma ImportFormBinds(loc: Loc, alias: string, source: string)
    ensures FindImports([Node(loc, ImportDeclaration([ImportSpecifier("union", alias)], source))])
         == if source == "tagmeme" then [FactoryImport("union", Some(alias))] else []
  {
  }

  /** The require form `const L = require(library).union` binds L, and only when
      the library is 'tagmeme'. */
  lemma RequireFormBinds(loc: Loc, alias: string, library: string)
    ensures FindImports([RequireStatement(loc, alias, library)])
         == if library == "tagmeme" then [FactoryImport("union", Some(alias))] else []
  {
  }

  /** The statement `const alias = require(library).union`, every node spanning `loc`. */
  function RequireStatement(loc: Loc, alias: string, library: string): Node
  {
    var require := Node(loc, CallExpression(Node(loc, Identifier("require")), [Node(loc, StringLiteral(library))]));
    var init := Node(loc, MemberExpression(require, Node(loc, Identifier("union"))));
    Node(loc, VariableDeclaration([Node(loc, VariableDeclarator(Node(loc, Identifier(alias)), Some(init)))]))
  }

  /** Both forms bind the same alias the same way. */
  lemma ImportAndRequireAgree(loc: Loc, alias: string)
    ensures FindImports([Node(loc, ImportDeclaration([ImportSpecifier("union", alias)], "tagmeme"))])
         == FindImports([RequireStatement(loc, alias, "tagmeme")])
         == [FactoryImport("union", Some(alias))]
  {
  }
}
