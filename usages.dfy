/** Collection of the `T.match(value, { Case: handler, ... }[, catchAll])` call
    sites of one file (analyzer.js, findMatchUsages). */
module Usages {
  import opened Syntax

  /** One dispatch call site: the name it was called through, its span, the keys
      of its handler object in literal order, and whether a catch-all was passed. */
  datatype MatchUsage = MatchUsage(unionType: string, loc: Loc, cases: seq<string>, usedCatchAll: bool)

  /** The shape the collector looks for: a call whose callee is a member access
      named `match`, with two or three arguments. */
  predicate IsMatchCall(n: Node)
  {
    && n.kind.CallExpression?
    && n.kind.callee.kind.MemberExpression?
    && NameOf(n.kind.callee.kind.property) == Some("match")
    && (|n.kind.arguments| == 2 || |n.kind.arguments| == 3)
  }

  /** An object literal every property of which is a plain `key: handler` pair. */
  predicate IsHandlerObject(n: Node)
  {
    n.kind.ObjectExpression? && AllProperties(n.kind.properties)
  }

  /** A match call the model records: besides the shape above, the dispatch goes
      through a plain identifier and the handlers are an object literal with
      identifier keys (the other forms are outside the model). */
  predicate Recorded(n: Node)
  {
    && IsMatchCall(n)
    && n.kind.callee.kind.obj.kind.Identifier?
    && IsHandlerObject(n.kind.arguments[1])
  }

  predicate AllProperties(ps: seq<Node>)
  {
    forall i :: 0 <= i < |ps| ==> ps[i].kind.ObjectProperty?
  }

  /** The keys of a handler object's properties, in literal order, duplicates kept. */
  function HandlerKeys(ps: seq<Node>): seq<string>
    requires AllProperties(ps)
  {
    seq(|ps|, i requires 0 <= i < |ps| => ps[i].kind.key)
  }

  /** What the collector pushes for a recorded call. */
  function UsageOf(n: Node): (u: MatchUsage)
    requires Recorded(n)
    ensures Some(u.unionType) == NameOf(n.kind.callee.kind.obj)
    ensures u.loc == n.loc
    ensures u.usedCatchAll <==> |n.kind.arguments| == 3
    ensures |u.cases| == |n.kind.arguments[1].kind.properties|
    ensures forall i :: 0 <= i < |u.cases| ==> u.cases[i] == n.kind.arguments[1].kind.properties[i].kind.key
  {
    var call := n.kind;
    MatchUsage(call.callee.kind.obj.kind.name, n.loc,
               HandlerKeys(call.arguments[1].kind.properties), |call.arguments| == 3)
  }

  /** The usage entering one node records, if any. */
  function UsageAt(n: Node): (r: seq<MatchUsage>)
    ensures |r| <= 1
  {
    if Recorded(n) then [UsageOf(n)] else []
  }

  /** The usages recorded while entering `visited`, one per recorded call, in order. */
  function MatchUsagesIn(visited: seq<Node>): seq<MatchUsage>
  {
    if visited == [] then [] else UsageAt(visited[0]) + MatchUsagesIn(visited[1..])
  }

  /** The traversal with an `enter` callback that pushes each recorded call,
      written as a worklist walk: the first pending node is entered and its
      children are queued in front of the remaining ones. */
  method FindMatchUsages(ast: seq<Node>) returns (matchUsages: seq<MatchUsage>)
    ensures matchUsages == MatchUsagesIn(WalkAll(ast))
  {
    matchUsages := [];
    var pending := ast;
    while pending != []
      invariant matchUsages + MatchUsagesIn(WalkAll(pending)) == MatchUsagesIn(WalkAll(ast))
      decreases |WalkAll(pending)|
    {
      var node := pending[0];
      ghost var rest := WalkAll(Children(node) + pending[1..]);
      WalkAllStep(pending);
      assert MatchUsagesIn(WalkAll(pending)) == UsageAt(node) + MatchUsagesIn(rest) by {
        MatchUsagesInAppend([node], rest);
        assert MatchUsagesIn([node]) == UsageAt(node);
      }
      if Recorded(node) {
        matchUsages := matchUsages + [UsageOf(node)];
      }
      pending := Children(node) + pending[1..];
    }
  }

  /** Usages come out in the order their calls are entered. */
  lemma {:induction false} MatchUsagesInAppend(a: seq<Node>, b: seq<Node>)
    ensures MatchUsagesIn(a + b) == MatchUsagesIn(a) + MatchUsagesIn(b)
  {
    if a == [] {
      assert a + b == b;
    } else {
      assert (a + b)[0] == a[0];
      assert (a + b)[1..] == a[1..] + b;
      MatchUsagesInAppend(a[1..], b);
    }
  }

  /** Recording is narrower than the shape test: `minimatch.match(list, '*.js')`
      is a match call, but its second argument is no handler object, so it
      yields no usage. */
  lemma MatchCallNotRecorded(loc: Loc, obj: string, list: string, pattern: string)
    ensures var call := Node(loc, CallExpression(
                          Node(loc, MemberExpression(Node(loc, Identifier(obj)), Node(loc, Identifier("match")))),
                          [Node(loc, Identifier(list)), Node(loc, StringLiteral(pattern))]));
            IsMatchCall(call) && !Recorded(call) && MatchUsagesIn([call]) == []
  {
  }

  /** Every recorded usage comes from a recorded call among the visited nodes. */
  lemma {:induction false} MatchUsagesSound(visited: seq<Node>, k: nat)
    requires k < |MatchUsagesIn(visited)|
    ensures exists i :: 0 <= i < |visited| && Recorded(visited[i]) && MatchUsagesIn(visited)[k] == UsageOf(visited[i])
  {
    var head := UsageAt(visited[0]);
    if k < |head| {
      assert Recorded(visited[0]) && MatchUsagesIn(visited)[k] == UsageOf(visited[0]);
    } else {
      MatchUsagesSound(visited[1..], k - |head|);
      var i :| 0 <= i < |visited[1..]| && Recorded(visited[1..][i])
               && MatchUsagesIn(visited[1..])[k - |head|] == UsageOf(visited[1..][i]);
      assert visited[i + 1] == visited[1..][i];
    }
  }

  /** Every recorded call among the visited nodes yields a usage. */
  lemma {:induction false} MatchUsagesComplete(visited: seq<Node>, i: nat)
    requires i < |visited| && Recorded(visited[i])
    ensures UsageOf(visited[i]) in MatchUsagesIn(visited)
  {
    if i > 0 {
      MatchUsagesComplete(visited[1..], i - 1);
    }
  }

  /** Entering a node records its own usage, if any, before any usage nested in
      its children: a match call comes before the match calls in its handlers. */
  lemma OuterBeforeInner(n: Node)
    ensures MatchUsagesIn(Walk(n)) == UsageAt(n) + MatchUsagesIn(WalkAll(Children(n)))
  {
    WalkUnfold(n);
    MatchUsagesInAppend([n], WalkAll(Children(n)));
  }

  /** The usages of a forest are those of its first tree followed by those of the rest. */
  lemma UsagesOfForest(ns: seq<Node>)
    requires ns != []
    ensures MatchUsagesIn(WalkAll(ns)) == MatchUsagesIn(Walk(ns[0])) + MatchUsagesIn(WalkAll(ns[1..]))
  {
    MatchUsagesInAppend(Walk(ns[0]), WalkAll(ns[1..]));
  }

  /** A file whose tree holds no recorded call yields no usage. */
  lemma {:induction false} NoMatchCallNoUsage(visited: seq<Node>)
    requires forall n :: n in visited ==> !Recorded(n)
    ensures MatchUsagesIn(visited) == []
  {
    if visited != [] {
      assert visited[0] in visited;
      NoMatchCallNoUsage(visited[1..]);
    }
  }
}
