/** What the findings of the analysis mean: which usages produce which findings,
    in which order, with which alternatives. */
module AnalyzerProperties {
  import opened Syntax
  import opened Imports
  import opened Declarations
  import opened Usages
  import opened Analyzer

  // ---------------------------------------------------------------------------
  // Reference definitions

  /** The elements of `xs` that are not in `ys`, in order, duplicates kept: the
      undeclared keys are `Missing(keys, cases)`, the unhandled cases
      `Missing(cases, keys)`. */
  function Missing(xs: seq<string>, ys: seq<string>): (r: seq<string>)
    ensures |r| <= |xs|
    ensures forall x :: x in r <==> x in xs && x !in ys
  {
    if xs == [] then []
    else
      var init, last := xs[..|xs| - 1], xs[|xs| - 1];
      assert xs == init + [last];
      Missing(init, ys) + (if last in ys then [] else [last])
  }

  /** A finding that reports `key` as handled but not declared in `decl`, offering
      the declared cases near it. */
  predicate UndeclaredKeyFinding(e: AnalyzerError, path: string, loc: Loc, decl: UnionDeclaration,
                                 key: string, dist: (string, string) -> nat)
  {
    && e.UnionCaseHandledButNotDeclared?
    && e.modulePath == path && e.location == loc
    && e.usedUnionType == decl.unionType && e.usedUnionCase == key
    && e.possibleAlternatives == AlternativeList(Nearby(decl.cases, key, dist))
  }

  /** A finding that reports case `c` of `decl` as declared but not handled. */
  predicate UnhandledCaseFinding(e: AnalyzerError, path: string, loc: Loc, decl: UnionDeclaration, c: string)
  {
    && e.UnionCaseDeclaredButNotHandled?
    && e.modulePath == path && e.location == loc
    && e.usedUnionType == decl.unionType && e.declaredUnionCase == c
    && e.possibleAlternatives == AlternativeList([])
  }

  // ---------------------------------------------------------------------------
  // Suggestions

  /** Suggestions keep the order of the names they are drawn from: those near
      the used name among the first names come before those among the rest. */
  lemma {:induction false} NearbyAppend(n1: seq<string>, n2: seq<string>, used: string,
                                        dist: (string, string) -> nat)
    ensures Nearby(n1 + n2, used, dist) == Nearby(n1, used, dist) + Nearby(n2, used, dist)
  {
    if n1 == [] {
      assert n1 + n2 == n2;
    } else {
      var head := if dist(n1[0], used) <= NearbyDistance then [n1[0]] else [];
      calc {
        Nearby(n1 + n2, used, dist);
        { assert (n1 + n2)[0] == n1[0] && (n1 + n2)[1..] == n1[1..] + n2; }
        head + Nearby(n1[1..] + n2, used, dist);
        { NearbyAppend(n1[1..], n2, used, dist); }
        head + (Nearby(n1[1..], used, dist) + Nearby(n2, used, dist));
        (head + Nearby(n1[1..], used, dist)) + Nearby(n2, used, dist);
      }
    }
  }

  /** The suggested type names follow declaration order, so the name a message
      offers first is the first near declaration. */
  lemma NearbyTypeNamesAppend(d1: seq<UnionDeclaration>, d2: seq<UnionDeclaration>, used: string,
                              dist: (string, string) -> nat)
    ensures NearbyTypeNames(d1 + d2, used, dist) == NearbyTypeNames(d1, used, dist) + NearbyTypeNames(d2, used, dist)
  {
    assert TypeNames(d1 + d2) == TypeNames(d1) + TypeNames(d2);
    NearbyAppend(TypeNames(d1), TypeNames(d2), used, dist);
  }


  // ---------------------------------------------------------------------------
  // The two case loops

  /** The key loop reports exactly the undeclared keys, one finding each, in key order. */
  lemma {:induction false} HandledButNotDeclaredShape(path: string, loc: Loc, decl: UnionDeclaration,
                                                      keys: seq<string>, dist: (string, string) -> nat)
    ensures var r := HandledButNotDeclaredErrors(path, loc, decl, keys, dist);
            var u := Missing(keys, decl.cases);
            && |r| == |u|
            && forall i :: 0 <= i < |r| ==> UndeclaredKeyFinding(r[i], path, loc, decl, u[i], dist)
  {
    if keys != [] {
      var init := keys[..|keys| - 1];
      HandledButNotDeclaredShape(path, loc, decl, init, dist);
    }
  }

  /** The case loop reports exactly the unhandled declared cases, one finding each,
      in declaration order. */
  lemma {:induction false} DeclaredButNotHandledShape(path: string, loc: Loc, decl: UnionDeclaration,
                                                      cases: seq<string>, keys: seq<string>)
    ensures var r := DeclaredButNotHandledErrors(path, loc, decl, cases, keys);
            var m := Missing(cases, keys);
            && |r| == |m|
            && forall i :: 0 <= i < |r| ==> UnhandledCaseFinding(r[i], path, loc, decl, m[i])
  {
    if cases != [] {
      DeclaredButNotHandledShape(path, loc, decl, cases[..|cases| - 1], keys);
    }
  }

  /** The handled keys and the declared cases agree exactly when neither loop
      would have anything to report. */
  lemma AllCasesHandledIffNothingMissing(cases: seq<string>, keys: seq<string>)
    ensures AllCasesHandled(cases, keys) <==> Missing(keys, cases) == [] && Missing(cases, keys) == []
  {
    var u, m := Missing(keys, cases), Missing(cases, keys);
    if u != [] {
      assert u[0] in u;
    }
    if m != [] {
      assert m[0] in m;
    }
  }

  /** The exhaustiveness test compares the handled keys and the declared cases as sets. */
  lemma AllCasesHandledIffSameSets(cases: seq<string>, keys: seq<string>)
    ensures AllCasesHandled(cases, keys) <==> (set c | c in cases) == (set k | k in keys)
  {
    var declared, handled := set c | c in cases, set k | k in keys;
    if declared == handled {
      forall c | c in cases ensures c in keys {
        assert c in declared;
        assert c in handled;
      }
      forall k | k in keys ensures k in cases {
        assert k in handled;
        assert k in declared;
      }
    }
  }

  // ---------------------------------------------------------------------------
  // One usage

  /** A type name no declaration has gives exactly one finding, offering the
      declared type names within the threshold: none, the single one, or several
      joined by ",". */
  lemma UnknownTypeName(path: string, decls: seq<UnionDeclaration>, u: MatchUsage, dist: (string, string) -> nat)
    requires !Declares(decls, u.unionType)
    ensures var r := UsageErrors(path, decls, u, dist);
            var near := NearbyTypeNames(decls, u.unionType, dist);
            && |r| == 1
            && r[0].UnionTypeNameIncorrect?
            && r[0].modulePath == path && r[0].location == u.loc && r[0].usedTypeName == u.unionType
            && (|near| == 0 ==> r[0].possibleAlternatives == AlternativeList([]))
            && (|near| == 1 ==> r[0].possibleAlternatives == AlternativeList(near))
            && (|near| >= 2 ==> r[0].possibleAlternatives == AlternativeText(Join(near, ",")))
  {
  }

  /** A usage handling exactly the declared cases gives the redundant catch-all
      finding when it passes a catch-all, and nothing otherwise. */
  lemma ExhaustiveUsage(path: string, decls: seq<UnionDeclaration>, u: MatchUsage, dist: (string, string) -> nat)
    requires Declares(decls, u.unionType)
    requires AllCasesHandled(FirstDeclaration(decls, u.unionType).cases, u.cases)
    ensures UsageErrors(path, decls, u, dist)
         == if u.usedCatchAll then [RedundantCatchAllArgument(path, u.loc, RedundantCatchAllMessage)] else []
  {
  }

  /** A catch-all silences every case finding of a non-exhaustive usage. */
  lemma CatchAllSuppresses(path: string, decls: seq<UnionDeclaration>, u: MatchUsage, dist: (string, string) -> nat)
    requires Declares(decls, u.unionType)
    requires !AllCasesHandled(FirstDeclaration(decls, u.unionType).cases, u.cases)
    requires u.usedCatchAll
    ensures UsageErrors(path, decls, u, dist) == []
  {
  }

  /** A non-exhaustive usage without catch-all, checked against the first
      declaration of its type, gives at least one finding: first one per undeclared
      key in key order, then one per unhandled declared case in declaration order. */
  lemma NonExhaustiveUsage(path: string, decls: seq<UnionDeclaration>, u: MatchUsage, dist: (string, string) -> nat)
    requires Declares(decls, u.unionType)
    requires !AllCasesHandled(FirstDeclaration(decls, u.unionType).cases, u.cases)
    requires !u.usedCatchAll
    ensures var decl := FirstDeclaration(decls, u.unionType);
            var r := UsageErrors(path, decls, u, dist);
            var keys := Missing(u.cases, decl.cases);
            var missing := Missing(decl.cases, u.cases);
            && |r| == |keys| + |missing| > 0
            && (forall i :: 0 <= i < |keys| ==> UndeclaredKeyFinding(r[i], path, u.loc, decl, keys[i], dist))
            && (forall j :: 0 <= j < |missing| ==> UnhandledCaseFinding(r[|keys| + j], path, u.loc, decl, missing[j]))
  {
    var decl := FirstDeclaration(decls, u.unionType);
    AllCasesHandledIffNothingMissing(decl.cases, u.cases);
    var h := HandledButNotDeclaredErrors(path, u.loc, decl, u.cases, dist);
    var d := DeclaredButNotHandledErrors(path, u.loc, decl, decl.cases, u.cases);
    HandledButNotDeclaredShape(path, u.loc, decl, u.cases, dist);
    DeclaredButNotHandledShape(path, u.loc, decl, decl.cases, u.cases);
    assert UsageErrors(path, decls, u, dist) == h + d;
  }

  /** Every finding for a usage names the analysed file and the usage's span. */
  lemma UsageErrorsLocated(path: string, decls: seq<UnionDeclaration>, u: MatchUsage, dist: (string, string) -> nat)
    ensures forall e :: e in UsageErrors(path, decls, u, dist) ==> e.modulePath == path && e.location == u.loc
  {
    if Declares(decls, u.unionType) {
      var decl := FirstDeclaration(decls, u.unionType);
      HandledButNotDeclaredShape(path, u.loc, decl, u.cases, dist);
      DeclaredButNotHandledShape(path, u.loc, decl, decl.cases, u.cases);
      var h := HandledButNotDeclaredErrors(path, u.loc, decl, u.cases, dist);
      var d := DeclaredButNotHandledErrors(path, u.loc, decl, decl.cases, u.cases);
      forall e: AnalyzerError | e in h + d ensures e.modulePath == path && e.location == u.loc {
        if e in h {
          var i :| 0 <= i < |h| && h[i] == e;
        } else {
          var i :| 0 <= i < |d| && d[i] == e;
        }
      }
    }
  }

  // ---------------------------------------------------------------------------
  // The whole file

  /** The findings of the usages come out usage after usage. */
  lemma {:induction false} ErrorsAppend(path: string, decls: seq<UnionDeclaration>, a: seq<MatchUsage>,
                                        b: seq<MatchUsage>, dist: (string, string) -> nat)
    ensures Errors(path, decls, a + b, dist) == Errors(path, decls, a, dist) + Errors(path, decls, b, dist)
  {
    if b == [] {
      assert a + b == a;
    } else {
      var init, last := b[..|b| - 1], b[|b| - 1];
      assert (a + b)[..|a + b| - 1] == a + init;
      assert (a + b)[|a + b| - 1] == last;
      calc {
        Errors(path, decls, a + b, dist);
        Errors(path, decls, a + init, dist) + UsageErrors(path, decls, last, dist);
        { ErrorsAppend(path, decls, a, init, dist); }
        Errors(path, decls, a, dist) + Errors(path, decls, init, dist) + UsageErrors(path, decls, last, dist);
      }
    }
  }

  /** Every finding names the analysed file and the span of one of the usages. */
  lemma {:induction false} ErrorsLocated(path: string, decls: seq<UnionDeclaration>, usages: seq<MatchUsage>,
                                         dist: (string, string) -> nat)
    ensures forall e :: e in Errors(path, decls, usages, dist) ==>
              e.modulePath == path && exists u :: u in usages && e.location == u.loc
  {
    if usages != [] {
      var init, last := usages[..|usages| - 1], usages[|usages| - 1];
      ErrorsLocated(path, decls, init, dist);
      UsageErrorsLocated(path, decls, last, dist);
      forall e | e in Errors(path, decls, usages, dist)
        ensures e.modulePath == path && exists u :: u in usages && e.location == u.loc
      {
        if e in Errors(path, decls, init, dist) {
          var u :| u in init && e.location == u.loc;
          assert u in usages;
        } else {
          assert last in usages;
        }
      }
    }
  }

  /** Without any declaration, each usage gives one unknown type name finding with
      no alternative, in usage order. */
  lemma {:induction false} NoDeclarations(path: string, usages: seq<MatchUsage>, dist: (string, string) -> nat)
    ensures var r := Errors(path, [], usages, dist);
            && |r| == |usages|
            && forall i :: 0 <= i < |r| ==>
                 r[i] == UnionTypeNameIncorrect(path, usages[i].loc, usages[i].unionType, AlternativeList([]),
                                                TypeNameMessage(usages[i].unionType))
  {
    if usages != [] {
      NoDeclarations(path, usages[..|usages| - 1], dist);
    }
  }

  /** A file that binds no factory reports every match call it contains as a use
      of an undeclared type. */
  lemma WithoutImportEveryUsageIsUnknown(modulePath: string, body: seq<Node>, dist: (string, string) -> nat)
    requires FindImports(body) == []
    ensures var usages := MatchUsagesIn(WalkAll(body));
            var r := Errors(modulePath, FindUnionDeclarations(body, FindImports(body)), usages, dist);
            && |r| == |usages|
            && forall i :: 0 <= i < |r| ==> r[i].UnionTypeNameIncorrect? && r[i].usedTypeName == usages[i].unionType
  {
    NoDeclarations(modulePath, MatchUsagesIn(WalkAll(body)), dist);
  }
}
