/** The consistency check of analyzer.js (analyze): every match call site of a
    file is compared with the union declarations of that file, producing an
    ordered list of findings. */
module Analyzer {
  import opened Syntax
  import opened Imports
  import opened Declarations
  import opened Usages

  /** Names within this edit distance are offered as alternatives. */
  const NearbyDistance: nat := 2

  /** The suggestions a finding carries: a list of names, or, when a misspelt
      type name is close to several declared types, those names joined by ",". */
  datatype Alternatives = AlternativeList(names: seq<string>) | AlternativeText(text: string)

  /** The four kinds of finding, with the fields the analyzer fills in. */
  datatype AnalyzerError =
    | UnionTypeNameIncorrect(modulePath: string, location: Loc, usedTypeName: string,
                             possibleAlternatives: Alternatives, errorMessage: string)
    | UnionCaseDeclaredButNotHandled(modulePath: string, location: Loc, usedUnionType: string,
                                     declaredUnionCase: string, possibleAlternatives: Alternatives,
                                     errorMessage: string)
    | UnionCaseHandledButNotDeclared(modulePath: string, location: Loc, usedUnionType: string,
                                     usedUnionCase: string, possibleAlternatives: Alternatives,
                                     errorMessage: string)
    | RedundantCatchAllArgument(modulePath: string, location: Loc, errorMessage: string)

  // ---------------------------------------------------------------------------
  // Messages

  function Join(words: seq<string>, separator: string): string
  {
    if words == [] then ""
    else if |words| == 1 then words[0]
    else words[0] + separator + Join(words[1..], separator)
  }

  function DidYouMean(name: string): string
  {
    ", did you mean '" + name + "'"
  }

  function TypeNameMessage(usedTypeName: string): string
  {
    "Detected use of 'match' for type '" + usedTypeName + "' but no declaration of the type was found"
  }

  const RedundantCatchAllMessage: string :=
    "All cases were handled, the second argument of function 'match' (catchAll) is redundant and can be removed"

  function UndeclaredCaseMessage(key: string): string
  {
    "Detected match against union case '" + key + "' but no declaration of this case was found in type"
  }

  function UnhandledCaseMessage(declaredCase: string, unionType: string): string
  {
    "Declared union case '" + declaredCase + "' was found in the type '" + unionType
    + "' but it wasn't handled in the 'match' function"
  }

  // ---------------------------------------------------------------------------
  // Specification of one usage's findings

  /** Some declaration has this type name. */
  predicate Declares(decls: seq<UnionDeclaration>, name: string)
  {
    exists i :: 0 <= i < |decls| && decls[i].unionType == name
  }

  /** The names within the threshold of `used`, in the given order, duplicates
      kept: the filter the analyzer applies to the declared type names and to the
      declared cases. */
  function Nearby(names: seq<string>, used: string, dist: (string, string) -> nat): (r: seq<string>)
    ensures |r| <= |names|
    ensures forall x :: x in r <==> x in names && dist(x, used) <= NearbyDistance
    ensures r == [] <==> forall x :: x in names ==> dist(x, used) > NearbyDistance
  {
    if names == [] then []
    else
      (if dist(names[0], used) <= NearbyDistance then [names[0]] else [])
      + Nearby(names[1..], used, dist)
  }

  /** The declared type names, in declaration order. */
  function TypeNames(decls: seq<UnionDeclaration>): (r: seq<string>)
    ensures |r| == |decls| && forall i :: 0 <= i < |decls| ==> r[i] == decls[i].unionType
  {
    seq(|decls|, i requires 0 <= i < |decls| => decls[i].unionType)
  }

  /** The declared type names within the threshold of `used`, in declaration order. */
  function NearbyTypeNames(decls: seq<UnionDeclaration>, used: string, dist: (string, string) -> nat): (r: seq<string>)
    ensures |r| <= |decls|
    ensures forall x :: x in r ==> dist(x, used) <= NearbyDistance && exists i :: 0 <= i < |decls| && decls[i].unionType == x
    ensures forall i :: 0 <= i < |decls| && dist(decls[i].unionType, used) <= NearbyDistance ==> decls[i].unionType in r
    ensures r == [] <==> forall i :: 0 <= i < |decls| ==> dist(decls[i].unionType, used) > NearbyDistance
  {
    var names := TypeNames(decls);
    assert forall i :: 0 <= i < |decls| ==> decls[i].unionType in names by {
      forall i | 0 <= i < |decls| ensures decls[i].unionType in names {
        assert names[i] == decls[i].unionType;
      }
    }
    Nearby(names, used, dist)
  }

  /** The finding for a usage whose type name no declaration has. */
  function TypeNameError(path: string, decls: seq<UnionDeclaration>, u: MatchUsage,
                         dist: (string, string) -> nat): AnalyzerError
  {
    var nearby := NearbyTypeNames(decls, u.unionType, dist);
    if |nearby| == 0 then
      UnionTypeNameIncorrect(path, u.loc, u.unionType, AlternativeList([]), TypeNameMessage(u.unionType))
    else if |nearby| == 1 then
      UnionTypeNameIncorrect(path, u.loc, u.unionType, AlternativeList([nearby[0]]),
                             TypeNameMessage(u.unionType) + DidYouMean(nearby[0]))
    else
      UnionTypeNameIncorrect(path, u.loc, u.unionType, AlternativeText(Join(nearby, ",")),
                             TypeNameMessage(u.unionType) + DidYouMean(nearby[0]))
  }

  /** The first declaration of a type name. */
  function FirstDeclaration(decls: seq<UnionDeclaration>, name: string): (d: UnionDeclaration)
    requires Declares(decls, name)
    ensures exists i :: 0 <= i < |decls| && decls[i] == d
                        && forall j :: 0 <= j < i ==> decls[j].unionType != name
    ensures d.unionType == name
  {
    if decls[0].unionType == name then decls[0]
    else
      assert Declares(decls[1..], name) by {
        var i :| 0 <= i < |decls| && decls[i].unionType == name;
        assert decls[1..][i - 1] == decls[i];
      }
      var d := FirstDeclaration(decls[1..], name);
      ghost var i :| 0 <= i < |decls[1..]| && decls[1..][i] == d
                     && forall j :: 0 <= j < i ==> decls[1..][j].unionType != name;
      assert decls[i + 1] == d;
      assert forall j :: 1 <= j < i + 1 ==> decls[j] == decls[1..][j - 1];
      d
  }

  /** Every declared case is handled and every handled key is declared. */
  predicate AllCasesHandled(declaredCases: seq<string>, usedCases: seq<string>)
  {
    && (forall c :: c in declaredCases ==> c in usedCases)
    && (forall k :: k in usedCases ==> k in declaredCases)
  }

  /** The finding for one handled key, if it is not declared. */
  function KeyError(path: string, loc: Loc, decl: UnionDeclaration, key: string,
                    dist: (string, string) -> nat): seq<AnalyzerError>
  {
    if key in decl.cases then []
    else
      var nearby := Nearby(decl.cases, key, dist);
      [UnionCaseHandledButNotDeclared(path, loc, decl.unionType, key, AlternativeList(nearby),
         if |nearby| == 0 then UndeclaredCaseMessage(key) + " '" + decl.unionType + "'"
         else if |nearby| == 1 then UndeclaredCaseMessage(key) + decl.unionType + DidYouMean(nearby[0])
         else UndeclaredCaseMessage(key) + decl.unionType + DidYouMean(Join(nearby, ", ")))]
  }

  /** The findings for the handled keys, in key order. */
  function HandledButNotDeclaredErrors(path: string, loc: Loc, decl: UnionDeclaration, keys: seq<string>,
                                       dist: (string, string) -> nat): seq<AnalyzerError>
  {
    if keys == [] then []
    else HandledButNotDeclaredErrors(path, loc, decl, keys[..|keys| - 1], dist)
         + KeyError(path, loc, decl, keys[|keys| - 1], dist)
  }

  /** The findings for the declared cases, in declaration order. */
  function DeclaredButNotHandledErrors(path: string, loc: Loc, decl: UnionDeclaration, cases: seq<string>,
                                       usedKeys: seq<string>): seq<AnalyzerError>
  {
    if cases == [] then []
    else
      var c := cases[|cases| - 1];
      DeclaredButNotHandledErrors(path, loc, decl, cases[..|cases| - 1], usedKeys)
      + (if c in usedKeys then []
         else [UnionCaseDeclaredButNotHandled(path, loc, decl.unionType, c, AlternativeList([]),
                                              UnhandledCaseMessage(c, decl.unionType))])
  }

  /** The findings for a usage checked against the declaration `decl` of its type. */
  function CaseErrors(path: string, decl: UnionDeclaration, u: MatchUsage,
                      dist: (string, string) -> nat): seq<AnalyzerError>
  {
    if AllCasesHandled(decl.cases, u.cases) then
      if u.usedCatchAll then [RedundantCatchAllArgument(path, u.loc, RedundantCatchAllMessage)] else []
    else if u.usedCatchAll then []
    else HandledButNotDeclaredErrors(path, u.loc, decl, u.cases, dist)
         + DeclaredButNotHandledErrors(path, u.loc, decl, decl.cases, u.cases)
  }

  /** All findings for one usage. */
  function UsageErrors(path: string, decls: seq<UnionDeclaration>, u: MatchUsage,
                       dist: (string, string) -> nat): seq<AnalyzerError>
  {
    if !Declares(decls, u.unionType) then [TypeNameError(path, decls, u, dist)]
    else CaseErrors(path, FirstDeclaration(decls, u.unionType), u, dist)
  }

  /** The findings for the usages, usage after usage. */
  function Errors(path: string, decls: seq<UnionDeclaration>, usages: seq<MatchUsage>,
                  dist: (string, string) -> nat): seq<AnalyzerError>
  {
    if usages == [] then []
    else Errors(path, decls, usages[..|usages| - 1], dist) + UsageErrors(path, decls, usages[|usages| - 1], dist)
  }

  // ---------------------------------------------------------------------------
  // The analysis

  /** Analyses one parsed file whose full path is `modulePath`, measuring names with `dist`. */
  method Analyze(modulePath: string, body: seq<Node>, dist: (string, string) -> nat)
    returns (errors: seq<AnalyzerError>)
    ensures errors == Errors(modulePath, FindUnionDeclarations(body, FindImports(body)),
                             MatchUsagesIn(WalkAll(body)), dist)
  {
    errors := [];
    var tagmemeImports := FindImports(body);
    var unionDeclarations := FindUnionDeclarations(body, tagmemeImports);
    var matchUsages := FindMatchUsages(body);

    for i := 0 to |matchUsages|
      invariant errors == Errors(modulePath, unionDeclarations, matchUsages[..i], dist)
    {
      var currentUsage := matchUsages[i];
      ghost var found := UsageErrors(modulePath, unionDeclarations, currentUsage, dist);
      assert Errors(modulePath, unionDeclarations, matchUsages[..i + 1], dist) == errors + found by {
        ErrorsStep(modulePath, unionDeclarations, matchUsages, i, dist);
      }
      var isDeclared := exists k :: 0 <= k < |unionDeclarations| && unionDeclarations[k].unionType == currentUsage.unionType;
      assert isDeclared == Declares(unionDeclarations, currentUsage.unionType);

      if !isDeclared {
        // the type name matches no declaration: probably a typo
        var typeNameError := ReportTypeName(modulePath, unionDeclarations, currentUsage, dist);
        errors := errors + [typeNameError];
        continue;
      }

      var declaredUnion := FirstDeclaration(unionDeclarations, currentUsage.unionType);
      assert found == CaseErrors(modulePath, declaredUnion, currentUsage, dist);
      var caseErrors := ReportCases(modulePath, declaredUnion, currentUsage, dist);
      errors := errors + caseErrors;
    }
    assert matchUsages[..|matchUsages|] == matchUsages;
  }

  /** The branch of the analysis for a usage whose type name no declaration has:
      the finding offers the declared type names near the used one. */
  method ReportTypeName(modulePath: string, unionDeclarations: seq<UnionDeclaration>, currentUsage: MatchUsage,
                        dist: (string, string) -> nat)
    returns (found: AnalyzerError)
    ensures found == TypeNameError(modulePath, unionDeclarations, currentUsage, dist)
  {
    var nearbyWordExists := exists k :: 0 <= k < |unionDeclarations|
                             && dist(unionDeclarations[k].unionType, currentUsage.unionType) <= NearbyDistance;
    var nearbyWords := NearbyTypeNames(unionDeclarations, currentUsage.unionType, dist);
    if nearbyWordExists {
      if |nearbyWords| == 1 {
        var alternativeTypeName := nearbyWords[0];
        found := UnionTypeNameIncorrect(modulePath, currentUsage.loc, currentUsage.unionType,
                                        AlternativeList([alternativeTypeName]),
                                        TypeNameMessage(currentUsage.unionType) + DidYouMean(alternativeTypeName));
      } else {
        var possibleWords := Join(nearbyWords, ",");
        found := UnionTypeNameIncorrect(modulePath, currentUsage.loc, currentUsage.unionType,
                                        AlternativeText(possibleWords),
                                        TypeNameMessage(currentUsage.unionType) + DidYouMean(nearbyWords[0]));
      }
    } else {
      assert nearbyWords == [];
      found := UnionTypeNameIncorrect(modulePath, currentUsage.loc, currentUsage.unionType,
                                      AlternativeList([]), TypeNameMessage(currentUsage.unionType));
    }
  }

  /** The rest of the analysis of a usage whose type is declared: the redundant
      catch-all finding, or, without catch-all, the two case loops. */
  method ReportCases(modulePath: string, declaredUnion: UnionDeclaration, currentUsage: MatchUsage,
                     dist: (string, string) -> nat)
    returns (found: seq<AnalyzerError>)
    ensures found == CaseErrors(modulePath, declaredUnion, currentUsage, dist)
  {
    found := [];
    var declaredCases := declaredUnion.cases;
    var usedCases := currentUsage.cases;
    var allCasesHandled := AllCasesHandled(declaredCases, usedCases);
    if allCasesHandled && currentUsage.usedCatchAll {
      found := [RedundantCatchAllArgument(modulePath, currentUsage.loc, RedundantCatchAllMessage)];
    }
    if !allCasesHandled && !currentUsage.usedCatchAll {
      var usedCasesNames := usedCases;
      var undeclaredKeys := ReportUndeclaredKeys(modulePath, currentUsage.loc, declaredUnion, usedCasesNames, dist);
      var unhandledCases := ReportUnhandledCases(modulePath, currentUsage.loc, declaredUnion, usedCasesNames);
      found := undeclaredKeys + unhandledCases;
    }
  }

  /** The loop of the analysis over the handled keys of a non-exhaustive match
      without catch-all: one finding per key that is not a declared case. */
  method ReportUndeclaredKeys(modulePath: string, loc: Loc, declaredUnion: UnionDeclaration,
                              usedCasesNames: seq<string>, dist: (string, string) -> nat)
    returns (found: seq<AnalyzerError>)
    ensures found == HandledButNotDeclaredErrors(modulePath, loc, declaredUnion, usedCasesNames, dist)
  {
    found := [];
    var declaredCases := declaredUnion.cases;
    for j := 0 to |usedCasesNames|
      invariant found == HandledButNotDeclaredErrors(modulePath, loc, declaredUnion, usedCasesNames[..j], dist)
    {
      var currentKey := usedCasesNames[j];
      assert usedCasesNames[..j + 1][..j] == usedCasesNames[..j];
      var usedKeyIsDeclared := exists c :: c in declaredCases && currentKey == c;
      if !usedKeyIsDeclared {
        // a typo: the key is not declared in the type
        var nearbyWordExists := exists c :: c in declaredCases && dist(c, currentKey) <= NearbyDistance;
        var nearbyWords := Nearby(declaredCases, currentKey, dist);
        if nearbyWordExists {
          if |nearbyWords| == 1 {
            found := found + [UnionCaseHandledButNotDeclared(modulePath, loc, declaredUnion.unionType, currentKey,
                                AlternativeList(nearbyWords),
                                UndeclaredCaseMessage(currentKey) + declaredUnion.unionType + DidYouMean(nearbyWords[0]))];
          } else {
            var possibleWords := Join(nearbyWords, ", ");
            found := found + [UnionCaseHandledButNotDeclared(modulePath, loc, declaredUnion.unionType, currentKey,
                                AlternativeList(nearbyWords),
                                UndeclaredCaseMessage(currentKey) + declaredUnion.unionType + DidYouMean(possibleWords))];
          }
        } else {
          assert nearbyWords == [];
          found := found + [UnionCaseHandledButNotDeclared(modulePath, loc, declaredUnion.unionType, currentKey,
                              AlternativeList([]),
                              UndeclaredCaseMessage(currentKey) + " '" + declaredUnion.unionType + "'")];
        }
        continue;
      }
    }
    assert usedCasesNames[..|usedCasesNames|] == usedCasesNames;
  }

  /** The loop of the analysis over the declared cases of a non-exhaustive match
      without catch-all: one finding per declared case that no key handles. */
  method ReportUnhandledCases(modulePath: string, loc: Loc, declaredUnion: UnionDeclaration,
                              usedCasesNames: seq<string>)
    returns (found: seq<AnalyzerError>)
    ensures found == DeclaredButNotHandledErrors(modulePath, loc, declaredUnion, declaredUnion.cases, usedCasesNames)
  {
    found := [];
    var declaredCases := declaredUnion.cases;
    for k := 0 to |declaredCases|
      invariant found == DeclaredButNotHandledErrors(modulePath, loc, declaredUnion, declaredCases[..k], usedCasesNames)
    {
      var declaredCase := declaredCases[k];
      assert declaredCases[..k + 1][..k] == declaredCases[..k];
      var declaredCaseHandled := exists n :: n in usedCasesNames && n == declaredCase;
      if !declaredCaseHandled {
        // a forgotten case
        found := found + [UnionCaseDeclaredButNotHandled(modulePath, loc, declaredUnion.unionType, declaredCase,
                            AlternativeList([]), UnhandledCaseMessage(declaredCase, declaredUnion.unionType))];
      }
    }
    assert declaredCases[..|declaredCases|] == declaredCases;
  }

  /** One more usage adds its findings at the end. */
  lemma ErrorsStep(path: string, decls: seq<UnionDeclaration>, usages: seq<MatchUsage>, i: nat,
                   dist: (string, string) -> nat)
    requires i < |usages|
    ensures Errors(path, decls, usages[..i + 1], dist)
         == Errors(path, decls, usages[..i], dist) + UsageErrors(path, decls, usages[i], dist)
  {
    assert usages[..i + 1][..i] == usages[..i];
  }
}
