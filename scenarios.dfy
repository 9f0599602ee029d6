/** The situations the repository's own tests describe, stated over the model
    with Levenshtein distance as the measure of nearness. */
module Scenarios {
  import opened Syntax
  import opened Imports
  import opened Declarations
  import opened Usages
  import opened EditDistance
  import opened Analyzer
  import opened AnalyzerProperties

  const Path: string := "/cwd/irrelevant-filename"
  const Here: Loc := Loc(4, 7)

  /** `const Result = makeUnion([ 'Ok', 'Error' ])`, as collected. */
  const ResultDeclarations: seq<UnionDeclaration> := [UnionDeclaration("Result", ["Ok", "Error"])]

  /** A dispatch through `Result` handling `keys`, with or without catch-all. */
  function ResultMatch(typeName: string, keys: seq<string>, catchAll: bool): MatchUsage
  {
    MatchUsage(typeName, Here, keys, catchAll)
  }

  /** The findings of a file with a single usage are those of the usage. */
  lemma SingleUsage(decls: seq<UnionDeclaration>, u: MatchUsage, dist: (string, string) -> nat)
    ensures Errors(Path, decls, [u], dist) == UsageErrors(Path, decls, u, dist)
  {
    assert [u][..0] == [];
  }

  /** Handling exactly `Ok` and `Error` without catch-all reports nothing, whatever
      the measure of nearness. */
  lemma ValidUsage(dist: (string, string) -> nat)
    ensures Errors(Path, ResultDeclarations, [ResultMatch("Result", ["Ok", "Error"], false)], dist) == []
  {
    SingleUsage(ResultDeclarations, ResultMatch("Result", ["Ok", "Error"], false), dist);
  }

  /** `Tesult.match(...)` is one unknown type name finding offering exactly `Result`,
      for any measure that puts the two names within the threshold. */
  lemma MisspeltTypeName(dist: (string, string) -> nat)
    requires dist("Result", "Tesult") <= NearbyDistance
    ensures var r := Errors(Path, ResultDeclarations, [ResultMatch("Tesult", ["Ok", "Error"], false)], dist);
            && |r| == 1
            && r[0].UnionTypeNameIncorrect?
            && r[0].usedTypeName == "Tesult"
            && r[0].possibleAlternatives == AlternativeList(["Result"])
  {
    var u := ResultMatch("Tesult", ["Ok", "Error"], false);
    SingleUsage(ResultDeclarations, u, dist);
    assert !Declares(ResultDeclarations, "Tesult") by {
      assert ResultDeclarations[0].unionType != "Tesult";
    }
    assert NearbyTypeNames(ResultDeclarations, "Tesult", dist) == ["Result"] by {
      assert ResultDeclarations[1..] == [];
    }
    UnknownTypeName(Path, ResultDeclarations, u, dist);
  }

  /** Levenshtein distance puts `Tesult` one substitution away from `Result`. */
  lemma TesultNearResult()
    ensures Levenshtein("Result", "Tesult") <= NearbyDistance
  {
    AtMostMismatches("Result", "Tesult");
  }

  /** Forgetting `Error` is one declared-but-not-handled finding for `Error`. */
  lemma ForgottenCase(dist: (string, string) -> nat)
    ensures var r := Errors(Path, ResultDeclarations, [ResultMatch("Result", ["Ok"], false)], dist);
            && |r| == 1
            && r[0].UnionCaseDeclaredButNotHandled?
            && r[0].usedUnionType == "Result"
            && r[0].declaredUnionCase == "Error"
  {
    var u := ResultMatch("Result", ["Ok"], false);
    SingleUsage(ResultDeclarations, u, dist);
    assert "Error" in ["Ok", "Error"] && "Error" !in ["Ok"];
    assert Missing(["Ok"], ["Ok", "Error"]) == [] by {
      assert ["Ok"][..0] == [];
    }
    assert Missing(["Ok", "Error"], ["Ok"]) == ["Error"] by {
      assert ["Ok", "Error"][..1] == ["Ok"] && ["Ok"][..0] == [];
    }
    NonExhaustiveUsage(Path, ResultDeclarations, u, dist);
  }

  /** A catch-all covers the forgotten case: nothing is reported. */
  lemma CatchAllCoversForgottenCase(dist: (string, string) -> nat)
    ensures Errors(Path, ResultDeclarations, [ResultMatch("Result", ["Ok"], true)], dist) == []
  {
    var u := ResultMatch("Result", ["Ok"], true);
    SingleUsage(ResultDeclarations, u, dist);
    assert "Error" in ["Ok", "Error"] && "Error" !in ["Ok"];
    CatchAllSuppresses(Path, ResultDeclarations, u, dist);
  }

  /** A usage handling both declared cases and one more key reports what the
      key loop reports for that key, and nothing else. */
  lemma ExtraKeyOnly(typeName: string, first: string, second: string, key: string, dist: (string, string) -> nat)
    requires key != first && key != second
    ensures var decl := UnionDeclaration(typeName, [first, second]);
            Errors(Path, [decl], [ResultMatch(typeName, [first, second, key], false)], dist)
            == KeyError(Path, Here, decl, key, dist)
  {
    var decl := UnionDeclaration(typeName, [first, second]);
    var cases, keys := [first, second], [first, second, key];
    var u := ResultMatch(typeName, keys, false);
    assert Errors(Path, [decl], [u], dist) == CaseErrors(Path, decl, u, dist) by {
      SingleUsage([decl], u, dist);
      assert Declares([decl], typeName) by { assert [decl][0].unionType == typeName; }
      assert FirstDeclaration([decl], typeName) == decl;
    }
    assert !AllCasesHandled(cases, keys) by {
      assert key in keys && key !in cases;
    }
    assert HandledButNotDeclaredErrors(Path, Here, decl, keys, dist) == KeyError(Path, Here, decl, key, dist) by {
      assert keys[..2] == cases;
      HandledButNotDeclaredShape(Path, Here, decl, cases, dist);
      var none := Missing(cases, cases);
      assert none == [];
    }
    assert DeclaredButNotHandledErrors(Path, Here, decl, cases, keys) == [] by {
      DeclaredButNotHandledShape(Path, Here, decl, cases, keys);
      var none := Missing(cases, keys);
      assert none == [];
    }
  }

  /** Handling an extra key (`Other` beside `Ok` and `Error` in the tests) is one
      handled-but-not-declared finding for that key. */
  lemma ExtraCase(typeName: string, ok: string, error: string, other: string, dist: (string, string) -> nat)
    requires other != ok && other != error
    ensures var r := Errors(Path, [UnionDeclaration(typeName, [ok, error])],
                            [ResultMatch(typeName, [ok, error, other], false)], dist);
            && |r| == 1
            && r[0].UnionCaseHandledButNotDeclared?
            && r[0].usedUnionType == typeName
            && r[0].usedUnionCase == other
  {
    ExtraKeyOnly(typeName, ok, error, other, dist);
  }

  /** With two declared cases both near an extra key (`Erro` and `Error` near
      `Erron` in the tests), the key is one finding offering both cases, in
      declaration order. */
  lemma ExtraCaseNearTwoCases(typeName: string, first: string, second: string, key: string,
                              dist: (string, string) -> nat)
    requires key != first && key != second
    requires dist(first, key) <= NearbyDistance && dist(second, key) <= NearbyDistance
    ensures var r := Errors(Path, [UnionDeclaration(typeName, [first, second])],
                            [ResultMatch(typeName, [first, second, key], false)], dist);
            && |r| == 1
            && r[0].UnionCaseHandledButNotDeclared?
            && r[0].usedUnionCase == key
            && r[0].possibleAlternatives == AlternativeList([first, second])
  {
    var decl := UnionDeclaration(typeName, [first, second]);
    ExtraKeyOnly(typeName, first, second, key, dist);
    var cases := [first, second];
    assert Nearby(cases, key, dist) == cases by {
      assert cases[1..] == [second] && cases[1..][1..] == [];
    }
    var e := KeyError(Path, Here, decl, key, dist);
    assert |e| == 1 && e[0].UnionCaseHandledButNotDeclared? && e[0].usedUnionCase == key;
    assert e[0].possibleAlternatives == AlternativeList(cases);
  }

  /** Levenshtein distance puts `Erron` one edit away from both `Erro` and `Error`. */
  lemma ErronNearBoth()
    ensures Levenshtein("Erro", "Erron") <= NearbyDistance && Levenshtein("Error", "Erron") <= NearbyDistance
  {
    CommonPrefix("Erro", "", "n");
    assert "Erro" + "" == "Erro" && "Erro" + "n" == "Erron";
    CommonPrefix("Erro", "r", "n");
    AtMostMismatches("r", "n");
    assert "Erro" + "r" == "Error";
  }

  /** Handling every case and passing a catch-all is one redundant catch-all finding. */
  lemma RedundantCatchAll(dist: (string, string) -> nat)
    ensures Errors(Path, ResultDeclarations, [ResultMatch("Result", ["Ok", "Error"], true)], dist)
         == [RedundantCatchAllArgument(Path, Here, RedundantCatchAllMessage)]
  {
    SingleUsage(ResultDeclarations, ResultMatch("Result", ["Ok", "Error"], true), dist);
  }

  // ---------------------------------------------------------------------------
  // A whole file

  function Id(name: string): Node
  {
    Node(Here, Identifier(name))
  }

  /** `typeName.match(success, { keys[i]: () => 0 ... }[, () => 0])`. */
  function MatchCall(typeName: string, keys: seq<string>, catchAll: bool): Node
  {
    var handlers := Node(Here, ObjectExpression(seq(|keys|, i requires 0 <= i < |keys| =>
                      Node(Here, ObjectProperty(keys[i], Node(Here, Other([])))))));
    var callee := Node(Here, MemberExpression(Id(typeName), Id("match")));
    Node(Here, CallExpression(callee, [Id("success"), handlers] + if catchAll then [Node(Here, Other([]))] else []))
  }

  /** The call of the tests is collected with its type name, its span, its keys in
      literal order and whether it passes a catch-all. */
  lemma MatchCallCollected(typeName: string, keys: seq<string>, catchAll: bool)
    ensures Recorded(MatchCall(typeName, keys, catchAll))
    ensures UsageOf(MatchCall(typeName, keys, catchAll)) == ResultMatch(typeName, keys, catchAll)
  {
    var call := MatchCall(typeName, keys, catchAll);
    assert IsHandlerObject(call.kind.arguments[1]);
    assert HandlerKeys(call.kind.arguments[1].kind.properties) == keys;
  }

  /** The file of the valid-usage test, up to its declaration: the factory imported
      as `alias` and the type `typeName` declared with two cases. */
  function TypesFile(alias: string, typeName: string, first: string, second: string): seq<Node>
  {
    [ Node(Loc(1, 1), ImportDeclaration([ImportSpecifier("union", alias)], "tagmeme")),
      UnionStatement(Loc(2, 2), typeName, alias, [first, second]) ]
  }

  /** The import is the file's only factory binding. */
  lemma TypesFileImports(alias: string, typeName: string, first: string, second: string)
    ensures FindImports(TypesFile(alias, typeName, first, second)) == [FactoryImport("union", Some(alias))]
  {
    var body := TypesFile(alias, typeName, first, second);
    assert !UnionImported(body[1]) && !UnionRequired(body[1]);
    assert body[1..][1..] == [];
  }

  /** The declaration statement is the file's only declaration, with its cases in order. */
  lemma TypesFileDeclarations(alias: string, typeName: string, first: string, second: string)
    ensures var body := TypesFile(alias, typeName, first, second);
            FindUnionDeclarations(body, FindImports(body)) == [UnionDeclaration(typeName, [first, second])]
  {
    var body := TypesFile(alias, typeName, first, second);
    TypesFileImports(alias, typeName, first, second);
    DeclarationForm(Loc(2, 2), typeName, alias, [first, second], FindImports(body));
    assert DeclarationsWith([body[0]], Some(alias)) == [];
    DeclarationsAppend([body[0]], [body[1]], Some(alias));
    assert body == [body[0]] + [body[1]];
  }
}
