# tagmeme-analyzer, modelled in Dafny

tagmeme-analyzer is a static checker for programs that use the `tagmeme`
library of tagged unions. A program declares a union type with the library's
`union` factory:

    const Result = union([ 'Ok', 'Error' ])

It then dispatches on a value of that type:

    Result.match(value, { Ok: ..., Error: ... }[, catchAll])

For one parsed file, the analyzer collects the factory bindings, the union
declarations and the `match` call sites. It then reports four kinds of
finding, in call-site order:

- a type name that no declaration has, with nearby declared names as
  suggestions;
- a handled key that the type does not declare, with nearby cases as
  suggestions;
- a declared case that the call does not handle;
- a catch-all argument that is redundant because every case is handled.

The model follows `analyzer.js` function by function:

- `syntax.dfy`: the slice of the syntax tree that the analyzer inspects, and
  the depth-first pre-order walk that stands in for the traversal library.
- `imports.dfy`: `unionImported`, `unionRequired` and `findImports`, as pure
  functions.
- `declarations.dfy`: `findUnionDeclarations`, as pure functions.
- `usages.dfy`: `findMatchUsages`.
  - It is a method with a worklist loop, because the source pushes into an
    array from a traversal callback.
  - It is proved equal to the function `MatchUsagesIn(WalkAll(ast))`.
- `linenumbers.dfy`: `normalize`, the two-digit line-number rendering.
- `editdistance.dfy`: a Levenshtein distance with the bounds needed to
  instantiate the test scenarios and the suggestion properties. The analysis
  itself takes the distance as a parameter `dist`.
- `suggestions.dfy`: what the suggestions are when the distance is
  Levenshtein's: none for names of very different length, never the used
  name itself, and the same whichever way round the distance is measured.
- `analyzer.dfy`:
  - the `AnalyzerError` union, the messages, and the specification functions
    of the findings;
  - the `analyze` loop, as the method `Analyze` with its nested loops in
    helper methods. Each method is proved equal to a specification function.
- `analyzer_properties.dfy`: what the findings mean. This covers:
  - reference definitions of the undeclared keys and unhandled cases;
  - the order and shape of each finding;
  - the iff between `allCasesHandled` and "nothing to report";
  - the catch-all rules;
  - the whole-file properties.
- `scenarios.dfy`: the situations of the repository's `analyze()` tests,
  stated over the model.

Where the code and the repository's tests disagree, the model follows the code:

- The tests exercise an API that `analyzer.js` in this version does not have:
  - `findExports` and `groupBy` (test/analyzer-tests.js:61-90);
  - exported and external declarations (test/analyzer-tests.js:145-185);
  - the duplicate-case and `match`-as-case findings (test/analyzer-tests.js:302-328);
  - declarations imported from other files (test/analyzer-tests.js:348-379);
  - `logErrorsAndExit` (test/analyzer-tests.js:381 onward).
- The tests call `analyze` with three arguments (for instance
  test/analyzer-tests.js:200), while the code takes two.

## Model

| member | source | states |
|---|---|---|
| Syntax.Walk | analyzer.js:83-101 | the traversal enters a node first, before anything below it |
| Syntax.WalkAllAppend | analyzer.js:83-101 | the traversal of a sequence of trees is the traversal of each part, in order |
| Syntax.WalkUnfold | analyzer.js:83-101 | entering a node comes before entering any of its descendants (pre-order) |
| Syntax.RootsAreWalked | analyzer.js:83-101 | every top-level statement is entered by the traversal |
| Imports.UnionImported | analyzer.js:19-24 | accepts `import { union [as L] } from 'tagmeme'` with exactly one `{ x as y }` specifier; such a statement is never of the require form |
| Imports.UnionRequired | analyzer.js:27-36 | accepts a one-declarator statement whose initializer is `require('tagmeme').union`, with one string argument |
| Imports.BindingOf | analyzer.js:41-53 | a matching statement binds the imported name `union` |
| Imports.FindImports | analyzer.js:38-54 | at most one binding per statement, and every binding imports `union` |
| Imports.FindImportsAppend | analyzer.js:38-40 | bindings come out one per matching statement, in statement order |
| Imports.FindImportsEmpty | analyzer.js:38-40 | no binding exactly when no statement is a matching import or require |
| Imports.ImportFormBinds | analyzer.js:19-24 | `import { union as L } from S` binds `L` iff S is `tagmeme`, and nothing otherwise |
| Imports.RequireFormBinds | analyzer.js:27-36 | `const L = require(S).union` binds `L` iff S is `tagmeme`, and nothing otherwise |
| Imports.ImportAndRequireAgree | analyzer.js:42-52 | the import form and the require form of the same alias give the same binding |
| Declarations.IsUnionDeclaration | analyzer.js:64-71 | accepts `const T = L([...])` with one declarator, an identifier `T`, a call of the first alias `L` with one array argument of string literals; such a statement never binds the factory |
| Declarations.DeclarationIn | analyzer.js:64-77 | a statement makes at most one declaration |
| Declarations.DeclarationsWith | analyzer.js:64-77 | no more declarations than statements |
| Declarations.FindUnionDeclarations | analyzer.js:56-78 | no factory binding gives no declaration; at most one declaration per statement |
| Declarations.OnlyFirstAliasHonoured | analyzer.js:62 | further bindings after the first one change nothing |
| Declarations.DeclarationsAppend | analyzer.js:64-77 | declarations come out one per matching statement, in statement order |
| Declarations.DeclarationsSound | analyzer.js:64-71 | every declaration comes from a statement of the declaration form with the first alias |
| Declarations.DeclarationForm | analyzer.js:72-77 | `const T = L([c1, ...])` with the first alias `L` gives exactly T with cases c1, ... in order, duplicates kept |
| Declarations.OtherCalleeDeclaresNothing | analyzer.js:69 | a call of any other callee declares nothing |
| Usages.IsMatchCall | analyzer.js:86-90 | accepts a call whose callee is a member access named `match`, with two or three arguments |
| Usages.Recorded | analyzer.js:86-96 | narrower than the source's `isMatchCall`: it also demands an identifier before `.match` and an object literal of `key: handler` pairs as second argument |
| Usages.MatchCallNotRecorded | analyzer.js:86-99 | `minimatch.match(list, '*.js')` is a match call, yet the model records no usage for it |
| Usages.UsageOf | analyzer.js:92-99 | a usage records the dispatching name, the call's span, the handler keys in order, and a catch-all iff there are 3 arguments |
| Usages.UsageAt | analyzer.js:86-99 | a node yields at most one usage |
| Usages.FindMatchUsages | analyzer.js:80-104 | the worklist loop yields exactly the usages of the recorded calls in traversal order |
| Usages.MatchUsagesInAppend | analyzer.js:83-101 | usages come out in the order their calls are entered |
| Usages.MatchUsagesSound | analyzer.js:86-99 | every usage comes from a recorded match call among the entered nodes |
| Usages.MatchUsagesComplete | analyzer.js:86-99 | every recorded match call among the entered nodes yields its usage |
| Usages.OuterBeforeInner | analyzer.js:83-101 | a call's own usage precedes the usages nested in its arguments |
| Usages.UsagesOfForest | analyzer.js:83-101 | the usages of the file are those of its first statement followed by those of the rest |
| Usages.NoMatchCallNoUsage | analyzer.js:86-92 | a tree without a recorded call yields no usage |
| EditDistance.Levenshtein | analyzer.js:7 | the edit distance of two names is at most the length of the longer one |
| EditDistance.AtMostMismatches | analyzer.js:7 | the distance between equal-length names is at most their number of differing positions |
| EditDistance.CommonPrefix | analyzer.js:7 | a shared prefix never increases the distance |
| EditDistance.AtLeastLengthGap | analyzer.js:7 | the distance is at least the difference in length |
| EditDistance.ZeroIffEqual | analyzer.js:7 | the distance is zero iff the names are equal |
| EditDistance.MismatchesSelf | analyzer.js:7 | a name has no differing positions with itself |
| EditDistance.Symmetric | analyzer.js:7 | the distance does not depend on argument order |
| LineNumbers.Decimal | analyzer.js:107-108 | `toString` gives exactly one digit below ten, two or more from ten on, and no leading zero for positive numbers |
| LineNumbers.Normalize | analyzer.js:106-109 | the rendering is all decimal digits: exactly two below ten, with a leading zero exactly then, and at least two from ten on |
| LineNumbers.DecimalRoundTrip | analyzer.js:107-108 | the digits read back give the number |
| LineNumbers.LeadingZero | analyzer.js:107 | a prepended zero does not change the value |
| LineNumbers.NormalizeRoundTrip | analyzer.js:106-109 | the padded rendering still reads back as the line number |
| Analyzer.Nearby | analyzer.js:222-224 | exactly the declared cases within distance 2 of the key, and no more entries than declared cases; empty iff none is near |
| Analyzer.NearbyTypeNames | analyzer.js:134-136 | exactly the declared type names within distance 2 of the used name; empty iff none is near |
| Analyzer.FirstDeclaration | analyzer.js:186-187 | the first declaration whose type name is the used one |
| Analyzer.Analyze | analyzer.js:118-298 | the findings are those of the usages of the file in order, each checked against the file's declarations |
| Analyzer.ReportTypeName | analyzer.js:132-184 | the single finding of an undeclared type name, with its alternatives by their number |
| Analyzer.ReportCases | analyzer.js:186-294 | the findings of a usage of a declared type: redundant catch-all, nothing, or the results of both case loops |
| Analyzer.ReportUndeclaredKeys | analyzer.js:214-272 | the key loop gives one finding per undeclared key, in key order |
| Analyzer.ReportUnhandledCases | analyzer.js:276-293 | the case loop gives one finding per unhandled declared case, in declaration order |
| Analyzer.ErrorsStep | analyzer.js:127-128 | one more usage appends exactly its own findings |
| AnalyzerProperties.Missing | analyzer.js:217-280 | the elements of one list absent from the other, in order: the undeclared keys in key order, and the unhandled cases in declaration order |
| AnalyzerProperties.HandledButNotDeclaredShape | analyzer.js:217-272 | the key loop's i-th finding names the i-th undeclared key, the type, the span and the nearby cases |
| AnalyzerProperties.DeclaredButNotHandledShape | analyzer.js:276-293 | the case loop's i-th finding names the i-th unhandled case with no alternatives |
| AnalyzerProperties.AllCasesHandledIffNothingMissing | analyzer.js:191-193 | all cases are handled iff there is no undeclared key and no unhandled case |
| AnalyzerProperties.AllCasesHandledIffSameSets | analyzer.js:191-193 | all cases are handled iff the set of keys equals the set of declared cases |
| AnalyzerProperties.UnknownTypeName | analyzer.js:132-184 | an undeclared type name gives exactly one finding, with no alternative, the single near name, or the near names joined by "," |
| AnalyzerProperties.ExhaustiveUsage | analyzer.js:196-210 | handling every case gives the redundant catch-all finding with a catch-all and nothing without |
| AnalyzerProperties.CatchAllSuppresses | analyzer.js:207-212 | a non-exhaustive usage with a catch-all gives no finding |
| AnalyzerProperties.NonExhaustiveUsage | analyzer.js:212-294 | a non-exhaustive usage without catch-all gives at least one finding: the undeclared keys in key order, then the unhandled cases in declaration order |
| AnalyzerProperties.UsageErrorsLocated | analyzer.js:141-143 | every finding of a usage names the file and the usage's span |
| AnalyzerProperties.ErrorsAppend | analyzer.js:127-128 | the findings of two runs of usages are concatenated in order |
| AnalyzerProperties.ErrorsLocated | analyzer.js:127-295 | every finding names the file and the span of one of the usages |
| AnalyzerProperties.NoDeclarations | analyzer.js:168-181 | without declarations, each usage gives one unknown type name finding with no alternative |
| AnalyzerProperties.WithoutImportEveryUsageIsUnknown | analyzer.js:56-60 | a file without a factory binding reports every recorded match call (Usages.Recorded) as an unknown type name |
| AnalyzerProperties.NearbyAppend | analyzer.js:222-224 | the suggested cases keep declaration order: those among the first cases come before those among the rest |
| AnalyzerProperties.NearbyTypeNamesAppend | analyzer.js:134-136 | the suggested type names keep declaration order |
| Suggestions.FarTypeNameOffersNothing | analyzer.js:134-136 | with Levenshtein distance, declared names whose length differs from the used one's by more than 2 are never suggested |
| Suggestions.SuggestionsAreEdits | analyzer.js:134-136 | with Levenshtein distance, an undeclared name is never offered itself: every suggestion is 1 or 2 edits away |
| Suggestions.DirectionIrrelevant | analyzer.js:222-224 | measuring from the key instead of the declared name would offer the same suggestions in the same order (the same filter serves type names, analyzer.js:134-136) |
| Scenarios.ValidUsage | test/analyzer-tests.js:188-202 | handling exactly `Ok` and `Error` gives no finding |
| Scenarios.MisspeltTypeName | test/analyzer-tests.js:204-226 | `Tesult.match` gives one finding offering exactly `Result` |
| Scenarios.TesultNearResult | test/analyzer-tests.js:204-226 | `Tesult` is within distance 2 of `Result` |
| Scenarios.ForgottenCase | test/analyzer-tests.js:228-247 | handling only `Ok` gives one declared-but-not-handled finding for `Error` |
| Scenarios.CatchAllCoversForgottenCase | test/analyzer-tests.js:249-260 | a catch-all covers the forgotten case |
| Scenarios.ExtraCase | test/analyzer-tests.js:262-280 | an extra key gives one handled-but-not-declared finding for that key |
| Scenarios.ExtraCaseNearTwoCases | test/analyzer-tests.js:282-300 | a key near both declared cases gives one finding offering both, in declaration order |
| Scenarios.ErronNearBoth | test/analyzer-tests.js:282-300 | `Erron` is within distance 2 of both `Erro` and `Error` |
| Scenarios.RedundantCatchAll | test/analyzer-tests.js:330-346 | handling every case with a catch-all gives the redundant catch-all finding |
| Scenarios.MatchCallCollected | test/analyzer-tests.js:188-202 | the tests' call `T.match(success, {...})` is recorded with its name, span, keys and catch-all flag |
| Scenarios.TypesFileImports | test/analyzer-tests.js:19-26 | the aliased import is the file's only binding |
| Scenarios.TypesFileDeclarations | test/analyzer-tests.js:110-124 | the aliased declaration is found with its cases in order |

## Left out

- Reading the file, resolving its path and parsing it are outside the model. `Analyze` takes the full path and the parsed top-level statements.
- The command-line entry point and the coloured logging are not part of this model.
- The traversal library is not modelled. The depth-first pre-order walk over the modelled node kinds replaces it; node kinds the analyzer never inspects are `Other` nodes with their children.
- fast-levenshtein is a foreign library. The analysis takes the distance as a parameter. The Levenshtein function here instantiates the test scenarios and the suggestion properties.
- `normalize` feeds only the `pathLog` string, which only commented-out logging uses. It is modelled on its own, and `Analyze` does not build `pathLog`.
- Two source shapes make the source throw, because it reads a property of `undefined` or `null` (analyzer.js:22, 30, 68). The model treats them as statements that do not match:
  - a single declarator without initializer, such as `let x;`, whose `init` is `null`;
  - a single import specifier that is a default or namespace specifier.
- Declarations.IsUnionDeclaration: accepts only arrays of string literals. For `const T = L(['A', B])`, the source keeps `T`, with `undefined` as the case for `B` (analyzer.js:75), and checks usages of `T` against it. The model drops the declaration, so each usage of `T` becomes an unknown type name finding. It likewise drops an array with a hole, such as `const T = L(['A', , 'B'])`, where the source throws when it reads `elem.value` of the hole (analyzer.js:75).
- Usages.Recorded: a `match` call on an object that is not a plain identifier is not recorded. The source records it with an undefined type name (analyzer.js:94). It reports that usage as an unknown type name when the file has no declaration, and throws in the distance computation otherwise (analyzer.js:134).
- Usages.Recorded: a `match` call whose second argument is not an object literal of `key: handler` pairs is not recorded. This covers, for instance, `minimatch.match(list, '*.js')`, string-literal keys and spread properties. The source records it:
  - It reports an unknown type name finding when the name is not declared (analyzer.js:132-183).
  - For a declared name, a non-object argument makes it throw (analyzer.js:192-193).
  - String-literal keys become `undefined` keys. When the declared type has cases and the call has no catch-all, the key loop then passes `undefined` to the distance computation, which throws (analyzer.js:222). When the declared type has no cases (`union([])`) and the call has no catch-all, the source instead reports a handled-but-not-declared finding with an undefined key for each such key (analyzer.js:217-265), and the model reports nothing. A spread property makes it throw.
- Usages.Recorded: a method-shorthand handler such as `{ Ok(v) { ... } }` is an identifier-keyed property, just as the source reads its `key.name` (analyzer.js:192-193, 214). The syntax tree encodes it as `ObjectProperty(key, handler)`, and the model checks it like any other handler.
- Usages.FindMatchUsages: yields only the usages of recorded calls, for the reasons given for Usages.Recorded.
- AnalyzerProperties.WithoutImportEveryUsageIsUnknown: covers only recorded calls. The source also reports unrecorded match calls, such as `minimatch.match(list, '*.js')`, as unknown type names (analyzer.js:132-183).
- Exports, groupBy, cross-file declarations and the duplicate-case and `match`-as-case findings are not modelled. They appear only in the repository's tests, not in `analyzer.js`. The same holds for `logErrorsAndExit`.
- Analyzer.Analyze: the key loop and the case loop sit in helper methods. The findings and their order are unchanged.
- The scenario lemmas state the test situations for any distance measure that puts the names within the threshold. The two distance facts the tests rely on are separate lemmas.
