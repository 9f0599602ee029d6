/** The alternatives the analyzer offers for an undeclared type name, when
    nearness is measured by Levenshtein distance as in analyzer.js. */
module Suggestions {
  import opened Declarations
  import opened EditDistance
  import opened Analyzer

  /** A used name whose length differs by more than two from that of every
      declared type name is offered no alternative. */
  lemma FarTypeNameOffersNothing(decls: seq<UnionDeclaration>, used: string)
    requires forall i :: 0 <= i < |decls| ==>
               |decls[i].unionType| + NearbyDistance < |used| || |used| + NearbyDistance < |decls[i].unionType|
    ensures NearbyTypeNames(decls, used, Levenshtein) == []
  {
    forall i | 0 <= i < |decls|
      ensures Levenshtein(decls[i].unionType, used) > NearbyDistance
    {
      AtLeastLengthGap(decls[i].unionType, used);
    }
  }

  /** Every alternative offered for an undeclared type name is a genuine edit of
      it: one or two edits away, never the name itself. */
  lemma SuggestionsAreEdits(decls: seq<UnionDeclaration>, used: string)
    requires !Declares(decls, used)
    ensures forall x :: x in NearbyTypeNames(decls, used, Levenshtein) ==>
              1 <= Levenshtein(x, used) <= NearbyDistance
  {
    forall x | x in NearbyTypeNames(decls, used, Levenshtein)
      ensures 1 <= Levenshtein(x, used)
    {
      ZeroIffEqual(x, used);
    }
  }

  /** The analyzer measures from the declared name to the used one; measuring the
      other way round would offer the same alternatives, in the same order. */
  lemma {:induction false} DirectionIrrelevant(names: seq<string>, used: string)
    ensures Nearby(names, used, Levenshtein) == Nearby(names, used, (a, b) => Levenshtein(b, a))
  {
    if names != [] {
      Symmetric(names[0], used);
      DirectionIrrelevant(names[1..], used);
    }
  }
}
