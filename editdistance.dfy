/** Levenshtein distance between two names, the measure the checker uses to
    suggest near matches for a misspelt type or case name. */
module EditDistance {

  function Min3(a: nat, b: nat, c: nat): (m: nat)
    ensures m <= a && m <= b && m <= c
    ensures m == a || m == b || m == c
  {
    if a <= b && a <= c then a else if b <= c then b else c
  }

  /** The least number of single-character deletions, insertions and
      substitutions that turn `a` into `b`. */
  function Levenshtein(a: string, b: string): (d: nat)
    ensures d <= if |a| < |b| then |b| else |a|
    decreases |a| + |b|
  {
    if |a| == 0 then |b|
    else if |b| == 0 then |a|
    else Min3(Levenshtein(a[1..], b) + 1,
              Levenshtein(a, b[1..]) + 1,
              Levenshtein(a[1..], b[1..]) + (if a[0] == b[0] then 0 else 1))
  }

  /** Number of positions at which two equally long names differ. */
  function Mismatches(a: string, b: string): nat
    requires |a| == |b|
  {
    if |a| == 0 then 0 else (if a[0] == b[0] then 0 else 1) + Mismatches(a[1..], b[1..])
  }

  /** Substituting the differing characters is one way to edit: the distance of
      two equally long names is at most the number of their mismatches. */
  lemma {:induction false} AtMostMismatches(a: string, b: string)
    requires |a| == |b|
    ensures Levenshtein(a, b) <= Mismatches(a, b)
  {
    if |a| > 0 {
      AtMostMismatches(a[1..], b[1..]);
    }
  }

  /** A shared prefix costs nothing. */
  lemma {:induction false} CommonPrefix(p: string, s: string, t: string)
    ensures Levenshtein(p + s, p + t) <= Levenshtein(s, t)
  {
    if p == [] {
      assert p + s == s && p + t == t;
    } else {
      assert (p + s)[0] == p[0] == (p + t)[0];
      assert (p + s)[1..] == p[1..] + s;
      assert (p + t)[1..] == p[1..] + t;
      CommonPrefix(p[1..], s, t);
    }
  }

  /** Every edit changes the length by at most one. */
  lemma {:induction false} AtLeastLengthGap(a: string, b: string)
    decreases |a| + |b|
    ensures Levenshtein(a, b) >= |a| - |b| && Levenshtein(a, b) >= |b| - |a|
  {
    if |a| > 0 && |b| > 0 {
      AtLeastLengthGap(a[1..], b);
      AtLeastLengthGap(a, b[1..]);
      AtLeastLengthGap(a[1..], b[1..]);
    }
  }

  /** The distance is zero exactly for equal names. */
  lemma {:induction false} ZeroIffEqual(a: string, b: string)
    decreases |a| + |b|
    ensures Levenshtein(a, b) == 0 <==> a == b
  {
    if a == b {
      MismatchesSelf(a);
      AtMostMismatches(a, b);
    } else if |a| > 0 && |b| > 0 {
      AtLeastLengthGap(a[1..], b);
      AtLeastLengthGap(a, b[1..]);
      ZeroIffEqual(a[1..], b[1..]);
      if a[0] == b[0] {
        assert a == [a[0]] + a[1..] && b == [b[0]] + b[1..];
      }
    }
  }

  lemma {:induction false} MismatchesSelf(a: string)
    ensures Mismatches(a, a) == 0
  {
    if |a| > 0 {
      MismatchesSelf(a[1..]);
    }
  }

  /** Editing one name into the other costs the same both ways. */
  lemma {:induction false} Symmetric(a: string, b: string)
    decreases |a| + |b|
    ensures Levenshtein(a, b) == Levenshtein(b, a)
  {
    if |a| > 0 && |b| > 0 {
      Symmetric(a[1..], b);
      Symmetric(a, b[1..]);
      Symmetric(a[1..], b[1..]);
    }
  }
}
