/** Case folding for command-line flags. Only ASCII letters are folded:
    Python's `str.lower` also maps non-ASCII letters, which this model does
    not cover. */
module Text {
  predicate IsUpper(c: char) {
    'A' <= c <= 'Z'
  }

  /** One character lower-cased: upper-case ASCII letters move to their
      lower-case partner, everything else is left alone. */
  function LowerChar(c: char): (l: char)
    ensures IsUpper(c) ==> 'a' <= l <= 'z' && l as int - c as int == 32
    ensures !IsUpper(c) ==> l == c
    ensures !IsUpper(l)
  {
    if IsUpper(c) then (c as int + 32) as char else c
  }

  /** The string with every character lower-cased. */
  function Lower(s: string): (r: string)
    ensures |r| == |s|
    ensures forall i | 0 <= i < |s| :: r[i] == LowerChar(s[i])
  {
    if s == [] then [] else [LowerChar(s[0])] + Lower(s[1..])
  }

  /** Neither upper-case letter appears. */
  predicate NoUpper(s: string) {
    forall i | 0 <= i < |s| :: !IsUpper(s[i])
  }

  /** Lower-casing leaves no upper-case letter, and leaves alone exactly the
      strings that have none. */
  lemma LowerFixes(s: string)
    ensures NoUpper(Lower(s))
    ensures Lower(s) == s <==> NoUpper(s)
  {
    if NoUpper(s) {
      forall i | 0 <= i < |s| ensures Lower(s)[i] == s[i] {}
    }
  }

  /** Lower-casing twice is lower-casing once. */
  lemma LowerIdempotent(s: string)
    ensures Lower(Lower(s)) == Lower(s)
  {
    LowerFixes(s);
    LowerFixes(Lower(s));
  }

  /** Two strings that agree letter by letter once case is ignored. */
  predicate EqualIgnoringCase(a: string, b: string) {
    |a| == |b| && forall i | 0 <= i < |a| :: LowerChar(a[i]) == LowerChar(b[i])
  }

  /** Comparing lower-cased forms is comparing up to case. */
  lemma LowerEqual(a: string, b: string)
    ensures Lower(a) == Lower(b) <==> EqualIgnoringCase(a, b)
  {
    if Lower(a) == Lower(b) {
      assert |a| == |b|;
      forall i | 0 <= i < |a| ensures LowerChar(a[i]) == LowerChar(b[i]) {
        assert Lower(a)[i] == Lower(b)[i];
      }
    }
  }
}
