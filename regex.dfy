/** The fragment of Python's `re` that the dialogue policy's patterns use,
    with `re.search` semantics: a pattern is found in a text when some
    start position has some match.  Only the existence of a match matters
    to the policy, so matching is given as the set of end positions a
    pattern can reach from a start position. */
module Regex {
  import opened Text

  datatype Regex =
    | Eps                          // the empty pattern
    | Str(s: string)               // a literal string
    | Dot                          // `.`: any character except a newline
    | Boundary                     // `\b`
    | Cat(first: Regex, second: Regex)
    | Alt(left: Regex, right: Regex)   // `left|right`
    | Opt(body: Regex)             // `body?`
    | DotStar                      // `.*`

  /** Word characters for `\b` (ASCII letters, digits and underscore). */
  predicate IsWordChar(c: char)
  {
    'a' <= c <= 'z' || 'A' <= c <= 'Z' || '0' <= c <= '9' || c == '_'
  }

  /** `\b` holds between a word character and a non-word character, the
      ends of the text counting as non-word. */
  predicate AtBoundary(t: string, i: nat)
    requires i <= |t|
  {
    (i > 0 && IsWordChar(t[i - 1])) != (i < |t| && IsWordChar(t[i]))
  }

  predicate NoNewline(t: string, i: nat, j: nat)
    requires i <= j <= |t|
  {
    forall m :: i <= m < j ==> t[m] != '\n'
  }

  /** The positions j such that r matches t[i..j]. */
  function Ends(r: Regex, t: string, i: nat): (ends: set<nat>)
    requires i <= |t|
    ensures forall j :: j in ends ==> i <= j <= |t|
    decreases r
  {
    match r
    case Eps => {i}
    case Str(s) => if OccursAt(s, t, i) then {i + |s|} else {}
    case Dot => if i < |t| && t[i] != '\n' then {i + 1} else {}
    case Boundary => if AtBoundary(t, i) then {i} else {}
    case Cat(a, b) => set k, j | k in Ends(a, t, i) && j in Ends(b, t, k) :: j
    case Alt(a, b) => Ends(a, t, i) + Ends(b, t, i)
    case Opt(a) => {i} + Ends(a, t, i)
    case DotStar => set j: nat | i <= j <= |t| && NoNewline(t, i, j)
  }

  predicate MatchesAt(r: Regex, t: string, i: nat)
  {
    i <= |t| && Ends(r, t, i) != {}
  }

  /** re.search(r, t) is not None */
  predicate Search(r: Regex, t: string)
  {
    exists i: nat | i <= |t| :: MatchesAt(r, t, i)
  }

  function Cat3(a: Regex, b: Regex, c: Regex): Regex
  {
    Cat(a, Cat(b, c))
  }

  function Cat4(a: Regex, b: Regex, c: Regex, d: Regex): Regex
  {
    Cat(a, Cat(b, Cat(c, d)))
  }

  /** `\bs\b` */
  function Word(s: string): Regex
  {
    Cat(Boundary, Cat(Str(s), Boundary))
  }

  /** `\bs` */
  function Stem(s: string): Regex
  {
    Cat(Boundary, Str(s))
  }

  /** A match of a concatenation passes through a match of its first part. */
  lemma CatSplit(a: Regex, b: Regex, t: string, i: nat, j: nat) returns (k: nat)
    requires i <= |t| && j in Ends(Cat(a, b), t, i)
    ensures k <= |t| && k in Ends(a, t, i) && j in Ends(b, t, k)
  {
    k :| k in Ends(a, t, i) && j in Ends(b, t, k);
  }

  /** A pattern `\bw...` is found only in a text containing w. */
  lemma LeadingStrContained(w: string, r: Regex, t: string)
    requires Search(Cat(Boundary, Cat(Str(w), r)), t)
    ensures Contains(t, w)
  {
    var i: nat :| i <= |t| && MatchesAt(Cat(Boundary, Cat(Str(w), r)), t, i);
    var j :| j in Ends(Cat(Boundary, Cat(Str(w), r)), t, i);
    var k := CatSplit(Boundary, Cat(Str(w), r), t, i, j);
    var m := CatSplit(Str(w), r, t, k, j);
    assert OccursAt(w, t, k);
  }

  /** An alternation of literals that each begin with a digit. */
  predicate DigitAlternatives(r: Regex)
  {
    match r
    case Str(s) => s != [] && '0' <= s[0] <= '9'
    case Alt(a, b) => DigitAlternatives(a) && DigitAlternatives(b)
    case _ => false
  }

  /** Such an alternation matches only from a digit. */
  lemma {:induction false} DigitAlternativesStart(r: Regex, t: string, i: nat, j: nat)
    requires DigitAlternatives(r) && i <= |t| && j in Ends(r, t, i)
    ensures i < j && '0' <= t[i] <= '9'
  {
    match r
    case Str(s) =>
      OccursAtFirst(s, t, i);
    case Alt(a, b) =>
      if j in Ends(a, t, i) {
        DigitAlternativesStart(a, t, i, j);
      } else {
        DigitAlternativesStart(b, t, i, j);
      }
  }

  /** A match of `\b num \b .* \bw\b` starts at a digit when num is an
      alternation of digit-led literals, and w occurs after that digit. */
  lemma NumberThenWord(num: Regex, w: string, t: string, i: nat, j: nat) returns (m: nat)
    requires DigitAlternatives(num) && i <= |t|
    requires j in Ends(Cat4(Boundary, num, Boundary, Cat(DotStar, Word(w))), t, i)
    ensures i < |t| && '0' <= t[i] <= '9'
    ensures i < m && OccursAt(w, t, m)
  {
    var tail := Cat(DotStar, Word(w));
    var k1 := CatSplit(Boundary, Cat(num, Cat(Boundary, tail)), t, i, j);
    var k2 := CatSplit(num, Cat(Boundary, tail), t, k1, j);
    DigitAlternativesStart(num, t, k1, k2);
    var k3 := CatSplit(Boundary, tail, t, k2, j);
    var k4 := CatSplit(DotStar, Word(w), t, k3, j);
    var k5 := CatSplit(Boundary, Cat(Str(w), Boundary), t, k4, j);
    var k6 := CatSplit(Str(w), Boundary, t, k5, j);
    m := k5;
  }

  /** A match of `\b r \b` is a match of r with a word boundary at both
      ends. */
  lemma BoundedMatch(r: Regex, t: string, i: nat, j: nat)
    requires i <= |t| && j in Ends(Cat(Boundary, Cat(r, Boundary)), t, i)
    ensures j in Ends(r, t, i) && j <= |t| && AtBoundary(t, i) && AtBoundary(t, j)
  {
    var k := CatSplit(Boundary, Cat(r, Boundary), t, i, j);
    var m := CatSplit(r, Boundary, t, k, j);
  }

  /** `\bw` is found where w starts right after a non-word character. */
  lemma StemFound(t: string, w: string, i: nat)
    requires w != [] && IsWordChar(w[0]) && OccursAt(w, t, i)
    requires i > 0 ==> !IsWordChar(t[i - 1])
    ensures Search(Stem(w), t)
  {
    assert t[i..i + |w|][0] == t[i];
    assert AtBoundary(t, i);
    assert i in Ends(Boundary, t, i);
    assert i + |w| in Ends(Str(w), t, i);
    assert i + |w| in Ends(Stem(w), t, i);
    assert MatchesAt(Stem(w), t, i);
  }

  /** `\bw` is found in the lowercased text when w, already lower-case,
      follows a non-word character or starts the text. */
  lemma StemAfter(head: string, w: string, tail: string)
    requires w != [] && IsWordChar(w[0]) && Lower(w) == w
    requires head != [] ==> !IsWordChar(head[|head| - 1])
    ensures Search(Stem(w), Lower(head + w + tail))
  {
    LowerAppend(head + w, tail);
    LowerAppend(head, w);
    var t := Lower(head + w + tail);
    assert t == Lower(head) + w + Lower(tail);
    assert t[|head|..|head| + |w|] == w;
    if head != [] {
      assert t[|head| - 1] == LowerChar(head[|head| - 1]);
    }
    StemFound(t, w, |head|);
  }

  lemma SearchAlt(a: Regex, b: Regex, t: string)
    ensures Search(Alt(a, b), t) <==> Search(a, t) || Search(b, t)
  {
    if Search(Alt(a, b), t) {
      var i: nat :| i <= |t| && MatchesAt(Alt(a, b), t, i);
      assert MatchesAt(a, t, i) || MatchesAt(b, t, i);
    }
    if Search(a, t) {
      var i: nat :| i <= |t| && MatchesAt(a, t, i);
      assert MatchesAt(Alt(a, b), t, i);
    }
    if Search(b, t) {
      var i: nat :| i <= |t| && MatchesAt(b, t, i);
      assert MatchesAt(Alt(a, b), t, i);
    }
  }

  /** A match of `\bw\b` starts with the first letter of w. */
  lemma WordStartsWith(w: string, t: string, i: nat)
    requires w != [] && MatchesAt(Word(w), t, i)
    ensures i < |t| && t[i] == w[0]
  {
    var j :| j in Ends(Word(w), t, i);
    var k :| k in Ends(Boundary, t, i) && j in Ends(Cat(Str(w), Boundary), t, k);
    var m :| m in Ends(Str(w), t, k) && j in Ends(Boundary, t, m);
  }

  /** A word pattern whose first letter is upper-case never matches a
      lower-cased text: Python's patterns are case-sensitive. */
  lemma UpperWordNeverMatches(w: string, t: string)
    requires w != [] && IsUpper(w[0])
    ensures !Search(Word(w), Lower(t))
  {
    if Search(Word(w), Lower(t)) {
      var i: nat :| i <= |Lower(t)| && MatchesAt(Word(w), Lower(t), i);
      WordStartsWith(w, Lower(t), i);
      assert false;
    }
  }
}
