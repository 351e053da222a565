/** String helpers that stand for the Python built-ins the dialogue policy
    uses: str.lower, str.join, str.split, f-string rendering of optional
    values and of integers, and the truthiness test `x or default`. */
module Text {

  /** An optional value: None stands for a key that is missing from a
      persona dictionary. */
  datatype Option<+T> = None | Some(value: T) {
    function GetOr(default: T): T {
      match this
      case Some(v) => v
      case None => default
    }
  }

  predicate IsUpper(c: char) { 'A' <= c <= 'Z' }

  function LowerChar(c: char): (d: char)
    ensures !IsUpper(d)
    ensures !IsUpper(c) ==> d == c
  {
    if IsUpper(c) then (c as int + 32) as char else c
  }

  /** str.lower(), restricted to ASCII letters. */
  function Lower(s: string): (r: string)
    ensures |r| == |s|
    ensures forall i :: 0 <= i < |s| ==> r[i] == LowerChar(s[i])
    ensures forall i :: 0 <= i < |r| ==> !IsUpper(r[i])
  {
    seq(|s|, i requires 0 <= i < |s| => LowerChar(s[i]))
  }

  lemma LowerAppend(a: string, b: string)
    ensures Lower(a + b) == Lower(a) + Lower(b)
  {
    assert forall i | 0 <= i < |a + b| :: Lower(a + b)[i] == (Lower(a) + Lower(b))[i];
  }

  /** sep.join(parts) */
  function Join(sep: string, parts: seq<string>): string
  {
    if |parts| == 0 then ""
    else if |parts| == 1 then parts[0]
    else parts[0] + sep + Join(sep, parts[1..])
  }

  /** w occurs in s at position i. */
  predicate OccursAt(w: string, s: string, i: nat)
  {
    i + |w| <= |s| && s[i..i + |w|] == w
  }

  lemma OccursAtFirst(w: string, s: string, i: nat)
    requires OccursAt(w, s, i) && w != []
    ensures i < |s| && s[i] == w[0]
  {
    assert s[i..i + |w|][0] == s[i];
  }

  /** s.startswith(w) */
  predicate StartsWith(s: string, w: string)
  {
    |w| <= |s| && s[..|w|] == w
  }

  /** w is a substring of s (Python's `w in s`). */
  predicate Contains(s: string, w: string)
  {
    exists i: nat | i <= |s| :: OccursAt(w, s, i)
  }

  lemma ContainsAppend(a: string, b: string, w: string)
    requires Contains(b, w)
    ensures Contains(a + b, w) && Contains(b + a, w)
  {
    var i: nat :| i <= |b| && OccursAt(w, b, i);
    assert (a + b)[|a| + i..|a| + i + |w|] == b[i..i + |w|];
    assert OccursAt(w, a + b, |a| + i);
    assert (b + a)[i..i + |w|] == b[i..i + |w|];
    assert OccursAt(w, b + a, i);
  }

  lemma ContainsSuffix(a: string, w: string)
    ensures Contains(a + w, w)
  {
    assert (a + w)[|a|..|a| + |w|] == w;
    assert OccursAt(w, a + w, |a|);
  }

  /** A piece of a concatenation is a substring of it. */
  lemma ContainsMiddle(a: string, w: string, b: string)
    ensures Contains(a + w + b, w)
  {
    assert (a + w + b)[|a|..|a| + |w|] == w;
    assert OccursAt(w, a + w + b, |a|);
  }

  /** What the prefix contains, the whole text contains. */
  lemma ContainsInPrefix(s: string, pre: string, w: string)
    requires StartsWith(s, pre) && Contains(pre, w)
    ensures Contains(s, w)
  {
    var i: nat :| i <= |pre| && OccursAt(w, pre, i);
    assert s[i..i + |w|] == pre[i..i + |w|];
    assert OccursAt(w, s, i);
  }

  lemma ContainsTrans(s: string, w: string, v: string)
    requires Contains(s, w) && Contains(w, v)
    ensures Contains(s, v)
  {
    var i: nat :| i <= |s| && OccursAt(w, s, i);
    var j: nat :| j <= |w| && OccursAt(v, w, j);
    forall m | 0 <= m < |v| ensures s[i + j + m] == v[m] {
      assert s[i..i + |w|][j + m] == w[j + m];
      assert w[j..j + |v|][m] == v[m];
    }
    assert s[i + j..i + j + |v|] == v;
    assert OccursAt(v, s, i + j);
  }

  /** Every element of the list is a substring of the joined text. */
  lemma {:induction false} JoinContains(sep: string, parts: seq<string>, k: nat)
    requires k < |parts|
    ensures Contains(Join(sep, parts), parts[k])
  {
    if |parts| == 1 {
      assert OccursAt(parts[k], Join(sep, parts), 0);
    } else if k == 0 {
      assert Join(sep, parts)[0..|parts[0]|] == parts[0];
      assert OccursAt(parts[k], Join(sep, parts), 0);
    } else {
      JoinContains(sep, parts[1..], k - 1);
      ContainsAppend(parts[0] + sep, Join(sep, parts[1..]), parts[k]);
    }
  }

  /** "".join(parts) */
  function Concat(parts: seq<string>): string
  {
    if parts == [] then "" else parts[0] + Concat(parts[1..])
  }

  lemma {:induction false} ConcatAppend(parts: seq<string>, last: string)
    ensures Concat(parts + [last]) == Concat(parts) + last
  {
    if parts != [] {
      assert (parts + [last])[1..] == parts[1..] + [last];
      ConcatAppend(parts[1..], last);
    }
  }

  /** Every part is a substring of the concatenation. */
  lemma {:induction false} ConcatContains(parts: seq<string>, k: nat)
    requires k < |parts|
    ensures Contains(Concat(parts), parts[k])
  {
    if k == 0 {
      ContainsMiddle([], parts[0], Concat(parts[1..]));
      assert [] + parts[0] + Concat(parts[1..]) == Concat(parts);
    } else {
      ConcatContains(parts[1..], k - 1);
      ContainsAppend(parts[0], Concat(parts[1..]), parts[k]);
    }
  }

  lemma ContainsLength(s: string, w: string)
    requires Contains(s, w)
    ensures |w| <= |s|
  {
    var i: nat :| i <= |s| && OccursAt(w, s, i);
  }

  /** Neither c, a lower-case letter, nor its upper-case form occurs in s. */
  predicate Lacks(s: string, c: char)
  {
    'a' <= c <= 'z' && forall k | 0 <= k < |s| :: s[k] != c && s[k] != (c as int - 32) as char
  }

  lemma {:induction false} LacksConcat(parts: seq<string>, c: char)
    requires 'a' <= c <= 'z'
    requires forall k | 0 <= k < |parts| :: Lacks(parts[k], c)
    ensures Lacks(Concat(parts), c)
  {
    if parts != [] {
      LacksConcat(parts[1..], c);
      var rest := Concat(parts[1..]);
      assert forall k | |parts[0]| <= k < |parts[0] + rest| :: (parts[0] + rest)[k] == rest[k - |parts[0]|];
    }
  }

  /** Every letter of an occurrence of w in the lowercased text comes from
      the text, in one case or the other. */
  lemma OccurrenceHas(s: string, w: string, c: char, i: nat)
    requires 'a' <= c <= 'z' && c in w
    requires i <= |Lower(s)| && OccursAt(w, Lower(s), i)
    ensures !Lacks(s, c)
  {
    var j :| 0 <= j < |w| && w[j] == c;
    assert Lower(s)[i..i + |w|][j] == Lower(s)[i + j] == LowerChar(s[i + j]);
  }

  /** A text lacking a letter of w does not contain w once lowercased. */
  lemma LacksChar(s: string, w: string, c: char)
    requires c in w && Lacks(s, c)
    ensures !Contains(Lower(s), w)
  {
    if Contains(Lower(s), w) {
      var i: nat :| i <= |Lower(s)| && OccursAt(w, Lower(s), i);
      OccurrenceHas(s, w, c, i);
    }
  }

  /** An occurrence that runs over the end of a holds a's last character. */
  lemma Straddle(a: string, b: string, w: string, i: nat)
    requires i < |a| < i + |w| <= |a + b| && OccursAt(w, a + b, i)
    ensures a[|a| - 1] in w
  {
    assert (a + b)[i..i + |w|][|a| - 1 - i] == a[|a| - 1];
  }

  /** w is absent from a + b when it is absent from both and a ends in a
      character foreign to w. */
  lemma AbsentFromPair(a: string, b: string, w: string)
    requires !Contains(a, w) && !Contains(b, w)
    requires a != [] && b != [] ==> a[|a| - 1] !in w
    ensures !Contains(a + b, w)
  {
    if Contains(a + b, w) {
      var i: nat :| i <= |a + b| && OccursAt(w, a + b, i);
      if i + |w| <= |a| {
        assert a[i..i + |w|] == (a + b)[i..i + |w|];
        assert OccursAt(w, a, i);
      } else if i >= |a| {
        assert b[i - |a|..i - |a| + |w|] == (a + b)[i..i + |w|];
        assert OccursAt(w, b, i - |a|);
      } else {
        Straddle(a, b, w, i);
      }
    }
  }

  /** w does not occur in the lowercased concatenation when each part lacks
      a letter of w (missing[k] for part k) and each part but the last ends
      in a character whose lower case is foreign to w, so that no
      occurrence can run across two parts. */
  lemma {:induction false} AbsentFromParts(parts: seq<string>, missing: string, w: string)
    requires w != [] && |missing| == |parts|
    requires forall k | 0 <= k < |parts| :: missing[k] in w && Lacks(parts[k], missing[k])
    requires forall k | 0 <= k < |parts| - 1 ::
               parts[k] != [] && LowerChar(parts[k][|parts[k]| - 1]) !in w
    ensures !Contains(Lower(Concat(parts)), w)
  {
    if parts == [] {
      assert Lower(Concat(parts)) == [];
    } else {
      AbsentFromParts(parts[1..], missing[1..], w);
      LacksChar(parts[0], w, missing[0]);
      LowerAppend(parts[0], Concat(parts[1..]));
      if |parts| > 1 {
        assert Lower(parts[0])[|parts[0]| - 1] == LowerChar(parts[0][|parts[0]| - 1]);
      } else {
        assert Lower(Concat(parts[1..])) == [];
      }
      AbsentFromPair(Lower(parts[0]), Lower(Concat(parts[1..])), w);
    }
  }

  /** f"{x}" of an optional string: a missing value renders as None. */
  function Render(o: Option<string>): string
  {
    match o
    case Some(s) => s
    case None => "None"
  }

  /** f"{x}" of an optional boolean. */
  function RenderBool(o: Option<bool>): string
  {
    match o
    case Some(b) => if b then "True" else "False"
    case None => "None"
  }

  /** `x or default` for an optional string: None and "" are falsy. */
  function OrElse(o: Option<string>, default: string): (r: string)
    ensures r == default || (o.Some? && r == o.value && r != "")
  {
    if o.Some? && o.value != "" then o.value else default
  }

  /** [f"{k}: {v}" for k, v in d.items()] for a dictionary kept in order. */
  function Entries(kvs: seq<(string, string)>): (r: seq<string>)
    ensures |r| == |kvs|
    ensures forall k :: 0 <= k < |kvs| ==> r[k] == kvs[k].0 + ": " + kvs[k].1
  {
    seq(|kvs|, k requires 0 <= k < |kvs| => kvs[k].0 + ": " + kvs[k].1)
  }

  function DigitChar(d: nat): char
    requires d < 10
  {
    "0123456789"[d]
  }

  function NatToString(n: nat): (s: string)
    ensures |s| >= 1
    decreases n
  {
    if n < 10 then [DigitChar(n)] else NatToString(n / 10) + [DigitChar(n % 10)]
  }

  /** str(n) for an int. */
  function IntToString(n: int): (s: string)
    ensures |s| >= 1
  {
    if n < 0 then "-" + NatToString(-n) else NatToString(n)
  }

  /** The characters Python's str.split() treats as whitespace. */
  predicate IsSpace(c: char)
  {
    ('\t' <= c <= '\r') || ('\U{1c}' <= c <= ' ') || c == '\U{85}' || c == '\U{a0}' ||
    c == '\U{1680}' || ('\U{2000}' <= c <= '\U{200a}') || c == '\U{2028}' || c == '\U{2029}' ||
    c == '\U{202f}' || c == '\U{205f}' || c == '\U{3000}'
  }

  predicate NoSpace(s: string)
  {
    forall i :: 0 <= i < |s| ==> !IsSpace(s[i])
  }

  /** Length of the run of non-whitespace characters that starts s. */
  function WordLen(s: string): (n: nat)
    ensures n <= |s|
    ensures NoSpace(s[..n])
    ensures n < |s| ==> IsSpace(s[n])
  {
    if s == [] || IsSpace(s[0]) then 0
    else
      var n := 1 + WordLen(s[1..]);
      assert s[..n] == [s[0]] + s[1..][..n - 1];
      n
  }

  /** str.split() with no arguments: the maximal runs of non-whitespace. */
  function Words(s: string): (ws: seq<string>)
    ensures forall k :: 0 <= k < |ws| ==> ws[k] != "" && NoSpace(ws[k])
    decreases |s|
  {
    if s == [] then []
    else if IsSpace(s[0]) then Words(s[1..])
    else
      var n := WordLen(s);
      [s[..n]] + Words(s[n..])
  }

  lemma {:induction false} WordLenOfWord(w: string, c: char, rest: string)
    requires NoSpace(w) && IsSpace(c)
    ensures WordLen(w + [c] + rest) == |w|
    decreases |w|
  {
    var s := w + [c] + rest;
    if w != [] {
      assert s[1..] == w[1..] + [c] + rest;
      WordLenOfWord(w[1..], c, rest);
    }
  }

  /** A word followed by whitespace is the first word of the text. */
  lemma FirstWord(w: string, c: char, rest: string)
    requires w != [] && NoSpace(w) && IsSpace(c)
    ensures |Words(w + [c] + rest)| >= 1 && Words(w + [c] + rest)[0] == w
  {
    var s := w + [c] + rest;
    WordLenOfWord(w, c, rest);
    assert s[..|w|] == w;
  }

  /** A word followed by whitespace splits off as the first word. */
  lemma WordsCons(w: string, c: char, rest: string)
    requires w != [] && NoSpace(w) && IsSpace(c)
    ensures Words(w + [c] + rest) == [w] + Words(rest)
  {
    var s := w + [c] + rest;
    WordLenOfWord(w, c, rest);
    assert s[..|w|] == w;
    assert s[|w|..] == [c] + rest;
    assert ([c] + rest)[1..] == rest;
  }
}
