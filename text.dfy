/** The string operations of Python that the script relies on: `str.strip()`,
    `', '.join(...)`, and, as the inverse of that join, a split on the same
    separator. Strings are sequences of characters. */
module Text {
  import opened Wrappers

  /** Python's `str.isspace()` for one character: the ASCII white space, the
      four information separators, NEL, NO-BREAK SPACE and the Unicode space,
      line and paragraph separators. */
  predicate IsSpace(c: char) {
    c == ' ' || c == '\t' || c == '\n' || c == '\r' || c == '\U{0B}' || c == '\U{0C}'
    || ('\U{1C}' <= c <= '\U{1F}') || c == '\U{85}' || c == '\U{A0}' || c == '\U{1680}'
    || ('\U{2000}' <= c <= '\U{200A}') || c == '\U{2028}' || c == '\U{2029}'
    || c == '\U{202F}' || c == '\U{205F}' || c == '\U{3000}'
  }

  ghost predicate AllSpace(s: string) {
    forall i :: 0 <= i < |s| ==> IsSpace(s[i])
  }

  /** Neither end of `s` is white space. */
  ghost predicate IsStripped(s: string) {
    s == [] || (!IsSpace(s[0]) && !IsSpace(s[|s| - 1]))
  }

  /** The first index at or after `i` whose character is not white space, or `|s|`. */
  function SkipSpace(s: string, i: nat): (k: nat)
    requires i <= |s|
    ensures i <= k <= |s|
    ensures forall j :: i <= j < k ==> IsSpace(s[j])
    ensures k == |s| || !IsSpace(s[k])
    decreases |s| - i
  {
    if i == |s| || !IsSpace(s[i]) then i else SkipSpace(s, i + 1)
  }

  /** The index just after the last character before `j` that is not white
      space, or 0 when there is none. */
  function SkipSpaceBack(s: string, j: nat): (k: nat)
    requires j <= |s|
    ensures k <= j
    ensures forall i :: k <= i < j ==> IsSpace(s[i])
    ensures k == 0 || !IsSpace(s[k - 1])
  {
    if j == 0 || !IsSpace(s[j - 1]) then j else SkipSpaceBack(s, j - 1)
  }

  /** Python's `s.strip()`: what lies between the leading and the trailing
      white space. */
  function Strip(s: string): (r: string)
    ensures IsStripped(r)
  {
    var lo := SkipSpace(s, 0);
    if lo == |s| then [] else s[lo..SkipSpaceBack(s, |s|)]
  }

  /** What Strip removes is white space, at both ends and nowhere else:
      `s` is `p + Strip(s) + q` for a white-space prefix `p` and suffix `q`. */
  lemma StripRemovesOnlySpace(s: string) returns (p: string, q: string)
    ensures AllSpace(p) && AllSpace(q)
    ensures s == p + Strip(s) + q
  {
    var lo := SkipSpace(s, 0);
    if lo == |s| {
      p, q := s, [];
      assert s == p + [] + q;
    } else {
      var hi := SkipSpaceBack(s, |s|);
      p, q := s[..lo], s[hi..];
      assert s[..hi] == p + s[lo..hi];
      assert s == s[..hi] + q;
    }
  }

  /** Strip is the unique such decomposition: whatever white space surrounds
      a stripped string, stripping gives that string back. Together with
      StripRemovesOnlySpace this characterises `str.strip()` completely. */
  lemma StripRecovers(p: string, r: string, q: string)
    requires AllSpace(p) && AllSpace(q) && IsStripped(r)
    ensures Strip(p + r + q) == r
  {
    var s := p + r + q;
    var lo := SkipSpace(s, 0);
    if r == [] {
      assert forall i :: 0 <= i < |s| ==> IsSpace(s[i]) by {
        forall i | 0 <= i < |s| ensures IsSpace(s[i]) {
          if i < |p| { assert s[i] == p[i]; } else { assert s[i] == q[i - |p|]; }
        }
      }
    } else {
      assert s[|p|] == r[0] && s[|p| + |r| - 1] == r[|r| - 1];
      assert forall i :: 0 <= i < |p| ==> s[i] == p[i];
      assert forall i :: |p| + |r| <= i < |s| ==> s[i] == q[i - |p| - |r|];
      assert lo == |p|;
      assert SkipSpaceBack(s, |s|) == |p| + |r|;
      assert s[|p|..|p| + |r|] == r;
    }
  }

  /** A string with no white space at either end is left as it is. */
  lemma StripKeepsStripped(s: string)
    requires IsStripped(s)
    ensures Strip(s) == s
  {
    assert [] + s + [] == s;
    StripRecovers([], s, []);
  }

  /** Stripping twice is stripping once. */
  lemma StripIdempotent(s: string)
    ensures Strip(Strip(s)) == Strip(s)
  {
    StripKeepsStripped(Strip(s));
  }

  /** The number of characters in all of `xs` together. */
  function TotalLength(xs: seq<string>): nat
  {
    if xs == [] then 0 else |xs[0]| + TotalLength(xs[1..])
  }

  /** `sep.join(xs)`: the pieces in order, the first one leading, with one
      separator between each two of them and nothing else. */
  function Join(xs: seq<string>, sep: string): (r: string)
    ensures xs != [] ==> xs[0] <= r
    ensures |r| == TotalLength(xs) + (if xs == [] then 0 else (|xs| - 1) * |sep|)
  {
    if xs == [] then "" else if |xs| == 1 then xs[0] else xs[0] + sep + Join(xs[1..], sep)
  }

  /** The separator `format_site_audit` puts between headings. */
  const Sep: string := ", "

  /** `s` has no occurrence of `Sep`. */
  predicate NoSep(s: string) {
    forall i :: 0 <= i < |s| - 1 ==> !(s[i] == ',' && s[i + 1] == ' ')
  }

  /** The index of the first occurrence of `Sep` in `s`. */
  function FindSep(s: string): (r: Option<nat>)
    ensures r.None? ==> NoSep(s)
    ensures r.Some? ==> r.value + 2 <= |s| && s[r.value] == ',' && s[r.value + 1] == ' ' && NoSep(s[..r.value + 1])
  {
    if |s| < 2 then None
    else if s[0] == ',' && s[1] == ' ' then Some(0)
    else
      match FindSep(s[1..])
      case None => None
      case Some(i) => assert s[1..][..i + 1] == s[1..i + 2]; Some(i + 1)
  }

  /** Python's `s.split(", ")`: the pieces between the occurrences of `Sep`. */
  function Split(s: string): (r: seq<string>)
    ensures |r| >= 1
    ensures forall k :: 0 <= k < |r| ==> NoSep(r[k])
    decreases |s|
  {
    match FindSep(s)
    case None => [s]
    case Some(i) => [s[..i]] + Split(s[i + 2..])
  }

  /** Joining the pieces of a split gives back the split string, for every string. */
  lemma {:induction false} JoinSplit(s: string)
    ensures Join(Split(s), Sep) == s
    decreases |s|
  {
    match FindSep(s)
    case None =>
    case Some(i) =>
      var rest := Split(s[i + 2..]);
      JoinSplit(s[i + 2..]);
      assert Split(s) == [s[..i]] + rest;
      assert s == s[..i] + Sep + s[i + 2..];
      assert Join(Split(s), Sep) == s[..i] + Sep + Join(rest, Sep);
  }

  /** In `x + ", " + y` with no separator in `x`, the first separator is the one after `x`. */
  lemma {:induction false} FindSepAfter(x: string, y: string)
    requires NoSep(x)
    ensures FindSep(x + Sep + y) == Some(|x|)
    decreases |x|
  {
    var s := x + Sep + y;
    if x == [] {
      assert s[0] == ',' && s[1] == ' ';
    } else {
      assert s[0] == x[0];
      assert s[1] == if |x| > 1 then x[1] else ',';
      assert s[1..] == x[1..] + Sep + y;
      FindSepAfter(x[1..], y);
    }
  }

  lemma SplitAround(x: string, y: string)
    requires FindSep(x + Sep + y) == Some(|x|)
    ensures Split(x + Sep + y) == [x] + Split(y)
  {
    var s := x + Sep + y;
    assert s[..|x|] == x;
    assert s[|x| + 2..] == y;
  }

  /** Splitting a join gives back the pieces, provided there is at least one
      piece and none of them contains the separator. */
  lemma {:induction false} SplitJoin(xs: seq<string>)
    requires xs != []
    requires forall k :: 0 <= k < |xs| ==> NoSep(xs[k])
    ensures Split(Join(xs, Sep)) == xs
    decreases |xs|
  {
    if |xs| == 1 {
    } else {
      var rest := Join(xs[1..], Sep);
      var s := xs[0] + Sep + rest;
      FindSepAfter(xs[0], rest);
      SplitAround(xs[0], rest);
      SplitJoin(xs[1..]);
      assert Split(s) == [xs[0]] + Split(rest);
    }
  }

  /** The index of the first `c` in `s`. */
  function FindChar(s: string, c: char): (r: Option<nat>)
    ensures r.None? ==> c !in s
    ensures r.Some? ==> r.value < |s| && s[r.value] == c && c !in s[..r.value]
  {
    if s == [] then None
    else if s[0] == c then Some(0)
    else
      match FindChar(s[1..], c)
      case None => None
      case Some(i) => assert s[..i + 1] == [s[0]] + s[1..][..i]; Some(i + 1)
  }

  /** In `x + [c] + y` with no `c` in `x`, the first `c` is the one after `x`. */
  lemma FindCharAfter(x: string, c: char, y: string)
    requires c !in x
    ensures FindChar(x + [c] + y, c) == Some(|x|)
  {
    var s := x + [c] + y;
    assert s[|x|] == c;
    assert s[..|x|] == x;
  }

  /** `x` occurs in `s` starting at index `at`. */
  ghost predicate OccursAt(s: string, x: string, at: int) {
    0 <= at && at + |x| <= |s| && s[at..at + |x|] == x
  }

  /** In `p + q`, `p` leads and `q` follows it. */
  lemma SplitConcat(p: string, q: string)
    ensures p <= p + q && OccursAt(p + q, q, |p|) && (p + q)[|p|..] == q
  {
    assert (p + q)[..|p|] == p;
    assert (p + q)[|p|..] == q;
  }

  /** An occurrence stays an occurrence, shifted, when text is put in front. */
  lemma OccursAfterPrefix(p: string, s: string, x: string, at: int)
    requires OccursAt(s, x, at)
    ensures OccursAt(p + s, x, |p| + at)
  {
    assert (p + s)[|p| + at..|p| + at + |x|] == s[at..at + |x|];
  }

  /** Where the two variable parts of a text built as `t0 + a + t1 + t2 + b + t3` sit in it. */
  lemma OccursInPair(t0: string, a: string, t1: string, t2: string, b: string, t3: string)
    ensures var s := t0 + a + t1 + t2 + b + t3;
      OccursAt(s, a, |t0|) && OccursAt(s, b, |t0| + |a| + |t1| + |t2|)
  {
    var s := t0 + a + t1 + t2 + b + t3;
    var p1 := t0 + a;
    var p2 := p1 + t1 + t2 + b;
    assert s[..|p1|] == p1 && s[..|p2|] == p2;
    assert p1[|t0|..] == a && p2[|p1| + |t1| + |t2|..] == b;
  }

  /** Where each of the parts of a text built as
      `t0 + a + t1 + b + t2 + c + t3` sits in it. */
  lemma OccursInTemplate(t0: string, a: string, t1: string, b: string, t2: string, c: string, t3: string)
    ensures var s := t0 + a + t1 + b + t2 + c + t3;
      && t0 <= s
      && OccursAt(s, a, |t0|)
      && OccursAt(s, t1, |t0| + |a|)
      && OccursAt(s, b, |t0| + |a| + |t1|)
      && OccursAt(s, t2, |t0| + |a| + |t1| + |b|)
      && OccursAt(s, c, |t0| + |a| + |t1| + |b| + |t2|)
      && OccursAt(s, t3, |t0| + |a| + |t1| + |b| + |t2| + |c|)
  {
    var s := t0 + a + t1 + b + t2 + c + t3;
    var p1 := t0 + a;
    var q1 := p1 + t1;
    var p2 := q1 + b;
    var q2 := p2 + t2;
    var p3 := q2 + c;
    assert s[..|p1|] == p1 && s[..|q1|] == q1 && s[..|p2|] == p2;
    assert s[..|q2|] == q2 && s[..|p3|] == p3 && s[|p3|..] == t3;
    assert p1[..|t0|] == t0 && p1[|t0|..] == a && q1[|p1|..] == t1;
    assert p2[|q1|..] == b && q2[|p2|..] == t2 && p3[|q2|..] == c;
  }

  /** Where the parts of a text built as `t0 + a + t1` sit in it. */
  lemma OccursInMiddle(t0: string, a: string, t1: string)
    ensures var s := t0 + a + t1;
      && t0 <= s && OccursAt(s, a, |t0|) && OccursAt(s, t1, |t0| + |a|)
  {
    var s := t0 + a + t1;
    assert s[..|t0| + |a|] == t0 + a;
    assert (t0 + a)[|t0|..] == a;
  }
}
