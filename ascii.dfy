/** ASCII character classes and the string operations of Python's `str` that the
    validators, the gateway and the dialogue rely on: `lower`, `upper`, `title`,
    `strip`, `split()`, `in` (substring), `join` and splitting on a character
    class.  Python applies these to all of Unicode; here they are restricted to
    ASCII, which is where the application's inputs and constants live. */
module Ascii {

  /** `str.isspace()` on ASCII: tab, line feed, vertical tab, form feed, carriage
      return, the separators 0x1C..0x1F and the space.  This is also what `\s`
      matches in a Python regular expression. */
  predicate IsSpace(c: char) {
    c == ' ' || ('\t' <= c <= '\r') || ('\U{1C}' <= c <= '\U{1F}')
  }

  predicate IsDigit(c: char) { '0' <= c <= '9' }
  predicate IsUpper(c: char) { 'A' <= c <= 'Z' }
  predicate IsLower(c: char) { 'a' <= c <= 'z' }
  predicate IsLetter(c: char) { IsUpper(c) || IsLower(c) }

  predicate AllDigits(s: string) { forall i :: 0 <= i < |s| ==> IsDigit(s[i]) }
  predicate AllSpace(s: string) { forall i :: 0 <= i < |s| ==> IsSpace(s[i]) }

  function ToLower(c: char): char {
    if IsUpper(c) then (c as int + 32) as char else c
  }

  function ToUpper(c: char): char {
    if IsLower(c) then (c as int - 32) as char else c
  }

  /** `str.lower()` */
  function Lower(s: string): string {
    seq(|s|, i requires 0 <= i < |s| => ToLower(s[i]))
  }

  /** `str.upper()` */
  function Upper(s: string): string {
    seq(|s|, i requires 0 <= i < |s| => ToUpper(s[i]))
  }

  /** Text without upper-case letters is its own lower-case form. */
  lemma LowerOfLower(s: string)
    requires forall i :: 0 <= i < |s| ==> !IsUpper(s[i])
    ensures Lower(s) == s
  {
  }

  lemma LowerAppend(a: string, b: string)
    ensures Lower(a + b) == Lower(a) + Lower(b)
  {
    assert forall i :: 0 <= i < |a + b| ==> Lower(a + b)[i] == (Lower(a) + Lower(b))[i];
  }

  /** `str.title()`: a letter is upper-cased when the character before it is not
      a letter and lower-cased otherwise; other characters are kept. */
  function Title(s: string): string {
    TitleAfter(s, false)
  }

  function TitleAfter(s: string, afterLetter: bool): (r: string)
    ensures |r| == |s|
  {
    if s == [] then []
    else
      var c := s[0];
      var d := if !IsLetter(c) then c else if afterLetter then ToLower(c) else ToUpper(c);
      [d] + TitleAfter(s[1..], IsLetter(c))
  }

  /** `s.replace(a, b)` for single characters. */
  function ReplaceChar(s: string, a: char, b: char): string {
    seq(|s|, i requires 0 <= i < |s| => if s[i] == a then b else s[i])
  }

  // ---------------------------------------------------------------------------
  // Substring test: Python's `k in s`.

  predicate OccursAt(s: string, k: string, i: int) {
    0 <= i && i + |k| <= |s| && s[i..i + |k|] == k
  }

  predicate Contains(s: string, k: string)
    decreases |s|
  {
    if |k| > |s| then false
    else if s[..|k|] == k then true
    else Contains(s[1..], k)
  }

  lemma {:induction false} ContainsIff(s: string, k: string)
    ensures Contains(s, k) <==> exists i :: OccursAt(s, k, i)
    decreases |s|
  {
    if |k| > |s| {
    } else if s[..|k|] == k {
      assert OccursAt(s, k, 0);
    } else {
      ContainsIff(s[1..], k);
      if Contains(s[1..], k) {
        var i :| OccursAt(s[1..], k, i);
        assert s[1..][i..i + |k|] == s[i + 1..i + 1 + |k|];
        assert OccursAt(s, k, i + 1);
      }
      if exists i :: OccursAt(s, k, i) {
        var i :| OccursAt(s, k, i);
        assert i != 0;
        assert s[1..][i - 1..i - 1 + |k|] == s[i..i + |k|];
        assert OccursAt(s[1..], k, i - 1);
      }
    }
  }

  lemma ContainsWitness(s: string, k: string, i: int)
    requires OccursAt(s, k, i)
    ensures Contains(s, k)
  {
    ContainsIff(s, k);
  }

  /** Appending text on either side keeps every occurrence. */
  lemma ContainsExtend(a: string, s: string, b: string, k: string)
    requires Contains(s, k)
    ensures Contains(a + s + b, k)
  {
    ContainsIff(s, k);
    var i :| OccursAt(s, k, i);
    assert (a + s + b)[|a| + i..|a| + i + |k|] == s[i..i + |k|];
    ContainsWitness(a + s + b, k, |a| + i);
  }

  // ---------------------------------------------------------------------------
  // `str.strip()`

  function LeadingSpaces(s: string): (n: nat)
    ensures n <= |s|
    ensures forall i :: 0 <= i < n ==> IsSpace(s[i])
    ensures n < |s| ==> !IsSpace(s[n])
  {
    if s != [] && IsSpace(s[0]) then 1 + LeadingSpaces(s[1..]) else 0
  }

  function TrailingSpaces(s: string): (n: nat)
    ensures n <= |s|
    ensures forall i :: |s| - n <= i < |s| ==> IsSpace(s[i])
    ensures n < |s| ==> !IsSpace(s[|s| - 1 - n])
  {
    if s != [] && IsSpace(s[|s| - 1]) then 1 + TrailingSpaces(s[..|s| - 1]) else 0
  }

  function Strip(s: string): string {
    var t := s[LeadingSpaces(s)..];
    t[..|t| - TrailingSpaces(t)]
  }

  /** Strip removes a run of spaces at each end and nothing else, and what is left
      neither starts nor ends with a space. */
  lemma StripBounds(s: string) returns (p: nat, q: nat)
    ensures p <= q <= |s| && Strip(s) == s[p..q]
    ensures AllSpace(s[..p]) && AllSpace(s[q..])
    ensures p < q ==> !IsSpace(s[p]) && !IsSpace(s[q - 1])
  {
    p := LeadingSpaces(s);
    var t := s[p..];
    q := p + |t| - TrailingSpaces(t);
    assert t[..|t| - TrailingSpaces(t)] == s[p..q];
  }

  lemma LeadingSpacesOfSpacePrefix(w: string, x: string)
    requires AllSpace(w)
    ensures LeadingSpaces(w + x) == |w| + LeadingSpaces(x)
    decreases |w|
  {
    if w != [] {
      assert (w + x)[1..] == w[1..] + x;
      LeadingSpacesOfSpacePrefix(w[1..], x);
    } else {
      assert w + x == x;
    }
  }

  lemma TrailingSpacesOfSpaceSuffix(x: string, w: string)
    requires AllSpace(w)
    ensures TrailingSpaces(x + w) == TrailingSpaces(x) + |w|
    decreases |w|
  {
    if w != [] {
      assert (x + w)[..|x + w| - 1] == x + w[..|w| - 1];
      TrailingSpacesOfSpaceSuffix(x, w[..|w| - 1]);
    } else {
      assert x + w == x;
    }
  }

  lemma LeadingSpacesAppend(s: string, x: string)
    requires LeadingSpaces(s) < |s|
    ensures LeadingSpaces(s + x) == LeadingSpaces(s)
    decreases |s|
  {
    if IsSpace(s[0]) {
      assert (s + x)[1..] == s[1..] + x;
      LeadingSpacesAppend(s[1..], x);
    }
  }

  lemma TrailingSpacesPrepend(x: string, s: string)
    requires TrailingSpaces(s) < |s|
    ensures TrailingSpaces(x + s) == TrailingSpaces(s)
    decreases |s|
  {
    if IsSpace(s[|s| - 1]) {
      assert (x + s)[..|x + s| - 1] == x + s[..|s| - 1];
      TrailingSpacesPrepend(x, s[..|s| - 1]);
    }
  }

  lemma AllSpaceLeading(w: string)
    requires AllSpace(w)
    ensures LeadingSpaces(w) == |w|
  {
    LeadingSpacesOfSpacePrefix(w, []);
    assert w + [] == w;
  }

  lemma StripSpacePrefix(w: string, x: string)
    requires AllSpace(w)
    ensures Strip(w + x) == Strip(x)
  {
    LeadingSpacesOfSpacePrefix(w, x);
    assert (w + x)[|w| + LeadingSpaces(x)..] == x[LeadingSpaces(x)..];
  }

  lemma DropAppend(x: string, w: string, a: nat)
    requires a <= |x|
    ensures (x + w)[a..] == x[a..] + w
  {
  }

  lemma TakeAppend(t: string, w: string, n: nat)
    requires n <= |t|
    ensures (t + w)[..n] == t[..n]
  {
  }

  lemma StripSpaceSuffix(x: string, w: string)
    requires AllSpace(w)
    ensures Strip(x + w) == Strip(x)
  {
    var a := LeadingSpaces(x);
    if a == |x| {
      assert AllSpace(x + w);
      AllSpaceLeading(x + w);
      assert Strip(x + w) == [];
    } else {
      LeadingSpacesAppend(x, w);
      var t := x[a..];
      DropAppend(x, w, a);
      TrailingSpacesOfSpaceSuffix(t, w);
      var k := TrailingSpaces(t);
      TakeAppend(t, w, |t| - k);
    }
  }

  /** Surrounding whitespace never changes what strip returns. */
  lemma {:induction false} StripIgnoresSurroundingSpace(w1: string, s: string, w2: string)
    requires AllSpace(w1) && AllSpace(w2)
    ensures Strip(w1 + s + w2) == Strip(s)
  {
    assert w1 + s + w2 == w1 + (s + w2);
    StripSpacePrefix(w1, s + w2);
    StripSpaceSuffix(s, w2);
  }

  // ---------------------------------------------------------------------------
  // `str.split()` with no argument and `sep.join(items)`

  function WordLength(s: string): (n: nat)
    ensures n <= |s|
    ensures forall i :: 0 <= i < n ==> !IsSpace(s[i])
    ensures n < |s| ==> IsSpace(s[n])
  {
    if s != [] && !IsSpace(s[0]) then 1 + WordLength(s[1..]) else 0
  }

  /** The maximal runs of non-space characters, in order. */
  function Words(s: string): seq<string>
    decreases |s|
  {
    var a := LeadingSpaces(s);
    if a == |s| then []
    else
      var t := s[a..];
      assert t[0] == s[a];
      var n := WordLength(t);
      [t[..n]] + Words(t[n..])
  }

  function Join(xs: seq<string>, sep: string): string {
    if xs == [] then ""
    else if |xs| == 1 then xs[0]
    else xs[0] + sep + Join(xs[1..], sep)
  }

  /** Joining one more item adds the separator and the item. */
  lemma {:induction false} JoinAppend(xs: seq<string>, x: string, sep: string)
    ensures Join(xs + [x], sep) == if xs == [] then x else Join(xs, sep) + sep + x
  {
    if xs == [] {
      assert xs + [x] == [x];
    } else if |xs| == 1 {
      assert (xs + [x])[1..] == [x];
    } else {
      assert (xs + [x])[1..] == xs[1..] + [x];
      JoinAppend(xs[1..], x, sep);
      assert xs[0] + sep + (Join(xs[1..], sep) + sep + x) == (xs[0] + sep + Join(xs[1..], sep)) + sep + x;
    }
  }

  /** `re.split` on a character class: the pieces between separators, empty ones
      included, so there is always one more piece than separators. */
  function SplitOn(s: string, seps: set<char>): (r: seq<string>)
    ensures |r| >= 1
  {
    if s == [] then [""]
    else
      var rest := SplitOn(s[1..], seps);
      if s[0] in seps then [""] + rest else [[s[0]] + rest[0]] + rest[1..]
  }

  lemma SplitOnNoSep(s: string, seps: set<char>)
    requires forall i :: 0 <= i < |s| ==> s[i] !in seps
    ensures SplitOn(s, seps) == [s]
  {
    if s != [] {
      SplitOnNoSep(s[1..], seps);
      assert [s[0]] + s[1..] == s;
    }
  }

  lemma SplitOnSep(a: string, c: char, b: string, seps: set<char>)
    requires c in seps
    requires forall i :: 0 <= i < |a| ==> a[i] !in seps
    ensures SplitOn(a + [c] + b, seps) == [a] + SplitOn(b, seps)
    decreases |a|
  {
    if a == [] {
      assert a + [c] + b == [c] + b;
      assert ([c] + b)[1..] == b;
    } else {
      assert (a + [c] + b)[1..] == a[1..] + [c] + b;
      SplitOnSep(a[1..], c, b, seps);
      assert [a[0]] + a[1..] == a;
    }
  }

  /** Splitting a joined list on its separator gives the list back, as long as
      no item contains the separator. */
  lemma {:induction false} SplitJoin(xs: seq<string>, c: char)
    requires |xs| >= 1
    requires forall k, i :: 0 <= k < |xs| && 0 <= i < |xs[k]| ==> xs[k][i] != c
    ensures SplitOn(Join(xs, [c]), {c}) == xs
  {
    if |xs| == 1 {
      SplitOnNoSep(xs[0], {c});
    } else {
      SplitJoin(xs[1..], c);
      assert Join(xs, [c]) == xs[0] + [c] + Join(xs[1..], [c]);
      SplitOnSep(xs[0], c, Join(xs[1..], [c]), {c});
      assert [xs[0]] + xs[1..] == xs;
    }
  }
}
