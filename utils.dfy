/** The validators and text helpers of utils.py: email and phone shape checks,
    years-of-experience extraction, tech-stack tokenising, exit-keyword
    detection, input sanitising and the two formatters. */
module Utils {
  import opened Ascii
  import opened Wrappers
  import opened Config

  // ===========================================================================
  // validate_email: ^[a-zA-Z0-9._%+-]+@[a-zA-Z0-9.-]+\.[a-zA-Z]{2,}$ on strip()

  predicate LocalChar(c: char) {
    IsLetter(c) || IsDigit(c) || c == '.' || c == '_' || c == '%' || c == '+' || c == '-'
  }

  predicate DomainChar(c: char) {
    IsLetter(c) || IsDigit(c) || c == '.' || c == '-'
  }

  /** t is local `@` domain `.` tld with the `@` at `at` and the separating dot at `dot`. */
  ghost predicate EmailSplit(t: string, at: int, dot: int) {
    && 1 <= at && at + 2 <= dot && dot + 3 <= |t|
    && (forall i :: 0 <= i < at ==> LocalChar(t[i]))
    && t[at] == '@'
    && (forall i :: at < i < dot ==> DomainChar(t[i]))
    && t[dot] == '.'
    && (forall i :: dot < i < |t| ==> IsLetter(t[i]))
  }

  /** The language the email pattern accepts. */
  ghost predicate EmailShape(t: string) {
    exists at, dot :: EmailSplit(t, at, dot)
  }

  /** Index of the first c in s, or -1. */
  function FindFirst(s: string, c: char): (r: int)
    ensures -1 <= r < |s|
    ensures r >= 0 ==> s[r] == c
    ensures forall i :: 0 <= i < |s| && (r < 0 || i < r) ==> s[i] != c
  {
    if s == [] then -1
    else if s[0] == c then 0
    else var r := FindFirst(s[1..], c); if r < 0 then -1 else r + 1
  }

  /** Index of the last c in s, or -1. */
  function FindLast(s: string, c: char): (r: int)
    ensures -1 <= r < |s|
    ensures r >= 0 ==> s[r] == c
    ensures forall i :: 0 <= i < |s| && r < i ==> s[i] != c
  {
    if s == [] then -1
    else if s[|s| - 1] == c then |s| - 1
    else FindLast(s[..|s| - 1], c)
  }

  /** The pattern decided without backtracking: the `@` can only be the first one
      (no `@` in the local part) and the separating dot only the last one (none
      in the top-level domain). */
  predicate EmailMatches(t: string) {
    var at := FindFirst(t, '@');
    var dot := FindLast(t, '.');
    && at >= 1 && at + 2 <= dot && dot + 3 <= |t|
    && (forall i :: 0 <= i < at ==> LocalChar(t[i]))
    && (forall i :: at < i < dot ==> DomainChar(t[i]))
    && (forall i :: dot < i < |t| ==> IsLetter(t[i]))
  }

  lemma {:induction false} EmailMatchesIff(t: string)
    ensures EmailMatches(t) <==> EmailShape(t)
  {
    var at := FindFirst(t, '@');
    var dot := FindLast(t, '.');
    if EmailMatches(t) {
      assert EmailSplit(t, at, dot);
    }
    if EmailShape(t) {
      var a, d :| EmailSplit(t, a, d);
      assert !LocalChar('@');
      assert at == a;
      assert !IsLetter('.');
      assert dot == d;
    }
  }

  /** utils.py:14-25 */
  predicate ValidateEmail(email: string)
    ensures ValidateEmail(email) <==> EmailShape(Strip(email))
  {
    EmailMatchesIff(Strip(email));
    EmailMatches(Strip(email))
  }

  /** Whitespace around an address never changes the verdict. */
  lemma EmailIgnoresSurroundingSpace(w1: string, email: string, w2: string)
    requires AllSpace(w1) && AllSpace(w2)
    ensures ValidateEmail(w1 + email + w2) == ValidateEmail(email)
  {
    StripIgnoresSurroundingSpace(w1, email, w2);
  }

  /** Text without an `@` is never an email address. */
  lemma {:induction false} EmailNeedsAt(email: string)
    requires forall i :: 0 <= i < |email| ==> email[i] != '@'
    ensures !ValidateEmail(email)
  {
    var p, q := StripBounds(email);
  }

  // ===========================================================================
  // validate_phone: delete [\s\-\.\(\)], then ^\+?[0-9]{10,15}$

  predicate PhoneSeparator(c: char) {
    IsSpace(c) || c == '-' || c == '.' || c == '(' || c == ')'
  }

  function RemoveSeparators(s: string): (r: string)
    ensures forall i :: 0 <= i < |r| ==> !PhoneSeparator(r[i])
  {
    if s == [] then []
    else (if PhoneSeparator(s[0]) then [] else [s[0]]) + RemoveSeparators(s[1..])
  }

  predicate PhoneDigits(d: string) {
    10 <= |d| <= 15 && AllDigits(d)
  }

  /** utils.py:28-43: once the separators are gone, what is left is an
      optional `+` followed by 10 to 15 digits. */
  function ValidatePhone(phone: string): (valid: bool)
    ensures var c := RemoveSeparators(phone);
            var plus := if |c| > 0 && c[0] == '+' then 1 else 0;
            valid <==> 10 <= |c| - plus <= 15 && forall i :: plus <= i < |c| ==> IsDigit(c[i])
  {
    var cleaned := RemoveSeparators(phone);
    assert |cleaned| > 0 ==> forall i :: 1 <= i < |cleaned| ==> cleaned[i] == cleaned[1..][i - 1];
    PhoneDigits(cleaned) || (|cleaned| > 0 && cleaned[0] == '+' && PhoneDigits(cleaned[1..]))
  }

  lemma {:induction false} RemoveSeparatorsAppend(a: string, b: string)
    ensures RemoveSeparators(a + b) == RemoveSeparators(a) + RemoveSeparators(b)
    decreases |a|
  {
    if a == [] {
      assert a + b == b;
    } else {
      assert (a + b)[1..] == a[1..] + b;
      RemoveSeparatorsAppend(a[1..], b);
    }
  }

  lemma {:induction false} RemoveSeparatorsKeeps(s: string)
    requires forall i :: 0 <= i < |s| ==> !PhoneSeparator(s[i])
    ensures RemoveSeparators(s) == s
    decreases |s|
  {
    if s != [] {
      RemoveSeparatorsKeeps(s[1..]);
      assert [s[0]] + s[1..] == s;
    }
  }

  /** Inserting a separator anywhere never changes the verdict. */
  lemma PhoneIgnoresSeparator(a: string, sep: char, b: string)
    requires PhoneSeparator(sep)
    ensures ValidatePhone(a + [sep] + b) == ValidatePhone(a + b)
  {
    RemoveSeparatorsAppend(a + [sep], b);
    RemoveSeparatorsAppend(a, [sep]);
    RemoveSeparatorsAppend(a, b);
    assert RemoveSeparators([sep]) == [];
    assert RemoveSeparators(a) + [] == RemoveSeparators(a);
  }

  /** A plain or `+`-prefixed run of digits is a phone number exactly when it has
      10 to 15 digits; in particular 9 and 16 digits are refused. */
  lemma PhoneDigitCount(d: string)
    requires AllDigits(d)
    ensures ValidatePhone(d) <==> 10 <= |d| <= 15
    ensures ValidatePhone("+" + d) <==> 10 <= |d| <= 15
  {
    RemoveSeparatorsKeeps(d);
    RemoveSeparatorsKeeps("+" + d);
    assert ("+" + d)[1..] == d;
  }

  // ===========================================================================
  // validate_experience

  /** A decimal number as written: digits, and digits after the point if any.
      `float(...)` followed by `str(...)` is modelled by Render. */
  datatype Decimal = Decimal(whole: string, frac: string)

  predicate WellFormed(d: Decimal) {
    |d.whole| > 0 && AllDigits(d.whole) && AllDigits(d.frac)
  }

  function DigitRun(s: string): (n: nat)
    ensures n <= |s|
    ensures forall i :: 0 <= i < n ==> IsDigit(s[i])
    ensures n < |s| ==> !IsDigit(s[n])
  {
    if s != [] && IsDigit(s[0]) then 1 + DigitRun(s[1..]) else 0
  }

  /** The match of `\d+(?:\.\d+)?` that starts at the beginning of s. */
  function NumberAt(s: string): (d: Decimal)
    requires |s| > 0 && IsDigit(s[0])
    ensures WellFormed(d)
  {
    var w := DigitRun(s);
    if w + 1 < |s| && s[w] == '.' && IsDigit(s[w + 1]) then
      Decimal(s[..w], s[w + 1..w + 1 + DigitRun(s[w + 1..])])
    else
      Decimal(s[..w], "")
  }

  /** The position of the first digit of s, or |s| when there is none. */
  function FirstDigit(s: string): (i: nat)
    ensures i <= |s|
    ensures forall j :: 0 <= j < i ==> !IsDigit(s[j])
    ensures i < |s| ==> IsDigit(s[i])
  {
    if s == [] || IsDigit(s[0]) then 0 else 1 + FirstDigit(s[1..])
  }

  /** `re.findall(r'(\d+(?:\.\d+)?)', s)[0]`: the leftmost match starts at the
      first digit. */
  function FirstNumber(s: string): (r: Option<Decimal>)
    ensures r.None? <==> forall i :: 0 <= i < |s| ==> !IsDigit(s[i])
    ensures r.Some? ==> FirstDigit(s) < |s| && r.value == NumberAt(s[FirstDigit(s)..])
  {
    var i := FirstDigit(s);
    if i == |s| then None else Some(NumberAt(s[i..]))
  }

  /** text_to_num, in its insertion order. */
  const WordNumbers: seq<(string, string)> := [
    ("fresher", "0"), ("fresh", "0"), ("no experience", "0"),
    ("one", "1"), ("two", "2"), ("three", "3"), ("four", "4"), ("five", "5"),
    ("six", "6"), ("seven", "7"), ("eight", "8"), ("nine", "9"), ("ten", "10")
  ]

  /** The value of the first table entry from position k on that occurs in lower. */
  function WordFrom(lower: string, k: nat): (r: Option<Decimal>)
    decreases |WordNumbers| - k
  {
    if k >= |WordNumbers| then None
    else if Contains(lower, WordNumbers[k].0) then Some(Decimal(WordNumbers[k].1, ""))
    else WordFrom(lower, k + 1)
  }

  /** Every value in the word table is a digit string. */
  lemma {:induction false} WordFromWellFormed(lower: string, k: nat)
    ensures WordFrom(lower, k).Some? ==> WellFormed(WordFrom(lower, k).value)
    decreases |WordNumbers| - k
  {
    if k < |WordNumbers| {
      if Contains(lower, WordNumbers[k].0) {
        var v := WordNumbers[k].1;
        assert v == "0" || v == "1" || v == "2" || v == "3" || v == "4" || v == "5"
               || v == "6" || v == "7" || v == "8" || v == "9" || v == "10";
      } else {
        WordFromWellFormed(lower, k + 1);
      }
    }
  }

  /** What validate_experience returns (utils.py:57-73). */
  function ExperienceOf(experience: string): Option<Decimal> {
    var n := FirstNumber(experience);
    if n.Some? then n else WordFrom(Lower(experience), 0)
  }

  /** utils.py:46-73: the first number in the text, else the first word of the
      table that the lower-cased text contains, else None. */
  method ValidateExperience(experience: string) returns (r: Option<Decimal>)
    ensures r == ExperienceOf(experience)
  {
    var numbers := FirstNumber(experience);
    if numbers.Some? {
      return numbers;
    }
    var lowerExp := Lower(experience);
    for k := 0 to |WordNumbers|
      invariant WordFrom(lowerExp, 0) == WordFrom(lowerExp, k)
    {
      if Contains(lowerExp, WordNumbers[k].0) {
        return Some(Decimal(WordNumbers[k].1, ""));
      }
    }
    return None;
  }

  /** Text with a digit yields the number that starts at its first digit. */
  lemma ExperienceFirstNumber(experience: string, i: nat)
    requires i < |experience| && IsDigit(experience[i])
    requires forall j :: 0 <= j < i ==> !IsDigit(experience[j])
    ensures ExperienceOf(experience) == Some(NumberAt(experience[i..]))
  {
    assert FirstDigit(experience) == i;
  }

  /** Numbers are read with their fraction. */
  lemma ExperienceNumberExamples()
    ensures ExperienceOf("5 years") == Some(Decimal("5", ""))
    ensures ExperienceOf("2.5 yrs") == Some(Decimal("2", "5"))
  {
    var a := "5 years";
    assert DigitRun(a[1..]) == 0;
    assert DigitRun(a) == 1;
    assert a[..1] == "5";
    var b := "2.5 yrs";
    assert DigitRun(b[1..]) == 0;
    assert DigitRun(b) == 1;
    assert DigitRun(b[2..][1..]) == 0;
    assert DigitRun(b[2..]) == 1;
    assert b[..1] == "2";
    assert b[2..3] == "5";
  }

  /** Without digits, the word table decides; its order makes "none" read as one. */
  lemma ExperienceNone()
    ensures ExperienceOf("none") == Some(Decimal("1", ""))
  {
    assert FirstNumber("none") == None;
    LowerOfLower("none");
    assert OccursAt("none", "one", 1);
    ContainsWitness("none", "one", 1);
  }

  // --- str(float) and float(str) of the stored value --------------------------

  function DropLeadingZeros(w: string): (r: string)
    ensures |w| > 0 ==> |r| > 0
  {
    if |w| > 1 && w[0] == '0' then DropLeadingZeros(w[1..]) else w
  }

  function DropTrailingZeros(f: string): string {
    if |f| > 0 && f[|f| - 1] == '0' then DropTrailingZeros(f[..|f| - 1]) else f
  }

  /** The fractional digits str(float) prints: trailing zeros dropped, "0" if none are left. */
  function FracDigits(f: string): string {
    var g := DropTrailingZeros(f);
    if g == "" then "0" else g
  }

  /** `str(float(...))` of a decimal in positional form, e.g. "5.0", "2.5",
      "10.0"; Python's exponent forms and rounding are not rendered here. */
  function Render(d: Decimal): string {
    DropLeadingZeros(d.whole) + "." + FracDigits(d.frac)
  }

  /** `float(s)` on text of the form `\d+(\.\d+)?`; None for anything else. */
  function ParseDecimal(s: string): (r: Option<Decimal>)
    ensures r.Some? ==> WellFormed(r.value)
  {
    var p := FindFirst(s, '.');
    if p < 0 then
      if |s| > 0 && AllDigits(s) then Some(Decimal(s, "")) else None
    else if 0 < p < |s| - 1 && AllDigits(s[..p]) && AllDigits(s[p + 1..]) then
      Some(Decimal(s[..p], s[p + 1..]))
    else None
  }

  lemma {:induction false} DropLeadingZerosDigits(w: string)
    requires AllDigits(w)
    ensures AllDigits(DropLeadingZeros(w))
    ensures |w| > 0 ==> DropLeadingZeros(DropLeadingZeros(w)) == DropLeadingZeros(w)
    decreases |w|
  {
    if |w| > 1 && w[0] == '0' {
      DropLeadingZerosDigits(w[1..]);
    }
  }

  lemma {:induction false} DropTrailingZerosDigits(f: string)
    requires AllDigits(f)
    ensures AllDigits(DropTrailingZeros(f))
    ensures DropTrailingZeros(DropTrailingZeros(f)) == DropTrailingZeros(f)
    ensures |DropTrailingZeros(f)| > 0 ==> DropTrailingZeros(f)[|DropTrailingZeros(f)| - 1] != '0'
    decreases |f|
  {
    if |f| > 0 && f[|f| - 1] == '0' {
      DropTrailingZerosDigits(f[..|f| - 1]);
    }
  }

  /** Reading back what str(float) wrote gives the same rendering again, so the
      stored years of experience survive the handler's `float(...)` unchanged. */
  lemma {:induction false} RenderParseRoundTrip(d: Decimal)
    requires WellFormed(d)
    ensures ParseDecimal(Render(d)) == Some(Decimal(DropLeadingZeros(d.whole), FracDigits(d.frac)))
    ensures Render(ParseDecimal(Render(d)).value) == Render(d)
  {
    var w := DropLeadingZeros(d.whole);
    var f := FracDigits(d.frac);
    DropLeadingZerosDigits(d.whole);
    DropTrailingZerosDigits(d.frac);
    var s := Render(d);
    assert s == w + "." + f;
    assert s[..|w|] == w;
    assert s[|w| + 1..] == f;
    assert s[|w|] == '.';
    assert forall i :: 0 <= i < |w| ==> s[i] == w[i] && IsDigit(s[i]);
    assert FindFirst(s, '.') == |w|;
    assert ParseDecimal(s) == Some(Decimal(w, f));
    if DropTrailingZeros(d.frac) == "" {
      assert DropTrailingZeros("0") == "";
    }
  }

  function DigitValue(c: char): nat {
    if IsDigit(c) then c as int - '0' as int else 0
  }

  /** The value of a digit string (a non-digit counts as 0). */
  function NatOf(s: string): nat {
    if s == [] then 0 else NatOf(s[..|s| - 1]) * 10 + DigitValue(s[|s| - 1])
  }

  function Pow10(n: nat): (r: nat)
    ensures r >= 1
  {
    if n == 0 then 1 else 10 * Pow10(n - 1)
  }

  lemma {:induction false} NatOfBound(s: string)
    ensures NatOf(s) < Pow10(|s|)
    decreases |s|
  {
    if s != [] {
      NatOfBound(s[..|s| - 1]);
    }
  }

  /** The number a well-formed decimal denotes. */
  function Value(d: Decimal): real {
    NatOf(d.whole) as real + (NatOf(d.frac) as real) / (Pow10(|d.frac|) as real)
  }

  lemma FractionBelowOne(a: nat, b: nat)
    requires a < b
    ensures 0.0 <= (a as real) / (b as real) < 1.0
  {
  }

  lemma WholePlusFraction(w: nat, f: real, n: nat)
    requires 0.0 <= f < 1.0
    ensures w as real + f < n as real <==> w < n
  {
  }

  /** Comparing a decimal with a whole number only looks at its whole part;
      this is what the experience banding relies on. */
  lemma ValueBelow(d: Decimal, n: nat)
    ensures Value(d) < n as real <==> NatOf(d.whole) < n
  {
    NatOfBound(d.frac);
    FractionBelowOne(NatOf(d.frac), Pow10(|d.frac|));
    WholePlusFraction(NatOf(d.whole), (NatOf(d.frac) as real) / (Pow10(|d.frac|) as real), n);
  }

  // ===========================================================================
  // parse_tech_stack

  const KnownTechnologies: seq<string> := [
    // Languages
    "python", "java", "javascript", "typescript", "c++", "c#", "ruby", "go",
    "rust", "php", "swift", "kotlin", "scala", "r", "matlab", "perl",
    // Frontend
    "react", "angular", "vue", "svelte", "next.js", "nuxt", "html", "css",
    "sass", "less", "tailwind", "bootstrap", "jquery", "redux",
    // Backend
    "django", "flask", "fastapi", "spring", "node.js", "express", "rails",
    "laravel", "asp.net", ".net", "graphql", "rest", "grpc",
    // Databases
    "mysql", "postgresql", "mongodb", "redis", "elasticsearch", "sqlite",
    "oracle", "sql server", "dynamodb", "cassandra", "neo4j", "firebase",
    // Cloud & DevOps
    "aws", "azure", "gcp", "docker", "kubernetes", "jenkins", "terraform",
    "ansible", "gitlab", "github actions", "circleci", "linux",
    // ML/AI
    "tensorflow", "pytorch", "keras", "scikit-learn", "pandas", "numpy",
    "opencv", "nltk", "spacy", "hugging face", "langchain",
    // Mobile
    "react native", "flutter", "android", "ios", "xamarin",
    // Tools
    "git", "jira", "confluence", "figma", "postman", "swagger"
  ]

  const TechSeparators: set<char> := {',', ';', '/', '\n'}

  const MaxTechnologies := 15

  /** `tech.title() if len(tech) > 3 else tech.upper()` */
  function Normalize(tech: string): string {
    if |tech| > 3 then Title(tech) else Upper(tech)
  }

  /** The normalised keywords of ks, in order, that occur in lowerText. */
  function KeywordHits(lowerText: string, ks: seq<string>): (r: seq<string>)
    ensures |r| <= |ks|
    ensures forall x :: x in r ==> exists k :: k in ks && Contains(lowerText, k) && x == Normalize(k)
    ensures r == [] <==> forall k :: k in ks ==> !Contains(lowerText, k)
  {
    if ks == [] then []
    else
      var tech := ks[|ks| - 1];
      var prior := KeywordHits(lowerText, ks[..|ks| - 1]);
      assert forall k :: k in ks <==> k in ks[..|ks| - 1] || k == tech;
      assert (forall k :: k in ks ==> !Contains(lowerText, k)) <==>
             (forall k :: k in ks[..|ks| - 1] ==> !Contains(lowerText, k)) && !Contains(lowerText, tech);
      prior + (if Contains(lowerText, tech) then [Normalize(tech)] else [])
  }

  function LowerAll(xs: seq<string>): seq<string> {
    seq(|xs|, i requires 0 <= i < |xs| => Lower(xs[i]))
  }

  /** t is one of the pieces, stripped, longer than one character, and no entry
      before it has the same lower case. */
  predicate CustomEntry(t: string, pieces: seq<string>, before: seq<string>) {
    (exists p :: p in pieces && t == Strip(p)) && |t| > 1 && Lower(t) !in LowerAll(before)
  }

  /** r extends acc by custom entries only. */
  predicate CustomTail(acc: seq<string>, pieces: seq<string>, r: seq<string>) {
    && |r| >= |acc| && r[..|acc|] == acc
    && forall j :: |acc| <= j < |r| ==> CustomEntry(r[j], pieces, r[..j])
  }

  lemma CustomTailWiden(acc: seq<string>, init: seq<string>, pieces: seq<string>, r: seq<string>)
    requires forall p :: p in init ==> p in pieces
    requires CustomTail(acc, init, r)
    ensures CustomTail(acc, pieces, r)
  {
    forall j | |acc| <= j < |r|
      ensures CustomEntry(r[j], pieces, r[..j])
    {
      assert CustomEntry(r[j], init, r[..j]);
    }
  }

  lemma CustomTailAppend(acc: seq<string>, pieces: seq<string>, r: seq<string>, last: string)
    requires CustomTail(acc, pieces, r)
    requires last in pieces && |Strip(last)| > 1 && Lower(Strip(last)) !in LowerAll(r)
    ensures CustomTail(acc, pieces, r + [Strip(last)])
  {
    var r' := r + [Strip(last)];
    assert r'[..|r|] == r;
    assert r'[..|acc|] == r[..|acc|];
    forall j | |acc| <= j < |r'|
      ensures CustomEntry(r'[j], pieces, r'[..j])
    {
      if j < |r| {
        assert r'[..j] == r[..j];
        assert CustomEntry(r[j], pieces, r[..j]);
      }
    }
  }

  /** The stripped pieces of length > 1 whose lower case differs from every entry
      identified so far, appended to acc in order. */
  function AddCustom(acc: seq<string>, pieces: seq<string>): (r: seq<string>)
    ensures CustomTail(acc, pieces, r)
  {
    if pieces == [] then acc
    else
      var init := pieces[..|pieces| - 1];
      var last := pieces[|pieces| - 1];
      var prior := AddCustom(acc, init);
      var tech := Strip(last);
      CustomTailWiden(acc, init, pieces, prior);
      if tech != "" && |tech| > 1 && Lower(tech) !in LowerAll(prior) then
        CustomTailAppend(acc, pieces, prior, last);
        prior + [tech]
      else prior
  }

  /** The `identified` list built at utils.py:112-124, before the conversion to a set. */
  function Identified(text: string): seq<string> {
    AddCustom(KeywordHits(Lower(text), KnownTechnologies), SplitOn(text, TechSeparators))
  }

  predicate NoDuplicates(xs: seq<string>) {
    forall i, j :: 0 <= i < j < |xs| ==> xs[i] != xs[j]
  }

  function Min(a: int, b: int): int { if a < b then a else b }

  /** Each identified technology is a known keyword found in the lower-cased text,
      normalised, or a stripped piece longer than one character. */
  lemma IdentifiedElements(text: string, x: string)
    requires x in Identified(text)
    ensures || (exists k :: k in KnownTechnologies && Contains(Lower(text), k) && x == Normalize(k))
            || (exists p :: p in SplitOn(text, TechSeparators) && x == Strip(p) && |x| > 1)
  {
    var hits := KeywordHits(Lower(text), KnownTechnologies);
    var r := Identified(text);
    var j :| 0 <= j < |r| && r[j] == x;
    if j < |hits| {
      assert x == hits[j];
      assert x in hits;
    }
  }

  lemma {:induction false} AddCustomEmpty(pieces: seq<string>)
    ensures AddCustom([], pieces) == [] <==> forall p :: p in pieces ==> |Strip(p)| <= 1
  {
    if pieces != [] {
      var init := pieces[..|pieces| - 1];
      AddCustomEmpty(init);
      assert forall p :: p in pieces <==> p in init || p == pieces[|pieces| - 1];
    }
  }

  lemma {:induction false} AddCustomNonEmpty(acc: seq<string>, pieces: seq<string>)
    requires acc != []
    ensures AddCustom(acc, pieces) != []
  {
  }

  /** Nothing is identified exactly when no known keyword occurs in the lower-cased
      text and every stripped piece has at most one character. */
  lemma IdentifiedEmptyIff(text: string)
    ensures Identified(text) == [] <==>
              (forall k :: k in KnownTechnologies ==> !Contains(Lower(text), k))
              && (forall p :: p in SplitOn(text, TechSeparators) ==> |Strip(p)| <= 1)
  {
    var hits := KeywordHits(Lower(text), KnownTechnologies);
    var pieces := SplitOn(text, TechSeparators);
    if hits == [] {
      AddCustomEmpty(pieces);
    } else {
      AddCustomNonEmpty(hits, pieces);
    }
  }

  /** `list(set(s))`: every element once, in an order the model leaves open. */
  method ListOfSet(s: set<string>) returns (xs: seq<string>)
    ensures |xs| == |s|
    ensures forall x :: x in xs <==> x in s
    ensures NoDuplicates(xs)
  {
    xs := [];
    var rest := s;
    while rest != {}
      invariant rest !! (set x | x in xs)
      invariant rest + (set x | x in xs) == s
      invariant |xs| + |rest| == |s|
      invariant NoDuplicates(xs)
      decreases |rest|
    {
      var x :| x in rest;
      xs := xs + [x];
      rest := rest - {x};
    }
  }

  /** Cutting a duplicate-free listing of the elements of xs down to n entries. */
  lemma FirstDistinct(xs: seq<string>, all: seq<string>, r: seq<string>)
    requires NoDuplicates(all) && |all| == |set x | x in xs|
    requires forall x :: x in all <==> x in xs
    requires r == if |all| > MaxTechnologies then all[..MaxTechnologies] else all
    ensures NoDuplicates(r) && |r| <= MaxTechnologies
    ensures forall x :: x in r ==> x in xs
    ensures |r| == Min(MaxTechnologies, |set x | x in xs|)
    ensures r == [] <==> xs == []
  {
    if xs != [] {
      assert xs[0] in all;
    }
  }

  /** The keyword loop of utils.py:112-116, over the keywords ks. */
  method CollectKeywords(lowerText: string, ks: seq<string>) returns (identified: seq<string>)
    ensures identified == KeywordHits(lowerText, ks)
  {
    identified := [];
    for k := 0 to |ks|
      invariant identified == KeywordHits(lowerText, ks[..k])
    {
      var tech := ks[k];
      assert ks[..k + 1][..k] == ks[..k];
      if Contains(lowerText, tech) {
        identified := identified + [Normalize(tech)];
      }
    }
    assert ks[..|ks|] == ks;
  }

  /** The loop over the separated pieces at utils.py:118-124. */
  method CollectCustom(hits: seq<string>, customTechs: seq<string>) returns (identified: seq<string>)
    ensures identified == AddCustom(hits, customTechs)
  {
    identified := hits;
    for k := 0 to |customTechs|
      invariant identified == AddCustom(hits, customTechs[..k])
    {
      var tech := Strip(customTechs[k]);
      assert customTechs[..k + 1][..k] == customTechs[..k];
      if tech != "" && |tech| > 1 && Lower(tech) !in LowerAll(identified) {
        identified := identified + [tech];
      }
    }
    assert customTechs[..|customTechs|] == customTechs;
  }

  /** utils.py:76-126.  The result is at most 15 distinct identified technologies;
      which ones, and in which order, is up to the set conversion. */
  predicate TechStackOf(r: seq<string>, text: string) {
    && NoDuplicates(r)
    && |r| <= MaxTechnologies
    && (forall x :: x in r ==> x in Identified(text))
    && |r| == Min(MaxTechnologies, |set x | x in Identified(text)|)
    && (r == [] <==> Identified(text) == [])
  }

  method ParseTechStack(techStackText: string) returns (r: seq<string>)
    ensures TechStackOf(r, techStackText)
  {
    var hits := CollectKeywords(Lower(techStackText), KnownTechnologies);
    var identified := CollectCustom(hits, SplitOn(techStackText, TechSeparators));
    var all := ListOfSet(set x | x in identified);
    r := if |all| > MaxTechnologies then all[..MaxTechnologies] else all;
    FirstDistinct(identified, all, r);
  }

  // ===========================================================================
  // check_exit_intent

  /** Some exit keyword occurs in s. */
  ghost predicate HasExitKeyword(s: string) {
    exists i :: 0 <= i < |ExitKeywords| && Contains(s, ExitKeywords[i])
  }

  /** Some exit keyword occurs in the lower-cased, stripped message. */
  ghost predicate ExitIntent(message: string) {
    HasExitKeyword(Strip(Lower(message)))
  }

  /** utils.py:129-146 */
  method CheckExitIntent(message: string) returns (b: bool)
    ensures b <==> ExitIntent(message)
  {
    var lowerMessage := Strip(Lower(message));
    for i := 0 to |ExitKeywords|
      invariant forall j :: 0 <= j < i ==> !Contains(lowerMessage, ExitKeywords[j])
    {
      if Contains(lowerMessage, ExitKeywords[i]) {
        return true;
      }
    }
    return false;
  }

  lemma ExitKeywordsTrimmed()
    ensures forall i :: 0 <= i < |ExitKeywords| ==>
              |ExitKeywords[i]| > 0 && !IsSpace(ExitKeywords[i][0])
              && !IsSpace(ExitKeywords[i][|ExitKeywords[i]| - 1])
  {
  }

  /** An occurrence of a keyword that neither starts nor ends with a space lies
      inside the stripped text. */
  lemma OccursInStrip(s: string, k: string, i: int, p: nat, q: nat)
    requires |k| > 0 && !IsSpace(k[0]) && !IsSpace(k[|k| - 1])
    requires OccursAt(s, k, i)
    requires p <= q <= |s| && AllSpace(s[..p]) && AllSpace(s[q..])
    ensures OccursAt(s[p..q], k, i - p)
  {
    assert s[i] == k[0];
    assert s[i + |k| - 1] == k[|k| - 1];
    assert p <= i;
    assert i + |k| <= q;
    SliceOfSlice(s, p, q, i - p, i - p + |k|);
  }

  lemma SliceOfSlice(s: string, p: nat, q: nat, a: nat, b: nat)
    requires p <= q <= |s| && a <= b <= q - p
    ensures s[p..q][a..b] == s[p + a..p + b]
  {
    assert forall j :: 0 <= j < b - a ==> s[p..q][a..b][j] == s[p + a + j];
  }

  lemma ContainsIntoSlice(s: string, k: string, p: nat, q: nat)
    requires |k| > 0 && !IsSpace(k[0]) && !IsSpace(k[|k| - 1])
    requires p <= q <= |s| && AllSpace(s[..p]) && AllSpace(s[q..])
    requires Contains(s, k)
    ensures Contains(s[p..q], k)
  {
    ContainsIff(s, k);
    var i :| OccursAt(s, k, i);
    OccursInStrip(s, k, i, p, q);
    ContainsWitness(s[p..q], k, i - p);
  }

  lemma ContainsOutOfSlice(s: string, k: string, p: nat, q: nat)
    requires p <= q <= |s|
    requires Contains(s[p..q], k)
    ensures Contains(s, k)
  {
    var t := s[p..q];
    ContainsIff(t, k);
    var i :| OccursAt(t, k, i);
    SliceOfSlice(s, p, q, i, i + |k|);
    ContainsWitness(s, k, p + i);
  }

  /** A keyword that neither starts nor ends with a space occurs in s exactly when
      it occurs in strip(s). */
  lemma ContainsStrip(s: string, k: string)
    requires |k| > 0 && !IsSpace(k[0]) && !IsSpace(k[|k| - 1])
    ensures Contains(Strip(s), k) <==> Contains(s, k)
  {
    var p, q := StripBounds(s);
    if Contains(s, k) {
      ContainsIntoSlice(s, k, p, q);
    }
    if Contains(s[p..q], k) {
      ContainsOutOfSlice(s, k, p, q);
    }
  }

  /** Exit detection is plain substring search on the lower-cased message; the
      strip does not matter. */
  lemma ExitIntentIff(message: string)
    ensures ExitIntent(message) <==> HasExitKeyword(Lower(message))
  {
    ExitKeywordsTrimmed();
    forall i | 0 <= i < |ExitKeywords|
      ensures Contains(Strip(Lower(message)), ExitKeywords[i]) <==> Contains(Lower(message), ExitKeywords[i])
    {
      ContainsStrip(Lower(message), ExitKeywords[i]);
    }
  }

  /** Appending text never withdraws an exit intent. */
  lemma ExitIntentAppend(message: string, more: string)
    requires ExitIntent(message)
    ensures ExitIntent(message + more)
  {
    ExitIntentIff(message);
    ExitIntentIff(message + more);
    LowerAppend(message, more);
    HasExitKeywordAppend(Lower(message), Lower(more));
  }

  lemma HasExitKeywordAppend(s: string, more: string)
    requires HasExitKeyword(s)
    ensures HasExitKeyword(s + more)
  {
    var i :| 0 <= i < |ExitKeywords| && Contains(s, ExitKeywords[i]);
    ContainsExtend([], s, more, ExitKeywords[i]);
    assert [] + s + more == s + more;
  }

  /** Any message containing "end", such as "backend", reads as an exit. */
  lemma ExitOnEnd(message: string)
    requires Contains(Lower(message), "end")
    ensures ExitIntent(message)
  {
    ExitIntentIff(message);
    assert Contains(Lower(message), ExitKeywords[4]);
  }

  /** A keyword with a character the text lacks does not occur in it. */
  lemma MissingCharNotContained(s: string, k: string, c: char)
    requires c in k && c !in s
    ensures !Contains(s, k)
  {
    ContainsIff(s, k);
  }

  /** Every exit keyword has a letter that "i love java" lacks. */
  lemma NoExitKeywordInLoveJava()
    ensures !HasExitKeyword("i love java")
  {
    var missing := "bgxqnstttnnct";
    forall i | 0 <= i < |ExitKeywords|
      ensures !Contains("i love java", ExitKeywords[i])
    {
      MissingCharNotContained("i love java", ExitKeywords[i], missing[i]);
    }
  }

  /** "I love Java" carries no exit keyword, so it does not end the interview. */
  lemma NoExitInLoveJava()
    ensures !ExitIntent("I love Java")
  {
    ExitIntentIff("I love Java");
    assert Lower("I love Java") == "i love java";
    NoExitKeywordInLoveJava();
  }

  // ===========================================================================
  // sanitize_input

  /** `re.sub(r'<[^>]*>', '', s)`: each `<` that has a `>` after it is removed
      together with everything up to the first such `>`. */
  function StripTags(s: string): string
    decreases |s|
  {
    if s == [] then []
    else
      var close := FindFirst(s, '>');
      if s[0] == '<' && close > 0 then StripTags(s[close + 1..])
      else [s[0]] + StripTags(s[1..])
  }

  predicate NoClose(t: string) {
    forall j :: 0 <= j < |t| ==> t[j] != '>'
  }

  /** No `<` is followed, anywhere later, by a `>` (see NoTagLeftMeaning). */
  predicate NoTagLeft(r: string)
    decreases |r|
  {
    r == [] || ((r[0] == '<' ==> NoClose(r[1..])) && NoTagLeft(r[1..]))
  }

  lemma {:induction false} NoTagLeftMeaning(r: string)
    ensures NoTagLeft(r) <==> forall i, j :: 0 <= i < j < |r| && r[i] == '<' ==> r[j] != '>'
    decreases |r|
  {
    if r != [] {
      var t := r[1..];
      NoTagLeftMeaning(t);
      assert forall j :: 0 <= j < |t| ==> t[j] == r[j + 1];
      if NoTagLeft(r) {
        forall i, j | 0 <= i < j < |r| && r[i] == '<'
          ensures r[j] != '>'
        {
          if i == 0 {
            assert t[j - 1] == r[j];
          } else {
            assert t[i - 1] == r[i] && t[j - 1] == r[j];
          }
        }
      }
      if forall i, j :: 0 <= i < j < |r| && r[i] == '<' ==> r[j] != '>' {
        forall i, j | 0 <= i < j < |t| && t[i] == '<'
          ensures t[j] != '>'
        {
          assert r[i + 1] == t[i] && r[j + 1] == t[j];
        }
        if r[0] == '<' {
          forall j | 0 <= j < |t|
            ensures t[j] != '>'
          {
            assert r[j + 1] == t[j];
          }
        }
      }
    }
  }

  /** Cutting text short never creates a tag. */
  lemma NoTagLeftPrefix(r: string, n: nat)
    requires n <= |r| && NoTagLeft(r)
    ensures NoTagLeft(r[..n])
  {
    NoTagLeftMeaning(r);
    NoTagLeftMeaning(r[..n]);
    assert forall j :: 0 <= j < n ==> r[..n][j] == r[j];
  }

  lemma {:induction false} StripTagsChars(s: string)
    ensures forall i :: 0 <= i < |StripTags(s)| ==> StripTags(s)[i] in s
    decreases |s|
  {
    if s != [] {
      var close := FindFirst(s, '>');
      if s[0] == '<' && close > 0 {
        StripTagsChars(s[close + 1..]);
      } else {
        StripTagsChars(s[1..]);
      }
    }
  }

  lemma NoTagLeftCons(c: char, rest: string)
    requires NoTagLeft(rest)
    requires c == '<' ==> NoClose(rest)
    ensures NoTagLeft([c] + rest)
  {
    assert ([c] + rest)[1..] == rest;
  }

  /** Text without a `>` holds no tag and is kept as it is. */
  lemma {:induction false} StripTagsNoClose(s: string)
    requires forall i :: 0 <= i < |s| ==> s[i] != '>'
    ensures StripTags(s) == s
    decreases |s|
  {
    if s != [] {
      StripTagsNoClose(s[1..]);
      assert [s[0]] + s[1..] == s;
    }
  }

  lemma StripTagsSkip(s: string)
    requires s != [] && s[0] == '<' && FindFirst(s, '>') > 0
    ensures StripTags(s) == StripTags(s[FindFirst(s, '>') + 1..])
  {
  }

  lemma StripTagsKeep(s: string)
    requires s != [] && !(s[0] == '<' && FindFirst(s, '>') > 0)
    ensures StripTags(s) == [s[0]] + StripTags(s[1..])
  {
  }

  /** A `<` with no `>` after it is followed by text without a `>`. */
  lemma NoCloseAfter(s: string)
    requires s != [] && s[0] == '<' && FindFirst(s, '>') <= 0
    ensures NoClose(s[1..])
  {
    assert forall j :: 0 <= j < |s[1..]| ==> s[1..][j] == s[j + 1];
  }

  /** A kept first character leaves no tag once the rest has none. */
  lemma StripTagsNoTagKeep(s: string)
    requires s != [] && !(s[0] == '<' && FindFirst(s, '>') > 0)
    requires NoTagLeft(StripTags(s[1..]))
    ensures NoTagLeft(StripTags(s))
  {
    if s[0] == '<' {
      NoCloseAfter(s);
      StripTagsNoClose(s[1..]);
    }
    NoTagLeftCons(s[0], StripTags(s[1..]));
    StripTagsKeep(s);
  }

  lemma {:induction false} StripTagsNoTag(s: string)
    ensures NoTagLeft(StripTags(s))
    decreases |s|
  {
    if s != [] {
      var close := FindFirst(s, '>');
      if s[0] == '<' && close > 0 {
        StripTagsNoTag(s[close + 1..]);
        StripTagsSkip(s);
      } else {
        StripTagsNoTag(s[1..]);
        StripTagsNoTagKeep(s);
      }
    }
  }

  lemma WordsOfSpace(s: string)
    ensures AllSpace(s) ==> Words(s) == []
  {
    if AllSpace(s) {
      AllSpaceLeading(s);
    }
  }

  const MaxInputLength := 2000

  /** utils.py:149-169 */
  function SanitizeInput(text: string): (r: string)
    ensures |r| <= MaxInputLength
    ensures NoTagLeft(r)
    ensures AllSpace(text) ==> r == ""
  {
    if text == "" then ""
    else
      var collapsed := Join(Words(text), " ");
      var stripped := StripTags(collapsed);
      StripTagsNoTag(collapsed);
      WordsOfSpace(text);
      if |stripped| > MaxInputLength then
        NoTagLeftPrefix(stripped, MaxInputLength);
        stripped[..MaxInputLength]
      else stripped
  }

  // ===========================================================================
  // format_candidate_summary

  const Rule: string := seq(50, _ => '=')

  /** field_labels, in its insertion order. */
  const FieldLabels: seq<(string, string)> := [
    (FullName, "Full Name"),
    (Email, "Email Address"),
    (Phone, "Phone Number"),
    (YearsOfExperience, "Years of Experience"),
    (DesiredPositions, "Desired Position(s)"),
    (CurrentLocation, "Current Location"),
    (TechStackField, "Tech Stack")
  ]

  /** `info.get(key, default)` */
  function Get(info: map<string, string>, key: string, default: string): string {
    if key in info then info[key] else default
  }

  function ValueOr(info: map<string, string>, key: string): string {
    Get(info, key, "Not provided")
  }

  function LabelLine(info: map<string, string>, k: nat): string
    requires k < |FieldLabels|
  {
    FieldLabels[k].1 + ": " + ValueOr(info, FieldLabels[k].0)
  }

  function SummaryLines(info: map<string, string>): seq<string> {
    [Rule, "CANDIDATE SUMMARY", Rule]
    + seq(|FieldLabels|, k requires 0 <= k < |FieldLabels| => LabelLine(info, k))
    + [Rule]
  }

  function CandidateSummary(info: map<string, string>): string {
    Join(SummaryLines(info), "\n")
  }

  /** utils.py:172-203 */
  method FormatCandidateSummary(candidateInfo: map<string, string>) returns (summary: string)
    ensures summary == CandidateSummary(candidateInfo)
  {
    var summaryLines := [Rule, "CANDIDATE SUMMARY", Rule];
    for k := 0 to |FieldLabels|
      invariant summaryLines == [Rule, "CANDIDATE SUMMARY", Rule]
                  + seq(k, j requires 0 <= j < k => LabelLine(candidateInfo, j))
    {
      var value := ValueOr(candidateInfo, FieldLabels[k].0);
      summaryLines := summaryLines + [FieldLabels[k].1 + ": " + value];
    }
    summaryLines := summaryLines + [Rule];
    summary := Join(summaryLines, "\n");
  }

  predicate NoNewline(s: string) {
    forall i :: 0 <= i < |s| ==> s[i] != '\n'
  }

  /** The summary is 11 lines: 3 header lines, the 7 labelled fields in fixed order
      ("Not provided" for a missing key) and the closing rule, provided no stored
      value itself spans lines. */
  lemma {:induction false} SummaryLinesSplit(info: map<string, string>)
    requires forall key :: key in info ==> NoNewline(info[key])
    ensures SplitOn(CandidateSummary(info), {'\n'}) == SummaryLines(info)
    ensures |SummaryLines(info)| == 11
    ensures forall k :: 0 <= k < 7 ==>
              SummaryLines(info)[3 + k] == FieldLabels[k].1 + ": " + ValueOr(info, FieldLabels[k].0)
  {
    var lines := SummaryLines(info);
    forall k | 0 <= k < |lines| ensures NoNewline(lines[k]) {
      if 3 <= k < 10 {
        LabelLineNoNewline(info, k - 3);
      }
    }
    SplitJoin(lines, '\n');
  }

  lemma LabelLineNoNewline(info: map<string, string>, k: nat)
    requires k < |FieldLabels|
    requires forall key :: key in info ==> NoNewline(info[key])
    ensures NoNewline(LabelLine(info, k))
  {
    var v := ValueOr(info, FieldLabels[k].0);
    assert NoNewline(v);
    assert NoNewline(FieldLabels[k].1 + ": ");
    var line := FieldLabels[k].1 + ": " + v;
    assert forall i :: |FieldLabels[k].1 + ": "| <= i < |line| ==> line[i] == v[i - |FieldLabels[k].1 + ": "|];
  }

  /** Keys other than the seven labelled fields never show in the summary. */
  lemma SummaryIgnoresOtherKeys(info: map<string, string>, extra: map<string, string>)
    requires forall k :: 0 <= k < |FieldLabels| ==> FieldLabels[k].0 !in extra
    ensures CandidateSummary(info + extra) == CandidateSummary(info)
  {
    forall k | 0 <= k < |FieldLabels| ensures LabelLine(info + extra, k) == LabelLine(info, k) {
    }
    assert SummaryLines(info + extra) == SummaryLines(info);
  }

  // ===========================================================================
  // format_conversation_for_llm

  function Speaker(m: Message): string {
    if m.role == User then "Candidate" else "Assistant"
  }

  function TranscriptLine(m: Message): string {
    Speaker(m) + ": " + m.content
  }

  function Transcript(messages: seq<Message>): string {
    Join(seq(|messages|, i requires 0 <= i < |messages| => TranscriptLine(messages[i])), "\n")
  }

  /** utils.py:262-277 */
  method FormatConversationForLlm(messages: seq<Message>) returns (text: string)
    ensures text == Transcript(messages)
  {
    var formatted: seq<string> := [];
    for k := 0 to |messages|
      invariant formatted == seq(k, i requires 0 <= i < k => TranscriptLine(messages[i]))
    {
      var role := if messages[k].role == User then "Candidate" else "Assistant";
      formatted := formatted + [role + ": " + messages[k].content];
    }
    text := Join(formatted, "\n");
  }

  /** The transcript grows by a newline and one line per message, whatever
      the message says. */
  lemma {:induction false} TranscriptAppend(messages: seq<Message>, m: Message)
    ensures Transcript(messages + [m])
              == if messages == [] then TranscriptLine(m) else Transcript(messages) + "\n" + TranscriptLine(m)
  {
    var lines := seq(|messages|, i requires 0 <= i < |messages| => TranscriptLine(messages[i]));
    var more := seq(|messages + [m]|, i requires 0 <= i < |messages + [m]| => TranscriptLine((messages + [m])[i]));
    assert more == lines + [TranscriptLine(m)];
    JoinAppend(lines, TranscriptLine(m), "\n");
  }

  /** When no message contains a newline, the transcript splits back into one
      line per message, "Candidate: " exactly for user turns. */
  lemma {:induction false} TranscriptLines(messages: seq<Message>)
    requires |messages| >= 1
    requires forall k :: 0 <= k < |messages| ==> NoNewline(messages[k].content)
    ensures |SplitOn(Transcript(messages), {'\n'})| == |messages|
    ensures forall k :: 0 <= k < |messages| ==>
              var line := SplitOn(Transcript(messages), {'\n'})[k];
              line == TranscriptLine(messages[k])
              && (line[..11] == "Candidate: " <==> messages[k].role == User)
  {
    var lines := seq(|messages|, i requires 0 <= i < |messages| => TranscriptLine(messages[i]));
    forall k, i | 0 <= k < |lines| && 0 <= i < |lines[k]| ensures lines[k][i] != '\n' {
      assert lines[k] == Speaker(messages[k]) + ": " + messages[k].content;
      if i >= |Speaker(messages[k]) + ": "| {
        assert lines[k][i] == messages[k].content[i - |Speaker(messages[k]) + ": "|];
      }
    }
    SplitJoin(lines, '\n');
    forall k | 0 <= k < |messages|
      ensures lines[k][..11] == "Candidate: " <==> messages[k].role == User
    {
      assert lines[k][..11] == Speaker(messages[k]) + ": ";
      assert "Assistant: "[0] != "Candidate: "[0];
    }
  }
}
