/** File names as both tools see them: ASCII case mapping, substring tests,
    pathlib's `stem`/`suffix` split, decimal counters and the collision loop
    that picks a free destination name. */
module Names {
  import opened Wrappers

  // ---------------------------------------------------------------------
  // Case mapping (ASCII letters only)
  // ---------------------------------------------------------------------

  function LowerChar(c: char): char {
    if 'A' <= c <= 'Z' then (c as int + 32) as char else c
  }

  function UpperChar(c: char): char {
    if 'a' <= c <= 'z' then (c as int - 32) as char else c
  }

  /** `str.lower()` restricted to ASCII letters. */
  function Lower(s: string): (r: string)
    ensures |r| == |s|
    ensures forall i {:trigger r[i]} :: 0 <= i < |s| ==> r[i] == LowerChar(s[i])
  {
    if s == [] then [] else [LowerChar(s[0])] + Lower(s[1..])
  }

  /** `str.upper()` restricted to ASCII letters. */
  function Upper(s: string): (r: string)
    ensures |r| == |s|
    ensures forall i {:trigger r[i]} :: 0 <= i < |s| ==> r[i] == UpperChar(s[i])
  {
    if s == [] then [] else [UpperChar(s[0])] + Upper(s[1..])
  }

  // ---------------------------------------------------------------------
  // Substrings, prefixes, suffixes
  // ---------------------------------------------------------------------

  /** Python's `p in s` for strings. */
  predicate HasSubstring(s: string, p: string) {
    exists i :: 0 <= i <= |s| && p <= s[i..]
  }

  /** `any(p in s for p in patterns)`. */
  predicate ContainsAny(s: string, patterns: seq<string>) {
    exists k :: 0 <= k < |patterns| && HasSubstring(s, patterns[k])
  }

  predicate StartsWith(s: string, p: string) {
    p <= s
  }

  predicate EndsWith(s: string, t: string) {
    |t| <= |s| && s[|s| - |t|..] == t
  }

  /** Containment is transitive: a name containing "screencapture" contains "capture". */
  lemma SubstringTransitive(s: string, p: string, q: string)
    requires HasSubstring(s, p) && HasSubstring(p, q)
    ensures HasSubstring(s, q)
  {
    var i :| 0 <= i <= |s| && p <= s[i..];
    var j :| 0 <= j <= |p| && q <= p[j..];
    assert q <= s[i + j..] by {
      forall k | 0 <= k < |q|
        ensures q[k] == s[i + j..][k]
      {
        assert q[k] == p[j + k];
        assert p[j + k] == s[i..][j + k];
      }
    }
  }

  // ---------------------------------------------------------------------
  // pathlib's split of a file name into stem and suffix
  // ---------------------------------------------------------------------

  /** `name.rfind('.')`: the position of the last dot, or -1. */
  function LastDot(s: string): (r: int)
    ensures -1 <= r < |s|
    ensures r >= 0 ==> s[r] == '.'
    ensures forall k :: r < k < |s| ==> s[k] != '.'
  {
    if s == [] then -1
    else if s[|s| - 1] == '.' then |s| - 1
    else LastDot(s[..|s| - 1])
  }

  /** `PurePath.suffix`: from the last dot on, unless that dot leads the name
      or ends it. */
  function Suffix(name: string): string {
    var i := LastDot(name);
    if 0 < i < |name| - 1 then name[i..] else ""
  }

  /** `PurePath.stem`: the name without its suffix. */
  function Stem(name: string): string {
    var i := LastDot(name);
    if 0 < i < |name| - 1 then name[..i] else name
  }

  /** Stem and suffix partition the name; a suffix is a dot and at least one
      more character, none of them a dot. */
  lemma StemSuffixSplit(name: string)
    ensures Stem(name) + Suffix(name) == name
    ensures Suffix(name) == "" || (|Suffix(name)| >= 2 && Suffix(name)[0] == '.' && |Stem(name)| >= 1)
    ensures forall k :: 0 < k < |Suffix(name)| ==> Suffix(name)[k] != '.'
  {
  }

  /** Lower-casing moves no dot, so the last dot stays where it was. */
  lemma {:induction false} LastDotLower(s: string)
    ensures LastDot(Lower(s)) == LastDot(s)
  {
    if s != [] {
      var t := s[..|s| - 1];
      assert Lower(s)[..|s| - 1] == Lower(t);
      LastDotLower(t);
    }
  }

  /** The suffix of a lower-cased name is the lower-cased suffix. */
  lemma SuffixLower(name: string)
    ensures Suffix(Lower(name)) == Lower(Suffix(name))
  {
    LastDotLower(name);
    var i := LastDot(name);
    if 0 < i < |name| - 1 {
      assert Lower(name)[i..] == Lower(name[i..]);
    }
  }

  // ---------------------------------------------------------------------
  // Decimal counters: f"{n}" and f"{n:03d}"
  // ---------------------------------------------------------------------

  function DigitChar(d: nat): char
    requires d < 10
  {
    ('0' as int + d) as char
  }

  function DigitValue(c: char): nat {
    if '0' <= c <= '9' then c as int - '0' as int else 0
  }

  /** `str(n)` for a natural number: decimal digits only, one digit below
      ten, and no leading zero unless the number is zero. */
  function Digits(n: nat): (r: string)
    ensures 1 <= |r|
    ensures forall i :: 0 <= i < |r| ==> '0' <= r[i] <= '9'
    ensures |r| == 1 <==> n < 10
    ensures r[0] == '0' <==> n == 0
  {
    if n < 10 then [DigitChar(n)] else Digits(n / 10) + [DigitChar(n % 10)]
  }

  /** Reads a string of decimal digits back into a number. */
  function ParseDigits(s: string): nat {
    if s == [] then 0 else ParseDigits(s[..|s| - 1]) * 10 + DigitValue(s[|s| - 1])
  }

  function Zeros(k: nat): (r: string)
    ensures |r| == k && forall i :: 0 <= i < k ==> r[i] == '0'
  {
    if k == 0 then [] else Zeros(k - 1) + ['0']
  }

  /** `f"{n:0{width}d}"`: the decimal digits, left-padded with zeros to `width`;
      exactly `width` characters unless the number needs more. */
  function ZeroPad(n: nat, width: nat): (r: string)
    ensures |r| == if |Digits(n)| < width then width else |Digits(n)|
    ensures forall i :: 0 <= i < |r| ==> '0' <= r[i] <= '9'
  {
    var d := Digits(n);
    if |d| < width then Zeros(width - |d|) + d else d
  }

  lemma {:induction false} DigitsRoundTrip(n: nat)
    ensures ParseDigits(Digits(n)) == n
  {
    if n >= 10 {
      var d := Digits(n / 10) + [DigitChar(n % 10)];
      assert d[..|d| - 1] == Digits(n / 10);
      DigitsRoundTrip(n / 10);
    }
  }

  lemma {:induction false} ParseZeros(k: nat)
    ensures ParseDigits(Zeros(k)) == 0
  {
    if k > 0 {
      assert Zeros(k)[..k - 1] == Zeros(k - 1);
      ParseZeros(k - 1);
    }
  }

  lemma {:induction false} ParseIgnoresLeadingZeros(k: nat, s: string)
    ensures ParseDigits(Zeros(k) + s) == ParseDigits(s)
  {
    if s == [] {
      assert Zeros(k) + s == Zeros(k);
      ParseZeros(k);
    } else {
      var t := Zeros(k) + s;
      assert t[..|t| - 1] == Zeros(k) + s[..|s| - 1];
      assert t[|t| - 1] == s[|s| - 1];
      ParseIgnoresLeadingZeros(k, s[..|s| - 1]);
    }
  }

  /** Padding loses nothing: the counter can be read back from its text. */
  lemma ZeroPadRoundTrip(n: nat, width: nat)
    ensures ParseDigits(ZeroPad(n, width)) == n
  {
    DigitsRoundTrip(n);
    var d := Digits(n);
    if |d| < width {
      assert ZeroPad(n, width) == Zeros(width - |d|) + d;
      ParseIgnoresLeadingZeros(width - |d|, d);
    } else {
      assert ZeroPad(n, width) == d;
    }
  }

  // ---------------------------------------------------------------------
  // Ordered extension tables
  // ---------------------------------------------------------------------

  /** One row of an ordered category table: a category and the extensions it claims. */
  datatype Listing<C> = Listing(category: C, exts: set<string>)

  /** The first row, in table order, whose extensions include `ext`. */
  function FirstListing<C>(table: seq<Listing<C>>, ext: string): (r: Option<C>)
    ensures r.None? <==> forall i :: 0 <= i < |table| ==> ext !in table[i].exts
    ensures r.Some? ==> exists i :: 0 <= i < |table| && table[i].category == r.value && ext in table[i].exts
  {
    if table == [] then None
    else if ext in table[0].exts then Some(table[0].category)
    else FirstListing(table[1..], ext)
  }

  /** The row found is the earliest that lists the extension. */
  lemma {:induction false} FirstListingIsFirst<C>(table: seq<Listing<C>>, ext: string, i: nat)
    requires i < |table| && ext in table[i].exts
    requires forall j :: 0 <= j < i ==> ext !in table[j].exts
    ensures FirstListing(table, ext) == Some(table[i].category)
  {
    if i > 0 {
      FirstListingIsFirst(table[1..], ext, i - 1);
    }
  }

  /** A category whose rows list no extension is never the one found. */
  lemma {:induction false} FirstListingNever<C>(table: seq<Listing<C>>, ext: string, c: C)
    requires forall i :: 0 <= i < |table| && table[i].category == c ==> table[i].exts == {}
    ensures FirstListing(table, ext) != Some(c)
  {
    if table != [] && ext !in table[0].exts {
      FirstListingNever(table[1..], ext, c);
    }
  }

  // ---------------------------------------------------------------------
  // Collision naming
  // ---------------------------------------------------------------------

  /** The `c`-th name the collision loop tries for `name`: the name itself,
      then `stem_<c>suffix` with the counter padded to `width` digits. */
  function Candidate(name: string, width: nat, c: nat): string {
    if c == 0 then name else Stem(name) + "_" + ZeroPad(c, width) + Suffix(name)
  }

  /** Different counters never produce the same name, so the loop cannot
      revisit a name it has already found taken. */
  lemma CandidateInjective(name: string, width: nat, i: nat, j: nat)
    requires i != j
    ensures Candidate(name, width, i) != Candidate(name, width, j)
  {
    StemSuffixSplit(name);
    if i != 0 && j != 0 {
      var a, b := Stem(name), Suffix(name);
      var pi, pj := ZeroPad(i, width), ZeroPad(j, width);
      var ci, cj := a + "_" + pi + b, a + "_" + pj + b;
      if ci == cj {
        assert |pi| == |pj|;
        assert ci[|a| + 1..|a| + 1 + |pi|] == pi;
        assert cj[|a| + 1..|a| + 1 + |pj|] == pj;
        ZeroPadRoundTrip(i, width);
        ZeroPadRoundTrip(j, width);
        assert false;
      }
    }
  }

  /** `dest` is what the collision loop yields for `name` when the names in
      `taken` already exist: the first candidate not taken. */
  ghost predicate FirstFree(name: string, width: nat, taken: set<string>, dest: string) {
    && dest !in taken
    && exists c: nat :: dest == Candidate(name, width, c)
         && forall j: nat :: j < c ==> Candidate(name, width, j) in taken
  }

  /** At most one name is the first free one. */
  lemma FirstFreeUnique(name: string, width: nat, taken: set<string>, d1: string, d2: string)
    requires FirstFree(name, width, taken, d1) && FirstFree(name, width, taken, d2)
    ensures d1 == d2
  {
    var c1: nat :| d1 == Candidate(name, width, c1)
      && forall j: nat :: j < c1 ==> Candidate(name, width, j) in taken;
    var c2: nat :| d2 == Candidate(name, width, c2)
      && forall j: nat :: j < c2 ==> Candidate(name, width, j) in taken;
    if c1 < c2 {
      assert false;
    } else if c2 < c1 {
      assert false;
    }
  }

  lemma SubsetCardinality(a: set<string>, b: set<string>)
    requires a <= b
    ensures |a| <= |b|
  {
    assert b == a + (b - a);
  }

  /** The loop `while dest.exists(): dest = stem_<counter>suffix; counter += 1`.
      It ends because every name it moves past is a distinct member of the
      finite set `taken`. */
  method FirstFreeName(name: string, taken: set<string>, width: nat) returns (dest: string)
    ensures FirstFree(name, width, taken, dest)
    ensures name !in taken ==> dest == name
  {
    dest := name;
    var counter: nat := 1;
    ghost var passed: set<string> := {};
    while dest in taken
      invariant counter >= 1
      invariant dest == Candidate(name, width, counter - 1)
      invariant forall j: nat :: j < counter - 1 ==> Candidate(name, width, j) in taken
      invariant passed <= taken && |passed| == counter - 1
      invariant forall j: nat :: j >= counter - 1 ==> Candidate(name, width, j) !in passed
      decreases |taken| - |passed|
    {
      SubsetCardinality(passed + {dest}, taken);
      forall j: nat | j >= counter
        ensures Candidate(name, width, j) != dest
      {
        CandidateInjective(name, width, j, counter - 1);
      }
      passed := passed + {dest};
      dest := Candidate(name, width, counter);
      counter := counter + 1;
    }
  }
}
