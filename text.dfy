/**
 * The Python string operations the intake code relies on (`lower`, `upper`,
 * `strip`, `title`, `replace`, `split`, `join`, the `in` substring test and
 * `str(int)`), restricted to ASCII: case mapping touches only A-Z and a-z, and
 * whitespace is the ASCII part of `str.isspace` (code points 9-13 and 28-32).
 */
module Text {

  // ---------------------------------------------------------------------------
  // Character classes
  // ---------------------------------------------------------------------------

  /** `c.isspace()` for ASCII characters. */
  predicate IsSpace(c: char) {
    (9 <= c as int <= 13) || (28 <= c as int <= 32)
  }

  predicate IsUpper(c: char) { 'A' <= c <= 'Z' }

  predicate IsLower(c: char) { 'a' <= c <= 'z' }

  /** `c.isalpha()` (and, for ASCII, "is a cased character"). */
  predicate IsLetter(c: char) { IsUpper(c) || IsLower(c) }

  /** `c.isdigit()` for ASCII, the class `\d` of a regular expression. */
  predicate IsDigit(c: char) { '0' <= c <= '9' }

  function LowerChar(c: char): (r: char)
    ensures IsLetter(r) <==> IsLetter(c)
    ensures !IsLetter(c) ==> r == c
    ensures IsLetter(c) ==> IsLower(r)
  {
    if IsUpper(c) then (c as int + 32) as char else c
  }

  function UpperChar(c: char): (r: char)
    ensures IsLetter(r) <==> IsLetter(c)
    ensures !IsLetter(c) ==> r == c
    ensures IsLetter(c) ==> IsUpper(r)
  {
    if IsLower(c) then (c as int - 32) as char else c
  }

  /** `s.lower()`. */
  function Lower(s: string): (r: string)
    ensures |r| == |s|
    ensures forall i :: 0 <= i < |s| ==> r[i] == LowerChar(s[i])
  {
    seq(|s|, i requires 0 <= i < |s| => LowerChar(s[i]))
  }

  lemma LowerConcat(a: string, b: string)
    ensures Lower(a + b) == Lower(a) + Lower(b)
  {
    assert forall i :: 0 <= i < |a + b| ==> Lower(a + b)[i] == (Lower(a) + Lower(b))[i];
  }

  lemma LowerSlice(s: string, i: int, j: int)
    requires 0 <= i <= j <= |s|
    ensures Lower(s[i..j]) == Lower(s)[i..j]
  {
  }

  // ---------------------------------------------------------------------------
  // strip
  // ---------------------------------------------------------------------------

  function StripLeft(s: string): (r: string)
    ensures |r| <= |s| && r == s[|s| - |r|..]
    ensures r == [] || !IsSpace(r[0])
    ensures forall i :: 0 <= i < |s| - |r| ==> IsSpace(s[i])
  {
    if |s| > 0 && IsSpace(s[0]) then StripLeft(s[1..]) else s
  }

  function StripRight(s: string): (r: string)
    ensures |r| <= |s| && r == s[..|r|]
    ensures r == [] || !IsSpace(r[|r| - 1])
    ensures forall i :: |r| <= i < |s| ==> IsSpace(s[i])
  {
    if |s| > 0 && IsSpace(s[|s| - 1]) then StripRight(s[..|s| - 1]) else s
  }

  /** `s.strip()`: both ends lose their whitespace. */
  function Strip(s: string): string {
    StripRight(StripLeft(s))
  }

  /** A string that `strip` leaves alone: no whitespace at either end. */
  predicate IsStripped(e: string) {
    e == [] || (!IsSpace(e[0]) && !IsSpace(e[|e| - 1]))
  }

  /** Where the text that `strip` keeps starts in its argument. */
  function StripStart(s: string): (i: nat)
    ensures i + |Strip(s)| <= |s|
  {
    |s| - |StripLeft(s)|
  }

  /** What `strip` returns is a contiguous piece of its argument with no whitespace at either end. */
  lemma StripShape(s: string)
    ensures IsStripped(Strip(s))
    ensures Strip(s) == s[StripStart(s)..StripStart(s) + |Strip(s)|]
    ensures forall k :: 0 <= k < StripStart(s) ==> IsSpace(s[k])
    ensures forall k :: StripStart(s) + |Strip(s)| <= k < |s| ==> IsSpace(s[k])
  {
    var l := StripLeft(s);
    var r := StripRight(l);
    var i := |s| - |l|;
    assert r == l[..|r|];
    assert l == s[i..];
    assert s[i..][..|r|] == s[i..i + |r|];
    if r != [] {
      assert r[0] == l[0];
    }
  }

  lemma StripKeepsChars(s: string, c: char)
    requires c in Strip(s)
    ensures c in s
  {
    StripShape(s);
    var i := StripStart(s);
    var k :| 0 <= k < |Strip(s)| && Strip(s)[k] == c;
    assert s[i + k] == c;
  }

  lemma StripStripped(e: string)
    requires IsStripped(e)
    ensures Strip(e) == e
  {
  }

  /** `strip` returns the empty string exactly for all-whitespace input. */
  lemma StripEmptyIffBlank(s: string)
    ensures Strip(s) == [] <==> forall i :: 0 <= i < |s| ==> IsSpace(s[i])
  {
    var l := StripLeft(s);
    if l != [] {
      assert !IsSpace(l[0]) && l[0] == s[|s| - |l|];
      assert StripRight(l) != [];
    }
  }

  /** Whitespace around a stripped, non-empty word is exactly what `strip` removes. */
  lemma StripPadded(a: string, e: string, b: string)
    requires forall i :: 0 <= i < |a| ==> IsSpace(a[i])
    requires forall i :: 0 <= i < |b| ==> IsSpace(b[i])
    requires IsStripped(e) && e != []
    ensures Strip(a + e + b) == e
  {
    var s := a + e + b;
    if a != [] {
      assert s[1..] == a[1..] + e + b;
      StripPadded(a[1..], e, b);
    } else if b != [] {
      assert s[..|s| - 1] == a + e + b[..|b| - 1];
      StripPadded(a, e, b[..|b| - 1]);
      assert StripLeft(s) == e + b;
      assert (e + b)[..|e + b| - 1] == e + b[..|b| - 1];
    } else {
      assert s == e;
    }
  }

  /** One leading blank before a stripped, non-empty word is what `strip` removes. */
  lemma StripLeadingBlank(e: string)
    requires IsStripped(e) && e != []
    ensures Strip([' '] + e) == e
  {
    assert ([' '] + e)[1..] == e;
  }

  // ---------------------------------------------------------------------------
  // title
  // ---------------------------------------------------------------------------

  /** `str.title` after a character that was (`prevCased`) or was not a letter. */
  function TitleFrom(s: string, prevCased: bool): (r: string)
    ensures |r| == |s|
  {
    if s == [] then []
    else
      var c := if prevCased then LowerChar(s[0]) else UpperChar(s[0]);
      [c] + TitleFrom(s[1..], IsLetter(s[0]))
  }

  /** `s.title()`: the first letter of every run of letters upper case, the others lower case. */
  function Title(s: string): string {
    TitleFrom(s, false)
  }

  /** `title` changes only letters, and a letter stays a letter. */
  lemma {:induction false} TitleFromAt(s: string, prevCased: bool, i: int)
    requires 0 <= i < |s|
    ensures !IsLetter(s[i]) ==> TitleFrom(s, prevCased)[i] == s[i]
    ensures IsLetter(TitleFrom(s, prevCased)[i]) <==> IsLetter(s[i])
    ensures LowerChar(TitleFrom(s, prevCased)[i]) == LowerChar(s[i])
  {
    if i > 0 {
      TitleFromAt(s[1..], IsLetter(s[0]), i - 1);
    }
  }

  lemma {:induction false} TitleFromIdempotent(s: string, prevCased: bool)
    ensures TitleFrom(TitleFrom(s, prevCased), prevCased) == TitleFrom(s, prevCased)
  {
    if s != [] {
      var t := TitleFrom(s, prevCased);
      TitleFromAt(s, prevCased, 0);
      assert t[1..] == TitleFrom(s[1..], IsLetter(s[0]));
      TitleFromIdempotent(s[1..], IsLetter(s[0]));
    }
  }

  /** Title-casing twice is title-casing once. */
  lemma TitleIdempotent(s: string)
    ensures Title(Title(s)) == Title(s)
  {
    TitleFromIdempotent(s, false);
  }

  /** `title` keeps the non-letters, hence whitespace and separators, where they were. */
  lemma TitleKeepsNonLetters(s: string)
    ensures |Title(s)| == |s|
    ensures forall i :: 0 <= i < |s| && !IsLetter(s[i]) ==> Title(s)[i] == s[i]
    ensures forall i :: 0 <= i < |s| ==> (IsLetter(Title(s)[i]) <==> IsLetter(s[i]))
    ensures Lower(Title(s)) == Lower(s)
  {
    forall i | 0 <= i < |s| {
      TitleFromAt(s, false, i);
    }
  }

  /** `[x.strip() for x in xs]`. */
  function StripAll(xs: seq<string>): seq<string> {
    seq(|xs|, k requires 0 <= k < |xs| => Strip(xs[k]))
  }

  lemma StripAllStripped(xs: seq<string>)
    requires forall k :: 0 <= k < |xs| ==> Strip(xs[k]) == xs[k]
    ensures StripAll(xs) == xs
  {
  }

  // ---------------------------------------------------------------------------
  // Substrings
  // ---------------------------------------------------------------------------

  /** `sub in s`, by scanning the start positions from the left. */
  function Contains(s: string, sub: string): bool
    decreases |s|
  {
    if |sub| > |s| then false
    else if s[..|sub|] == sub then true
    else if s == [] then false
    else Contains(s[1..], sub)
  }

  /** `sub` sits in `s` starting at index `i`. */
  ghost predicate OccursAt(s: string, sub: string, i: int) {
    0 <= i <= |s| - |sub| && s[i..i + |sub|] == sub
  }

  /** The declarative reading of `sub in s`: some slice of `s` equals `sub`. */
  ghost predicate Occurs(s: string, sub: string) {
    exists i :: OccursAt(s, sub, i)
  }

  lemma {:induction false} ContainsIffOccurs(s: string, sub: string)
    ensures Contains(s, sub) <==> Occurs(s, sub)
    decreases |s|
  {
    if |sub| > |s| {
    } else if s[..|sub|] == sub {
      assert OccursAt(s, sub, 0);
    } else if s == [] {
    } else {
      ContainsIffOccurs(s[1..], sub);
      if Contains(s[1..], sub) {
        var i :| OccursAt(s[1..], sub, i);
        TailSlice(s, i, |sub|);
        assert OccursAt(s, sub, i + 1);
      }
      if Occurs(s, sub) {
        var i :| OccursAt(s, sub, i);
        assert i != 0;
        TailSlice(s, i - 1, |sub|);
        assert OccursAt(s[1..], sub, i - 1);
      }
    }
  }

  lemma TailSlice(s: string, i: nat, n: nat)
    requires 1 + i + n <= |s|
    ensures s[1..][i..i + n] == s[i + 1..i + 1 + n]
  {
  }

  lemma ContainsAt(s: string, sub: string, i: int)
    requires OccursAt(s, sub, i)
    ensures Contains(s, sub)
  {
    ContainsIffOccurs(s, sub);
  }

  /** `any(word in s for word in words)`. */
  predicate ContainsAny(s: string, words: seq<string>) {
    exists i :: 0 <= i < |words| && Contains(s, words[i])
  }

  /** Some word of `words` is a slice of `s`. */
  ghost predicate MentionsAny(s: string, words: seq<string>) {
    exists i :: 0 <= i < |words| && Occurs(s, words[i])
  }

  lemma ContainsAnyIffMentionsAny(s: string, words: seq<string>)
    ensures ContainsAny(s, words) <==> MentionsAny(s, words)
  {
    forall i | 0 <= i < |words| ensures Contains(s, words[i]) <==> Occurs(s, words[i]) {
      ContainsIffOccurs(s, words[i]);
    }
  }

  /** A substring of `s` stays a substring, case-folded, of `s.lower()`. */
  lemma ContainsLower(s: string, sub: string)
    requires Contains(s, sub)
    ensures Contains(Lower(s), Lower(sub))
  {
    ContainsIffOccurs(s, sub);
    var i :| OccursAt(s, sub, i);
    LowerSlice(s, i, i + |sub|);
    assert OccursAt(Lower(s), Lower(sub), i);
    ContainsAt(Lower(s), Lower(sub), i);
  }

  // ---------------------------------------------------------------------------
  // replace, split, join
  // ---------------------------------------------------------------------------

  /** `s.replace(a, b)` for one-character `a` and `b`. */
  function ReplaceChar(s: string, a: char, b: char): (r: string)
    ensures |r| == |s|
    ensures forall i :: 0 <= i < |s| ==> r[i] == (if s[i] == a then b else s[i])
    ensures a !in s ==> r == s
  {
    seq(|s|, i requires 0 <= i < |s| => if s[i] == a then b else s[i])
  }

  /** `s.replace(pat, rep)`: non-overlapping occurrences, from the left. */
  function Replace(s: string, pat: string, rep: string): string
    requires |pat| > 0
    decreases |s|
  {
    if |s| < |pat| then s
    else if s[..|pat|] == pat then rep + Replace(s[|pat|..], pat, rep)
    else [s[0]] + Replace(s[1..], pat, rep)
  }

  /** Replacing a pattern that does not occur changes nothing. */
  lemma {:induction false} ReplaceAbsent(s: string, pat: string, rep: string)
    requires |pat| > 0 && !Contains(s, pat)
    ensures Replace(s, pat, rep) == s
    decreases |s|
  {
    if |s| >= |pat| {
      assert s[..|pat|] != pat;
      ReplaceAbsent(s[1..], pat, rep);
    }
  }

  /** A prefix that cannot start the pattern passes through `replace` untouched. */
  lemma {:induction false} ReplaceSkipsPrefix(a: string, b: string, pat: string, rep: string)
    requires |pat| > 0 && pat[0] !in a
    ensures Replace(a + b, pat, rep) == a + Replace(b, pat, rep)
    decreases |a|
  {
    if a != [] {
      var s := a + b;
      if |s| >= |pat| {
        assert s[..|pat|][0] == a[0];
        assert s[1..] == a[1..] + b;
        ReplaceSkipsPrefix(a[1..], b, pat, rep);
        assert [a[0]] + (a[1..] + Replace(b, pat, rep)) == a + Replace(b, pat, rep);
      } else {
        assert Replace(b, pat, rep) == b;
      }
    } else {
      assert a + b == b;
    }
  }

  /** `pat.replace(pat, rep)` is `rep`. */
  lemma ReplaceWhole(pat: string, rep: string)
    requires |pat| > 0
    ensures Replace(pat, pat, rep) == rep
  {
    assert pat[..|pat|] == pat && pat[|pat|..] == [];
  }

  // ---------------------------------------------------------------------------
  // find, rfind
  // ---------------------------------------------------------------------------

  /** `s.find(c)`: the first index holding `c`, or -1. */
  function IndexOf(s: string, c: char): (i: int)
    ensures -1 <= i < |s|
    ensures i >= 0 ==> s[i] == c && c !in s[..i]
    ensures i == -1 ==> c !in s
  {
    if s == [] then -1
    else if s[0] == c then 0
    else
      var j := IndexOf(s[1..], c);
      assert j >= 0 ==> s[..j + 1] == [s[0]] + s[1..][..j];
      if j < 0 then -1 else j + 1
  }

  /** `s.rfind(c)`: the last index holding `c`, or -1. */
  function LastIndexOf(s: string, c: char): (i: int)
    ensures -1 <= i < |s|
    ensures i >= 0 ==> s[i] == c && c !in s[i + 1..]
    ensures i == -1 ==> c !in s
  {
    if s == [] then -1
    else
      var j := LastIndexOf(s[1..], c);
      assert j >= 0 ==> s[j + 2..] == s[1..][j + 1..];
      assert j < 0 ==> s == [s[0]] + s[1..];
      if j >= 0 then j + 1 else if s[0] == c then 0 else -1
  }

  /** The first index holding `c` is the one with no `c` before it. */
  lemma IndexOfIs(s: string, c: char, i: int)
    requires 0 <= i < |s| && s[i] == c && c !in s[..i]
    ensures IndexOf(s, c) == i
  {
  }

  /** The last index holding `c` is the one with no `c` after it. */
  lemma LastIndexOfIs(s: string, c: char, i: int)
    requires 0 <= i < |s| && s[i] == c && c !in s[i + 1..]
    ensures LastIndexOf(s, c) == i
  {
  }

  /** `s.split(sep)` for a one-character separator: never empty, `[""]` for `""`. */
  function Split(s: string, sep: char): (r: seq<string>)
    ensures |r| >= 1
  {
    if s == [] then [[]]
    else
      var rest := Split(s[1..], sep);
      if s[0] == sep then [[]] + rest else [[s[0]] + rest[0]] + rest[1..]
  }

  lemma {:induction false} SplitPieces(s: string, sep: char)
    ensures forall k :: 0 <= k < |Split(s, sep)| ==> sep !in Split(s, sep)[k]
    ensures forall k :: 0 <= k < |Split(s, sep)| ==> forall c :: c in Split(s, sep)[k] ==> c in s
  {
    if s != [] {
      var rest := Split(s[1..], sep);
      SplitPieces(s[1..], sep);
      forall c | c in s[1..] ensures c in s {
        var j :| 0 <= j < |s[1..]| && s[1..][j] == c;
        assert s[j + 1] == c;
      }
      if s[0] != sep {
        assert Split(s, sep) == [[s[0]] + rest[0]] + rest[1..];
        forall k | 0 <= k < |Split(s, sep)| ensures sep !in Split(s, sep)[k] {
          if k > 0 { assert Split(s, sep)[k] == rest[k]; }
        }
      } else {
        assert Split(s, sep) == [[]] + rest;
      }
    }
  }

  /** A prefix free of the separator glues onto the first piece. */
  lemma {:induction false} SplitPrefix(a: string, s: string, sep: char)
    requires sep !in a
    ensures Split(a + s, sep) == [a + Split(s, sep)[0]] + Split(s, sep)[1..]
  {
    if a != [] {
      var t := Split(s, sep);
      assert (a + s)[0] == a[0] && (a + s)[1..] == a[1..] + s;
      assert a[0] != sep;
      SplitPrefix(a[1..], s, sep);
      var rest := Split(a[1..] + s, sep);
      assert rest == [a[1..] + t[0]] + t[1..];
      assert Split(a + s, sep) == [[a[0]] + rest[0]] + rest[1..];
      assert [a[0]] + (a[1..] + t[0]) == a + t[0];
    } else {
      assert a + s == s;
      var t := Split(s, sep);
      assert a + t[0] == t[0];
      assert [t[0]] + t[1..] == t;
    }
  }

  /** `sep.join(parts)`. */
  function Join(parts: seq<string>, sep: string): string {
    if |parts| == 0 then []
    else if |parts| == 1 then parts[0]
    else parts[0] + sep + Join(parts[1..], sep)
  }

  /** A character in neither the parts nor the separator is not in their join. */
  lemma {:induction false} JoinAvoids(parts: seq<string>, sep: string, c: char)
    requires c !in sep
    requires forall k :: 0 <= k < |parts| ==> c !in parts[k]
    ensures c !in Join(parts, sep)
  {
    if |parts| > 1 {
      JoinAvoids(parts[1..], sep, c);
      assert forall k :: 0 <= k < |parts| - 1 ==> parts[1..][k] == parts[k + 1];
    }
  }

  /** The join of parts whose first part is not empty starts with that part's first character. */
  lemma JoinStartsWithFirst(parts: seq<string>, sep: string)
    requires |parts| >= 1 && |parts[0]| >= 1
    ensures |Join(parts, sep)| >= 1 && Join(parts, sep)[0] == parts[0][0]
  {
  }

  /** Every piece after the first of `", ".join(ps).split(",")` keeps the blank that followed its comma. */
  function PadTail(ps: seq<string>): (r: seq<string>)
    requires |ps| >= 1
    ensures |r| == |ps| && r[0] == ps[0]
    ensures forall k :: 1 <= k < |ps| ==> r[k] == [' '] + ps[k]
  {
    [ps[0]] + Blanked(ps[1..])
  }

  /** Each string with a blank in front. */
  function Blanked(xs: seq<string>): (r: seq<string>)
    ensures |r| == |xs|
    ensures forall k :: 0 <= k < |xs| ==> r[k] == [' '] + xs[k]
  {
    if xs == [] then [] else [[' '] + xs[0]] + Blanked(xs[1..])
  }

  /** Splitting a comma-blank join on commas gives back the parts, each after the first with its blank. */
  lemma {:induction false} SplitJoinComma(ps: seq<string>)
    requires |ps| >= 1
    requires forall k :: 0 <= k < |ps| ==> ',' !in ps[k]
    ensures Split(Join(ps, ", "), ',') == PadTail(ps)
  {
    if |ps| > 1 {
      var rest := Join(ps[1..], ", ");
      SplitJoinComma(ps[1..]);
      var sr := Split(rest, ',');
      assert Join(ps, ", ") == ps[0] + ([','] + ([' '] + rest));
      SplitPrefix(ps[0], [','] + ([' '] + rest), ',');
      SplitCommaBlank(rest);
      PadTailCons(ps);
    } else {
      SplitPrefix(ps[0], [], ',');
      assert ps[0] + [] == ps[0];
    }
  }

  /** What follows a part in a comma-blank join splits into an empty piece, then the rest with its blank glued on. */
  lemma SplitCommaBlank(rest: string)
    ensures var sr := Split(rest, ',');
            Split([','] + ([' '] + rest), ',') == [[]] + ([[' '] + sr[0]] + sr[1..])
  {
    assert ([','] + ([' '] + rest))[1..] == [' '] + rest;
    SplitPrefix([' '], rest, ',');
  }

  lemma PadTailCons(ps: seq<string>)
    requires |ps| > 1
    ensures var pr := PadTail(ps[1..]);
            PadTail(ps) == [ps[0] + []] + ([[' '] + pr[0]] + pr[1..])
  {
    assert ps[0] + [] == ps[0];
    assert ps[1..][1..] == ps[2..];
    assert Blanked(ps[1..]) == [[' '] + ps[1]] + Blanked(ps[2..]);
  }


  /** Splitting a join on its one-character separator, which no part contains, gives the parts back. */
  lemma {:induction false} SplitJoinChar(ps: seq<string>, sep: char)
    requires |ps| >= 1
    requires forall k :: 0 <= k < |ps| ==> sep !in ps[k]
    ensures Split(Join(ps, [sep]), sep) == ps
  {
    if |ps| > 1 {
      var rest := Join(ps[1..], [sep]);
      SplitJoinChar(ps[1..], sep);
      assert Join(ps, [sep]) == ps[0] + ([sep] + rest);
      SplitPrefix(ps[0], [sep] + rest, sep);
      var sc := Split([sep] + rest, sep);
      assert ([sep] + rest)[1..] == rest;
      assert sc == [[]] + ps[1..];
      assert ps[0] + sc[0] == ps[0];
      assert [ps[0]] + ps[1..] == ps;
    } else {
      SplitPrefix(ps[0], [], sep);
      assert ps[0] + [] == ps[0];
    }
  }

  // ---------------------------------------------------------------------------
  // Filtering a list
  // ---------------------------------------------------------------------------

  /** `[x for x in xs if p(x)]`. */
  function Filter<T>(xs: seq<T>, p: T -> bool): (r: seq<T>)
    ensures |r| <= |xs|
    ensures forall x :: x in r ==> x in xs && p(x)
    ensures forall x :: x in xs && p(x) ==> x in r
  {
    if xs == [] then []
    else
      var last := xs[|xs| - 1];
      assert xs == xs[..|xs| - 1] + [last];
      Filter(xs[..|xs| - 1], p) + (if p(last) then [last] else [])
  }

  lemma {:induction false} FilterKeepsAll<T>(xs: seq<T>, p: T -> bool)
    requires forall k :: 0 <= k < |xs| ==> p(xs[k])
    ensures Filter(xs, p) == xs
  {
    if xs != [] {
      FilterKeepsAll(xs[..|xs| - 1], p);
      assert xs[..|xs| - 1] + [xs[|xs| - 1]] == xs;
    }
  }

  // ---------------------------------------------------------------------------
  // str(int)
  // ---------------------------------------------------------------------------

  function DigitChar(d: nat): (c: char)
    requires d < 10
    ensures IsDigit(c)
  {
    ('0' as int + d) as char
  }

  /** `str(n)` for a natural number: its decimal digits, no leading zero. */
  function NatToString(n: nat): (r: string)
    ensures |r| >= 1
    ensures forall i :: 0 <= i < |r| ==> IsDigit(r[i])
    ensures n >= 10 ==> r[0] != '0'
  {
    if n < 10 then [DigitChar(n)] else NatToString(n / 10) + [DigitChar(n % 10)]
  }

  /** Python's slice `s[:n]` for `n >= 0`, which clips at the end. */
  function Take<T>(s: seq<T>, n: nat): (r: seq<T>)
    ensures |r| == if |s| <= n then |s| else n
    ensures r == s[..|r|]
  {
    if |s| <= n then s else s[..n]
  }
}
