/**
 * `parse_tech_stack` of utils.py: the free-text answer at the TECH_STACK
 * stage becomes a list of at most ten distinct, title-cased technology names.
 * `TechStackOf` states the result; the method `ParseTechStack` computes it
 * with the source's two loops.
 */
module TechStack {
  import opened Text

  /** The separators, in the order the source turns them into commas. */
  const Separators: seq<char> := [',', ';', '|', '\n']

  // ---------------------------------------------------------------------------
  // Separator normalisation
  // ---------------------------------------------------------------------------

  /** The separator loop from `seps` on: each separator present in the text is turned into a comma. */
  function NormalizeFrom(s: string, seps: seq<char>): string
    decreases |seps|
  {
    if seps == [] then s
    else NormalizeFrom(if seps[0] in s then ReplaceChar(s, seps[0], ',') else s, seps[1..])
  }

  /** After normalisation the only separator left is the comma; every other character was there before. */
  lemma {:induction false} NormalizeChars(s: string, seps: seq<char>)
    ensures forall c :: c in NormalizeFrom(s, seps) ==> c == ',' || (c in s && c !in seps)
    decreases |seps|
  {
    if seps != [] {
      var s1 := if seps[0] in s then ReplaceChar(s, seps[0], ',') else s;
      NormalizeChars(s1, seps[1..]);
      forall c | c in NormalizeFrom(s, seps) && c != ',' ensures c in s && c !in seps {
        var k :| 0 <= k < |s1| && s1[k] == c;
        assert s[k] == c;
        assert c != seps[0];
        assert seps == [seps[0]] + seps[1..];
      }
    }
  }

  /** A text whose only separators are commas is left as it is. */
  lemma {:induction false} NormalizeIdentity(s: string, seps: seq<char>)
    requires forall c :: c in seps ==> c == ',' || c !in s
    ensures NormalizeFrom(s, seps) == s
    decreases |seps|
  {
    if seps != [] {
      if seps[0] in s {
        assert ReplaceChar(s, seps[0], ',') == s;
      }
      assert forall c :: c in seps[1..] ==> c in seps;
      NormalizeIdentity(s, seps[1..]);
    }
  }

  // ---------------------------------------------------------------------------
  // Cleaning and filtering the pieces
  // ---------------------------------------------------------------------------

  /** `[t.strip().title() for t in pieces]`. */
  function Cleaned(pieces: seq<string>): seq<string> {
    seq(|pieces|, k requires 0 <= k < |pieces| => Title(Strip(pieces[k])))
  }

  /** The test of `[t for t in techs if t and len(t) > 1]`. */
  predicate LongEnough(t: string) {
    |t| > 1
  }

  // ---------------------------------------------------------------------------
  // Removing case-insensitive duplicates
  // ---------------------------------------------------------------------------

  /** `xs[i]` is the first entry of `xs` with its lower-case form. */
  predicate FirstOfClass(xs: seq<string>, i: int)
    requires 0 <= i < |xs|
  {
    forall m :: 0 <= m < i ==> Lower(xs[m]) != Lower(xs[i])
  }

  /** The entries of `xs[..n]` that are the first of their lower-case form, in their order. */
  function FirstOccurrencesUpTo(xs: seq<string>, n: nat): (r: seq<string>)
    requires n <= |xs|
    ensures |r| <= n
    ensures forall x :: x in r ==> x in xs[..n]
    ensures forall i, j :: 0 <= i < j < |r| ==> Lower(r[i]) != Lower(r[j])
  {
    if n == 0 then []
    else
      var prev := FirstOccurrencesUpTo(xs, n - 1);
      assert forall x :: x in xs[..n - 1] ==> x in xs[..n];
      assert forall x :: x in xs[..n - 1] ==> Lower(x) != Lower(xs[n - 1]) || !FirstOfClass(xs, n - 1);
      prev + (if FirstOfClass(xs, n - 1) then [xs[n - 1]] else [])
  }

  /** The first entry of every lower-case form of `xs`, in order. */
  function FirstOccurrences(xs: seq<string>): seq<string> {
    FirstOccurrencesUpTo(xs, |xs|)
  }

  /** Some entry of `r` has lower-case form `key`. */
  ghost predicate HasClass(r: seq<string>, key: string) {
    exists j :: 0 <= j < |r| && Lower(r[j]) == key
  }

  /** `x` is the first entry of `xs` with its lower-case form. */
  ghost predicate IsFirstEntry(xs: seq<string>, x: string) {
    exists i :: 0 <= i < |xs| && xs[i] == x && FirstOfClass(xs, i)
  }

  /** Every lower-case form among `xs[..n]` is kept, and every kept entry is the first of its form. */
  lemma {:induction false} FirstOccurrencesUpToCover(xs: seq<string>, n: nat)
    requires n <= |xs|
    ensures forall i :: 0 <= i < n ==> HasClass(FirstOccurrencesUpTo(xs, n), Lower(xs[i]))
    ensures forall x :: x in FirstOccurrencesUpTo(xs, n) ==> IsFirstEntry(xs, x)
  {
    if n > 0 {
      FirstOccurrencesUpToCover(xs, n - 1);
      var prev := FirstOccurrencesUpTo(xs, n - 1);
      var r := FirstOccurrencesUpTo(xs, n);
      assert prev == r[..|prev|];
      forall i | 0 <= i < n ensures HasClass(r, Lower(xs[i])) {
        if i < n - 1 {
          var j :| 0 <= j < |prev| && Lower(prev[j]) == Lower(xs[i]);
          assert r[j] == prev[j];
        } else if FirstOfClass(xs, n - 1) {
          assert r[|prev|] == xs[n - 1];
        } else {
          var m :| 0 <= m < n - 1 && Lower(xs[m]) == Lower(xs[n - 1]);
          var j :| 0 <= j < |prev| && Lower(prev[j]) == Lower(xs[m]);
          assert r[j] == prev[j];
        }
      }
      forall x | x in r ensures IsFirstEntry(xs, x) {
        if x !in prev {
          assert x == xs[n - 1] && FirstOfClass(xs, n - 1);
        }
      }
    }
  }

  /** Keeping first occurrences drops nothing from a list that is already free of duplicates. */
  lemma {:induction false} FirstOccurrencesOfDistinct(xs: seq<string>, n: nat)
    requires n <= |xs|
    requires forall i, j :: 0 <= i < j < |xs| ==> Lower(xs[i]) != Lower(xs[j])
    ensures FirstOccurrencesUpTo(xs, n) == xs[..n]
  {
    if n > 0 {
      FirstOccurrencesOfDistinct(xs, n - 1);
      assert FirstOfClass(xs, n - 1);
      assert xs[..n - 1] + [xs[n - 1]] == xs[..n];
    }
  }

  // ---------------------------------------------------------------------------
  // parse_tech_stack
  // ---------------------------------------------------------------------------

  /** The cleaned pieces of the input that are at least two characters long, before de-duplication. */
  function Tokens(techInput: string): seq<string> {
    Filter(Cleaned(Split(NormalizeFrom(techInput, Separators), ',')), LongEnough)
  }

  /** What `parse_tech_stack(tech_input)` returns. */
  function TechStackOf(techInput: string): seq<string> {
    if Strip(techInput) == [] then [] else Take(FirstOccurrences(Tokens(techInput)), 10)
  }

  /** The lower-case forms of `xs[..n]`: the `seen` set of the duplicate-removal loop. */
  function LowerSetUpTo(xs: seq<string>, n: nat): set<string>
    requires n <= |xs|
  {
    if n == 0 then {} else LowerSetUpTo(xs, n - 1) + {Lower(xs[n - 1])}
  }

  /** An entry's form has been seen before it exactly when it is not the first of its form. */
  lemma {:induction false} SeenIffNotFirst(xs: seq<string>, n: nat, key: string)
    requires n <= |xs|
    ensures key in LowerSetUpTo(xs, n) <==> exists m :: 0 <= m < n && Lower(xs[m]) == key
  {
    if n > 0 {
      SeenIffNotFirst(xs, n - 1, key);
    }
  }

  /** The separator loop of `parse_tech_stack`. */
  method NormalizeSeparators(techInput: string) returns (text: string)
    ensures text == NormalizeFrom(techInput, Separators)
  {
    text := techInput;
    for i := 0 to |Separators|
      invariant NormalizeFrom(text, Separators[i..]) == NormalizeFrom(techInput, Separators)
    {
      var sep := Separators[i];
      assert Separators[i..][1..] == Separators[i + 1..];
      if sep in text {
        text := ReplaceChar(text, sep, ',');
      }
    }
  }

  /** The duplicate-removal loop of `parse_tech_stack`: a set of lower-case forms seen so far. */
  method RemoveDuplicates(validTechs: seq<string>) returns (uniqueTechs: seq<string>)
    ensures uniqueTechs == FirstOccurrences(validTechs)
  {
    var seen: set<string> := {};
    uniqueTechs := [];
    for j := 0 to |validTechs|
      invariant seen == LowerSetUpTo(validTechs, j)
      invariant uniqueTechs == FirstOccurrencesUpTo(validTechs, j)
    {
      var tech := validTechs[j];
      var techLower := Lower(tech);
      SeenIffNotFirst(validTechs, j, techLower);
      if techLower !in seen {
        seen := seen + {techLower};
        uniqueTechs := uniqueTechs + [tech];
      }
    }
  }

  /** `parse_tech_stack(tech_input)`. */
  method ParseTechStack(techInput: string) returns (result: seq<string>)
    ensures result == TechStackOf(techInput)
  {
    if Strip(techInput) == [] {
      return [];
    }
    var text := NormalizeSeparators(techInput);
    var techs := Cleaned(Split(text, ','));
    var validTechs := Filter(techs, LongEnough);
    var uniqueTechs := RemoveDuplicates(validTechs);
    result := Take(uniqueTechs, 10);
  }

  // ---------------------------------------------------------------------------
  // Properties of the parsed list
  // ---------------------------------------------------------------------------

  /** What every entry of a parsed tech stack looks like. */
  predicate IsTechName(t: string) {
    && |t| >= 2
    && IsStripped(t)
    && Title(t) == t
    && forall k :: 0 <= k < |t| ==> t[k] !in Separators
  }

  /** A cleaned piece free of separators that survives the length filter is a well-formed name. */
  lemma CleanedPieceIsTechName(p: string)
    requires forall c :: c in p ==> c !in Separators
    requires |Title(Strip(p))| > 1
    ensures IsTechName(Title(Strip(p)))
  {
    var e := Strip(p);
    var t := Title(e);
    StripShape(p);
    TitleKeepsNonLetters(e);
    TitleIdempotent(e);
    forall k | 0 <= k < |t| ensures t[k] !in Separators {
      if !IsLetter(e[k]) {
        StripKeepsChars(p, e[k]);
      }
    }
  }

  /** Every token is a well-formed name. */
  lemma TokensAreTechNames(techInput: string)
    ensures forall x :: x in Tokens(techInput) ==> IsTechName(x)
  {
    var norm := NormalizeFrom(techInput, Separators);
    var pieces := Split(norm, ',');
    NormalizeChars(techInput, Separators);
    SplitPieces(norm, ',');
    var techs := Cleaned(pieces);
    forall k | 0 <= k < |pieces| ensures forall c :: c in pieces[k] ==> c !in Separators {
      forall c | c in pieces[k] ensures c !in Separators {
        assert c in norm && c != ',';
      }
    }
    forall x | x in Filter(techs, LongEnough) ensures IsTechName(x) {
      assert x in techs && LongEnough(x);
      var k :| 0 <= k < |techs| && techs[k] == x;
      CleanedPieceIsTechName(pieces[k]);
    }
  }

  /** The list shape `parse_tech_stack` promises. */
  predicate IsTechStack(r: seq<string>) {
    && |r| <= 10
    && (forall k :: 0 <= k < |r| ==> IsTechName(r[k]))
    && (forall i, j :: 0 <= i < j < |r| ==> Lower(r[i]) != Lower(r[j]))
  }

  /** The first ten first occurrences of well-formed names have the promised shape. */
  lemma CappedFirstOccurrencesShape(ts: seq<string>)
    requires forall x :: x in ts ==> IsTechName(x)
    ensures IsTechStack(Take(FirstOccurrences(ts), 10))
  {
    var fo := FirstOccurrences(ts);
    var r := Take(fo, 10);
    forall k | 0 <= k < |r| ensures IsTechName(r[k]) {
      assert r[k] == fo[k];
      assert fo[k] in fo;
    }
    forall i, j | 0 <= i < j < |r| ensures Lower(r[i]) != Lower(r[j]) {
      assert r[i] == fo[i] && r[j] == fo[j];
    }
  }

  /** At most ten entries, each a stripped, title-cased name of two or more characters with no separator, no two equal ignoring case. */
  lemma TechStackShape(techInput: string)
    ensures IsTechStack(TechStackOf(techInput))
  {
    if Strip(techInput) != [] {
      TokensAreTechNames(techInput);
      CappedFirstOccurrencesShape(Tokens(techInput));
    }
  }

  /** Empty or all-whitespace input gives the empty list. */
  lemma BlankInputGivesNothing(techInput: string)
    requires forall i :: 0 <= i < |techInput| ==> IsSpace(techInput[i])
    ensures TechStackOf(techInput) == []
  {
    StripEmptyIffBlank(techInput);
  }

  /** The cap keeps a prefix of the first occurrences; below the cap it drops no lower-case form. */
  lemma CappedFirstOccurrences(ts: seq<string>)
    ensures var fo := FirstOccurrences(ts);
            var r := Take(fo, 10);
            && r == fo[..|r|]
            && (forall x :: x in r ==> IsFirstEntry(ts, x))
            && (|fo| <= 10 ==> forall x :: x in ts ==> HasClass(r, Lower(x)))
  {
    FirstOccurrencesUpToCover(ts, |ts|);
    var fo := FirstOccurrences(ts);
    var r := Take(fo, 10);
    forall x | x in r ensures IsFirstEntry(ts, x) {
      assert x in fo;
    }
    if |fo| <= 10 {
      forall x | x in ts ensures HasClass(r, Lower(x)) {
        var i :| 0 <= i < |ts| && ts[i] == x;
        assert HasClass(fo, Lower(ts[i]));
      }
    }
  }

  /**
   * The entries are the first occurrences of their lower-case forms among the
   * tokens, in token order (a prefix of them); when there are no more than ten
   * forms, every form among the tokens is kept.
   */
  lemma TechStackKeepsFirstOccurrences(techInput: string)
    requires Strip(techInput) != []
    ensures var fo := FirstOccurrences(Tokens(techInput));
            var r := TechStackOf(techInput);
            && r == fo[..|r|]
            && (forall x :: x in r ==> IsFirstEntry(Tokens(techInput), x))
            && (|fo| <= 10 ==> forall x :: x in Tokens(techInput) ==> HasClass(r, Lower(x)))
  {
    CappedFirstOccurrences(Tokens(techInput));
  }

  /** Cleaning the comma-split join of well-formed names gives the names back. */
  lemma CleanedPadTail(r: seq<string>)
    requires |r| >= 1
    requires forall k :: 0 <= k < |r| ==> IsTechName(r[k])
    ensures Cleaned(PadTail(r)) == r
  {
    var c := Cleaned(PadTail(r));
    forall k | 0 <= k < |r| ensures c[k] == r[k] {
      if k == 0 {
        StripStripped(r[0]);
      } else {
        StripLeadingBlank(r[k]);
      }
    }
  }

  /** The comma-blank join of well-formed, distinct names splits and cleans back into the names. */
  lemma TokensOfJoined(r: seq<string>)
    requires |r| >= 1 && IsTechStack(r)
    ensures Tokens(Join(r, ", ")) == r
  {
    var joined := Join(r, ", ");
    forall c | c in Separators && c != ',' ensures c !in joined {
      JoinAvoids(r, ", ", c);
    }
    NormalizeIdentity(joined, Separators);
    forall k | 0 <= k < |r| ensures ',' !in r[k] {
      assert forall i :: 0 <= i < |r[k]| ==> r[k][i] != ',';
    }
    SplitJoinComma(r);
    CleanedPadTail(r);
    FilterKeepsAll(r, LongEnough);
  }

  /** A list of the promised shape is what parsing its comma-blank join returns. */
  lemma ParseJoined(r: seq<string>)
    requires IsTechStack(r)
    ensures TechStackOf(Join(r, ", ")) == r
  {
    var joined := Join(r, ", ");
    if r == [] {
      assert Strip(joined) == [];
    } else {
      JoinStartsWithFirst(r, ", ");
      StripEmptyIffBlank(joined);
      TokensOfJoined(r);
      FirstOccurrencesOfDistinct(r, |r|);
      assert r[..|r|] == r;
    }
  }

  /** Parsing is idempotent through the display form: re-parsing `", ".join(result)` gives `result` back. */
  lemma TechStackRoundTrip(techInput: string)
    ensures TechStackOf(Join(TechStackOf(techInput), ", ")) == TechStackOf(techInput)
  {
    TechStackShape(techInput);
    ParseJoined(TechStackOf(techInput));
  }
}
