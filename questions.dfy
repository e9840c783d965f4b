/**
 * The technical questions of utils.py: `get_fallback_questions`, which reads
 * the static table in config.py, and the filter `generate_technical_questions`
 * applies to the text a language model returns. The model's reply is a
 * parameter: `None` stands for every path on which no usable text arrives
 * (no client configured, or the call raised).
 */
module Questions {
  import opened Wrappers
  import opened Text
  import opened Config

  // ---------------------------------------------------------------------------
  // get_fallback_questions
  // ---------------------------------------------------------------------------

  /** The table's contribution for one technology: its first two questions, if its lower-case name is a key. */
  function TableQuestions(tech: string): seq<string> {
    var key := Lower(tech);
    if key in FallbackQuestions then Take(FallbackQuestions[key], 2) else []
  }

  /** The questions the table gives for `techs`, in order. */
  function TableHits(techs: seq<string>): seq<string> {
    if techs == [] then []
    else TableHits(techs[..|techs| - 1]) + TableQuestions(techs[|techs| - 1])
  }

  /** How many of `techs` are keys of the table, lower-cased. */
  function HitCount(techs: seq<string>): nat {
    if techs == [] then 0
    else HitCount(techs[..|techs| - 1]) + (if Lower(techs[|techs| - 1]) in FallbackQuestions then 1 else 0)
  }

  /** The four questions used when the table knows none of the technologies. */
  function GenericQuestions(first: string): seq<string> {
    ["Can you explain your experience with " + first + "?",
     "What projects have you worked on using " + first + "?",
     "Describe a challenging technical problem you've solved recently.",
     "How do you stay updated with new technologies in your field?"]
  }

  /** What `get_fallback_questions(tech_stack)` returns. */
  function FallbackQuestionsFor(techStack: seq<string>): seq<string>
    requires |techStack| >= 1
  {
    var hits := TableHits(Take(techStack, 3));
    Take(if hits == [] then GenericQuestions(techStack[0]) else hits, 5)
  }

  /**
   * `get_fallback_questions(tech_stack)`. The source reads `tech_stack[0]`
   * when nothing hits, which raises IndexError for an empty list, so the list
   * must not be empty.
   */
  method GetFallbackQuestions(techStack: seq<string>) returns (questions: seq<string>)
    requires |techStack| >= 1
    ensures questions == FallbackQuestionsFor(techStack)
  {
    var firstThree := Take(techStack, 3);
    var fallback: seq<string> := [];
    for i := 0 to |firstThree|
      invariant fallback == TableHits(firstThree[..i])
    {
      var tech := firstThree[i];
      var techLower := Lower(tech);
      assert firstThree[..i + 1][..i] == firstThree[..i];
      if techLower in FallbackQuestions {
        fallback := fallback + Take(FallbackQuestions[techLower], 2);
      }
    }
    assert firstThree[..|firstThree|] == firstThree;
    if fallback == [] {
      fallback := GenericQuestions(techStack[0]);
    }
    questions := Take(fallback, 5);
  }

  /** Each table hit contributes exactly two questions. */
  lemma {:induction false} TableHitsCount(techs: seq<string>)
    ensures |TableHits(techs)| == 2 * HitCount(techs)
    ensures HitCount(techs) <= |techs|
  {
    if techs != [] {
      FallbackTableShape();
      TableHitsCount(techs[..|techs| - 1]);
    }
  }

  /** Four generic questions when nothing hits, otherwise two per hit among the first three, capped at five. */
  lemma FallbackCount(techStack: seq<string>)
    requires |techStack| >= 1
    ensures var h := HitCount(Take(techStack, 3));
            |FallbackQuestionsFor(techStack)| == if h == 0 then 4 else if 2 * h <= 5 then 2 * h else 5
    ensures 1 <= |FallbackQuestionsFor(techStack)| <= 5
  {
    TableHitsCount(Take(techStack, 3));
  }

  /** Nothing past the third technology is consulted. */
  lemma FallbackReadsFirstThree(techStack: seq<string>, more: seq<string>)
    requires |techStack| >= 3
    ensures FallbackQuestionsFor(techStack + more) == FallbackQuestionsFor(techStack)
  {
    assert Take(techStack + more, 3) == Take(techStack, 3);
  }

  /** When no technology among the first three is in the table, the answer is the generic set naming the first one. */
  lemma FallbackWithoutHits(techStack: seq<string>)
    requires |techStack| >= 1
    requires HitCount(Take(techStack, 3)) == 0
    ensures FallbackQuestionsFor(techStack) == GenericQuestions(techStack[0])
  {
    TableHitsCount(Take(techStack, 3));
  }

  /** "Python, Go" yields the two Python questions of the table and nothing for Go. */
  lemma PythonGoGetsTwo()
    ensures FallbackQuestionsFor(["Python", "Go"]) == Take(FallbackQuestions["python"], 2)
  {
    assert Lower("Python") == "python";
    assert Lower("Go") == "go";
    var ts: seq<string> := ["Python", "Go"];
    assert ts[..1] == ["Python"] && ts[..1][..0] == [];
    assert TableHits(ts) == TableHits(["Python"]) + TableQuestions("Go");
  }

  // ---------------------------------------------------------------------------
  // The filter of generate_technical_questions
  // ---------------------------------------------------------------------------

  predicate HasLetter(q: string) {
    exists i :: 0 <= i < |q| && IsLetter(q[i])
  }

  /** The condition of the list comprehension: a non-blank line with a letter. */
  predicate IsTextLine(q: string) {
    Strip(q) != [] && HasLetter(q)
  }

  /** The test of the validation loop. */
  predicate LooksLikeQuestion(q: string) {
    |q| > 10 && '?' in q
  }

  /** `[q.strip() for q in content.split('\n') if q.strip() and any(char.isalpha() for char in q)]`. */
  function CandidateLines(content: string): seq<string> {
    StripAll(Filter(Split(content, '\n'), IsTextLine))
  }

  /** The validation loop of `generate_technical_questions`. */
  method ValidQuestions(questions: seq<string>) returns (validQuestions: seq<string>)
    ensures validQuestions == Filter(questions, LooksLikeQuestion)
  {
    validQuestions := [];
    for i := 0 to |questions|
      invariant validQuestions == Filter(questions[..i], LooksLikeQuestion)
    {
      var q := questions[i];
      assert questions[..i + 1][..i] == questions[..i];
      if LooksLikeQuestion(q) {
        validQuestions := validQuestions + [q];
      }
    }
    assert questions[..|questions|] == questions;
  }

  /** What `generate_technical_questions(tech_stack)` returns when the model's reply text is `reply`. */
  function GeneratedQuestionsOf(techStack: seq<string>, reply: Option<string>): seq<string>
    requires |techStack| >= 1
  {
    if reply.None? then FallbackQuestionsFor(techStack)
    else
      var valid := Filter(CandidateLines(reply.value), LooksLikeQuestion);
      if valid != [] then valid else FallbackQuestionsFor(techStack)
  }

  /** `generate_technical_questions(tech_stack)`, with the reply of the model (or its absence) passed in. */
  method GenerateTechnicalQuestions(techStack: seq<string>, reply: Option<string>) returns (questions: seq<string>)
    requires |techStack| >= 1
    ensures questions == GeneratedQuestionsOf(techStack, reply)
  {
    if reply.None? {
      questions := GetFallbackQuestions(techStack);
      return;
    }
    var candidates := CandidateLines(reply.value);
    var validQuestions := ValidQuestions(candidates);
    if validQuestions != [] {
      questions := validQuestions;
    } else {
      questions := GetFallbackQuestions(techStack);
    }
  }

  /** Stripping a text line keeps a letter and leaves no whitespace at the ends. */
  lemma StrippedTextLine(line: string)
    requires IsTextLine(line)
    ensures IsStripped(Strip(line)) && Strip(line) != [] && HasLetter(Strip(line))
  {
    var q := Strip(line);
    StripShape(line);
    var i := StripStart(line);
    var j :| 0 <= j < |line| && IsLetter(line[j]);
    assert !IsSpace(line[j]);
    assert i <= j < i + |q|;
    assert q[j - i] == line[j];
  }

  /** Each candidate is a stripped text line of the reply. */
  lemma CandidateLinesShape(content: string)
    ensures forall q :: q in CandidateLines(content) ==>
              && IsStripped(q) && q != [] && HasLetter(q)
              && exists line :: line in Split(content, '\n') && q == Strip(line)
  {
    var lines := Filter(Split(content, '\n'), IsTextLine);
    var cands := CandidateLines(content);
    forall q | q in cands
      ensures IsStripped(q) && q != [] && HasLetter(q)
      ensures exists line :: line in Split(content, '\n') && q == Strip(line)
    {
      var k :| 0 <= k < |cands| && cands[k] == q;
      assert lines[k] in lines;
      StrippedTextLine(lines[k]);
    }
  }

  /** A generated question is a stripped line of the reply with a letter, more than ten characters and a '?'. */
  lemma GeneratedQuestionsAreReplyLines(content: string)
    ensures forall q :: q in Filter(CandidateLines(content), LooksLikeQuestion) ==>
              && IsStripped(q) && q != [] && HasLetter(q) && |q| > 10 && '?' in q
              && exists line :: line in Split(content, '\n') && q == Strip(line)
  {
    CandidateLinesShape(content);
  }

  /** Every line of the reply that passes both tests is kept. */
  lemma GeneratedKeepsPassingLines(content: string)
    ensures forall line :: line in Split(content, '\n') && IsTextLine(line) && LooksLikeQuestion(Strip(line)) ==>
              Strip(line) in Filter(CandidateLines(content), LooksLikeQuestion)
  {
    var lines := Filter(Split(content, '\n'), IsTextLine);
    var cands := CandidateLines(content);
    forall line | line in Split(content, '\n') && IsTextLine(line) && LooksLikeQuestion(Strip(line))
      ensures Strip(line) in Filter(cands, LooksLikeQuestion)
    {
      var k :| 0 <= k < |lines| && lines[k] == line;
      assert cands[k] == Strip(line);
    }
  }

  /** The result falls back to the table exactly when no line of the reply passes, or there is no reply. */
  lemma GeneratedFallsBack(techStack: seq<string>, reply: Option<string>)
    requires |techStack| >= 1
    ensures (reply.None? || Filter(CandidateLines(reply.value), LooksLikeQuestion) == []) ==>
              GeneratedQuestionsOf(techStack, reply) == FallbackQuestionsFor(techStack)
    ensures reply.Some? && Filter(CandidateLines(reply.value), LooksLikeQuestion) != [] ==>
              GeneratedQuestionsOf(techStack, reply) == Filter(CandidateLines(reply.value), LooksLikeQuestion)
  {
  }

  /** A question fit to keep: one line, stripped, with a letter, more than ten characters and a '?'. */
  predicate IsCleanQuestion(q: string) {
    '\n' !in q && IsStripped(q) && HasLetter(q) && LooksLikeQuestion(q)
  }

  lemma CleanQuestionIsTextLine(q: string)
    requires IsCleanQuestion(q)
    ensures IsTextLine(q) && Strip(q) == q
  {
    StripEmptyIffBlank(q);
    var j :| 0 <= j < |q| && IsLetter(q[j]);
    assert !IsSpace(q[j]);
    StripStripped(q);
  }

  /** A reply that is clean questions one per line yields all of them, however many: the path has no cap. */
  lemma GeneratedKeepsEveryCleanLine(qs: seq<string>)
    requires |qs| >= 1
    requires forall k :: 0 <= k < |qs| ==> IsCleanQuestion(qs[k])
    ensures Filter(CandidateLines(Join(qs, "\n")), LooksLikeQuestion) == qs
  {
    SplitJoinChar(qs, '\n');
    assert Join(qs, ['\n']) == Join(qs, "\n");
    forall k | 0 <= k < |qs| ensures IsTextLine(qs[k]) && Strip(qs[k]) == qs[k] {
      CleanQuestionIsTextLine(qs[k]);
    }
    FilterKeepsAll(qs, IsTextLine);
    StripAllStripped(qs);
    FilterKeepsAll(qs, LooksLikeQuestion);
  }
}
