/**
 * The constant tables of config.py: the interview stages, the prompts that
 * open each stage, the exit words, the e-mail and phone patterns and the
 * fallback question table.
 */
module Config {
  import opened Text

  // ---------------------------------------------------------------------------
  // STAGES
  // ---------------------------------------------------------------------------

  const NAME: nat := 0
  const EMAIL: nat := 1
  const PHONE: nat := 2
  const EXPERIENCE: nat := 3
  const POSITION: nat := 4
  const LOCATION: nat := 5
  const TECH_STACK: nat := 6
  const TECHNICAL_QUESTIONS: nat := 7
  const CONCLUSION: nat := 8

  /** The stage names in interview order. */
  const StageNames: seq<string> :=
    ["NAME", "EMAIL", "PHONE", "EXPERIENCE", "POSITION", "LOCATION",
     "TECH_STACK", "TECHNICAL_QUESTIONS", "CONCLUSION"]

  /** `STAGES`: stage name to stage code. */
  const Stages: map<string, nat> :=
    map["NAME" := NAME, "EMAIL" := EMAIL, "PHONE" := PHONE, "EXPERIENCE" := EXPERIENCE,
        "POSITION" := POSITION, "LOCATION" := LOCATION, "TECH_STACK" := TECH_STACK,
        "TECHNICAL_QUESTIONS" := TECHNICAL_QUESTIONS, "CONCLUSION" := CONCLUSION]

  /** The nine stages carry the codes 0..8 in interview order, so the next stage is code + 1 and CONCLUSION is the last. */
  lemma StagesAreConsecutive()
    ensures |StageNames| == 9
    ensures forall n :: n in Stages <==> n in StageNames
    ensures forall i :: 0 <= i < |StageNames| ==> Stages[StageNames[i]] == i
    ensures forall n :: n in Stages ==> Stages[n] <= Stages["CONCLUSION"]
  {
  }

  // ---------------------------------------------------------------------------
  // STAGE_QUESTIONS and WELCOME_MESSAGE
  // ---------------------------------------------------------------------------

  const WelcomeMessage: string :=
    "Welcome to TalentScout! 👋 \nI'm your AI Hiring Assistant, and I'll be helping you with the initial screening process. \nI'll collect some information about you and ask relevant technical questions based on your expertise.\nLet's get started! Could you please tell me your full name?"

  const EmailQuestion: string := "Great! Could you please provide your email address?"
  const PhoneQuestion: string := "Thank you! What's the best phone number to reach you?"
  const ExperienceQuestion: string := "How many years of professional experience do you have?"
  const PositionQuestion: string := "What position(s) are you interested in?"
  const LocationQuestion: string := "What is your current location?"
  const TechStackQuestion: string :=
    "Please list the technologies you're proficient in (programming languages, frameworks, databases, tools, etc.):"

  /** `STAGE_QUESTIONS`: the prompt that opens each of the stages EMAIL to TECH_STACK. */
  const StageQuestions: map<string, string> :=
    map["EMAIL" := EmailQuestion, "PHONE" := PhoneQuestion, "EXPERIENCE" := ExperienceQuestion,
        "POSITION" := PositionQuestion, "LOCATION" := LocationQuestion, "TECH_STACK" := TechStackQuestion]

  /** Only the six stages EMAIL to TECH_STACK have an opening prompt. */
  lemma StageQuestionsCoverEmailToTechStack()
    ensures StageQuestions.Keys == set i | EMAIL <= i <= TECH_STACK :: StageNames[i]
  {
    assert StageNames[EMAIL] == "EMAIL" && StageNames[PHONE] == "PHONE" && StageNames[EXPERIENCE] == "EXPERIENCE";
    assert StageNames[POSITION] == "POSITION" && StageNames[LOCATION] == "LOCATION" && StageNames[TECH_STACK] == "TECH_STACK";
  }

  // ---------------------------------------------------------------------------
  // EXIT_KEYWORDS
  // ---------------------------------------------------------------------------

  const ExitKeywords: seq<string> := ["quit", "exit", "bye", "goodbye", "end", "stop", "finish", "done"]

  /** Eight distinct, non-empty exit words, each already lower case and free of whitespace. */
  lemma ExitKeywordsShape()
    ensures |ExitKeywords| == 8
    ensures forall i, j :: 0 <= i < j < |ExitKeywords| ==> ExitKeywords[i] != ExitKeywords[j]
    ensures forall i :: 0 <= i < |ExitKeywords| ==> |ExitKeywords[i]| >= 1
    ensures forall i :: 0 <= i < |ExitKeywords| ==> Lower(ExitKeywords[i]) == ExitKeywords[i]
    ensures forall i, j :: 0 <= i < |ExitKeywords| && 0 <= j < |ExitKeywords[i]| ==> !IsSpace(ExitKeywords[i][j])
  {
    forall i | 0 <= i < |ExitKeywords| ensures Lower(ExitKeywords[i]) == ExitKeywords[i] {
      var k := ExitKeywords[i];
      assert forall j :: 0 <= j < |k| ==> IsLower(k[j]);
    }
  }

  // ---------------------------------------------------------------------------
  // EMAIL_PATTERN and PHONE_PATTERN, read as the set of strings they match
  // ---------------------------------------------------------------------------

  /** `[a-zA-Z0-9._%+-]`, the local-part class of `EMAIL_PATTERN`. */
  predicate IsLocalChar(c: char) {
    IsLetter(c) || IsDigit(c) || c == '.' || c == '_' || c == '%' || c == '+' || c == '-'
  }

  /** `[a-zA-Z0-9.-]`, the domain class of `EMAIL_PATTERN`. */
  predicate IsDomainChar(c: char) {
    IsLetter(c) || IsDigit(c) || c == '.' || c == '-'
  }

  predicate AllOf(s: string, p: char -> bool) {
    forall i :: 0 <= i < |s| ==> p(s[i])
  }

  /**
   * `s` is `local + "@" + domain + "." + tld` with the '@' at index `at` and
   * the '.' at index `dot`: one or more local characters, one or more domain
   * characters and at least two letters.
   */
  ghost predicate EmailSplit(s: string, at: int, dot: int) {
    && 1 <= at && at + 2 <= dot && dot + 3 <= |s|
    && s[at] == '@' && s[dot] == '.'
    && AllOf(s[..at], IsLocalChar)
    && AllOf(s[at + 1..dot], IsDomainChar)
    && AllOf(s[dot + 1..], IsLetter)
  }

  /** `^[a-zA-Z0-9._%+-]+@[a-zA-Z0-9.-]+\.[a-zA-Z]{2,}` matched up to the end of `s`. */
  ghost predicate EmailBody(s: string) {
    exists at, dot :: EmailSplit(s, at, dot)
  }

  /** `s` is one of `+`/nothing, then `1`/nothing, then 9 to 15 digits; `p` and `o` say which options are taken. */
  ghost predicate PhoneSplit(s: string, p: int, o: int) {
    && 0 <= p <= 1 && 0 <= o <= 1 && p + o <= |s|
    && (p == 1 ==> s[0] == '+')
    && (o == 1 ==> s[p] == '1')
    && 9 <= |s| - p - o <= 15
    && AllOf(s[p + o..], IsDigit)
  }

  /** `^\+?1?\d{9,15}` matched up to the end of `s`. */
  ghost predicate PhoneBody(s: string) {
    exists p, o :: PhoneSplit(s, p, o)
  }

  // Python's `$` matches at the very end and also just before one final newline.

  /** `re.match(EMAIL_PATTERN, s)` succeeds. */
  ghost predicate MatchesEmailPattern(s: string) {
    EmailBody(s) || (|s| > 0 && s[|s| - 1] == '\n' && EmailBody(s[..|s| - 1]))
  }

  /** `re.match(PHONE_PATTERN, s)` succeeds. */
  ghost predicate MatchesPhonePattern(s: string) {
    PhoneBody(s) || (|s| > 0 && s[|s| - 1] == '\n' && PhoneBody(s[..|s| - 1]))
  }

  // ---------------------------------------------------------------------------
  // FALLBACK_QUESTIONS
  // ---------------------------------------------------------------------------

  const PythonQuestions: seq<string> := [
    "What are the key differences between lists and tuples in Python?",
    "How do you handle exceptions in Python and why is it important?",
    "Explain the concept of decorators in Python with an example.",
    "What is the difference between '==' and 'is' operators in Python?"]

  const JavaScriptQuestions: seq<string> := [
    "What is the difference between 'let', 'const', and 'var' in JavaScript?",
    "How do you handle asynchronous operations in JavaScript?",
    "Explain event bubbling and event capturing in JavaScript.",
    "What are closures in JavaScript and how are they useful?"]

  const ReactQuestions: seq<string> := [
    "What is the difference between state and props in React?",
    "How do you optimize React component performance?",
    "Explain the React component lifecycle methods.",
    "What are React Hooks and why were they introduced?"]

  const NodeQuestions: seq<string> := [
    "What is the event loop in Node.js and how does it work?",
    "How do you handle file operations in Node.js?",
    "What are the differences between Node.js and browser JavaScript?",
    "How do you manage dependencies in a Node.js project?"]

  const SqlQuestions: seq<string> := [
    "What is the difference between INNER JOIN and LEFT JOIN?",
    "How do you optimize a slow-performing SQL query?",
    "Explain the concept of database normalization.",
    "What are indexes and how do they improve query performance?"]

  const JavaQuestions: seq<string> := [
    "What is the difference between abstract classes and interfaces in Java?",
    "How does garbage collection work in Java?",
    "Explain the concept of polymorphism in Java.",
    "What are the main principles of Object-Oriented Programming?"]

  const AwsQuestions: seq<string> := [
    "What are the main differences between EC2, ECS, and Lambda?",
    "How do you secure data in AWS S3 buckets?",
    "Explain the concept of Auto Scaling in AWS.",
    "What is the difference between RDS and DynamoDB?"]

  const DockerQuestions: seq<string> := [
    "What is the difference between a Docker image and a container?",
    "How do you optimize Docker image size?",
    "Explain the purpose of a Dockerfile.",
    "What are the benefits of using Docker in development?"]

  /** The table, keyed by lower-case technology name. */
  const FallbackQuestions: map<string, seq<string>> := map[
    "python" := PythonQuestions,
    "javascript" := JavaScriptQuestions,
    "react" := ReactQuestions,
    "node.js" := NodeQuestions,
    "sql" := SqlQuestions,
    "java" := JavaQuestions,
    "aws" := AwsQuestions,
    "docker" := DockerQuestions]

  /** Every key of the fallback table is lower case and every entry holds four questions, so taking two always yields two. */
  lemma FallbackTableShape()
    ensures forall k :: k in FallbackQuestions ==> Lower(k) == k
    ensures forall k :: k in FallbackQuestions ==> |FallbackQuestions[k]| == 4
  {
    forall k | k in FallbackQuestions ensures Lower(k) == k {
      assert forall j :: 0 <= j < |k| ==> !IsUpper(k[j]);
    }
  }
}
