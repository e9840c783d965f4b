/**
 * The intake conversation of app.py: `process_user_input` as one turn of a
 * state machine over the session, `initialize_session_state`, the "Start
 * New Application" reset, and the chat loop that answers through the
 * response cache.
 *
 * `Turn` is the specification: it maps the session as a value and the
 * candidate's message to the next session and the reply. `Session` keeps
 * the session in place, each key of Streamlit's `session_state` as an
 * optional field (absent until initialised), and its `ProcessUserInput` is
 * proved to do what `Turn` says.
 *
 * What the session cannot compute itself arrives in an `Env`: whether the
 * optional modules loaded, the language library's verdict, Python's
 * `float()` and `str()` on numbers, and the language model's reply.
 */
module Driver {
  import opened Wrappers
  import opened Text
  import opened Config
  import opened Record
  import opened Utils
  import opened TechStack
  import opened Questions
  import M = Multilingual
  import P = Performance

  /** The session as a value: the keys `process_user_input` reads and writes. */
  datatype State = State(stage: int, info: CandidateInfo, started: bool, errorCount: int, language: string)

  /** What a turn depends on besides the session and the message. */
  datatype Env = Env(
    /** `ADVANCED_FEATURES_AVAILABLE`: the optional modules imported. */
    advanced: bool,
    /** The `langdetect` verdict for a text, None where the library is missing or raises. */
    langdetect: string -> Option<string>,
    /** Python's `float()` on a string, None where it raises ValueError. */
    parseFloat: string -> Option<real>,
    /** Python's `str()` on a float. */
    floatText: real -> string,
    /** The language model's reply text for a tech stack, None where no text arrives. */
    llm: seq<string> -> Option<string>)

  /** The state `initialize_session_state` gives a fresh session. */
  const Initial: State := State(NAME, Empty, false, 0, "en")

  // ---------------------------------------------------------------------------
  // The replies of process_user_input
  // ---------------------------------------------------------------------------

  const DefaultExitMessage: string :=
    "Thank you for your time! We appreciate you taking the time to speak with us. Our team will review your information and get back to you soon. Have a great day! 👋"
  const DriftPrefix: string :=
    "I notice we're having some difficulty staying on topic. Let's focus on completing your application. "
  const NameRetry: string := "Please provide your full name (at least 2 characters)."
  const NameReplyLead: string := "Nice to meet you, "
  const EmailRetry: string := "Please provide a valid email address (e.g., john.doe@email.com)."
  const EmailRetryFirm: string :=
    "I'm having trouble with the email format. Please provide a valid email address like: example@company.com"
  const PhoneRetry: string := "Please provide a valid phone number (e.g., +1234567890 or 1234567890)."
  const PhoneRetryFirm: string :=
    "Please provide a valid phone number with 10-15 digits. You can include country code if needed (e.g., +1234567890)."
  const ExperienceRetry: string :=
    "Please provide your experience in years as a number (e.g., 5, 2.5, or 0 for entry level)."
  const ExperienceRetryFirm: string :=
    "Please provide your experience as a number (e.g., '3' for 3 years, '2.5' for 2.5 years, or '0' for entry level)."
  const PositionRetry: string :=
    "Please provide the position you're interested in (e.g., Software Developer, Data Scientist)."
  const LocationRetry: string := "Please provide your current location (e.g., New York, NY or Remote)."
  const TechStackRetry: string :=
    "Please provide at least one technology you're proficient in (e.g., Python, JavaScript, React)."
  const TechStackRetryFirm: string :=
    "Please list at least one technology you know. For example: 'Python, JavaScript' or 'React, Node.js, MongoDB'."
  const AnswersRetry: string := "Please provide more detailed answers to the technical questions."
  const ConclusionReply: string :=
    "Thank you! Your application has been completed. Is there anything else you'd like to add or any questions about the next steps?"

  /** The reply that lists the parsed stack and the generated questions. */
  function TechStackReply(techStack: seq<string>, questions: seq<string>): string {
    "Excellent! I see you're skilled in: " + Join(techStack, ", ")
    + "\n\nHere are some technical questions based on your expertise:\n\n" + Join(questions, "\n")
    + "\n\nPlease provide your answers to these questions:"
  }

  // ---------------------------------------------------------------------------
  // One turn
  // ---------------------------------------------------------------------------

  /** The session language after the detection step: only an English session with a message longer than ten characters is re-detected. */
  function DetectedLanguage(s: State, userInput: string, env: Env): string {
    if env.advanced && s.language == "en" && |userInput| > 10 then
      var detected := M.DetectLanguage(userInput, env.langdetect(userInput));
      if detected != "en" then detected else s.language
    else s.language
  }

  /** The session after the detection step, on which the rest of the turn works. */
  function Detected(s: State, userInput: string, env: Env): State {
    s.(language := DetectedLanguage(s, userInput, env))
  }

  /** The goodbye: translated when the optional modules are loaded, the fixed English text otherwise. */
  function ExitMessage(language: string, advanced: bool): string {
    if advanced then M.Goodbye(language) else DefaultExitMessage
  }

  /** A refused answer that counts as an error: the firm wording from the third error on. */
  function Retry(s: State, firm: string, gentle: string): (State, string) {
    var next := s.(errorCount := s.errorCount + 1);
    (next, if next.errorCount >= 3 then firm else gentle)
  }

  /** NAME: a stripped name of two or more characters is stored and starts the conversation. */
  function NameTurn(s: State, text: string): (State, string) {
    if |text| < 2 then (s, NameRetry)
    else (s.(info := s.info.(name := Some(text)), started := true, stage := EMAIL),
          NameReplyLead + text + "! " + EmailQuestion)
  }

  /** EMAIL: the raw input is checked against the pattern; the stripped input is stored. */
  function EmailTurn(s: State, userInput: string): (State, string) {
    if ValidateEmail(userInput) then
      (s.(info := s.info.(email := Some(Strip(userInput))), stage := PHONE, errorCount := 0), PhoneQuestion)
    else Retry(s, EmailRetryFirm, EmailRetry)
  }

  /** PHONE: as EMAIL, with the phone pattern. */
  function PhoneTurn(s: State, userInput: string): (State, string) {
    if ValidatePhone(userInput) then
      (s.(info := s.info.(phone := Some(Strip(userInput))), stage := EXPERIENCE, errorCount := 0), ExperienceQuestion)
    else Retry(s, PhoneRetryFirm, PhoneRetry)
  }

  /** EXPERIENCE: the parsed number of years is stored. */
  function ExperienceTurn(s: State, userInput: string, parseFloat: string -> Option<real>): (State, string) {
    var years := ValidateExperience(userInput, parseFloat);
    if years.0 then
      (s.(info := s.info.(experience := years.1), stage := POSITION, errorCount := 0), PositionQuestion)
    else Retry(s, ExperienceRetryFirm, ExperienceRetry)
  }

  /** POSITION: a stripped answer of two or more characters is stored. */
  function PositionTurn(s: State, text: string): (State, string) {
    if |text| < 2 then (s, PositionRetry)
    else (s.(info := s.info.(position := Some(text)), stage := LOCATION), LocationQuestion)
  }

  /** LOCATION: a stripped answer of two or more characters is stored. */
  function LocationTurn(s: State, text: string): (State, string) {
    if |text| < 2 then (s, LocationRetry)
    else (s.(info := s.info.(location := Some(text)), stage := TECH_STACK), TechStackQuestion)
  }

  /** TECH_STACK: a non-empty parsed stack is stored with the questions generated for it. */
  function TechStackTurn(s: State, userInput: string, llm: seq<string> -> Option<string>): (State, string) {
    var techStack := TechStackOf(userInput);
    if techStack != [] then
      var questions := GeneratedQuestionsOf(techStack, llm(techStack));
      (s.(info := s.info.(techStack := Some(techStack), technicalQuestions := Some(questions)), stage := TECHNICAL_QUESTIONS),
       TechStackReply(techStack, questions))
    else Retry(s, TechStackRetryFirm, TechStackRetry)
  }

  /** An accepted technology list: both lists stored, the stage advanced, and the questions shown. */
  lemma TechStackAccepted(s: State, userInput: string, llm: seq<string> -> Option<string>, techStack: seq<string>, questions: seq<string>)
    requires techStack == TechStackOf(userInput) && techStack != []
    requires questions == GeneratedQuestionsOf(techStack, llm(techStack))
    ensures TechStackTurn(s, userInput, llm)
            == (s.(info := s.info.(techStack := Some(techStack), technicalQuestions := Some(questions)), stage := TECHNICAL_QUESTIONS),
                TechStackReply(techStack, questions))
  {
  }

  /** TECHNICAL_QUESTIONS: answers of ten or more characters are stored and the summary is shown. */
  function AnswersTurn(s: State, text: string, floatText: real -> string): (State, string) {
    if |text| < 10 then (s, AnswersRetry)
    else
      var info := s.info.(technicalAnswers := Some(text));
      (s.(info := info, stage := CONCLUSION), FormatCandidateSummary(info, floatText))
  }

  /** The `try` block of `process_user_input`: the branch of the current stage. */
  function StageTurn(s: State, userInput: string, env: Env): (State, string) {
    if s.stage == NAME then NameTurn(s, Strip(userInput))
    else if s.stage == EMAIL then EmailTurn(s, userInput)
    else if s.stage == PHONE then PhoneTurn(s, userInput)
    else if s.stage == EXPERIENCE then ExperienceTurn(s, userInput, env.parseFloat)
    else if s.stage == POSITION then PositionTurn(s, Strip(userInput))
    else if s.stage == LOCATION then LocationTurn(s, Strip(userInput))
    else if s.stage == TECH_STACK then TechStackTurn(s, userInput, env.llm)
    else if s.stage == TECHNICAL_QUESTIONS then AnswersTurn(s, Strip(userInput), env.floatText)
    else if s.stage == CONCLUSION then (s, ConclusionReply)
    else (s, "")
  }

  /** A message the context check refuses: one more error, and the drift prefix from the third on. */
  function Refused(s: State, message: string): (State, string) {
    var next := s.(errorCount := s.errorCount + 1);
    (next, if next.errorCount >= 3 then DriftPrefix + message else message)
  }

  /**
   * `process_user_input(user_input)`: language detection, then the exit
   * check, then the context check (which counts an error), then the branch
   * of the current stage.
   */
  function Turn(s: State, userInput: string, env: Env): (State, string) {
    var s1 := Detected(s, userInput, env);
    if IsExitCommand(userInput) then (s1, ExitMessage(s1.language, env.advanced))
    else
      var context := ValidateConversationContext(userInput, s1.stage);
      if !context.0 then Refused(s1, context.1)
      else StageTurn(s1, userInput, env)
  }

  // ---------------------------------------------------------------------------
  // What a turn promises
  // ---------------------------------------------------------------------------

  /** Whether the message passes the exit and context checks and reaches the stage branch. */
  predicate ReachesStage(s: State, userInput: string) {
    !IsExitCommand(userInput) && ValidateConversationContext(userInput, s.stage).0
  }

  /** Which way a turn goes: the goodbye, a refusal by the context check, or the stage branch. */
  lemma TurnCases(s: State, userInput: string, env: Env)
    ensures IsExitCommand(userInput) ==>
              Turn(s, userInput, env) == (Detected(s, userInput, env), ExitMessage(Detected(s, userInput, env).language, env.advanced))
    ensures !IsExitCommand(userInput) && !ReachesStage(s, userInput) ==>
              Turn(s, userInput, env) == Refused(Detected(s, userInput, env), ValidateConversationContext(userInput, s.stage).1)
    ensures ReachesStage(s, userInput) ==> Turn(s, userInput, env) == StageTurn(Detected(s, userInput, env), userInput, env)
  {
  }

  /** Which branch of the `try` block a stage takes. */
  lemma StageCases(s: State, userInput: string, env: Env)
    ensures s.stage == NAME ==> StageTurn(s, userInput, env) == NameTurn(s, Strip(userInput))
    ensures s.stage == EMAIL ==> StageTurn(s, userInput, env) == EmailTurn(s, userInput)
    ensures s.stage == PHONE ==> StageTurn(s, userInput, env) == PhoneTurn(s, userInput)
    ensures s.stage == EXPERIENCE ==> StageTurn(s, userInput, env) == ExperienceTurn(s, userInput, env.parseFloat)
    ensures s.stage == POSITION ==> StageTurn(s, userInput, env) == PositionTurn(s, Strip(userInput))
    ensures s.stage == LOCATION ==> StageTurn(s, userInput, env) == LocationTurn(s, Strip(userInput))
    ensures s.stage == TECH_STACK ==> StageTurn(s, userInput, env) == TechStackTurn(s, userInput, env.llm)
    ensures s.stage == TECHNICAL_QUESTIONS ==> StageTurn(s, userInput, env) == AnswersTurn(s, Strip(userInput), env.floatText)
    ensures s.stage == CONCLUSION ==> StageTurn(s, userInput, env) == (s, ConclusionReply)
    ensures !(NAME <= s.stage <= CONCLUSION) ==> StageTurn(s, userInput, env) == (s, "")
  {
  }

  /** No stage branch touches the language. */
  lemma StageKeepsLanguage(s: State, userInput: string, env: Env)
    ensures StageTurn(s, userInput, env).0.language == s.language
  {
    StageCases(s, userInput, env);
  }

  /** An exit command is answered with the goodbye and changes nothing but the detected language. */
  lemma ExitChangesNothing(s: State, userInput: string, env: Env)
    requires IsExitCommand(userInput)
    ensures var (next, reply) := Turn(s, userInput, env);
            && next == s.(language := next.language)
            && (env.advanced ==> reply == M.Goodbye(next.language))
            && (!env.advanced ==> next == s && reply == DefaultExitMessage)
  {
  }

  /**
   * A message the context check refuses counts one error and is answered
   * with the check's message, behind the drift prefix from the third error
   * on; nothing else changes but the detected language.
   */
  lemma ContextRefusalCounts(s: State, userInput: string, env: Env)
    requires !IsExitCommand(userInput) && !ValidateConversationContext(userInput, s.stage).0
    ensures var (next, reply) := Turn(s, userInput, env);
            var message := ValidateConversationContext(userInput, s.stage).1;
            && next == s.(language := next.language, errorCount := s.errorCount + 1)
            && message != []
            && (s.errorCount + 1 >= 3 ==> reply == DriftPrefix + message)
            && (s.errorCount + 1 < 3 ==> reply == message)
  {
  }

  /** The stage never goes back, and advances by exactly one from a stage before CONCLUSION. */
  predicate StageStep(s: State, next: State) {
    next.stage == s.stage || (NAME <= s.stage < CONCLUSION && next.stage == s.stage + 1)
  }

  /**
   * The error count only grows by one, or is cleared by a successful
   * EMAIL, PHONE or EXPERIENCE answer; the other stages never clear it.
   */
  predicate ErrorStep(s: State, next: State) {
    || next.errorCount == s.errorCount
    || next.errorCount == s.errorCount + 1
    || (next.errorCount == 0 && s.stage in {EMAIL, PHONE, EXPERIENCE} && next.stage == s.stage + 1)
  }

  /** Every stage branch takes at most one step forward and changes the error count only as `ErrorStep` allows. */
  lemma StageTurnSteps(s: State, userInput: string, env: Env)
    ensures StageStep(s, StageTurn(s, userInput, env).0)
    ensures ErrorStep(s, StageTurn(s, userInput, env).0)
  {
    StageCases(s, userInput, env);
  }

  /** A turn never moves the stage back and moves it forward by one at most. */
  lemma StageMonotone(s: State, userInput: string, env: Env)
    ensures StageStep(s, Turn(s, userInput, env).0)
  {
    TurnCases(s, userInput, env);
    StageTurnSteps(Detected(s, userInput, env), userInput, env);
  }

  /** CONCLUSION is final: the record stays as it is, and a message that reaches the stage branch gets the closing reply. */
  lemma ConclusionIsFinal(s: State, userInput: string, env: Env)
    requires s.stage == CONCLUSION
    ensures Turn(s, userInput, env).0.stage == CONCLUSION
    ensures Turn(s, userInput, env).0.info == s.info
    ensures ReachesStage(s, userInput) ==> Turn(s, userInput, env).1 == ConclusionReply
  {
    TurnCases(s, userInput, env);
    StageCases(Detected(s, userInput, env), userInput, env);
  }

  /** A turn changes the error count only as `ErrorStep` allows. */
  lemma ErrorCountChanges(s: State, userInput: string, env: Env)
    ensures ErrorStep(s, Turn(s, userInput, env).0)
  {
    TurnCases(s, userInput, env);
    StageTurnSteps(Detected(s, userInput, env), userInput, env);
  }

  /** The firm and the gentle retry reply of a stage that counts refused answers. */
  function RetryReplies(stage: int): (string, string) {
    if stage == EMAIL then (EmailRetryFirm, EmailRetry)
    else if stage == PHONE then (PhoneRetryFirm, PhoneRetry)
    else if stage == EXPERIENCE then (ExperienceRetryFirm, ExperienceRetry)
    else (TechStackRetryFirm, TechStackRetry)
  }

  /**
   * How the stage branch run on `s` treats the error count, giving `t`. At
   * EMAIL, PHONE, EXPERIENCE and TECH_STACK a refused answer keeps the
   * stage and the record, counts one more error, and is answered with the
   * firm retry from the third error on and the gentle one before; an
   * accepted answer advances the stage and clears the count, except at
   * TECH_STACK, which keeps it. Every other stage leaves the count alone.
   */
  predicate ErrorRule(s: State, t: (State, string)) {
    if s.stage in {EMAIL, PHONE, EXPERIENCE, TECH_STACK} then
      if t.0.stage == s.stage then
        && t.0 == s.(errorCount := s.errorCount + 1)
        && t.1 == (if s.errorCount + 1 >= 3 then RetryReplies(s.stage).0 else RetryReplies(s.stage).1)
      else
        && t.0.stage == s.stage + 1
        && t.0.errorCount == (if s.stage == TECH_STACK then s.errorCount else 0)
    else t.0.errorCount == s.errorCount
  }

  /** Every stage branch follows `ErrorRule`. */
  lemma StageTurnErrorRule(s: State, userInput: string, env: Env)
    ensures ErrorRule(s, StageTurn(s, userInput, env))
  {
    StageCases(s, userInput, env);
    if s.stage in {EMAIL, PHONE, EXPERIENCE, TECH_STACK} {
      CountingStageErrorRule(s, userInput, env);
    } else {
      StageKeepsCount(s, userInput, env);
      KeptCountFollowsRule(s, StageTurn(s, userInput, env));
    }
  }

  /** The four stages that count refused answers follow `ErrorRule`. */
  lemma CountingStageErrorRule(s: State, userInput: string, env: Env)
    requires s.stage in {EMAIL, PHONE, EXPERIENCE, TECH_STACK}
    ensures ErrorRule(s, StageTurn(s, userInput, env))
  {
    StageCases(s, userInput, env);
    if s.stage == EMAIL {
      RetryFollowsRule(s, EmailTurn(s, userInput));
    } else if s.stage == PHONE {
      RetryFollowsRule(s, PhoneTurn(s, userInput));
    } else if s.stage == EXPERIENCE {
      RetryFollowsRule(s, ExperienceTurn(s, userInput, env.parseFloat));
    } else {
      RetryFollowsRule(s, TechStackTurn(s, userInput, env.llm));
    }
  }

  /** At a counting stage, the reply of a refusal or the step of an acceptance meets `ErrorRule`. */
  lemma RetryFollowsRule(s: State, t: (State, string))
    requires s.stage in {EMAIL, PHONE, EXPERIENCE, TECH_STACK}
    requires t.0.stage == s.stage ==> t == Retry(s, RetryReplies(s.stage).0, RetryReplies(s.stage).1)
    requires t.0.stage != s.stage ==> t.0.stage == s.stage + 1 && t.0.errorCount == (if s.stage == TECH_STACK then s.errorCount else 0)
    ensures ErrorRule(s, t)
  {
  }

  /** The stages that do not count refused answers leave the count alone. */
  lemma StageKeepsCount(s: State, userInput: string, env: Env)
    requires s.stage !in {EMAIL, PHONE, EXPERIENCE, TECH_STACK}
    ensures StageTurn(s, userInput, env).0.errorCount == s.errorCount
  {
    StageCases(s, userInput, env);
  }

  /** Away from the counting stages, a kept count is what `ErrorRule` asks. */
  lemma KeptCountFollowsRule(s: State, t: (State, string))
    requires s.stage !in {EMAIL, PHONE, EXPERIENCE, TECH_STACK} && t.0.errorCount == s.errorCount
    ensures ErrorRule(s, t)
  {
  }

  /**
   * A message that reaches the stage branch changes the error count exactly
   * as `ErrorRule` says, counted from the state after language detection.
   */
  lemma ErrorCountRule(s: State, userInput: string, env: Env)
    requires ReachesStage(s, userInput)
    ensures ErrorRule(Detected(s, userInput, env), Turn(s, userInput, env))
  {
    TurnCases(s, userInput, env);
    StageTurnErrorRule(Detected(s, userInput, env), userInput, env);
  }

  /**
   * A name, position, location or answer that is too short is refused
   * without counting an error: nothing but the detected language changes.
   */
  lemma ShortAnswerIsFree(s: State, userInput: string, env: Env)
    requires ReachesStage(s, userInput)
    requires s.stage in {NAME, POSITION, LOCATION, TECHNICAL_QUESTIONS}
    requires |Strip(userInput)| < (if s.stage == TECHNICAL_QUESTIONS then 10 else 2)
    ensures Turn(s, userInput, env).0 == s.(language := DetectedLanguage(s, userInput, env))
    ensures Turn(s, userInput, env).1 in {NameRetry, PositionRetry, LocationRetry, AnswersRetry}
  {
    TurnCases(s, userInput, env);
    StageCases(Detected(s, userInput, env), userInput, env);
  }

  /**
   * After the turn `t` the name is stored, the conversation has started at
   * EMAIL, the error count is still `errorCount`, and the reply opens with
   * the greeting by name and its "!" and goes on.
   */
  predicate GreetsByName(t: (State, string), name: string, errorCount: int) {
    && t.0.info.name == Some(name) && t.0.started && t.0.stage == EMAIL && t.0.errorCount == errorCount
    && |t.1| > |NameReplyLead| + |name| + 1 && t.1[..|NameReplyLead| + |name| + 1] == NameReplyLead + name + "!"
  }

  /** An accepted name is stored stripped and greeted by name before the e-mail question, without touching the error count. */
  lemma NameIsGreeted(s: State, userInput: string, env: Env)
    requires s.stage == NAME && ReachesStage(s, userInput) && |Strip(userInput)| >= 2
    ensures GreetsByName(Turn(s, userInput, env), Strip(userInput), s.errorCount)
  {
    NameReached(s, userInput, env);
    NameTurnGreets(Detected(s, userInput, env), Strip(userInput));
  }

  /** A message that reaches the NAME branch is answered by it, on the stripped text. */
  lemma NameReached(s: State, userInput: string, env: Env)
    requires s.stage == NAME && ReachesStage(s, userInput)
    ensures Turn(s, userInput, env) == NameTurn(Detected(s, userInput, env), Strip(userInput))
  {
    TurnCases(s, userInput, env);
    StageCases(Detected(s, userInput, env), userInput, env);
  }

  /** The NAME branch greets an accepted name. */
  lemma NameTurnGreets(s: State, name: string)
    requires |name| >= 2
    ensures GreetsByName(NameTurn(s, name), name, s.errorCount)
  {
    var lead := NameReplyLead + name + "!";
    var reply := NameTurn(s, name).1;
    assert reply == lead + " " + EmailQuestion;
    PrefixOfConcat(lead + " ", EmailQuestion, |lead|);
    PrefixOfConcat(lead, " ", |lead|);
  }

  /** Cutting a concatenation inside its first part cuts that part. */
  lemma PrefixOfConcat(a: string, b: string, n: nat)
    requires n <= |a|
    ensures |a + b| >= n && (a + b)[..n] == a[..n]
  {
  }

  /** Within a turn, the language is only switched away from English, and only to a supported language. */
  lemma LanguageSwitch(s: State, userInput: string, env: Env)
    ensures var l := Turn(s, userInput, env).0.language;
            l == s.language || (s.language == "en" && env.advanced && |userInput| > 10 && l in M.SupportedLanguages)
  {
    TurnCases(s, userInput, env);
    StageKeepsLanguage(Detected(s, userInput, env), userInput, env);
  }

  // ---------------------------------------------------------------------------
  // The session invariant: a field is present exactly once its stage is passed
  // ---------------------------------------------------------------------------

  /**
   * Every field of the record is present exactly when the conversation is
   * past its stage, and each present field passed its stage's check.
   */
  ghost predicate Consistent(s: State) {
    && NAME <= s.stage <= CONCLUSION
    && s.errorCount >= 0
    && (s.started <==> s.stage > NAME)
    && (s.info.name.Some? <==> s.stage > NAME)
    && (s.info.email.Some? <==> s.stage > EMAIL)
    && (s.info.phone.Some? <==> s.stage > PHONE)
    && (s.info.experience.Some? <==> s.stage > EXPERIENCE)
    && (s.info.position.Some? <==> s.stage > POSITION)
    && (s.info.location.Some? <==> s.stage > LOCATION)
    && (s.info.techStack.Some? <==> s.stage > TECH_STACK)
    && (s.info.technicalQuestions.Some? <==> s.stage > TECH_STACK)
    && (s.info.technicalAnswers.Some? <==> s.stage > TECHNICAL_QUESTIONS)
    && (s.info.name.Some? ==> |s.info.name.value| >= 2)
    && (s.info.email.Some? ==> s.info.email.value != [])
    && (s.info.phone.Some? ==> s.info.phone.value != [])
    && (s.info.position.Some? ==> |s.info.position.value| >= 2)
    && (s.info.location.Some? ==> |s.info.location.value| >= 2)
    && (s.info.techStack.Some? ==> s.info.techStack.value != [] && IsTechStack(s.info.techStack.value))
    && (s.info.technicalAnswers.Some? ==> |s.info.technicalAnswers.value| >= 10)
  }

  lemma InitialConsistent()
    ensures Consistent(Initial)
  {
  }

  /** An address the pattern accepts has a non-blank character, so its stripped form is not empty. */
  lemma AcceptedEmailNotBlank(userInput: string)
    requires ValidateEmail(userInput)
    ensures Strip(userInput) != []
  {
    if IsEmailBody(userInput) {
      EmailBodyStartsLocal(userInput);
    } else {
      EmailBodyStartsLocal(userInput[..|userInput| - 1]);
      assert userInput[..|userInput| - 1][0] == userInput[0];
    }
    NonBlankStrips(userInput, 0);
  }

  /** A number the pattern accepts has a non-blank character, so its stripped form is not empty. */
  lemma AcceptedPhoneNotBlank(userInput: string)
    requires ValidatePhone(userInput)
    ensures Strip(userInput) != []
  {
    var body := if IsPhoneBody(userInput) then userInput else userInput[..|userInput| - 1];
    var k := PhoneBodyHasDigit(body);
    assert userInput[k] == body[k];
    NonBlankStrips(userInput, k);
  }

  /** A phone body has a digit right after its optional '+'. */
  lemma PhoneBodyHasDigit(body: string) returns (k: nat)
    requires IsPhoneBody(body)
    ensures k < |body| && IsDigit(body[k])
  {
    var digits := PhoneDigits(body);
    assert IsDigit(digits[0]);
    k := |body| - |digits|;
    assert digits[0] == body[k];
  }

  /** A string with a character that is not whitespace does not strip to nothing. */
  lemma NonBlankStrips(s: string, k: nat)
    requires k < |s| && !IsSpace(s[k])
    ensures Strip(s) != []
  {
    StripEmptyIffBlank(s);
  }

  /** Every stage branch keeps a consistent session consistent. */
  lemma StageKeepsConsistent(s: State, userInput: string, env: Env)
    requires Consistent(s)
    ensures Consistent(StageTurn(s, userInput, env).0)
  {
    StageCases(s, userInput, env);
    if s.stage == NAME {
      NameKeepsConsistent(s, Strip(userInput));
    } else if s.stage == EMAIL {
      EmailKeepsConsistent(s, userInput);
    } else if s.stage == PHONE {
      PhoneKeepsConsistent(s, userInput);
    } else if s.stage == EXPERIENCE {
      ExperienceKeepsConsistent(s, userInput, env.parseFloat);
    } else if s.stage == POSITION {
      PositionKeepsConsistent(s, Strip(userInput));
    } else if s.stage == LOCATION {
      LocationKeepsConsistent(s, Strip(userInput));
    } else if s.stage == TECH_STACK {
      TechStackKeepsConsistent(s, userInput, env.llm);
    } else if s.stage == TECHNICAL_QUESTIONS {
      AnswersKeepsConsistent(s, Strip(userInput), env.floatText);
    }
  }

  /** A refusal that counts an error keeps the session consistent. */
  lemma RetryKeepsConsistent(s: State, firm: string, gentle: string)
    requires Consistent(s)
    ensures Consistent(Retry(s, firm, gentle).0)
  {
  }

  lemma NameKeepsConsistent(s: State, text: string)
    requires Consistent(s) && s.stage == NAME
    ensures Consistent(NameTurn(s, text).0)
  {
  }

  lemma EmailKeepsConsistent(s: State, userInput: string)
    requires Consistent(s) && s.stage == EMAIL
    ensures Consistent(EmailTurn(s, userInput).0)
  {
    if ValidateEmail(userInput) {
      AcceptedEmailNotBlank(userInput);
    } else {
      RetryKeepsConsistent(s, EmailRetryFirm, EmailRetry);
    }
  }

  lemma PhoneKeepsConsistent(s: State, userInput: string)
    requires Consistent(s) && s.stage == PHONE
    ensures Consistent(PhoneTurn(s, userInput).0)
  {
    if ValidatePhone(userInput) {
      AcceptedPhoneNotBlank(userInput);
    } else {
      RetryKeepsConsistent(s, PhoneRetryFirm, PhoneRetry);
    }
  }

  lemma ExperienceKeepsConsistent(s: State, userInput: string, parseFloat: string -> Option<real>)
    requires Consistent(s) && s.stage == EXPERIENCE
    ensures Consistent(ExperienceTurn(s, userInput, parseFloat).0)
  {
    if !ValidateExperience(userInput, parseFloat).0 {
      RetryKeepsConsistent(s, ExperienceRetryFirm, ExperienceRetry);
    }
  }

  lemma PositionKeepsConsistent(s: State, text: string)
    requires Consistent(s) && s.stage == POSITION
    ensures Consistent(PositionTurn(s, text).0)
  {
  }

  lemma LocationKeepsConsistent(s: State, text: string)
    requires Consistent(s) && s.stage == LOCATION
    ensures Consistent(LocationTurn(s, text).0)
  {
  }

  lemma TechStackKeepsConsistent(s: State, userInput: string, llm: seq<string> -> Option<string>)
    requires Consistent(s) && s.stage == TECH_STACK
    ensures Consistent(TechStackTurn(s, userInput, llm).0)
  {
    TechStackShape(userInput);
    if TechStackOf(userInput) == [] {
      RetryKeepsConsistent(s, TechStackRetryFirm, TechStackRetry);
    }
  }

  lemma AnswersKeepsConsistent(s: State, text: string, floatText: real -> string)
    requires Consistent(s) && s.stage == TECHNICAL_QUESTIONS
    ensures Consistent(AnswersTurn(s, text, floatText).0)
  {
  }

  /** Every turn keeps the session consistent. */
  lemma TurnKeepsConsistent(s: State, userInput: string, env: Env)
    requires Consistent(s)
    ensures Consistent(Turn(s, userInput, env).0)
  {
    TurnCases(s, userInput, env);
    if ReachesStage(s, userInput) {
      StageKeepsConsistent(Detected(s, userInput, env), userInput, env);
    }
  }

  /** How many keys of the record's dictionary a consistent session at `stage` holds. */
  function FieldCount(stage: int): (n: nat)
    ensures n <= |FieldOrder|
  {
    if stage <= NAME then 0
    else if stage <= TECH_STACK then stage
    else if stage == TECHNICAL_QUESTIONS then 8
    else 9
  }

  /** The record of a consistent session holds exactly the keys of the stages passed, in the order they are asked. */
  lemma ConsistentKeys(s: State)
    requires Consistent(s)
    ensures Keys(s.info) == FieldOrder[..FieldCount(s.stage)]
  {
    KeysArePrefix(s.info, FieldCount(s.stage));
  }
  // ---------------------------------------------------------------------------
  // The session kept in place
  // ---------------------------------------------------------------------------

  /** An entry of `st.session_state.messages`. */
  datatype Message = Message(role: string, content: string)

  /** Streamlit's `session_state`: each key is absent (None) until something sets it. */
  class Session {
    var stage: Option<int>
    var candidateInfo: Option<CandidateInfo>
    var messages: Option<seq<Message>>
    var conversationStarted: Option<bool>
    var errorCount: Option<int>
    var userLanguage: Option<string>

    /** A new browser session: no key is set. */
    constructor ()
      ensures stage.None? && candidateInfo.None? && messages.None?
      ensures conversationStarted.None? && errorCount.None? && userLanguage.None?
    {
      stage, candidateInfo, messages := None, None, None;
      conversationStarted, errorCount, userLanguage := None, None, None;
    }

    /** The keys `process_user_input` reads are set. */
    predicate Ready(advanced: bool)
      reads this
    {
      stage.Some? && candidateInfo.Some? && conversationStarted.Some? && errorCount.Some?
      && (advanced ==> userLanguage.Some?)
    }

    /** The session as a value; the language reads "en" while the key is unset, which only happens without the optional modules. */
    function Snapshot(): State
      reads this`stage, this`candidateInfo, this`conversationStarted, this`errorCount, this`userLanguage
      requires stage.Some? && candidateInfo.Some? && conversationStarted.Some? && errorCount.Some?
    {
      State(stage.value, candidateInfo.value, conversationStarted.value, errorCount.value, userLanguage.GetOr("en"))
    }

    /** `initialize_session_state()`: every missing key gets its default; a key already set is left alone. */
    method Initialize(advanced: bool)
      modifies this
      ensures Ready(advanced) && messages.Some?
      ensures stage == if old(stage).None? then Some(NAME) else old(stage)
      ensures candidateInfo == if old(candidateInfo).None? then Some(Empty) else old(candidateInfo)
      ensures messages == if old(messages).None? then Some([Message("assistant", WelcomeMessage)]) else old(messages)
      ensures conversationStarted == if old(conversationStarted).None? then Some(false) else old(conversationStarted)
      ensures errorCount == if old(errorCount).None? then Some(0) else old(errorCount)
      ensures userLanguage == if advanced && old(userLanguage).None? then Some("en") else old(userLanguage)
    {
      if stage.None? {
        stage := Some(NAME);
      }
      if candidateInfo.None? {
        candidateInfo := Some(Empty);
      }
      if messages.None? {
        messages := Some([Message("assistant", WelcomeMessage)]);
      }
      if conversationStarted.None? {
        conversationStarted := Some(false);
      }
      if errorCount.None? {
        errorCount := Some(0);
      }
      if advanced && userLanguage.None? {
        userLanguage := Some("en");
      }
    }

    /** The "Start New Application" button: every key is deleted. */
    method Reset()
      modifies this
      ensures stage.None? && candidateInfo.None? && messages.None?
      ensures conversationStarted.None? && errorCount.None? && userLanguage.None?
    {
      stage, candidateInfo, messages := None, None, None;
      conversationStarted, errorCount, userLanguage := None, None, None;
    }

    /** Reset followed by the re-run's initialisation: a fresh consistent session showing only the welcome. */
    method StartNewApplication(advanced: bool)
      modifies this
      ensures Ready(advanced) && Snapshot() == Initial && Consistent(Snapshot())
      ensures messages == Some([Message("assistant", WelcomeMessage)])
    {
      Reset();
      Initialize(advanced);
      InitialConsistent();
    }

    /** The NAME branch, given the stripped message. */
    method NameStage(text: string) returns (response: string)
      requires Ready(false)
      modifies this
      ensures Ready(false)
      ensures (Snapshot(), response) == NameTurn(old(Snapshot()), text)
      ensures messages == old(messages) && userLanguage == old(userLanguage)
    {
      if |text| < 2 {
        return NameRetry;
      }
      candidateInfo := Some(candidateInfo.value.(name := Some(text)));
      conversationStarted := Some(true);
      response := NameReplyLead + text + "! " + EmailQuestion;
      stage := Some(EMAIL);
    }

    /** The EMAIL branch. */
    method EmailStage(userInput: string) returns (response: string)
      requires Ready(false)
      modifies this
      ensures Ready(false)
      ensures (Snapshot(), response) == EmailTurn(old(Snapshot()), userInput)
      ensures messages == old(messages) && userLanguage == old(userLanguage)
    {
      if ValidateEmail(userInput) {
        Accept(candidateInfo.value.(email := Some(Strip(userInput))), PHONE);
        response := PhoneQuestion;
      } else {
        response := CountRetry(EmailRetryFirm, EmailRetry);
      }
    }

    /** The PHONE branch. */
    method PhoneStage(userInput: string) returns (response: string)
      requires Ready(false)
      modifies this
      ensures Ready(false)
      ensures (Snapshot(), response) == PhoneTurn(old(Snapshot()), userInput)
      ensures messages == old(messages) && userLanguage == old(userLanguage)
    {
      if ValidatePhone(userInput) {
        Accept(candidateInfo.value.(phone := Some(Strip(userInput))), EXPERIENCE);
        response := ExperienceQuestion;
      } else {
        response := CountRetry(PhoneRetryFirm, PhoneRetry);
      }
    }

    /** The EXPERIENCE branch. */
    method ExperienceStage(userInput: string, parseFloat: string -> Option<real>) returns (response: string)
      requires Ready(false)
      modifies this
      ensures Ready(false)
      ensures (Snapshot(), response) == ExperienceTurn(old(Snapshot()), userInput, parseFloat)
      ensures messages == old(messages) && userLanguage == old(userLanguage)
    {
      var (isValid, years) := ValidateExperience(userInput, parseFloat);
      if isValid {
        Accept(candidateInfo.value.(experience := years), POSITION);
        response := PositionQuestion;
      } else {
        response := CountRetry(ExperienceRetryFirm, ExperienceRetry);
      }
    }

    /** The POSITION branch, given the stripped message. */
    method PositionStage(text: string) returns (response: string)
      requires Ready(false)
      modifies this
      ensures Ready(false)
      ensures (Snapshot(), response) == PositionTurn(old(Snapshot()), text)
      ensures messages == old(messages) && userLanguage == old(userLanguage)
    {
      if |text| < 2 {
        return PositionRetry;
      }
      candidateInfo := Some(candidateInfo.value.(position := Some(text)));
      response := LocationQuestion;
      stage := Some(LOCATION);
    }

    /** The LOCATION branch, given the stripped message. */
    method LocationStage(text: string) returns (response: string)
      requires Ready(false)
      modifies this
      ensures Ready(false)
      ensures (Snapshot(), response) == LocationTurn(old(Snapshot()), text)
      ensures messages == old(messages) && userLanguage == old(userLanguage)
    {
      if |text| < 2 {
        return LocationRetry;
      }
      candidateInfo := Some(candidateInfo.value.(location := Some(text)));
      response := TechStackQuestion;
      stage := Some(TECH_STACK);
    }

    /** The accepting branch of the technology stage: both lists stored, the stage advanced, the questions shown. */
    method AcceptTechStack(techStack: seq<string>, technicalQuestions: seq<string>) returns (response: string)
      requires Ready(false)
      modifies this
      ensures Ready(false)
      ensures Snapshot() == old(Snapshot()).(info := old(candidateInfo.value).(techStack := Some(techStack), technicalQuestions := Some(technicalQuestions)),
                                             stage := TECHNICAL_QUESTIONS)
      ensures response == TechStackReply(techStack, technicalQuestions)
      ensures messages == old(messages) && userLanguage == old(userLanguage)
    {
      candidateInfo := Some(candidateInfo.value.(techStack := Some(techStack)));
      candidateInfo := Some(candidateInfo.value.(technicalQuestions := Some(technicalQuestions)));
      response := TechStackReply(techStack, technicalQuestions);
      stage := Some(TECHNICAL_QUESTIONS);
    }

    /** An accepted answer at EMAIL, PHONE or EXPERIENCE: the updated record is stored, the stage advances and the errors are cleared. */
    method Accept(info: CandidateInfo, nextStage: int)
      requires Ready(false)
      modifies this
      ensures Ready(false)
      ensures Snapshot() == old(Snapshot()).(info := info, stage := nextStage, errorCount := 0)
      ensures messages == old(messages) && userLanguage == old(userLanguage)
    {
      candidateInfo := Some(info);
      stage := Some(nextStage);
      errorCount := Some(0);
    }

    /** A rejected answer: one more error, and the firm wording from the third on. */
    method CountRetry(firm: string, gentle: string) returns (response: string)
      requires Ready(false)
      modifies this
      ensures Ready(false)
      ensures (Snapshot(), response) == Retry(old(Snapshot()), firm, gentle)
      ensures messages == old(messages) && userLanguage == old(userLanguage)
    {
      errorCount := Some(errorCount.value + 1);
      response := if errorCount.value >= 3 then firm else gentle;
    }

    /** The TECH_STACK branch: the stack is parsed and the questions generated by the methods that compute them. */
    method TechStackStage(userInput: string, llm: seq<string> -> Option<string>) returns (response: string)
      requires Ready(false)
      modifies this
      ensures Ready(false)
      ensures Snapshot() == TechStackTurn(old(Snapshot()), userInput, llm).0
      ensures response == TechStackTurn(old(Snapshot()), userInput, llm).1
      ensures messages == old(messages) && userLanguage == old(userLanguage)
    {
      var techStack := ParseTechStack(userInput);
      if techStack != [] {
        var technicalQuestions := GenerateTechnicalQuestions(techStack, llm(techStack));
        response := AcceptTechStack(techStack, technicalQuestions);
        TechStackAccepted(old(Snapshot()), userInput, llm, techStack, technicalQuestions);
      } else {
        response := CountRetry(TechStackRetryFirm, TechStackRetry);
      }
    }

    /** The TECHNICAL_QUESTIONS branch, given the stripped message. */
    method AnswersStage(text: string, floatText: real -> string) returns (response: string)
      requires Ready(false)
      modifies this
      ensures Ready(false)
      ensures (Snapshot(), response) == AnswersTurn(old(Snapshot()), text, floatText)
      ensures messages == old(messages) && userLanguage == old(userLanguage)
    {
      if |text| < 10 {
        return AnswersRetry;
      }
      candidateInfo := Some(candidateInfo.value.(technicalAnswers := Some(text)));
      response := FormatCandidateSummary(candidateInfo.value, floatText);
      stage := Some(CONCLUSION);
    }

    /** The `try` block of `process_user_input`, on the session in place. */
    method RunStage(userInput: string, env: Env) returns (response: string)
      requires Ready(env.advanced)
      modifies this
      ensures Ready(env.advanced)
      ensures (Snapshot(), response) == StageTurn(old(Snapshot()), userInput, env)
      ensures messages == old(messages) && userLanguage == old(userLanguage)
    {
      StageCases(Snapshot(), userInput, env);
      var currentStage := stage.value;
      response := "";
      if currentStage == NAME {
        response := NameStage(Strip(userInput));
      } else if currentStage == EMAIL {
        response := EmailStage(userInput);
      } else if currentStage == PHONE {
        response := PhoneStage(userInput);
      } else if currentStage == EXPERIENCE {
        response := ExperienceStage(userInput, env.parseFloat);
      } else if currentStage == POSITION {
        response := PositionStage(Strip(userInput));
      } else if currentStage == LOCATION {
        response := LocationStage(Strip(userInput));
      } else if currentStage == TECH_STACK {
        response := TechStackStage(userInput, env.llm);
      } else if currentStage == TECHNICAL_QUESTIONS {
        response := AnswersStage(Strip(userInput), env.floatText);
      } else if currentStage == CONCLUSION {
        response := ConclusionReply;
      }
    }

    /** The refusal branch of `process_user_input`: one more error, and the drift prefix from the third on. */
    method CountRefusal(contextMessage: string) returns (response: string)
      requires errorCount.Some? && Ready(false)
      modifies this
      ensures Ready(false) && stage == old(stage) && candidateInfo == old(candidateInfo)
      ensures (Snapshot(), response) == Refused(old(Snapshot()), contextMessage)
      ensures messages == old(messages) && userLanguage == old(userLanguage)
    {
      errorCount := Some(errorCount.value + 1);
      if errorCount.value >= 3 {
        return DriftPrefix + contextMessage;
      }
      return contextMessage;
    }

    /** The exit message chosen before the exit test: `get_translation("goodbye", …)` when the optional modules are loaded. */
    static method ExitMessageFor(language: string, advanced: bool) returns (exitMessage: string)
      ensures exitMessage == ExitMessage(language, advanced)
    {
      exitMessage := DefaultExitMessage;
      if advanced {
        exitMessage := M.GetTranslation("goodbye", language);
        M.GoodbyeIsTranslation(language);
      }
    }

    /** `process_user_input(user_input)`, on the session in place: it does what `Turn` says. */
    method ProcessUserInput(userInput: string, env: Env) returns (response: string)
      requires Ready(env.advanced)
      modifies this
      ensures Ready(env.advanced)
      ensures (Snapshot(), response) == Turn(old(Snapshot()), userInput, env)
      ensures messages == old(messages)
      ensures !env.advanced ==> userLanguage == old(userLanguage)
    {
      TurnCases(Snapshot(), userInput, env);
      if env.advanced {
        if userLanguage.value == "en" && |userInput| > 10 {
          var detectedLang := M.DetectLanguage(userInput, env.langdetect(userInput));
          if detectedLang != "en" {
            userLanguage := Some(detectedLang);
          }
        }
      }
      var exitMessage := ExitMessageFor(userLanguage.GetOr("en"), env.advanced);
      if IsExitCommand(userInput) {
        return exitMessage;
      }
      var currentStage := stage.value;
      var (isValid, contextMessage) := ValidateConversationContext(userInput, currentStage);
      if !isValid {
        response := CountRefusal(contextMessage);
        return;
      }
      response := RunStage(userInput, env);
    }

    /**
     * The cached call of `process_user_input` (app.py:493-509): keyed by the
     * message and the current stage, a fresh entry is returned without
     * running the turn, so the session does not change; otherwise the turn
     * runs and, with the optional modules loaded, its reply is stored.
     */
    method AnswerThroughCache(userInput: string, env: Env, optimizer: P.PerformanceOptimizer<(string, int), string>, now: int)
      returns (response: string)
      requires Ready(env.advanced) && optimizer.Valid()
      modifies this, optimizer
      ensures Ready(env.advanced) && optimizer.Valid() && messages == old(messages)
      ensures env.advanced && old(optimizer.Fresh((userInput, stage.value), now)) ==>
                && response == old(optimizer.cache[(userInput, stage.value)])
                && Snapshot() == old(Snapshot())
                && optimizer.cache == old(optimizer.cache)
                && optimizer.cacheTtl == old(optimizer.cacheTtl)
                && optimizer.totalCalls == old(optimizer.totalCalls)
      ensures !(env.advanced && old(optimizer.Fresh((userInput, stage.value), now))) ==>
                (Snapshot(), response) == Turn(old(Snapshot()), userInput, env)
      ensures env.advanced && !old(optimizer.Fresh((userInput, stage.value), now)) ==>
                && optimizer.cache == old(optimizer.cache)[(userInput, old(stage.value)) := response]
                && optimizer.cacheTtl == old(optimizer.cacheTtl)[(userInput, old(stage.value)) := now + P.ResponseCacheDuration * P.MicrosPerSecond]
                && optimizer.totalCalls == old(optimizer.totalCalls) + 1
      ensures !env.advanced ==>
                && optimizer.cache == old(optimizer.cache)
                && optimizer.cacheTtl == old(optimizer.cacheTtl)
                && optimizer.totalCalls == old(optimizer.totalCalls)
    {
      if env.advanced {
        response := CachedProcess(userInput, env, optimizer, now);
      } else {
        response := ProcessUserInput(userInput, env);
      }
    }

    /** The cached path, taken when the optional modules are loaded. */
    method CachedProcess(userInput: string, env: Env, optimizer: P.PerformanceOptimizer<(string, int), string>, now: int)
      returns (response: string)
      requires env.advanced && Ready(true) && optimizer.Valid()
      modifies this, optimizer
      ensures Ready(true) && optimizer.Valid() && messages == old(messages)
      ensures old(optimizer.Fresh((userInput, stage.value), now)) ==>
                && response == old(optimizer.cache[(userInput, stage.value)])
                && Snapshot() == old(Snapshot())
                && optimizer.cache == old(optimizer.cache)
                && optimizer.cacheTtl == old(optimizer.cacheTtl)
                && optimizer.totalCalls == old(optimizer.totalCalls)
      ensures !old(optimizer.Fresh((userInput, stage.value), now)) ==>
                && (Snapshot(), response) == Turn(old(Snapshot()), userInput, env)
                && optimizer.cache == old(optimizer.cache)[(userInput, old(stage.value)) := response]
                && optimizer.cacheTtl == old(optimizer.cacheTtl)[(userInput, old(stage.value)) := now + P.ResponseCacheDuration * P.MicrosPerSecond]
                && optimizer.totalCalls == old(optimizer.totalCalls) + 1
    {
      var key := (userInput, stage.value);
      var hit := optimizer.Probe(key, now);
      if hit.Some? {
        response := hit.value;
      } else {
        response := ProcessAndStore(userInput, env, optimizer, now);
        P.StoreAfterRemove(old(optimizer.cache), key, response);
        P.StoreAfterRemove(old(optimizer.cacheTtl), key, now + P.ResponseCacheDuration * P.MicrosPerSecond);
      }
    }

    /** A cache miss: the turn runs and its reply is stored under the message and the stage it was given at. */
    method ProcessAndStore(userInput: string, env: Env, optimizer: P.PerformanceOptimizer<(string, int), string>, now: int)
      returns (response: string)
      requires Ready(env.advanced) && optimizer.Valid()
      modifies this, optimizer
      ensures Ready(env.advanced) && optimizer.Valid() && messages == old(messages)
      ensures (Snapshot(), response) == Turn(old(Snapshot()), userInput, env)
      ensures optimizer.cache == old(optimizer.cache)[(userInput, old(stage.value)) := response]
      ensures optimizer.cacheTtl == old(optimizer.cacheTtl)[(userInput, old(stage.value)) := now + P.ResponseCacheDuration * P.MicrosPerSecond]
      ensures optimizer.totalCalls == old(optimizer.totalCalls) + 1
    {
      var key := (userInput, stage.value);
      response := ProcessUserInput(userInput, env);
      optimizer.Store(key, response, now, P.ResponseCacheDuration);
    }

    /**
     * One message of the chat loop (app.py:493-509, 524): the message is
     * logged, answered through the response cache, and the answer is logged.
     */
    method HandleChatInput(userInput: string, env: Env, optimizer: P.PerformanceOptimizer<(string, int), string>, now: int)
      returns (response: string)
      requires Ready(env.advanced) && messages.Some? && optimizer.Valid()
      modifies this, optimizer
      ensures Ready(env.advanced) && messages.Some? && optimizer.Valid()
      ensures messages.value == old(messages.value) + [Message("user", userInput), Message("assistant", response)]
      ensures env.advanced && old(optimizer.Fresh((userInput, stage.value), now)) ==>
                && response == old(optimizer.cache[(userInput, stage.value)])
                && Snapshot() == old(Snapshot())
                && optimizer.cache == old(optimizer.cache)
                && optimizer.cacheTtl == old(optimizer.cacheTtl)
                && optimizer.totalCalls == old(optimizer.totalCalls)
      ensures !(env.advanced && old(optimizer.Fresh((userInput, stage.value), now))) ==>
                (Snapshot(), response) == Turn(old(Snapshot()), userInput, env)
      ensures env.advanced && !old(optimizer.Fresh((userInput, stage.value), now)) ==>
                && optimizer.cache == old(optimizer.cache)[(userInput, old(stage.value)) := response]
                && optimizer.cacheTtl == old(optimizer.cacheTtl)[(userInput, old(stage.value)) := now + P.ResponseCacheDuration * P.MicrosPerSecond]
                && optimizer.totalCalls == old(optimizer.totalCalls) + 1
      ensures !env.advanced ==>
                && optimizer.cache == old(optimizer.cache)
                && optimizer.cacheTtl == old(optimizer.cacheTtl)
                && optimizer.totalCalls == old(optimizer.totalCalls)
    {
      messages := Some(messages.value + [Message("user", userInput)]);
      response := AnswerThroughCache(userInput, env, optimizer, now);
      messages := Some(messages.value + [Message("assistant", response)]);
    }

    /**
     * The same message twice within the cache's five minutes, at a stage
     * the first turn leaves as it was (a refused e-mail address, say): the
     * first is answered by the turn and its reply cached; the second gets
     * that reply back from the cache, and the session, its error count
     * included, does not change again.
     */
    method RepeatedInputIsReplayed(userInput: string, env: Env, optimizer: P.PerformanceOptimizer<(string, int), string>, now: int, later: int)
      returns (r1: string, r2: string, after: State)
      requires env.advanced && Ready(true) && messages.Some? && optimizer.Valid()
      requires !optimizer.Fresh((userInput, stage.value), now)
      requires Turn(Snapshot(), userInput, env).0.stage == stage.value
      requires now <= later < now + P.ResponseCacheDuration * P.MicrosPerSecond
      modifies this, optimizer
      ensures Ready(true) && messages.Some? && optimizer.Valid()
      ensures (after, r1) == Turn(old(Snapshot()), userInput, env)
      ensures r2 == r1 && Snapshot() == after
      ensures messages.value == old(messages.value) + [Message("user", userInput), Message("assistant", r1),
                                                       Message("user", userInput), Message("assistant", r1)]
    {
      r1 := HandleChatInput(userInput, env, optimizer, now);
      after := Snapshot();
      r2 := HandleChatInput(userInput, env, optimizer, later);
    }
  }
}
