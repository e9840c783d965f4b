/**
 * The deterministic rules of personalization.py: the preference record with
 * its list defaults, the style-dependent greeting and encouragement, the
 * question-difficulty choice, the response-length hint, and the rule that a
 * saved history keeps only the ten most recent conversations.
 */
module Personalization {
  import opened Wrappers
  import opened Text

  /** `UserPreferences`: a dataclass whose list fields default to None and are then replaced by []. */
  class UserPreferences {
    var language: string
    var communicationStyle: string
    var questionDifficulty: string
    var responseLength: string
    var preferredTopics: seq<string>
    var accessibilityNeeds: seq<string>
    var timezone: string

    /** The dataclass constructor followed by `__post_init__`. */
    constructor (language: string, communicationStyle: string, questionDifficulty: string, responseLength: string,
                 preferredTopics: Option<seq<string>>, accessibilityNeeds: Option<seq<string>>, timezone: string)
      ensures this.language == language && this.communicationStyle == communicationStyle
      ensures this.questionDifficulty == questionDifficulty && this.responseLength == responseLength
      ensures this.timezone == timezone
      ensures this.preferredTopics == preferredTopics.GetOr([])
      ensures this.accessibilityNeeds == accessibilityNeeds.GetOr([])
    {
      this.language := language;
      this.communicationStyle := communicationStyle;
      this.questionDifficulty := questionDifficulty;
      this.responseLength := responseLength;
      this.timezone := timezone;
      new;
      if preferredTopics.None? {
        this.preferredTopics := [];
      } else {
        this.preferredTopics := preferredTopics.value;
      }
      if accessibilityNeeds.None? {
        this.accessibilityNeeds := [];
      } else {
        this.accessibilityNeeds := accessibilityNeeds.value;
      }
    }

    /** `UserPreferences()`: every field at its default. */
    constructor Default()
      ensures language == "en" && communicationStyle == "professional"
      ensures questionDifficulty == "adaptive" && responseLength == "medium"
      ensures preferredTopics == [] && accessibilityNeeds == [] && timezone == "UTC"
    {
      language := "en";
      communicationStyle := "professional";
      questionDifficulty := "adaptive";
      responseLength := "medium";
      timezone := "UTC";
      new;
      preferredTopics := [];
      accessibilityNeeds := [];
    }
  }

  // ---------------------------------------------------------------------------
  // The tables built by PersonalizationManager.__init__
  // ---------------------------------------------------------------------------

  datatype Style = Style(greeting: string, encouragement: string, transition: string, closing: string)

  const CommunicationStyles: map<string, Style> := map[
    "casual" := Style("Hey there! 👋", "You're doing great!", "Alright, let's move on to", "Thanks a bunch! Talk soon! 😊"),
    "professional" := Style("Good day! 👋", "Excellent response!", "Now, let's proceed to", "Thank you for your time. We'll be in touch soon."),
    "formal" := Style("Good day, and welcome to TalentScout.", "Your response demonstrates strong competency.",
                      "We shall now proceed to", "We appreciate your participation in this assessment.")]

  datatype Difficulty = Difficulty(promptAddition: string, complexityLevel: nat)

  const DifficultyModifiers: map<string, Difficulty> := map[
    "easy" := Difficulty("Please provide beginner-friendly questions that focus on basic concepts.", 1),
    "medium" := Difficulty("Please provide intermediate-level questions that test practical knowledge.", 2),
    "hard" := Difficulty("Please provide advanced questions that test deep understanding and complex scenarios.", 3),
    "adaptive" := Difficulty("Please provide questions that adapt to the candidate's experience level.", 2)]

  /** `communication_styles.get(style, communication_styles['professional'])`. */
  function StyleOf(communicationStyle: string): Style {
    if communicationStyle in CommunicationStyles then CommunicationStyles[communicationStyle]
    else CommunicationStyles["professional"]
  }

  // ---------------------------------------------------------------------------
  // get_personalized_greeting
  // ---------------------------------------------------------------------------

  /** `get_personalized_greeting(preferences, user_name)`. */
  function GetPersonalizedGreeting(preferences: UserPreferences, userName: string): string
    reads preferences
  {
    var baseGreeting := StyleOf(preferences.communicationStyle).greeting;
    if userName != [] then
      if preferences.communicationStyle == "casual" then baseGreeting + " " + userName + "! Ready to dive in?"
      else if preferences.communicationStyle == "formal" then baseGreeting + " " + userName + ". We are pleased to begin this assessment."
      else baseGreeting + " " + userName + "! Let's get started with your application."
    else baseGreeting
  }

  /**
   * An unknown style greets like the professional one; without a name the
   * greeting is the style's bare greeting; with one, the name follows the
   * greeting and a blank.
   */
  lemma GreetingShape(preferences: UserPreferences, userName: string)
    ensures var g := StyleOf(preferences.communicationStyle).greeting;
            var r := GetPersonalizedGreeting(preferences, userName);
            && (preferences.communicationStyle !in CommunicationStyles ==> g == CommunicationStyles["professional"].greeting)
            && (userName == [] ==> r == g)
            && (userName != [] ==> |r| > |g| + 1 + |userName| && r[..|g| + 1 + |userName|] == g + " " + userName)
  {
    var g := StyleOf(preferences.communicationStyle).greeting;
    var r := GetPersonalizedGreeting(preferences, userName);
    if userName != [] {
      var tail := if preferences.communicationStyle == "casual" then "! Ready to dive in?"
                  else if preferences.communicationStyle == "formal" then ". We are pleased to begin this assessment."
                  else "! Let's get started with your application.";
      assert r == (g + " " + userName) + tail;
    }
  }

  // ---------------------------------------------------------------------------
  // get_personalized_encouragement
  // ---------------------------------------------------------------------------

  /** The reassurance given after a negative score, per style. */
  function Reassurance(communicationStyle: string): string {
    if communicationStyle == "casual" then "No worries at all! You're doing fine. 😊"
    else if communicationStyle == "formal" then "Please proceed with confidence. Your responses are valued."
    else "That's perfectly fine. Take your time with your response."
  }

  /** `get_personalized_encouragement(preferences, sentiment_score)`. */
  function GetPersonalizedEncouragement(preferences: UserPreferences, sentimentScore: real): string
    reads preferences
  {
    var baseEncouragement := StyleOf(preferences.communicationStyle).encouragement;
    if sentimentScore < -0.3 then Reassurance(preferences.communicationStyle)
    else if sentimentScore > 0.3 then baseEncouragement
    else "Thank you for your response."
  }

  /**
   * Three bands of the score: below -0.3 a style-specific reassurance,
   * above 0.3 the style's encouragement, otherwise a plain thank-you; the
   * result is never empty.
   */
  lemma EncouragementBands(preferences: UserPreferences, sentimentScore: real)
    ensures var r := GetPersonalizedEncouragement(preferences, sentimentScore);
            && (sentimentScore < -0.3 ==> r == Reassurance(preferences.communicationStyle))
            && (sentimentScore > 0.3 ==> r == StyleOf(preferences.communicationStyle).encouragement)
            && (-0.3 <= sentimentScore <= 0.3 ==> r == "Thank you for your response.")
            && r != []
  {
  }

  // ---------------------------------------------------------------------------
  // adapt_question_difficulty, get_response_length_modifier
  // ---------------------------------------------------------------------------

  /** The difficulty `adapt_question_difficulty` settles on before its table lookup. */
  function ChosenDifficulty(questionDifficulty: string, experienceYears: real, previousPerformance: real): string {
    if questionDifficulty == "adaptive" then
      var byExperience := if experienceYears < 2.0 then "easy" else if experienceYears < 5.0 then "medium" else "hard";
      if previousPerformance < 0.3 then "easy"
      else if previousPerformance > 0.8 then "hard"
      else byExperience
    else questionDifficulty
  }

  /** `adapt_question_difficulty(preferences, experience_years, previous_performance)`. */
  function AdaptQuestionDifficulty(preferences: UserPreferences, experienceYears: real, previousPerformance: real): string
    reads preferences
  {
    var difficulty := ChosenDifficulty(preferences.questionDifficulty, experienceYears, previousPerformance);
    if difficulty in DifficultyModifiers then DifficultyModifiers[difficulty].promptAddition
    else DifficultyModifiers["medium"].promptAddition
  }

  /**
   * When adaptive, performance decides first (below 0.3 easy, above 0.8
   * hard) and experience otherwise (under 2 years easy, under 5 medium,
   * else hard); never "adaptive" itself. Any other preference is used as
   * given.
   */
  lemma DifficultyChoice(questionDifficulty: string, experienceYears: real, previousPerformance: real)
    ensures var d := ChosenDifficulty(questionDifficulty, experienceYears, previousPerformance);
            && (questionDifficulty != "adaptive" ==> d == questionDifficulty)
            && (questionDifficulty == "adaptive" ==>
                  && d in {"easy", "medium", "hard"}
                  && (previousPerformance < 0.3 ==> d == "easy")
                  && (previousPerformance > 0.8 ==> d == "hard")
                  && (0.3 <= previousPerformance <= 0.8 ==>
                        d == (if experienceYears < 2.0 then "easy" else if experienceYears < 5.0 then "medium" else "hard")))
  {
  }

  /** An unknown difficulty gets the medium prompt; a known one gets its own. */
  lemma DifficultyPrompt(preferences: UserPreferences, experienceYears: real, previousPerformance: real)
    ensures var d := ChosenDifficulty(preferences.questionDifficulty, experienceYears, previousPerformance);
            var r := AdaptQuestionDifficulty(preferences, experienceYears, previousPerformance);
            && (d !in DifficultyModifiers ==> r == "Please provide intermediate-level questions that test practical knowledge.")
            && (d in DifficultyModifiers ==> r == DifficultyModifiers[d].promptAddition)
  {
  }

  const LengthModifiers: map<string, string> := map[
    "short" := "Keep responses concise and to the point.",
    "medium" := "Provide clear and comprehensive responses.",
    "detailed" := "Provide detailed explanations and examples where helpful."]

  /** `get_response_length_modifier(preferences)`. */
  function GetResponseLengthModifier(preferences: UserPreferences): string
    reads preferences
  {
    if preferences.responseLength in LengthModifiers then LengthModifiers[preferences.responseLength]
    else LengthModifiers["medium"]
  }

  /** Any length other than short, medium or detailed gets the medium hint. */
  lemma LengthModifierFallback(preferences: UserPreferences)
    ensures preferences.responseLength !in {"short", "medium", "detailed"} ==>
              GetResponseLengthModifier(preferences) == "Provide clear and comprehensive responses."
    ensures preferences.responseLength in {"short", "medium", "detailed"} ==>
              GetResponseLengthModifier(preferences) == LengthModifiers[preferences.responseLength]
  {
  }

  // ---------------------------------------------------------------------------
  // save_conversation_history: append, then keep the last ten
  // ---------------------------------------------------------------------------

  const HistoryLimit: nat := 10

  /**
   * `existing_history.append(history_dict); existing_history = existing_history[-10:]`:
   * the new record is last, at most ten records are kept, and they are the
   * most recent ones in their order.
   */
  method KeepRecentHistory<T>(existingHistory: seq<T>, record: T) returns (history: seq<T>)
    ensures |history| == if |existingHistory| + 1 <= HistoryLimit then |existingHistory| + 1 else HistoryLimit
    ensures history[|history| - 1] == record
    ensures history == (existingHistory + [record])[|existingHistory| + 1 - |history|..]
  {
    history := existingHistory;
    history := history + [record];
    if |history| > HistoryLimit {
      history := history[|history| - HistoryLimit..];
    }
  }
}
