/**
 * The lookup rules of multilingual_support.py: the twelve supported
 * languages, the phrase tables of four of them, the translation fallback
 * chain, keyword language detection, the word-level "translation", the flag
 * prefix, the right-to-left style and the language-specific prompt.
 */
module Multilingual {
  import opened Wrappers
  import opened Text

  datatype LanguageConfig = LanguageConfig(code: string, name: string, flag: string, rtl: bool)

  // ---------------------------------------------------------------------------
  // The tables built by MultilingualManager.__init__
  // ---------------------------------------------------------------------------

  const SupportedLanguages: map<string, LanguageConfig> := map[
    "en" := LanguageConfig("en", "English", "🇺🇸", false),
    "es" := LanguageConfig("es", "Español", "🇪🇸", false),
    "fr" := LanguageConfig("fr", "Français", "🇫🇷", false),
    "de" := LanguageConfig("de", "Deutsch", "🇩🇪", false),
    "it" := LanguageConfig("it", "Italiano", "🇮🇹", false),
    "pt" := LanguageConfig("pt", "Português", "🇵🇹", false),
    "zh" := LanguageConfig("zh", "中文", "🇨🇳", false),
    "ja" := LanguageConfig("ja", "日本語", "🇯🇵", false),
    "ko" := LanguageConfig("ko", "한국어", "🇰🇷", false),
    "ar" := LanguageConfig("ar", "العربية", "🇸🇦", true),
    "hi" := LanguageConfig("hi", "हिन्दी", "🇮🇳", false),
    "ru" := LanguageConfig("ru", "Русский", "🇷🇺", false)]

  /** The closing phrase of each phrase table. */
  const EnglishGoodbye: string :=
    "Thank you for your time! We appreciate you taking the time to speak with us. Have a great day! 👋"
  const SpanishGoodbye: string :=
    "¡Gracias por tu tiempo! Apreciamos que hayas dedicado tiempo a hablar con nosotros. ¡Que tengas un gran día! 👋"
  const FrenchGoodbye: string :=
    "Merci pour votre temps ! Nous apprécions que vous ayez pris le temps de parler avec nous. Passez une excellente journée ! 👋"
  const GermanGoodbye: string :=
    "Vielen Dank für Ihre Zeit! Wir schätzen es, dass Sie sich die Zeit genommen haben, mit uns zu sprechen. Haben Sie einen großartigen Tag! 👋"

  const EnglishPhrases: map<string, string> := map[
    "welcome_message" := "Welcome to TalentScout! 👋 I'm your AI Hiring Assistant, and I'll be helping you with the initial screening process.",
    "name_question" := "Could you please tell me your full name?",
    "email_question" := "Great! Could you please provide your email address?",
    "phone_question" := "Thank you! What's the best phone number to reach you?",
    "experience_question" := "How many years of professional experience do you have?",
    "position_question" := "What position(s) are you interested in?",
    "location_question" := "What is your current location?",
    "tech_stack_question" := "Please list the technologies you're proficient in (programming languages, frameworks, databases, tools, etc.):",
    "technical_questions_intro" := "Great! Here are some technical questions based on your expertise:",
    "thank_you" := "Thank you for completing the initial screening! Our team will review your information and get back to you soon.",
    "invalid_email" := "Please provide a valid email address.",
    "invalid_phone" := "Please provide a valid phone number.",
    "invalid_experience" := "Please provide your experience in years (e.g., 5 or 2.5).",
    "goodbye" := EnglishGoodbye]

  const SpanishPhrases: map<string, string> := map[
    "welcome_message" := "¡Bienvenido a TalentScout! 👋 Soy tu Asistente de Contratación IA y te ayudaré con el proceso de selección inicial.",
    "name_question" := "¿Podrías decirme tu nombre completo?",
    "email_question" := "¡Excelente! ¿Podrías proporcionar tu dirección de correo electrónico?",
    "phone_question" := "¡Gracias! ¿Cuál es el mejor número de teléfono para contactarte?",
    "experience_question" := "¿Cuántos años de experiencia profesional tienes?",
    "position_question" := "¿En qué puesto(s) estás interesado?",
    "location_question" := "¿Cuál es tu ubicación actual?",
    "tech_stack_question" := "Por favor, enumera las tecnologías en las que eres competente (lenguajes de programación, frameworks, bases de datos, herramientas, etc.):",
    "technical_questions_intro" := "¡Excelente! Aquí tienes algunas preguntas técnicas basadas en tu experiencia:",
    "thank_you" := "¡Gracias por completar la selección inicial! Nuestro equipo revisará tu información y se pondrá en contacto contigo pronto.",
    "invalid_email" := "Por favor, proporciona una dirección de correo electrónico válida.",
    "invalid_phone" := "Por favor, proporciona un número de teléfono válido.",
    "invalid_experience" := "Por favor, proporciona tu experiencia en años (ej., 5 o 2.5).",
    "goodbye" := SpanishGoodbye]

  const FrenchPhrases: map<string, string> := map[
    "welcome_message" := "Bienvenue chez TalentScout ! 👋 Je suis votre Assistant de Recrutement IA et je vais vous aider avec le processus de sélection initial.",
    "name_question" := "Pourriez-vous me dire votre nom complet ?",
    "email_question" := "Parfait ! Pourriez-vous fournir votre adresse e-mail ?",
    "phone_question" := "Merci ! Quel est le meilleur numéro de téléphone pour vous joindre ?",
    "experience_question" := "Combien d'années d'expérience professionnelle avez-vous ?",
    "position_question" := "À quel(s) poste(s) êtes-vous intéressé(e) ?",
    "location_question" := "Quelle est votre localisation actuelle ?",
    "tech_stack_question" := "Veuillez énumérer les technologies que vous maîtrisez (langages de programmation, frameworks, bases de données, outils, etc.) :",
    "technical_questions_intro" := "Parfait ! Voici quelques questions techniques basées sur votre expertise :",
    "thank_you" := "Merci d'avoir complété la sélection initiale ! Notre équipe examinera vos informations et vous recontactera bientôt.",
    "invalid_email" := "Veuillez fournir une adresse e-mail valide.",
    "invalid_phone" := "Veuillez fournir un numéro de téléphone valide.",
    "invalid_experience" := "Veuillez indiquer votre expérience en années (ex., 5 ou 2.5).",
    "goodbye" := FrenchGoodbye]

  const GermanPhrases: map<string, string> := map[
    "welcome_message" := "Willkommen bei TalentScout! 👋 Ich bin Ihr KI-Recruiting-Assistent und helfe Ihnen beim ersten Auswahlverfahren.",
    "name_question" := "Könnten Sie mir bitte Ihren vollständigen Namen nennen?",
    "email_question" := "Großartig! Könnten Sie bitte Ihre E-Mail-Adresse angeben?",
    "phone_question" := "Danke! Wie lautet die beste Telefonnummer, um Sie zu erreichen?",
    "experience_question" := "Wie viele Jahre Berufserfahrung haben Sie?",
    "position_question" := "An welcher/welchen Position(en) sind Sie interessiert?",
    "location_question" := "Wo befinden Sie sich derzeit?",
    "tech_stack_question" := "Bitte listen Sie die Technologien auf, in denen Sie kompetent sind (Programmiersprachen, Frameworks, Datenbanken, Tools, etc.):",
    "technical_questions_intro" := "Großartig! Hier sind einige technische Fragen basierend auf Ihrer Expertise:",
    "thank_you" := "Vielen Dank für das Abschließen der ersten Auswahl! Unser Team wird Ihre Informationen prüfen und sich bald bei Ihnen melden.",
    "invalid_email" := "Bitte geben Sie eine gültige E-Mail-Adresse an.",
    "invalid_phone" := "Bitte geben Sie eine gültige Telefonnummer an.",
    "invalid_experience" := "Bitte geben Sie Ihre Erfahrung in Jahren an (z.B. 5 oder 2.5).",
    "goodbye" := GermanGoodbye]

  /** `self.translations`: phrase tables exist for English, Spanish, French and German only. */
  const Translations: map<string, map<string, string>> :=
    map["en" := EnglishPhrases, "es" := SpanishPhrases, "fr" := FrenchPhrases, "de" := GermanPhrases]

  /** The fourteen phrase keys. */
  const PhraseKeys: set<string> :=
    {"welcome_message", "name_question", "email_question", "phone_question", "experience_question",
     "position_question", "location_question", "tech_stack_question", "technical_questions_intro",
     "thank_you", "invalid_email", "invalid_phone", "invalid_experience", "goodbye"}

  /** The four phrase tables have the same fourteen keys. */
  lemma EnglishKeys() ensures EnglishPhrases.Keys == PhraseKeys {}
  lemma SpanishKeys() ensures SpanishPhrases.Keys == PhraseKeys {}
  lemma FrenchKeys() ensures FrenchPhrases.Keys == PhraseKeys {}
  lemma GermanKeys() ensures GermanPhrases.Keys == PhraseKeys {}

  /** Each supported code maps to its own configuration, and only Arabic is right-to-left. */
  lemma SupportedShape()
    ensures forall l :: l in SupportedLanguages ==> SupportedLanguages[l].code == l
    ensures forall l :: l in SupportedLanguages ==> (SupportedLanguages[l].rtl <==> l == "ar")
  {
  }

  // ---------------------------------------------------------------------------
  // get_translation
  // ---------------------------------------------------------------------------

  /** `get_translation(key, language)`: the language's phrase, else the English phrase, else the key itself. */
  function GetTranslation(key: string, language: string): string {
    if language in Translations && key in Translations[language] then Translations[language][key]
    else if key in Translations["en"] then Translations["en"][key]
    else key
  }

  /** The "goodbye" phrase in a language: its own where a table exists, otherwise the English one. */
  function Goodbye(language: string): string {
    if language == "es" then SpanishGoodbye
    else if language == "fr" then FrenchGoodbye
    else if language == "de" then GermanGoodbye
    else EnglishGoodbye
  }

  /** `Goodbye` is `get_translation("goodbye", language)`. */
  lemma GoodbyeIsTranslation(language: string)
    ensures Goodbye(language) == GetTranslation("goodbye", language)
  {
    if language in Translations {
      OwnPhrase("goodbye", language);
      GoodbyeEntry(language);
    } else {
      EnglishFallback("goodbye", language);
    }
  }

  /** Each table's "goodbye" entry is that language's goodbye. */
  lemma GoodbyeEntry(language: string)
    requires language in Translations
    ensures Translations[language]["goodbye"] == Goodbye(language)
  {
    if language == "en" { assert Translations[language] == EnglishPhrases; }
    else if language == "es" { assert Translations[language] == SpanishPhrases; }
    else if language == "fr" { assert Translations[language] == FrenchPhrases; }
    else { assert Translations[language] == GermanPhrases; }
  }

  /** The four table languages answer a phrase key from their own table. */
  lemma OwnPhrase(key: string, language: string)
    requires key in PhraseKeys && language in Translations
    ensures GetTranslation(key, language) == Translations[language][key]
  {
    TableKeys(language);
  }

  /** Every phrase table has the fourteen keys. */
  lemma TableKeys(language: string)
    requires language in Translations
    ensures Translations[language].Keys == PhraseKeys
  {
    if language == "en" { EnglishKeys(); }
    else if language == "es" { SpanishKeys(); }
    else if language == "fr" { FrenchKeys(); }
    else { GermanKeys(); }
  }

  /** Any other code, supported or not, falls back to the English phrase. */
  lemma EnglishFallback(key: string, language: string)
    requires key in PhraseKeys && language !in Translations
    ensures GetTranslation(key, language) == EnglishPhrases[key]
  {
    EnglishKeys();
  }

  /** A key outside the tables is returned as it is. */
  lemma UnknownKeyIsKept(key: string, language: string)
    requires key !in PhraseKeys
    ensures GetTranslation(key, language) == key
  {
    EnglishKeys();
    if language in Translations {
      NotInAnyTable(key, language);
    }
  }

  lemma NotInAnyTable(key: string, language: string)
    requires key !in PhraseKeys && language in Translations
    ensures key !in Translations[language]
  {
    TableKeys(language);
  }

  // ---------------------------------------------------------------------------
  // _detect_language_simple
  // ---------------------------------------------------------------------------

  const SpanishIndicators: seq<string> := ["hola", "gracias", "por favor", "sí", "no", "español"]
  const FrenchIndicators: seq<string> := ["bonjour", "merci", "oui", "non", "français", "je suis"]
  const GermanIndicators: seq<string> := ["hallo", "danke", "ja", "nein", "deutsch", "ich bin"]

  /** `_detect_language_simple(text)`: Spanish, then French, then German indicators; the first hit wins. */
  function DetectLanguageSimple(text: string): (r: string)
    ensures r in {"es", "fr", "de", "en"}
  {
    var textLower := Lower(text);
    if ContainsAny(textLower, SpanishIndicators) then "es"
    else if ContainsAny(textLower, FrenchIndicators) then "fr"
    else if ContainsAny(textLower, GermanIndicators) then "de"
    else "en"
  }

  /**
   * Each verdict is the first indicator list, in the order Spanish, French,
   * German, one of whose words is a slice of the lowered text.
   */
  lemma DetectionOrder(text: string)
    ensures var l := Lower(text);
            && (DetectLanguageSimple(text) == "es" <==> MentionsAny(l, SpanishIndicators))
            && (DetectLanguageSimple(text) == "fr" <==> !MentionsAny(l, SpanishIndicators) && MentionsAny(l, FrenchIndicators))
            && (DetectLanguageSimple(text) == "de" <==>
                  !MentionsAny(l, SpanishIndicators) && !MentionsAny(l, FrenchIndicators) && MentionsAny(l, GermanIndicators))
            && (DetectLanguageSimple(text) == "en" <==>
                  !MentionsAny(l, SpanishIndicators) && !MentionsAny(l, FrenchIndicators) && !MentionsAny(l, GermanIndicators))
  {
    var l := Lower(text);
    ContainsAnyIffMentionsAny(l, SpanishIndicators);
    ContainsAnyIffMentionsAny(l, FrenchIndicators);
    ContainsAnyIffMentionsAny(l, GermanIndicators);
  }

  /**
   * `detect_language(text)`: the library's verdict when it gives one and the
   * code is supported ('en' for an unsupported one), the keyword detection
   * when the library is missing or fails (`library` is None).
   */
  function DetectLanguage(text: string, library: Option<string>): (r: string)
    ensures r in SupportedLanguages
    ensures library.None? ==> r == DetectLanguageSimple(text)
    ensures library.Some? && library.value in SupportedLanguages ==> r == library.value
    ensures library.Some? && library.value !in SupportedLanguages ==> r == "en"
  {
    if library.Some? then (if library.value in SupportedLanguages then library.value else "en")
    else DetectLanguageSimple(text)
  }

  /** Any text with "no" in it, in any case and inside any word, is taken for Spanish. */
  lemma NoMeansSpanish(text: string, i: int)
    requires OccursAt(Lower(text), "no", i)
    ensures DetectLanguageSimple(text) == "es"
  {
    ContainsAt(Lower(text), "no", i);
    assert SpanishIndicators[4] == "no";
  }

  /** Because of that, the French indicator "non" can never decide: "Non" is Spanish. */
  lemma FrenchNonIsSpanish()
    ensures DetectLanguageSimple("Non") == "es"
  {
    assert Lower("Non") == "non";
    NoMeansSpanish("Non", 0);
  }

  // ---------------------------------------------------------------------------
  // translate_text
  // ---------------------------------------------------------------------------

  /** The replacement words for `Welcome` and `welcome` in the three target languages. */
  const WelcomeWords: map<string, (string, string)> :=
    map["es" := ("Bienvenido", "bienvenido"), "fr" := ("Bienvenue", "bienvenue"), "de" := ("Willkommen", "willkommen")]

  /** `translate_text(text, target_language)`. */
  function TranslateText(text: string, targetLanguage: string): string {
    if targetLanguage in WelcomeWords && Contains(Lower(text), "welcome") then
      var (upper, lower) := WelcomeWords[targetLanguage];
      Replace(Replace(text, "Welcome", upper), "welcome", lower)
    else text
  }

  /** Only Spanish, French and German targets change anything, and only texts that mention "welcome" in some case. */
  lemma TranslateIdentity(text: string, targetLanguage: string)
    requires targetLanguage !in {"es", "fr", "de"} || !Occurs(Lower(text), "welcome")
    ensures TranslateText(text, targetLanguage) == text
  {
    ContainsIffOccurs(Lower(text), "welcome");
  }

  /** A text in which "welcome" occurs only capitalised, once at the start, gets exactly that word replaced. */
  lemma TranslateLeadingWelcome(rest: string, targetLanguage: string)
    requires targetLanguage in WelcomeWords
    requires 'W' !in rest && 'w' !in rest
    ensures TranslateText("Welcome" + rest, targetLanguage) == WelcomeWords[targetLanguage].0 + rest
  {
    var text := "Welcome" + rest;
    var (upper, lower) := WelcomeWords[targetLanguage];
    assert OccursAt(Lower(text), "welcome", 0) by {
      LowerConcat("Welcome", rest);
      assert Lower("Welcome") == "welcome";
    }
    ContainsAt(Lower(text), "welcome", 0);
    assert text[..7] == "Welcome" && text[7..] == rest;
    ReplaceSkipsPrefix(rest, [], "Welcome", upper);
    ReplaceSkipsPrefix(rest, [], "welcome", lower);
    assert rest + [] == rest;
    assert Replace(text, "Welcome", upper) == upper + rest;
    assert 'w' !in upper;
    ReplaceSkipsPrefix(upper, rest, "welcome", lower);
  }

  // ---------------------------------------------------------------------------
  // get_rtl_css, format_message_with_language
  // ---------------------------------------------------------------------------

  const RtlCss: string :=
    "\n            <style>\n            .stApp {\n                direction: rtl;\n                text-align: right;\n            }\n            .stTextInput > div > div > input {\n                text-align: right;\n            }\n            </style>\n            "

  /** `get_rtl_css(language)`. */
  function GetRtlCss(language: string): string {
    if language in SupportedLanguages && SupportedLanguages[language].rtl then RtlCss else ""
  }

  /** The right-to-left style is produced for Arabic and for no other code. */
  lemma RtlOnlyForArabic(language: string)
    ensures GetRtlCss(language) != "" <==> language == "ar"
  {
    SupportedShape();
  }

  /** `format_message_with_language(message, language)`. */
  function FormatMessageWithLanguage(message: string, language: string): string {
    if language in SupportedLanguages then SupportedLanguages[language].flag + " " + message else message
  }

  /** The flag and a blank are prefixed exactly for supported codes; the message follows unchanged. */
  lemma FlagPrefix(message: string, language: string)
    ensures language in SupportedLanguages ==>
              var p := SupportedLanguages[language].flag + " ";
              var r := FormatMessageWithLanguage(message, language);
              |r| == |p| + |message| && r[..|p|] == p && r[|p|..] == message
    ensures language !in SupportedLanguages ==> FormatMessageWithLanguage(message, language) == message
  {
  }

  // ---------------------------------------------------------------------------
  // get_language_specific_prompts
  // ---------------------------------------------------------------------------

  const LanguageNames: map<string, string> :=
    map["en" := "English", "es" := "Spanish", "fr" := "French", "de" := "German", "it" := "Italian",
        "pt" := "Portuguese", "zh" := "Chinese", "ja" := "Japanese", "ko" := "Korean", "ar" := "Arabic",
        "hi" := "Hindi", "ru" := "Russian"]

  const PromptLead: string := "Based on the candidate's tech stack: "
  const TechStackPlaceholder: string := "{tech_stack}"
  const PromptAsk: string := "\nGenerate 3-5 relevant technical questions in "
  const PromptCriteria: string :=
    " that:\n1. Assess fundamental understanding\n2. Test practical application knowledge  \n3. Evaluate problem-solving abilities\nFormat the response as a numbered list of questions in "

  /** `base_prompt.format(tech_stack='{tech_stack}', language=name)`. */
  function AssessmentPrompt(name: string): string {
    PromptLead + TechStackPlaceholder + PromptAsk + name + PromptCriteria + name + "."
  }

  /** `get_language_specific_prompts(language)`. */
  function GetLanguageSpecificPrompts(language: string): map<string, string> {
    var languageName := if language in LanguageNames then LanguageNames[language] else "English";
    map["tech_assessment_prompt" := AssessmentPrompt(languageName)]
  }

  /** The language names cover exactly the supported codes. */
  lemma NamesCoverSupported()
    ensures LanguageNames.Keys == SupportedLanguages.Keys
  {
  }

  /**
   * The prompt keeps the `{tech_stack}` placeholder right after its lead
   * for a later `format`, and asks in the language named.
   */
  lemma AssessmentPromptShape(name: string)
    ensures var p := AssessmentPrompt(name);
            var k := |PromptLead| + |TechStackPlaceholder| + |PromptAsk|;
            && OccursAt(p, TechStackPlaceholder, |PromptLead|)
            && p[k..k + |name|] == name
  {
    var p := AssessmentPrompt(name);
    var k := |PromptLead| + |TechStackPlaceholder| + |PromptAsk|;
    var head := PromptLead + TechStackPlaceholder + PromptAsk;
    var rest := name + PromptCriteria + name + ".";
    assert p == head + rest;
    assert p[|PromptLead|..|PromptLead| + |TechStackPlaceholder|] == head[|PromptLead|..|PromptLead| + |TechStackPlaceholder|];
    assert p[k..k + |name|] == rest[..|name|];
  }

  /** The prompt table has the one key `tech_assessment_prompt`, in the language's name or in English. */
  lemma PromptLanguage(language: string)
    ensures GetLanguageSpecificPrompts(language).Keys == {"tech_assessment_prompt"}
    ensures language in LanguageNames ==>
              GetLanguageSpecificPrompts(language)["tech_assessment_prompt"] == AssessmentPrompt(LanguageNames[language])
    ensures language !in LanguageNames ==>
              GetLanguageSpecificPrompts(language)["tech_assessment_prompt"] == AssessmentPrompt("English")
  {
  }

  /** An unknown code gets the English prompt. */
  lemma UnknownLanguagePrompt(language: string)
    requires language !in LanguageNames
    ensures GetLanguageSpecificPrompts(language) == GetLanguageSpecificPrompts("en")
  {
  }
}
