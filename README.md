# TalentScout hiring assistant: a Dafny model

TalentScout's hiring assistant is a Streamlit chat application. It screens a
job candidate in a fixed sequence of stages: name, email, phone, years of
experience, desired position, location, tech stack, technical questions
and conclusion. Each stage validates the candidate's message and fills in
one field of the candidate record. A wrong answer is counted, and repeated
wrong answers get a firmer hint. An exit word ends the conversation. An
off-topic or inappropriate message is refused, and that also counts.

This project models the application's deterministic core and proves its
properties:

- `Driver` models app.py.
  - `Turn` is one call of `process_user_input`, written as a function from
    the session value and the message to the next session and the reply.
  - `Session` is a class that holds the session state in place. Each
    `session_state` key is an optional field, absent until
    `initialize_session_state` sets it.
  - `Session.ProcessUserInput` is proved to do what `Turn` says.
    `HandleChatInput` adds the chat loop: it appends the messages and, when
    the optional modules are loaded, answers through the five-minute
    response cache keyed by (message, stage).
  - Lemmas over `Turn`:
    - the stage moves forward by at most one;
    - the conclusion stage is final;
    - an exit word changes nothing but the language;
    - refusals and retries are counted;
    - a valid name is greeted by name;
    - the consistency invariant `Consistent` (which record fields are
      present at which stage, and their shapes) holds from the first state
      on. The record's keys are then always a prefix of the insertion order.
- `Utils`, `TechStack` and `Questions` model utils.py:
  - the email and phone validators, proved equal to a direct reading of
    the regular expressions in config.py;
  - the exit-word test and the experience parser;
  - the context check and the unexpected-input reply;
  - the summary text;
  - `parse_tech_stack`: split on the separators, title-case, first
    occurrence of each name ignoring case, at most ten. Re-parsing its own
    comma-joined output gives the same list back;
  - the fallback questions and the filter applied to the language model's
    reply.
- `Config` holds the tables of config.py.
- `Record` is the candidate record, with its dictionary view in insertion
  order.
- `DataHandler` models data_handler.py: sanitising, the completeness check,
  the Markdown report, the CSV rows and the default export file name.
- `Multilingual` models multilingual_support.py: the phrase tables and
  their lookup with fallback, keyword language detection, the welcome
  translation, the right-to-left style, the flag prefix and the prompts.
- `Personalization` models personalization.py: the preference record and
  its list defaults, greeting, encouragement, question difficulty, the
  response-length hint, and the history that keeps the last ten.
- `Performance` models the `timed_cache` of performance_optimizer.py as a
  class with the two dictionaries `cache` and `cacheTtl`, which always
  share one key set. It also covers cleanup, preloading, clearing and the
  hit ratio.
- `Text` and `Wrappers` are the string and option helpers the rest builds
  on. They cover Python's `strip`, `lower`, `title`, `split`, `join`,
  `replace` and `in` on strings, for ASCII text.

Everything the program cannot compute itself is a parameter:

- whether the optional modules loaded (`Env.advanced`);
- the `langdetect` verdict;
- Python's `float()` and `str()` on numbers;
- the language model's reply;
- the SHA-256 digest;
- the clock (an integer instant in microseconds) and the rendered
  timestamps.

Some consequences of the code that its own wording does not suggest:

- Stack "Python, Go" yields only two fallback questions: the table has no
  `go` entry, and each technology found contributes two
  (`Questions.PythonGoGetsTwo`).
- A nine-digit phone number is accepted, although the firm retry message
  asks for 10-15 digits (`Utils.PhoneExamples`).
- "Non" is taken as Spanish, because the Spanish indicator "no" is checked
  first and matches inside it (`Multilingual.FrenchNonIsSpanish`).
- "Newsome" is refused as off-topic, because it contains "news"
  (`Utils.NewsomeIsOffTopic`).
- A negative experience such as "-2 years" is accepted (`Utils.NegativeExperienceAccepted`).

## Model

| member | source | states |
|---|---|---|
| Config.StagesAreConsecutive | config.py:28-38 | the nine stages are numbered 0 to 8 in order, and CONCLUSION is the largest |
| Config.StageQuestionsCoverEmailToTechStack | config.py:41-48 | there is a stage question for exactly the stages EMAIL to TECH_STACK |
| Config.ExitKeywordsShape | config.py:72 | eight distinct, non-empty, lower-case exit words without blanks |
| Config.FallbackTableShape | config.py:79-128 | every key of the fallback table is lower case and has exactly four questions |
| Utils.PaddedExitWord | utils.py:45-47 | an exit word in any case, with blanks around it, is an exit command |
| Utils.ExitCommandIsPadded | utils.py:45-47 | an exit command is an exit word surrounded only by blanks |
| Utils.ExitCommandIffPadded | utils.py:45-47 | an input is an exit command exactly when it splits into blanks, an exit word in any case, and blanks |
| Utils.ExitSplitIsExit | utils.py:45-47 | each such split makes the input an exit command |
| Utils.MultiWordIsNotExit | utils.py:45-47 | a stripped text with a blank inside is never an exit command |
| Utils.DoneNowIsNotExit | utils.py:45-47 | "I'm done now" is not an exit command: the whole stripped text must be an exit word |
| Utils.EmailBodyCorrect | config.py:75 | the email test is equivalent to the pattern: local part, '@', domain, last '.', at least two letters |
| Utils.ValidateEmailMatchesPattern | utils.py:37-39 | `validate_email` accepts exactly the strings the email pattern matches |
| Utils.EmailRejectsLeadingSpace | utils.py:37-39 | an address that starts with a blank is rejected |
| Utils.PhoneDigits | utils.py:41-43 | removing an optional leading '+' leaves the text or its tail |
| Utils.PhoneBodyCorrect | config.py:76 | the phone test is equivalent to the pattern: optional '+', optional '1', then 9 to 15 digits |
| Utils.ValidatePhoneMatchesPattern | utils.py:41-43 | `validate_phone` accepts exactly the strings the phone pattern matches |
| Utils.PhoneExamples | utils.py:41-43 | "+1234567890" and "1234567890" pass, "123-456-7890" fails, and nine digits pass where eight fail |
| Utils.ValidateExperience | utils.py:49-55 | the experience counts as valid exactly when a number was parsed |
| Utils.ExperienceIgnoresUnit | utils.py:49-55 | " years" or " year" after a plain number makes no difference to the result |
| Utils.NegativeExperienceAccepted | utils.py:49-55 | a negative number followed by " years" is accepted with its value: there is no lower bound |
| Utils.ValidateConversationContext | utils.py:185-207 | a message is accepted exactly when no refusal text is returned |
| Utils.ContextChecksInOrder | utils.py:185-207 | off-topic words are checked first, then inappropriate words, then the email-stage '@' test; each refusal happens exactly under its condition |
| Utils.NewsomeIsOffTopic | utils.py:190-196 | a name containing "news" is refused as off-topic: the keywords match inside words |
| Utils.SummaryDefaults | utils.py:110-138 | a missing name, email, phone, position or location reads as "N/A" in the summary, and a missing experience renders as "N/A" in the experience line |
| Utils.SummaryListDefaults | utils.py:110-138 | a missing list reads as an empty one, and the answers never appear |
| Utils.SameRendering | utils.py:110-138 | two records that agree on the displayed values get the same summary |
| Utils.SummaryFrame | utils.py:110-138 | the summary starts with its heading and the name and ends with its fixed closing text |
| Utils.UnexpectedInputQuotesFirst50 | utils.py:209-228 | only the first 50 characters of the input reach the reply |
| Utils.UnexpectedInputAsksForField | utils.py:221-225 | a non-blank input at a stage with a field name (NAME to TECH_STACK) gets a reply that ends by asking for that stage's field |
| Utils.SameQuote | utils.py:209-228 | two non-blank inputs that agree on 50 characters get the same reply |
| TechStack.NormalizeSeparators | utils.py:146-149 | the loop that replaces separators computes the same text as the specification |
| TechStack.NormalizeChars | utils.py:146-149 | after normalisation every character is a comma or an original non-separator character |
| TechStack.NormalizeIdentity | utils.py:146-149 | a text with no separator except commas is unchanged |
| TechStack.RemoveDuplicates | utils.py:158-164 | the duplicate-removing loop keeps the first occurrence of each name ignoring case |
| TechStack.FirstOccurrencesUpTo | utils.py:158-164 | the kept names are distinct ignoring case and come from the input |
| TechStack.FirstOccurrencesUpToCover | utils.py:158-164 | every input name is represented, and each kept name is the first of its class |
| TechStack.FirstOccurrencesOfDistinct | utils.py:158-164 | a list that is already distinct ignoring case is kept whole |
| TechStack.ParseTechStack | utils.py:140-166 | `parse_tech_stack` computes the specification `TechStackOf` |
| TechStack.TokensAreTechNames | utils.py:152-155 | every token is stripped, title-cased, at least two characters long and free of separators |
| TechStack.TechStackShape | utils.py:140-166 | the result has at most ten such names, distinct ignoring case |
| TechStack.BlankInputGivesNothing | utils.py:140-166 | a blank input gives the empty list |
| TechStack.TechStackKeepsFirstOccurrences | utils.py:158-166 | the result is a prefix of the first occurrences and covers every token when there are at most ten |
| TechStack.ParseJoined | utils.py:140-166 | a valid stack joined with ", " parses back to itself |
| TechStack.TechStackRoundTrip | utils.py:140-166 | parsing the comma-joined result of a parse gives the same result |
| Questions.GetFallbackQuestions | utils.py:90-108 | the table loop computes the specification `FallbackQuestionsFor` |
| Questions.TableHitsCount | utils.py:94-97 | each technology found in the table contributes exactly two questions |
| Questions.FallbackCount | utils.py:90-108 | four generic questions when nothing is found, otherwise two per hit among the first three, capped at five |
| Questions.FallbackReadsFirstThree | utils.py:94 | technologies after the third are never consulted |
| Questions.FallbackWithoutHits | utils.py:99-105 | when nothing is found, the generic questions name the first technology |
| Questions.PythonGoGetsTwo | utils.py:90-108 | "Python, Go" gets only the two Python questions |
| Questions.ValidQuestions | utils.py:79-84 | the validation loop keeps exactly the lines longer than ten characters that contain '?' |
| Questions.GenerateTechnicalQuestions | utils.py:57-88 | the generation path computes `GeneratedQuestionsOf` for a given model reply |
| Questions.GeneratedQuestionsAreReplyLines | utils.py:75-84 | every generated question is a stripped line of the reply with a letter, over ten characters, with a '?' |
| Questions.GeneratedKeepsPassingLines | utils.py:75-84 | every reply line that passes both tests is kept |
| Questions.GeneratedFallsBack | utils.py:57-88 | the fallback table is used exactly when there is no reply or no line passes |
| Questions.GeneratedKeepsEveryCleanLine | utils.py:75-84 | a reply of clean questions, one per line, gives all of them back: this path has no cap |
| Record.Put | data_handler.py:36-44 | assigning a key reads back the new value, leaves other keys alone, and appends a new key at the end |
| Record.EntriesAgreeWithGet | app.py:112-197 | looking in the record's item list agrees with its fields, and the keys are the present fields |
| Record.KeysArePrefix | app.py:112-197 | when the present fields are the first n stages' fields, the keys are exactly those, in insertion order |
| DataHandler.HashSensitiveData | data_handler.py:27-29 | the hash is the first 16 characters of the hex digest |
| DataHandler.SanitizeCandidateData | data_handler.py:31-46 | sanitising computes the specification `Sanitized` |
| DataHandler.LookupSanitized | data_handler.py:31-46 | a lookup in the sanitised copy reads the trimmed record first, then the clock, then the hash |
| DataHandler.SanitizedKeys | data_handler.py:31-46 | the sanitised keys are the record's keys in order, then `submission_time`, then `email_hash` exactly when there is an email |
| DataHandler.SanitizedValues | data_handler.py:31-46 | the clock is stored, the hash is present exactly with an email, the stack is trimmed, and every other field keeps its value |
| DataHandler.ValidateDataCompleteness | data_handler.py:98-107 | the loop returns the missing required fields in order, and completeness means none is missing |
| DataHandler.FilledFields | data_handler.py:98-107 | a field counts as filled when it is present and not empty (experience: not 0) |
| DataHandler.NothingMissingIffAllFilled | data_handler.py:98-107 | nothing is missing exactly when every required field is filled |
| DataHandler.CompletenessIff | data_handler.py:98-107 | completeness is exactly the seven named conditions on the record |
| DataHandler.MissingFieldsAreUnfilled | data_handler.py:98-107 | a field is listed as missing exactly when it is required and not filled |
| DataHandler.CsvRows | data_handler.py:81-90 | a header row, then one row per sanitised item in order, lists joined by ", " |
| DataHandler.NumberedLines | data_handler.py:132-134 | line i is the (i+1)-th question with its number |
| DataHandler.NumberedQuestionsAreLines | data_handler.py:132-134 | the question block is the numbered lines joined by newlines, with a final newline |
| DataHandler.MissingSection | data_handler.py:138-139 | the warning section is empty exactly when nothing is missing |
| DataHandler.GenerateCandidateReport | data_handler.py:109-143 | the report is the head, the numbered questions, the responses, the warning section when incomplete, and the next steps |
| DataHandler.AppendNumberedQuestions | data_handler.py:132-134 | the loop appends exactly the numbered question block |
| DataHandler.ReportDefaults | data_handler.py:109-136 | an absent name, email, phone, location, position or experience reads as "N/A", an absent stack as empty, absent answers as "No responses provided" |
| DataHandler.ReportWarnsWhenIncomplete | data_handler.py:138-139 | the warning lists the missing fields in order, exactly when there are any |
| DataHandler.DefaultFilename | data_handler.py:53-56 | `candidate_`, the name with blanks turned into '_', '_', the timestamp, '.', the extension; "candidate" when unnamed |
| DataHandler.UnnamedFilename | data_handler.py:74-77 | without a name the file is `candidate_candidate_<timestamp>.<extension>` |
| Multilingual.SupportedShape | multilingual_support.py:22-35 | each language's entry carries its own code, and only Arabic is right-to-left |
| Multilingual.TableKeys | multilingual_support.py:37-102 | every phrase table has the same keys |
| Multilingual.OwnPhrase | multilingual_support.py:149-156 | a known key in a known language gives that language's phrase |
| Multilingual.EnglishFallback | multilingual_support.py:149-156 | a known key in an unknown language gives the English phrase |
| Multilingual.UnknownKeyIsKept | multilingual_support.py:149-156 | an unknown key is returned as it is |
| Multilingual.GoodbyeIsTranslation | multilingual_support.py:149-156 | the farewell used at an exit is the "goodbye" translation |
| Multilingual.GoodbyeEntry | multilingual_support.py:37-102 | the farewell is the table's goodbye phrase for every table language |
| Multilingual.DetectLanguageSimple | multilingual_support.py:114-131 | the keyword detector answers one of es, fr, de, en |
| Multilingual.DetectionOrder | multilingual_support.py:114-131 | Spanish keywords win, then French, then German, else English, each exactly under its condition |
| Multilingual.DetectLanguage | multilingual_support.py:104-112 | the answer is a supported language: the library's verdict when it is supported, "en" when it is not, and the keyword detector when the library fails |
| Multilingual.NoMeansSpanish | multilingual_support.py:119-120 | any "no" inside the lower-cased text makes it Spanish |
| Multilingual.FrenchNonIsSpanish | multilingual_support.py:114-131 | the French "Non" is detected as Spanish |
| Multilingual.TranslateIdentity | multilingual_support.py:133-147 | the text is unchanged unless the target is es, fr or de and it mentions "welcome" |
| Multilingual.TranslateLeadingWelcome | multilingual_support.py:133-147 | a leading "Welcome" becomes that language's word and the rest is kept |
| Multilingual.RtlOnlyForArabic | multilingual_support.py:173-187 | the right-to-left style is emitted exactly for Arabic |
| Multilingual.FlagPrefix | multilingual_support.py:189-194 | a supported language prefixes its flag and a blank; any other language leaves the message alone |
| Multilingual.AssessmentPromptShape | multilingual_support.py:196-227 | the prompt keeps the {tech_stack} placeholder and names the language |
| Multilingual.PromptLanguage | multilingual_support.py:196-227 | the prompt map has the one key, with the language's name |
| Multilingual.UnknownLanguagePrompt | multilingual_support.py:196-227 | an unknown language gets the English prompt |
| Personalization.UserPreferences.constructor | personalization.py:14-29 | the stated fields are kept, and missing lists become empty (`__post_init__`) |
| Personalization.UserPreferences.Default | personalization.py:14-29 | the defaults: en, professional, adaptive, medium, empty lists, UTC |
| Personalization.GreetingShape | personalization.py:169-182 | the greeting is the style's greeting, followed by the name when one is given; unknown styles use professional |
| Personalization.EncouragementBands | personalization.py:184-200 | below -0.3 reassurance, above 0.3 the style's encouragement, otherwise the neutral thanks; never empty |
| Personalization.DifficultyChoice | personalization.py:202-220 | a fixed setting is kept; adaptive chooses by performance first, then by years of experience |
| Personalization.DifficultyPrompt | personalization.py:202-220 | the prompt is the chosen level's addition, or the intermediate fallback |
| Personalization.LengthModifierFallback | personalization.py:222-229 | the three known lengths get their hint; anything else gets the medium hint |
| Personalization.KeepRecentHistory | personalization.py:137-142 | the new record is last, and at most ten most recent records remain, in order |
| Performance.PerformanceOptimizer.constructor | performance_optimizer.py:19-25 | both dictionaries start empty, with no calls |
| Performance.PerformanceOptimizer.Probe | performance_optimizer.py:36-42 | a fresh entry is returned unchanged; a stale key is removed from both dictionaries |
| Performance.PerformanceOptimizer.Store | performance_optimizer.py:49-54 | the result is stored with expiry now plus the time to live, and one call is recorded |
| Performance.PerformanceOptimizer.TimedCall | performance_optimizer.py:27-58 | a fresh entry answers without running the function; otherwise the result is computed, stored and returned |
| Performance.PerformanceOptimizer.CleanupExpiredCache | performance_optimizer.py:123-135 | exactly the expired entries go, the rest keep their values and expiries, and the count removed is returned |
| Performance.PerformanceOptimizer.Clear | performance_optimizer.py:219-221 | both dictionaries are emptied together |
| Performance.PerformanceOptimizer.Preload | performance_optimizer.py:137-154 | each given key is cached with a 24-hour expiry and holds the value of its last entry in the list; every other entry is untouched and no call is recorded |
| Performance.PerformanceOptimizer.CalculateCacheHitRatio | performance_optimizer.py:96-108 | the ratio lies between 0 and 1, is 0 before any call, is cached entries per call while there are no more entries than calls, and is capped at exactly 1 otherwise |
| Performance.StoreAfterRemove | performance_optimizer.py:36-54 | storing after a stale lookup's removal equals storing over the old entry |
| Performance.RepeatedCallIsCached | performance_optimizer.py:27-58 | a second call with the same key within the time to live returns the first result without running |
| Driver.TurnCases | app.py:71-206 | a turn is: the exit reply, else the counted refusal, else the stage's handler, after the language detection |
| Driver.StageCases | app.py:112-200 | each stage dispatches to its own handler, and other stage numbers produce no change |
| Driver.TechStackAccepted | app.py:174-190 | a non-empty parsed stack is stored with its generated questions, and the stage moves to the technical questions |
| Driver.StageKeepsLanguage | app.py:112-200 | no stage handler changes the language |
| Driver.ExitChangesNothing | app.py:91-97 | an exit word changes nothing but the language and answers with the translated or the default farewell |
| Driver.ContextRefusalCounts | app.py:101-107 | a refused message counts one error, and the third and later refusals get the drift prefix |
| Driver.StageTurnSteps | app.py:112-200 | a stage handler keeps the stage or advances it by one, and keeps, increments or resets the error count |
| Driver.StageMonotone | app.py:71-206 | a turn never moves back, and never skips a stage |
| Driver.ConclusionIsFinal | app.py:199-200 | the conclusion stage is never left, and the record no longer changes |
| Driver.ErrorCountChanges | app.py:71-206 | the error count is either kept, incremented, or reset to 0 when email, phone or experience is accepted |
| Driver.ErrorCountRule | app.py:112-200 | past the exit and context checks: a refused email, phone, experience or tech stack keeps the stage and record, adds one error, and gets the firm retry exactly from the third error on; an accepted email, phone or experience advances and clears the count; an accepted tech stack advances and keeps it; every other stage keeps it |
| Driver.StageTurnErrorRule | app.py:112-200 | each stage branch treats the error count as `ErrorRule` states |
| Driver.CountingStageErrorRule | app.py:120-190 | the email, phone, experience and tech-stack branches follow `ErrorRule` |
| Driver.StageKeepsCount | app.py:112-200 | the name, position, location, answers and conclusion branches leave the error count alone |
| Driver.ShortAnswerIsFree | app.py:112-118 | a too-short name, position, location or answer changes nothing but the language and asks again |
| Driver.NameIsGreeted | app.py:112-118 | a valid name is stored stripped, the conversation starts, the stage moves to email, the error count is kept, and the reply opens with "Nice to meet you, ", the name and "!" |
| Driver.NameReached | app.py:112-118 | a name message that passes the checks is handled by the name stage |
| Driver.NameTurnGreets | app.py:112-118 | the name stage stores the stripped name, keeps the error count, and greets the name followed by "!" |
| Driver.LanguageSwitch | app.py:76-79 | within a turn, the language changes only from English, only with the optional modules, and only for a message over ten characters, to a supported language |
| Driver.InitialConsistent | app.py:37-49 | a fresh session satisfies the consistency invariant |
| Driver.AcceptedEmailNotBlank | app.py:120-131 | an accepted email is not blank |
| Driver.AcceptedPhoneNotBlank | app.py:133-144 | an accepted phone number is not blank |
| Driver.StageKeepsConsistent | app.py:112-200 | every stage handler preserves the consistency invariant |
| Driver.RetryKeepsConsistent | app.py:127-131 | counting a retry preserves the invariant |
| Driver.NameKeepsConsistent | app.py:112-118 | the name stage preserves the invariant |
| Driver.EmailKeepsConsistent | app.py:120-131 | the email stage preserves the invariant |
| Driver.PhoneKeepsConsistent | app.py:133-144 | the phone stage preserves the invariant |
| Driver.ExperienceKeepsConsistent | app.py:146-158 | the experience stage preserves the invariant |
| Driver.PositionKeepsConsistent | app.py:160-165 | the position stage preserves the invariant |
| Driver.LocationKeepsConsistent | app.py:167-172 | the location stage preserves the invariant |
| Driver.TechStackKeepsConsistent | app.py:174-190 | the tech-stack stage preserves the invariant |
| Driver.AnswersKeepsConsistent | app.py:192-197 | the technical-answers stage preserves the invariant |
| Driver.TurnKeepsConsistent | app.py:71-206 | every turn preserves the consistency invariant |
| Driver.ConsistentKeys | app.py:112-197 | in a consistent session the record's keys are exactly the fields of the stages passed, in insertion order |
| Driver.Session.constructor | app.py:37 | a new session has none of the keys |
| Driver.Session.Initialize | app.py:37-56 | each missing key gets its initial value and present keys are kept; `user_language` only with the optional modules |
| Driver.Session.Reset | app.py:336-339 | every key of the session is deleted |
| Driver.Session.StartNewApplication | app.py:336-339 | a reset followed by initialisation gives the initial state and the welcome message |
| Driver.Session.NameStage | app.py:112-118 | the name stage in place does what `NameTurn` says |
| Driver.Session.EmailStage | app.py:120-131 | the email stage in place does what `EmailTurn` says |
| Driver.Session.PhoneStage | app.py:133-144 | the phone stage in place does what `PhoneTurn` says |
| Driver.Session.ExperienceStage | app.py:146-158 | the experience stage in place does what `ExperienceTurn` says |
| Driver.Session.PositionStage | app.py:160-165 | the position stage in place does what `PositionTurn` says |
| Driver.Session.LocationStage | app.py:167-172 | the location stage in place does what `LocationTurn` says |
| Driver.Session.AcceptTechStack | app.py:176-186 | the stack and the questions are stored and the stage moves to the technical questions |
| Driver.Session.Accept | app.py:122-125 | the record and the stage are replaced and the error count is reset |
| Driver.Session.CountRetry | app.py:127-131 | the error count rises by one, and the firm message is used from the third error on |
| Driver.Session.TechStackStage | app.py:174-190 | the tech-stack stage in place does what `TechStackTurn` says |
| Driver.Session.AnswersStage | app.py:192-197 | the answers stage in place does what `AnswersTurn` says |
| Driver.Session.RunStage | app.py:112-200 | the stage dispatch in place does what `StageTurn` says |
| Driver.Session.CountRefusal | app.py:101-107 | a refusal counts one error and keeps stage and record |
| Driver.Session.ExitMessageFor | app.py:91-97 | the farewell is the translated one with the optional modules, the default one otherwise |
| Driver.Session.ProcessUserInput | app.py:71-206 | `process_user_input` on the session does exactly what `Turn` says, and leaves the messages alone |
| Driver.Session.CachedProcess | app.py:501-509 | a fresh (message, stage) entry answers with the session, both dictionaries and the call count unchanged; otherwise the turn runs, its reply is cached under the old stage with a five-minute expiry, and one call is recorded |
| Driver.Session.ProcessAndStore | app.py:501-509 | a cache miss runs the turn, stores the reply under the old stage with a five-minute expiry, and records one call |
| Driver.Session.AnswerThroughCache | app.py:499-511 | with the optional modules the answer goes through the cache (hit: nothing changes; miss: turn, stored reply, five-minute expiry, one more call); without them the turn runs and the optimizer is untouched |
| Driver.Session.HandleChatInput | app.py:490-525 | the chat loop appends the user message and the reply, the reply is the cached or the computed one, and the cache, expiries and call count change as for `AnswerThroughCache` |
| Driver.Session.RepeatedInputIsReplayed | app.py:493-509 | the same message twice within five minutes, at a stage the first turn keeps (a refused answer), gets the first reply again from the cache, and the second leaves the session, its error count included, unchanged |

## Left out

- The Streamlit interface is not modelled: rendering, the sidebar, the progress display, the buttons other than "Start New Application", the export buttons and `st.rerun`.
- The sidebar language selector (app.py:250-255, multilingual_support.py:165-171) is not modelled. With the optional modules loaded, it writes its selection back into `user_language` on every run. The selection is English unless the user picks another language, since the `selectbox` starts at index 0. So in the program a language detected at app.py:76-79 is overwritten before the next turn, while the model keeps `State.language` from one turn to the next. `Driver.LanguageSwitch` is therefore a statement about one turn only.
- The `optimize_streamlit_performance()` call at the end of `initialize_session_state` (app.py:68-69, performance_optimizer.py:177-192) is not part of `Driver.Session.Initialize`. It sets the `performance_optimizer_initialized` and `last_cache_cleanup` session keys. Its ten-minute cleanup never fires: it runs only on the call that just set `last_cache_cleanup` to the current time.
- The sentiment analysis and conversation metrics of `process_user_input` (app.py:82-89) are left out: they need the sentiment library and affect only the metrics, not the reply.
- The encouragement prefix of the chat loop (app.py:513-521) is left out, because it depends on the sentiment history. The rule it uses is modelled as `Personalization.EncouragementBands`.
- The completion rate (app.py:527-530) is left out: it is a floating-point metric that only the dashboard displays.
- The `except` branch of `process_user_input` (app.py:202-204) is left out: every modelled operation is total, so no Python exception can arise in the model.
- The advanced keys other than `user_language` (`sentiment_history`, `user_preferences`, `user_id`, app.py:52-60) are not modelled, because the turn never reads them.
- Only the `total_calls` count of the performance metrics is kept. Execution times and the other metric fields (performance_optimizer.py:67-85) are not modelled.
- The cache key is the (message, stage) tuple. The function-name-and-`hash` string that performance_optimizer.py builds from it is not modelled.
- `estimate_memory_usage`, `batch_process_requests`, `async_wrapper`, the thread pool and `AsyncOperationManager` are left out: they measure the process or run work concurrently.
- Calls into libraries become parameters, and their behaviour is not modelled: `langdetect`, the OpenAI client, SHA-256, Python's `float()` and `str()` on numbers, and the clock and its `strftime`/`isoformat` renderings.
- File and JSON output is not modelled: `export_to_json`, the writing part of `export_to_csv`, `save_candidate_session`, and the loading and saving of preferences and histories. The modelled parts are the rows, the file names and the kept history.
- `analyze_user_patterns`, `generate_user_id`, `create_preferences_ui` and `get_language_selector` are left out: they are statistics over stored files, a hash, or interface code.
- `export_candidate_data` (utils.py:168-183) is left out: it only serialises to JSON.
- Text handling covers ASCII only: classes, case mapping and whitespace follow Python only for ASCII characters, and other characters are treated as neither letters nor blanks.
- Questions.GenerateTechnicalQuestions: the prompt sent to the model and the request parameters are not modelled; only the reply text matters to the result.
- Questions.GetFallbackQuestions: an empty stack with no table hit raises `IndexError` at utils.py:102 in the program; the model requires a non-empty stack (`|techStack| >= 1`), the only way the caller at app.py:174-177 reaches it, and does not model the exception.
- Performance.PerformanceOptimizer.TimedCall: the program reads the clock twice, once for the freshness check (performance_optimizer.py:37) and once for the new expiry (performance_optimizer.py:51); the model uses one instant `now` for both, so the expiry does not include the time spent in the wrapped call.
- Performance.PerformanceOptimizer.Preload: each of the program's dictionary writes reads the clock on its own (performance_optimizer.py:151-152), so each entry expires 24 hours after its own write. The model gives every entry the expiry `now` + 24 hours, from one instant.
- Driver.Session.CachedProcess, Driver.Session.ProcessAndStore and Driver.Session.AnswerThroughCache, and with them Driver.Session.HandleChatInput: on a cache miss the program sets the expiry from the clock after `process_user_input` returns (performance_optimizer.py:51, reached through app.py:503-509), so the time of the turn and its language-model call is included. The model sets it from the instant `now` of the lookup.
- Python floats are modelled as exact `real` numbers: no rounding, no NaN and no infinity. The three members below are the ones this affects.
- Performance.PerformanceOptimizer.CalculateCacheHitRatio: the ensures `r * totalCalls == |cache|` holds exactly for reals. The program's division (performance_optimizer.py:108) rounds, for example for 1 entry and 49 calls.
- Utils.ValidateExperience: Python's `float()` also accepts "nan" and "inf" (utils.py:49-55). The `parseFloat` parameter can only return a real.
- Personalization.DifficultyChoice: with a NaN experience, both experience comparisons at personalization.py:205-210 are false, so the program picks 'hard' unless the performance check changes it. The model's split over reals has no such case.
