/**
 * The validators and formatters of utils.py that the intake conversation
 * calls: the exit-word test, the e-mail and phone recognisers, experience
 * parsing, the keyword context filter, the summary formatter and the reply
 * for an input that could not be handled.
 */
module Utils {
  import opened Wrappers
  import opened Text
  import opened Config
  import opened Record

  /** Every character of `s` is whitespace. */
  predicate Blank(s: string) {
    forall i :: 0 <= i < |s| ==> IsSpace(s[i])
  }

  // ---------------------------------------------------------------------------
  // is_exit_command
  // ---------------------------------------------------------------------------

  /** `is_exit_command(text)`: the lowered, stripped text is one of the exit words. */
  predicate IsExitCommand(text: string) {
    Strip(Lower(text)) in ExitKeywords
  }

  /** `t` is whitespace, then an exit word in any mix of cases at `t[i..j]`, then whitespace. */
  ghost predicate ExitSplit(t: string, i: int, j: int) {
    0 <= i <= j <= |t| && Blank(t[..i]) && Blank(t[j..]) && Lower(t[i..j]) in ExitKeywords
  }

  /** An exit word in any case, with whitespace around it, is an exit command. */
  lemma PaddedExitWord(a: string, w: string, b: string)
    requires Blank(a) && Blank(b) && Lower(w) in ExitKeywords
    ensures IsExitCommand(a + w + b)
  {
    ExitKeywordsShape();
    var k :| 0 <= k < |ExitKeywords| && ExitKeywords[k] == Lower(w);
    assert IsStripped(Lower(w));
    LowerConcat(a + w, b);
    LowerConcat(a, w);
    StripPadded(Lower(a), Lower(w), Lower(b));
  }

  /** What `strip` cuts from the lower-case text is whitespace in the original too, and what it keeps is the lower-case middle. */
  lemma LowerStripMargins(t: string)
    ensures var l := Lower(t);
            var i := StripStart(l);
            var j := i + |Strip(l)|;
            && 0 <= i <= j <= |t| && Blank(t[..i]) && Blank(t[j..]) && Lower(t[i..j]) == Strip(l)
  {
    var l := Lower(t);
    StripShape(l);
    var i := StripStart(l);
    var j := i + |Strip(l)|;
    LowerSlice(t, i, j);
    LowerKeepsSpace(t);
    assert Blank(t[..i]) by {
      forall k | 0 <= k < i ensures IsSpace(t[..i][k]) {
        assert IsSpace(l[k]);
      }
    }
    assert Blank(t[j..]) by {
      forall k | 0 <= k < |t| - j ensures IsSpace(t[j..][k]) {
        assert IsSpace(l[j + k]);
      }
    }
  }

  /** Lower-casing leaves whitespace where it was. */
  lemma LowerKeepsSpace(t: string)
    ensures forall k :: 0 <= k < |t| && IsSpace(Lower(t)[k]) ==> IsSpace(t[k])
  {
  }

  /** An exit command is an exit word in any case with whitespace around it: where `strip` cuts. */
  lemma ExitCommandIsPadded(t: string)
    requires IsExitCommand(t)
    ensures ExitSplit(t, StripStart(Lower(t)), StripStart(Lower(t)) + |Strip(Lower(t))|)
  {
    LowerStripMargins(t);
  }

  /** An exit command is exactly an exit word, in any case, with optional whitespace around it. */
  lemma ExitCommandIffPadded(t: string)
    ensures IsExitCommand(t) <==> exists i, j :: ExitSplit(t, i, j)
  {
    if IsExitCommand(t) {
      ExitCommandIsPadded(t);
    }
    if exists i, j :: ExitSplit(t, i, j) {
      var i, j :| ExitSplit(t, i, j);
      ExitSplitIsExit(t, i, j);
    }
  }

  lemma ExitSplitIsExit(t: string, i: int, j: int)
    requires ExitSplit(t, i, j)
    ensures IsExitCommand(t)
  {
    assert t == t[..i] + t[i..j] + t[j..];
    PaddedExitWord(t[..i], t[i..j], t[j..]);
  }

  /** An input with whitespace inside it, such as "I'm done now", is never an exit command. */
  lemma MultiWordIsNotExit(t: string, k: int)
    requires IsStripped(t) && 0 <= k < |t| && IsSpace(t[k])
    ensures !IsExitCommand(t)
  {
    var l := Lower(t);
    assert IsStripped(l);
    StripStripped(l);
    ExitKeywordsShape();
    forall n | 0 <= n < |ExitKeywords| ensures ExitKeywords[n] != l {
      if |ExitKeywords[n]| == |l| {
        assert !IsSpace(ExitKeywords[n][k]);
      }
    }
  }

  lemma DoneNowIsNotExit()
    ensures !IsExitCommand("I'm done now")
  {
    MultiWordIsNotExit("I'm done now", 3);
  }

  // ---------------------------------------------------------------------------
  // validate_email
  // ---------------------------------------------------------------------------

  /**
   * The body of `EMAIL_PATTERN`, recognised by hand: the first '@' splits the
   * local part from the rest, and the last '.' of the rest starts the
   * top-level domain.
   */
  predicate IsEmailBody(s: string) {
    var at := IndexOf(s, '@');
    && at >= 1
    && AllOf(s[..at], IsLocalChar)
    && var rest := s[at + 1..];
       var dot := LastIndexOf(rest, '.');
       && AllOf(rest, IsDomainChar)
       && dot >= 1
       && |rest| - dot >= 3
       && AllOf(rest[dot + 1..], IsLetter)
  }

  /** `validate_email(email)`, on the raw input: the body, optionally followed by one final newline. */
  predicate ValidateEmail(email: string) {
    IsEmailBody(email) || (|email| > 0 && email[|email| - 1] == '\n' && IsEmailBody(email[..|email| - 1]))
  }

  /** The hand recogniser's cut points are a split that `EMAIL_PATTERN` accepts. */
  lemma EmailBodyHasSplit(s: string)
    requires IsEmailBody(s)
    ensures EmailSplit(s, IndexOf(s, '@'), IndexOf(s, '@') + 1 + LastIndexOf(s[IndexOf(s, '@') + 1..], '.'))
  {
    EmailBodyParts(s);
    var at := IndexOf(s, '@');
    EmailSplitOfParts(s, at, LastIndexOf(s[at + 1..], '.'));
  }

  /** What the hand recogniser has checked, stated on the text after the '@'. */
  lemma EmailBodyParts(s: string)
    requires IsEmailBody(s)
    ensures var at := IndexOf(s, '@');
            var rest := s[at + 1..];
            var d := LastIndexOf(rest, '.');
            && 1 <= at < |s| && s[at] == '@' && AllOf(s[..at], IsLocalChar)
            && 1 <= d < |rest| && |rest| - d >= 3 && rest[d] == '.'
            && AllOf(rest[..d], IsDomainChar) && AllOf(rest[d + 1..], IsLetter)
  {
    var at := IndexOf(s, '@');
    var rest := s[at + 1..];
    DomainPrefix(rest, LastIndexOf(rest, '.'));
  }

  /** The split at an '@' and at a '.' of the text after it, stated on that text. */
  lemma EmailSplitOfParts(s: string, at: int, d: int)
    requires 1 <= at < |s| && s[at] == '@' && AllOf(s[..at], IsLocalChar)
    requires var rest := s[at + 1..];
             && 1 <= d < |rest| && |rest| - d >= 3 && rest[d] == '.'
             && AllOf(rest[..d], IsDomainChar) && AllOf(rest[d + 1..], IsLetter)
    ensures EmailSplit(s, at, at + 1 + d)
  {
    var rest := s[at + 1..];
    var dot := at + 1 + d;
    assert s[at + 1..dot] == rest[..d];
    assert s[dot + 1..] == rest[d + 1..];
    assert s[dot] == rest[d];
  }

  lemma DomainPrefix(rest: string, d: nat)
    requires AllOf(rest, IsDomainChar) && d <= |rest|
    ensures AllOf(rest[..d], IsDomainChar)
  {
    forall k | 0 <= k < d ensures IsDomainChar(rest[..d][k]) {
      assert rest[..d][k] == rest[k];
    }
  }

  /** Every split `EMAIL_PATTERN` accepts is the one the hand recogniser finds. */
  lemma EmailSplitIsFound(s: string, at: int, dot: int)
    requires EmailSplit(s, at, dot)
    ensures IsEmailBody(s)
  {
    NoAtInLocal(s[..at]);
    IndexOfIs(s, '@', at);
    var rest := s[at + 1..];
    var d := dot - at - 1;
    DomainAfterAt(s, at, dot);
    assert rest[d] == '.';
    assert rest[d + 1..] == s[dot + 1..];
    NoDotInLetters(rest[d + 1..]);
    LastIndexOfIs(rest, '.', d);
  }

  lemma NoAtInLocal(local: string)
    requires AllOf(local, IsLocalChar)
    ensures '@' !in local
  {
    forall k | 0 <= k < |local| ensures local[k] != '@' {
      assert IsLocalChar(local[k]);
    }
  }

  lemma NoDotInLetters(tld: string)
    requires AllOf(tld, IsLetter)
    ensures '.' !in tld
  {
    forall k | 0 <= k < |tld| ensures tld[k] != '.' {
      assert IsLetter(tld[k]);
    }
  }

  /** Everything after the '@' of an accepted split is a domain character. */
  lemma DomainAfterAt(s: string, at: int, dot: int)
    requires EmailSplit(s, at, dot)
    ensures AllOf(s[at + 1..], IsDomainChar)
  {
    var rest := s[at + 1..];
    var d := dot - at - 1;
    forall k | 0 <= k < |rest| ensures IsDomainChar(rest[k]) {
      if k < d {
        assert rest[k] == s[at + 1..dot][k];
      } else if k > d {
        assert rest[k] == s[dot + 1..][k - d - 1];
      }
    }
  }

  lemma EmailBodyCorrect(s: string)
    ensures IsEmailBody(s) <==> EmailBody(s)
  {
    if IsEmailBody(s) {
      EmailBodyHasSplit(s);
    }
    if EmailBody(s) {
      var at, dot :| EmailSplit(s, at, dot);
      EmailSplitIsFound(s, at, dot);
    }
  }

  /** The hand recogniser accepts exactly the strings `re.match(EMAIL_PATTERN, ...)` accepts. */
  lemma ValidateEmailMatchesPattern(s: string)
    ensures ValidateEmail(s) <==> MatchesEmailPattern(s)
  {
    EmailBodyCorrect(s);
    if |s| > 0 {
      EmailBodyCorrect(s[..|s| - 1]);
    }
  }

  /** An e-mail body starts with a character of the local part. */
  lemma EmailBodyStartsLocal(s: string)
    requires IsEmailBody(s)
    ensures |s| > 0 && IsLocalChar(s[0])
  {
    var at := IndexOf(s, '@');
    assert s[..at][0] == s[0];
  }

  /** The e-mail is validated before it is stripped, so leading whitespace makes it fail. */
  lemma EmailRejectsLeadingSpace(s: string)
    requires |s| > 0 && IsSpace(s[0])
    ensures !ValidateEmail(s)
  {
    if IsEmailBody(s) {
      EmailBodyStartsLocal(s);
    }
    if |s| > 1 && IsEmailBody(s[..|s| - 1]) {
      EmailBodyStartsLocal(s[..|s| - 1]);
    }
  }

  // ---------------------------------------------------------------------------
  // validate_phone
  // ---------------------------------------------------------------------------

  /** What follows the optional leading '+'. */
  function PhoneDigits(s: string): (r: string)
    ensures r == s || (|s| > 0 && s[0] == '+' && r == s[1..])
  {
    if |s| > 0 && s[0] == '+' then s[1..] else s
  }

  /** The body of `PHONE_PATTERN`, recognised by hand: after an optional '+', 9 to 15 digits, or 16 starting with '1'. */
  predicate IsPhoneBody(s: string) {
    var r := PhoneDigits(s);
    AllOf(r, IsDigit) && (9 <= |r| <= 15 || (|r| == 16 && r[0] == '1'))
  }

  /** `validate_phone(phone)`, on the raw input: the body, optionally followed by one final newline. */
  predicate ValidatePhone(phone: string) {
    IsPhoneBody(phone) || (|phone| > 0 && phone[|phone| - 1] == '\n' && IsPhoneBody(phone[..|phone| - 1]))
  }

  lemma PhoneBodyCorrect(s: string)
    ensures IsPhoneBody(s) <==> PhoneBody(s)
  {
    if IsPhoneBody(s) {
      var p := if |s| > 0 && s[0] == '+' then 1 else 0;
      var o := if |s| - p == 16 then 1 else 0;
      assert PhoneDigits(s) == s[p..];
      assert s[p + o..] == s[p..][o..];
      assert PhoneSplit(s, p, o);
    }
    if PhoneBody(s) {
      var p, o :| PhoneSplit(s, p, o);
      if p == 0 {
        assert s[0] == '1' || s[0] == s[p + o..][0];
      }
      assert PhoneDigits(s) == s[p..];
      var r := s[p..];
      assert AllOf(r, IsDigit) by {
        forall k | 0 <= k < |r| ensures IsDigit(r[k]) {
          if k >= o {
            assert r[k] == s[p + o..][k - o];
          }
        }
      }
    }
  }

  /** The hand recogniser accepts exactly the strings `re.match(PHONE_PATTERN, ...)` accepts. */
  lemma ValidatePhoneMatchesPattern(s: string)
    ensures ValidatePhone(s) <==> MatchesPhonePattern(s)
  {
    PhoneBodyCorrect(s);
    if |s| > 0 {
      PhoneBodyCorrect(s[..|s| - 1]);
    }
  }

  /**
   * The two examples the retry prompt offers are accepted; the same number
   * written with dashes is not. Nine digits already pass, one fewer than the
   * firm retry prompt asks for; eight do not.
   */
  lemma PhoneExamples()
    ensures ValidatePhone("+1234567890")
    ensures ValidatePhone("1234567890")
    ensures !ValidatePhone("123-456-7890")
    ensures ValidatePhone("123456789") && !ValidatePhone("12345678")
  {
    assert PhoneDigits("+1234567890") == "1234567890";
    assert !IsDigit("123-456-7890"[3]);
    assert !IsDigit("123-456-7890"[..11][3]);
  }

  // ---------------------------------------------------------------------------
  // validate_experience
  // ---------------------------------------------------------------------------

  /**
   * `validate_experience(experience)`: remove "years", then "year", strip,
   * and parse what is left. `parseFloat` stands for Python's `float()` on a
   * string: the parsed value, or None where `float()` raises ValueError.
   */
  function ValidateExperience(experience: string, parseFloat: string -> Option<real>): (r: (bool, Option<real>))
    ensures r.0 <==> r.1.Some?
  {
    var years := parseFloat(ExperienceNumberText(experience));
    (years.Some?, years)
  }

  /** The text `validate_experience` hands to `float()`. */
  function ExperienceNumberText(experience: string): string {
    Strip(Replace(Replace(experience, "years", ""), "year", ""))
  }

  /** Removing a unit that can only occur at the end leaves the text before it. */
  lemma RemoveTrailingUnit(t: string, unit: string)
    requires |unit| > 0 && unit[0] !in t
    ensures Replace(t + unit, unit, "") == t
    ensures Replace(t, unit, "") == t
  {
    ReplaceSkipsPrefix(t, unit, unit, "");
    ReplaceWhole(unit, "");
    ReplaceSkipsPrefix(t, [], unit, "");
    assert t + [] == t;
  }

  lemma ExperienceNumberTextPlain(t: string)
    requires IsStripped(t) && 'y' !in t
    ensures ExperienceNumberText(t) == t
  {
    RemoveTrailingUnit(t, "years");
    RemoveTrailingUnit(t, "year");
    StripStripped(t);
  }

  lemma StripTrailingBlank(t: string)
    requires IsStripped(t)
    ensures Strip(t + " ") == t
  {
    if t == [] {
      assert t + " " == " ";
    } else {
      StripPadded([], t, " ");
      assert [] + t + " " == t + " ";
    }
  }

  lemma ExperienceNumberTextYears(t: string)
    requires IsStripped(t) && 'y' !in t
    ensures ExperienceNumberText(t + " years") == t
  {
    var t1 := t + " ";
    assert t + " years" == t1 + "years";
    RemoveTrailingUnit(t1, "years");
    RemoveTrailingUnit(t1, "year");
    StripTrailingBlank(t);
  }

  lemma ExperienceNumberTextYear(t: string)
    requires IsStripped(t) && 'y' !in t
    ensures ExperienceNumberText(t + " year") == t
  {
    var t1 := t + " ";
    assert t + " year" == t1 + "year";
    ReplaceSkipsPrefix(t1, "year", "years", "");
    assert Replace("year", "years", "") == "year";
    RemoveTrailingUnit(t1, "year");
    StripTrailingBlank(t);
  }

  /** A unit word after the number makes no difference: "2.5 years", "2.5 year" and "2.5" are judged alike. */
  lemma ExperienceIgnoresUnit(t: string, parseFloat: string -> Option<real>)
    requires IsStripped(t) && 'y' !in t
    ensures ValidateExperience(t, parseFloat) == (parseFloat(t).Some?, parseFloat(t))
    ensures ValidateExperience(t + " years", parseFloat) == ValidateExperience(t, parseFloat)
    ensures ValidateExperience(t + " year", parseFloat) == ValidateExperience(t, parseFloat)
  {
    ExperienceNumberTextPlain(t);
    ExperienceNumberTextYears(t);
    ExperienceNumberTextYear(t);
  }

  /**
   * Nothing rejects a negative number of years: "-2 years", say, is stored as
   * -2.0 whenever `float("-2")` gives -2.0.
   */
  lemma NegativeExperienceAccepted(t: string, x: real, parseFloat: string -> Option<real>)
    requires IsStripped(t) && 'y' !in t && parseFloat(t) == Some(x) && x < 0.0
    ensures ValidateExperience(t + " years", parseFloat) == (true, Some(x))
  {
    ExperienceIgnoresUnit(t, parseFloat);
  }

  // ---------------------------------------------------------------------------
  // validate_conversation_context
  // ---------------------------------------------------------------------------

  const OffTopicKeywords: seq<string> :=
    ["weather", "sports", "politics", "food", "movie", "music", "game", "celebrity", "news", "joke", "story"]

  const InappropriateKeywords: seq<string> := ["hate", "violence", "illegal", "drugs"]

  const OffTopicMessage: string :=
    "I'm here to help with your job application. Let's focus on gathering your professional information."

  const InappropriateMessage: string := "Please keep our conversation professional and appropriate."

  const EmailHintMessage: string := "Please provide a valid email address with @ symbol."

  /** `validate_conversation_context(user_input, current_stage)`: the first failing check, or (True, ""). */
  function ValidateConversationContext(userInput: string, currentStage: int): (r: (bool, string))
    ensures r.0 <==> r.1 == ""
  {
    var lowered := Strip(Lower(userInput));
    if ContainsAny(lowered, OffTopicKeywords) then (false, OffTopicMessage)
    else if ContainsAny(lowered, InappropriateKeywords) then (false, InappropriateMessage)
    else if currentStage == 1 && '@' !in userInput && |userInput| > 5 then (false, EmailHintMessage)
    else (true, "")
  }

  /**
   * The three checks in their fixed order, each stated on slices of the
   * lowered, stripped input: an off-topic word anywhere wins, then an
   * inappropriate word, then (at the EMAIL stage only) a raw input of more
   * than five characters without '@'.
   */
  lemma ContextChecksInOrder(userInput: string, currentStage: int)
    ensures var r := ValidateConversationContext(userInput, currentStage);
            var l := Strip(Lower(userInput));
            && (r == (false, OffTopicMessage) <==> MentionsAny(l, OffTopicKeywords))
            && (r == (false, InappropriateMessage) <==>
                  !MentionsAny(l, OffTopicKeywords) && MentionsAny(l, InappropriateKeywords))
            && (r == (false, EmailHintMessage) <==>
                  !MentionsAny(l, OffTopicKeywords) && !MentionsAny(l, InappropriateKeywords)
                  && currentStage == 1 && '@' !in userInput && |userInput| > 5)
            && (r == (true, "") <==>
                  !MentionsAny(l, OffTopicKeywords) && !MentionsAny(l, InappropriateKeywords)
                  && !(currentStage == 1 && '@' !in userInput && |userInput| > 5))
  {
    var l := Strip(Lower(userInput));
    ContainsAnyIffMentionsAny(l, OffTopicKeywords);
    ContainsAnyIffMentionsAny(l, InappropriateKeywords);
    assert |OffTopicMessage| != |InappropriateMessage| && |OffTopicMessage| != |EmailHintMessage|;
    assert |InappropriateMessage| != |EmailHintMessage|;
  }

  /** Keywords match inside words: a candidate named "Newsome" is turned away as off topic at the NAME stage. */
  lemma NewsomeIsOffTopic()
    ensures ValidateConversationContext("Newsome", 0) == (false, OffTopicMessage)
  {
    var l := Lower("Newsome");
    assert l == "newsome";
    StripStripped(l);
    assert OccursAt(l, "news", 0);
    ContainsAt(l, "news", 0);
    assert OffTopicKeywords[8] == "news";
  }

  // ---------------------------------------------------------------------------
  // format_candidate_summary
  // ---------------------------------------------------------------------------

  const SummaryHead: string := "\n📋 Candidate Summary:\n------------------------\nFull Name: "

  const SummaryTail: string :=
    "\n\nThank you for completing the initial screening! Our team will review your information and get back to you soon.\n    "

  /**
   * `format_candidate_summary(candidate_info)`: absent scalar fields read
   * "N/A", the lists are joined (absent lists as empty) and the answers are
   * not shown. `floatText` stands for `str()` on the stored experience.
   */
  function FormatCandidateSummary(info: CandidateInfo, floatText: real -> string): string {
    var experience := if info.experience.Some? then floatText(info.experience.value) else "N/A";
    SummaryText(info.name.GetOr("N/A"), info.email.GetOr("N/A"), info.phone.GetOr("N/A"), experience,
                info.position.GetOr("N/A"), info.location.GetOr("N/A"),
                Join(info.techStack.GetOr([]), ", "), Join(info.technicalQuestions.GetOr([]), "\n"))
  }

  /** The summary's f-string, with its fields already rendered. */
  function SummaryText(name: string, email: string, phone: string, experience: string,
                       position: string, location: string, techs: string, questions: string): string {
    SummaryHead + name + SummaryMiddle(email, phone, experience, position, location, techs, questions) + SummaryTail
  }

  /** The lines between the candidate's name and the closing thank-you. */
  function SummaryMiddle(email: string, phone: string, experience: string,
                         position: string, location: string, techs: string, questions: string): string {
    "\nEmail: " + email
    + "\nPhone: " + phone
    + "\nExperience: " + experience + " years"
    + "\nDesired Position: " + position
    + "\nLocation: " + location
    + "\nTech Stack: " + techs
    + "\n\n🔍 Technical Assessment:\n------------------------\n" + questions
  }

  /**
   * An absent scalar field reads as if it held "N/A"; an absent experience
   * reads as any number rendered as "N/A".
   */
  lemma SummaryDefaults(info: CandidateInfo, floatText: real -> string, x: real)
    ensures FormatCandidateSummary(info.(name := None), floatText) == FormatCandidateSummary(info.(name := Some("N/A")), floatText)
    ensures FormatCandidateSummary(info.(email := None), floatText) == FormatCandidateSummary(info.(email := Some("N/A")), floatText)
    ensures FormatCandidateSummary(info.(phone := None), floatText) == FormatCandidateSummary(info.(phone := Some("N/A")), floatText)
    ensures FormatCandidateSummary(info.(position := None), floatText) == FormatCandidateSummary(info.(position := Some("N/A")), floatText)
    ensures FormatCandidateSummary(info.(location := None), floatText) == FormatCandidateSummary(info.(location := Some("N/A")), floatText)
    ensures FormatCandidateSummary(info.(experience := None), floatText)
            == FormatCandidateSummary(info.(experience := Some(x)), (_: real) => "N/A")
  {
    SameRendering(info.(name := None), info.(name := Some("N/A")), floatText);
    SameRendering(info.(email := None), info.(email := Some("N/A")), floatText);
    SameRendering(info.(phone := None), info.(phone := Some("N/A")), floatText);
    SameRendering(info.(position := None), info.(position := Some("N/A")), floatText);
    SameRendering(info.(location := None), info.(location := Some("N/A")), floatText);
  }

  /** An absent list reads as the empty list, and the answers are never shown. */
  lemma SummaryListDefaults(info: CandidateInfo, floatText: real -> string, answers: Option<string>)
    ensures FormatCandidateSummary(info.(techStack := None), floatText) == FormatCandidateSummary(info.(techStack := Some([])), floatText)
    ensures FormatCandidateSummary(info.(technicalQuestions := None), floatText) == FormatCandidateSummary(info.(technicalQuestions := Some([])), floatText)
    ensures FormatCandidateSummary(info.(technicalAnswers := answers), floatText) == FormatCandidateSummary(info, floatText)
  {
    SameRendering(info.(techStack := None), info.(techStack := Some([])), floatText);
    SameRendering(info.(technicalQuestions := None), info.(technicalQuestions := Some([])), floatText);
    SameRendering(info.(technicalAnswers := answers), info, floatText);
  }

  /** Two records whose shown fields render alike have the same summary. */
  lemma SameRendering(a: CandidateInfo, b: CandidateInfo, floatText: real -> string)
    requires a.name.GetOr("N/A") == b.name.GetOr("N/A") && a.email.GetOr("N/A") == b.email.GetOr("N/A")
    requires a.phone.GetOr("N/A") == b.phone.GetOr("N/A") && a.experience == b.experience
    requires a.position.GetOr("N/A") == b.position.GetOr("N/A") && a.location.GetOr("N/A") == b.location.GetOr("N/A")
    requires a.techStack.GetOr([]) == b.techStack.GetOr([]) && a.technicalQuestions.GetOr([]) == b.technicalQuestions.GetOr([])
    ensures FormatCandidateSummary(a, floatText) == FormatCandidateSummary(b, floatText)
  {
  }

  /** The summary opens with its header and the candidate's name, and closes with the thank-you line. */
  lemma SummaryFrame(info: CandidateInfo, floatText: real -> string)
    ensures var s := FormatCandidateSummary(info, floatText);
            var n := info.name.GetOr("N/A");
            && |s| >= |SummaryHead| + |n| + |SummaryTail|
            && s[..|SummaryHead| + |n|] == SummaryHead + n
            && s[|s| - |SummaryTail|..] == SummaryTail
  {
    var n := info.name.GetOr("N/A");
    var experience := if info.experience.Some? then floatText(info.experience.value) else "N/A";
    var middle := SummaryMiddle(info.email.GetOr("N/A"), info.phone.GetOr("N/A"), experience,
                                info.position.GetOr("N/A"), info.location.GetOr("N/A"),
                                Join(info.techStack.GetOr([]), ", "), Join(info.technicalQuestions.GetOr([]), "\n"));
    ConcatFrame(SummaryHead + n, middle, SummaryTail);
  }

  lemma ConcatFrame(head: string, middle: string, tail: string)
    ensures var s := head + middle + tail;
            && |s| >= |head| + |tail| && s[..|head|] == head && s[|s| - |tail|..] == tail
  {
    var s := head + middle + tail;
    assert s == head + (middle + tail);
  }

  // ---------------------------------------------------------------------------
  // handle_unexpected_input
  // ---------------------------------------------------------------------------

  /** The field each of the stages NAME to TECH_STACK asks for. */
  const StageFieldNames: map<int, string> :=
    map[0 := "your name", 1 := "your email address", 2 := "your phone number",
        3 := "your years of experience", 4 := "your desired position", 5 := "your location",
        6 := "your technical skills"]

  /** The reply that quotes the input and asks again for `field`. */
  function FieldPrompt(quote: string, field: string): string {
    "I didn't quite understand '" + quote + "...'. Could you please provide " + field + "?"
  }

  /** `handle_unexpected_input(user_input, current_stage)`: a prompt to retry, quoting at most 50 characters of the input. */
  function HandleUnexpectedInput(userInput: string, currentStage: int): string {
    if |Strip(userInput)| == 0 then "Please provide a response. I'm waiting for your input."
    else if currentStage in StageFieldNames then FieldPrompt(Take(userInput, 50), StageFieldNames[currentStage])
    else
      "I'm not sure I understand '" + Take(userInput, 50) + "...'. Could you please rephrase your response?"
  }

  /** Only the first 50 characters of the input can show in the reply. */
  lemma UnexpectedInputQuotesFirst50(userInput: string, currentStage: int)
    requires Strip(Take(userInput, 50)) != []
    ensures HandleUnexpectedInput(userInput, currentStage) == HandleUnexpectedInput(Take(userInput, 50), currentStage)
  {
    NonBlankPrefix(userInput, 50);
    assert Take(Take(userInput, 50), 50) == Take(userInput, 50);
    SameQuote(userInput, Take(userInput, 50), currentStage);
  }

  /** A non-blank input at one of the stages NAME to TECH_STACK is answered by asking again for that stage's field. */
  lemma UnexpectedInputAsksForField(userInput: string, currentStage: int)
    requires Strip(userInput) != [] && currentStage in StageFieldNames
    ensures var r := HandleUnexpectedInput(userInput, currentStage);
            var ask := StageFieldNames[currentStage] + "?";
            |r| >= |ask| && r[|r| - |ask|..] == ask
  {
    UnexpectedInputIsFieldPrompt(userInput, currentStage);
    FieldPromptEnds(Take(userInput, 50), StageFieldNames[currentStage]);
  }

  lemma UnexpectedInputIsFieldPrompt(userInput: string, currentStage: int)
    requires Strip(userInput) != [] && currentStage in StageFieldNames
    ensures HandleUnexpectedInput(userInput, currentStage) == FieldPrompt(Take(userInput, 50), StageFieldNames[currentStage])
  {
  }

  lemma FieldPromptEnds(quote: string, field: string)
    ensures var r := FieldPrompt(quote, field);
            var ask := field + "?";
            |r| >= |ask| && r[|r| - |ask|..] == ask
  {
    var lead := "I didn't quite understand '" + quote + "...'. Could you please provide ";
    assert FieldPrompt(quote, field) == lead + (field + "?");
  }

  /** Two inputs that are both non-blank and share their first 50 characters get the same reply. */
  lemma SameQuote(a: string, b: string, currentStage: int)
    requires Strip(a) != [] && Strip(b) != [] && Take(a, 50) == Take(b, 50)
    ensures HandleUnexpectedInput(a, currentStage) == HandleUnexpectedInput(b, currentStage)
  {
  }

  /** An input whose first `n` characters are not all blank is not blank. */
  lemma NonBlankPrefix(s: string, n: nat)
    requires Strip(Take(s, n)) != []
    ensures Strip(s) != []
  {
    var t := Take(s, n);
    StripEmptyIffBlank(s);
    StripEmptyIffBlank(t);
    var k :| 0 <= k < |t| && !IsSpace(t[k]);
    assert s[k] == t[k];
  }
}
