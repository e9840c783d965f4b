/**
 * The record helpers of data_handler.py: the sanitised copy of the record
 * that is exported, the completeness check, the rows of the CSV export, the
 * assessment report and the default export file name.
 *
 * A Python dictionary is modelled by its item list in insertion order
 * (`Dict`); `Put` is `d[key] = v`, which overwrites in place or appends.
 * The clock (`datetime.now()`) and SHA-256 are parameters.
 */
module DataHandler {
  import opened Wrappers
  import opened Text
  import opened Record

  // ---------------------------------------------------------------------------
  // hash_sensitive_data, sanitize_candidate_data
  // ---------------------------------------------------------------------------

  /** `hash_sensitive_data(data)`: the first 16 characters of the hex digest `sha256Hex(data)`. */
  function HashSensitiveData(data: string, sha256Hex: string -> string): (r: string)
    ensures |r| == if |sha256Hex(data)| <= 16 then |sha256Hex(data)| else 16
    ensures r == sha256Hex(data)[..|r|]
  {
    Take(sha256Hex(data), 16)
  }

  /**
   * What `sanitize_candidate_data` returns: the record's items in their
   * order with the tech-stack entries trimmed, then `submission_time`, then
   * `email_hash` when there is an email.
   */
  function Sanitized(info: CandidateInfo, now: string, sha256Hex: string -> string): Dict {
    var trimmed := if info.techStack.Some? then Some(StripAll(info.techStack.value)) else None;
    Entries(info.(techStack := trimmed))
    + [("submission_time", Text(now))]
    + (if info.email.Some? then [("email_hash", Text(HashSensitiveData(info.email.value, sha256Hex)))] else [])
  }

  /** `sanitize_candidate_data(candidate_info)`: a copy of the record, updated in place. */
  method SanitizeCandidateData(candidateInfo: CandidateInfo, now: string, sha256Hex: string -> string)
    returns (sanitized: Dict)
    ensures sanitized == Sanitized(candidateInfo, now, sha256Hex)
  {
    var start := Entries(candidateInfo);
    RecordLookups(candidateInfo);
    sanitized := start;
    sanitized := Put(sanitized, "submission_time", Text(now));
    var email := Lookup(sanitized, "email");
    if email.Some? && email.value.Text? {
      sanitized := Put(sanitized, "email_hash", Text(HashSensitiveData(email.value.s, sha256Hex)));
    }
    var added := sanitized[|start|..];
    assert sanitized == start + added;
    var techStack := Lookup(sanitized, "tech_stack");
    if techStack.Some? && techStack.value.Items? {
      TechReplaced(candidateInfo, added, StripAll(techStack.value.xs));
      sanitized := Put(sanitized, "tech_stack", Items(StripAll(techStack.value.xs)));
    }
  }

  /** The lookups the sanitiser makes in the record's own items. */
  lemma RecordLookups(info: CandidateInfo)
    ensures Lookup(Entries(info), "submission_time").None?
    ensures Lookup(Entries(info), "email_hash").None?
    ensures Lookup(Entries(info), "email") == if info.email.Some? then Some(Text(info.email.value)) else None
    ensures Lookup(Entries(info), "tech_stack") == if info.techStack.Some? then Some(Items(info.techStack.value)) else None
  {
    EntriesAgreeWithGet(info, "submission_time");
    EntriesAgreeWithGet(info, "email_hash");
    EntriesAgreeWithGet(info, "email");
    EntriesAgreeWithGet(info, "tech_stack");
  }

  /** Replacing the tech stack in place in the record's items (followed by `rest`) gives the items of the updated record. */
  lemma TechReplaced(info: CandidateInfo, rest: Dict, techs: seq<string>)
    requires info.techStack.Some?
    ensures Put(Entries(info) + rest, "tech_stack", Items(techs)) == Entries(info.(techStack := Some(techs))) + rest
  {
    assert FieldOrder[6] == "tech_stack";
    assert "tech_stack" !in FieldOrder[..6] && "tech_stack" !in FieldOrder[7..];
    ReplaceAt(info, FieldOrder, 6, rest, techs);
  }

  /** The same, for any key list that names the tech stack once, at position `i`. */
  lemma ReplaceAt(info: CandidateInfo, keys: seq<string>, i: nat, rest: Dict, techs: seq<string>)
    requires info.techStack.Some?
    requires i < |keys| && keys[i] == "tech_stack"
    requires "tech_stack" !in keys[..i] && "tech_stack" !in keys[i + 1..]
    ensures Put(EntriesOf(info, keys) + rest, "tech_stack", Items(techs))
            == EntriesOf(info.(techStack := Some(techs)), keys) + rest
  {
    var updated := info.(techStack := Some(techs));
    var before := keys[..i];
    var after := keys[i + 1..];
    assert keys == before + (["tech_stack"] + after);
    assert "tech_stack" !in before && "tech_stack" !in after;
    OtherEntries(info, before, techs);
    OtherEntries(info, after, techs);
    var a := EntriesOf(info, before);
    var b := EntriesOf(info, after);
    SplitAtTechStack(info, before, after, rest);
    SplitAtTechStack(updated, before, after, rest);
    LookupEntriesOf(info, before, "tech_stack");
    PutMiddle(a, ("tech_stack", Items(info.techStack.value)), b + rest, Items(techs));
  }

  /** Replacing the tech stack leaves every other field as it was. */
  lemma OtherField(info: CandidateInfo, key: string, techs: seq<string>)
    requires key != "tech_stack"
    ensures Get(info.(techStack := Some(techs)), key) == Get(info, key)
  {
  }

  /** Replacing the tech stack leaves the items of the other fields as they were. */
  lemma OtherEntries(info: CandidateInfo, keys: seq<string>, techs: seq<string>)
    requires "tech_stack" !in keys
    ensures EntriesOf(info.(techStack := Some(techs)), keys) == EntriesOf(info, keys)
  {
    forall k | k in keys ensures Get(info.(techStack := Some(techs)), k) == Get(info, k) {
      OtherField(info, k, techs);
    }
    EntriesOfAgree(info, info.(techStack := Some(techs)), keys);
  }

  /** The items of a record with a tech stack, split around that field. */
  lemma SplitAtTechStack(info: CandidateInfo, before: seq<string>, after: seq<string>, rest: Dict)
    requires info.techStack.Some?
    ensures EntriesOf(info, before + (["tech_stack"] + after)) + rest
            == EntriesOf(info, before) + ([("tech_stack", Items(info.techStack.value))] + (EntriesOf(info, after) + rest))
  {
    EntriesOfAppend(info, before, ["tech_stack"] + after);
    assert (["tech_stack"] + after)[1..] == after;
  }

  /** The items for two runs of keys are the items of each, one after the other. */
  lemma {:induction false} EntriesOfAppend(info: CandidateInfo, a: seq<string>, b: seq<string>)
    ensures EntriesOf(info, a + b) == EntriesOf(info, a) + EntriesOf(info, b)
  {
    if a == [] {
      assert a + b == b;
    } else {
      assert (a + b)[0] == a[0];
      assert (a + b)[1..] == a[1..] + b;
      EntriesOfAppend(info, a[1..], b);
    }
  }

  /** Putting the key of an item that no earlier item has replaces that item's value in place. */
  lemma PutMiddle(a: Dict, item: (string, Value), b: Dict, v: Value)
    requires Lookup(a, item.0).None?
    ensures Put(a + ([item] + b), item.0, v) == a + ([(item.0, v)] + b)
  {
    PutAfter(a, [item] + b, item.0, v);
    PutAtFront(item, b, v);
  }

  /** Putting the key of the first item replaces that item's value. */
  lemma PutAtFront(item: (string, Value), d: Dict, v: Value)
    ensures Put([item] + d, item.0, v) == [(item.0, v)] + d
  {
    assert ([item] + d)[1..] == d;
  }

  /** Two records that agree on the named fields give the same items for them. */
  lemma {:induction false} EntriesOfAgree(a: CandidateInfo, b: CandidateInfo, keys: seq<string>)
    requires forall k :: k in keys ==> Get(a, k) == Get(b, k)
    ensures EntriesOf(a, keys) == EntriesOf(b, keys)
  {
    if keys != [] {
      assert keys[0] in keys;
      EntriesOfAgree(a, b, keys[1..]);
    }
  }

  /** Two records with the same fields present have the same keys. */
  lemma {:induction false} KeysOfEntriesOfAgree(a: CandidateInfo, b: CandidateInfo, keys: seq<string>)
    requires forall k :: k in keys ==> (Get(a, k).Some? <==> Get(b, k).Some?)
    ensures KeysOf(EntriesOf(a, keys)) == KeysOf(EntriesOf(b, keys))
  {
    if keys != [] {
      assert keys[0] in keys;
      KeysOfEntriesOfAgree(a, b, keys[1..]);
      KeysOfAppend(Entry(a, keys[0]), EntriesOf(a, keys[1..]));
      KeysOfAppend(Entry(b, keys[0]), EntriesOf(b, keys[1..]));
      assert KeysOf(Entry(a, keys[0])) == KeysOf(Entry(b, keys[0]));
    }
  }

  /** A lookup in the sanitised copy reads the trimmed record's items first, then the two added items. */
  lemma LookupSanitized(info: CandidateInfo, now: string, sha256Hex: string -> string, key: string)
    ensures var trimmed := if info.techStack.Some? then Some(StripAll(info.techStack.value)) else None;
            var t := info.(techStack := trimmed);
            Lookup(Sanitized(info, now, sha256Hex), key)
            == if Get(t, key).Some? then Get(t, key)
               else if key == "submission_time" then Some(Text(now))
               else if key == "email_hash" && info.email.Some? then Some(Text(HashSensitiveData(info.email.value, sha256Hex)))
               else None
  {
    var trimmed := if info.techStack.Some? then Some(StripAll(info.techStack.value)) else None;
    var t := info.(techStack := trimmed);
    var stamp := [("submission_time", Text(now))];
    var hash := if info.email.Some? then [("email_hash", Text(HashSensitiveData(info.email.value, sha256Hex)))] else [];
    EntriesAgreeWithGet(t, key);
    LookupAppend(Entries(t) + stamp, hash, key);
    LookupAppend(Entries(t), stamp, key);
  }

  /**
   * The sanitised copy has every key of the record, in order, then
   * `submission_time`, then `email_hash` exactly when there is an email.
   */
  lemma SanitizedKeys(info: CandidateInfo, now: string, sha256Hex: string -> string)
    ensures KeysOf(Sanitized(info, now, sha256Hex))
            == Keys(info) + ["submission_time"] + (if info.email.Some? then ["email_hash"] else [])
  {
    var trimmed := if info.techStack.Some? then Some(StripAll(info.techStack.value)) else None;
    var t := info.(techStack := trimmed);
    var stamp := [("submission_time", Text(now))];
    var hash := if info.email.Some? then [("email_hash", Text(HashSensitiveData(info.email.value, sha256Hex)))] else [];
    KeysOfEntriesOfAgree(t, info, FieldOrder);
    KeysOfAppend(Entries(t), stamp);
    KeysOfAppend(Entries(t) + stamp, hash);
  }

  /**
   * In the sanitised copy `submission_time` holds the clock, `email_hash` is
   * there exactly when there is an email, the tech stack is the trimmed one
   * and every other field keeps its value.
   */
  lemma SanitizedValues(info: CandidateInfo, now: string, sha256Hex: string -> string, key: string)
    ensures var s := Sanitized(info, now, sha256Hex);
            && Lookup(s, "submission_time") == Some(Text(now))
            && (Lookup(s, "email_hash").Some? <==> info.email.Some?)
            && Lookup(s, "tech_stack") == (if info.techStack.Some? then Some(Items(StripAll(info.techStack.value))) else None)
            && (key in FieldOrder && key != "tech_stack" ==> Lookup(s, key) == Get(info, key))
  {
    LookupSanitized(info, now, sha256Hex, "submission_time");
    LookupSanitized(info, now, sha256Hex, "email_hash");
    LookupSanitized(info, now, sha256Hex, "tech_stack");
    LookupSanitized(info, now, sha256Hex, key);
  }

  // ---------------------------------------------------------------------------
  // validate_data_completeness
  // ---------------------------------------------------------------------------

  const RequiredFields: seq<string> := ["name", "email", "phone", "experience", "position", "location", "tech_stack"]

  /** Python truthiness of a stored value: a non-empty string, a non-zero number, a non-empty list. */
  predicate Truthy(v: Value) {
    match v
    case Text(s) => s != []
    case Number(x) => x != 0.0
    case Items(xs) => xs != []
  }

  /** `field in candidate_info and candidate_info[field]`. */
  predicate Filled(info: CandidateInfo, field: string) {
    Get(info, field).Some? && Truthy(Get(info, field).value)
  }

  /** The required fields that are absent or falsy, in the fixed order. */
  function MissingFields(info: CandidateInfo): seq<string> {
    Filter(RequiredFields, (field: string) => !Filled(info, field))
  }

  /** `validate_data_completeness(candidate_info)`. */
  method ValidateDataCompleteness(candidateInfo: CandidateInfo) returns (complete: bool, missingFields: seq<string>)
    ensures missingFields == MissingFields(candidateInfo)
    ensures complete <==> missingFields == []
  {
    var unfilled := (field: string) => !Filled(candidateInfo, field);
    missingFields := [];
    for i := 0 to |RequiredFields|
      invariant missingFields == Filter(RequiredFields[..i], unfilled)
    {
      var field := RequiredFields[i];
      assert RequiredFields[..i + 1][..i] == RequiredFields[..i];
      if Get(candidateInfo, field).None? || !Truthy(Get(candidateInfo, field).value) {
        missingFields := missingFields + [field];
      }
    }
    assert RequiredFields[..|RequiredFields|] == RequiredFields;
    complete := |missingFields| == 0;
  }

  /** What truthiness means for each required field of the record. */
  lemma FilledFields(info: CandidateInfo)
    ensures Filled(info, "name") <==> info.name.Some? && info.name.value != []
    ensures Filled(info, "email") <==> info.email.Some? && info.email.value != []
    ensures Filled(info, "phone") <==> info.phone.Some? && info.phone.value != []
    ensures Filled(info, "experience") <==> info.experience.Some? && info.experience.value != 0.0
    ensures Filled(info, "position") <==> info.position.Some? && info.position.value != []
    ensures Filled(info, "location") <==> info.location.Some? && info.location.value != []
    ensures Filled(info, "tech_stack") <==> info.techStack.Some? && info.techStack.value != []
  {
  }

  /** Nothing is missing exactly when every required field is filled. */
  lemma NothingMissingIffAllFilled(info: CandidateInfo)
    ensures MissingFields(info) == [] <==> forall f :: f in RequiredFields ==> Filled(info, f)
  {
    var unfilled := (field: string) => !Filled(info, field);
    if MissingFields(info) != [] {
      var f := MissingFields(info)[0];
      assert f in MissingFields(info);
      assert f in RequiredFields && unfilled(f);
    }
  }

  /**
   * The record is complete exactly when the seven required fields are all
   * present and truthy: so an experience of 0.0, an empty string or an empty
   * tech stack counts as missing; the questions and answers are never required.
   */
  lemma CompletenessIff(info: CandidateInfo)
    ensures MissingFields(info) == [] <==>
              && info.name.Some? && info.name.value != []
              && info.email.Some? && info.email.value != []
              && info.phone.Some? && info.phone.value != []
              && info.experience.Some? && info.experience.value != 0.0
              && info.position.Some? && info.position.value != []
              && info.location.Some? && info.location.value != []
              && info.techStack.Some? && info.techStack.value != []
  {
    NothingMissingIffAllFilled(info);
    FilledFields(info);
    assert RequiredFields[0] == "name" && RequiredFields[1] == "email" && RequiredFields[2] == "phone";
    assert RequiredFields[3] == "experience" && RequiredFields[4] == "position" && RequiredFields[5] == "location";
    assert RequiredFields[6] == "tech_stack";
  }

  /** A missing field is one of the required ones that is absent or falsy; every such field is listed. */
  lemma MissingFieldsAreUnfilled(info: CandidateInfo, field: string)
    ensures field in MissingFields(info) <==> field in RequiredFields && !Filled(info, field)
  {
  }

  // ---------------------------------------------------------------------------
  // The CSV rows of export_to_csv
  // ---------------------------------------------------------------------------

  /** The cell written for a value: strings as they are, lists joined with ", ", numbers through `str()` (`floatText`). */
  function CellText(v: Value, floatText: real -> string): string {
    match v
    case Text(s) => s
    case Number(x) => floatText(x)
    case Items(xs) => Join(xs, ", ")
  }

  /** The rows `export_to_csv` hands to the CSV writer: the header, then one row per item in order. */
  method CsvRows(sanitizedData: Dict, floatText: real -> string) returns (rows: seq<seq<string>>)
    ensures |rows| == |sanitizedData| + 1
    ensures rows[0] == ["Field", "Value"]
    ensures forall i :: 0 <= i < |sanitizedData| ==>
              rows[i + 1] == [sanitizedData[i].0, CellText(sanitizedData[i].1, floatText)]
  {
    rows := [["Field", "Value"]];
    for i := 0 to |sanitizedData|
      invariant |rows| == i + 1
      invariant rows[0] == ["Field", "Value"]
      invariant forall j :: 0 <= j < i ==> rows[j + 1] == [sanitizedData[j].0, CellText(sanitizedData[j].1, floatText)]
    {
      var (key, value) := sanitizedData[i];
      rows := rows + [[key, CellText(value, floatText)]];
    }
  }

  // ---------------------------------------------------------------------------
  // generate_candidate_report
  // ---------------------------------------------------------------------------

  /** The report up to the question list; `generatedOn` is the formatted clock. */
  function ReportHead(info: CandidateInfo, generatedOn: string, floatText: real -> string): string {
    var experience := if info.experience.Some? then floatText(info.experience.value) else "N/A";
    "\n# Candidate Assessment Report\nGenerated on: " + generatedOn
    + "\n\n## Personal Information\n- **Name**: " + info.name.GetOr("N/A")
    + "\n- **Email**: " + info.email.GetOr("N/A")
    + "\n- **Phone**: " + info.phone.GetOr("N/A")
    + "\n- **Location**: " + info.location.GetOr("N/A")
    + "\n\n## Professional Information\n- **Experience**: " + experience
    + " years\n- **Desired Position**: " + info.position.GetOr("N/A")
    + "\n- **Technical Skills**: " + Join(info.techStack.GetOr([]), ", ")
    + "\n\n## Technical Assessment\n### Questions Asked:\n"
  }

  /** `f"{i}. {question}"`. */
  function NumberedLine(i: nat, question: string): string {
    NatToString(i) + ". " + question
  }

  /** The numbered question lines the report's loop appends, as the loop builds them. */
  function NumberedQuestions(qs: seq<string>): string {
    if qs == [] then ""
    else NumberedQuestions(qs[..|qs| - 1]) + NumberedLine(|qs|, qs[|qs| - 1]) + "\n"
  }

  /** Line `i + 1` of the question list. */
  function NumberedLines(qs: seq<string>): (r: seq<string>)
    ensures |r| == |qs|
    ensures forall i :: 0 <= i < |qs| ==> r[i] == NumberedLine(i + 1, qs[i])
  {
    seq(|qs|, i requires 0 <= i < |qs| => NumberedLine(i + 1, qs[i]))
  }

  /** The question list is the lines `1. q1`, `2. q2`, ... in list order, each ended by a newline. */
  lemma {:induction false} NumberedQuestionsAreLines(qs: seq<string>)
    requires qs != []
    ensures NumberedQuestions(qs) == Join(NumberedLines(qs), "\n") + "\n"
  {
    var init := qs[..|qs| - 1];
    var line := NumberedLine(|qs|, qs[|qs| - 1]);
    assert NumberedQuestions(qs) == NumberedQuestions(init) + line + "\n";
    NumberedLinesSnoc(qs);
    if init == [] {
      assert NumberedLines(qs) == [line];
      assert Join([line], "\n") == line;
    } else {
      var joined := Join(NumberedLines(init), "\n");
      NumberedQuestionsAreLines(init);
      assert NumberedQuestions(init) + line + "\n" == joined + "\n" + line + "\n";
      JoinSnoc(NumberedLines(init), line, "\n");
      assert Join(NumberedLines(qs), "\n") == joined + "\n" + line;
    }
  }

  lemma NumberedLinesSnoc(qs: seq<string>)
    requires qs != []
    ensures NumberedLines(qs) == NumberedLines(qs[..|qs| - 1]) + [NumberedLine(|qs|, qs[|qs| - 1])]
  {
  }

  lemma {:induction false} JoinSnoc(parts: seq<string>, last: string, sep: string)
    requires parts != []
    ensures Join(parts + [last], sep) == Join(parts, sep) + sep + last
  {
    if |parts| == 1 {
      assert (parts + [last])[1..] == [last];
    } else {
      assert (parts + [last])[1..] == parts[1..] + [last];
      JoinSnoc(parts[1..], last, sep);
    }
  }

  function ResponsesSection(info: CandidateInfo): string {
    "\n### Candidate Responses:\n" + info.technicalAnswers.GetOr("No responses provided") + "\n"
  }

  const MissingInformationHeader: string := "\n## ⚠️ Missing Information\nThe following fields are incomplete: "

  /** The warning section, present only when some field is missing. */
  function MissingSection(missing: seq<string>): (r: string)
    ensures r == [] <==> missing == []
  {
    if missing == [] then "" else MissingInformationHeader + Join(missing, ", ") + "\n"
  }

  const NextSteps: string :=
    "\n## Next Steps\n- Review technical responses\n- Schedule follow-up interview if qualified\n- Contact candidate with decision\n"

  /** `generate_candidate_report(candidate_info)`: the report string grown with `+=`. */
  method GenerateCandidateReport(candidateInfo: CandidateInfo, generatedOn: string, floatText: real -> string)
    returns (report: string)
    ensures report == ReportHead(candidateInfo, generatedOn, floatText)
                      + NumberedQuestions(candidateInfo.technicalQuestions.GetOr([]))
                      + ResponsesSection(candidateInfo)
                      + MissingSection(MissingFields(candidateInfo))
                      + NextSteps
  {
    var isComplete, missingFields := ValidateDataCompleteness(candidateInfo);
    report := ReportHead(candidateInfo, generatedOn, floatText);
    report := AppendNumberedQuestions(report, candidateInfo.technicalQuestions.GetOr([]));
    var body := report;
    report := report + ResponsesSection(candidateInfo);
    if !isComplete {
      report := report + MissingInformationHeader + Join(missingFields, ", ") + "\n";
    }
    assert report == body + ResponsesSection(candidateInfo) + MissingSection(missingFields);
    report := report + NextSteps;
  }

  /** The question loop of `generate_candidate_report`: `report += f"{i}. {question}\n"` for i from 1. */
  method AppendNumberedQuestions(start: string, questions: seq<string>) returns (report: string)
    ensures report == start + NumberedQuestions(questions)
  {
    report := start;
    for i := 0 to |questions|
      invariant report == start + NumberedQuestions(questions[..i])
    {
      NumberedStep(questions, i);
      report := report + NumberedLine(i + 1, questions[i]) + "\n";
    }
    assert questions[..|questions|] == questions;
  }

  lemma NumberedStep(qs: seq<string>, i: nat)
    requires i < |qs|
    ensures NumberedQuestions(qs[..i + 1]) == NumberedQuestions(qs[..i]) + NumberedLine(i + 1, qs[i]) + "\n"
  {
    assert qs[..i + 1][..i] == qs[..i];
  }

  /**
   * Absent fields read as "N/A" (an absent experience as any number
   * rendered as "N/A", the tech stack as the empty list), absent answers as
   * "No responses provided".
   */
  lemma ReportDefaults(info: CandidateInfo, generatedOn: string, floatText: real -> string, x: real)
    ensures ReportHead(info.(name := None), generatedOn, floatText) == ReportHead(info.(name := Some("N/A")), generatedOn, floatText)
    ensures ReportHead(info.(email := None), generatedOn, floatText) == ReportHead(info.(email := Some("N/A")), generatedOn, floatText)
    ensures ReportHead(info.(phone := None), generatedOn, floatText) == ReportHead(info.(phone := Some("N/A")), generatedOn, floatText)
    ensures ReportHead(info.(location := None), generatedOn, floatText) == ReportHead(info.(location := Some("N/A")), generatedOn, floatText)
    ensures ReportHead(info.(position := None), generatedOn, floatText) == ReportHead(info.(position := Some("N/A")), generatedOn, floatText)
    ensures ReportHead(info.(techStack := None), generatedOn, floatText) == ReportHead(info.(techStack := Some([])), generatedOn, floatText)
    ensures ReportHead(info.(experience := None), generatedOn, floatText)
            == ReportHead(info.(experience := Some(x)), generatedOn, (_: real) => "N/A")
    ensures ResponsesSection(info.(technicalAnswers := None)) == ResponsesSection(info.(technicalAnswers := Some("No responses provided")))
  {
  }

  /**
   * The report carries the warning section, listing the missing fields in
   * order, exactly when the record is incomplete; a complete record's
   * report goes straight from the responses to the next steps.
   */
  lemma ReportWarnsWhenIncomplete(info: CandidateInfo)
    ensures MissingFields(info) != [] ==>
              MissingSection(MissingFields(info)) == MissingInformationHeader + Join(MissingFields(info), ", ") + "\n"
    ensures MissingSection(MissingFields(info)) == "" <==> MissingFields(info) == []
  {
  }

  // ---------------------------------------------------------------------------
  // The default export file name
  // ---------------------------------------------------------------------------

  /**
   * `f"candidate_{name}_{timestamp}.{extension}"` with the name's blanks
   * replaced by underscores and "candidate" when there is no name;
   * `timestamp` is the `%Y%m%d_%H%M%S` rendering of the clock.
   */
  function DefaultFilename(candidateInfo: CandidateInfo, timestamp: string, extension: string): (r: string)
    ensures var name := candidateInfo.name.GetOr("candidate");
            && |r| == 10 + |name| + 1 + |timestamp| + 1 + |extension|
            && r[..10] == "candidate_"
            && (forall i :: 10 <= i < 10 + |name| ==> r[i] == if name[i - 10] == ' ' then '_' else name[i - 10])
            && r[10 + |name|] == '_'
            && r[10 + |name| + 1..10 + |name| + 1 + |timestamp|] == timestamp
            && r[|r| - |extension| - 1..] == "." + extension
  {
    var candidateName := ReplaceChar(candidateInfo.name.GetOr("candidate"), ' ', '_');
    "candidate_" + candidateName + "_" + timestamp + "." + extension
  }

  /** Without a name the file is `candidate_candidate_<timestamp>.<extension>`. */
  lemma UnnamedFilename(candidateInfo: CandidateInfo, timestamp: string, extension: string)
    requires candidateInfo.name.None?
    ensures DefaultFilename(candidateInfo, timestamp, extension) == "candidate_candidate_" + timestamp + "." + extension
  {
    assert ReplaceChar("candidate", ' ', '_') == "candidate";
  }
}
