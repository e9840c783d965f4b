/**
 * The candidate record that the intake conversation fills in (app.py keeps it
 * in `st.session_state.candidate_info`). Each field is present only once its
 * stage has been answered; the dictionary view lists the present fields in the
 * order the conversation inserts them.
 */
module Record {
  import opened Wrappers

  datatype CandidateInfo = CandidateInfo(
    name: Option<string>,
    email: Option<string>,
    phone: Option<string>,
    experience: Option<real>,
    position: Option<string>,
    location: Option<string>,
    techStack: Option<seq<string>>,
    technicalQuestions: Option<seq<string>>,
    technicalAnswers: Option<string>)

  /** `{}`: the record of a fresh session. */
  const Empty: CandidateInfo := CandidateInfo(None, None, None, None, None, None, None, None, None)

  /** A value of the record's dictionary: a string, a float or a list of strings. */
  datatype Value = Text(s: string) | Number(x: real) | Items(xs: seq<string>)

  /** Every key the record can hold, in the order the conversation inserts them. */
  const FieldOrder: seq<string> :=
    ["name", "email", "phone", "experience", "position", "location",
     "tech_stack", "technical_questions", "technical_answers"]

  /** `candidate_info.get(key)`. */
  function Get(info: CandidateInfo, key: string): Option<Value> {
    match key
    case "name" => if info.name.Some? then Some(Text(info.name.value)) else None
    case "email" => if info.email.Some? then Some(Text(info.email.value)) else None
    case "phone" => if info.phone.Some? then Some(Text(info.phone.value)) else None
    case "experience" => if info.experience.Some? then Some(Number(info.experience.value)) else None
    case "position" => if info.position.Some? then Some(Text(info.position.value)) else None
    case "location" => if info.location.Some? then Some(Text(info.location.value)) else None
    case "tech_stack" => if info.techStack.Some? then Some(Items(info.techStack.value)) else None
    case "technical_questions" => if info.technicalQuestions.Some? then Some(Items(info.technicalQuestions.value)) else None
    case "technical_answers" => if info.technicalAnswers.Some? then Some(Text(info.technicalAnswers.value)) else None
    case _ => None
  }

  // ---------------------------------------------------------------------------
  // The dictionary view: items in insertion order
  // ---------------------------------------------------------------------------

  /** A Python dictionary, as its item list in insertion order. */
  type Dict = seq<(string, Value)>

  /** `d.get(key)`. */
  function Lookup(d: Dict, key: string): Option<Value> {
    if d == [] then None
    else if d[0].0 == key then Some(d[0].1)
    else Lookup(d[1..], key)
  }

  /** The keys of a sequence of items, in order. */
  function KeysOf(d: Dict): (ks: seq<string>)
    ensures |ks| == |d|
    ensures forall i :: 0 <= i < |d| ==> ks[i] == d[i].0
  {
    seq(|d|, i requires 0 <= i < |d| => d[i].0)
  }

  /** `d[key] = v`: an existing key keeps its place and takes the new value; a new key goes last. */
  function Put(d: Dict, key: string, v: Value): (r: Dict)
    ensures Lookup(r, key) == Some(v)
    ensures forall k :: k != key ==> Lookup(r, k) == Lookup(d, k)
    ensures Lookup(d, key).None? ==> r == d + [(key, v)]
    ensures Lookup(d, key).Some? ==> KeysOf(r) == KeysOf(d)
  {
    if d == [] then [(key, v)]
    else if d[0].0 == key then [(key, v)] + d[1..]
    else
      assert d == [d[0]] + d[1..];
      [d[0]] + Put(d[1..], key, v)
  }

  lemma {:induction false} LookupAppend(a: Dict, b: Dict, key: string)
    ensures Lookup(a + b, key) == if Lookup(a, key).Some? then Lookup(a, key) else Lookup(b, key)
  {
    if a != [] {
      assert (a + b)[0] == a[0];
      assert (a + b)[1..] == a[1..] + b;
      LookupAppend(a[1..], b, key);
    } else {
      assert a + b == b;
    }
  }

  lemma {:induction false} PutAfter(a: Dict, b: Dict, key: string, v: Value)
    requires Lookup(a, key).None?
    ensures Put(a + b, key, v) == a + Put(b, key, v)
  {
    if a != [] {
      assert (a + b)[0] == a[0];
      assert (a + b)[1..] == a[1..] + b;
      PutAfter(a[1..], b, key, v);
      assert a == [a[0]] + a[1..];
    } else {
      assert a + b == b;
    }
  }

  lemma KeysOfAppend(a: Dict, b: Dict)
    ensures KeysOf(a + b) == KeysOf(a) + KeysOf(b)
  {
  }

  /** The item for `key`, if the record has that field. */
  function Entry(info: CandidateInfo, key: string): Dict {
    if Get(info, key).Some? then [(key, Get(info, key).value)] else []
  }

  /** The items of the fields named by `keys` that the record has, in the order of `keys`. */
  function EntriesOf(info: CandidateInfo, keys: seq<string>): Dict {
    if keys == [] then [] else Entry(info, keys[0]) + EntriesOf(info, keys[1..])
  }

  /** `candidate_info.items()`: the present fields with their values, in insertion order. */
  function Entries(info: CandidateInfo): Dict {
    EntriesOf(info, FieldOrder)
  }

  /** `list(candidate_info.keys())`. */
  function Keys(info: CandidateInfo): seq<string> {
    KeysOf(Entries(info))
  }

  /** Looking a key up in the item list agrees with the record's own fields. */
  lemma {:induction false} LookupEntriesOf(info: CandidateInfo, keys: seq<string>, key: string)
    ensures Lookup(EntriesOf(info, keys), key) == if key in keys then Get(info, key) else None
  {
    if keys != [] {
      LookupEntriesOf(info, keys[1..], key);
      LookupAppend(Entry(info, keys[0]), EntriesOf(info, keys[1..]), key);
    }
  }

  /** A key is listed exactly when it is named and the record has that field. */
  lemma {:induction false} KeysOfEntriesOf(info: CandidateInfo, keys: seq<string>, key: string)
    ensures key in KeysOf(EntriesOf(info, keys)) <==> key in keys && Get(info, key).Some?
  {
    if keys != [] {
      KeysOfEntriesOf(info, keys[1..], key);
      KeysOfAppend(Entry(info, keys[0]), EntriesOf(info, keys[1..]));
      assert keys == [keys[0]] + keys[1..];
      var head := Entry(info, keys[0]);
      if Get(info, keys[0]).Some? {
        assert KeysOf(head) == [keys[0]];
      } else {
        assert KeysOf(head) == [];
      }
    }
  }

  /** `candidate_info.get(key)` reads the item list; the keys are the present fields. */
  lemma EntriesAgreeWithGet(info: CandidateInfo, key: string)
    ensures Lookup(Entries(info), key) == Get(info, key)
    ensures key in Keys(info) <==> Get(info, key).Some?
  {
    LookupEntriesOf(info, FieldOrder, key);
    KeysOfEntriesOf(info, FieldOrder, key);
    if key !in FieldOrder {
      assert Get(info, key).None?;
    }
  }
  /** Whether the record has the field at position `i` of `FieldOrder`. */
  function Has(info: CandidateInfo, i: nat): bool {
    if i == 0 then info.name.Some?
    else if i == 1 then info.email.Some?
    else if i == 2 then info.phone.Some?
    else if i == 3 then info.experience.Some?
    else if i == 4 then info.position.Some?
    else if i == 5 then info.location.Some?
    else if i == 6 then info.techStack.Some?
    else if i == 7 then info.technicalQuestions.Some?
    else if i == 8 then info.technicalAnswers.Some?
    else false
  }

  lemma GetFieldOrder(info: CandidateInfo, i: nat)
    requires i < |FieldOrder|
    ensures Get(info, FieldOrder[i]).Some? <==> Has(info, i)
  {
    if i == 0 { assert FieldOrder[i] == "name"; }
    else if i == 1 { assert FieldOrder[i] == "email"; }
    else if i == 2 { assert FieldOrder[i] == "phone"; }
    else if i == 3 { assert FieldOrder[i] == "experience"; }
    else if i == 4 { assert FieldOrder[i] == "position"; }
    else if i == 5 { assert FieldOrder[i] == "location"; }
    else if i == 6 { assert FieldOrder[i] == "tech_stack"; }
    else if i == 7 { assert FieldOrder[i] == "technical_questions"; }
    else { assert FieldOrder[i] == "technical_answers"; }
  }

  /** When the present fields are the first `n` of `keys`, the listed keys are exactly those `n`, in order. */
  lemma {:induction false} KeysOfPresentPrefix(info: CandidateInfo, keys: seq<string>, n: nat)
    requires n <= |keys|
    requires forall i :: 0 <= i < |keys| ==> (Get(info, keys[i]).Some? <==> i < n)
    ensures KeysOf(EntriesOf(info, keys)) == keys[..n]
  {
    if keys != [] {
      var head := Entry(info, keys[0]);
      KeysOfAppend(head, EntriesOf(info, keys[1..]));
      var m := if n == 0 then 0 else n - 1;
      forall i | 0 <= i < |keys[1..]| ensures Get(info, keys[1..][i]).Some? <==> i < m {
        assert keys[1..][i] == keys[i + 1];
      }
      KeysOfPresentPrefix(info, keys[1..], m);
      if n == 0 {
        assert KeysOf(head) == [];
      } else {
        assert KeysOf(head) == [keys[0]];
        assert keys[..n] == [keys[0]] + keys[1..][..m];
      }
    }
  }

  /** A record whose present fields are the first `n` of `FieldOrder` lists exactly those keys, in that order. */
  lemma KeysArePrefix(info: CandidateInfo, n: nat)
    requires n <= |FieldOrder|
    requires forall i :: 0 <= i < |FieldOrder| ==> (Has(info, i) <==> i < n)
    ensures Keys(info) == FieldOrder[..n]
  {
    forall i | 0 <= i < |FieldOrder| ensures Get(info, FieldOrder[i]).Some? <==> i < n {
      GetFieldOrder(info, i);
    }
    KeysOfPresentPrefix(info, FieldOrder, n);
  }
}
