/**
 * The bulk enrollment-write reconciler shared by the v1 mock API and the v0
 * API (`EchoStatusesMixin.validate_and_echo_statuses`), and the v1 request
 * gate `EnrollmentMixin.validate_enrollment_data`.
 *
 * A request body is either not a JSON list, or a list of records.  Each
 * record is judged by the request serializer; the serializer itself is not
 * part of this model, so a record is described by what the serializer can
 * see of it: whether it is an object at all, its raw `student_key` (if
 * present, any JSON value), its `status` (if present) and whether any other
 * field is in error.  Whether a status is one of the serializer's choices is
 * the abstract predicate `IsValidStatus` over the choice set.
 *
 * The result map is a Python dict.  A valid record contributes the key the
 * serializer returns; a record with an invalid status contributes its RAW
 * `student_key`, so null and numbers become keys of their own, and a list or
 * object raises TypeError (unhashable), which nothing in the view catches.
 */
module EnrollmentWrites {
  import opened Wrappers
  import opened Json

  /** ENROLLMENT_WRITE_MAX_SIZE; the mock views write the same limit as a literal 25. */
  const EnrollmentWriteMaxSize: nat := 25

  const HttpOk: int := 200
  const HttpMultiStatus: int := 207
  const HttpTooLarge: int := 413
  const HttpUnprocessable: int := 422

  const Duplicated: string := "duplicated"
  const InvalidStatusText: string := "invalid-status"
  const InvalidRecordText: string := "invalid enrollment record"
  const LimitText: string := "enrollment limit 25"
  /** The detail of `EnrollmentPayloadTooLarge`, written with a capital E. */
  const PayloadTooLargeText: string := "Enrollment limit 25"

  datatype Record =
    | NotObject
    | Object(studentKey: Option<Json>, status: Option<string>, otherFieldErrors: bool)

  /**
   * A key of a Python dict built from a decoded JSON value: None, an int or a
   * str.  `True` and `False` are equal to, and hash like, 1 and 0.
   */
  datatype DictKey = NoneKey | IntKey(n: int) | StrKey(s: string)

  /** The values that can be dict keys: lists and dicts are unhashable. */
  predicate Hashable(j: Json)
  {
    !j.JList? && !j.JObject?
  }

  /** The dict key a hashable JSON value stands for. */
  function AsDictKey(j: Json): (k: Option<DictKey>)
    ensures k.Some? <==> Hashable(j)
    ensures j.JStr? ==> k == Some(StrKey(j.s))
  {
    match j
    case JNull => Some(NoneKey)
    case JBool(b) => Some(IntKey(if b then 1 else 0))
    case JNum(n) => Some(IntKey(n))
    case JStr(s) => Some(StrKey(s))
    case _ => None
  }

  /**
   * Two hashable values name the same dict slot exactly when they are equal
   * or are a boolean and the number it equals.
   */
  lemma SameDictKey(a: Json, b: Json)
    requires Hashable(a) && Hashable(b)
    ensures AsDictKey(a) == AsDictKey(b) <==>
      a == b || BoolEqualsNum(a, b) || BoolEqualsNum(b, a) || (a.JBool? && b.JBool? && a.b == b.b)
  {
    if AsDictKey(a) == AsDictKey(b) && a != b {
      match a
      case JNull =>
      case JBool(x) =>
      case JNum(x) =>
      case JStr(x) =>
    }
  }

  /** `a` is a boolean and `b` the number Python takes it to equal. */
  predicate BoolEqualsNum(a: Json, b: Json)
  {
    a.JBool? && b.JNum? && b.n == (if a.b then 1 else 0)
  }

  datatype Body = NotList | List(records: seq<Record>)

  /** What a write view answers: a raised exception or a response with a code. */
  datatype Reply =
    | ObjectNotFound       // Http404
    | ServerError          // an uncaught KeyError or TypeError
    | PermissionDenied
    | ValidationError
    | TextReply(code: int, text: string)
    | StatusReply(code: int, results: map<DictKey, string>)

  /** The serializer's choice check on `status`. */
  predicate IsValidStatus(choices: set<string>, s: string)
  {
    s in choices
  }

  /** `serializer.is_valid()`. */
  predicate SerializerValid(r: Record, choices: set<string>)
  {
    r.Object? && r.studentKey.Some? && r.studentKey.value.JStr? && r.status.Some?
    && IsValidStatus(choices, r.status.value) && !r.otherFieldErrors
  }

  /** `'status' in errors and errors['status'][0].code == 'invalid_choice'`. */
  predicate InvalidChoice(r: Record, choices: set<string>)
  {
    r.Object? && r.status.Some? && !IsValidStatus(choices, r.status.value)
  }

  /** How the loop body treats one record. */
  datatype Verdict =
    | Accepted(key: DictKey, status: string)
    | RejectedStatus(key: DictKey)
    | KeyMissing          // invalid choice, and `enrollee["student_key"]` raises KeyError
    | Unhashable          // invalid choice, and a list or object key raises TypeError
    | Malformed           // any other serializer error

  function Classify(r: Record, choices: set<string>): (v: Verdict)
    ensures v.Accepted? <==> SerializerValid(r, choices)
    ensures v.RejectedStatus? <==> InvalidChoice(r, choices) && r.studentKey.Some? && Hashable(r.studentKey.value)
    ensures v.KeyMissing? <==> InvalidChoice(r, choices) && r.studentKey.None?
    ensures v.Unhashable? <==> InvalidChoice(r, choices) && r.studentKey.Some? && !Hashable(r.studentKey.value)
    ensures v.Accepted? ==> v == Accepted(StrKey(r.studentKey.value.s), r.status.value)
    ensures (v.Accepted? || v.RejectedStatus?) ==> NamesKey(r, v.key)
  {
    if SerializerValid(r, choices) then Accepted(StrKey(r.studentKey.value.s), r.status.value)
    else if InvalidChoice(r, choices) then
      (if r.studentKey.None? then KeyMissing
       else match AsDictKey(r.studentKey.value)
         case Some(k) => RejectedStatus(k)
         case None => Unhashable)
    else Malformed
  }

  predicate IsFatal(v: Verdict)
  {
    v.KeyMissing? || v.Unhashable? || v.Malformed?
  }

  /** The record carries a `student_key` that is the dict key k. */
  predicate NamesKey(r: Record, k: DictKey)
  {
    r.Object? && r.studentKey.Some? && AsDictKey(r.studentKey.value) == Some(k)
  }

  /** The serializer accepts the record and its key is k. */
  predicate AcceptsKey(r: Record, choices: set<string>, k: DictKey)
  {
    SerializerValid(r, choices) && NamesKey(r, k)
  }

  /**
   * The loop's state: the `results` dict and the `enrolled_students` set, an
   * early 422, or the TypeError of an unhashable key.
   */
  datatype Echo =
    | Echoing(results: map<DictKey, string>, enrolled: set<DictKey>)
    | Aborted(text: string)
    | Raised

  /** One iteration of the loop; `keyMissingText` is the text of the KeyError reply. */
  function Step(e: Echo, v: Verdict, keyMissingText: string): Echo
  {
    match e
    case Aborted(_) => e
    case Raised => e
    case Echoing(results, enrolled) =>
      match v
      case Accepted(k, s) =>
        if k in enrolled then Echoing(results[k := Duplicated], enrolled)
        else Echoing(results[k := s], enrolled + {k})
      case RejectedStatus(k) => Echoing(results[k := InvalidStatusText], enrolled)
      case KeyMissing => Aborted(keyMissingText)
      case Unhashable => Raised
      case Malformed => Aborted(InvalidRecordText)
  }

  /** The loop run over the whole batch, from `{}` and `set()`. */
  function EchoAll(records: seq<Record>, choices: set<string>, keyMissingText: string): Echo
    decreases |records|
  {
    if records == [] then Echoing(map[], {})
    else Step(EchoAll(records[..|records| - 1], choices, keyMissingText),
              Classify(records[|records| - 1], choices), keyMissingText)
  }

  /** The reply chosen after the loop (`not enrolled_students`, then the count comparison). */
  function EchoReply(records: seq<Record>, choices: set<string>, keyMissingText: string): Reply
  {
    match EchoAll(records, choices, keyMissingText)
    case Aborted(t) => TextReply(HttpUnprocessable, t)
    case Raised => ServerError
    case Echoing(results, enrolled) =>
      if enrolled == {} then StatusReply(HttpUnprocessable, results)
      else if |enrolled| != |records| then StatusReply(HttpMultiStatus, results)
      else StatusReply(HttpOk, results)
  }

  /** The loop of `validate_and_echo_statuses` and the reply chosen after it. */
  method EchoStatuses(records: seq<Record>, choices: set<string>, keyMissingText: string)
    returns (reply: Reply)
    ensures reply == EchoReply(records, choices, keyMissingText)
  {
    var results: map<DictKey, string> := map[];
    var enrolled: set<DictKey> := {};
    for i := 0 to |records|
      invariant EchoAll(records[..i], choices, keyMissingText) == Echoing(results, enrolled)
    {
      assert records[..i + 1][..i] == records[..i];
      var v := Classify(records[i], choices);
      match v
      case Accepted(k, s) =>
        if k in enrolled {
          results := results[k := Duplicated];
        } else {
          results := results[k := s];
          enrolled := enrolled + {k};
        }
      case RejectedStatus(k) =>
        results := results[k := InvalidStatusText];
      case KeyMissing =>
        AbortedPersists(records, i + 1, choices, keyMissingText);
        return TextReply(HttpUnprocessable, keyMissingText);
      case Unhashable =>
        AbortedPersists(records, i + 1, choices, keyMissingText);
        return ServerError;
      case Malformed =>
        AbortedPersists(records, i + 1, choices, keyMissingText);
        return TextReply(HttpUnprocessable, InvalidRecordText);
    }
    assert records[..|records|] == records;
    if enrolled == {} {
      reply := StatusReply(HttpUnprocessable, results);
    } else if |enrolled| != |records| {
      reply := StatusReply(HttpMultiStatus, results);
    } else {
      reply := StatusReply(HttpOk, results);
    }
  }

  /** Once the loop has returned early, later records change nothing. */
  lemma {:induction false} AbortedPersists(records: seq<Record>, n: nat, choices: set<string>, t: string)
    requires n <= |records|
    requires !EchoAll(records[..n], choices, t).Echoing?
    ensures EchoAll(records, choices, t) == EchoAll(records[..n], choices, t)
  {
    if n < |records| {
      var init := records[..|records| - 1];
      assert init[..n] == records[..n];
      AbortedPersists(init, n, choices, t);
    } else {
      assert records[..n] == records;
    }
  }

  /** Without a fatal record the loop runs to its end. */
  lemma {:induction false} NoFatalEchoes(records: seq<Record>, choices: set<string>, t: string)
    requires forall i :: 0 <= i < |records| ==> !IsFatal(Classify(records[i], choices))
    ensures EchoAll(records, choices, t).Echoing?
  {
    if records != [] {
      var init := records[..|records| - 1];
      assert forall i :: 0 <= i < |init| ==> init[i] == records[i];
      NoFatalEchoes(init, choices, t);
    }
  }

  /**
   * The first record that is neither accepted nor an invalid status choice
   * with a hashable key ends the batch: with a 422 whose text names its kind,
   * or with the TypeError of an unhashable key.
   */
  lemma {:induction false} FirstFatalAborts(records: seq<Record>, choices: set<string>, t: string, i: nat)
    requires i < |records| && IsFatal(Classify(records[i], choices))
    requires forall j :: 0 <= j < i ==> !IsFatal(Classify(records[j], choices))
    ensures EchoAll(records, choices, t)
         == match Classify(records[i], choices)
            case KeyMissing => Aborted(t)
            case Unhashable => Raised
            case _ => Aborted(InvalidRecordText)
  {
    var pre := records[..i];
    assert forall j :: 0 <= j < |pre| ==> pre[j] == records[j];
    NoFatalEchoes(pre, choices, t);
    assert records[..i + 1][..i] == pre;
    AbortedPersists(records, i + 1, choices, t);
  }

  /** The loop returns early or raises exactly when some record is fatal. */
  lemma EchoAbortsIff(records: seq<Record>, choices: set<string>, t: string)
    ensures !EchoAll(records, choices, t).Echoing?
        <==> exists i :: 0 <= i < |records| && IsFatal(Classify(records[i], choices))
  {
    if exists i :: 0 <= i < |records| && IsFatal(Classify(records[i], choices)) {
      var i := FirstFatalIndex(records, choices);
      FirstFatalAborts(records, choices, t, i);
    } else {
      NoFatalEchoes(records, choices, t);
    }
  }

  /** The least index of a fatal record. */
  lemma FirstFatalIndex(records: seq<Record>, choices: set<string>) returns (i: nat)
    requires exists i :: 0 <= i < |records| && IsFatal(Classify(records[i], choices))
    ensures i < |records| && IsFatal(Classify(records[i], choices))
    ensures forall j :: 0 <= j < i ==> !IsFatal(Classify(records[j], choices))
  {
    i := 0;
    while !IsFatal(Classify(records[i], choices))
      invariant i < |records|
      invariant forall j :: 0 <= j < i ==> !IsFatal(Classify(records[j], choices))
      invariant exists m :: i <= m < |records| && IsFatal(Classify(records[m], choices))
      decreases |records| - i
    {
      i := i + 1;
    }
  }

  /**
   * Without an early 422 or a TypeError the result map has exactly one entry
   * per distinct `student_key` of the batch (as a dict key), and the accepted set holds exactly the keys
   * of records the serializer accepted.
   */
  lemma {:induction false} EchoKeys(records: seq<Record>, choices: set<string>, t: string)
    requires EchoAll(records, choices, t).Echoing?
    ensures forall k :: (k in EchoAll(records, choices, t).results
                         <==> exists i :: 0 <= i < |records| && NamesKey(records[i], k))
    ensures forall k :: (k in EchoAll(records, choices, t).enrolled
                         <==> exists i :: 0 <= i < |records| && AcceptsKey(records[i], choices, k))
  {
    if records != [] {
      var n := |records| - 1;
      var init := records[..n];
      assert EchoAll(init, choices, t).Echoing?;
      EchoKeys(init, choices, t);
      assert forall i :: 0 <= i < n ==> init[i] == records[i];
      var v := Classify(records[n], choices);
      assert !IsFatal(v);
      forall k
        ensures k in EchoAll(records, choices, t).results
            <==> exists i :: 0 <= i < |records| && NamesKey(records[i], k)
      {
        if k in EchoAll(records, choices, t).results && k != v.key {
          var i :| 0 <= i < n && NamesKey(init[i], k);
          assert NamesKey(records[i], k);
        }
        if exists i :: 0 <= i < |records| && NamesKey(records[i], k) {
          var i :| 0 <= i < |records| && NamesKey(records[i], k);
          if i < n { assert NamesKey(init[i], k); }
        }
      }
      forall k
        ensures k in EchoAll(records, choices, t).enrolled
            <==> exists i :: 0 <= i < |records| && AcceptsKey(records[i], choices, k)
      {
        if k in EchoAll(records, choices, t).enrolled && !AcceptsKey(records[n], choices, k) {
          var i :| 0 <= i < n && AcceptsKey(init[i], choices, k);
          assert AcceptsKey(records[i], choices, k);
        }
        if exists i :: 0 <= i < |records| && AcceptsKey(records[i], choices, k) {
          var i :| 0 <= i < |records| && AcceptsKey(records[i], choices, k);
          if i < n { assert AcceptsKey(init[i], choices, k); }
        }
      }
    }
  }

  /**
   * The entry of a key is decided by the LAST record naming it: 'invalid-status'
   * when that record's status is not a valid choice; otherwise 'duplicated'
   * when an earlier record with the key was accepted, else its own status.
   */
  lemma {:induction false} EchoValue(records: seq<Record>, choices: set<string>, t: string, i: nat, k: DictKey)
    requires EchoAll(records, choices, t).Echoing?
    requires i < |records| && NamesKey(records[i], k)
    requires forall j :: i < j < |records| ==> !NamesKey(records[j], k)
    ensures k in EchoAll(records, choices, t).results
    ensures Classify(records[i], choices).RejectedStatus? ==>
      EchoAll(records, choices, t).results[k] == InvalidStatusText
    ensures Classify(records[i], choices).Accepted? ==>
      EchoAll(records, choices, t).results[k] ==
        if exists j :: 0 <= j < i && AcceptsKey(records[j], choices, k) then Duplicated
        else records[i].status.value
  {
    var n := |records| - 1;
    var init := records[..n];
    assert EchoAll(init, choices, t).Echoing?;
    assert forall j :: 0 <= j < n ==> init[j] == records[j];
    if i == n {
      EchoKeys(init, choices, t);
      var v := Classify(records[n], choices);
      assert !IsFatal(v);
      if v.Accepted? {
        if exists j :: 0 <= j < i && AcceptsKey(records[j], choices, k) {
          var j :| 0 <= j < i && AcceptsKey(records[j], choices, k);
          assert AcceptsKey(init[j], choices, k);
        }
      }
    } else {
      EchoValue(init, choices, t, i, k);
      assert !NamesKey(records[n], k);
    }
  }

  /** The key of every accepted record is in the accepted set. */
  lemma AcceptedAreEnrolled(records: seq<Record>, choices: set<string>, t: string)
    requires EchoAll(records, choices, t).Echoing?
    ensures forall i :: 0 <= i < |records| && SerializerValid(records[i], choices) ==>
      StrKey(records[i].studentKey.value.s) in EchoAll(records, choices, t).enrolled
  {
    EchoKeys(records, choices, t);
    forall i | 0 <= i < |records| && SerializerValid(records[i], choices)
      ensures StrKey(records[i].studentKey.value.s) in EchoAll(records, choices, t).enrolled
    {
      assert AcceptsKey(records[i], choices, StrKey(records[i].studentKey.value.s));
    }
  }

  /** Every record is accepted and no two records share a `student_key`. */
  predicate AllAcceptedDistinct(records: seq<Record>, choices: set<string>)
  {
    (forall i :: 0 <= i < |records| ==> SerializerValid(records[i], choices))
    && (forall i, j :: 0 <= i < j < |records| ==> records[i].studentKey != records[j].studentKey)
  }

  /** One more record grows the accepted set by its key exactly when it is accepted with a new key. */
  lemma EnrolledStep(records: seq<Record>, choices: set<string>, t: string)
    requires records != [] && EchoAll(records, choices, t).Echoing?
    ensures EchoAll(records[..|records| - 1], choices, t).Echoing?
    ensures var before := EchoAll(records[..|records| - 1], choices, t).enrolled;
            var v := Classify(records[|records| - 1], choices);
            EchoAll(records, choices, t).enrolled
              == if v.Accepted? && v.key !in before then before + {v.key} else before
  {
  }

  /** The accepted set is never larger than the batch. */
  lemma {:induction false} EchoCountBound(records: seq<Record>, choices: set<string>, t: string)
    requires EchoAll(records, choices, t).Echoing?
    ensures |EchoAll(records, choices, t).enrolled| <= |records|
  {
    if records != [] {
      EnrolledStep(records, choices, t);
      EchoCountBound(records[..|records| - 1], choices, t);
    }
  }

  /** A batch of accepted records with distinct keys fills the accepted set. */
  lemma {:induction false} DistinctFillsEnrolled(records: seq<Record>, choices: set<string>, t: string)
    requires EchoAll(records, choices, t).Echoing?
    requires AllAcceptedDistinct(records, choices)
    ensures |EchoAll(records, choices, t).enrolled| == |records|
  {
    if records != [] {
      var n := |records| - 1;
      var init := records[..n];
      EnrolledStep(records, choices, t);
      assert forall j :: 0 <= j < n ==> init[j] == records[j];
      assert AllAcceptedDistinct(init, choices);
      DistinctFillsEnrolled(init, choices, t);
      EchoKeys(init, choices, t);
      var v := Classify(records[n], choices);
      assert forall j :: 0 <= j < n ==> records[j].studentKey != records[n].studentKey;
      assert forall j :: 0 <= j < n ==> !AcceptsKey(init[j], choices, v.key);
    }
  }

  /** A full accepted set means every record was accepted with a distinct key. */
  lemma {:induction false} FullEnrolledIsDistinct(records: seq<Record>, choices: set<string>, t: string)
    requires EchoAll(records, choices, t).Echoing?
    requires |EchoAll(records, choices, t).enrolled| == |records|
    ensures AllAcceptedDistinct(records, choices)
  {
    if records != [] {
      var n := |records| - 1;
      var init := records[..n];
      EnrolledStep(records, choices, t);
      EchoCountBound(init, choices, t);
      var before := EchoAll(init, choices, t).enrolled;
      var v := Classify(records[n], choices);
      assert v.Accepted? && v.key !in before && |before| == n;
      FullEnrolledIsDistinct(init, choices, t);
      AcceptedAreEnrolled(init, choices, t);
      assert forall j :: 0 <= j < n ==> init[j] == records[j];
      forall i, j | 0 <= i < j < |records|
        ensures records[i].studentKey != records[j].studentKey
      {
        if j == n {
          assert StrKey(init[i].studentKey.value.s) in before;
        } else {
          assert init[i].studentKey != init[j].studentKey;
        }
      }
    }
  }

  /** The accepted set is as large as the batch exactly when all are accepted with distinct keys. */
  lemma EchoCount(records: seq<Record>, choices: set<string>, t: string)
    requires EchoAll(records, choices, t).Echoing?
    ensures |EchoAll(records, choices, t).enrolled| <= |records|
    ensures |EchoAll(records, choices, t).enrolled| == |records| <==> AllAcceptedDistinct(records, choices)
  {
    EchoCountBound(records, choices, t);
    if AllAcceptedDistinct(records, choices) {
      DistinctFillsEnrolled(records, choices, t);
    }
    if |EchoAll(records, choices, t).enrolled| == |records| {
      FullEnrolledIsDistinct(records, choices, t);
    }
  }

  /**
   * The aggregate code: 422 with the map when no record was accepted
   * (including the empty batch), 200 when every record was accepted with
   * distinct keys, 207 otherwise; and a 422 text reply or a server error
   * exactly when some record is fatal.
   */
  lemma EchoReplyCode(records: seq<Record>, choices: set<string>, t: string)
    ensures !EchoReply(records, choices, t).StatusReply?
        <==> exists i :: 0 <= i < |records| && IsFatal(Classify(records[i], choices))
    ensures EchoReply(records, choices, t).TextReply? || EchoReply(records, choices, t) == ServerError
         || EchoReply(records, choices, t).StatusReply?
    ensures EchoReply(records, choices, t).TextReply? ==> EchoReply(records, choices, t).code == HttpUnprocessable
    ensures EchoReply(records, choices, t).StatusReply? ==>
      (EchoReply(records, choices, t).code == HttpUnprocessable <==>
         forall i :: 0 <= i < |records| ==> !SerializerValid(records[i], choices))
    ensures EchoReply(records, choices, t).StatusReply? ==>
      (EchoReply(records, choices, t).code == HttpOk <==>
         |records| > 0 && AllAcceptedDistinct(records, choices))
    ensures EchoReply(records, choices, t).StatusReply? ==>
      EchoReply(records, choices, t).code in {HttpUnprocessable, HttpMultiStatus, HttpOk}
  {
    EchoAbortsIff(records, choices, t);
    var e := EchoAll(records, choices, t);
    if e.Echoing? {
      EchoKeys(records, choices, t);
      EchoCount(records, choices, t);
      if e.enrolled == {} {
        AcceptedAreEnrolled(records, choices, t);
      } else {
        var k :| k in e.enrolled;
        var i :| 0 <= i < |records| && AcceptsKey(records[i], choices, k);
      }
    }
  }

  /**
   * A batch writing learner a twice, b with a status outside the choices and
   * c once: the second a is reported as duplicated, b as an invalid status,
   * and since two of the four records were enrolled the answer is 207.
   */
  lemma MixedBatchExample(t: string)
    ensures var records := [Object(Some(JStr("a")), Some("active"), false), Object(Some(JStr("a")), Some("active"), false),
                            Object(Some(JStr("b")), Some("bogus"), false), Object(Some(JStr("c")), Some("active"), false)];
      EchoReply(records, {"active"}, t) ==
        StatusReply(HttpMultiStatus, map[StrKey("a") := Duplicated, StrKey("b") := InvalidStatusText, StrKey("c") := "active"])
  {
    var records := [Object(Some(JStr("a")), Some("active"), false), Object(Some(JStr("a")), Some("active"), false),
                    Object(Some(JStr("b")), Some("bogus"), false), Object(Some(JStr("c")), Some("active"), false)];
    assert records[..3][..2] == records[..2] && records[..2][..1] == records[..1] && records[..1][..0] == [];
    assert "bogus"[0] != "active"[0];
    assert Classify(records[2], {"active"}) == RejectedStatus(StrKey("b"));
    assert EchoAll(records[..1], {"active"}, t) == Echoing(map[StrKey("a") := "active"], {StrKey("a")});
    assert EchoAll(records[..2], {"active"}, t) == Echoing(map[StrKey("a") := Duplicated], {StrKey("a")});
    assert EchoAll(records[..3], {"active"}, t)
        == Echoing(map[StrKey("a") := Duplicated, StrKey("b") := InvalidStatusText], {StrKey("a")});
    assert EchoAll(records, {"active"}, t) ==
      Echoing(map[StrKey("a") := Duplicated, StrKey("b") := InvalidStatusText, StrKey("c") := "active"],
              {StrKey("a"), StrKey("c")});
  }

  /**
   * Records with an invalid status are entered under their raw key: a null
   * key becomes None and the number 5 stays apart from the string "5" that a
   * valid record enrols.  Nothing is accepted but "5", so the answer is 207.
   */
  lemma RawKeyExample(t: string)
    ensures var records := [Object(Some(JNull), Some("bogus"), false), Object(Some(JNum(5)), Some("bogus"), false),
                            Object(Some(JStr("5")), Some("active"), false)];
      EchoReply(records, {"active"}, t) ==
        StatusReply(HttpMultiStatus, map[NoneKey := InvalidStatusText, IntKey(5) := InvalidStatusText, StrKey("5") := "active"])
  {
    var records := [Object(Some(JNull), Some("bogus"), false), Object(Some(JNum(5)), Some("bogus"), false),
                    Object(Some(JStr("5")), Some("active"), false)];
    assert records[..2][..1] == records[..1] && records[..1][..0] == [];
    assert "bogus"[0] != "active"[0];
    assert Classify(records[0], {"active"}) == RejectedStatus(NoneKey);
    assert Classify(records[1], {"active"}) == RejectedStatus(IntKey(5));
    assert EchoAll(records[..1], {"active"}, t) == Echoing(map[NoneKey := InvalidStatusText], {});
    assert EchoAll(records[..2], {"active"}, t)
        == Echoing(map[NoneKey := InvalidStatusText, IntKey(5) := InvalidStatusText], {});
    assert EchoAll(records, {"active"}, t) ==
      Echoing(map[NoneKey := InvalidStatusText, IntKey(5) := InvalidStatusText, StrKey("5") := "active"], {StrKey("5")});
  }

  /** An invalid status under a list key raises TypeError: the view fails with a server error. */
  lemma UnhashableKeyExample(t: string, enrolled: seq<Record>)
    requires forall i :: 0 <= i < |enrolled| ==> !IsFatal(Classify(enrolled[i], {"active"}))
    ensures EchoReply(enrolled + [Object(Some(JList([])), Some("bogus"), false)], {"active"}, t) == ServerError
  {
    var records := enrolled + [Object(Some(JList([])), Some("bogus"), false)];
    assert "bogus"[0] != "active"[0];
    assert records[..|records| - 1] == enrolled;
    NoFatalEchoes(enrolled, {"active"}, t);
  }

  /** The request gate of the v1 write views: shape first, then size. */
  function ValidateEnrollmentData(body: Body): (r: Option<Reply>)
    ensures r == None <==> body.List? && |body.records| <= EnrollmentWriteMaxSize
    ensures body.NotList? ==> r == Some(ValidationError)
    ensures body.List? && |body.records| > EnrollmentWriteMaxSize ==> r == Some(TextReply(HttpTooLarge, PayloadTooLargeText))
  {
    match body
    case NotList => Some(ValidationError)
    case List(records) =>
      if |records| > EnrollmentWriteMaxSize then Some(TextReply(HttpTooLarge, PayloadTooLargeText)) else None
  }
}
