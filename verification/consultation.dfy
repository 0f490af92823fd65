/**
 * The consultation form of src/App.jsx and its save pipeline,
 * `submitConsultation`. The backend is an oracle that settles the n-th
 * request issued during one save as fulfilled (with the id in its response
 * body) or rejected. A save issues, in this order:
 *   - the consultation record,
 *   - one creation per selected test name the catalogue does not know,
 *   - one assignment per selected test,
 *   - the vital signs, the symptoms, the prescription and the examination,
 *   - and the follow-up when a duration is chosen.
 */
module Consultation {
  import opened Common
  import opened Vitals
  import opened NeuroScores
  import opened Prescription
  import opened PrintText

  const Doctor: string := "Dr. Abdul Rauf"
  const TestNotes: string := "Optional test notes"
  const DefaultFollowUpNotes: string := "عام چیک اپ"
  const MmseKey: string := "mmse_score"
  const GcsKey: string := "gcs_score"

  datatype Patient = Patient(id: int)

  /** A catalogue test (`{ id, test_name }`). */
  datatype Test = Test(id: int, name: string)

  /** How one request settled: fulfilled with the id of the record it returns, or rejected. */
  datatype Response = Fulfilled(id: int) | Rejected

  /** The backend: the outcome of the n-th request issued in one save (0 is the first). */
  type Oracle = nat -> Response

  /**
   * The requests a save can issue, with the bodies that matter here. The
   * examination request records the examination state it serialises; the
   * body on the wire is `ExamBody(ExamFields, exam)`.
   */
  datatype Call =
    | CreateConsultation(patientId: int, doctorName: string)
    | CreateTest(testName: string, testNotes: string)
    | AssignTest(testId: int, consultationId: int)
    | SubmitVitals(consultationId: int, patientId: int, vitals: VitalSigns)
    | SubmitSymptoms(consultationId: int, patientId: int, symptomIds: seq<int>)
    | SubmitPrescriptions(consultationId: int, patientId: int, medicines: seq<MedicineLine>)
    | SubmitExam(consultationId: int, patientId: int, exam: map<string, ExamValue>)
    | CreateFollowUp(consultationId: int, followUpDate: string, notes: string, durationDays: int)

  /** The consultation a request belongs to; the two creations belong to none. */
  function ConsultationOf(c: Call): Option<int>
  {
    match c
    case CreateConsultation(_, _) => None
    case CreateTest(_, _) => None
    case _ => Some(c.consultationId)
  }

  datatype Outcome =
    | MissingPatient        // alert, return: nothing issued, `loading` untouched
    | ConsultationRejected  // the first request failed: generic alert
    | TestLookupCrashed     // `test.id` of an unresolved name threw: generic alert
    | BatchRejected         // some later request failed: generic alert, no reset
    | Saved                 // toast, reset, print

  /** The form state a save reads (the closure's values). */
  datatype Draft = Draft(
    patient: Option<Patient>,
    tests: seq<Test>,
    selectedTests: seq<string>,
    selectedSymptoms: seq<SymptomOption>,
    selectedMedicines: seq<MedicineLine>,
    vitals: VitalSigns,
    exam: map<string, ExamValue>,
    followUpDate: Option<string>,   // the ISO day the date picker computed
    followUpNotes: string,
    selectedDuration: Option<int>)  // None for null or NaN

  /** What a save did: the requests in issue order, how it ended, the tests it created. */
  datatype Run = Run(calls: seq<Call>, outcome: Outcome, created: seq<Test>)

  /** JavaScript truthiness of `selectedDuration`. */
  predicate DurationChosen(d: Option<int>)
  {
    d.Some? && d.value != 0
  }

  /** The duration select sets the date together with the duration. */
  predicate FollowUpReady(d: Draft)
  {
    DurationChosen(d.selectedDuration) ==> d.followUpDate.Some?
  }

  predicate Distinct(s: seq<string>)
  {
    forall i, j :: 0 <= i < j < |s| ==> s[i] != s[j]
  }

  /* ---------- test catalogue ---------- */

  /** `tests.find((t) => t.test_name === name)` */
  function FindByName(tests: seq<Test>, name: string): Option<Test>
  {
    if |tests| == 0 then None
    else if tests[0].name == name then Some(tests[0])
    else FindByName(tests[1..], name)
  }

  /** `find` answers a test of the catalogue with that name, and nothing only when none has it. */
  lemma {:induction false} FindByNameSpec(tests: seq<Test>, name: string)
    ensures var r := FindByName(tests, name);
      && (r.Some? ==> r.value in tests && r.value.name == name)
      && (r.None? <==> forall t :: t in tests ==> t.name != name)
  {
    if |tests| > 0 {
      FindByNameSpec(tests[1..], name);
      assert forall t :: t in tests ==> t == tests[0] || t in tests[1..];
    }
  }

  /** ... and it answers the first such test. */
  lemma {:induction false} FindByNameFirst(tests: seq<Test>, name: string, i: nat)
    requires i < |tests| && tests[i].name == name
    requires forall j :: 0 <= j < i ==> tests[j].name != name
    ensures FindByName(tests, name) == Some(tests[i])
  {
    if i > 0 {
      FindByNameFirst(tests[1..], name, i - 1);
    }
  }

  /** A name the first list knows is found there, whatever the second adds. */
  lemma {:induction false} FindByNameAppend(a: seq<Test>, b: seq<Test>, name: string)
    ensures FindByName(a + b, name) == if FindByName(a, name).Some? then FindByName(a, name) else FindByName(b, name)
  {
    if |a| == 0 {
      assert a + b == b;
    } else {
      assert (a + b)[1..] == a[1..] + b;
      FindByNameAppend(a[1..], b, name);
    }
  }

  /** `selectedTests.filter((n) => !existingTestNames.has(n))` */
  function NewTestNames(catalog: seq<Test>, selected: seq<string>): seq<string>
  {
    if |selected| == 0 then []
    else
      var last := selected[|selected| - 1];
      NewTestNames(catalog, selected[..|selected| - 1]) + (if FindByName(catalog, last).None? then [last] else [])
  }

  /** The new names are the selected names the catalogue does not know. */
  lemma {:induction false} NewTestNamesMembers(catalog: seq<Test>, selected: seq<string>)
    ensures |NewTestNames(catalog, selected)| <= |selected|
    ensures forall n :: n in NewTestNames(catalog, selected) <==> n in selected && FindByName(catalog, n).None?
  {
    if |selected| > 0 {
      var init := selected[..|selected| - 1];
      assert selected == init + [selected[|selected| - 1]];
      NewTestNamesMembers(catalog, init);
    }
  }

  /** A new name is created as often as it is selected; a known name never. */
  lemma {:induction false} NewTestNamesCount(catalog: seq<Test>, selected: seq<string>, n: string)
    ensures multiset(NewTestNames(catalog, selected))[n]
         == if FindByName(catalog, n).None? then multiset(selected)[n] else 0
  {
    if |selected| > 0 {
      var init := selected[..|selected| - 1];
      assert selected == init + [selected[|selected| - 1]];
      NewTestNamesCount(catalog, init, n);
    }
  }

  lemma {:induction false} NewTestNamesDistinct(catalog: seq<Test>, selected: seq<string>)
    requires Distinct(selected)
    ensures Distinct(NewTestNames(catalog, selected))
  {
    if |selected| > 0 {
      var init := selected[..|selected| - 1];
      var last := selected[|selected| - 1];
      assert selected == init + [last];
      NewTestNamesDistinct(catalog, init);
      NewTestNamesMembers(catalog, init);
      assert last !in init;
    }
  }

  /** One creation request per new name, in order. */
  function CreateCalls(names: seq<string>): (r: seq<Call>)
    ensures |r| == |names|
    ensures forall i :: 0 <= i < |r| ==> r[i] == CreateTest(names[i], TestNotes)
  {
    if |names| == 0 then []
    else CreateCalls(names[..|names| - 1]) + [CreateTest(names[|names| - 1], TestNotes)]
  }

  /** Each name gets as many creation requests as it occurs. */
  lemma {:induction false} CreateCallsCount(names: seq<string>, n: string)
    ensures multiset(CreateCalls(names))[CreateTest(n, TestNotes)] == multiset(names)[n]
  {
    if |names| > 0 {
      var init, last := names[..|names| - 1], names[|names| - 1];
      assert names == init + [last];
      CreateCallsCount(init, n);
      var calls := CreateCalls(init);
      assert CreateCalls(names) == calls + [CreateTest(last, TestNotes)];
      assert multiset(CreateCalls(names)) == multiset(calls) + multiset{CreateTest(last, TestNotes)};
      assert multiset(names) == multiset(init) + multiset{last};
    }
  }

  /**
   * `createdTests`: the tests whose creation (request `base + k` for
   * `names[k]`) was fulfilled, in order.
   */
  function Created(names: seq<string>, oracle: Oracle, base: nat): seq<Test>
  {
    if |names| == 0 then []
    else
      var k := |names| - 1;
      Created(names[..k], oracle, base)
      + (if oracle(base + k).Fulfilled? then [Test(oracle(base + k).id, names[k])] else [])
  }

  /** Every created test answers a fulfilled creation of its name, and every fulfilled creation gave one. */
  lemma {:induction false} CreatedMembers(names: seq<string>, oracle: Oracle, base: nat)
    ensures |Created(names, oracle, base)| <= |names|
    ensures forall t :: t in Created(names, oracle, base) ==>
      exists k :: 0 <= k < |names| && names[k] == t.name && oracle(base + k) == Fulfilled(t.id)
    ensures forall k :: 0 <= k < |names| && oracle(base + k).Fulfilled? ==>
      Test(oracle(base + k).id, names[k]) in Created(names, oracle, base)
  {
    if |names| > 0 {
      var k := |names| - 1;
      var init := names[..k];
      CreatedMembers(init, oracle, base);
      assert forall j :: 0 <= j < k ==> names[j] == init[j];
    }
  }

  /** `tests.find(...) || createdTests.find(...)`, then `.id`; None where `.id` throws. */
  function LookupId(catalog: seq<Test>, created: seq<Test>, name: string): Option<int>
  {
    match FindByName(catalog, name)
    case Some(t) => Some(t.id)
    case None =>
      match FindByName(created, name)
      case Some(t) => Some(t.id)
      case None => None
  }

  /** `testIds`, or None when the map throws on some name. */
  function Resolve(selected: seq<string>, catalog: seq<Test>, created: seq<Test>): Option<seq<int>>
  {
    if |selected| == 0 then Some([])
    else
      var last := selected[|selected| - 1];
      match Resolve(selected[..|selected| - 1], catalog, created)
      case None => None
      case Some(ids) =>
        match LookupId(catalog, created, last)
        case None => None
        case Some(id) => Some(ids + [id])
  }

  /** The map succeeds exactly when every selected name resolves, and then lists their ids in order. */
  lemma {:induction false} ResolveSpec(selected: seq<string>, catalog: seq<Test>, created: seq<Test>)
    ensures var r := Resolve(selected, catalog, created);
      && (r.Some? <==> forall i :: 0 <= i < |selected| ==> LookupId(catalog, created, selected[i]).Some?)
      && (r.Some? ==>
            && |r.value| == |selected|
            && forall i :: 0 <= i < |selected| ==> LookupId(catalog, created, selected[i]) == Some(r.value[i]))
  {
    if |selected| > 0 {
      var init := selected[..|selected| - 1];
      ResolveSpec(init, catalog, created);
      assert forall i :: 0 <= i < |init| ==> selected[i] == init[i];
    }
  }

  /* ---------- the second batch ---------- */

  function AssignCalls(ids: seq<int>, cid: int): (r: seq<Call>)
    ensures |r| == |ids|
    ensures forall i :: 0 <= i < |r| ==> r[i] == AssignTest(ids[i], cid)
  {
    if |ids| == 0 then [] else AssignCalls(ids[..|ids| - 1], cid) + [AssignTest(ids[|ids| - 1], cid)]
  }

  /** `selectedSymptoms.map((s) => s.value)` */
  function SymptomIds(symptoms: seq<SymptomOption>): (r: seq<int>)
    ensures |r| == |symptoms| && forall i :: 0 <= i < |r| ==> r[i] == symptoms[i].value
  {
    if |symptoms| == 0 then [] else SymptomIds(symptoms[..|symptoms| - 1]) + [symptoms[|symptoms| - 1].value]
  }

  /**
   * The examination body: every field of the table is sent; check boxes as
   * booleans (`!!value`), the others as their value or "" (`value || ""`).
   */
  function ExamBody(fields: seq<ExamField>, exam: map<string, ExamValue>): (r: seq<(string, ExamValue)>)
    ensures |r| == |fields|
    ensures forall i :: 0 <= i < |r| ==> r[i].0 == fields[i].key
    ensures forall i :: 0 <= i < |r| && fields[i].isCheck ==>
      r[i].1 == Flag(fields[i].key in exam && Truthy(exam[fields[i].key]))
    ensures forall i :: 0 <= i < |r| && !fields[i].isCheck ==>
      (r[i].1 == Text("") <==> fields[i].key !in exam || !Truthy(exam[fields[i].key]))
    ensures forall i :: 0 <= i < |r| && !fields[i].isCheck && fields[i].key in exam && Truthy(exam[fields[i].key]) ==>
      r[i].1 == exam[fields[i].key]
  {
    if |fields| == 0 then []
    else
      var init := fields[..|fields| - 1];
      var f := fields[|fields| - 1];
      var v := if f.isCheck then Flag(f.key in exam && Truthy(exam[f.key]))
               else if f.key in exam && Truthy(exam[f.key]) then exam[f.key]
               else Text("");
      ExamBody(init, exam) + [(f.key, v)]
  }

  function FollowUpCall(d: Draft, cid: int): Call
    requires DurationChosen(d.selectedDuration) && d.followUpDate.Some?
  {
    CreateFollowUp(cid, d.followUpDate.value,
      if d.followUpNotes != "" then d.followUpNotes else DefaultFollowUpNotes,
      d.selectedDuration.value)
  }

  /** Assignments first (they are issued while `testIds` is mapped), then `apiCalls`. */
  function BatchCalls(d: Draft, cid: int, pid: int, ids: seq<int>): (r: seq<Call>)
    requires FollowUpReady(d)
  {
    AssignCalls(ids, cid)
    + [ SubmitVitals(cid, pid, d.vitals),
        SubmitSymptoms(cid, pid, SymptomIds(d.selectedSymptoms)),
        SubmitPrescriptions(cid, pid, d.selectedMedicines),
        SubmitExam(cid, pid, d.exam) ]
    + (if DurationChosen(d.selectedDuration) then [FollowUpCall(d, cid)] else [])
  }

  /** The shape of the batch: assignments in selection order, the four submissions, the follow-up. */
  lemma BatchCallsShape(d: Draft, cid: int, pid: int, ids: seq<int>)
    requires FollowUpReady(d)
    ensures var b := BatchCalls(d, cid, pid, ids);
      var s := |ids|;
      && |b| == s + 4 + (if DurationChosen(d.selectedDuration) then 1 else 0)
      && (forall i :: 0 <= i < |b| ==> ConsultationOf(b[i]) == Some(cid))
      && (forall i :: 0 <= i < s ==> b[i] == AssignTest(ids[i], cid))
      && b[s] == SubmitVitals(cid, pid, d.vitals)
      && b[s + 1] == SubmitSymptoms(cid, pid, SymptomIds(d.selectedSymptoms))
      && b[s + 2] == SubmitPrescriptions(cid, pid, d.selectedMedicines)
      && b[s + 3] == SubmitExam(cid, pid, d.exam)
      && (DurationChosen(d.selectedDuration) ==> b[s + 4] == FollowUpCall(d, cid))
  {
    var b := BatchCalls(d, cid, pid, ids);
    var assigns := AssignCalls(ids, cid);
    forall i | 0 <= i < |b|
      ensures ConsultationOf(b[i]) == Some(cid)
    {
      if i < |ids| {
        assert b[i] == assigns[i];
      }
    }
  }

  predicate AllFulfilled(oracle: Oracle, from: nat, n: nat)
  {
    forall k :: from <= k < from + n ==> oracle(k).Fulfilled?
  }

  /** The requests before the batch: the consultation, then the test creations. */
  function Opening(d: Draft): (r: seq<Call>)
    requires d.patient.Some?
    ensures |r| == 1 + |NewTestNames(d.tests, d.selectedTests)|
    ensures r[0] == CreateConsultation(d.patient.value.id, Doctor)
    ensures forall i :: 1 <= i < |r| ==> r[i].CreateTest?
  {
    [CreateConsultation(d.patient.value.id, Doctor)] + CreateCalls(NewTestNames(d.tests, d.selectedTests))
  }

  /** One save of the form `d` against the backend `oracle`. */
  function Submission(d: Draft, oracle: Oracle): (r: Run)
    requires FollowUpReady(d)
    ensures r.outcome == MissingPatient <==> d.patient.None?
    ensures r.outcome == MissingPatient ==> r.calls == [] && r.created == []
    ensures d.patient.Some? ==> |r.calls| >= 1 && r.calls[0] == CreateConsultation(d.patient.value.id, Doctor)
    ensures r.outcome == ConsultationRejected <==> d.patient.Some? && oracle(0).Rejected?
    ensures r.outcome == ConsultationRejected ==> |r.calls| == 1 && r.created == []
  {
    if d.patient.None? then Run([], MissingPatient, [])
    else if oracle(0).Rejected? then Run([CreateConsultation(d.patient.value.id, Doctor)], ConsultationRejected, [])
    else
      var created := Created(NewTestNames(d.tests, d.selectedTests), oracle, 1);
      match Resolve(d.selectedTests, d.tests, created)
      case None => Run(Opening(d), TestLookupCrashed, created)
      case Some(ids) =>
        var batch := BatchCalls(d, oracle(0).id, d.patient.value.id, ids);
        Run(Opening(d) + batch,
            if AllFulfilled(oracle, |Opening(d)|, |batch|) then Saved else BatchRejected,
            created)
  }

  /* ---------- properties of a save ---------- */

  /** Past the consultation request, a save either crashes after the creations or issues the batch. */
  lemma SubmissionStages(d: Draft, oracle: Oracle)
    requires FollowUpReady(d) && d.patient.Some? && oracle(0).Fulfilled?
    ensures var r := Submission(d, oracle);
      var lookup := Resolve(d.selectedTests, d.tests, r.created);
      && r.created == Created(NewTestNames(d.tests, d.selectedTests), oracle, 1)
      && (r.outcome == TestLookupCrashed <==> lookup.None?)
      && (lookup.None? ==> r.calls == Opening(d))
      && (lookup.Some? ==>
            var batch := BatchCalls(d, oracle(0).id, d.patient.value.id, lookup.value);
            && r.calls == Opening(d) + batch
            && (r.outcome == Saved <==> AllFulfilled(oracle, |Opening(d)|, |batch|))
            && (r.outcome != Saved ==> r.outcome == BatchRejected))
  {
  }

  /** Tests are created only for selected names the catalogue does not know. */
  lemma CreatedAreNew(d: Draft, oracle: Oracle)
    requires FollowUpReady(d)
    ensures forall t :: t in Submission(d, oracle).created ==>
      t.name in d.selectedTests && FindByName(d.tests, t.name).None?
  {
    if d.patient.Some? && oracle(0).Fulfilled? {
      SubmissionStages(d, oracle);
      var names := NewTestNames(d.tests, d.selectedTests);
      CreatedMembers(names, oracle, 1);
      NewTestNamesMembers(d.tests, d.selectedTests);
      forall t | t in Submission(d, oracle).created
        ensures t.name in d.selectedTests && FindByName(d.tests, t.name).None?
      {
        var k :| 0 <= k < |names| && names[k] == t.name && oracle(1 + k) == Fulfilled(t.id);
        assert names[k] in names;
      }
    }
  }

  /** Once the consultation exists, requests 1 .. |new names| create the new test names in order. */
  lemma TestCreationRequests(d: Draft, oracle: Oracle)
    requires FollowUpReady(d) && d.patient.Some? && oracle(0).Fulfilled?
    ensures var r := Submission(d, oracle);
      var names := NewTestNames(d.tests, d.selectedTests);
      1 + |names| <= |r.calls| && r.calls[1..1 + |names|] == CreateCalls(names)
  {
    var r := Submission(d, oracle);
    var names := NewTestNames(d.tests, d.selectedTests);
    SubmissionStages(d, oracle);
    var opening := Opening(d);
    assert opening[1..] == CreateCalls(names);
    assert r.calls[..|opening|] == opening;
  }

  /** Each new name is created exactly as often as it is selected, and no known name is created. */
  lemma TestCreationCounts(d: Draft, n: string)
    ensures var names := NewTestNames(d.tests, d.selectedTests);
      multiset(CreateCalls(names))[CreateTest(n, TestNotes)]
      == (if FindByName(d.tests, n).None? then multiset(d.selectedTests)[n] else 0)
  {
    CreateCallsCount(NewTestNames(d.tests, d.selectedTests), n);
    NewTestNamesCount(d.tests, d.selectedTests, n);
  }

  /** A selected name can be resolved exactly when the catalogue knows it or one of its creations was fulfilled. */
  lemma LookupIdIff(d: Draft, oracle: Oracle, name: string)
    ensures var names := NewTestNames(d.tests, d.selectedTests);
      LookupId(d.tests, Created(names, oracle, 1), name).None? <==>
        FindByName(d.tests, name).None?
        && forall k :: 0 <= k < |names| && names[k] == name ==> oracle(1 + k).Rejected?
  {
    var names := NewTestNames(d.tests, d.selectedTests);
    var created := Created(names, oracle, 1);
    CreatedMembers(names, oracle, 1);
    FindByNameSpec(created, name);
    if FindByName(created, name).Some? {
      var t := FindByName(created, name).value;
      var k :| 0 <= k < |names| && names[k] == t.name && oracle(1 + k) == Fulfilled(t.id);
    } else {
      assert forall k :: 0 <= k < |names| && names[k] == name ==> oracle(1 + k).Rejected?;
    }
  }

  /**
   * The crash of src/App.jsx: when every creation of some new selected
   * name is rejected, the lookup finds nothing, `test.id` throws, and no
   * request follows the creations.
   */
  lemma CreationFailureCrashes(d: Draft, oracle: Oracle, name: string)
    requires FollowUpReady(d) && d.patient.Some? && oracle(0).Fulfilled?
    requires name in d.selectedTests && FindByName(d.tests, name).None?
    requires var names := NewTestNames(d.tests, d.selectedTests);
      forall k :: 0 <= k < |names| && names[k] == name ==> oracle(1 + k).Rejected?
    ensures var r := Submission(d, oracle);
      && r.outcome == TestLookupCrashed
      && |r.calls| == 1 + |NewTestNames(d.tests, d.selectedTests)|
      && forall i :: 1 <= i < |r.calls| ==> r.calls[i].CreateTest?
  {
    var names := NewTestNames(d.tests, d.selectedTests);
    SubmissionStages(d, oracle);
    LookupIdIff(d, oracle, name);
    ResolveSpec(d.selectedTests, d.tests, Created(names, oracle, 1));
    var i :| 0 <= i < |d.selectedTests| && d.selectedTests[i] == name;
    assert Resolve(d.selectedTests, d.tests, Created(names, oracle, 1)).None?;
  }

  /** The save crashes in the lookup exactly when some new selected name got no test. */
  lemma LookupCrashIff(d: Draft, oracle: Oracle)
    requires FollowUpReady(d) && d.patient.Some? && oracle(0).Fulfilled?
    ensures var names := NewTestNames(d.tests, d.selectedTests);
      Submission(d, oracle).outcome == TestLookupCrashed <==>
        exists name :: name in d.selectedTests && FindByName(d.tests, name).None?
          && forall k :: 0 <= k < |names| && names[k] == name ==> oracle(1 + k).Rejected?
  {
    var names := NewTestNames(d.tests, d.selectedTests);
    var created := Created(names, oracle, 1);
    SubmissionStages(d, oracle);
    ResolveSpec(d.selectedTests, d.tests, created);
    if Resolve(d.selectedTests, d.tests, created).None? {
      var i :| 0 <= i < |d.selectedTests| && LookupId(d.tests, created, d.selectedTests[i]).None?;
      LookupIdIff(d, oracle, d.selectedTests[i]);
    } else {
      forall name | name in d.selectedTests && FindByName(d.tests, name).None?
        ensures exists k :: 0 <= k < |names| && names[k] == name && oracle(1 + k).Fulfilled?
      {
        var i :| 0 <= i < |d.selectedTests| && d.selectedTests[i] == name;
        LookupIdIff(d, oracle, name);
      }
    }
  }

  /** A save that reached the batch: the lookup resolved one id per selected name, and the batch follows the opening. */
  lemma PastLookup(d: Draft, oracle: Oracle)
    requires FollowUpReady(d)
    requires Submission(d, oracle).outcome in {BatchRejected, Saved}
    ensures d.patient.Some? && oracle(0).Fulfilled?
    ensures var r := Submission(d, oracle);
      var lookup := Resolve(d.selectedTests, d.tests, r.created);
      && lookup.Some? && |lookup.value| == |d.selectedTests|
      && |Opening(d)| == 1 + |NewTestNames(d.tests, d.selectedTests)|
      && r.calls == Opening(d) + BatchCalls(d, oracle(0).id, d.patient.value.id, lookup.value)
  {
    var r := Submission(d, oracle);
    SubmissionStages(d, oracle);
    ResolveSpec(d.selectedTests, d.tests, r.created);
  }

  /**
   * When the lookup succeeds, the save goes on with one request per
   * selected test and the four submissions, plus the follow-up exactly
   * when a duration is chosen; every one of them names the new
   * consultation.
   */
  lemma BatchScopedToConsultation(d: Draft, oracle: Oracle)
    requires FollowUpReady(d)
    requires Submission(d, oracle).outcome in {BatchRejected, Saved}
    ensures var r := Submission(d, oracle);
      var base := 1 + |NewTestNames(d.tests, d.selectedTests)|;
      && |r.calls| == base + |d.selectedTests| + 4 + (if DurationChosen(d.selectedDuration) then 1 else 0)
      && (forall i :: base <= i < |r.calls| ==> ConsultationOf(r.calls[i]) == Some(oracle(0).id))
  {
    PastLookup(d, oracle);
    var r := Submission(d, oracle);
    var cid, pid := oracle(0).id, d.patient.value.id;
    var ids := Resolve(d.selectedTests, d.tests, r.created).value;
    var opening, batch := Opening(d), BatchCalls(d, cid, pid, ids);
    BatchCallsShape(d, cid, pid, ids);
    forall i | |opening| <= i < |r.calls|
      ensures ConsultationOf(r.calls[i]) == Some(cid)
    {
      assert r.calls[i] == batch[i - |opening|];
    }
  }

  /**
   * The first requests of the batch assign the selected tests, in
   * selection order, each to the catalogue's test of that name or else to
   * the first test created for it.
   */
  lemma BatchAssignments(d: Draft, oracle: Oracle)
    requires FollowUpReady(d)
    requires Submission(d, oracle).outcome in {BatchRejected, Saved}
    ensures var r := Submission(d, oracle);
      var base := 1 + |NewTestNames(d.tests, d.selectedTests)|;
      && base + |d.selectedTests| <= |r.calls|
      && forall j :: base <= j < base + |d.selectedTests| ==>
           && r.calls[j].AssignTest?
           && r.calls[j].consultationId == oracle(0).id
           && Some(r.calls[j].testId) == LookupId(d.tests, r.created, d.selectedTests[j - base])
  {
    AssignmentsFollowLookup(d, oracle);
    var r := Submission(d, oracle);
    ResolveSpec(d.selectedTests, d.tests, r.created);
  }

  /** The assignment requests carry the ids of the lookup, in selection order. */
  lemma AssignmentsFollowLookup(d: Draft, oracle: Oracle)
    requires FollowUpReady(d)
    requires Submission(d, oracle).outcome in {BatchRejected, Saved}
    ensures var r := Submission(d, oracle);
      var lookup := Resolve(d.selectedTests, d.tests, r.created);
      var base := 1 + |NewTestNames(d.tests, d.selectedTests)|;
      && lookup.Some? && |lookup.value| == |d.selectedTests|
      && base + |d.selectedTests| <= |r.calls|
      && forall j :: base <= j < base + |d.selectedTests| ==>
           r.calls[j] == AssignTest(lookup.value[j - base], oracle(0).id)
  {
    PastLookup(d, oracle);
    var r := Submission(d, oracle);
    var cid, pid := oracle(0).id, d.patient.value.id;
    var ids := Resolve(d.selectedTests, d.tests, r.created).value;
    var opening, batch := Opening(d), BatchCalls(d, cid, pid, ids);
    assert r.calls == opening + batch;
    BatchCallsShape(d, cid, pid, ids);
    AssignmentsAfterOpening(opening, batch, ids, cid);
  }

  /** Assignments at the head of the batch sit right after the opening requests. */
  lemma AssignmentsAfterOpening(opening: seq<Call>, batch: seq<Call>, ids: seq<int>, cid: int)
    requires |ids| <= |batch|
    requires forall i :: 0 <= i < |ids| ==> batch[i] == AssignTest(ids[i], cid)
    ensures forall j :: |opening| <= j < |opening| + |ids| ==>
      (opening + batch)[j] == AssignTest(ids[j - |opening|], cid)
  {
  }

  /**
   * After the assignments come the vital signs, the symptom ids, the
   * prescription lines and the examination, then the follow-up, whose
   * notes default to "عام چیک اپ", when a duration is chosen.
   */
  lemma BatchSubmissions(d: Draft, oracle: Oracle)
    requires FollowUpReady(d)
    requires Submission(d, oracle).outcome in {BatchRejected, Saved}
    ensures var r := Submission(d, oracle);
      var pid := d.patient.value.id;
      var cid := oracle(0).id;
      var s := 1 + |NewTestNames(d.tests, d.selectedTests)| + |d.selectedTests|;
      && s + 4 <= |r.calls|
      && r.calls[s] == SubmitVitals(cid, pid, d.vitals)
      && r.calls[s + 1] == SubmitSymptoms(cid, pid, SymptomIds(d.selectedSymptoms))
      && r.calls[s + 2] == SubmitPrescriptions(cid, pid, d.selectedMedicines)
      && r.calls[s + 3] == SubmitExam(cid, pid, d.exam)
      && (DurationChosen(d.selectedDuration) ==>
            r.calls[s + 4] == CreateFollowUp(cid, d.followUpDate.value,
              if d.followUpNotes != "" then d.followUpNotes else DefaultFollowUpNotes,
              d.selectedDuration.value))
  {
    PastLookup(d, oracle);
    var r := Submission(d, oracle);
    var cid, pid := oracle(0).id, d.patient.value.id;
    var ids := Resolve(d.selectedTests, d.tests, r.created).value;
    var opening, batch := Opening(d), BatchCalls(d, cid, pid, ids);
    BatchCallsShape(d, cid, pid, ids);
    var k := |ids|;
    assert r.calls[|opening| + k] == batch[k] && r.calls[|opening| + k + 1] == batch[k + 1];
    assert r.calls[|opening| + k + 2] == batch[k + 2] && r.calls[|opening| + k + 3] == batch[k + 3];
    if DurationChosen(d.selectedDuration) {
      assert r.calls[|opening| + k + 4] == batch[k + 4];
    }
  }

  /**
   * A saved consultation had every request fulfilled except, possibly,
   * some test creations; and a save in which every request issued was
   * fulfilled is saved.
   */
  lemma SavedMeansFulfilled(d: Draft, oracle: Oracle)
    requires FollowUpReady(d)
    ensures var r := Submission(d, oracle);
      r.outcome == Saved ==> forall i :: 0 <= i < |r.calls| && !r.calls[i].CreateTest? ==> oracle(i).Fulfilled?
    ensures var r := Submission(d, oracle);
      d.patient.Some? && (forall i :: 0 <= i < |r.calls| ==> oracle(i).Fulfilled?) ==> r.outcome == Saved
  {
    var r := Submission(d, oracle);
    if d.patient.Some? && oracle(0).Fulfilled? {
      SubmissionStages(d, oracle);
      var names := NewTestNames(d.tests, d.selectedTests);
      var opening := Opening(d);
      if r.outcome == Saved {
        forall i | 0 <= i < |r.calls| && !r.calls[i].CreateTest?
          ensures oracle(i).Fulfilled?
        {
          if i < |opening| {
            assert r.calls[i] == opening[i];
          }
        }
      }
      if forall i :: 0 <= i < |r.calls| ==> oracle(i).Fulfilled? {
        if r.outcome == TestLookupCrashed {
          LookupCrashIff(d, oracle);
          NewTestNamesMembers(d.tests, d.selectedTests);
          assert false;
        }
      }
    }
  }

  /** With each test selected once, a rejected creation always crashes the save. */
  lemma RejectedCreationCrashes(d: Draft, oracle: Oracle, k: nat)
    requires FollowUpReady(d) && Distinct(d.selectedTests) && d.patient.Some? && oracle(0).Fulfilled?
    requires k < |NewTestNames(d.tests, d.selectedTests)| && oracle(1 + k).Rejected?
    ensures Submission(d, oracle).outcome == TestLookupCrashed
  {
    var names := NewTestNames(d.tests, d.selectedTests);
    NewTestNamesDistinct(d.tests, d.selectedTests);
    NewTestNamesMembers(d.tests, d.selectedTests);
    var name := names[k];
    assert name in names;
    forall j | 0 <= j < |names| && names[j] == name
      ensures oracle(1 + j).Rejected?
    {
      assert j == k;
    }
    CreationFailureCrashes(d, oracle, name);
  }

  /** With each test selected once, a saved consultation had every test creation fulfilled. */
  lemma SavedCreationsFulfilled(d: Draft, oracle: Oracle)
    requires FollowUpReady(d) && Distinct(d.selectedTests)
    requires Submission(d, oracle).outcome == Saved
    ensures var r := Submission(d, oracle);
      forall i :: 0 <= i < |r.calls| && r.calls[i].CreateTest? ==> oracle(i).Fulfilled?
  {
    var calls := Submission(d, oracle).calls;
    var base := 1 + |NewTestNames(d.tests, d.selectedTests)|;
    BatchScopedToConsultation(d, oracle);
    forall i | 0 <= i < |calls| && calls[i].CreateTest?
      ensures oracle(i).Fulfilled?
    {
      assert i != 0 && i < base by {
        assert ConsultationOf(calls[i]).None?;
      }
      if oracle(i).Rejected? {
        RejectedCreationCrashes(d, oracle, i - 1);
      }
    }
  }

  /** With each test selected once, a save succeeds exactly when every request it issued succeeded. */
  lemma AllOrNothing(d: Draft, oracle: Oracle)
    requires FollowUpReady(d) && Distinct(d.selectedTests)
    ensures var r := Submission(d, oracle);
      r.outcome == Saved <==> d.patient.Some? && forall i :: 0 <= i < |r.calls| ==> oracle(i).Fulfilled?
  {
    SavedMeansFulfilled(d, oracle);
    if Submission(d, oracle).outcome == Saved {
      SavedCreationsFulfilled(d, oracle);
    }
  }

  /**
   * After a save that got past the consultation request, the merged
   * catalogue `tests + createdTests` leaves a second save of the same
   * selection to create only names whose every creation was rejected.
   */
  lemma ResubmissionCreatesOnlyFailed(d: Draft, oracle: Oracle, name: string)
    requires FollowUpReady(d) && d.patient.Some? && oracle(0).Fulfilled?
    ensures var names := NewTestNames(d.tests, d.selectedTests);
      var merged := d.tests + Submission(d, oracle).created;
      name in NewTestNames(merged, d.selectedTests) <==>
        name in names && forall k :: 0 <= k < |names| && names[k] == name ==> oracle(1 + k).Rejected?
  {
    var names := NewTestNames(d.tests, d.selectedTests);
    var created := Created(names, oracle, 1);
    SubmissionStages(d, oracle);
    FindByNameAppend(d.tests, created, name);
    NewTestNamesMembers(d.tests, d.selectedTests);
    NewTestNamesMembers(d.tests + created, d.selectedTests);
    LookupIdIff(d, oracle, name);
  }

  /** The catalogue side of the one-new-test scenario: one creation, and its id resolves the selection. */
  lemma OneNewTestResolved(d: Draft, oracle: Oracle)
    requires d.selectedTests == ["MRI Brain"] && FindByName(d.tests, "MRI Brain").None?
    requires oracle(1).Fulfilled?
    ensures NewTestNames(d.tests, d.selectedTests) == ["MRI Brain"]
    ensures Created(["MRI Brain"], oracle, 1) == [Test(oracle(1).id, "MRI Brain")]
    ensures Resolve(d.selectedTests, d.tests, [Test(oracle(1).id, "MRI Brain")]) == Some([oracle(1).id])
  {
    var names := NewTestNames(d.tests, d.selectedTests);
    assert d.selectedTests[..0] == [];
    assert names == NewTestNames(d.tests, []) + ["MRI Brain"];
    var one: seq<string> := ["MRI Brain"];
    assert one[..0] == [];
    var created := [Test(oracle(1).id, "MRI Brain")];
    assert Created(one, oracle, 1) == Created([], oracle, 1) + created;
    assert LookupId(d.tests, created, "MRI Brain") == Some(oracle(1).id);
    assert Resolve(one[..0], d.tests, created) == Some([]);
    assert Resolve(one, d.tests, created) == Some([] + [oracle(1).id]);
    assert [] + [oracle(1).id] == [oracle(1).id];
  }

  /** The one-new-test save as a whole: the opening requests, the batch for the one id, success. */
  lemma OneNewTestRun(d: Draft, oracle: Oracle)
    requires d.patient.Some? && d.selectedTests == ["MRI Brain"] && d.selectedDuration.None?
    requires FindByName(d.tests, "MRI Brain").None?
    requires forall k :: oracle(k).Fulfilled?
    ensures var r := Submission(d, oracle);
      var cid, pid := oracle(0).id, d.patient.value.id;
      && r.outcome == Saved
      && r.created == [Test(oracle(1).id, "MRI Brain")]
      && r.calls == [CreateConsultation(pid, Doctor), CreateTest("MRI Brain", TestNotes)]
                    + BatchCalls(d, cid, pid, [oracle(1).id])
  {
    var r := Submission(d, oracle);
    SubmissionStages(d, oracle);
    OneNewTestResolved(d, oracle);
    var cid, pid, ids := oracle(0).id, d.patient.value.id, [oracle(1).id];
    assert Resolve(d.selectedTests, d.tests, r.created) == Some(ids);
    var opening, batch := Opening(d), BatchCalls(d, cid, pid, ids);
    OneNewTestOpening(d);
    BatchCallsShape(d, cid, pid, ids);
    assert AllFulfilled(oracle, |opening|, |batch|);
  }

  /** The requests before the batch when the one new selected test is "MRI Brain". */
  lemma OneNewTestOpening(d: Draft)
    requires d.patient.Some? && d.selectedTests == ["MRI Brain"] && FindByName(d.tests, "MRI Brain").None?
    ensures Opening(d) == [CreateConsultation(d.patient.value.id, Doctor), CreateTest("MRI Brain", TestNotes)]
  {
    var names := NewTestNames(d.tests, d.selectedTests);
    assert d.selectedTests[..0] == [];
    assert names == NewTestNames(d.tests, []) + ["MRI Brain"];
    var creations := CreateCalls(names);
    assert |creations| == 1 && creations[0] == CreateTest("MRI Brain", TestNotes);
    assert creations == [CreateTest("MRI Brain", TestNotes)];
  }

  /**
   * A save of a draft with one new test, "MRI Brain", and no follow-up,
   * against a backend that fulfils everything: the consultation, one test
   * creation, one assignment, the four submissions, and success.
   */
  lemma OneNewTestScenario(d: Draft, oracle: Oracle)
    requires d.patient.Some? && d.selectedTests == ["MRI Brain"] && d.selectedDuration.None?
    requires FindByName(d.tests, "MRI Brain").None?
    requires forall k :: oracle(k).Fulfilled?
    ensures var r := Submission(d, oracle);
      var cid := oracle(0).id;
      && r.outcome == Saved
      && |r.calls| == 7
      && r.calls[1] == CreateTest("MRI Brain", TestNotes)
      && r.calls[2] == AssignTest(oracle(1).id, cid)
      && r.calls[3].SubmitVitals? && r.calls[4].SubmitSymptoms?
      && r.calls[5].SubmitPrescriptions? && r.calls[6].SubmitExam?
      && r.created == [Test(oracle(1).id, "MRI Brain")]
  {
    OneNewTestRun(d, oracle);
    var cid, pid, ids := oracle(0).id, d.patient.value.id, [oracle(1).id];
    BatchCallsShape(d, cid, pid, ids);
    var calls := Submission(d, oracle).calls;
    var batch := BatchCalls(d, cid, pid, ids);
    assert calls[2..] == batch;
  }

  /* ---------- the request loops ---------- */

  /** `newTests.map((n) => axios.post(...))` and `Promise.allSettled`: the requests and the fulfilled tests. */
  method IssueTestCreations(names: seq<string>, oracle: Oracle) returns (requests: seq<Call>, created: seq<Test>)
    ensures requests == CreateCalls(names)
    ensures created == Created(names, oracle, 1)
  {
    requests, created := [], [];
    var k := 0;
    while k < |names|
      invariant 0 <= k <= |names|
      invariant requests == CreateCalls(names[..k])
      invariant created == Created(names[..k], oracle, 1)
    {
      assert names[..k + 1][..k] == names[..k];
      requests := requests + [CreateTest(names[k], TestNotes)];
      var settled := oracle(1 + k);
      if settled.Fulfilled? {
        created := created + [Test(settled.id, names[k])];
      }
      k := k + 1;
    }
    assert names[..k] == names;
  }

  /** `testIds.map((id) => axios.post(...))` */
  method IssueAssignments(ids: seq<int>, cid: int) returns (requests: seq<Call>)
    ensures requests == AssignCalls(ids, cid)
  {
    requests := [];
    var j := 0;
    while j < |ids|
      invariant 0 <= j <= |ids|
      invariant requests == AssignCalls(ids[..j], cid)
    {
      assert ids[..j + 1][..j] == ids[..j];
      requests := requests + [AssignTest(ids[j], cid)];
      j := j + 1;
    }
    assert ids[..j] == ids;
  }

  /** `results.filter((r) => r.status === "rejected").length === 0` over requests `from .. from + n`. */
  method SettleBatch(oracle: Oracle, from: nat, n: nat) returns (allFulfilled: bool)
    ensures allFulfilled <==> AllFulfilled(oracle, from, n)
  {
    allFulfilled := true;
    var i := from;
    while i < from + n
      invariant from <= i <= from + n
      invariant allFulfilled <==> AllFulfilled(oracle, from, i - from)
    {
      if oracle(i).Rejected? {
        allFulfilled := false;
      }
      i := i + 1;
    }
  }

  /**
   * The requests of `submitConsultation`, step by step: the consultation,
   * the test creations, the lookup, then the batch and its settlement.
   */
  method Save(d: Draft, oracle: Oracle) returns (r: Run)
    requires FollowUpReady(d)
    ensures r == Submission(d, oracle)
  {
    if d.patient.None? {
      return Run([], MissingPatient, []);
    }
    var pid := d.patient.value.id;
    var calls := [CreateConsultation(pid, Doctor)];
    var consultation := oracle(0);
    if consultation.Rejected? {
      return Run(calls, ConsultationRejected, []);
    }
    var cid := consultation.id;
    SubmissionStages(d, oracle);

    // Step 2: one creation request per new name, settled together.
    var creations, created := IssueTestCreations(NewTestNames(d.tests, d.selectedTests), oracle);
    calls := calls + creations;
    var lookup := Resolve(d.selectedTests, d.tests, created);
    if lookup.None? {
      return Run(calls, TestLookupCrashed, created);
    }

    // Steps 3 and 4: the assignments (issued while the ids are mapped), then `apiCalls`.
    var batch := IssueAssignments(lookup.value, cid);
    batch := batch + [ SubmitVitals(cid, pid, d.vitals),
                       SubmitSymptoms(cid, pid, SymptomIds(d.selectedSymptoms)),
                       SubmitPrescriptions(cid, pid, d.selectedMedicines),
                       SubmitExam(cid, pid, d.exam) ];
    if DurationChosen(d.selectedDuration) {
      batch := batch + [FollowUpCall(d, cid)];
    }

    // Step 5: any rejected request fails the save.
    var allFulfilled := SettleBatch(oracle, |calls|, |batch|);
    r := Run(calls + batch, if allFulfilled then Saved else BatchRejected, created);
  }

  /* ---------- catalogue options and the score effect ---------- */

  datatype MedicineOption = MedicineOption(value: int, caption: string)

  /** The medicine record the backend returns. */
  datatype MedicineRecord = MedicineRecord(id: int, form: string, brandName: string, strength: string)

  /** The option `handleCreateMedicine` appends. */
  function CreatedMedicineCaption(m: MedicineRecord): string
  {
    m.form + " " + m.brandName + " (" + m.strength + ")"
  }

  /** The option the initial medicine load builds (src/App.jsx:607-609), for comparison. */
  function LoadedMedicineCaption(m: MedicineRecord): string
  {
    m.form + " " + m.brandName + (if m.strength != "" then " (" + m.strength + ")" else "")
  }

  /** A newly created medicine is captioned as a reload would caption it exactly when it has a strength. */
  lemma CreatedCaptionMatchesLoaded(m: MedicineRecord)
    ensures CreatedMedicineCaption(m) == LoadedMedicineCaption(m) <==> m.strength != ""
  {
    if m.strength == "" {
      assert |CreatedMedicineCaption(m)| == |LoadedMedicineCaption(m)| + 3;
    }
  }

  /** The effect that clamps both stored scores after either changes. */
  function ClampEffect(exam: map<string, ExamValue>): (r: map<string, ExamValue>)
    ensures r.Keys == exam.Keys
    ensures forall k :: k in exam && k != MmseKey && k != GcsKey ==> r[k] == exam[k]
    ensures forall k :: k in r ==> (r[k].Text? <==> exam[k].Text?)
  {
    var once := if MmseKey in exam && exam[MmseKey].Text? then exam[MmseKey := Text(ClampMmse(exam[MmseKey].text))] else exam;
    if GcsKey in once && once[GcsKey].Text? then once[GcsKey := Text(ClampGcs(once[GcsKey].text))] else once
  }

  /** The effect clamps each stored score text with its own scale. */
  lemma ClampEffectScores(exam: map<string, ExamValue>)
    ensures MmseKey in exam && exam[MmseKey].Text? ==>
      ClampEffect(exam)[MmseKey] == Text(ClampMmse(exam[MmseKey].text))
    ensures GcsKey in exam && exam[GcsKey].Text? ==>
      ClampEffect(exam)[GcsKey] == Text(ClampGcs(exam[GcsKey].text))
  {
    assert |MmseKey| != |GcsKey|;
  }

  /** The effect settles: running it on its own update changes nothing. */
  lemma ClampEffectSettles(exam: map<string, ExamValue>)
    ensures ClampEffect(ClampEffect(exam)) == ClampEffect(exam)
  {
    var e := ClampEffect(exam);
    if MmseKey in exam && exam[MmseKey].Text? {
      MmseClampBoundedAndStable(exam[MmseKey].text);
    }
    if GcsKey in exam && exam[GcsKey].Text? {
      GcsClampBoundedAndStable(exam[GcsKey].text);
    }
    ClampEffectScores(exam);
    ClampEffectScores(e);
    forall k | k in e
      ensures ClampEffect(e)[k] == e[k]
    {
    }
  }

  /** Storing a field other than the two scores leaves the effect's work unchanged. */
  lemma ClampEffectIgnoresOtherKeys(exam: map<string, ExamValue>, key: string, v: ExamValue)
    requires key != MmseKey && key != GcsKey
    ensures ClampEffect(exam[key := v]) == ClampEffect(exam)[key := v]
  {
    var e := exam[key := v];
    assert (MmseKey in e && e[MmseKey].Text?) <==> (MmseKey in exam && exam[MmseKey].Text?);
    assert (GcsKey in e && e[GcsKey].Text?) <==> (GcsKey in exam && exam[GcsKey].Text?);
    ClampEffectScores(e);
    ClampEffectScores(exam);
    assert ClampEffect(e).Keys == (ClampEffect(exam)[key := v]).Keys;
  }

  /* ---------- the form ---------- */

  /** Every piece of the form's state, so that a handler can state its whole new state at once. */
  datatype FormState = FormState(
    patient: Option<Patient>, tests: seq<Test>, selectedTests: seq<string>,
    symptoms: seq<SymptomOption>, selectedSymptoms: seq<SymptomOption>,
    medicines: seq<MedicineOption>, selectedMedicines: seq<MedicineLine>,
    vitals: VitalSigns, exam: map<string, ExamValue>,
    followUpDate: Option<string>, followUpNotes: string, selectedDuration: Option<int>,
    loading: bool, isCreating: bool, isFetchingSymptoms: bool, printed: seq<Draft>)

  class ConsultationForm {
    var patient: Option<Patient>
    var tests: seq<Test>
    var selectedTests: seq<string>
    var symptoms: seq<SymptomOption>
    var selectedSymptoms: seq<SymptomOption>
    var medicines: seq<MedicineOption>
    var selectedMedicines: seq<MedicineLine>
    var vitals: VitalSigns
    var exam: map<string, ExamValue>
    var followUpDate: Option<string>
    var followUpNotes: string
    var selectedDuration: Option<int>
    var loading: bool
    var isCreating: bool
    var isFetchingSymptoms: bool
    /** The drafts handed to `handlePrint`, oldest first. */
    var printed: seq<Draft>

    function Snapshot(): Draft
      reads this
    {
      Draft(patient, tests, selectedTests, selectedSymptoms, selectedMedicines, vitals, exam,
            followUpDate, followUpNotes, selectedDuration)
    }

    function State(): FormState
      reads this
    {
      FormState(patient, tests, selectedTests, symptoms, selectedSymptoms, medicines, selectedMedicines,
                vitals, exam, followUpDate, followUpNotes, selectedDuration,
                loading, isCreating, isFetchingSymptoms, printed)
    }

    ghost predicate Valid()
      reads this
    {
      FollowUpReady(Snapshot())
    }

    /** The initial `useState` values. */
    constructor ()
      ensures Valid()
      ensures patient.None? && tests == [] && selectedTests == [] && symptoms == []
      ensures selectedSymptoms == [] && medicines == [] && selectedMedicines == []
      ensures vitals == BlankVitals && exam == map[]
      ensures followUpDate.None? && followUpNotes == "" && selectedDuration.None?
      ensures !loading && !isCreating && !isFetchingSymptoms && printed == []
    {
      patient := None;
      tests := [];
      selectedTests := [];
      symptoms := [];
      selectedSymptoms := [];
      medicines := [];
      selectedMedicines := [];
      vitals := BlankVitals;
      exam := map[];
      followUpDate := None;
      followUpNotes := "";
      selectedDuration := None;
      loading := false;
      isCreating := false;
      isFetchingSymptoms := false;
      printed := [];
    }

    /**
     * `submitConsultation`: issues the requests of `Submission` in order,
     * appends the created tests to the catalogue, and on success resets
     * the vitals and follow-up fields and prints the draft it saved.
     */
    method Submit(oracle: Oracle) returns (run: Run)
      requires Valid()
      modifies this
      ensures Valid()
      ensures run == Submission(old(Snapshot()), oracle)
      ensures tests == old(tests) + run.created
      ensures run.outcome == MissingPatient ==> loading == old(loading)
      ensures run.outcome != MissingPatient ==> !loading
      ensures run.outcome == Saved ==>
        && vitals == BlankVitals && followUpDate.None? && followUpNotes == "" && selectedDuration.None?
        && printed == old(printed) + [old(Snapshot())]
      ensures run.outcome != Saved ==>
        && vitals == old(vitals) && followUpDate == old(followUpDate)
        && followUpNotes == old(followUpNotes) && selectedDuration == old(selectedDuration)
        && printed == old(printed)
      ensures patient == old(patient) && selectedTests == old(selectedTests) && symptoms == old(symptoms)
      ensures selectedSymptoms == old(selectedSymptoms) && medicines == old(medicines)
      ensures selectedMedicines == old(selectedMedicines) && exam == old(exam)
      ensures isCreating == old(isCreating) && isFetchingSymptoms == old(isFetchingSymptoms)
    {
      var draft := Snapshot();
      run := Save(draft, oracle);
      Settle(run.outcome, run.created, draft);
    }

    /**
     * The state changes after the requests of `submitConsultation`: nothing
     * when no patient is loaded; otherwise the created tests join the
     * catalogue and, after a save, the vitals and follow-up fields reset and
     * the saved draft is printed. `loading` is lowered in the `finally`.
     */
    method Settle(outcome: Outcome, created: seq<Test>, draft: Draft)
      requires Valid()
      modifies this
      ensures Valid()
      ensures outcome == MissingPatient ==> tests == old(tests) && loading == old(loading)
      ensures outcome != MissingPatient ==> tests == old(tests) + created && !loading
      ensures outcome == Saved ==>
        && vitals == BlankVitals && followUpDate.None? && followUpNotes == "" && selectedDuration.None?
        && printed == old(printed) + [draft]
      ensures outcome != Saved ==>
        && vitals == old(vitals) && followUpDate == old(followUpDate)
        && followUpNotes == old(followUpNotes) && selectedDuration == old(selectedDuration)
        && printed == old(printed)
      ensures patient == old(patient) && selectedTests == old(selectedTests) && symptoms == old(symptoms)
      ensures selectedSymptoms == old(selectedSymptoms) && medicines == old(medicines)
      ensures selectedMedicines == old(selectedMedicines) && exam == old(exam)
      ensures isCreating == old(isCreating) && isFetchingSymptoms == old(isFetchingSymptoms)
    {
      if outcome != MissingPatient {
        MergeCreated(created);
        if outcome == Saved {
          ResetAfterSave(draft);
        }
      }
    }

    /** Past the patient check: the created tests join the catalogue and `loading` falls. */
    method MergeCreated(created: seq<Test>)
      requires Valid()
      modifies this
      ensures Valid()
      ensures State() == old(State()).(tests := old(tests) + created, loading := false)
    {
      tests, loading := tests + created, false;
    }

    /** After a save: the vitals and follow-up reset and the draft is printed. */
    method ResetAfterSave(draft: Draft)
      modifies this
      ensures Valid()
      ensures State() == old(State()).(vitals := BlankVitals, followUpDate := None, followUpNotes := "",
        selectedDuration := None, printed := old(printed) + [draft])
    {
      ClearFollowUp();
      vitals, printed := BlankVitals, printed + [draft];
    }

    /** The follow-up fields back to their initial values. */
    method ClearFollowUp()
      modifies this
      ensures Valid()
      ensures State() == old(State()).(followUpDate := None, followUpNotes := "", selectedDuration := None)
    {
      followUpDate, followUpNotes, selectedDuration := None, "", None;
    }

    /** The duration select: the date (today plus the days, computed by the caller) and the duration. */
    method SelectDuration(days: Option<int>, date: string)
      modifies this
      ensures Valid()
      ensures followUpDate == Some(date) && selectedDuration == days
      ensures followUpNotes == old(followUpNotes) && tests == old(tests) && selectedTests == old(selectedTests)
      ensures vitals == old(vitals) && exam == old(exam) && patient == old(patient)
      ensures selectedMedicines == old(selectedMedicines) && selectedSymptoms == old(selectedSymptoms)
      ensures State() == old(State()).(followUpDate := Some(date), selectedDuration := days)
    {
      followUpDate := Some(date);
      selectedDuration := days;
    }

    /**
     * `setPatient`: choosing a patient from the search results
     * (`handlePatientSelection`), or the search itself, which loads the
     * patient it found or clears it.
     */
    method SelectPatient(p: Option<Patient>)
      requires Valid()
      modifies this
      ensures Valid() && patient == p
      ensures tests == old(tests) && selectedTests == old(selectedTests) && symptoms == old(symptoms)
      ensures selectedSymptoms == old(selectedSymptoms) && medicines == old(medicines)
      ensures selectedMedicines == old(selectedMedicines) && vitals == old(vitals) && exam == old(exam)
      ensures followUpDate == old(followUpDate) && followUpNotes == old(followUpNotes)
      ensures selectedDuration == old(selectedDuration) && loading == old(loading) && printed == old(printed)
      ensures State() == old(State()).(patient := p)
    {
      patient := p;
    }

    /** The blood-pressure input: the text replaces the stored one, the other readings stay. */
    method EnterBloodPressure(text: string)
      requires Valid()
      modifies this
      ensures Valid() && vitals == old(vitals).(bloodPressure := text)
      ensures forall o :: ReadingOf(vitals, o) == ReadingOf(old(vitals), o)
      ensures patient == old(patient) && tests == old(tests) && selectedTests == old(selectedTests)
      ensures selectedSymptoms == old(selectedSymptoms) && selectedMedicines == old(selectedMedicines)
      ensures exam == old(exam) && followUpDate == old(followUpDate) && selectedDuration == old(selectedDuration)
      ensures State() == old(State()).(vitals := old(vitals).(bloodPressure := text))
    {
      vitals := vitals.(bloodPressure := text);
    }

    /** A numeric vital-sign input: the entry replaces that reading only. */
    method EnterReading(which: Reading, e: Entry)
      requires Valid()
      modifies this
      ensures Valid() && vitals == WithReading(old(vitals), which, e)
      ensures ReadingOf(vitals, which) == e && vitals.bloodPressure == old(vitals).bloodPressure
      ensures patient == old(patient) && tests == old(tests) && selectedTests == old(selectedTests)
      ensures selectedSymptoms == old(selectedSymptoms) && selectedMedicines == old(selectedMedicines)
      ensures exam == old(exam) && followUpDate == old(followUpDate) && selectedDuration == old(selectedDuration)
      ensures State() == old(State()).(vitals := WithReading(old(vitals), which, e))
    {
      vitals := WithReading(vitals, which, e);
    }

    /** The test select's `onChange`: the chosen names replace the selection. */
    method SelectTests(names: seq<string>)
      requires Valid()
      modifies this
      ensures Valid() && selectedTests == names
      ensures patient == old(patient) && tests == old(tests) && selectedSymptoms == old(selectedSymptoms)
      ensures selectedMedicines == old(selectedMedicines) && vitals == old(vitals) && exam == old(exam)
      ensures followUpDate == old(followUpDate) && selectedDuration == old(selectedDuration)
      ensures State() == old(State()).(selectedTests := names)
    {
      selectedTests := names;
    }

    /** The symptom select's `onChange`: the chosen options replace the selection. */
    method SelectSymptoms(options: seq<SymptomOption>)
      requires Valid()
      modifies this
      ensures Valid() && selectedSymptoms == options
      ensures patient == old(patient) && tests == old(tests) && selectedTests == old(selectedTests)
      ensures symptoms == old(symptoms) && selectedMedicines == old(selectedMedicines) && vitals == old(vitals)
      ensures exam == old(exam) && followUpDate == old(followUpDate) && selectedDuration == old(selectedDuration)
      ensures State() == old(State()).(selectedSymptoms := options)
    {
      selectedSymptoms := options;
    }

    /** The follow-up notes textarea: the typed text replaces the notes. */
    method EnterFollowUpNotes(text: string)
      requires Valid()
      modifies this
      ensures Valid() && followUpNotes == text
      ensures State() == old(State()).(followUpNotes := text)
    {
      followUpNotes := text;
    }

    /**
     * The other examination inputs (the selects' `onChange` and
     * `onCreateOption`, and the check boxes): the value is stored under its
     * field. The clamp effect does not depend on these fields, so a form
     * whose scores were settled stays settled.
     */
    method SetExamField(key: string, v: ExamValue)
      requires key != MmseKey && key != GcsKey
      requires Valid()
      modifies this
      ensures Valid() && exam == old(exam)[key := v]
      ensures ClampEffect(old(exam)) == old(exam) ==> ClampEffect(exam) == exam
      ensures State() == old(State()).(exam := old(exam)[key := v])
    {
      ClampEffectIgnoresOtherKeys(exam, key, v);
      exam := exam[key := v];
    }

    /** The test select's `onCreateOption`: the typed name joins the selection. */
    method AddTestName(name: string)
      requires Valid()
      modifies this
      ensures Valid()
      ensures selectedTests == old(selectedTests) + [name]
      ensures tests == old(tests) && selectedSymptoms == old(selectedSymptoms) && vitals == old(vitals)
      ensures State() == old(State()).(selectedTests := old(selectedTests) + [name])
    {
      selectedTests := selectedTests + [name];
    }

    /**
     * `handleCreateSymptom`: on success the new symptom joins the options
     * and the selection; the fetching flag is raised during the request
     * and lowered after it. The output only records the flag's value while
     * the request is in flight.
     */
    method CreateSymptom(reply: Option<SymptomOption>) returns (fetchingDuringRequest: bool)
      requires Valid()
      modifies this
      ensures Valid() && fetchingDuringRequest && !isFetchingSymptoms
      ensures reply.Some? ==>
        symptoms == old(symptoms) + [reply.value] && selectedSymptoms == old(selectedSymptoms) + [reply.value]
      ensures reply.None? ==> symptoms == old(symptoms) && selectedSymptoms == old(selectedSymptoms)
      ensures tests == old(tests) && selectedTests == old(selectedTests) && vitals == old(vitals)
      ensures reply.Some? ==> State() == old(State()).(symptoms := old(symptoms) + [reply.value],
        selectedSymptoms := old(selectedSymptoms) + [reply.value], isFetchingSymptoms := false)
      ensures reply.None? ==> State() == old(State()).(isFetchingSymptoms := false)
    {
      isFetchingSymptoms := true;
      fetchingDuringRequest := isFetchingSymptoms;
      if reply.Some? {
        symptoms := symptoms + [reply.value];
        selectedSymptoms := selectedSymptoms + [reply.value];
      }
      isFetchingSymptoms := false;
    }

    /**
     * `handleCreateMedicine`: on success the new medicine joins the options
     * and its id is returned; on failure nothing is added and null is
     * returned. `isCreating` is false afterwards.
     */
    method CreateMedicine(reply: Option<MedicineRecord>) returns (newId: Option<int>)
      requires Valid()
      modifies this
      ensures Valid() && !isCreating
      ensures reply.Some? ==>
        newId == Some(reply.value.id)
        && medicines == old(medicines) + [MedicineOption(reply.value.id, CreatedMedicineCaption(reply.value))]
      ensures reply.None? ==> newId.None? && medicines == old(medicines)
      ensures selectedMedicines == old(selectedMedicines) && tests == old(tests) && vitals == old(vitals)
      ensures reply.Some? ==> State() == old(State()).(isCreating := false,
        medicines := old(medicines) + [MedicineOption(reply.value.id, CreatedMedicineCaption(reply.value))])
      ensures reply.None? ==> State() == old(State()).(isCreating := false)
    {
      isCreating := true;
      if reply.Some? {
        medicines := medicines + [MedicineOption(reply.value.id, CreatedMedicineCaption(reply.value))];
        newId := Some(reply.value.id);
      } else {
        newId := None;
      }
      isCreating := false;
    }

    /** A line's medicine select, `onCreateOption`: create, then use a truthy id. */
    method CreateMedicineForLine(index: nat, reply: Option<MedicineRecord>)
      requires Valid()
      modifies this
      ensures Valid() && !isCreating
      ensures reply.Some? ==>
        medicines == old(medicines) + [MedicineOption(reply.value.id, CreatedMedicineCaption(reply.value))]
      ensures reply.None? ==> medicines == old(medicines)
      ensures selectedMedicines == AdoptCreatedMedicine(old(selectedMedicines), index,
        if reply.Some? then Some(reply.value.id) else None)
      ensures reply.Some? ==> State() == old(State()).(isCreating := false,
        medicines := old(medicines) + [MedicineOption(reply.value.id, CreatedMedicineCaption(reply.value))],
        selectedMedicines := AdoptCreatedMedicine(old(selectedMedicines), index, Some(reply.value.id)))
      ensures reply.None? ==> State() == old(State()).(isCreating := false,
        selectedMedicines := AdoptCreatedMedicine(old(selectedMedicines), index, None))
    {
      var newId := CreateMedicine(reply);
      selectedMedicines := AdoptCreatedMedicine(selectedMedicines, index, newId);
    }

    /** A line's medicine select, `onChange`. */
    method ChooseMedicineForLine(index: nat, id: int)
      requires Valid()
      modifies this
      ensures Valid() && selectedMedicines == ChooseMedicine(old(selectedMedicines), index, id)
      ensures medicines == old(medicines) && tests == old(tests)
      ensures State() == old(State()).(selectedMedicines := ChooseMedicine(old(selectedMedicines), index, id))
    {
      selectedMedicines := ChooseMedicine(selectedMedicines, index, id);
    }

    method AddMedicineLine()
      requires Valid()
      modifies this
      ensures Valid() && selectedMedicines == AddDefaultLine(old(selectedMedicines))
      ensures medicines == old(medicines) && tests == old(tests)
      ensures State() == old(State()).(selectedMedicines := AddDefaultLine(old(selectedMedicines)))
    {
      selectedMedicines := AddDefaultLine(selectedMedicines);
    }

    method UpdateMedicinePair(index: nat, field: PairField, en: string, urdu: string)
      requires Valid()
      modifies this
      ensures Valid() && selectedMedicines == UpdatePair(old(selectedMedicines), index, field, en, urdu)
      ensures medicines == old(medicines) && tests == old(tests)
      ensures State() == old(State()).(selectedMedicines := UpdatePair(old(selectedMedicines), index, field, en, urdu))
    {
      selectedMedicines := UpdatePair(selectedMedicines, index, field, en, urdu);
    }

    method RemoveMedicineLine(index: nat)
      requires Valid()
      modifies this
      ensures Valid() && selectedMedicines == RemoveAt(old(selectedMedicines), index)
      ensures medicines == old(medicines) && tests == old(tests)
      ensures State() == old(State()).(selectedMedicines := RemoveAt(old(selectedMedicines), index))
    {
      selectedMedicines := RemoveAt(selectedMedicines, index);
    }

    /**
     * Typing into the MMSE box: the sanitised text is stored and the clamp
     * effect runs; the stored MMSE is then "" or at most 30 over "/30".
     */
    method EnterMmse(text: string)
      requires Valid()
      modifies this
      ensures Valid() && exam == ClampEffect(old(exam)[MmseKey := Text(Sanitise(text, MmseScale))])
      ensures MmseKey in exam && exam[MmseKey].Text?
      ensures var m := exam[MmseKey].text;
        m == "" || (ScoreValue(m).Some? && ScoreValue(m).value <= 30 && m[|m| - 3..] == "/30")
      ensures vitals == old(vitals) && tests == old(tests) && selectedMedicines == old(selectedMedicines)
      ensures State() == old(State()).(exam := ClampEffect(old(exam)[MmseKey := Text(Sanitise(text, MmseScale))]))
    {
      TypedMmseEndsInRange(text);
      var typed := exam[MmseKey := Text(Sanitise(text, MmseScale))];
      ClampEffectScores(typed);
      exam := ClampEffect(typed);
    }

    /** Typing into the GCS box: the stored GCS is then "" or from 3 to 15 over "/15". */
    method EnterGcs(text: string)
      requires Valid()
      modifies this
      ensures Valid() && exam == ClampEffect(old(exam)[GcsKey := Text(Sanitise(text, GcsScale))])
      ensures GcsKey in exam && exam[GcsKey].Text?
      ensures var g := exam[GcsKey].text;
        g == "" || (ScoreValue(g).Some? && 3 <= ScoreValue(g).value <= 15 && g[|g| - 3..] == "/15")
      ensures vitals == old(vitals) && tests == old(tests) && selectedMedicines == old(selectedMedicines)
      ensures State() == old(State()).(exam := ClampEffect(old(exam)[GcsKey := Text(Sanitise(text, GcsScale))]))
    {
      TypedGcsEndsInRange(text);
      var typed := exam[GcsKey := Text(Sanitise(text, GcsScale))];
      ClampEffectScores(typed);
      exam := ClampEffect(typed);
    }
  }

  /** `searchSchema`: a searched mobile number has at least 10 characters. */
  predicate SearchMobileValid(mobile: string)
  {
    |mobile| >= 10
  }
}
