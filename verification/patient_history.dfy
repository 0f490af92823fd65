/**
 * The two patient-history viewers: the modal of
 * src/components/PatientHistoryModal.jsx and the older panel of
 * src/components/SymptomEntry.jsx. Both fetch the history of one patient,
 * wrap a single record into a list, filter the records by a visit-date
 * prefix and show a line of symptoms per record; the modal also lets each
 * record be expanded and collapsed.
 */
module PatientHistory {
  import opened Common

  /**
   * One visit as the server returns it. A symptom entry is None for a null
   * entry; `symptoms` is None when the record has no symptom array.
   */
  datatype Record = Record(visitDate: string, symptoms: Option<seq<Option<string>>>)

  /** The body of a history response: an array of records, or one record. */
  datatype Body = Records(records: seq<Record>) | Single(record: Record)

  /** What the GET request gives back: a body, or an error with its message. */
  datatype Reply = Received(body: Body) | Failed(message: string)

  const PatientIdRequired: string := "Patient ID is required"
  const FetchFailedPrefix: string := "Failed to fetch patient history: "
  const NoSymptoms: string := "No symptoms recorded"
  const SymptomSep: string := ", "

  /** `!patientId` is false: an id was passed and it is not 0. */
  predicate IdGiven(patientId: Option<int>)
  {
    patientId.Some? && patientId.value != 0
  }

  /** `Array.isArray(data) ? data : [data]` */
  function Normalise(body: Body): (r: seq<Record>)
    ensures body.Single? ==> |r| == 1 && r[0] == body.record
    ensures body.Records? ==> r == body.records
  {
    match body
    case Records(records) => records
    case Single(record) => [record]
  }

  /* ---------- the visit-date filter ---------- */

  /** `record.visit_date.startsWith(filterDate)` */
  predicate VisitedOn(record: Record, filterDate: string)
  {
    filterDate <= record.visitDate
  }

  /** The records whose visit date starts with `filterDate`, in their order. */
  function VisitsOn(records: seq<Record>, filterDate: string): seq<Record>
  {
    if |records| == 0 then []
    else (if VisitedOn(records[0], filterDate) then [records[0]] else []) + VisitsOn(records[1..], filterDate)
  }

  /** `history.filter(record => !filterDate || record.visit_date.startsWith(filterDate))` */
  function DateFilter(records: seq<Record>, filterDate: string): seq<Record>
  {
    if filterDate == "" then records else VisitsOn(records, filterDate)
  }

  /** An empty filter keeps every record, and so would the prefix test alone. */
  lemma {:induction false} EmptyFilterKeepsAll(records: seq<Record>)
    ensures DateFilter(records, "") == records
    ensures VisitsOn(records, "") == records
  {
    if |records| > 0 {
      EmptyFilterKeepsAll(records[1..]);
      assert records == [records[0]] + records[1..];
    }
  }

  /** A non-empty filter keeps exactly the records visited on a date with that prefix. */
  lemma {:induction false} DateFilterMembers(records: seq<Record>, filterDate: string)
    ensures |DateFilter(records, filterDate)| <= |records|
    ensures forall x :: x in DateFilter(records, filterDate) <==>
      x in records && (filterDate == "" || VisitedOn(x, filterDate))
  {
    if filterDate != "" && |records| > 0 {
      DateFilterMembers(records[1..], filterDate);
      assert records == [records[0]] + records[1..];
    }
  }

  /**
   * The filter works record by record: it distributes over concatenation,
   * so the kept records stay in their original order.
   */
  lemma {:induction false} DateFilterAppend(a: seq<Record>, b: seq<Record>, filterDate: string)
    ensures DateFilter(a + b, filterDate) == DateFilter(a, filterDate) + DateFilter(b, filterDate)
  {
    if filterDate != "" {
      if |a| == 0 {
        assert a + b == b;
      } else {
        assert (a + b)[0] == a[0] && (a + b)[1..] == a[1..] + b;
        DateFilterAppend(a[1..], b, filterDate);
      }
    }
  }

  /** Filtering again by the same date changes nothing. */
  lemma {:induction false} DateFilterIdempotent(records: seq<Record>, filterDate: string)
    ensures DateFilter(DateFilter(records, filterDate), filterDate) == DateFilter(records, filterDate)
  {
    if filterDate != "" && |records| > 0 {
      DateFilterIdempotent(records[1..], filterDate);
      if VisitedOn(records[0], filterDate) {
        var rest := VisitsOn(records[1..], filterDate);
        assert ([records[0]] + rest)[0] == records[0] && ([records[0]] + rest)[1..] == rest;
        assert VisitsOn([records[0]] + rest, filterDate) == [records[0]] + VisitsOn(rest, filterDate);
      } else {
        var rest := VisitsOn(records[1..], filterDate);
        assert [] + rest == rest;
        assert VisitsOn(records, filterDate) == rest;
      }
    }
  }

  /* ---------- the expand/collapse toggle of the modal ---------- */

  /** `expandedSections[index]` read as a condition: a missing key is collapsed. */
  predicate Expanded(sections: map<int, bool>, index: int)
  {
    index in sections && sections[index]
  }

  /**
   * `{ ...prev, [index]: !prev[index] }`: the section at `index` flips (a
   * missing one opens) and every other key, present or absent, stays as it was.
   */
  function Toggle(sections: map<int, bool>, index: int): (r: map<int, bool>)
    ensures index in r && Expanded(r, index) == !Expanded(sections, index)
    ensures forall k :: k != index ==> (k in r <==> k in sections) && (k in sections ==> r[k] == sections[k])
  {
    sections[index := !Expanded(sections, index)]
  }

  /** Two clicks on the same record restore what every record shows. */
  lemma ToggleTwice(sections: map<int, bool>, index: int, k: int)
    ensures Expanded(Toggle(Toggle(sections, index), index), k) == Expanded(sections, k)
  {
    var once := Toggle(sections, index);
    if k != index {
      assert k in once <==> k in sections;
    }
  }

  /* ---------- the symptom line of a record ---------- */

  /** `Boolean(entry)` for a symptom entry. */
  predicate Truthy(entry: Option<string>)
  {
    entry.Some? && entry.value != ""
  }

  /** How `join` writes an entry: null as "". */
  function EntryText(entry: Option<string>): string
  {
    if entry.Some? then entry.value else ""
  }

  /** `entries.filter(Boolean)` */
  function TruthyTexts(entries: seq<Option<string>>): (r: seq<string>)
  {
    if |entries| == 0 then []
    else (if Truthy(entries[0]) then [entries[0].value] else []) + TruthyTexts(entries[1..])
  }

  /** The entries as `join` writes them, falsy ones included. */
  function Texts(entries: seq<Option<string>>): (r: seq<string>)
    ensures |r| == |entries| && forall i :: 0 <= i < |r| ==> r[i] == EntryText(entries[i])
  {
    if |entries| == 0 then [] else [EntryText(entries[0])] + Texts(entries[1..])
  }

  /** `filter(Boolean)` keeps exactly the truthy entries, none of them empty. */
  lemma {:induction false} TruthyTextsSpec(entries: seq<Option<string>>)
    ensures forall s :: s in TruthyTexts(entries) <==> s != "" && Some(s) in entries
    ensures |TruthyTexts(entries)| == 0 <==> forall i :: 0 <= i < |entries| ==> !Truthy(entries[i])
  {
    if |entries| > 0 {
      TruthyTextsSpec(entries[1..]);
      assert entries == [entries[0]] + entries[1..];
      if !Truthy(entries[0]) {
        assert forall i :: 1 <= i < |entries| ==> entries[i] == entries[1..][i - 1];
      }
    }
  }

  /** When every entry is truthy, filtering drops nothing. */
  lemma {:induction false} TruthyTextsOfTruthy(entries: seq<Option<string>>)
    requires forall i :: 0 <= i < |entries| ==> Truthy(entries[i])
    ensures TruthyTexts(entries) == Texts(entries)
  {
    if |entries| > 0 {
      TruthyTextsOfTruthy(entries[1..]);
    }
  }

  /** Joining at least one non-empty text gives a non-empty text. */
  lemma {:induction false} JoinNonEmpty(parts: seq<string>, sep: string)
    requires |parts| > 0 && forall s :: s in parts ==> s != ""
    ensures Join(parts, sep) != ""
  {
    if |parts| > 1 {
      assert parts[0] in parts;
      assert |Join(parts, sep)| >= |parts[0]|;
    } else {
      assert parts[0] in parts;
    }
  }

  /** The modal: `record.symptoms?.filter(Boolean).join(", ") || "No symptoms recorded"`. */
  function ModalSymptomLine(symptoms: Option<seq<Option<string>>>): string
  {
    var joined := if symptoms.Some? then Join(TruthyTexts(symptoms.value), SymptomSep) else "";
    if joined != "" then joined else NoSymptoms
  }

  /**
   * SymptomEntry: the fallback unless some entry is truthy, and then the
   * join of ALL entries, falsy ones included.
   */
  function EntrySymptomLine(symptoms: Option<seq<Option<string>>>): string
  {
    if symptoms.Some? && |TruthyTexts(symptoms.value)| > 0 then Join(Texts(symptoms.value), SymptomSep)
    else NoSymptoms
  }

  /**
   * The modal shows the fallback exactly when no entry is truthy, and
   * otherwise the truthy entries joined by ", ".
   */
  lemma ModalSymptomLineSpec(symptoms: Option<seq<Option<string>>>)
    ensures (symptoms.None? || forall i :: 0 <= i < |symptoms.value| ==> !Truthy(symptoms.value[i]))
      ==> ModalSymptomLine(symptoms) == NoSymptoms
    ensures symptoms.Some? && (exists i :: 0 <= i < |symptoms.value| && Truthy(symptoms.value[i]))
      ==> ModalSymptomLine(symptoms) == Join(TruthyTexts(symptoms.value), SymptomSep)
  {
    if symptoms.Some? {
      TruthyTextsSpec(symptoms.value);
      var kept := TruthyTexts(symptoms.value);
      if |kept| > 0 {
        JoinNonEmpty(kept, SymptomSep);
      }
    }
  }

  /** The panel shows the fallback exactly when no entry is truthy. */
  lemma EntrySymptomLineSpec(symptoms: Option<seq<Option<string>>>)
    ensures (symptoms.None? || forall i :: 0 <= i < |symptoms.value| ==> !Truthy(symptoms.value[i]))
      ==> EntrySymptomLine(symptoms) == NoSymptoms
    ensures symptoms.Some? && (exists i :: 0 <= i < |symptoms.value| && Truthy(symptoms.value[i]))
      ==> EntrySymptomLine(symptoms) == Join(Texts(symptoms.value), SymptomSep)
  {
    if symptoms.Some? {
      TruthyTextsSpec(symptoms.value);
    }
  }

  /** With only truthy entries the two viewers print the same line ... */
  lemma SymptomLinesAgreeOnTruthy(entries: seq<Option<string>>)
    requires forall i :: 0 <= i < |entries| ==> Truthy(entries[i])
    ensures ModalSymptomLine(Some(entries)) == EntrySymptomLine(Some(entries))
  {
    TruthyTextsOfTruthy(entries);
    TruthyTextsSpec(entries);
    if |entries| > 0 {
      assert Truthy(entries[0]);
      JoinNonEmpty(TruthyTexts(entries), SymptomSep);
    }
  }

  /** ... but a blank entry before "Headache" shows as "Headache" in one and ", Headache" in the other. */
  lemma SymptomLinesDiffer()
    ensures ModalSymptomLine(Some([Some(""), Some("Headache")])) == "Headache"
    ensures EntrySymptomLine(Some([Some(""), Some("Headache")])) == ", Headache"
  {
    var entries := [Some(""), Some("Headache")];
    assert entries[1..][1..] == [];
    assert TruthyTexts(entries) == ["Headache"];
    assert Texts(entries) == ["", "Headache"];
    assert Join(["", "Headache"], SymptomSep) == "" + SymptomSep + Join(["Headache"], SymptomSep);
  }

  /* ---------- the components ---------- */

  /** The modal of src/components/PatientHistoryModal.jsx. */
  class HistoryModal {
    const patientId: Option<int>
    var history: seq<Record>
    var loading: bool
    var error: string
    var showModal: bool
    var filterDate: string
    var expandedSections: map<int, bool>
    /** The patient ids a history GET was issued for, oldest first. */
    var requests: seq<int>

    /** The records on screen. */
    function Visible(): seq<Record>
      reads this
    {
      DateFilter(history, filterDate)
    }

    /** The initial `useState` values. */
    constructor (patientId: Option<int>)
      ensures this.patientId == patientId
      ensures history == [] && !loading && error == "" && !showModal && filterDate == ""
      ensures expandedSections == map[] && requests == []
    {
      this.patientId := patientId;
      history := [];
      loading := false;
      error := "";
      showModal := false;
      filterDate := "";
      expandedSections := map[];
      requests := [];
    }

    /**
     * `fetchHistory`, given the reply the request would get. Without an id
     * only the error is set. Otherwise the filter and the error are cleared
     * and `loading` is raised while the request runs; a received body
     * becomes the history and opens the modal, which then shows every
     * record of the body; a failure sets the error and leaves the history
     * and the modal as they were; `loading` is lowered either way. The
     * output only records the value of `loading` while the request runs.
     */
    method FetchHistory(reply: Reply) returns (loadingDuringRequest: bool)
      modifies this
      ensures !IdGiven(patientId) ==>
        && error == PatientIdRequired && requests == old(requests) && !loadingDuringRequest
        && history == old(history) && loading == old(loading) && showModal == old(showModal)
        && filterDate == old(filterDate)
      ensures IdGiven(patientId) ==>
        && requests == old(requests) + [patientId.value] && loadingDuringRequest && !loading
        && filterDate == ""
      ensures IdGiven(patientId) && reply.Received? ==>
        && history == Normalise(reply.body) && showModal && error == ""
        && Visible() == Normalise(reply.body)
      ensures IdGiven(patientId) && reply.Failed? ==>
        && error == FetchFailedPrefix + reply.message
        && history == old(history) && showModal == old(showModal)
      ensures expandedSections == old(expandedSections)
    {
      if !IdGiven(patientId) {
        error := PatientIdRequired;
        loadingDuringRequest := false;
        return;
      }
      filterDate := "";
      loading := true;
      error := "";
      requests := requests + [patientId.value];
      loadingDuringRequest := loading;
      match reply {
        case Received(body) =>
          history := Normalise(body);
          showModal := true;
          EmptyFilterKeepsAll(history);
        case Failed(message) =>
          error := FetchFailedPrefix + message;
      }
      loading := false;
    }

    /** The chevron of the record at `index`. */
    method ToggleSection(index: int)
      modifies this
      ensures expandedSections == Toggle(old(expandedSections), index)
      ensures Expanded(expandedSections, index) == !Expanded(old(expandedSections), index)
      ensures history == old(history) && filterDate == old(filterDate) && showModal == old(showModal)
      ensures error == old(error) && loading == old(loading) && requests == old(requests)
    {
      expandedSections := Toggle(expandedSections, index);
    }

    /** The date input, and the "Clear Filter" button with `date == ""`. */
    method SetFilterDate(date: string)
      modifies this
      ensures filterDate == date && Visible() == DateFilter(history, date)
      ensures history == old(history) && expandedSections == old(expandedSections)
      ensures showModal == old(showModal) && error == old(error) && loading == old(loading)
      ensures requests == old(requests)
    {
      filterDate := date;
    }

    /** The close button. */
    method Close()
      modifies this
      ensures !showModal
      ensures history == old(history) && expandedSections == old(expandedSections)
      ensures filterDate == old(filterDate) && error == old(error) && loading == old(loading)
      ensures requests == old(requests)
    {
      showModal := false;
    }
  }

  /** The panel of src/components/SymptomEntry.jsx. */
  class HistoryPanel {
    const patientId: Option<int>
    var history: seq<Record>
    var loading: bool
    var error: string
    var showModal: bool
    var filterDate: string
    var requests: seq<int>

    function Visible(): seq<Record>
      reads this
    {
      DateFilter(history, filterDate)
    }

    constructor (patientId: Option<int>)
      ensures this.patientId == patientId
      ensures history == [] && !loading && error == "" && !showModal && filterDate == "" && requests == []
    {
      this.patientId := patientId;
      history := [];
      loading := false;
      error := "";
      showModal := false;
      filterDate := "";
      requests := [];
    }

    /** `fetchHistory`: the same steps as the modal's. */
    method FetchHistory(reply: Reply) returns (loadingDuringRequest: bool)
      modifies this
      ensures !IdGiven(patientId) ==>
        && error == PatientIdRequired && requests == old(requests) && !loadingDuringRequest
        && history == old(history) && loading == old(loading) && showModal == old(showModal)
        && filterDate == old(filterDate)
      ensures IdGiven(patientId) ==>
        && requests == old(requests) + [patientId.value] && loadingDuringRequest && !loading
        && filterDate == ""
      ensures IdGiven(patientId) && reply.Received? ==>
        && history == Normalise(reply.body) && showModal && error == ""
        && Visible() == Normalise(reply.body)
      ensures IdGiven(patientId) && reply.Failed? ==>
        && error == FetchFailedPrefix + reply.message
        && history == old(history) && showModal == old(showModal)
    {
      if !IdGiven(patientId) {
        error := PatientIdRequired;
        loadingDuringRequest := false;
        return;
      }
      filterDate := "";
      loading := true;
      error := "";
      requests := requests + [patientId.value];
      loadingDuringRequest := loading;
      match reply {
        case Received(body) =>
          history := Normalise(body);
          showModal := true;
          EmptyFilterKeepsAll(history);
        case Failed(message) =>
          error := FetchFailedPrefix + message;
      }
      loading := false;
    }

    method SetFilterDate(date: string)
      modifies this
      ensures filterDate == date && Visible() == DateFilter(history, date)
      ensures history == old(history) && showModal == old(showModal) && error == old(error)
      ensures loading == old(loading) && requests == old(requests)
    {
      filterDate := date;
    }

    /** The close buttons of the panel's modal. */
    method Close()
      modifies this
      ensures !showModal
      ensures history == old(history) && filterDate == old(filterDate) && error == old(error)
      ensures loading == old(loading) && requests == old(requests)
    {
      showModal := false;
    }
  }
}
