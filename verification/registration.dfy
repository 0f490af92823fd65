/**
 * The new-patient form of src/pages/AddPatientForm.jsx: the `patientSchema`
 * validator, the prefill of the searched mobile number, and `addPatient`
 * with its callbacks and its error toast.
 */
module Registration {
  import opened Common
  import Consultation

  /**
   * The submitted values. `age` is the field after `z.coerce.number()`
   * (None for NaN).
   */
  datatype PatientInput = PatientInput(name: string, age: Option<real>, gender: string, mobile: string)

  /**
   * The schema's checks that can fail, one per rule. An age that coerces to
   * NaN fails the number type check before `.positive` is tried.
   */
  datatype Issue = NameMissing | AgeNotANumber | AgeNotPositive | GenderNotListed | MobileTooShort | MobileTooLong

  const Genders: seq<string> := ["Male", "Female", "Others"]
  const MinMobile: nat := 10
  const MaxMobile: nat := 15
  const FallbackFailure: string := "Failed to register patient"

  /** The messages the schema sets itself; the other three are the library's defaults. */
  function Message(issue: Issue): Option<string>
  {
    match issue
    case NameMissing => Some("Name is required")
    case AgeNotANumber => None
    case AgeNotPositive => Some("Enter a valid age")
    case MobileTooShort => Some("Enter a valid mobile number")
    case GenderNotListed => None
    case MobileTooLong => None
  }

  predicate NameOk(name: string) { |name| >= 1 }
  predicate AgeOk(age: Option<real>) { age.Some? && age.value > 0.0 }
  predicate GenderOk(gender: string) { gender in Genders }
  predicate MobileOk(mobile: string) { MinMobile <= |mobile| <= MaxMobile }

  /** `patientSchema` accepts the input. */
  predicate PatientValid(p: PatientInput)
  {
    NameOk(p.name) && AgeOk(p.age) && GenderOk(p.gender) && MobileOk(p.mobile)
  }

  /** The issues the schema reports, in the order of its keys. */
  function Issues(p: PatientInput): seq<Issue>
  {
    (if NameOk(p.name) then [] else [NameMissing])
    + (if p.age.None? then [AgeNotANumber] else if p.age.value <= 0.0 then [AgeNotPositive] else [])
    + (if GenderOk(p.gender) then [] else [GenderNotListed])
    + (if |p.mobile| < MinMobile then [MobileTooShort] else if |p.mobile| > MaxMobile then [MobileTooLong] else [])
  }

  /**
   * The schema passes exactly when no issue is reported, each issue is
   * reported exactly when its rule fails, and at most one issue per field.
   */
  lemma IssuesSpec(p: PatientInput)
    ensures Issues(p) == [] <==> PatientValid(p)
    ensures NameMissing in Issues(p) <==> |p.name| == 0
    ensures AgeNotANumber in Issues(p) <==> p.age.None?
    ensures AgeNotPositive in Issues(p) <==> p.age.Some? && p.age.value <= 0.0
    ensures GenderNotListed in Issues(p) <==> p.gender != "Male" && p.gender != "Female" && p.gender != "Others"
    ensures MobileTooShort in Issues(p) <==> |p.mobile| < 10
    ensures MobileTooLong in Issues(p) <==> |p.mobile| > 15
    ensures |Issues(p)| <= 4
  {
    var a := if NameOk(p.name) then [] else [NameMissing];
    var b := if p.age.None? then [AgeNotANumber] else if p.age.value <= 0.0 then [AgeNotPositive] else [];
    var c := if GenderOk(p.gender) then [] else [GenderNotListed];
    var d := if |p.mobile| < MinMobile then [MobileTooShort] else if |p.mobile| > MaxMobile then [MobileTooLong] else [];
    assert Issues(p) == a + b + c + d;
    assert forall x :: x in a + b + c + d <==> x in a || x in b || x in c || x in d;
    assert |a| <= 1 && |b| <= 1 && |c| <= 1 && |d| <= 1;
  }

  /**
   * The paragraphs under the form, one per issue in the order of the
   * schema's keys: the schema's own message, or `None` where the library's
   * default text is shown.
   */
  function Paragraphs(issues: seq<Issue>): (r: seq<Option<string>>)
    ensures |r| == |issues|
    ensures Some("Name is required") in r <==> NameMissing in issues
    ensures Some("Enter a valid age") in r <==> AgeNotPositive in issues
    ensures Some("Enter a valid mobile number") in r <==> MobileTooShort in issues
    ensures None in r <==> AgeNotANumber in issues || GenderNotListed in issues || MobileTooLong in issues
  {
    if issues == [] then [] else [Message(issues[0])] + Paragraphs(issues[1..])
  }

  /**
   * What a submit shows under the form: nothing exactly when the values are
   * valid, each of the schema's own messages exactly when its rule fails,
   * and a default text when the age is not a number, the gender is not
   * listed or the mobile is too long.
   */
  lemma ShownParagraphs(p: PatientInput)
    ensures Paragraphs(Issues(p)) == [] <==> PatientValid(p)
    ensures Some("Name is required") in Paragraphs(Issues(p)) <==> |p.name| == 0
    ensures Some("Enter a valid age") in Paragraphs(Issues(p)) <==> p.age.Some? && p.age.value <= 0.0
    ensures Some("Enter a valid mobile number") in Paragraphs(Issues(p)) <==> |p.mobile| < 10
    ensures None in Paragraphs(Issues(p)) <==>
      p.age.None? || (p.gender != "Male" && p.gender != "Female" && p.gender != "Others") || |p.mobile| > 15
    ensures |Paragraphs(Issues(p))| <= 4
  {
    IssuesSpec(p);
  }

  /** An age of 0 (what an empty age box coerces to) is refused. */
  lemma ZeroAgeRefused(name: string, gender: string, mobile: string)
    ensures Issues(PatientInput(name, Some(0.0), gender, mobile)) != []
    ensures AgeNotPositive in Issues(PatientInput(name, Some(0.0), gender, mobile))
  {
    IssuesSpec(PatientInput(name, Some(0.0), gender, mobile));
  }

  /** `error.response?.data?.message || "Failed to register patient"` */
  function FailureMessage(serverMessage: Option<string>): (r: string)
    ensures r != ""
    ensures serverMessage.Some? && serverMessage.value != "" ==> r == serverMessage.value
    ensures serverMessage.None? || serverMessage.value == "" ==> r == FallbackFailure
  {
    if serverMessage.Some? && serverMessage.value != "" then serverMessage.value else FallbackFailure
  }

  /**
   * A mobile number the search accepted (`searchSchema` in src/App.jsx) is
   * never too short for registration ...
   */
  lemma SearchedMobileLongEnough(p: PatientInput)
    requires Consultation.SearchMobileValid(p.mobile)
    ensures MobileTooShort !in Issues(p)
  {
    IssuesSpec(p);
  }

  /** ... but the search has no upper bound, so a 16-digit number passes it and fails here. */
  lemma SearchedMobileMayBeTooLong(name: string, age: Option<real>, gender: string)
    ensures Consultation.SearchMobileValid("1234567890123456")
    ensures MobileTooLong in Issues(PatientInput(name, age, gender, "1234567890123456"))
  {
    IssuesSpec(PatientInput(name, age, gender, "1234567890123456"));
  }

  /** The reply to the registration POST. */
  datatype Reply = Registered | Refused(serverMessage: Option<string>)

  /** The callbacks and toasts the form has produced. */
  datatype Event = SuccessCallback | CloseCallback | ErrorToast(text: string)

  class RegistrationForm {
    const searchedMobile: string
    const hasOnSuccess: bool
    const hasOnClose: bool
    /** The value of the mobile input. */
    var mobile: string
    var loading: bool
    /** The bodies POSTed to the patients endpoint, oldest first. */
    var posted: seq<PatientInput>
    var events: seq<Event>

    /** The initial state, after the prefill effect has run once. */
    constructor (searchedMobile: string, hasOnSuccess: bool, hasOnClose: bool)
      ensures this.searchedMobile == searchedMobile
      ensures this.hasOnSuccess == hasOnSuccess && this.hasOnClose == hasOnClose
      ensures mobile == searchedMobile
      ensures !loading && posted == [] && events == []
    {
      this.searchedMobile := searchedMobile;
      this.hasOnSuccess := hasOnSuccess;
      this.hasOnClose := hasOnClose;
      mobile := "";
      loading := false;
      posted := [];
      events := [];
      new;
      Prefill(searchedMobile);
    }

    /** The effect on `searchedMobile`: a non-empty number is written into the mobile field. */
    method Prefill(number: string)
      modifies this
      ensures number != "" ==> mobile == number
      ensures number == "" ==> mobile == old(mobile)
      ensures loading == old(loading) && posted == old(posted) && events == old(events)
    {
      if number != "" {
        mobile := number;
      }
    }

    /**
     * `addPatient`, called by `handleSubmit` only with values the schema
     * accepted. The values are posted while `loading` is raised; on success
     * `onSuccess` then `onClose` run, each only when given; on failure one
     * toast shows the server's message or the fallback. `loading` ends false;
     * the output only records its value while the request is in flight.
     */
    method AddPatient(data: PatientInput, reply: Reply) returns (loadingDuringRequest: bool)
      requires PatientValid(data)
      modifies this
      ensures loadingDuringRequest && !loading
      ensures posted == old(posted) + [data]
      ensures reply.Registered? ==>
        events == old(events) + (if hasOnSuccess then [SuccessCallback] else [])
                              + (if hasOnClose then [CloseCallback] else [])
      ensures reply.Refused? ==>
        events == old(events) + [ErrorToast("Error: " + FailureMessage(reply.serverMessage))]
      ensures mobile == old(mobile)
    {
      loading := true;
      posted := posted + [data];
      loadingDuringRequest := loading;
      match reply {
        case Registered =>
          if hasOnSuccess {
            events := events + [SuccessCallback];
          }
          if hasOnClose {
            events := events + [CloseCallback];
          }
        case Refused(serverMessage) =>
          events := events + [ErrorToast("Error: " + FailureMessage(serverMessage))];
      }
      loading := false;
    }

    /**
     * The form's submit: `handleSubmit` runs the schema and calls
     * `addPatient` only when it reports no issue; otherwise nothing is
     * posted and nothing else changes.
     */
    method Submit(data: PatientInput, reply: Reply) returns (issues: seq<Issue>)
      modifies this
      ensures issues == Issues(data)
      ensures issues == [] <==> posted == old(posted) + [data]
      ensures issues != [] ==> posted == old(posted) && events == old(events) && loading == old(loading)
      ensures !loading || issues != []
      ensures issues == [] && reply.Registered? ==>
        events == old(events) + (if hasOnSuccess then [SuccessCallback] else [])
                              + (if hasOnClose then [CloseCallback] else [])
      ensures issues == [] && reply.Refused? ==>
        events == old(events) + [ErrorToast("Error: " + FailureMessage(reply.serverMessage))]
      ensures mobile == old(mobile)
    {
      issues := Issues(data);
      IssuesSpec(data);
      if issues == [] {
        var _ := AddPatient(data, reply);
      }
    }
  }
}
