/**
 * The vital-sign record of the consultation form and its validator
 * (`validateVitals` in src/App.jsx), plus the print sheet's test for whether
 * any vital sign was entered.
 */
module Vitals {
  import opened Common

  /**
   * One numeric form field: the text as typed and what JavaScript's numeric
   * coercion (`Number(raw)`, also used by `isNaN` and `<`) makes of it;
   * None stands for NaN.
   */
  datatype Entry = Entry(raw: string, number: Option<real>)

  datatype VitalSigns = VitalSigns(
    pulseRate: Entry,
    bloodPressure: string,
    temperature: Entry,
    spo2: Entry,
    nihss: Entry)

  /** An empty text field; `Number("")` is 0. */
  const BlankEntry: Entry := Entry("", Some(0.0))

  /** The initial state of the form and the state it is reset to after a save. */
  const BlankVitals: VitalSigns :=
    VitalSigns(BlankEntry, "", BlankEntry, BlankEntry, BlankEntry)

  const BloodPressureMessage: string := "Invalid blood pressure format (use XXX/XX)"
  const PulseMessage: string := "Invalid pulse rate"
  const TemperatureMessage: string := "Temperature must be between 30°C and 45°C"
  const Spo2Message: string := "SpO2 must be between 0-100%"
  const NihssMessage: string := "NIHSS score must be between 0-42"

  /**
   * The regular expression `^\d{2,3}\/\d{2,3}$`, matched as an engine does:
   * the leading digit run, then a slash, then the rest, all digits.
   */
  predicate MatchesBloodPressure(s: string)
  {
    var n := LeadingDigits(s);
    2 <= n <= 3 && n < |s| && s[n] == '/' && AllDigits(s[n + 1..]) && 2 <= |s| - n - 1 <= 3
  }

  /** Systolic and diastolic parts, each two or three digits. */
  predicate BloodPressureParts(systolic: string, diastolic: string)
  {
    2 <= |systolic| <= 3 && 2 <= |diastolic| <= 3 && AllDigits(systolic) && AllDigits(diastolic)
  }

  lemma {:induction false} LeadingDigitsOfDigitsThenOther(d: string, rest: string)
    requires AllDigits(d) && |rest| > 0 && !IsDigit(rest[0])
    ensures LeadingDigits(d + rest) == |d|
  {
    if |d| > 0 {
      assert (d + rest)[1..] == d[1..] + rest;
      LeadingDigitsOfDigitsThenOther(d[1..], rest);
    } else {
      assert d + rest == rest;
    }
  }

  /** Every "sys/dia" reading with two- or three-digit parts is accepted ... */
  lemma BloodPressureAccepted(systolic: string, diastolic: string)
    requires BloodPressureParts(systolic, diastolic)
    ensures MatchesBloodPressure(systolic + "/" + diastolic)
  {
    var s := systolic + "/" + diastolic;
    LeadingDigitsOfDigitsThenOther(systolic, "/" + diastolic);
    assert s == systolic + ("/" + diastolic);
    assert s[|systolic| + 1..] == diastolic;
  }

  /** ... and every accepted text is such a reading. */
  lemma BloodPressureSplits(s: string)
    requires MatchesBloodPressure(s)
    ensures var n := LeadingDigits(s);
      BloodPressureParts(s[..n], s[n + 1..]) && s == s[..n] + "/" + s[n + 1..]
  {
    var n := LeadingDigits(s);
    assert s == s[..n] + [s[n]] + s[n + 1..];
  }

  lemma BloodPressureExamples()
    ensures MatchesBloodPressure("125/82")
    ensures !MatchesBloodPressure("1258")
    ensures !MatchesBloodPressure("120/")
  {
    BloodPressureAccepted("125", "82");
    assert "125" + "/" + "82" == "125/82";
    assert LeadingDigits("1258") == 4 by {
      assert "1258"[1..] == "258" && "258"[1..] == "58" && "58"[1..] == "8" && "8"[1..] == "";
    }
  }

  /* The five checks, each exactly as the validator writes its negation. */

  predicate PulseAcceptable(e: Entry)
  {
    e.raw != "" && e.number.Some? && e.number.value >= 0.0
  }

  predicate TemperatureAcceptable(e: Entry)
  {
    e.raw != "" && e.number.Some? && 30.0 <= e.number.value <= 45.0
  }

  predicate Spo2Acceptable(e: Entry)
  {
    e.raw != "" && e.number.Some? && 0.0 <= e.number.value <= 100.0
  }

  predicate NihssAcceptable(e: Entry)
  {
    e.raw != "" && e.number.Some? && 0.0 <= e.number.value <= 42.0
  }

  /** Independent statement of when a vital-sign record is acceptable. */
  predicate VitalsAcceptable(v: VitalSigns)
  {
    && MatchesBloodPressure(v.bloodPressure)
    && PulseAcceptable(v.pulseRate)
    && TemperatureAcceptable(v.temperature)
    && Spo2Acceptable(v.spo2)
    && NihssAcceptable(v.nihss)
  }

  /** The four numeric inputs of the vital-signs card. */
  datatype Reading = Pulse | Temperature | Spo2 | Nihss

  function ReadingOf(v: VitalSigns, which: Reading): Entry
  {
    match which
    case Pulse => v.pulseRate
    case Temperature => v.temperature
    case Spo2 => v.spo2
    case Nihss => v.nihss
  }

  /** The validator's check of one numeric input. */
  predicate ReadingAcceptable(which: Reading, e: Entry)
  {
    match which
    case Pulse => PulseAcceptable(e)
    case Temperature => TemperatureAcceptable(e)
    case Spo2 => Spo2Acceptable(e)
    case Nihss => NihssAcceptable(e)
  }

  /** `setVitalSigns({ ...vitalSigns, <input>: e.target.value })` for a numeric input. */
  function WithReading(v: VitalSigns, which: Reading, e: Entry): (r: VitalSigns)
    ensures ReadingOf(r, which) == e
    ensures forall o :: o != which ==> ReadingOf(r, o) == ReadingOf(v, o)
    ensures r.bloodPressure == v.bloodPressure
  {
    match which
    case Pulse => v.(pulseRate := e)
    case Temperature => v.(temperature := e)
    case Spo2 => v.(spo2 := e)
    case Nihss => v.(nihss := e)
  }

  /**
   * Editing one input decides only that input's check: the record passes
   * afterwards exactly when the blood pressure and every other input
   * already passed and the new value passes its own check.
   */
  lemma EditedReadingAcceptable(v: VitalSigns, which: Reading, e: Entry)
    ensures VitalsAcceptable(WithReading(v, which, e)) <==>
      && MatchesBloodPressure(v.bloodPressure)
      && ReadingAcceptable(which, e)
      && forall o :: o != which ==> ReadingAcceptable(o, ReadingOf(v, o))
  {
    var w := WithReading(v, which, e);
    assert VitalsAcceptable(w) <==>
      MatchesBloodPressure(w.bloodPressure)
      && ReadingAcceptable(Pulse, ReadingOf(w, Pulse)) && ReadingAcceptable(Temperature, ReadingOf(w, Temperature))
      && ReadingAcceptable(Spo2, ReadingOf(w, Spo2)) && ReadingAcceptable(Nihss, ReadingOf(w, Nihss));
  }

  /** The validator's checks in the order it runs them, paired with their messages. */
  function Checks(v: VitalSigns): seq<(bool, string)>
  {
    [ (MatchesBloodPressure(v.bloodPressure), BloodPressureMessage),
      (PulseAcceptable(v.pulseRate), PulseMessage),
      (TemperatureAcceptable(v.temperature), TemperatureMessage),
      (Spo2Acceptable(v.spo2), Spo2Message),
      (NihssAcceptable(v.nihss), NihssMessage) ]
  }

  /** The messages of the failed checks, in order. */
  function FailedMessages(checks: seq<(bool, string)>): (r: seq<string>)
    ensures |r| <= |checks|
    ensures r == [] <==> forall i :: 0 <= i < |checks| ==> checks[i].0
    ensures forall m :: m in r ==> exists i :: 0 <= i < |checks| && !checks[i].0 && checks[i].1 == m
  {
    if |checks| == 0 then [] else Failed(checks[0]) + FailedMessages(checks[1..])
  }

  function Failed(check: (bool, string)): seq<string>
  {
    if check.0 then [] else [check.1]
  }

  lemma {:induction false} FailedMessagesOfFive(c: seq<(bool, string)>)
    requires |c| == 5
    ensures FailedMessages(c) == Failed(c[0]) + Failed(c[1]) + Failed(c[2]) + Failed(c[3]) + Failed(c[4])
  {
    var c1, c2, c3, c4 := c[1..], c[2..], c[3..], c[4..];
    assert c1[1..] == c2 && c2[1..] == c3 && c3[1..] == c4 && c4[1..] == [];
    assert FailedMessages(c4) == Failed(c[4]);
    assert FailedMessages(c3) == Failed(c[3]) + Failed(c[4]);
    assert FailedMessages(c2) == Failed(c[2]) + (Failed(c[3]) + Failed(c[4]));
    assert FailedMessages(c1) == Failed(c[1]) + (Failed(c[2]) + Failed(c[3]) + Failed(c[4]));
  }

  /**
   * `validateVitals`: pushes one message per failed check, in the order
   * BP, pulse, temperature, SpO2, NIHSS, and answers whether none failed.
   * The alert that shows the messages is not modelled.
   */
  method ValidateVitals(v: VitalSigns) returns (ok: bool, errors: seq<string>)
    ensures errors == FailedMessages(Checks(v))
    ensures ok <==> VitalsAcceptable(v)
    ensures ok <==> errors == []
  {
    var c := Checks(v);
    errors := [];
    if !MatchesBloodPressure(v.bloodPressure) {
      errors := errors + [BloodPressureMessage];
    }
    if v.pulseRate.raw == "" || v.pulseRate.number.None? || v.pulseRate.number.value < 0.0 {
      errors := errors + [PulseMessage];
    }
    assert errors == Failed(c[0]) + Failed(c[1]);
    if v.temperature.raw == "" || v.temperature.number.None?
      || v.temperature.number.value < 30.0 || v.temperature.number.value > 45.0
    {
      errors := errors + [TemperatureMessage];
    }
    assert errors == Failed(c[0]) + Failed(c[1]) + Failed(c[2]);
    if v.spo2.raw == "" || v.spo2.number.None?
      || v.spo2.number.value < 0.0 || v.spo2.number.value > 100.0
    {
      errors := errors + [Spo2Message];
    }
    assert errors == Failed(c[0]) + Failed(c[1]) + Failed(c[2]) + Failed(c[3]);
    if v.nihss.raw == "" || v.nihss.number.None?
      || v.nihss.number.value < 0.0 || v.nihss.number.value > 42.0
    {
      errors := errors + [NihssMessage];
    }
    assert errors == Failed(c[0]) + Failed(c[1]) + Failed(c[2]) + Failed(c[3]) + Failed(c[4]);
    FailedMessagesOfFive(c);
    assert errors == [] <==> c[0].0 && c[1].0 && c[2].0 && c[3].0 && c[4].0;
    ok := |errors| == 0;
  }

  /** A well-formed sample reading passes every check. */
  lemma SampleReadingAcceptable()
    ensures VitalsAcceptable(VitalSigns(
      Entry("72", Some(72.0)), "120/80", Entry("36.6", Some(36.6)),
      Entry("98", Some(98.0)), Entry("0", Some(0.0))))
  {
    BloodPressureAccepted("120", "80");
    assert "120" + "/" + "80" == "120/80";
  }

  /**
   * The print sheet shows the vital-sign row when any of the five texts is
   * non-empty, and "No vital signs recorded" otherwise.
   */
  predicate AnyVitalRecorded(v: VitalSigns)
  {
    v.bloodPressure != "" || v.pulseRate.raw != "" || v.temperature.raw != ""
    || v.spo2.raw != "" || v.nihss.raw != ""
  }

  /** A record that passes validation is always printed; a reset one never is. */
  lemma AcceptableIsRecorded(v: VitalSigns)
    ensures VitalsAcceptable(v) ==> AnyVitalRecorded(v)
    ensures !AnyVitalRecorded(BlankVitals)
  {
  }
}
