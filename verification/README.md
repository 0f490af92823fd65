# Prescription front end: consultation, history, examination select and registration

This project is a Dafny model of the clinic front end's consultation workflow and of the components around it.

**The consultation form (`src/App.jsx`)** is the centre of the model.
- It holds one draft consultation: the patient, the selected tests, symptoms and medicines, the vital signs, the neurological examination and the follow-up.
- `submitConsultation` saves the draft as a sequence of requests:
  1. create the consultation record;
  2. create every selected test the catalogue does not know;
  3. assign every selected test to the consultation;
  4. submit the vital signs, the symptoms, the prescription and the examination;
  5. create a follow-up when a duration is chosen.
- The save succeeds only when every request in the batch settles as fulfilled.
- The backend is an *oracle*: a function telling how the n-th request of one save settles.
- Each save is modelled twice: once as a function (`Consultation.Submission`) and once as the imperative method that issues the requests (`Consultation.Save`). The method is proved equal to the function.
- The form itself is a class. Its handlers change the fields the source's state hooks hold.

The model also covers:
- the vital-sign validator;
- the MMSE/GCS score boxes and the effect that clamps their values;
- the medicine lines of the prescription;
- the text of the printed prescription;
- the two patient-history viewers (`PatientHistoryModal.jsx` and the panel of `SymptomEntry.jsx`);
- the creatable select of one examination field (`NeuroExamSelect.jsx`);
- the new-patient form (`AddPatientForm.jsx`).

Modules:
- `Common`: Option, `join`, digit strings.
- `Vitals`: `validateVitals` and the print test for recorded vitals.
- `NeuroScores`: the score sanitiser and the clamps.
- `Prescription`: the medicine-line updates.
- `PrintText`: the examination, symptom and test paragraphs.
- `Consultation`: the save pipeline and the form class.
- `PatientHistory`: the two history viewers.
- `NeuroSelect`: the examination select.
- `Registration`: the patient schema and the form.

**Where the prose design and the code differ, the model follows the code.**
- The design calls test creation best-effort: a failed creation would be dropped and reported as a partial failure.
- In the code, the later lookup of the created test's id reads `test.id` of `undefined` (`src/App.jsx:896-901`). That throws, and the whole save ends in the generic failure alert before any assignment, vital-sign or other batch request is issued.
- The model has this as the outcome `TestLookupCrashed`. `Consultation.LookupCrashIff` states exactly when it happens.
- Consequence: when no test is selected twice, a save reports success only when every request it issued was fulfilled, test creations included (`Consultation.AllOrNothing`). A name selected twice is created twice, and one fulfilled creation is enough for its lookup, so the other creation may fail unnoticed.

The follow-up request is the last request of the batch. It is issued only when the chosen duration is truthy.

## Model

| member | source | states |
|---|---|---|
| Common.JoinLength | src/App.jsx:543 | a joined text is as long as the parts plus one separator between each neighbouring pair |
| Common.JoinPlacesPart | src/App.jsx:543 | every part appears unchanged, in order, at its offset in the joined text |
| Common.JoinPlacesSep | src/App.jsx:543 | every part but the last is followed by the separator |
| Common.JoinAppend | src/App.jsx:543 | joining a concatenation puts exactly one separator at the seam |
| Common.SentencePlacesPart | src/App.jsx:432-445 | a list joined and closed by "." ends in "." and holds every part at its offset |
| Common.SentencePlacesSep | src/App.jsx:432-445 | ... and has the separator after each part but the last |
| Common.LeadingDigits | src/App.jsx:836 | the prefix `parseInt` reads is all digits and is maximal |
| Common.TwoDigitsBelowHundred | src/App.jsx:3996-3997 | a text of at most two digits reads as a number below 100 |
| Common.ParseIntPrefix | src/App.jsx:836 | `parseInt` gives a number exactly when the text starts with a digit |
| Vitals.BloodPressureAccepted | src/App.jsx:788-790 | every "sys/dia" reading with parts of two or three digits passes the pattern |
| Vitals.BloodPressureSplits | src/App.jsx:788-790 | every text the pattern accepts is such a reading: digits, one slash, digits |
| Vitals.BloodPressureExamples | src/App.jsx:788-790 | "125/82" passes; "1258" and "120/" fail |
| Vitals.FailedMessages | src/App.jsx:785-832 | the error list is empty exactly when every check holds, and holds only messages of failed checks |
| Vitals.FailedMessagesOfFive | src/App.jsx:785-832 | with the five checks, the errors are the failed messages in check order |
| Vitals.ValidateVitals | src/App.jsx:785-832 | pushes one message per failed check in the order BP, pulse, temperature, SpO2, NIHSS; the result is true exactly when the reading meets every range, and exactly when no message was pushed |
| Vitals.SampleReadingAcceptable | src/App.jsx:792-825 | a typical reading (72, 120/80, 36.6, 98, 0) passes every range |
| Vitals.WithReading | src/App.jsx:1387-1455 | a numeric input replaces its own reading and leaves the other readings and the blood pressure unchanged |
| Vitals.EditedReadingAcceptable | src/App.jsx:1387-1455 | after editing one input the record passes validation exactly when the new value passes its check and everything else already passed |
| Vitals.AcceptableIsRecorded | src/App.jsx:344-388 | a reading that passes validation always prints the vitals row; the blank reset state prints "No vital signs recorded" |
| NeuroScores.KeepDigits | src/App.jsx:3996-3997 | removing non-digits leaves only digits, no longer than the input, and leaves a digit string unchanged |
| NeuroScores.KeepDigitsAppend | src/App.jsx:3996-3997 | removing non-digits distributes over concatenation |
| NeuroScores.Sanitise | src/App.jsx:3994-4002 | the stored text is "" exactly when no digit was typed; otherwise it is one or two of the first typed digits (two when at least two were typed) followed by "/" and the scale |
| NeuroScores.ScoreValueOf | src/App.jsx:836 | a stored score reads back as the value of its digits |
| NeuroScores.SanitisedScoreBelowHundred | src/App.jsx:3994-4002 | a stored score always has a value below 100 |
| NeuroScores.MmseClampConstant | src/App.jsx:837-838 | the MMSE clamp constant "30/30" reads as 30 |
| NeuroScores.GcsClampConstants | src/App.jsx:844-847 | the GCS clamp constants read as 3 and 15 |
| NeuroScores.MmseClampBoundedAndStable | src/App.jsx:835-840 | after the clamp an MMSE value is at most 30, and a second clamp changes nothing |
| NeuroScores.GcsClampBoundedAndStable | src/App.jsx:842-849 | after the clamp a GCS value lies in 3..15, and a second clamp changes nothing |
| NeuroScores.TypedMmseEndsInRange | src/App.jsx:3994-4002 | whatever is typed, the stored MMSE is "" or at most 30 over "/30" |
| NeuroScores.TypedGcsEndsInRange | src/App.jsx:4030-4038 | whatever is typed, the stored GCS is "" or 3..15 over "/15" |
| NeuroScores.MmseClampExample | src/App.jsx:835-840 | "35" typed into the MMSE box is stored as "30/30" |
| NeuroScores.GcsClampExamples | src/App.jsx:842-849 | "1" typed into the GCS box is stored as "3/15", and "2x0" as "15/15" |
| Prescription.AddDefaultLine | src/App.jsx:4662-4682 | appends one line, a tablet with no medicine and the default pairs, and keeps the earlier lines |
| Prescription.WithPair | src/App.jsx:4292-4304 | sets one English/Urdu pair and leaves the other pairs, the medicine and the form unchanged |
| Prescription.UpdatePair | src/App.jsx:4292-4304 | only the line at the index changes, and only in that pair; an index past the end changes nothing |
| Prescription.ChooseMedicine | src/App.jsx:4175-4186 | only the line at the index takes the chosen medicine; its form and pairs stay |
| Prescription.AdoptCreatedMedicine | src/App.jsx:4161-4174 | a created medicine is used only when the returned id is truthy; otherwise the lines are unchanged |
| Prescription.RemoveAt | src/App.jsx:4648-4653 | removes exactly the line at the index and keeps the order of the others |
| Prescription.RemoveForgetsChoice | src/App.jsx:4648-4653 | choosing a medicine and then removing its line is the same as removing the line |
| Prescription.RemoveUndoesAdd | src/App.jsx:4662-4682 | removing the line just added gives back the old list |
| Prescription.WithPairTwice | src/App.jsx:4292-4304 | setting the same pair twice keeps the later value |
| Prescription.WithPairCommute | src/App.jsx:4292-4304 | setting two different pairs commutes |
| Prescription.LaterPairUpdateWins | src/App.jsx:4476-4488 | two changes to the same pair of one line: the later one wins |
| Prescription.PairUpdatesCommute | src/App.jsx:4551-4563 | changes to different lines, or to different pairs, commute |
| PrintText.PresentFieldsSpec | src/App.jsx:525-532 | the filter keeps exactly the table fields whose key is set and not blank |
| PrintText.ExamPartsFollowKept | src/App.jsx:525-542 | each printed part renders the kept field at the same position |
| PrintText.ExamPartsRender | src/App.jsx:533-542 | a kept check box reads "Positive" or "Negative" by truthiness; a kept text field shows its text |
| PrintText.SummaryListsParts | src/App.jsx:543 | the examination summary ends in "." and lists each kept part at its offset |
| PrintText.EmptyExamSummary | src/App.jsx:450-544 | an examination with nothing entered prints just "." |
| PrintText.SymptomParagraph | src/App.jsx:432-435 | with no symptom selected the paragraph is "No symptoms noted."; otherwise it ends in "." |
| PrintText.TestParagraph | src/App.jsx:441-444 | with no test selected the paragraph is "No tests recommended."; otherwise it ends in "." |
| PrintText.Labels | src/App.jsx:432-435 | the symptom labels are the selected options' captions, in order |
| PrintText.SymptomParagraphListsLabel | src/App.jsx:432-435 | the symptom paragraph ends in "." and lists every selected label in selection order |
| PrintText.TestParagraphListsTest | src/App.jsx:441-444 | the test paragraph ends in "." and lists every selected test in selection order |
| Consultation.FindByNameSpec | src/App.jsx:896-901 | `find` returns a catalogue test with that name, and nothing exactly when no test has it |
| Consultation.FindByNameFirst | src/App.jsx:896-901 | `find` returns the first test with that name |
| Consultation.FindByNameAppend | src/App.jsx:896-901 | looking up in catalogue + created prefers the catalogue |
| Consultation.NewTestNamesMembers | src/App.jsx:868-871 | the names to create are exactly the selected names the catalogue lacks |
| Consultation.NewTestNamesCount | src/App.jsx:868-871 | each unknown name is created as often as it was selected, known names never |
| Consultation.NewTestNamesDistinct | src/App.jsx:868-871 | a duplicate-free selection creates each name once |
| Consultation.CreateCalls | src/App.jsx:873-881 | one creation request per name, in order, with the fixed notes |
| Consultation.CreateCallsCount | src/App.jsx:873-881 | the requests hold each name as often as the names do |
| Consultation.CreatedMembers | src/App.jsx:883-888 | the created tests are exactly the fulfilled creations, each with the returned id |
| Consultation.ResolveSpec | src/App.jsx:896-901 | the lookup succeeds exactly when every selected name resolves, and then yields each name's id in order |
| Consultation.AssignCalls | src/App.jsx:904-912 | one assignment per resolved id, in order, for the new consultation |
| Consultation.SymptomIds | src/App.jsx:933-939 | the symptom body carries the selected options' ids in order |
| Consultation.ExamBody | src/App.jsx:962-1000 | every table field is sent; a check box as a truthiness flag, a text field as its own value when truthy and as "" exactly when unset or falsy |
| Consultation.BatchCallsShape | src/App.jsx:925-1018 | the batch is the assignments, then vitals, symptoms, prescription and exam, then a follow-up exactly when a duration is chosen, all scoped to the consultation |
| Consultation.Opening | src/App.jsx:858-881 | the consultation request comes first, followed by one creation per unknown test |
| Consultation.Submission | src/App.jsx:852-1066 | no patient: nothing is issued; otherwise the consultation request is first, and a rejected consultation request ends the save after it |
| Consultation.CreatedAreNew | src/App.jsx:868-888 | every created test was selected and missing from the catalogue |
| Consultation.TestCreationRequests | src/App.jsx:873-881 | right after the consultation request come the creation requests of the unknown names |
| Consultation.TestCreationCounts | src/App.jsx:868-881 | each name is created as often as it was selected when unknown, never when known |
| Consultation.LookupIdIff | src/App.jsx:896-901 | a name has no id exactly when the catalogue lacks it and all its creations were rejected |
| Consultation.CreationFailureCrashes | src/App.jsx:896-901 | a selected unknown name whose creations all failed makes the save crash after the creations, issuing nothing more |
| Consultation.LookupCrashIff | src/App.jsx:896-901 | the lookup crashes exactly when some selected name is unknown and all its creations were rejected |
| Consultation.PastLookup | src/App.jsx:896-1031 | a save that reaches the batch resolved every selected test and issued the opening and then the batch |
| Consultation.BatchScopedToConsultation | src/App.jsx:904-1018 | every batch request names the new consultation, and the batch has one assignment per test, four submissions and an optional follow-up |
| Consultation.BatchAssignments | src/App.jsx:904-912 | the assignments carry each selected test's id, in selection order |
| Consultation.AssignmentsFollowLookup | src/App.jsx:896-912 | the assignments follow the lookup's ids position by position |
| Consultation.BatchSubmissions | src/App.jsx:914-1018 | the vitals, symptoms, prescription and exam bodies, then the follow-up with its notes or the default notes |
| Consultation.SavedMeansFulfilled | src/App.jsx:1021-1034 | a success means every non-creation request was fulfilled, and a fully fulfilled save with a patient succeeds |
| Consultation.RejectedCreationCrashes | src/App.jsx:883-901 | with distinct selected tests, any rejected creation makes the save crash |
| Consultation.SavedCreationsFulfilled | src/App.jsx:883-901 | with distinct selected tests, a successful save had every creation fulfilled |
| Consultation.AllOrNothing | src/App.jsx:852-1066 | with distinct selected tests, a save succeeds exactly when a patient is loaded and every request it issued was fulfilled |
| Consultation.ResubmissionCreatesOnlyFailed | src/App.jsx:868-893 | after a save, a resubmission creates exactly the names whose creations all failed |
| Consultation.OneNewTestResolved | src/App.jsx:868-901 | one new test "MRI Brain" is created once and resolves to the returned id |
| Consultation.OneNewTestOpening | src/App.jsx:858-881 | ... its save opens with the consultation and that one creation |
| Consultation.OneNewTestRun | src/App.jsx:852-1034 | ... and with every request fulfilled it saves and creates that test |
| Consultation.OneNewTestScenario | src/App.jsx:852-1034 | ... issuing seven requests: consultation, creation, assignment, vitals, symptoms, prescription, exam |
| Consultation.IssueTestCreations | src/App.jsx:873-888 | the loop issues the creation requests and collects the fulfilled ones as specified |
| Consultation.IssueAssignments | src/App.jsx:904-912 | the loop issues the assignments as specified |
| Consultation.SettleBatch | src/App.jsx:1021-1031 | the loop answers whether every batch request was fulfilled |
| Consultation.Save | src/App.jsx:852-1066 | the imperative save issues exactly the requests of, and ends like, `Submission` |
| Consultation.CreatedCaptionMatchesLoaded | src/App.jsx:141-144 | a created medicine's caption matches the loaded caption (lines 602-609) exactly when it has a strength |
| Consultation.ClampEffect | src/App.jsx:834-850 | the effect keeps the keys and every other field, and keeps text values text |
| Consultation.ClampEffectScores | src/App.jsx:834-850 | the effect clamps each stored score with its own scale |
| Consultation.ClampEffectIgnoresOtherKeys | src/App.jsx:833-850 | the effect reads only the two scores: storing another field commutes with it |
| Consultation.ClampEffectSettles | src/App.jsx:834-850 | re-running the effect on its own update changes nothing |
| Consultation.ConsultationForm.constructor | src/App.jsx:66-100 | the initial state: no patient, empty lists, blank vitals, no examination, no follow-up |
| Consultation.ConsultationForm.Submit | src/App.jsx:852-1066 | runs `Submission` on the current draft; created tests join the catalogue; after a success the vitals and follow-up reset and the draft is printed |
| Consultation.ConsultationForm.Settle | src/App.jsx:891-893 | created tests join the catalogue; success resets and prints (lines 1034-1056); `loading` ends false except for a missing patient |
| Consultation.ConsultationForm.MergeCreated | src/App.jsx:891-893 | the created tests join the catalogue and `loading` falls; every other field of the form is unchanged |
| Consultation.ConsultationForm.ResetAfterSave | src/App.jsx:1039-1052 | the vitals reset, the follow-up fields clear and the saved draft is printed; every other field of the form is unchanged |
| Consultation.ConsultationForm.ClearFollowUp | src/App.jsx:1046-1048 | follow-up date, notes and duration back to their initial values; every other field of the form is unchanged |
| Consultation.ConsultationForm.SelectDuration | src/App.jsx:4727-4732 | sets the follow-up date with the duration, keeping the follow-up invariant; every other field of the form is unchanged |
| Consultation.ConsultationForm.SelectPatient | src/App.jsx:780-782 | the chosen (or searched, lines 704-727) patient replaces the loaded one; every other field of the form is unchanged |
| Consultation.ConsultationForm.EnterBloodPressure | src/App.jsx:1366-1372 | the typed text becomes the blood pressure; the numeric readings and every other field of the form are unchanged |
| Consultation.ConsultationForm.EnterReading | src/App.jsx:1387-1455 | the typed entry replaces that one reading; every other field of the form is unchanged |
| Consultation.ConsultationForm.SelectTests | src/App.jsx:4119-4121 | the chosen names replace the test selection; every other field of the form is unchanged |
| Consultation.ConsultationForm.SelectSymptoms | src/App.jsx:1496 | the chosen options replace the symptom selection; every other field of the form is unchanged |
| Consultation.ConsultationForm.EnterFollowUpNotes | src/App.jsx:4749-4753 | the typed text becomes the follow-up notes; every other field of the form is unchanged |
| Consultation.ConsultationForm.SetExamField | src/App.jsx:1691-1703 | a select or check box (e.g. lines 3507-3512) stores its value under its own field (any field but MMSE and GCS, which have their own boxes); a settled form stays settled under the clamp; every other field of the form is unchanged |
| Consultation.ConsultationForm.AddTestName | src/App.jsx:4122-4124 | a typed test name joins the selection; every other field of the form is unchanged |
| Consultation.ConsultationForm.CreateSymptom | src/App.jsx:644-666 | a created symptom joins the options and the selection; the fetching flag is up during the request and down after it; every other field of the form is unchanged |
| Consultation.ConsultationForm.CreateMedicine | src/App.jsx:125-157 | a created medicine joins the options with its caption and its id is returned; a failure adds nothing and returns null; `isCreating` ends false; every other field of the form is unchanged |
| Consultation.ConsultationForm.CreateMedicineForLine | src/App.jsx:4161-4174 | creates the medicine and puts a truthy id on the line; a failed creation keeps the options; `isCreating` ends false; every other field of the form is unchanged |
| Consultation.ConsultationForm.ChooseMedicineForLine | src/App.jsx:4175-4186 | the line takes the chosen medicine; every other field of the form is unchanged |
| Consultation.ConsultationForm.AddMedicineLine | src/App.jsx:4662-4682 | appends the default tablet line; every other field of the form is unchanged |
| Consultation.ConsultationForm.UpdateMedicinePair | src/App.jsx:4292-4304 | changes one pair of one line; every other field of the form is unchanged |
| Consultation.ConsultationForm.RemoveMedicineLine | src/App.jsx:4648-4653 | removes one line; every other field of the form is unchanged |
| Consultation.ConsultationForm.EnterMmse | src/App.jsx:3994-4002 | stores the sanitised text and runs the clamp; the stored MMSE ends "" or at most 30; every other field of the form is unchanged |
| Consultation.ConsultationForm.EnterGcs | src/App.jsx:4030-4038 | stores the sanitised text and runs the clamp; the stored GCS ends "" or 3..15; every other field of the form is unchanged |
| PatientHistory.Normalise | src/components/PatientHistoryModal.jsx:55-59 | an array body is the history; a single record becomes a one-record history |
| PatientHistory.EmptyFilterKeepsAll | src/components/PatientHistoryModal.jsx:172-176 | an empty date filter shows every record |
| PatientHistory.DateFilterMembers | src/components/PatientHistoryModal.jsx:172-176 | the filter keeps exactly the records whose visit date starts with the filter |
| PatientHistory.DateFilterAppend | src/components/PatientHistoryModal.jsx:172-176 | the filter works record by record and keeps the order |
| PatientHistory.DateFilterIdempotent | src/components/SymptomEntry.jsx:126-130 | filtering twice by the same date is filtering once |
| PatientHistory.Toggle | src/components/PatientHistoryModal.jsx:30-35 | the clicked section flips, a missing one opens, every other key is unchanged |
| PatientHistory.ToggleTwice | src/components/PatientHistoryModal.jsx:30-35 | two clicks on the same record restore every section's state |
| PatientHistory.Texts | src/components/SymptomEntry.jsx:147-149 | `join` writes each entry, null as "" |
| PatientHistory.TruthyTextsSpec | src/components/PatientHistoryModal.jsx:249-251 | `filter(Boolean)` keeps exactly the non-empty entries, and nothing exactly when no entry is truthy |
| PatientHistory.TruthyTextsOfTruthy | src/components/PatientHistoryModal.jsx:249-251 | when every entry is truthy the filter drops nothing |
| PatientHistory.JoinNonEmpty | src/components/PatientHistoryModal.jsx:249-251 | joining non-empty texts gives a non-empty line, so the fallback is not used |
| PatientHistory.ModalSymptomLineSpec | src/components/PatientHistoryModal.jsx:249-251 | the modal shows "No symptoms recorded" exactly when no entry is truthy, else the truthy entries joined by ", " |
| PatientHistory.EntrySymptomLineSpec | src/components/SymptomEntry.jsx:147-149 | the panel shows the fallback exactly when no entry is truthy, else all entries joined by ", " |
| PatientHistory.SymptomLinesAgreeOnTruthy | src/components/SymptomEntry.jsx:147-149 | with only truthy entries the two viewers print the same line |
| PatientHistory.SymptomLinesDiffer | src/components/SymptomEntry.jsx:147-149 | a blank entry before "Headache" prints "Headache" in the modal and ", Headache" in the panel |
| PatientHistory.HistoryModal.constructor | src/components/PatientHistoryModal.jsx:23-28 | the initial state |
| PatientHistory.HistoryModal.FetchHistory | src/components/PatientHistoryModal.jsx:37-66 | no id: only the error is set; otherwise filter and error clear, loading is up during the request, a reply becomes the history and opens the modal showing every record, a failure sets the prefixed error and keeps the history |
| PatientHistory.HistoryModal.ToggleSection | src/components/PatientHistoryModal.jsx:30-35 | flips the clicked section only |
| PatientHistory.HistoryModal.SetFilterDate | src/components/PatientHistoryModal.jsx:147-153 | the visible records are the history filtered by the new date |
| PatientHistory.HistoryModal.Close | src/components/PatientHistoryModal.jsx:136 | hides the modal and changes nothing else |
| PatientHistory.HistoryPanel.constructor | src/components/SymptomEntry.jsx:12-16 | the initial state |
| PatientHistory.HistoryPanel.FetchHistory | src/components/SymptomEntry.jsx:18-47 | the same steps as the modal's fetch |
| PatientHistory.HistoryPanel.SetFilterDate | src/components/SymptomEntry.jsx:116 | the visible records are the history filtered by the new date |
| PatientHistory.HistoryPanel.Close | src/components/SymptomEntry.jsx:105 | hides the modal and changes nothing else |
| NeuroSelect.Spaced | src/components/NeuroExamSelect.jsx:77 | every underscore becomes a space and every other character stays |
| NeuroSelect.LabelsNonEmpty | src/components/NeuroExamSelect.jsx:5-26 | every mapped label is non-empty |
| NeuroSelect.FieldLabelSpec | src/components/NeuroExamSelect.jsx:77 | a mapped field shows its label; any other shows its name with no underscore left |
| NeuroSelect.OneUnderscoreLabel | src/components/NeuroExamSelect.jsx:77 | an unmapped "a_b" shows as "a b" |
| NeuroSelect.UnmappedLabelExample | src/components/NeuroExamSelect.jsx:77 | "mmse_score" shows as "mmse score" |
| NeuroSelect.MappedLabelExample | src/components/NeuroExamSelect.jsx:22 | "gait" shows as "Gait & Balance" |
| NeuroSelect.OptionsFrom | src/components/NeuroExamSelect.jsx:40 | one option per loaded value, labelled and valued by it, in order |
| NeuroSelect.ChosenOptionDisplayed | src/components/NeuroExamSelect.jsx:51-53 | a picked option's reported value displays that same option (line 83); a cleared select displays nothing |
| NeuroSelect.ExamSelect.constructor | src/components/NeuroExamSelect.jsx:30-32 | no options, loading, not creating |
| NeuroSelect.ExamSelect.LoadOptions | src/components/NeuroExamSelect.jsx:35-46 | loaded values become the options; a failure keeps them; loading ends false |
| NeuroSelect.ExamSelect.HandleChange | src/components/NeuroExamSelect.jsx:51-53 | reports the field with the chosen value, or "" when cleared |
| NeuroSelect.ExamSelect.HandleCreate | src/components/NeuroExamSelect.jsx:55-72 | posts the typed value; on success appends the echoed option and reports it; on failure changes no option; isCreating is up only during the request |
| Registration.IssuesSpec | src/pages/AddPatientForm.jsx:9-14 | the schema passes exactly when no issue is reported; each issue is reported exactly when its rule fails, with an age that coerces to NaN failing the number check rather than `.positive` |
| Registration.Paragraphs | src/pages/AddPatientForm.jsx:100-106 | one paragraph per issue; each of the schema's own messages appears exactly when its issue is reported, a default text exactly for the not-a-number age, gender and too-long mobile issues |
| Registration.ShownParagraphs | src/pages/AddPatientForm.jsx:9-14 | no paragraph exactly when the values are valid; "Name is required", "Enter a valid age" and "Enter a valid mobile number" each appear exactly when their rule fails ("Enter a valid age" for a number that is not positive); the library's text exactly when the age is NaN, the gender is not listed or the mobile is too long |
| Registration.ZeroAgeRefused | src/pages/AddPatientForm.jsx:11 | an age of 0 is refused |
| Registration.FailureMessage | src/pages/AddPatientForm.jsx:51-55 | the server's message when non-empty, else "Failed to register patient" |
| Registration.SearchedMobileLongEnough | src/App.jsx:52-54 | a number the search accepts is never too short to register |
| Registration.SearchedMobileMayBeTooLong | src/pages/AddPatientForm.jsx:13 | a 16-digit number passes the search but is too long to register |
| Registration.RegistrationForm.constructor | src/pages/AddPatientForm.jsx:26-32 | the searched number is prefilled; nothing posted |
| Registration.RegistrationForm.Prefill | src/pages/AddPatientForm.jsx:28-32 | a non-empty searched number fills the mobile field |
| Registration.RegistrationForm.AddPatient | src/pages/AddPatientForm.jsx:34-60 | posts the values while loading; success runs the given callbacks in order; failure shows one error toast |
| Registration.RegistrationForm.Submit | src/pages/AddPatientForm.jsx:66 | posts exactly when the schema reports no issue, and then success runs the given callbacks in order and failure shows one error toast; otherwise nothing changes |

## Left out

- HTTP and axios: every request's result comes from an oracle (the save) or a reply parameter (the other handlers). Status codes, headers and JSON encoding are not modelled.
- `Promise.allSettled`: the batch is modelled as issued in source order and settled independently. Interleavings of the in-flight requests are not modelled.
- Rendering, styles, toasts' appearance and `alert` boxes: only the messages and the state they depend on are modelled.
- Dates: `toISOString` and today's date come from the caller (`SelectDuration` takes the computed date).
- `Number(...)`, `parseFloat`, `isNaN`: a numeric field is its text plus an already-parsed `Option<real>`. `parseInt` is modelled only for leading ASCII digits (no sign, no blanks).
- `String.prototype.trim`: only the common whitespace characters count as blank.
- The server's echo of `test_name`: a created test carries the name that was sent.
- `loadPatientFromURL`, timers, `navigate`, page reloads and console logs are not part of this model.
- The prescription request records the whole medicine lines; the body on the wire sends each line's medicine id and four pairs and drops its `form`.
- Consultation.SubmitExam: the request records the examination map; the wire body is `ExamBody(ExamFields, exam)`, proved separately.
- Patient ids are integers; string ids and the `!patientId` test for `""` are not modelled (an id of 0 counts as missing).
- A record without `visit_date` (where `startsWith` would throw) is not modelled: every record has a date string.
- Registration.Message: zod's default messages for the number type check on the age and for the gender and maximum-length rules are not modelled: `Message` and `Paragraphs` give None where the library text is shown. The age input has `type="number"` (src/pages/AddPatientForm.jsx:67), so a NaN age is not expected from the form itself. Lengths count characters, not UTF-16 code units.
- NeuroSelect.ExamSelect.HandleCreate: the alert on a failed creation is not modelled.
- The effect that logs the history when it changes, and the modal's other display-only state, are not modelled.
- The examination state starts as `[]` in the source and as an empty map here; both have no keys.
