# Oral-health screening suite — a verified model

The suite has three parts, and this project models the logic of all three:

- **Dentist dashboard.** A dentist chooses a patient from a roster. The dentist
  can place severity-coloured annotations on a 3D mouth model by clicking it,
  edit clinical notes, and switch between the model and a weekly appointment
  calendar.
- **MouthWatch patient app.** A patient answers an intake questionnaire and
  sends a mouth photo for screening. The app shows the resulting risk card and
  lets the patient save it to a history with a trend banner. The patient can
  also chat with an assistant and look at a 3D model of annotations.
- **Screening service.** A small service turns a classifier's class
  probabilities and the intake answers into a blended 0–100 risk score. It puts
  that score in a green, yellow or red band.

Each component becomes one Dafny module:

- The dashboard's application state is a class (`Dashboard.App`), and so are the
  intake form (`Intake.IntakeForm`), the chat screen (`Chat.ChatScreen`), the
  history screen (`Progress.ProgressScreen`) and the calendar's modal state
  (`Calendar.CalendarScreen`). Their methods update fields in place, as the
  handlers update component state.
- Value-only logic is datatypes and functions, with lemmas about them. This
  covers the types, the seed data and its display tables, the sidebar, the
  annotation placement rule, the service's scoring, the results card and the
  model-viewer screen.
- Loops in the source become methods with loop invariants, each proved equal
  to a specification function:
  - the calendar slot search;
  - the service's risk-factor sum;
  - its class-name lookup;
  - its arg-max over the predictions.

The string operations the code relies on are modelled in module `Text`:

- JavaScript `trim` and its whitespace set;
- splitting on a space and joining;
- substring containment;
- ASCII lower-casing;
- decimal rendering of a count.

Scores are exact `real` numbers.

## Model

| member | source | states |
|---|---|---|
| Types.RiskLevelName | dentist-dashboard-backup/src/types/index.ts:1 | every risk level is spelled as one of "green", "yellow", "red" |
| Types.ParseRiskLevel | dentist-dashboard-backup/src/types/index.ts:1 | a string is accepted exactly when it is a risk-level spelling, and it names the level it spells |
| Types.RiskLevelNameRoundTrip | dentist-dashboard-backup/src/types/index.ts:1 | parsing a level's spelling gives the level back |
| Types.SeverityName | dentist-dashboard-backup/src/types/index.ts:3 | every severity is spelled as one of "info", "watch", "moderate", "urgent" |
| Types.ParseSeverity | dentist-dashboard-backup/src/types/index.ts:3 | a string is accepted exactly when it is a severity spelling, and it names the severity it spells |
| Types.SeverityNameRoundTrip | dentist-dashboard-backup/src/types/index.ts:3 | parsing a severity's spelling gives the severity back |
| Types.CenterViewName | dentist-dashboard-backup/src/types/index.ts:45 | the centre view is spelled "model" or "calendar" |
| Types.PatientIds | dentist-dashboard-backup/src/types/index.ts:32-43 | the roster's ids, one per patient and in roster order |
| Types.AnnotationIdsOf | dentist-dashboard-backup/src/types/index.ts:5-11 | a patient's annotation ids, one per annotation and in order |
| Types.DistinctIffSingleOccurrences | dentist-dashboard-backup/src/types/index.ts:32-43 | a list of ids has no repeats exactly when no id occurs twice in it as a multiset |
| MockData.MockPatients | dentist-dashboard/src/data/mockData.ts:3-210 | the seed roster holds eight patients |
| MockData.Patient1Facts | dentist-dashboard/src/data/mockData.ts:4-31 | seed patient "1" has annotations ann1 and ann2, its appointments are its own, and its last scan is the newest history entry |
| MockData.Patient4Facts | dentist-dashboard/src/data/mockData.ts:32-59 | seed patient "4" has annotations ann4 to ann6, and the same record invariants hold |
| MockData.Patient7Facts | dentist-dashboard/src/data/mockData.ts:60-86 | seed patient "7" has annotations ann10 and ann11, and the same record invariants hold |
| MockData.Patient2Facts | dentist-dashboard/src/data/mockData.ts:87-112 | seed patient "2" has annotation ann3, and the same record invariants hold |
| MockData.Patient8Facts | dentist-dashboard/src/data/mockData.ts:113-135 | seed patient "8" has no annotations, and the same record invariants hold |
| MockData.Patient5Facts | dentist-dashboard/src/data/mockData.ts:136-159 | seed patient "5" has no annotations, and the same record invariants hold |
| MockData.Patient3Facts | dentist-dashboard/src/data/mockData.ts:160-182 | seed patient "3" has no annotations, and the same record invariants hold |
| MockData.Patient6Facts | dentist-dashboard/src/data/mockData.ts:183-209 | seed patient "6" has annotations ann8 and ann9, and the same record invariants hold |
| MockData.SeedIdsDistinct | dentist-dashboard/src/data/mockData.ts:3-210 | the seed ids, in the order 1,4,7,2,8,5,3,6, are pairwise distinct |
| MockData.SeedAnnotationIdsDistinct | dentist-dashboard/src/data/mockData.ts:3-210 | the seed annotation ids, listed patient by patient, are pairwise distinct |
| MockData.RosterOfSeedRecords | dentist-dashboard/src/data/mockData.ts:3-210 | eight records with those ids and annotations make a well-formed roster with distinct annotation ids |
| MockData.MockRosterWellFormed | dentist-dashboard/src/data/mockData.ts:3-210 | the seed roster has eight patients and distinct ids; every patient's last scan is its newest history entry and its appointments are its own; all annotation ids are distinct |
| MockData.SeverityConfigTable | dentist-dashboard/src/data/mockData.ts:212-217 | the severity display table has exactly one entry per severity spelling |
| MockData.RiskConfigTable | dentist-dashboard/src/data/mockData.ts:219-223 | the risk display table has exactly one entry per risk-level spelling |
| MockData.SeverityColorsDistinct | dentist-dashboard/src/data/mockData.ts:212-217 | the severity colours are pairwise different, so a pin's colour determines its severity |
| Text.TrimStart | dentist-dashboard/src/components/MouthModel.tsx:136 | strips a whitespace prefix and keeps the rest: the result is a suffix, what was dropped is whitespace, and the result does not start with whitespace |
| Text.TrimEnd | dentist-dashboard/src/components/MouthModel.tsx:136 | strips a whitespace suffix: the result is a prefix, what was dropped is whitespace, and the result does not end with whitespace |
| Text.Trim | mouthwatch-app/screens/ChatScreen.tsx:59-60 | the trimmed text is no longer than the input, and neither starts nor ends with whitespace |
| Text.TrimmedEmptyIffBlank | dentist-dashboard/src/components/MouthModel.tsx:136 | trimming leaves nothing exactly when the text is all whitespace |
| Text.TrimIsInfix | mouthwatch-app/screens/ChatScreen.tsx:60 | the trimmed text is a contiguous slice of the input, with only whitespace before and after it |
| Text.Split | dentist-dashboard-backup/src/components/Sidebar.tsx:36 | splitting yields at least one piece, and no piece contains the separator |
| Text.JoinSplit | dentist-dashboard-backup/src/components/Sidebar.tsx:36 | joining the pieces with the separator gives the text back |
| Text.ContainsTransitive | ml_model/main.py:134 | containment of substrings is transitive |
| Text.AsciiLower | ml_model/main.py:134 | lower-casing keeps the length and maps each character on its own |
| Text.DigitChar | dentist-dashboard-backup/src/components/Sidebar.tsx:85 | a digit is rendered as the character with that digit's value |
| Text.NatToDecimal | dentist-dashboard-backup/src/components/Sidebar.tsx:85 | a count is rendered as a non-empty string of digits |
| Text.DecimalRoundTrip | dentist-dashboard-backup/src/components/Sidebar.tsx:85 | reading a rendered count gives the count back |
| Placement.Placed | dentist-dashboard/src/components/MouthModel.tsx:132-145 | no annotation exactly when the label answer is missing or blank; otherwise the annotation has the clicked point, the current severity, the clock id, the label as typed (untrimmed) and the note answer, or "" when there is none |
| Placement.HandleClick | dentist-dashboard/src/components/MouthModel.tsx:132-145 | the click handler places what `Placed` describes, and asks for a note exactly when it places an annotation |
| Placement.VisibleLabelPlaces | dentist-dashboard/src/components/MouthModel.tsx:136 | a label with at least one non-whitespace character always places an annotation |
| Dashboard.Annotated | dentist-dashboard/src/App.tsx:21-32 | the patient gains the annotation at the end of their list, and nothing else changes |
| Dashboard.Renoted | dentist-dashboard/src/App.tsx:34-39 | the patient's clinical notes become the new text, and nothing else changes |
| Dashboard.WithAnnotation | dentist-dashboard/src/App.tsx:21-32 | every roster entry with the selected id gains the annotation; every other entry is unchanged; the roster length is kept |
| Dashboard.WithNotes | dentist-dashboard/src/App.tsx:34-39 | every roster entry with the selected id gets the new notes; every other entry is unchanged; the roster length is kept |
| Dashboard.AnnotationUpdateKeepsRoster | dentist-dashboard/src/App.tsx:21-32 | adding an annotation keeps the ids and the roster invariants; every patient keeps everything but their annotations |
| Dashboard.NotesUpdateKeepsRoster | dentist-dashboard/src/App.tsx:34-39 | saving notes keeps the ids, the roster invariants and every patient's annotations |
| Dashboard.AnnotationIdsAfterAdd | dentist-dashboard/src/App.tsx:21-32 | after an add, the annotation ids are the old ones plus one copy of the new id for each roster entry with the selected id |
| Dashboard.FreshAnnotationKeepsIdsDistinct | dentist-dashboard/src/App.tsx:21-32 | when patient ids are distinct and the new annotation id is fresh, annotation ids stay distinct |
| Dashboard.RepeatedClockIdIsAccepted | dentist-dashboard/src/App.tsx:21-32 | the handler does not check ids: an annotation whose id is already used is still added, and ids then repeat |
| Dashboard.ListedRecordIsOnlyMatch | dentist-dashboard/src/App.tsx:15-19 | with distinct ids, a listed patient is the only roster entry its id matches |
| Dashboard.App.constructor | dentist-dashboard/src/App.tsx:9-13 | the dashboard starts on the roster with its first patient selected, the model view, the "watch" severity and that patient's notes as the draft; the roster invariants hold and the selection is in sync |
| Dashboard.App.SelectPatient | dentist-dashboard/src/App.tsx:15-19 | selecting a patient loads their notes and returns to the model view; the roster and the severity are unchanged; a listed patient is in sync with its roster entry |
| Dashboard.App.AddAnnotation | dentist-dashboard/src/App.tsx:21-32 | the roster and the selected copy both gain the annotation; the view, severity and notes draft are unchanged; the roster invariants and the sync are kept |
| Dashboard.App.SaveNotes | dentist-dashboard/src/App.tsx:34-39 | the draft and the selected patient's roster entry get the notes; the selected copy is left as it was; the invariants are kept |
| Dashboard.App.SetSeverity | dentist-dashboard/src/App.tsx:73 | only the current severity changes |
| Dashboard.App.SetCenterView | dentist-dashboard/src/App.tsx:67 | only the centre view changes |
| Dashboard.App.ClickModel | dentist-dashboard/src/components/MouthModel.tsx:132-145 | a click on the model places the annotation `Placed` describes, with the current severity; the selected patient's roster entry and the selected copy both gain it; a blank label leaves roster and selection unchanged; severity, view and notes draft never change; the invariants are kept |
| Sidebar.FirstChars | dentist-dashboard-backup/src/components/Sidebar.tsx:36 | at most one character is taken per word |
| Sidebar.Initials | dentist-dashboard-backup/src/components/Sidebar.tsx:36 | the avatar initials (split on spaces, first character of each piece, joined) are exactly the characters that start a word of the name |
| Sidebar.WordStarts | dentist-dashboard-backup/src/components/Sidebar.tsx:36 | word starts contain no space and are no longer than the name |
| Sidebar.FirstCharsOfSplit | dentist-dashboard-backup/src/components/Sidebar.tsx:36 | the first characters of the space-separated words are the characters that start a word in the name |
| Sidebar.InitialsAreWordStarts | dentist-dashboard-backup/src/components/Sidebar.tsx:36 | the avatar initials are the word-starting characters of the name: no spaces, and no longer than the name |
| Sidebar.Rows | dentist-dashboard-backup/src/components/Sidebar.tsx:23-33 | one row per patient, in order, with the patient's initials and risk colour; a row is highlighted exactly when its id is the selected id |
| Sidebar.AppointmentLabel | dentist-dashboard-backup/src/components/Sidebar.tsx:85 | the label starts with the count in decimal, and ends in "s" exactly when the count is not one |
| Sidebar.Render | dentist-dashboard-backup/src/components/Sidebar.tsx:18-85 | the sidebar shows the patient count, one row per patient, the calendar tile as active exactly in calendar view, and the selected patient's appointment label |
| Sidebar.AtMostOneHighlighted | dentist-dashboard-backup/src/components/Sidebar.tsx:25 | with distinct ids, at most one row is highlighted |
| Sidebar.ListedSelectionHighlightsItsRow | dentist-dashboard-backup/src/components/Sidebar.tsx:25 | when a listed patient is selected, exactly its row is highlighted |
| Sidebar.ToggleView | dentist-dashboard-backup/src/components/Sidebar.tsx:63-65 | the calendar tile switches to the other view |
| Sidebar.ToggleTwiceRestores | dentist-dashboard-backup/src/components/Sidebar.tsx:63-65 | toggling twice restores the view |
| Calendar.AllPatients | dentist-dashboard/src/components/CalendarView.tsx:18-23 | the calendar's own list holds four patients |
| Calendar.FindAppointment | dentist-dashboard/src/components/CalendarView.tsx:27 | finds the first appointment on "date, 2026" at the hour, or none exactly when no appointment matches |
| Calendar.SlotLookup | dentist-dashboard/src/components/CalendarView.tsx:25-31 | a slot is empty exactly when no patient has a matching appointment; otherwise it shows the first matching patient's first matching appointment, with that patient's name, risk and id |
| Calendar.GetApptForSlot | dentist-dashboard/src/components/CalendarView.tsx:25-31 | the loop over patients computes `SlotLookup` |
| Calendar.Grid | dentist-dashboard/src/components/CalendarView.tsx:55-62 | the grid has 45 slots, day by day and hour by hour |
| Calendar.GridSlotsDistinct | dentist-dashboard/src/components/CalendarView.tsx:10-12 | no two grid slots share a date and hour |
| Calendar.FirstMatchingPatientWins | dentist-dashboard/src/components/CalendarView.tsx:26-29 | when patient k is the first with a match, the slot shows patient k's appointment |
| Calendar.FixedAppointmentsFillDistinctSlots | dentist-dashboard/src/components/CalendarView.tsx:18-23 | each of the four fixed patients has one appointment, and the four appointments sit in four different grid slots |
| Calendar.ThorntonSlot | dentist-dashboard/src/components/CalendarView.tsx:19 | the Feb 24, 10:00 AM slot shows James Thornton's screening |
| Calendar.ChenSlot | dentist-dashboard/src/components/CalendarView.tsx:22 | the Feb 24, 9:00 AM slot shows Emily Chen's consultation |
| Calendar.CalendarScreen.constructor | dentist-dashboard/src/components/CalendarView.tsx:14-15 | the calendar opens with no appointment selected |
| Calendar.CalendarScreen.ClickSlot | dentist-dashboard/src/components/CalendarView.tsx:68 | clicking a slot opens its appointment; clicking an empty slot leaves the selection unchanged |
| Calendar.CalendarScreen.Close | dentist-dashboard/src/components/CalendarView.tsx:92-97 | the backdrop and the close button clear the selection |
| Intake.Questions | mouthwatch-app/screens/IntakeFormScreen.tsx:10-63 | there are five questions; only the last is multiple choice, and it offers "none" |
| Intake.Remove | mouthwatch-app/screens/IntakeFormScreen.tsx:81-83 | removing a value drops every copy of it and keeps every other value with its multiplicity |
| Intake.Toggle | mouthwatch-app/screens/IntakeFormScreen.tsx:76-84 | choosing "none" leaves just "none"; any other value first drops "none", then is removed when it was chosen, or appended last when it was not |
| Intake.RemoveKeepsDistinct | mouthwatch-app/screens/IntakeFormScreen.tsx:81-83 | removal keeps a choice list free of repeats |
| Intake.ToggleKeepsWellFormed | mouthwatch-app/screens/IntakeFormScreen.tsx:76-85 | after a toggle the choices have no repeats, and "none" appears only on its own |
| Intake.ToggleFlips | mouthwatch-app/screens/IntakeFormScreen.tsx:80-84 | toggling a symptom flips its membership, clears "none" and leaves the other symptoms alone |
| Intake.ToggleTwice | mouthwatch-app/screens/IntakeFormScreen.tsx:80-84 | toggling a symptom twice restores the set of choices |
| Intake.SelectAnswer | mouthwatch-app/screens/IntakeFormScreen.tsx:74-89 | only the current question's answer changes: single choice replaces it, multiple choice toggles the value in it |
| Intake.IntakeForm.constructor | mouthwatch-app/screens/IntakeFormScreen.tsx:67-68 | the form starts at the first question with no answers |
| Intake.IntakeForm.IsSelected | mouthwatch-app/screens/IntakeFormScreen.tsx:91-94 | an option is highlighted when it is among the multiple choices, or when it is the single answer |
| Intake.IntakeForm.CanProceed | mouthwatch-app/screens/IntakeFormScreen.tsx:96-98 | on the multiple-choice question Next is enabled exactly when a choice is made; on a single-choice question exactly when the answer is truthy, i.e. present and not the empty string |
| Intake.IntakeForm.HandleSelect | mouthwatch-app/screens/IntakeFormScreen.tsx:74-89 | a selection updates the answers as `SelectAnswer` says and keeps the step |
| Intake.IntakeForm.HandleNext | mouthwatch-app/screens/IntakeFormScreen.tsx:100-106 | Next advances one question, and on the last question submits the answers |
| Intake.IntakeForm.PressNext | mouthwatch-app/screens/IntakeFormScreen.tsx:157-161 | a disabled Next does nothing; an enabled one behaves as `HandleNext`: it advances, or on the last question keeps the step and submits the answers |
| Intake.IntakeForm.Back | mouthwatch-app/screens/IntakeFormScreen.tsx:117 | Back steps to the previous question, and on the first question leaves the form; answers are kept |
| Intake.IntakeForm.Progress | mouthwatch-app/screens/IntakeFormScreen.tsx:108 | the progress bar is (step + 1) / 5: positive and at most one |
| RiskModel.RiskWeights | ml_model/main.py:28-45 | no single answer weighs more than 30 points |
| RiskModel.Weight | ml_model/main.py:54-56 | an answer's weight is its table entry under "key_value", and 0 when there is none |
| RiskModel.ScoreOfTotal | ml_model/main.py:57 | the score is total/125·100 when the total is at most 125, and 100 from there on; always between 0 and 100 |
| RiskModel.RiskFactorScore | ml_model/main.py:47-57 | the risk-factor score is between 0 and 100 |
| RiskModel.CalculateRiskFactorScore | ml_model/main.py:47-57 | the nested loops over answers and list items compute `RiskFactorScore`, which is between 0 and 100 |
| RiskModel.ItemsTotalAppend | ml_model/main.py:52-54 | the weight of a list of answers is additive over concatenation |
| RiskModel.SingletonListIsScalar | ml_model/main.py:52-56 | a one-item list weighs the same as the plain answer |
| RiskModel.FactorsTotalAppend | ml_model/main.py:51-56 | the total is additive over the answers |
| RiskModel.EntryOrderIrrelevant | ml_model/main.py:51-57 | the order of the answers does not change the score |
| RiskModel.UnknownPairAddsNothing | ml_model/main.py:54-56 | an answer with no table entry adds nothing to the score |
| RiskModel.WorstCaseIsClamped | ml_model/main.py:28-57 | the worst answers add up to 160, more than the 125 assumed as the maximum, so the score is clamped to 100 |
| RiskModel.SymptomsTotal | ml_model/main.py:28-45 | choosing all four symptoms weighs 50 |
| RiskModel.GetRiskColor | ml_model/main.py:66-88 | the band is green exactly below 35, yellow exactly from 35 to below 65, and red exactly from 65 |
| RiskModel.BandsAreMonotone | ml_model/main.py:66-88 | a higher score never gets a lower band |
| RiskModel.FirstContainedRisk | ml_model/main.py:133-136 | picks the first table entry whose name occurs in the class name, or none exactly when no name occurs |
| RiskModel.MlRiskScore | ml_model/main.py:132-138 | the loop with its early exit and fallback computes `MlRisk` |
| RiskModel.CancerInNonCancer | ml_model/main.py:127-134 | "cancer" occurs in "non-cancer" |
| RiskModel.CancerScoresFull | ml_model/main.py:127-136 | any class name containing "cancer" scores 100 × confidence |
| RiskModel.NonCancerAlsoScoresFull | ml_model/main.py:127-136 | as written, a "non-cancer" class also scores 100 × confidence, because "cancer" is checked first; the 20 entry is never used |
| RiskModel.OtherClassesFallBack | ml_model/main.py:137-138 | a class name without "cancer" falls back to 50 × confidence |
| RiskModel.MlRiskBounds | ml_model/main.py:132-138 | for a confidence in [0, 1], the ML risk is between 0 and 100 |
| RiskModel.Combined | ml_model/main.py:152 | the 70/30 blend lies between its two inputs, so it stays in [0, 100] when they do |
| RiskModel.FirstMaxIndex | ml_model/main.py:122-123 | the top class has the largest probability, and no earlier class ties it |
| RiskModel.TopClass | ml_model/main.py:122-123 | the scan over the predictions computes `FirstMaxIndex` |
| RiskModel.AsPercentages | ml_model/main.py:166 | every probability is reported ×100 under its class name, in order |
| RiskModel.Analyze | ml_model/main.py:105-172 | a request without an image is refused; an internal error happens exactly when there are no predictions or the answers are valid JSON but not an object; otherwise the result reports the top class, its confidence, the ML and risk-factor scores, their blend, the blend's band and all predictions |
| RiskModel.AssessmentScoreBounds | ml_model/main.py:150-161 | with probabilities in [0, 1], the reported combined score is between 0 and 100 |
| Progress.InitialHistory | mouthwatch-app/screens/ProgressScreen.tsx:10-35 | the history starts with three scans |
| Progress.TrendOf | mouthwatch-app/screens/ProgressScreen.tsx:54-60 | with fewer than two scans the trend is stable; otherwise it is increasing, decreasing or stable exactly as the newest score is above, below or equal to the one before |
| Progress.TrendIgnoresOlderEntries | mouthwatch-app/screens/ProgressScreen.tsx:54-60 | only the two newest scans affect the trend |
| Progress.TrendAfterPrepend | mouthwatch-app/screens/ProgressScreen.tsx:48-60 | after a scan is added, the trend compares it with the previous newest scan |
| Progress.InitialTrendIncreasing | mouthwatch-app/screens/ProgressScreen.tsx:10-35 | the initial history has three scans and shows an increasing trend |
| Progress.ProgressScreen.constructor | mouthwatch-app/screens/ProgressScreen.tsx:46 | the screen starts with the initial history |
| Progress.ProgressScreen.ReceiveParams | mouthwatch-app/screens/ProgressScreen.tsx:48-52 | a received scan goes in front of the whole previous history; no scan leaves the history unchanged |
| Results.RiskStyleTable | mouthwatch-app/screens/ResultsScreen.tsx:9-31 | the card table has exactly one entry per band name |
| Results.ConfigFor | mouthwatch-app/screens/ResultsScreen.tsx:38 | a band name gets its own styling, and any other colour gets the yellow styling |
| Results.CardLabelMatchesService | mouthwatch-app/screens/ResultsScreen.tsx:9-38 | the card table's label field, which the card does not display (it shows the service's own label), agrees for every score with the label the service sends for that score's band |
| Results.SaveScan | mouthwatch-app/screens/ResultsScreen.tsx:46-58 | the saved record keeps the result's colour, label and unrounded score, with the lesion "New scan" and the given id and date |
| Results.SavedScanDrivesTrend | mouthwatch-app/screens/ResultsScreen.tsx:46-58 | once saved and received, the new score leads the history, and the trend compares it with the previous newest score |
| Results.JsRound | mouthwatch-app/screens/ResultsScreen.tsx:82 | rounding gives the nearest integer, with halves rounded up |
| Results.ShownScoreNearSaved | mouthwatch-app/screens/ResultsScreen.tsx:55-82 | the score on the card differs from the saved score by at most one half |
| Results.ShareMessage | mouthwatch-app/screens/ResultsScreen.tsx:42 | the shared text is exactly as long as its fixed parts, the label, the score text, the message and the disclaimer together |
| Results.ShareMessageOrder | mouthwatch-app/screens/ResultsScreen.tsx:42 | the shared text starts with the title; the label, score, message and disclaimer follow in that order without overlap; the text ends with the disclaimer |
| Chat.InitialTranscript | mouthwatch-app/screens/ChatScreen.tsx:24-53 | the opening transcript holds seven messages |
| Chat.AppendKeepsAlternation | mouthwatch-app/screens/ChatScreen.tsx:62-92 | adding a message from the other speaker keeps the transcript alternating |
| Chat.InitialTranscriptShape | mouthwatch-app/screens/ChatScreen.tsx:24-53 | the opening transcript has seven alternating messages, starting and ending with the assistant |
| Chat.ApiRole | mouthwatch-app/screens/ChatScreen.tsx:68 | assistant messages go out as "model", and user messages as "user" |
| Chat.ToApiHistory | mouthwatch-app/screens/ChatScreen.tsx:67-70 | one API turn per message, in order, with the message's role in API spelling ("model" or "user") and its text as the only part |
| Chat.ApiHistoryRoundTrip | mouthwatch-app/screens/ChatScreen.tsx:67-70 | each API turn gives back its message, so the request carries the transcript in full and in order |
| Chat.Fallback | mouthwatch-app/screens/ChatScreen.tsx:91 | the apology is non-empty and starts and ends with a visible character |
| Chat.ReplyText | mouthwatch-app/screens/ChatScreen.tsx:89-98 | the reply is the model's text when it is a non-empty string, and the fallback apology otherwise (also on any failure); it is never empty |
| Chat.ChatScreen.constructor | mouthwatch-app/screens/ChatScreen.tsx:24-55 | the screen starts with the opening transcript, an empty input and no request pending |
| Chat.ChatScreen.Type | mouthwatch-app/screens/ChatScreen.tsx:54 | typing changes only the input |
| Chat.ChatScreen.Send | mouthwatch-app/screens/ChatScreen.tsx:58-70 | a blank input or a pending request does nothing; otherwise the trimmed input is appended as a user message, the input clears, a request is pending and the request is the whole transcript |
| Chat.ChatScreen.Complete | mouthwatch-app/screens/ChatScreen.tsx:89-100 | the reply (or the fallback) is appended as an assistant message, and the request is no longer pending |
| Chat.ChatScreen.Exchange | mouthwatch-app/screens/ChatScreen.tsx:58-103 | a full send adds exactly the user message and the reply, in that order, exactly when the input was not blank and nothing was pending; the transcript keeps alternating |
| ModelViewer.SeverityColors | mouthwatch-app/screens/ModelViewerScreen.tsx:7-12 | the colour table has exactly one entry per severity spelling |
| ModelViewer.ColorFor | mouthwatch-app/screens/ModelViewerScreen.tsx:22 | a known severity gets its table colour, and anything else gets white |
| ModelViewer.ColorsAgreeWithDashboard | mouthwatch-app/screens/ModelViewerScreen.tsx:7-12 | every severity gets the same colour as in the dashboard's severity table |
| ModelViewer.WhiteMeansUnknown | mouthwatch-app/screens/ModelViewerScreen.tsx:22 | a pin is white exactly when its severity is unknown (for severities that are not inherited property names) |
| ModelViewer.ToPins | mouthwatch-app/screens/ModelViewerScreen.tsx:19-27 | one pin per annotation, in order, with its position, label, note and severity, and the severity's colour |
| ModelViewer.PinsRoundTrip | mouthwatch-app/screens/ModelViewerScreen.tsx:19-27 | each pin gives back its annotation, so nothing is lost or reordered |
| ModelViewer.DashboardAnnotationColour | mouthwatch-app/screens/ModelViewerScreen.tsx:19-27 | a dashboard annotation is drawn in its severity's dashboard colour |
| ModelViewer.WithDefaults | mouthwatch-app/screens/ModelViewerScreen.tsx:17 | missing parameters default to no annotations and the name "Patient" |
| ModelViewer.Header | mouthwatch-app/screens/ModelViewerScreen.tsx:39 | the header is the name followed by " Mouth Model" |
| ModelViewer.NoParamsShowsEmptyModel | mouthwatch-app/screens/ModelViewerScreen.tsx:17-39 | opened without parameters, the screen draws no pins and its header is "Patient Mouth Model" |

## Left out

- Rendering, styling, the 3D scene and the viewer web page are not modelled. The dashboard's centre and right panels, and the patient app's home, camera, clinic-finder and navigation screens, are not part of this model.
- Browser prompts, `Date.now()`, the current date and the chat model's HTTP call are not modelled as effects. They appear as parameters: the label and note answers, the clock id, the date, and the call's `Outcome`. An outcome's reply text is either a string or missing; a truthy non-string value at the reply's place, which the screen would show as is, is not modelled.
- `setTimeout` scrolling, React's batching of state updates and effect scheduling are not modelled.
- Dashboard.App.constructor takes its roster as a parameter. The application passes the seed roster, `MockData.MockPatients()`, which `MockData.MockRosterWellFormed` shows meets the constructor's precondition.
- Calendar.CalendarScreen.constructor keeps the `patients` property it is given. As in the code, the grid ignores it and reads only the four fixed patients.
- RiskModel.Analyze: loading the model, decoding the image and running inference are not modelled. The request carries the class probabilities directly, and an empty list stands for inference that yields no classes.
- RiskModel.Analyze: JSON parsing of the answers is reduced to four outcomes: absent, malformed (score 0), not an object (an internal error, as `.items()` fails) and an object.
- RiskModel.Analyze: class labels are assumed distinct. A repeated label would collapse in the service's dictionary, and that is not modelled.
- RiskModel.Analyze: Python's `round(…, 1)` on the reported numbers is not modelled. The results give exact values.
- Scores and probabilities are exact reals, not IEEE doubles, and `toFixed`/number-to-string rendering is not modelled. Results.ShareMessage therefore takes the rendered score as a string.
- Sidebar.Initials: Dafny characters are Unicode scalar values, while JavaScript strings index, measure and trim by UTF-16 code units; for a name whose word starts outside the Basic Multilingual Plane the source takes half a surrogate pair, which the model does not capture. The same holds for `Text.Trim` and the lengths used elsewhere.
- RiskModel.Analyze: the decoded risk-factor object is a list of key/value entries and is assumed to have distinct keys. A JSON text that repeats a key is decoded by Python to its last value only, while the model, given every member, would add each repetition.
- Text.AsciiLower: Python's `str.lower` also lower-cases non-ASCII letters; only A–Z are modelled.
- ModelViewer.ColorFor: JavaScript property lookup would also find inherited keys such as "constructor", "toString" or "__proto__", giving a function or an object instead of a colour; only the four severity spellings are modelled as keys, and every other string is drawn white. ModelViewer.WhiteMeansUnknown holds for the modelled lookup, that is for severities that are not inherited property names.
- Results.ConfigFor: JavaScript property lookup would also find inherited keys such as "constructor"; only the three band names are modelled as keys.
- Progress: the history's colour map for the timeline dots is display-only and is not modelled.
- Chat.ChatScreen.Send: the request text is the whole transcript; the system prompt sent with it is a constant and is not modelled. The question texts of the intake form are left out for the same reason; only the question ids, their kind and the option values are kept.
- Chat.ChatScreen.Exchange: sends use the state current at the time, so two presses racing before a state update are not modelled.
- The older dashboard's seed data, the training script and the type declarations for the 3D library are not part of this model.
