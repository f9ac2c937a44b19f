# Minimed pump-ID setup screen, modelled in Dafny

This project models the logic inside the pump-ID step of the Minimed pump
set-up wizard (`MinimedKitUI/Setup/MinimedPumpIDSetupViewController.swift`).
The user picks a region and a case colour and types a six-character pump ID.
Pressing Connect runs a commissioning session over the RileyLink radio:

- tune the radio and read the pump model;
- reconcile the remote-device IDs (MySentry "other devices" on newer pumps, remote-control IDs on older ones);
- read the settings and the standard basal schedule;
- select the standard profile and set the pump's clock.

Once a pump state has arrived, the screen offers to continue, to MySentry
set-up when that is still needed.

Modules:

- `Wrappers`: `Option`.
- `Pump`: the MinimedKit/LoopKit value types the screen reads (region, colour, model, pump state, settings, manager state).
- `RegionPicker`: the two-letter region codes, their mapping to pump regions, and the picker's rows.
- `ErrorText`: the label text of an error (a LocalizedError's present parts joined with ". ").
- `PumpIDEdit`: the pump-ID text field's edit rule.
- `Commissioning`: the session as a sequence of calls against an oracle `Device`. The oracle holds the answers of the reads and, for each call in the order issued, whether it throws. `Planned` is the call list when nothing throws. `Transcript` cuts it after the first call that throws. `RunSession` is the imperative session body, proved to issue exactly `Transcript` and return `Outcome`.
- `SetupScreen`: the view controller as a class. The `didSet` observers of `continueState` and `lastError` and `updateStateForSettings` call one another. Here they are the mutually recursive methods `SetContinueState`, `SetLastError` and `UpdateStateForSettings`. `Valid()` is the screen's invariant, and every operation keeps it:
  - outside loading, the controls are the ones the state sets;
  - in ready-to-read the inputs are valid (region and colour chosen, a six-character ID);
  - in loading and in input mode they are not; reading and completed say nothing about the inputs, because a row can still be picked while a session runs;
  - the label shows the text of `lastError`;
  - an error is present only in ready-to-read;
  - a completed screen has received a pump state.

Three things the screen does not do, so the model does not either:

- It does not check the pump state's contents before completing: any non-nil `pumpState` completes the screen, and a missing one is reported as the no-RileyLink error.
- It cannot cancel a session once started.
- It does not check the pump ID for digits: an ID that is not six characters long only keeps the screen in input mode.

## Model

| member | source | states |
|---|---|---|
| RegionPicker.RawValue | MinimedKitUI/Setup/MinimedPumpIDSetupViewController.swift:19-22 | each region code's raw value is a two-letter string |
| RegionPicker.FromRawValue | MinimedKitUI/Setup/MinimedPumpIDSetupViewController.swift:19-22 | decoding a raw value yields a code whose raw value it is, or nothing when no code has it |
| RegionPicker.RawValueRoundTrip | MinimedKitUI/Setup/MinimedPumpIDSetupViewController.swift:19-22 | decoding a code's raw value gives the code back |
| RegionPicker.Region | MinimedKitUI/Setup/MinimedPumpIDSetupViewController.swift:24-33 | the pump region of a code is the one its two letters name |
| RegionPicker.CodeOf | MinimedKitUI/Setup/MinimedPumpIDSetupViewController.swift:24-33 | every pump region is the region of some code |
| RegionPicker.RegionIsBijection | MinimedKitUI/Setup/MinimedPumpIDSetupViewController.swift:24-33 | NA, CA and WW map one-to-one onto the three pump regions |
| RegionPicker.Component | MinimedKitUI/Setup/MinimedPumpIDSetupViewController.swift:339-344 | wheel 0 is the region wheel, wheel 1 the colour wheel |
| RegionPicker.NumberOfRows | MinimedKitUI/Setup/MinimedPumpIDSetupViewController.swift:368-375 | each wheel has as many rows as its row table |
| RegionPicker.RegionTitle | MinimedKitUI/Setup/MinimedPumpIDSetupViewController.swift:346-353 | a region row's title is the raw value of that row's code |
| RegionPicker.RegionRowsListEachCodeOnce | MinimedKitUI/Setup/MinimedPumpIDSetupViewController.swift:335 | the region wheel has 3 rows, each code exactly once |
| RegionPicker.ColorRowsListEachColorOnce | MinimedKitUI/Setup/MinimedPumpIDSetupViewController.swift:337 | the colour wheel has 5 rows, each colour exactly once |
| ErrorText.CompactMap | MinimedKitUI/Setup/MinimedPumpIDSetupViewController.swift:206 | compacting yields one item per present part |
| ErrorText.CompactMapAppend | MinimedKitUI/Setup/MinimedPumpIDSetupViewController.swift:206 | compacting a concatenation compacts each half, so the items stay in the order of the parts |
| ErrorText.CompactMapKeepsPresent | MinimedKitUI/Setup/MinimedPumpIDSetupViewController.swift:206 | compacting keeps every present part and nothing else |
| ErrorText.CompactMapKeepsOrder | MinimedKitUI/Setup/MinimedPumpIDSetupViewController.swift:206 | the value of the i-th part comes right after the values of the parts before it |
| ErrorText.Join | MinimedKitUI/Setup/MinimedPumpIDSetupViewController.swift:206 | the items with the separator between neighbours; stated by JoinAppend (one separator between two joined halves), JoinLength and JoinEnds |
| ErrorText.JoinAppend | MinimedKitUI/Setup/MinimedPumpIDSetupViewController.swift:206 | joining two non-empty lists is joining each and putting one separator between them |
| ErrorText.JoinEnds | MinimedKitUI/Setup/MinimedPumpIDSetupViewController.swift:206 | the joined text starts with the first item and ends with the last |
| ErrorText.JoinLength | MinimedKitUI/Setup/MinimedPumpIDSetupViewController.swift:206 | the joined text is the parts plus one separator per gap |
| ErrorText.JoinIsEmptyIff | MinimedKitUI/Setup/MinimedPumpIDSetupViewController.swift:206-210 | with ". " between them, the join is empty only for no parts or one empty part |
| ErrorText.LocalizedText | MinimedKitUI/Setup/MinimedPumpIDSetupViewController.swift:206 | the description, reason and suggestion that are present, joined with ". "; the exact text for one, two and three present parts is stated by the lemmas that follow |
| ErrorText.CompactMapOfThree | MinimedKitUI/Setup/MinimedPumpIDSetupViewController.swift:206 | the three parts are compacted one by one, in order |
| ErrorText.LocalizedTextOnePart | MinimedKitUI/Setup/MinimedPumpIDSetupViewController.swift:206 | with exactly one part present, the text is that part |
| ErrorText.LocalizedTextTwoParts | MinimedKitUI/Setup/MinimedPumpIDSetupViewController.swift:206 | with exactly two parts present, whichever they are, the text is the earlier one, ". ", then the later one |
| ErrorText.LocalizedTextEnds | MinimedKitUI/Setup/MinimedPumpIDSetupViewController.swift:206 | the text leads with the description and ends with the suggestion when they are present |
| ErrorText.LocalizedTextAllParts | MinimedKitUI/Setup/MinimedPumpIDSetupViewController.swift:206 | with all three parts present the text is "description. reason. suggestion" |
| ErrorText.LocalizedTextIsEmptyIff | MinimedKitUI/Setup/MinimedPumpIDSetupViewController.swift:206-210 | the localized text is empty, so the plain description is used, exactly when no part or only one empty part is present |
| ErrorText.Text | MinimedKitUI/Setup/MinimedPumpIDSetupViewController.swift:203-216 | the label text is nil exactly when there is no error; otherwise it is the non-empty localized text, else the description |
| PumpIDEdit.Replaced | MinimedKitUI/Setup/MinimedPumpIDSetupViewController.swift:386 | the edited text is the text before the range, then the replacement, then the text after the range |
| PumpIDEdit.Edit | MinimedKitUI/Setup/MinimedPumpIDSetupViewController.swift:380-401 | the delegate answers true exactly when the text is nil or the range does not fit; otherwise an edited text of at most 6 characters is stored, a longer one is discarded, and exactly 6 ends editing |
| PumpIDEdit.EditKeepsBound | MinimedKitUI/Setup/MinimedPumpIDSetupViewController.swift:386-398 | one edit keeps a field of at most 6 characters at most 6 |
| PumpIDEdit.EditsNeverExceedSix | MinimedKitUI/Setup/MinimedPumpIDSetupViewController.swift:380-401 | after any series of edits a field that started at most 6 characters long is still at most 6 |
| Commissioning.RadioCalls | MinimedKitUI/Setup/MinimedPumpIDSetupViewController.swift:254-274 | the model-dependent calls; their shape is stated by RadioCallsShape and their writes by RadioCallsWrites |
| Commissioning.RadioCallsShape | MinimedKitUI/Setup/MinimedPumpIDSetupViewController.swift:254-274 | a MySentry pump is first asked about other devices, at most two calls; an older pump is first asked for its remote IDs and remote control is enabled last |
| Commissioning.Planned | MinimedKitUI/Setup/MinimedPumpIDSetupViewController.swift:249-280 | the calls of a session in which nothing throws; order stated by SessionOrder, no repeats by PlannedCallsDistinct |
| Commissioning.PlannedCallsDistinct | MinimedKitUI/Setup/MinimedPumpIDSetupViewController.swift:249-280 | a session never issues the same call twice |
| Commissioning.FailIndex | MinimedKitUI/Setup/MinimedPumpIDSetupViewController.swift:249-297 | finds the first call in a range that throws, with none throwing before it |
| Commissioning.Transcript | MinimedKitUI/Setup/MinimedPumpIDSetupViewController.swift:250-280 | a session issues a non-empty prefix of the planned calls, stops only at the first throw or the end, and no call before the last throws |
| Commissioning.SentrySetUpNeeded | MinimedKitUI/Setup/MinimedPumpIDSetupViewController.swift:252-264 | set-up is needed only for a MySentry pump, always when its other devices are disabled, and otherwise exactly when it has no other-device IDs |
| Commissioning.Outcome | MinimedKitUI/Setup/MinimedPumpIDSetupViewController.swift:249-298 | a failure carries an error the oracle throws; a success means no planned call throws and carries the limits and schedule read |
| Commissioning.Exchange | MinimedKitUI/Setup/MinimedPumpIDSetupViewController.swift:250-280 | a session call is recorded as the next planned call and throws exactly when the oracle says so |
| Commissioning.ReconcileRemoteDevices | MinimedKitUI/Setup/MinimedPumpIDSetupViewController.swift:252-274 | the radio section issues the model's calls and computes the sentry flag, or stops at the first throw |
| Commissioning.ConfigureSettings | MinimedKitUI/Setup/MinimedPumpIDSetupViewController.swift:276-280 | the settings section reads the settings and standard schedule, selects the standard profile and sets the clock, or stops at the first throw |
| Commissioning.RunSession | MinimedKitUI/Setup/MinimedPumpIDSetupViewController.swift:249-298 | the session body issues exactly the transcript and returns the first thrown error or the sentry flag with the settings read |
| Commissioning.FirstErrorIsReported | MinimedKitUI/Setup/MinimedPumpIDSetupViewController.swift:294-297 | a session fails exactly when some planned call throws, and reports the first such error |
| Commissioning.TuneFailureStopsSession | MinimedKitUI/Setup/MinimedPumpIDSetupViewController.swift:250 | if tuning throws, nothing else is issued |
| Commissioning.SessionOrder | MinimedKitUI/Setup/MinimedPumpIDSetupViewController.swift:250-280 | tune, then read the model, and a full session ends with settings, standard schedule, select standard, set time |
| Commissioning.DefaultRemoteIDWrittenIff | MinimedKitUI/Setup/MinimedPumpIDSetupViewController.swift:265-271 | 9,9,9,9,9,9 is written at slot 2 exactly for a pre-MySentry pump with no remote IDs whose first three calls succeed |
| Commissioning.OnlyDefaultRemoteIDWritten | MinimedKitUI/Setup/MinimedPumpIDSetupViewController.swift:265-274 | no remote-control ID other than 9,9,9,9,9,9 at slot 2 is ever written |
| Commissioning.OtherDevicesIDsReadIff | MinimedKitUI/Setup/MinimedPumpIDSetupViewController.swift:255-264 | other devices' IDs are read exactly for a MySentry pump with other devices enabled whose first three calls succeed |
| Commissioning.RemoteControlEnabledIff | MinimedKitUI/Setup/MinimedPumpIDSetupViewController.swift:265-274 | remote control is enabled exactly on a pre-MySentry pump once every call before it succeeds, written ID or not |
| Commissioning.MySentryPumpsSkipRemoteControl | MinimedKitUI/Setup/MinimedPumpIDSetupViewController.swift:255-274 | a MySentry pump gets no remote-control call |
| Commissioning.RadioCallsWrites | MinimedKitUI/Setup/MinimedPumpIDSetupViewController.swift:252-274 | the radio section writes nothing to a MySentry pump and, to an older pump, the default ID only when it has none, then the enable |
| Commissioning.WritesOfCompleteSession | MinimedKitUI/Setup/MinimedPumpIDSetupViewController.swift:250-280 | the writes of a full session are the remote-control set-up on older pumps, then the profile selection and the clock |
| Commissioning.SentryFlagCases | MinimedKitUI/Setup/MinimedPumpIDSetupViewController.swift:252-274 | MySentry set-up is needed when other devices are disabled or have no IDs, and never for a pre-MySentry pump |
| SetupScreen.ControlsMatchActions | MinimedKitUI/Setup/MinimedPumpIDSetupViewController.swift:165-195 | the primary button is enabled exactly where pressing it acts |
| SetupScreen.ControlsFor | MinimedKitUI/Setup/MinimedPumpIDSetupViewController.swift:170-192 | the field is locked and the indicator spins only while reading; only a completed screen shows the done mark and the footer's own title |
| SetupScreen.ContinueAction | MinimedKitUI/Setup/MinimedPumpIDSetupViewController.swift:306-316 | pressing starts reading exactly when ready to read, goes to MySentry set-up exactly when completed and needed, and advances exactly when completed and not needed |
| SetupScreen.IsReadyToRead | MinimedKitUI/Setup/MinimedPumpIDSetupViewController.swift:227 | region and colour chosen and an ID of six characters; related to the edit rule by ReadyExactlyWhenEditingEnds |
| SetupScreen.ReadyExactlyWhenEditingEnds | MinimedKitUI/Setup/MinimedPumpIDSetupViewController.swift:227 | while the ID is incomplete and region and colour are chosen, an edit makes the screen ready exactly when it ends editing |
| SetupScreen.PumpIDSetupViewController.constructor | MinimedKitUI/Setup/MinimedPumpIDSetupViewController.swift:36-72 | the screen starts loading, with no region, colour, pump state or error |
| SetupScreen.PumpIDSetupViewController.ViewDidLoad | MinimedKitUI/Setup/MinimedPumpIDSetupViewController.swift:118-127 | loading the view enters input mode with no error |
| SetupScreen.PumpIDSetupViewController.UpdateStateForSettings | MinimedKitUI/Setup/MinimedPumpIDSetupViewController.swift:226-234 | ready to read exactly when region and colour are set and the ID has 6 characters, otherwise input mode with the error cleared |
| SetupScreen.PumpIDSetupViewController.SetContinueState | MinimedKitUI/Setup/MinimedPumpIDSetupViewController.swift:165-195 | each state sets its controls; input, reading and completed clear the error, ready-to-read keeps it, loading re-derives the state |
| SetupScreen.PumpIDSetupViewController.SetLastError | MinimedKitUI/Setup/MinimedPumpIDSetupViewController.swift:197-224 | clearing hides the label and leaves the state; an error re-derives the state and is kept only when the inputs are valid |
| SetupScreen.PumpIDSetupViewController.SetPumpRegionCode | MinimedKitUI/Setup/MinimedPumpIDSetupViewController.swift:36-43 | setting the region re-derives the state |
| SetupScreen.PumpIDSetupViewController.SetPumpColor | MinimedKitUI/Setup/MinimedPumpIDSetupViewController.swift:45-51 | setting the colour re-derives the state |
| SetupScreen.PumpIDSetupViewController.DidSelectRow | MinimedKitUI/Setup/MinimedPumpIDSetupViewController.swift:135-153 | ignored while reading; the picker cell fills a missing region or colour with row 0 and leaves set values alone; a fill re-derives the state and clears the error |
| SetupScreen.PumpIDSetupViewController.PickerDidSelectRow | MinimedKitUI/Setup/MinimedPumpIDSetupViewController.swift:355-362 | choosing a row sets that wheel's value only and re-derives the state; a shown error stays exactly when the inputs stay valid |
| SetupScreen.PumpIDSetupViewController.ShouldChangeCharacters | MinimedKitUI/Setup/MinimedPumpIDSetupViewController.swift:380-401 | the field takes the edit rule's text, the delegate returns its answer, and the state is re-derived |
| SetupScreen.PumpIDSetupViewController.PumpOpsDidChange | MinimedKitUI/Setup/MinimedPumpIDSetupViewController.swift:414-420 | a reported pump state is stored |
| SetupScreen.PumpIDSetupViewController.ReadPumpState | MinimedKitUI/Setup/MinimedPumpIDSetupViewController.swift:236-300 | enters reading with no error and hands PumpOps the settings; with no RileyLink no call is issued and no-RileyLink is queued, otherwise the transcript is issued and the outcome queued; inputs, pump state and stored results are unchanged |
| SetupScreen.PumpIDSetupViewController.EnterReading | MinimedKitUI/Setup/MinimedPumpIDSetupViewController.swift:237-240 | enters reading with no error and hands PumpOps the settings and the current pump state |
| SetupScreen.PumpIDSetupViewController.StartSession | MinimedKitUI/Setup/MinimedPumpIDSetupViewController.swift:241-298 | with no RileyLink only no-RileyLink is queued; otherwise the transcript is issued and the outcome queued |
| SetupScreen.PumpIDSetupViewController.DeliverCompletion | MinimedKitUI/Setup/MinimedPumpIDSetupViewController.swift:242-297 | the oldest completion is removed and run: an error is shown, kept exactly when the unchanged inputs are valid, and the stored results are left alone; a finished session stores its results and completes only when a pump state has arrived, else shows no-RileyLink |
| SetupScreen.PumpIDSetupViewController.RunCompletion | MinimedKitUI/Setup/MinimedPumpIDSetupViewController.swift:242-297 | an error is shown and the results are left alone; a success stores its results and completes only when a pump state has arrived, else shows no-RileyLink |
| SetupScreen.PumpIDSetupViewController.ShouldPerformSegue | MinimedKitUI/Setup/MinimedPumpIDSetupViewController.swift:302-304 | the segue happens only when completed, which implies a pump state and no error |
| SetupScreen.PumpIDSetupViewController.ContinueButtonPressed | MinimedKitUI/Setup/MinimedPumpIDSetupViewController.swift:306-316 | completed goes to the Sentry segue exactly when set-up is needed; ready-to-read starts a session with the entered ID and region, leaving inputs, pump state and stored results unchanged; otherwise nothing changes |
| SetupScreen.PumpIDSetupViewController.PumpManagerState | MinimedKitUI/Setup/MinimedPumpIDSetupViewController.swift:74-94 | present exactly when colour, ID, model, region and time zone are all known, and then carries exactly those values |

## Left out

- `pumpManager` (building a `MinimedPumpManager`): it constructs foreign objects from the manager state; only the state assembly is modelled.
- `cancelButtonPressed`, `keyboardDidHide`, `setEditing`, `textFieldShouldEndEditing`, `textFieldShouldReturn`, the picker cell class and the button-title helper: first-responder and presentation handling.
- Labels, images, table updates, keyboard notifications: presentation only. The controls are kept as enabled flags, the indicator state and which button title is used.
- The titles of colour rows: they are `PumpColor` raw values defined in MinimedKit, which is not part of this model.
- Text measurement: Swift counts grapheme clusters and `NSRange` counts UTF-16 units. The model counts characters of a `seq<char>`. A range converts exactly when it lies inside the text.
- PumpIDEdit.Edit: when the delegate answers true, the text system applies the edit itself. That later change is not modelled; the field keeps its text.
- The session's calls run on another queue. Here they are issued when `ReadPumpState` runs: the session body reads nothing of the screen. The main-queue hops are the `pending` queue, delivered by `DeliverCompletion` one at a time.
- When PumpOps reports a new pump state is not modelled: `PumpOpsDidChange` is an event that may come at any point.
- PumpOps, the RileyLink transport and MinimedKit message formats are not modelled. The session is an oracle of answers and thrown errors.
- `setTimeToNow(in: .current)`: the clock and time zone are not modelled; only the call is recorded.
- Settings values and the basal schedule are passed through unchanged, with no arithmetic.
- Error strings: an error's `localizedDescription` is a field. The no-RileyLink error's strings come from LoopKit and are passed to the constructor.
- The storyboard's initial text and controls: the pump-ID field is assumed to start empty, and the controls before `viewDidLoad` are not constrained.
- A completed screen is not guaranteed a non-nil `pumpManagerState`: completion checks only that some pump state arrived, and that state may lack a model or time zone.
- RegionPicker.Component: a component other than 0 or 1 crashes the Swift screen (a force-unwrap); UIKit never passes one, so it is required instead of modelling the crash.
- RegionPicker.RegionTitle: a row past the end of the region wheel crashes the Swift screen (an array index); it is required instead of modelling the crash.
- SetupScreen.PumpIDSetupViewController.PickerDidSelectRow: a bad component or a row past the end of its wheel crashes the Swift screen; UIKit never passes one, so valid indices are required instead of modelling the crash.
