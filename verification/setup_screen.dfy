/**
  The pump-ID setup screen: it collects a region, a colour and a six-character
  pump ID, runs the commissioning session when Connect is pressed, and
  offers to continue once a pump state has arrived.

  The `didSet` observers of `continueState` and `lastError` and the method
  `updateStateForSettings` call one another; here they are three mutually
  recursive methods. The main-queue hops of the Swift screen are explicit: a
  finished session leaves its completion in `pending`, and DeliverCompletion
  applies the oldest one.
 */
module SetupScreen {
  import opened Wrappers
  import opened Pump
  import RegionPicker
  import ErrorText
  import PumpIDEdit
  import Commissioning

  /** The screen's progress through set-up. */
  datatype State = LoadingView | InputSettings | ReadyToRead | Reading | Completed

  /** The activity indicator's state. */
  datatype Indicator = Hidden | Loading | Done

  /** The primary button's title: "Connect", or the footer's own title. */
  datatype ButtonTitle = Connect | DefaultTitle

  /** The controls each state sets. */
  datatype Controls = Controls(textFieldEnabled: bool, primaryButtonEnabled: bool, indicator: Indicator, title: ButtonTitle)

  /**
    The controls set on entering a state (loading sets none of its own): the
    field is locked and the indicator spins only while reading, and only a
    completed screen shows the indicator's done mark and the footer's title.
   */
  function ControlsFor(s: State): (c: Controls)
    requires s != LoadingView
    ensures !c.textFieldEnabled <==> s == Reading
    ensures c.indicator == Loading <==> s == Reading
    ensures c.indicator == Done <==> s == Completed
    ensures c.title == DefaultTitle <==> s == Completed
  {
    match s
    case InputSettings => Controls(true, false, Hidden, Connect)
    case ReadyToRead => Controls(true, true, Hidden, Connect)
    case Reading => Controls(false, false, Loading, Connect)
    case Completed => Controls(true, true, Done, DefaultTitle)
  }

  /** What pressing the primary button does. */
  datatype Action = PerformSentrySegue | AdvanceToNextStep | StartReading | Ignore

  /**
    Pressing the primary button starts reading only when ready to read, and
    leaves the screen only when completed: to MySentry set-up exactly when
    it is needed.
   */
  function ContinueAction(s: State, isSentrySetUpNeeded: bool): (a: Action)
    ensures a == StartReading <==> s == ReadyToRead
    ensures a == PerformSentrySegue <==> s == Completed && isSentrySetUpNeeded
    ensures a == AdvanceToNextStep <==> s == Completed && !isSentrySetUpNeeded
  {
    match s
    case Completed => if isSentrySetUpNeeded then PerformSentrySegue else AdvanceToNextStep
    case ReadyToRead => StartReading
    case _ => Ignore
  }

  /** The primary button is enabled exactly in the states where pressing it does something. */
  lemma ControlsMatchActions(s: State, isSentrySetUpNeeded: bool)
    requires s != LoadingView
    ensures ControlsFor(s).primaryButtonEnabled <==> ContinueAction(s, isSentrySetUpNeeded) != Ignore
  {
  }

  /** Region and colour chosen and a pump ID of exactly six characters. */
  predicate IsReadyToRead(region: Option<RegionPicker.RegionCode>, color: Option<PumpColor>, pumpID: Option<string>)
  {
    region.Some? && color.Some? && pumpID.Some? && |pumpID.value| == PumpIDEdit.PumpIDLength
  }

  /**
    While the pump ID is incomplete, with region and colour chosen, an edit
    makes the screen ready to read exactly when it also ends editing.
   */
  lemma ReadyExactlyWhenEditingEnds(
    region: Option<RegionPicker.RegionCode>, color: Option<PumpColor>,
    text: string, location: nat, length: nat, replacement: string)
    requires region.Some? && color.Some? && |text| < PumpIDEdit.PumpIDLength
    ensures var r := PumpIDEdit.Edit(Some(text), location, length, replacement);
      IsReadyToRead(region, color, r.text) <==> r.endsEditing
  {
  }

  /** A main-queue block left by a session: no RileyLink, or the session's result. */
  datatype Completion = NoSession | SessionEnded(result: Commissioning.SessionResult)

  /** What the screen hands to PumpOps when it starts a session. */
  datatype PumpOpsConfig = PumpOpsConfig(pumpSettings: PumpSettings, pumpState: Option<PumpState>)

  class PumpIDSetupViewController {
    /** The error reported when no RileyLink session could be had; its strings are LoopKit's. */
    const noRileyLink: ErrorText.Error

    var continueState: State
    var lastError: Option<ErrorText.Error>
    /** The loading label's text; the label is hidden when it is nil. */
    var errorLabel: Option<string>
    var controls: Controls

    var pumpRegionCode: Option<RegionPicker.RegionCode>
    var pumpColor: Option<PumpColor>
    /** The pump-ID text field's text. */
    var pumpID: Option<string>

    var pumpState: Option<PumpState>
    var pumpOps: Option<PumpOpsConfig>
    var maxBasalRateUnitsPerHour: Option<real>
    var maxBolusUnits: Option<real>
    var basalSchedule: Option<BasalRateSchedule>
    var isSentrySetUpNeeded: bool

    /** Every session call issued so far, in order. */
    var radioLog: seq<Commissioning.Call>
    /** Session completions queued on the main queue, oldest first. */
    var pending: seq<Completion>

    predicate Ready()
      reads this`pumpRegionCode, this`pumpColor, this`pumpID
    {
      IsReadyToRead(pumpRegionCode, pumpColor, pumpID)
    }

    ghost predicate LabelMatches()
      reads this`lastError, this`errorLabel
    {
      errorLabel == ErrorText.Text(lastError)
    }

    /** The controls and the state agree with the inputs and the pump state. */
    ghost predicate StateConsistent()
      reads this`continueState, this`controls, this`pumpRegionCode, this`pumpColor, this`pumpID, this`pumpState
    {
      && (continueState != LoadingView ==> controls == ControlsFor(continueState))
      && (continueState == LoadingView ==> !Ready())
      && (continueState == InputSettings ==> !Ready())
      && (continueState == ReadyToRead ==> Ready())
      && (continueState == Completed ==> pumpState.Some?)
    }

    /** An error is shown only while the screen is ready to read. */
    ghost predicate ErrorConsistent()
      reads this`continueState, this`lastError
    {
      continueState != ReadyToRead ==> lastError.None?
    }

    ghost predicate Valid()
      reads this`continueState, this`lastError, this`errorLabel, this`controls, this`pumpRegionCode, this`pumpColor, this`pumpID, this`pumpState
    {
      LabelMatches() && StateConsistent() && ErrorConsistent()
    }

    /** The state `updateStateForSettings` settles on after an error is shown. */
    ghost predicate ShowsError(e: ErrorText.Error)
      reads this`continueState, this`lastError, this`pumpRegionCode, this`pumpColor, this`pumpID
    {
      && continueState == (if Ready() then ReadyToRead else InputSettings)
      && lastError == (if Ready() then Some(e) else None)
    }

    /** The screen as loaded from the storyboard, before `viewDidLoad`. */
    constructor (noRileyLink: ErrorText.Error)
      ensures Valid()
      ensures this.noRileyLink == noRileyLink
      ensures continueState == LoadingView && lastError == None
      ensures pumpRegionCode == None && pumpColor == None && pumpID == Some("")
      ensures pumpState == None && pumpOps == None && !isSentrySetUpNeeded
      ensures radioLog == [] && pending == []
    {
      this.noRileyLink := noRileyLink;
      continueState := LoadingView;
      lastError := None;
      errorLabel := None;
      controls := Controls(true, false, Hidden, Connect);
      pumpRegionCode := None;
      pumpColor := None;
      pumpID := Some("");
      pumpState := None;
      pumpOps := None;
      maxBasalRateUnitsPerHour := None;
      maxBolusUnits := None;
      basalSchedule := None;
      isSentrySetUpNeeded := false;
      radioLog := [];
      pending := [];
    }

    method ViewDidLoad()
      requires Valid() && continueState == LoadingView
      modifies this`continueState, this`lastError, this`errorLabel, this`controls
      ensures Valid()
      ensures continueState == InputSettings && lastError == None
    {
      SetContinueState(InputSettings);
    }

    /**
      `updateStateForSettings`: ready to read exactly when region and colour
      are set and the pump ID has six characters; otherwise back to input,
      which clears the error.
     */
    method UpdateStateForSettings()
      requires LabelMatches()
      modifies this`continueState, this`lastError, this`errorLabel, this`controls
      ensures Valid()
      ensures continueState == ReadyToRead <==>
        pumpRegionCode.Some? && pumpColor.Some? && pumpID.Some? && |pumpID.value| == 6
      ensures continueState == ReadyToRead || continueState == InputSettings
      ensures lastError == if continueState == ReadyToRead then old(lastError) else None
      decreases 2
    {
      var isReadyToRead := Ready();
      if isReadyToRead {
        SetContinueState(ReadyToRead);
      } else {
        SetContinueState(InputSettings);
      }
    }

    /** Assigning `continueState`, with its observer. */
    method SetContinueState(s: State)
      requires LabelMatches()
      requires s == ReadyToRead ==> Ready()
      requires s == InputSettings ==> !Ready()
      requires s == Completed ==> pumpState.Some?
      modifies this`continueState, this`lastError, this`errorLabel, this`controls
      ensures Valid()
      ensures continueState == if s == LoadingView then (if Ready() then ReadyToRead else InputSettings) else s
      ensures lastError == if continueState == ReadyToRead then old(lastError) else None
      decreases if s == LoadingView then 3 else 1
    {
      continueState := s;
      match s
      case LoadingView =>
        UpdateStateForSettings();
      case InputSettings =>
        controls := ControlsFor(s);
        SetLastError(None);
      case ReadyToRead =>
        controls := ControlsFor(s);
      case Reading =>
        controls := ControlsFor(s);
        SetLastError(None);
      case Completed =>
        controls := ControlsFor(s);
        SetLastError(None);
    }

    /**
      Assigning `lastError`, with its observer: the label shows the error's
      text, and a shown error re-runs `updateStateForSettings`, which keeps
      it only when the inputs are still valid.
     */
    method SetLastError(e: Option<ErrorText.Error>)
      requires LabelMatches()
      requires e.None? ==> StateConsistent()
      modifies this`continueState, this`lastError, this`errorLabel, this`controls
      ensures Valid()
      ensures e.None? ==> lastError == None && continueState == old(continueState) && controls == old(controls)
      ensures e.Some? ==> ShowsError(e.value)
      decreases if e.None? then 0 else 3
    {
      if lastError.None? && e.None? {
        return;
      }
      lastError := e;
      errorLabel := ErrorText.Text(e);
      var isHidden := errorLabel.None?;
      if !isHidden {
        UpdateStateForSettings();
      }
    }

    /** Assigning `pumpRegionCode`, with its observer. */
    method SetPumpRegionCode(c: Option<RegionPicker.RegionCode>)
      requires LabelMatches()
      modifies this`pumpRegionCode, this`continueState, this`lastError, this`errorLabel, this`controls
      ensures pumpRegionCode == c
      ensures Valid()
      ensures continueState == if Ready() then ReadyToRead else InputSettings
      ensures lastError == if Ready() then old(lastError) else None
    {
      pumpRegionCode := c;
      UpdateStateForSettings();
    }

    /** Assigning `pumpColor`, with its observer. */
    method SetPumpColor(c: Option<PumpColor>)
      requires LabelMatches()
      modifies this`pumpColor, this`continueState, this`lastError, this`errorLabel, this`controls
      ensures pumpColor == c
      ensures Valid()
      ensures continueState == if Ready() then ReadyToRead else InputSettings
      ensures lastError == if Ready() then old(lastError) else None
    {
      pumpColor := c;
      UpdateStateForSettings();
    }

    /**
      Selecting a table row: ignored while reading; selecting the picker cell
      fills a missing region or colour with the picker's first row.
     */
    method DidSelectRow(isPickerCell: bool)
      requires Valid()
      modifies this`pumpRegionCode, this`pumpColor, this`continueState, this`lastError, this`errorLabel, this`controls
      ensures Valid()
      ensures old(continueState) == Reading || !isPickerCell ==> unchanged(this)
      ensures old(continueState) != Reading && isPickerCell ==>
        && pumpRegionCode == (if old(pumpRegionCode).None? then Some(RegionPicker.RegionRows[0]) else old(pumpRegionCode))
        && pumpColor == (if old(pumpColor).None? then Some(RegionPicker.ColorRows[0]) else old(pumpColor))
      ensures old(continueState) != Reading && isPickerCell && old(pumpRegionCode).Some? && old(pumpColor).Some?
        ==> unchanged(this)
      ensures old(continueState) != Reading && isPickerCell && (old(pumpRegionCode).None? || old(pumpColor).None?)
        ==> continueState == (if Ready() then ReadyToRead else InputSettings) && lastError == None
    {
      if continueState == Reading {
        return;
      }
      if isPickerCell {
        if pumpRegionCode.None? {
          SetPumpRegionCode(Some(RegionPicker.RegionRows[0]));
        }
        if pumpColor.None? {
          SetPumpColor(Some(RegionPicker.ColorRows[0]));
        }
      }
    }

    /** Choosing a row of one of the picker's wheels. */
    method PickerDidSelectRow(row: nat, component: nat)
      requires component < RegionPicker.ComponentCount && row < RegionPicker.NumberOfRows(component)
      requires Valid()
      modifies this`pumpRegionCode, this`pumpColor, this`continueState, this`lastError, this`errorLabel, this`controls
      ensures Valid()
      ensures component == 0 ==>
        pumpRegionCode == Some(RegionPicker.RegionRows[row]) && pumpColor == old(pumpColor)
      ensures component == 1 ==>
        pumpColor == Some(RegionPicker.ColorRows[row]) && pumpRegionCode == old(pumpRegionCode)
      ensures continueState == if Ready() then ReadyToRead else InputSettings
      ensures lastError == if Ready() then old(lastError) else None
    {
      match RegionPicker.Component(component)
      case RegionComponent =>
        SetPumpRegionCode(Some(RegionPicker.RegionRows[row]));
      case ColorComponent =>
        SetPumpColor(Some(RegionPicker.ColorRows[row]));
    }

    /**
      The pump-ID field's `shouldChangeCharactersIn`: the edit rule decides
      the new text, and the state is re-derived from the inputs every time.
     */
    method ShouldChangeCharacters(location: nat, length: nat, replacement: string)
      returns (allow: bool, endsEditing: bool)
      requires Valid()
      modifies this`pumpID, this`continueState, this`lastError, this`errorLabel, this`controls
      ensures var r := PumpIDEdit.Edit(old(pumpID), location, length, replacement);
        pumpID == r.text && allow == r.allowDefault && endsEditing == r.endsEditing
      ensures Valid()
      ensures continueState == if Ready() then ReadyToRead else InputSettings
      ensures lastError == if Ready() then old(lastError) else None
    {
      var r := PumpIDEdit.Edit(pumpID, location, length, replacement);
      pumpID := r.text;
      UpdateStateForSettings();
      allow, endsEditing := r.allowDefault, r.endsEditing;
    }

    /** The PumpOps delegate reporting a new pump state. */
    method PumpOpsDidChange(state: PumpState)
      requires Valid()
      modifies this`pumpState
      ensures pumpState == Some(state)
      ensures Valid()
    {
      pumpState := Some(state);
    }

    /**
      `readPumpState`: enter reading, hand the settings to PumpOps, and run
      the session on the connected RileyLink, if there is one; its result
      is queued for the main queue.
     */
    method ReadPumpState(settings: PumpSettings, device: Option<Commissioning.Device>)
      requires Valid()
      modifies this`continueState, this`lastError, this`errorLabel, this`controls, this`pumpOps, this`radioLog, this`pending
      ensures Valid()
      ensures continueState == Reading && lastError == None
      ensures pumpOps == Some(PumpOpsConfig(settings, old(pumpState)))
      ensures device.None? ==> radioLog == old(radioLog) && pending == old(pending) + [NoSession]
      ensures device.Some? ==>
        && radioLog == old(radioLog) + Commissioning.Transcript(device.value)
        && pending == old(pending) + [SessionEnded(Commissioning.Outcome(device.value))]
      ensures pumpRegionCode == old(pumpRegionCode) && pumpColor == old(pumpColor) && pumpID == old(pumpID)
      ensures pumpState == old(pumpState) && isSentrySetUpNeeded == old(isSentrySetUpNeeded)
      ensures maxBasalRateUnitsPerHour == old(maxBasalRateUnitsPerHour) && maxBolusUnits == old(maxBolusUnits)
      ensures basalSchedule == old(basalSchedule)
    {
      EnterReading(settings);
      StartSession(device);
    }

    /** The main-queue part of `readPumpState`: enter reading and hand PumpOps the settings. */
    method EnterReading(settings: PumpSettings)
      requires Valid()
      modifies this`continueState, this`lastError, this`errorLabel, this`controls, this`pumpOps
      ensures Valid()
      ensures continueState == Reading && lastError == None
      ensures pumpOps == Some(PumpOpsConfig(settings, pumpState))
    {
      SetContinueState(Reading);
      pumpOps := Some(PumpOpsConfig(settings, pumpState));
    }

    /**
      The work `readPumpState` sends off the main queue: without a RileyLink
      it only queues the no-RileyLink completion; with one it runs the session
      and queues its result.
     */
    method StartSession(device: Option<Commissioning.Device>)
      modifies this`radioLog, this`pending
      ensures device.None? ==> radioLog == old(radioLog) && pending == old(pending) + [NoSession]
      ensures device.Some? ==>
        && radioLog == old(radioLog) + Commissioning.Transcript(device.value)
        && pending == old(pending) + [SessionEnded(Commissioning.Outcome(device.value))]
    {
      match device
      case None =>
        pending := pending + [NoSession];
      case Some(dev) =>
        var calls, result := Commissioning.RunSession(dev);
        radioLog := radioLog + calls;
        pending := pending + [SessionEnded(result)];
    }

    /**
      Running the oldest queued completion: an error is shown; a finished
      session stores its results and completes the screen only if a pump
      state has arrived, and otherwise shows the no-RileyLink error.
     */
    method DeliverCompletion()
      requires Valid()
      modifies this`pending, this`isSentrySetUpNeeded, this`maxBasalRateUnitsPerHour, this`maxBolusUnits,
        this`basalSchedule, this`continueState, this`lastError, this`errorLabel, this`controls
      ensures Valid()
      ensures old(pending) == [] ==> unchanged(this)
      ensures pumpRegionCode == old(pumpRegionCode) && pumpColor == old(pumpColor) && pumpID == old(pumpID)
      ensures pumpOps == old(pumpOps)
      ensures old(pending) != [] && (old(pending)[0].NoSession? || old(pending)[0].result.Failed?) ==>
        && isSentrySetUpNeeded == old(isSentrySetUpNeeded)
        && maxBasalRateUnitsPerHour == old(maxBasalRateUnitsPerHour) && maxBolusUnits == old(maxBolusUnits)
        && basalSchedule == old(basalSchedule)
      ensures old(pending) != [] ==> pending == old(pending)[1..] && radioLog == old(radioLog)
      ensures old(pending) != [] ==> pumpState == old(pumpState)
      ensures old(pending) != [] && old(pending)[0] == NoSession ==> ShowsError(noRileyLink)
      ensures old(pending) != [] && old(pending)[0].SessionEnded? && old(pending)[0].result.Failed? ==>
        ShowsError(old(pending)[0].result.error)
      ensures old(pending) != [] && old(pending)[0].SessionEnded? && old(pending)[0].result.Succeeded? ==>
        var r := old(pending)[0].result;
        && isSentrySetUpNeeded == r.isSentrySetUpNeeded
        && maxBasalRateUnitsPerHour == Some(r.limits.maxBasal)
        && maxBolusUnits == Some(r.limits.maxBolus)
        && basalSchedule == Some(r.schedule)
        && (pumpState.Some? ==> continueState == Completed && lastError == None)
        && (pumpState.None? ==> ShowsError(noRileyLink))
    {
      if pending == [] {
        return;
      }
      var c := pending[0];
      pending := pending[1..];
      RunCompletion(c);
    }

    /** One completion block, run on the main queue. */
    method RunCompletion(c: Completion)
      requires Valid()
      modifies this`isSentrySetUpNeeded, this`maxBasalRateUnitsPerHour, this`maxBolusUnits,
        this`basalSchedule, this`continueState, this`lastError, this`errorLabel, this`controls
      ensures Valid()
      ensures c.NoSession? || c.result.Failed? ==>
        && isSentrySetUpNeeded == old(isSentrySetUpNeeded)
        && maxBasalRateUnitsPerHour == old(maxBasalRateUnitsPerHour) && maxBolusUnits == old(maxBolusUnits)
        && basalSchedule == old(basalSchedule)
      ensures c.NoSession? ==> ShowsError(noRileyLink)
      ensures c.SessionEnded? && c.result.Failed? ==> ShowsError(c.result.error)
      ensures c.SessionEnded? && c.result.Succeeded? ==>
        && isSentrySetUpNeeded == c.result.isSentrySetUpNeeded
        && maxBasalRateUnitsPerHour == Some(c.result.limits.maxBasal)
        && maxBolusUnits == Some(c.result.limits.maxBolus)
        && basalSchedule == Some(c.result.schedule)
        && (pumpState.Some? ==> continueState == Completed && lastError == None)
        && (pumpState.None? ==> ShowsError(noRileyLink))
    {
      match c
      case NoSession =>
        SetLastError(Some(noRileyLink));
      case SessionEnded(Failed(e)) =>
        SetLastError(Some(e));
      case SessionEnded(Succeeded(sentry, limits, schedule)) =>
        isSentrySetUpNeeded := sentry;
        maxBasalRateUnitsPerHour := Some(limits.maxBasal);
        maxBolusUnits := Some(limits.maxBolus);
        basalSchedule := Some(schedule);
        if pumpState.Some? {
          SetContinueState(Completed);
        } else {
          SetLastError(Some(noRileyLink));
        }
    }

    /** `shouldPerformSegue`: only a completed screen moves on. */
    function ShouldPerformSegue(): (r: bool)
      reads this`continueState, this`lastError, this`errorLabel, this`controls, this`pumpRegionCode, this`pumpColor, this`pumpID, this`pumpState
      requires Valid()
      ensures r <==> continueState == Completed
      ensures r ==> pumpState.Some? && lastError.None?
    {
      continueState == Completed
    }

    /**
      `continueButtonPressed`: a completed screen goes to MySentry set-up
      when it is needed and to the next step otherwise; a screen ready to
      read starts the session with the entered ID and region; in any other
      state nothing happens.
     */
    method ContinueButtonPressed(device: Option<Commissioning.Device>) returns (action: Action)
      requires Valid()
      modifies this`continueState, this`lastError, this`errorLabel, this`controls, this`pumpOps, this`radioLog, this`pending
      ensures Valid()
      ensures action == ContinueAction(old(continueState), old(isSentrySetUpNeeded))
      ensures action != StartReading ==> unchanged(this)
      ensures action == StartReading ==>
        && continueState == Reading
        && pumpOps == Some(PumpOpsConfig(
             PumpSettings(old(pumpID).value, RegionPicker.Region(old(pumpRegionCode).value)), old(pumpState)))
        && radioLog == old(radioLog) + (if device.None? then [] else Commissioning.Transcript(device.value))
        && pending == old(pending) + [if device.None? then NoSession else SessionEnded(Commissioning.Outcome(device.value))]
        && lastError == None
      ensures action == StartReading ==>
        && pumpRegionCode == old(pumpRegionCode) && pumpColor == old(pumpColor) && pumpID == old(pumpID)
        && pumpState == old(pumpState) && isSentrySetUpNeeded == old(isSentrySetUpNeeded)
        && maxBasalRateUnitsPerHour == old(maxBasalRateUnitsPerHour) && maxBolusUnits == old(maxBolusUnits)
        && basalSchedule == old(basalSchedule)
    {
      if continueState == Completed {
        action := if isSentrySetUpNeeded then PerformSentrySegue else AdvanceToNextStep;
      } else if continueState == ReadyToRead && pumpID.Some? && pumpRegionCode.Some? {
        ReadPumpState(PumpSettings(pumpID.value, RegionPicker.Region(pumpRegionCode.value)), device);
        action := StartReading;
      } else {
        action := Ignore;
      }
    }

    /**
      `pumpManagerState`: present only when colour, ID, model, region and
      time zone are all known, and then made of exactly those values.
     */
    function PumpManagerState(link: ConnectionManagerState): (r: Option<MinimedPumpManagerState>)
      reads this`pumpRegionCode, this`pumpColor, this`pumpID, this`pumpState
      ensures r.Some? <==>
        && pumpColor.Some? && pumpID.Some? && pumpRegionCode.Some?
        && pumpState.Some? && pumpState.value.pumpModel.Some? && pumpState.value.timeZone.Some?
      ensures r.Some? ==>
        && r.value.pumpColor == pumpColor.value
        && r.value.pumpID == pumpID.value
        && r.value.pumpModel == pumpState.value.pumpModel.value
        && r.value.pumpRegion == RegionPicker.Region(pumpRegionCode.value)
        && r.value.rileyLinkConnectionManagerState == link
        && r.value.timeZone == pumpState.value.timeZone.value
    {
      if pumpColor.None? || pumpID.None? || pumpState.None? || pumpState.value.pumpModel.None?
        || pumpRegionCode.None? || pumpState.value.timeZone.None?
      then None
      else Some(MinimedPumpManagerState(
        pumpColor.value, pumpID.value, pumpState.value.pumpModel.value,
        RegionPicker.Region(pumpRegionCode.value), link, pumpState.value.timeZone.value))
    }
  }
}
