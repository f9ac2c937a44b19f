/**
  The commissioning session the setup screen runs once the pump ID, region
  and colour are known: tune the radio, read the model, reconcile the
  remote-device IDs for that model, read the settings and basal schedule,
  select the standard profile and set the pump's clock. The first call that
  throws ends the session.

  The radio session is an oracle: a `Device` holds what each read returns
  and, call by call in the order issued, whether that call throws.
 */
module Commissioning {
  import opened Wrappers
  import opened Pump
  import ErrorText

  /** The remote-control ID written to a pre-MySentry pump that has none. */
  const DefaultRemoteID: seq<byte> := [9, 9, 9, 9, 9, 9]

  /** The slot the default remote-control ID is written to. */
  const DefaultRemoteIDIndex: nat := 2

  /** The session calls the screen issues. */
  datatype Call =
    | TuneRadio
    | GetPumpModel
    | GetOtherDevicesEnabled
    | GetOtherDevicesIDs
    | GetRemoteControlIDs
    | SetRemoteControlID(id: seq<byte>, index: nat)
    | SetRemoteControlEnabled(enabled: bool)
    | GetSettings
    | GetBasalRateSchedule(profile: BasalProfile)
    | SelectBasalProfile(profile: BasalProfile)
    | SetTimeToNow

  /** The calls that change the pump's configuration. */
  predicate IsWrite(c: Call)
  {
    c.SetRemoteControlID? || c.SetRemoteControlEnabled? || c.SelectBasalProfile? || c.SetTimeToNow?
  }

  /**
    The pump as seen through one session: the answers of its reads, and for
    the i-th call issued, `outcomes[i]` is the error it throws, if any
    (calls past the end of `outcomes` succeed).
   */
  datatype Device = Device(
    model: PumpModel,
    otherDevicesEnabled: bool,
    otherDeviceIDCount: nat,
    remoteControlIDCount: nat,
    limits: PumpLimits,
    schedule: BasalRateSchedule,
    outcomes: seq<Option<ErrorText.Error>>)

  /** What the session hands back to the screen. */
  datatype SessionResult =
    | Succeeded(isSentrySetUpNeeded: bool, limits: PumpLimits, schedule: BasalRateSchedule)
    | Failed(error: ErrorText.Error)

  /** The i-th call issued throws. */
  predicate Throws(dev: Device, i: nat)
  {
    i < |dev.outcomes| && dev.outcomes[i].Some?
  }

  /** None of the first n calls throws. */
  predicate NoThrowBefore(dev: Device, n: nat)
  {
    forall j :: 0 <= j < n ==> !Throws(dev, j)
  }

  /** The model-dependent calls between reading the model and reading the settings. */
  function RadioCalls(dev: Device): seq<Call>
  {
    if dev.model.hasMySentry then
      [GetOtherDevicesEnabled] + (if dev.otherDevicesEnabled then [GetOtherDevicesIDs] else [])
    else
      [GetRemoteControlIDs]
      + (if dev.remoteControlIDCount == 0 then [SetRemoteControlID(DefaultRemoteID, DefaultRemoteIDIndex)] else [])
      + [SetRemoteControlEnabled(true)]
  }

  /** The calls of a session in which nothing throws, in order. */
  function Planned(dev: Device): seq<Call>
  {
    [TuneRadio, GetPumpModel] + RadioCalls(dev)
    + [GetSettings, GetBasalRateSchedule(Standard), SelectBasalProfile(Standard), SetTimeToNow]
  }

  /**
    The radio section asks a MySentry pump about its other devices, at most
    two calls; an older pump is first asked for its remote IDs, and remote
    control is enabled last.
   */
  lemma RadioCallsShape(dev: Device)
    ensures 0 < |RadioCalls(dev)| <= 3
    ensures dev.model.hasMySentry ==> RadioCalls(dev)[0] == GetOtherDevicesEnabled && |RadioCalls(dev)| <= 2
    ensures !dev.model.hasMySentry ==>
      RadioCalls(dev)[0] == GetRemoteControlIDs && RadioCalls(dev)[|RadioCalls(dev)| - 1] == SetRemoteControlEnabled(true)
  {
  }

  /** A session never issues the same call twice. */
  lemma PlannedCallsDistinct(dev: Device)
    ensures forall i, j :: 0 <= i < j < |Planned(dev)| ==> Planned(dev)[i] != Planned(dev)[j]
  {
  }

  /** The first index in [i, n) whose call throws, or n when none does. */
  function FailIndex(dev: Device, n: nat, i: nat): (k: nat)
    requires i <= n
    ensures i <= k <= n
    ensures k < n ==> Throws(dev, k)
    ensures forall j :: i <= j < k ==> !Throws(dev, j)
    decreases n - i
  {
    if i == n then n
    else if Throws(dev, i) then i
    else FailIndex(dev, n, i + 1)
  }

  /**
    The calls a session issues: the planned calls up to and including the
    first one that throws.
   */
  function Transcript(dev: Device): (t: seq<Call>)
    ensures 0 < |t| <= |Planned(dev)| && t == Planned(dev)[..|t|]
    ensures NoThrowBefore(dev, |t| - 1)
    ensures t == Planned(dev) || Throws(dev, |t| - 1)
    ensures Throws(dev, |t| - 1) || NoThrowBefore(dev, |t|)
  {
    var p := Planned(dev);
    var k := FailIndex(dev, |p|, 0);
    if k < |p| then p[..k + 1] else p
  }

  /**
    Whether MySentry set-up is still needed after a session that ran to the
    end: only ever for a MySentry pump, and always when its other devices are
    disabled.
   */
  function SentrySetUpNeeded(dev: Device): (b: bool)
    ensures b ==> dev.model.hasMySentry
    ensures dev.model.hasMySentry && !dev.otherDevicesEnabled ==> b
    ensures dev.model.hasMySentry && dev.otherDevicesEnabled ==> (b <==> dev.otherDeviceIDCount == 0)
  {
    dev.model.hasMySentry && (!dev.otherDevicesEnabled || dev.otherDeviceIDCount == 0)
  }

  /**
    What a session hands back: the error of the call that ended it (the
    first planned call to throw, see FirstErrorIsReported), or, when none
    throws, the sentry flag and the settings read.
   */
  function Outcome(dev: Device): (r: SessionResult)
    ensures r.Failed? ==> Some(r.error) in dev.outcomes
    ensures r.Succeeded? ==> NoThrowBefore(dev, |Planned(dev)|)
    ensures r.Succeeded? ==> r.limits == dev.limits && r.schedule == dev.schedule
  {
    var t := Transcript(dev);
    if Throws(dev, |t| - 1) then Failed(dev.outcomes[|t| - 1].value)
    else Succeeded(SentrySetUpNeeded(dev), dev.limits, dev.schedule)
  }

  /** A session that stops where a call throws has issued exactly the transcript. */
  lemma StoppedAtThrow(dev: Device, calls: seq<Call>)
    requires 0 < |calls| <= |Planned(dev)| && calls == Planned(dev)[..|calls|]
    requires NoThrowBefore(dev, |calls| - 1) && Throws(dev, |calls| - 1)
    ensures Transcript(dev) == calls
  {
    var k := FailIndex(dev, |Planned(dev)|, 0);
    assert k == |calls| - 1;
  }

  /**
    One session call, issued as the next planned call: it is recorded, and
    the oracle says whether it throws; a throw makes the calls so far the
    whole transcript.
   */
  method Exchange(dev: Device, sent: seq<Call>, c: Call) returns (log: seq<Call>, thrown: Option<ErrorText.Error>)
    requires |sent| < |Planned(dev)| && sent == Planned(dev)[..|sent|] && Planned(dev)[|sent|] == c
    requires NoThrowBefore(dev, |sent|)
    ensures log == sent + [c] && log == Planned(dev)[..|log|]
    ensures thrown.Some? <==> Throws(dev, |sent|)
    ensures thrown.Some? ==> thrown == dev.outcomes[|sent|] && Transcript(dev) == log
    ensures thrown.None? ==> NoThrowBefore(dev, |log|)
  {
    log := sent + [c];
    thrown := if |sent| < |dev.outcomes| then dev.outcomes[|sent|] else None;
    if thrown.Some? {
      StoppedAtThrow(dev, log);
    }
  }

  /** A session in which nothing throws issues every planned call. */
  lemma RanToEnd(dev: Device)
    requires NoThrowBefore(dev, |Planned(dev)|)
    ensures Transcript(dev) == Planned(dev)
  {
  }

  /**
    The radio section of the session: a MySentry pump is asked whether other
    devices are enabled and, if they are, for their IDs; an older pump gets
    the default remote-control ID when it has none, then remote control is
    enabled. Returns whether MySentry set-up is still needed.
   */
  method ReconcileRemoteDevices(dev: Device, sent: seq<Call>)
    returns (log: seq<Call>, thrown: Option<ErrorText.Error>, isSentrySetUpNeeded: bool)
    requires sent == [TuneRadio, GetPumpModel] && NoThrowBefore(dev, |sent|)
    ensures thrown.Some? ==> Transcript(dev) == log && Throws(dev, |log| - 1) && thrown == dev.outcomes[|log| - 1]
    ensures thrown.None? ==> log == sent + RadioCalls(dev) && NoThrowBefore(dev, |log|)
    ensures thrown.None? ==> isSentrySetUpNeeded == SentrySetUpNeeded(dev)
  {
    log, isSentrySetUpNeeded := sent, false;
    if dev.model.hasMySentry {
      log, thrown := Exchange(dev, log, GetOtherDevicesEnabled);
      if thrown.Some? { return; }
      if dev.otherDevicesEnabled {
        log, thrown := Exchange(dev, log, GetOtherDevicesIDs);
        if thrown.Some? { return; }
        isSentrySetUpNeeded := dev.otherDeviceIDCount == 0;
      } else {
        isSentrySetUpNeeded := true;
      }
    } else {
      // Older pumps need a remote ID to shorten the radio wake interval.
      log, thrown := Exchange(dev, log, GetRemoteControlIDs);
      if thrown.Some? { return; }
      if dev.remoteControlIDCount == 0 {
        log, thrown := Exchange(dev, log, SetRemoteControlID(DefaultRemoteID, DefaultRemoteIDIndex));
        if thrown.Some? { return; }
      }
      log, thrown := Exchange(dev, log, SetRemoteControlEnabled(true));
    }
  }

  /**
    The settings section of the session: read the settings and the standard
    basal schedule, select the standard profile and set the pump's clock.
   */
  method ConfigureSettings(dev: Device, sent: seq<Call>) returns (log: seq<Call>, thrown: Option<ErrorText.Error>)
    requires sent == [TuneRadio, GetPumpModel] + RadioCalls(dev) && NoThrowBefore(dev, |sent|)
    ensures thrown.Some? ==> Transcript(dev) == log && Throws(dev, |log| - 1) && thrown == dev.outcomes[|log| - 1]
    ensures thrown.None? ==> log == Planned(dev) && NoThrowBefore(dev, |log|)
  {
    log, thrown := Exchange(dev, sent, GetSettings);
    if thrown.Some? { return; }
    log, thrown := Exchange(dev, log, GetBasalRateSchedule(Standard));
    if thrown.Some? { return; }
    log, thrown := Exchange(dev, log, SelectBasalProfile(Standard));
    if thrown.Some? { return; }
    log, thrown := Exchange(dev, log, SetTimeToNow);
  }

  /**
    The session body of `readPumpState`: the calls it issues and its result.
    The first error thrown ends the session and is its result; otherwise the
    result carries whether MySentry set-up is still needed.
   */
  method RunSession(dev: Device) returns (calls: seq<Call>, result: SessionResult)
    ensures calls == Transcript(dev)
    ensures result == Outcome(dev)
  {
    var thrown: Option<ErrorText.Error>;
    calls, thrown := Exchange(dev, [], TuneRadio);
    if thrown.Some? { return calls, Failed(thrown.value); }
    calls, thrown := Exchange(dev, calls, GetPumpModel);
    if thrown.Some? { return calls, Failed(thrown.value); }

    var isSentrySetUpNeeded;
    calls, thrown, isSentrySetUpNeeded := ReconcileRemoteDevices(dev, calls);
    if thrown.Some? { return calls, Failed(thrown.value); }

    calls, thrown := ConfigureSettings(dev, calls);
    if thrown.Some? { return calls, Failed(thrown.value); }
    RanToEnd(dev);
    result := Succeeded(isSentrySetUpNeeded, dev.limits, dev.schedule);
  }

  /** The configuration writes among some calls, in order. */
  function Writes(calls: seq<Call>): seq<Call>
  {
    if calls == [] then []
    else (if IsWrite(calls[0]) then [calls[0]] else []) + Writes(calls[1..])
  }

  lemma {:induction false} WritesOfConcat(a: seq<Call>, b: seq<Call>)
    ensures Writes(a + b) == Writes(a) + Writes(b)
  {
    if a != [] {
      assert (a + b)[0] == a[0];
      assert (a + b)[1..] == a[1..] + b;
      WritesOfConcat(a[1..], b);
    } else {
      assert a + b == b;
    }
  }

  /** If tuning the radio throws, the session issues nothing else. */
  lemma TuneFailureStopsSession(dev: Device)
    requires Throws(dev, 0)
    ensures Transcript(dev) == [TuneRadio]
  {
  }

  /**
    Every session starts by tuning the radio and reading the model, and a
    session that runs to the end finishes by reading the settings and the
    standard schedule, selecting the standard profile and setting the clock.
   */
  lemma SessionOrder(dev: Device)
    ensures Transcript(dev)[0] == TuneRadio
    ensures |Transcript(dev)| > 1 ==> Transcript(dev)[1] == GetPumpModel
    ensures NoThrowBefore(dev, |Planned(dev)|) ==>
      var t := Transcript(dev);
      |t| >= 6 && t[|t| - 4..] == [GetSettings, GetBasalRateSchedule(Standard), SelectBasalProfile(Standard), SetTimeToNow]
  {
  }

  /** No remote-control ID other than the default one at slot 2 is ever written. */
  lemma OnlyDefaultRemoteIDWritten(dev: Device)
    ensures forall c :: c in Transcript(dev) && c.SetRemoteControlID? ==> c == SetRemoteControlID(DefaultRemoteID, DefaultRemoteIDIndex)
  {
    var t, p := Transcript(dev), Planned(dev);
    forall c | c in t && c.SetRemoteControlID?
      ensures c == SetRemoteControlID(DefaultRemoteID, DefaultRemoteIDIndex)
    {
      var i :| 0 <= i < |t| && t[i] == c;
      assert p[i] == c;
    }
  }

  /**
    The default remote-control ID is written, at slot 2, exactly when the
    pump has no MySentry, reports no remote-control IDs, and the three calls
    before the write succeed.
   */
  lemma DefaultRemoteIDWrittenIff(dev: Device)
    ensures SetRemoteControlID(DefaultRemoteID, DefaultRemoteIDIndex) in Transcript(dev)
      <==> !dev.model.hasMySentry && dev.remoteControlIDCount == 0 && NoThrowBefore(dev, 3)
  {
    var t, p := Transcript(dev), Planned(dev);
    var w := SetRemoteControlID(DefaultRemoteID, DefaultRemoteIDIndex);
    if w in t {
      var i :| 0 <= i < |t| && t[i] == w;
      assert p[i] == w;
    }
    if !dev.model.hasMySentry && dev.remoteControlIDCount == 0 && NoThrowBefore(dev, 3) {
      assert t[3] == p[3];
    }
  }

  /**
    The other devices' IDs are read exactly when the pump has MySentry,
    reports other devices enabled, and the three calls before succeed.
   */
  lemma OtherDevicesIDsReadIff(dev: Device)
    ensures GetOtherDevicesIDs in Transcript(dev)
      <==> dev.model.hasMySentry && dev.otherDevicesEnabled && NoThrowBefore(dev, 3)
  {
    var t, p := Transcript(dev), Planned(dev);
    if GetOtherDevicesIDs in t {
      var i :| 0 <= i < |t| && t[i] == GetOtherDevicesIDs;
      assert p[i] == GetOtherDevicesIDs;
    }
    if dev.model.hasMySentry && dev.otherDevicesEnabled && NoThrowBefore(dev, 3) {
      assert t[3] == p[3];
    }
  }

  /**
    Remote control is enabled exactly on a pump without MySentry, once every
    call before it has succeeded, whether or not an ID had to be written.
   */
  lemma RemoteControlEnabledIff(dev: Device)
    ensures SetRemoteControlEnabled(true) in Transcript(dev)
      <==> !dev.model.hasMySentry && NoThrowBefore(dev, if dev.remoteControlIDCount == 0 then 4 else 3)
  {
    var t, p := Transcript(dev), Planned(dev);
    var n := if dev.remoteControlIDCount == 0 then 4 else 3;
    if SetRemoteControlEnabled(true) in t {
      var i :| 0 <= i < |t| && t[i] == SetRemoteControlEnabled(true);
      assert p[i] == SetRemoteControlEnabled(true);
    }
    if !dev.model.hasMySentry && NoThrowBefore(dev, n) {
      assert t[n] == p[n];
    }
  }

  /** A MySentry pump receives no remote-control call at all. */
  lemma MySentryPumpsSkipRemoteControl(dev: Device)
    requires dev.model.hasMySentry
    ensures forall c :: c in Transcript(dev) ==>
      !c.GetRemoteControlIDs? && !c.SetRemoteControlID? && !c.SetRemoteControlEnabled?
  {
    var t, p := Transcript(dev), Planned(dev);
    forall c | c in t
      ensures !c.GetRemoteControlIDs? && !c.SetRemoteControlID? && !c.SetRemoteControlEnabled?
    {
      var i :| 0 <= i < |t| && t[i] == c;
      assert p[i] == c;
    }
  }

  /**
    The writes of a session that runs to the end: the remote-control set-up
    on a pump without MySentry, then the profile selection and the clock.
   */
  lemma WritesOfCompleteSession(dev: Device)
    requires NoThrowBefore(dev, |Planned(dev)|)
    ensures Writes(Transcript(dev)) ==
      (if dev.model.hasMySentry then []
       else (if dev.remoteControlIDCount == 0 then [SetRemoteControlID(DefaultRemoteID, DefaultRemoteIDIndex)] else [])
            + [SetRemoteControlEnabled(true)])
      + [SelectBasalProfile(Standard), SetTimeToNow]
  {
    var head := [TuneRadio, GetPumpModel];
    var tail := [GetSettings, GetBasalRateSchedule(Standard), SelectBasalProfile(Standard), SetTimeToNow];
    assert Transcript(dev) == head + RadioCalls(dev) + tail;
    WritesOfConcat(head + RadioCalls(dev), tail);
    WritesOfConcat(head, RadioCalls(dev));
    assert Writes(head) == [] by {
      assert head[1..] == [GetPumpModel];
      assert head[1..][1..] == [];
    }
    assert Writes(tail) == [SelectBasalProfile(Standard), SetTimeToNow] by {
      assert tail[1..] == [GetBasalRateSchedule(Standard), SelectBasalProfile(Standard), SetTimeToNow];
      assert tail[1..][1..] == [SelectBasalProfile(Standard), SetTimeToNow];
      assert tail[1..][1..][1..] == [SetTimeToNow];
      assert tail[1..][1..][1..][1..] == [];
    }
    assert Writes(RadioCalls(dev)) ==
      if dev.model.hasMySentry then []
      else (if dev.remoteControlIDCount == 0 then [SetRemoteControlID(DefaultRemoteID, DefaultRemoteIDIndex)] else [])
           + [SetRemoteControlEnabled(true)]
    by {
      RadioCallsWrites(dev);
    }
  }

  lemma RadioCallsWrites(dev: Device)
    ensures Writes(RadioCalls(dev)) ==
      if dev.model.hasMySentry then []
      else (if dev.remoteControlIDCount == 0 then [SetRemoteControlID(DefaultRemoteID, DefaultRemoteIDIndex)] else [])
           + [SetRemoteControlEnabled(true)]
  {
    if dev.model.hasMySentry {
      var middle := if dev.otherDevicesEnabled then [GetOtherDevicesIDs] else [];
      WritesOfConcat([GetOtherDevicesEnabled], middle);
      assert Writes([GetOtherDevicesEnabled]) == [] by { assert [GetOtherDevicesEnabled][1..] == []; }
      assert Writes(middle) == [] by { assert middle != [] ==> middle[1..] == []; }
    } else {
      var middle := if dev.remoteControlIDCount == 0 then [SetRemoteControlID(DefaultRemoteID, DefaultRemoteIDIndex)] else [];
      WritesOfConcat([GetRemoteControlIDs] + middle, [SetRemoteControlEnabled(true)]);
      WritesOfConcat([GetRemoteControlIDs], middle);
      assert Writes([GetRemoteControlIDs]) == [] by { assert [GetRemoteControlIDs][1..] == []; }
      assert Writes(middle) == middle by { assert middle != [] ==> middle[1..] == []; }
      assert Writes([SetRemoteControlEnabled(true)]) == [SetRemoteControlEnabled(true)] by {
        assert [SetRemoteControlEnabled(true)][1..] == [];
      }
    }
  }

  /**
    A session fails exactly when some planned call throws, and then it
    reports the error of the first such call.
   */
  lemma FirstErrorIsReported(dev: Device)
    ensures Outcome(dev).Failed? <==> !NoThrowBefore(dev, |Planned(dev)|)
    ensures Outcome(dev).Failed? ==>
      var k := FailIndex(dev, |Planned(dev)|, 0);
      Some(Outcome(dev).error) == dev.outcomes[k] && NoThrowBefore(dev, k)
  {
    var t, p := Transcript(dev), Planned(dev);
    var k := FailIndex(dev, |p|, 0);
    if k < |p| {
      assert |t| == k + 1;
    } else {
      assert t == p;
    }
  }

  /**
    The sentry flag of a completed session: for a MySentry pump it is set
    when other devices are disabled or none is paired; for an older pump it
    is never set.
   */
  lemma SentryFlagCases(dev: Device)
    requires Outcome(dev).Succeeded?
    ensures dev.model.hasMySentry && dev.otherDevicesEnabled ==>
      Outcome(dev).isSentrySetUpNeeded == (dev.otherDeviceIDCount == 0)
    ensures dev.model.hasMySentry && !dev.otherDevicesEnabled ==> Outcome(dev).isSentrySetUpNeeded
    ensures !dev.model.hasMySentry ==> !Outcome(dev).isSentrySetUpNeeded
  {
  }
}
