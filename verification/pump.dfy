/**
  Value types that the setup screen receives from MinimedKit and LoopKit.
  Their definitions live outside the screen; only what the screen reads
  from them is kept, and numeric settings are passed through untouched.
 */
module Pump {
  import opened Wrappers

  /** A byte of a remote-control ID written to the pump. */
  newtype byte = x: int | 0 <= x < 256

  /** MinimedKit's radio region of a pump. */
  datatype PumpRegion = NorthAmerica | Canada | WorldWide

  /** The case colours the screen offers. */
  datatype PumpColor = Blue | Clear | Purple | Smoke | Pink

  /** A pump model; `hasMySentry` is the capability flag the session branches on. */
  datatype PumpModel = PumpModel(name: string, hasMySentry: bool)

  /** A time zone, by identifier. */
  datatype TimeZone = TimeZone(identifier: string)

  /** What PumpOps reports it knows about the pump. */
  datatype PumpState = PumpState(pumpModel: Option<PumpModel>, timeZone: Option<TimeZone>)

  /** The identity handed to PumpOps when a session is started. */
  datatype PumpSettings = PumpSettings(pumpID: string, pumpRegion: PumpRegion)

  /** The pump's basal profiles. */
  datatype BasalProfile = Standard | ProfileA | ProfileB

  /** The maximum rates read from the pump, carried through without arithmetic. */
  datatype PumpLimits = PumpLimits(maxBasal: real, maxBolus: real)

  /** A basal rate schedule: (start offset in minutes, units per hour) pairs, carried through. */
  datatype BasalRateSchedule = BasalRateSchedule(items: seq<(nat, real)>)

  /** The RileyLink connection manager's state, carried through into the manager state. */
  datatype ConnectionManagerState = ConnectionManagerState(autoConnectIDs: set<string>)

  /** The record that `pumpManagerState` assembles. */
  datatype MinimedPumpManagerState = MinimedPumpManagerState(
    pumpColor: PumpColor,
    pumpID: string,
    pumpModel: PumpModel,
    pumpRegion: PumpRegion,
    rileyLinkConnectionManagerState: ConnectionManagerState,
    timeZone: TimeZone)
}
