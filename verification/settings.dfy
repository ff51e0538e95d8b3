/** The door handler's configuration record and the persistent byte store
    that backs it (lib/DoorHandler/DoorHandler.h and the offset and default
    macros of lib/DoorHandler/DoorHandler.cpp). */
module Settings {
  import opened Bytes

  /** Every field of the door handler that the core reads or writes.
      `closed`, `minuteToOpen` and `minuteToClose` are runtime state and are
      never persisted; everything else has a byte in the store. */
  datatype Config = Config(
    id: Byte,
    position: Byte,
    topPosition: Byte,
    upperThreshold: Byte,
    lowerThreshold: Byte,
    minuteOffset: Byte,
    automated: bool,
    ldrEnabled: bool,
    timeEnabled: bool,
    positionSaved: bool,
    moveTime: Byte,
    closed: bool,
    minuteToOpen: Word16,
    minuteToClose: Word16)

  /** Number of bytes of the persistent store that hold settings. */
  const StoreSize: nat := 11

  /** The persistent medium: one byte per persisted setting, offsets 0..10. */
  type Store = s: seq<Byte> | |s| == StoreSize
    witness [0, 0, 0, 0, 0, 0, 0, 0, 0, 0, 0]

  /** The door handler: its in-memory configuration and its store. */
  datatype Handler = Handler(cfg: Config, rom: Store)

  /** A handler operation that also reports whether the door was moved. */
  datatype Move = Move(after: Handler, moved: bool)

  // Store offsets, which double as the tags accepted by `saveSetting`.
  const DoorIdOffset: nat := 0
  const PositionOffset: nat := 1
  const TopPositionOffset: nat := 2
  const UpperThresholdOffset: nat := 3
  const LowerThresholdOffset: nat := 4
  const OpenOffsetOffset: nat := 5
  const AutomationOffset: nat := 6
  const LdrOffset: nat := 7
  const PositionSavedOffset: nat := 8
  const MoveTimeOffset: nat := 9
  const TimeOffset: nat := 10

  /** The tag that makes `saveSetting` re-flash the defaults. */
  const ResetTag: int := 99

  /** A stored id of 255 marks a device that was never initialised. */
  const UnsetId: Byte := 255

  /** Minimum gap between the two light thresholds. */
  const MinLightGap: int := 5

  // Defaults written by the bootstrap.
  const DefaultTopPosition: Byte := 10
  const DefaultUpperThreshold: Byte := 37
  const DefaultLowerThreshold: Byte := 25
  const DefaultOpenOffset: Byte := 0
  const DefaultAutomation: bool := true
  const DefaultLdr: bool := false
  const DefaultPositionSaved: bool := true
  const DefaultMoveTime: Byte := 75
  const DefaultTime: bool := true

  /** The hysteresis band the light thresholds are meant to keep. */
  predicate ThresholdBand(c: Config) {
    c.upperThreshold - c.lowerThreshold >= MinLightGap
  }

  /** The handler as the constructor leaves it before any settings are
      loaded: a zero-initialised global with both triggers off and the door
      flag set to closed. */
  function Initial(rom: Store): (h: Handler)
    ensures h.rom == rom
    ensures h.cfg.closed && !h.cfg.ldrEnabled && !h.cfg.timeEnabled
  {
    Handler(Config(0, 0, 0, 0, 0, 0, false, false, false, false, 0, true, 0, 0), rom)
  }
}
