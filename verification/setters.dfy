/** The validating setters of the door handler
    (lib/DoorHandler/DoorHandler.cpp and the inline `setAutomated` of
    lib/DoorHandler/DoorHandler.h). Each returns the whole handler; the C++
    setters that return a `uint8_t` return the field's resulting value,
    which is the corresponding field of the result here. */
module Setters {
  import opened Bytes
  import opened Settings
  import opened Persistence

  /** `setLightUpperThreshold(v)`: accepted when v lies strictly between
      the lower threshold and 255 and the gap, taken as an `int8_t`, is at
      least 5, which holds exactly for gaps 5..127. The save happens before
      the assignment, so the store receives the OLD upper threshold. A
      refused value changes nothing. */
  function SetUpperThreshold(h: Handler, v: Byte): (r: Handler)
    ensures var lower := h.cfg.lowerThreshold;
            if lower < v < 255 && MinLightGap <= v - lower <= 127 then
              r.cfg == h.cfg.(upperThreshold := v) &&
              r.rom == h.rom[UpperThresholdOffset := h.cfg.upperThreshold]
            else r == h
  {
    var lower := h.cfg.lowerThreshold;
    if v <= 0 || v <= lower || v >= 255 then h
    else if ToInt8(v - lower) >= MinLightGap then
      var saved := SaveField(h, UpperThresholdOffset);
      saved.(cfg := saved.cfg.(upperThreshold := v))
    else h
  }

  /** `setLightLowerThreshold(v)`: accepted when v is below the upper
      threshold and the gap, taken as an `int8_t`, is at least 5, which
      holds exactly for gaps 5..127. As for the upper threshold, the store
      receives the OLD lower threshold. A refused value changes nothing. */
  function SetLowerThreshold(h: Handler, v: Byte): (r: Handler)
    ensures var upper := h.cfg.upperThreshold;
            if v < upper && MinLightGap <= upper - v <= 127 then
              r.cfg == h.cfg.(lowerThreshold := v) &&
              r.rom == h.rom[LowerThresholdOffset := h.cfg.lowerThreshold]
            else r == h
  {
    var upper := h.cfg.upperThreshold;
    if v > 255 || v >= upper then h
    else if ToInt8(upper - v) >= MinLightGap then
      var saved := SaveField(h, LowerThresholdOffset);
      saved.(cfg := saved.cfg.(lowerThreshold := v))
    else h
  }

  /** Both threshold setters keep the hysteresis band: whatever they are
      given, a configuration inside the band stays inside it. */
  lemma ThresholdSettersKeepBand(h: Handler, v: Byte)
    requires ThresholdBand(h.cfg)
    ensures ThresholdBand(SetUpperThreshold(h, v).cfg)
    ensures ThresholdBand(SetLowerThreshold(h, v).cfg)
  {
  }

  /** The threshold setters refuse a band wider than 127: the `int8_t`
      difference wraps negative. */
  lemma WideBandRefused(h: Handler, v: Byte)
    requires h.cfg.lowerThreshold < v < 255 && v - h.cfg.lowerThreshold > 127
    ensures SetUpperThreshold(h, v) == h
  {
  }

  /** After an accepted threshold change the store still holds the previous
      threshold, so a reload brings the old band back. */
  lemma ThresholdStoreLags(h: Handler, v: Byte)
    requires v != h.cfg.upperThreshold
    requires SetUpperThreshold(h, v) != h
    ensures SetUpperThreshold(h, v).rom[UpperThresholdOffset] != SetUpperThreshold(h, v).cfg.upperThreshold
  {
  }

  /** A value the top-position and id setters accept: neither 0 nor 255. */
  predicate InSafeRange(v: Byte) {
    0 < v < 255
  }

  /** `setTopPosition(v)`: stores v iff 1 <= v <= 254 and then persists
      that one byte; otherwise nothing changes. */
  function SetTopPosition(h: Handler, v: Byte): (r: Handler)
    ensures r.cfg.topPosition == v <==> 1 <= v <= 254 || v == h.cfg.topPosition
    ensures 1 <= v <= 254 ==>
              r.cfg == h.cfg.(topPosition := v) && r.rom == h.rom[TopPositionOffset := v]
    ensures !(1 <= v <= 254) ==> r == h
  {
    if InSafeRange(v) then SaveField(h.(cfg := h.cfg.(topPosition := v)), TopPositionOffset)
    else h
  }

  /** `setDoorId(v)`: stores v iff 1 <= v <= 254 and then persists that one
      byte; otherwise nothing changes. An accepted id is never the reserved
      "uninitialised" 255. */
  function SetDoorId(h: Handler, v: Byte): (r: Handler)
    ensures r.cfg.id == v <==> 1 <= v <= 254 || v == h.cfg.id
    ensures 1 <= v <= 254 ==>
              r.cfg == h.cfg.(id := v) && r.rom == h.rom[DoorIdOffset := v] &&
              r.rom[DoorIdOffset] != UnsetId
    ensures !(1 <= v <= 254) ==> r == h
  {
    if InSafeRange(v) then SaveField(h.(cfg := h.cfg.(id := v)), DoorIdOffset)
    else h
  }

  /** `setMotorMoveSpeed(v)`: the move time is never 0 (0 becomes 1);
      nothing is persisted. */
  function SetMotorMoveSpeed(h: Handler, v: Byte): (r: Handler)
    ensures v == 0 ==> r.cfg.moveTime == 1
    ensures v != 0 ==> r.cfg.moveTime == v
    ensures r.cfg == h.cfg.(moveTime := r.cfg.moveTime) && r.rom == h.rom
  {
    h.(cfg := h.cfg.(moveTime := if v == 0 then 1 else v))
  }

  /** `setDoorOpenTime(v)`: its clamps to 0..255 can never fire on a byte,
      so the offset code becomes v; nothing is persisted. */
  function SetDoorOpenTime(h: Handler, v: Byte): (r: Handler)
    ensures r.cfg == h.cfg.(minuteOffset := v) && r.rom == h.rom
  {
    var clamped := if v > 255 then 255 else if v < 0 then 0 else v;
    h.(cfg := h.cfg.(minuteOffset := clamped))
  }

  /** `setLDREnabled(flag)`: light triggering is set to flag, and its byte
      persisted, only when it differs. */
  function SetLdrEnabled(h: Handler, flag: bool): (r: Handler)
    ensures r.cfg.ldrEnabled == flag
    ensures h.cfg.ldrEnabled == flag ==> r == h
    ensures h.cfg.ldrEnabled != flag ==>
              r.cfg == h.cfg.(ldrEnabled := flag) &&
              r.rom == h.rom[LdrOffset := BoolByte(flag)]
  {
    if h.cfg.ldrEnabled != flag then SaveField(h.(cfg := h.cfg.(ldrEnabled := flag)), LdrOffset)
    else h
  }

  /** `setTimeEnabled(flag)`: guarded by the LIGHT flag, not the time flag.
      Time triggering is set to flag, and its byte persisted, exactly when
      flag differs from `ldrEnabled`; otherwise nothing changes, even when
      the time flag itself differs from flag. */
  function SetTimeEnabled(h: Handler, flag: bool): (r: Handler)
    ensures h.cfg.ldrEnabled != flag ==>
              r.cfg == h.cfg.(timeEnabled := flag) &&
              r.rom == h.rom[TimeOffset := BoolByte(flag)]
    ensures h.cfg.ldrEnabled == flag ==> r == h
  {
    if h.cfg.ldrEnabled != flag then SaveField(h.(cfg := h.cfg.(timeEnabled := flag)), TimeOffset)
    else h
  }

  /** With light triggering on, time triggering cannot be switched on: the
      guard compares against the light flag. */
  lemma TimeCannotJoinLight(h: Handler)
    requires h.cfg.ldrEnabled && !h.cfg.timeEnabled
    ensures !SetTimeEnabled(h, true).cfg.timeEnabled
  {
  }

  /** `setAutomated(flag)`: assigned directly, no validation, nothing
      persisted; `isAutomated` reads it back. */
  function SetAutomated(h: Handler, flag: bool): (r: Handler)
    ensures r.cfg.automated == flag
    ensures r.cfg == h.cfg.(automated := flag) && r.rom == h.rom
  {
    h.(cfg := h.cfg.(automated := flag))
  }

  /** Setters that touch memory only: a change made by them is lost on the
      next boot unless something else saves all settings first. */
  lemma UnpersistedSetters(h: Handler, v: Byte, flag: bool)
    requires h.rom[DoorIdOffset] != UnsetId
    ensures LoadSettings(SetMotorMoveSpeed(h, v), 1) == LoadSettings(h, 1)
    ensures LoadSettings(SetDoorOpenTime(h, v), 1) == LoadSettings(h, 1)
    ensures LoadSettings(SetAutomated(h, flag), 1) == LoadSettings(h, 1)
  {
  }
}
