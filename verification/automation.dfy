/** The automation engine: `poll`, the once-per-cycle decision whether to
    move the door, from the light level, the clock and the sun schedule. */
module Automation {
  import opened Bytes
  import opened Settings
  import opened Persistence
  import opened Position
  import opened Schedule

  /** The readings one poll consumes: the averaged light level scaled to a
      byte, the clock, and the day's sunrise and sunset minutes. */
  datatype Readings = Readings(light: Byte, clock: Clock, sunrise: int, sunset: int)

  /** Automation runs only when it is enabled and at least one trigger
      source (light or time) is enabled. */
  predicate Active(c: Config) {
    c.automated && (c.ldrEnabled || c.timeEnabled)
  }

  /** Condition for closing an open door: dark enough (or light triggering
      off) and night (or time triggering off). */
  predicate WantsClose(c: Config, rd: Readings) {
    (!c.ldrEnabled || rd.light <= c.lowerThreshold) &&
    (!c.timeEnabled || CheckTime(c, false, rd.clock))
  }

  /** Condition for opening a closed door: bright enough (or light
      triggering off) and day (or time triggering off). */
  predicate WantsOpen(c: Config, rd: Readings) {
    (!c.ldrEnabled || rd.light >= c.upperThreshold) &&
    (!c.timeEnabled || CheckTime(c, true, rd.clock))
  }

  /** `poll`. A door stuck between its extremes is closed and the poll
      reports a move. Otherwise the schedule is recomputed; with automation
      inactive nothing moves; an open door closes iff `WantsClose`, a closed
      door opens iff `WantsOpen`. The checks use the recomputed schedule. */
  function Poll(h: Handler, rd: Readings): (r: Move)
    ensures DoorState(h.cfg) == Moving ==>
              r.moved && r.after == MoveDoor(h, false).after &&
              IsClosed(r.after.cfg) && r.after.rom == Image(r.after.cfg)
    ensures DoorState(h.cfg) != Moving ==>
              var c := CalculateTimeToMove(h.cfg, rd.sunrise, rd.sunset);
              && (!Active(c) ==> r == Move(Handler(c, h.rom), false))
              && (Active(c) && IsOpen(c) && !IsClosed(c) ==>
                    (r.moved <==> WantsClose(c, rd)) &&
                    r.after == (if WantsClose(c, rd) then MoveDoor(Handler(c, h.rom), false).after
                                else Handler(c, h.rom)))
              && (Active(c) && IsClosed(c) && !IsOpen(c) ==>
                    (r.moved <==> WantsOpen(c, rd)) &&
                    r.after == (if WantsOpen(c, rd) then MoveDoor(Handler(c, h.rom), true).after
                                else Handler(c, h.rom)))
              && (IsOpen(c) && IsClosed(c) ==> r == Move(Handler(c, h.rom), false))
  {
    if DoorState(h.cfg) == Moving then
      Move(MoveDoor(h, false).after, true)
    else
      var c := CalculateTimeToMove(h.cfg, rd.sunrise, rd.sunset);
      var h1 := Handler(c, h.rom);
      if !c.automated || (!c.ldrEnabled && !c.timeEnabled) then
        Move(h1, false)
      else if IsOpen(c) then
        var darkOutside := !c.ldrEnabled || rd.light <= c.lowerThreshold;
        var bedtime := !c.timeEnabled || CheckTime(c, false, rd.clock);
        if darkOutside && bedtime then MoveDoor(h1, false) else Move(h1, false)
      else if IsClosed(c) then
        var lightOutside := !c.ldrEnabled || rd.light >= c.upperThreshold;
        var wakeup := !c.timeEnabled || CheckTime(c, true, rd.clock);
        if lightOutside && wakeup then MoveDoor(h1, true) else Move(h1, false)
      else
        Move(h1, false)
  }

  /** A poll that reports a move leaves the door at an extreme, and one
      that does not leaves position, flag and store untouched. */
  lemma PollOutcome(h: Handler, rd: Readings)
    ensures Poll(h, rd).moved ==>
              DoorState(Poll(h, rd).after.cfg) != Moving &&
              Poll(h, rd).after.rom == Image(Poll(h, rd).after.cfg)
    ensures !Poll(h, rd).moved ==>
              Poll(h, rd).after.rom == h.rom &&
              Poll(h, rd).after.cfg.position == h.cfg.position &&
              Poll(h, rd).after.cfg.closed == h.cfg.closed
  {
  }

  /** A poll only ever changes the settings `moveDoor` changes and the
      cached schedule: thresholds, flags, id and codes are kept. */
  lemma PollKeepsSettings(h: Handler, rd: Readings)
    ensures var c := Poll(h, rd).after.cfg;
            c == h.cfg.(position := c.position, closed := c.closed,
                        minuteToOpen := c.minuteToOpen, minuteToClose := c.minuteToClose)
  {
  }

  /** With light triggering off and time triggering on, the light level
      plays no part: the decision depends on the time window alone. */
  lemma LightIgnoredWhenLdrOff(h: Handler, rd: Readings, other: Byte)
    requires !h.cfg.ldrEnabled && h.cfg.timeEnabled
    ensures Poll(h, rd) == Poll(h, rd.(light := other))
  {
  }

  /** Symmetrically, with time triggering off the clock plays no part. */
  lemma ClockIgnoredWhenTimeOff(h: Handler, rd: Readings, other: Clock)
    requires !h.cfg.timeEnabled
    ensures Poll(h, rd) == Poll(h, rd.(clock := other))
  {
  }

  /** In flag mode an automated poll with light triggering only closes an
      open door exactly when the light is at or below the lower threshold. */
  lemma FlagModeLightOnlyClose(h: Handler, rd: Readings)
    requires !h.cfg.positionSaved && !h.cfg.closed
    requires h.cfg.automated && h.cfg.ldrEnabled && !h.cfg.timeEnabled
    ensures Poll(h, rd).moved <==> rd.light <= h.cfg.lowerThreshold
    ensures Poll(h, rd).moved ==> Poll(h, rd).after.cfg.closed
  {
  }
}
