/** Position tracking (lib/DoorHandler/DoorHandler.cpp): the two tracking
    strategies, the derived door state, `moveDoor` reduced to its end state,
    the forced open/closed commands and the strategy switch. */
module Position {
  import opened Settings
  import opened Persistence

  /** `isClosed`: the sensor position is 0 in saved-position mode, the
      closed flag otherwise. */
  function IsClosed(c: Config): (r: bool)
    ensures c.positionSaved ==> (r <==> c.position == 0)
    ensures !c.positionSaved ==> r == c.closed
  {
    if c.positionSaved then c.position == 0 else c.closed
  }

  /** `isOpen`: the sensor position is at the top in saved-position mode,
      the closed flag is clear otherwise. In flag mode exactly one of
      open and closed holds. */
  function IsOpen(c: Config): (r: bool)
    ensures !c.positionSaved ==> (r <==> !IsClosed(c))
    ensures c.positionSaved ==> (r <==> c.position == c.topPosition)
  {
    if c.positionSaved then c.position == c.topPosition else !c.closed
  }

  /** `isMoving`: only saved-position mode can tell that the door is
      between its extremes. */
  function IsMoving(c: Config): (r: bool)
    ensures r ==> c.positionSaved
    ensures r <==> c.positionSaved && c.position != 0 && c.position != c.topPosition
    ensures r ==> !IsClosed(c) && !IsOpen(c)
  {
    if c.positionSaved then !IsClosed(c) && !IsOpen(c) else false
  }

  const Closed: int := 0
  const Open: int := 1
  const Moving: int := 2
  const Unknown: int := 3

  /** `getDoorState`: 0 closed, 1 open, 2 moving, 3 unknown. Closed wins
      over open, and the unknown code is never produced. */
  function DoorState(c: Config): (r: int)
    ensures r == Closed || r == Open || r == Moving
    ensures !c.positionSaved ==> r != Moving && (r == Closed <==> c.closed)
    ensures c.positionSaved ==>
              (r == Closed <==> c.position == 0) &&
              (r == Open <==> c.position != 0 && c.position == c.topPosition) &&
              (r == Moving <==> c.position != 0 && c.position != c.topPosition)
  {
    if IsClosed(c) then Closed
    else if IsOpen(c) then Open
    else if IsMoving(c) then Moving
    else Unknown
  }

  /** Whether the door already sits at the extreme `moveDoor` was asked
      for: open when `open`, closed otherwise. */
  predicate AtTarget(c: Config, open: bool) {
    if open then IsOpen(c) else IsClosed(c)
  }

  /** End state of `moveDoor(open)`. A door already at the requested
      extreme is left alone and the call fails. Otherwise the door reaches
      that extreme (saved-position mode sets the position to the top or to
      0, flag mode flips the closed flag whether or not travel completed),
      nothing else in memory changes, and all eleven settings are saved. */
  function MoveDoor(h: Handler, open: bool): (r: Move)
    ensures AtTarget(h.cfg, open) ==> !r.moved && r.after == h
    ensures !AtTarget(h.cfg, open) ==>
              r.moved &&
              AtTarget(r.after.cfg, open) &&
              r.after.rom == Image(r.after.cfg)
    ensures !AtTarget(h.cfg, open) && h.cfg.positionSaved ==>
              r.after.cfg == h.cfg.(position := if open then h.cfg.topPosition else 0)
    ensures !AtTarget(h.cfg, open) && !h.cfg.positionSaved ==>
              r.after.cfg == h.cfg.(closed := !h.cfg.closed)
  {
    if AtTarget(h.cfg, open) then
      Move(h, false)
    else
      var c :=
        if h.cfg.positionSaved then
          h.cfg.(position := if open then h.cfg.topPosition else 0)
        else
          h.cfg.(closed := !h.cfg.closed);
      Move(SaveSettings(h.(cfg := c)), true)
  }

  /** Asking twice for the same direction: the second request never moves
      the door and changes nothing. */
  lemma MoveDoorIdempotent(h: Handler, open: bool)
    ensures var once := MoveDoor(h, open).after;
            MoveDoor(once, open) == Move(once, false)
  {
  }

  /** `forcedOpen`: the door is recorded as open in both strategies and
      every setting is saved. */
  function ForcedOpen(h: Handler): (r: Handler)
    ensures IsOpen(r.cfg)
    ensures r.cfg == h.cfg.(closed := false, position := h.cfg.topPosition)
    ensures r.rom == Image(r.cfg)
  {
    SaveSettings(h.(cfg := h.cfg.(closed := false, position := h.cfg.topPosition)))
  }

  /** `forcedClosed`: the door is recorded as closed in both strategies and
      every setting is saved. */
  function ForcedClosed(h: Handler): (r: Handler)
    ensures IsClosed(r.cfg) && DoorState(r.cfg) == Closed
    ensures r.cfg == h.cfg.(closed := true, position := 0)
    ensures r.rom == Image(r.cfg)
  {
    SaveSettings(h.(cfg := h.cfg.(closed := true, position := 0)))
  }

  /** `setMotorSaved(flag)`: switching strategy carries the door's reading
      across. Leaving saved-position mode records the door as closed exactly
      when the position is 0; entering it places the position at 0 or at
      the top according to the flag. Nothing is persisted. */
  function SetMotorSaved(h: Handler, flag: bool): (r: Handler)
    ensures r.cfg.positionSaved == flag
    ensures r.rom == h.rom
    ensures flag == h.cfg.positionSaved ==> r == h
    ensures !flag && h.cfg.positionSaved ==>
              r.cfg == h.cfg.(positionSaved := false, closed := h.cfg.position == 0)
    ensures flag && !h.cfg.positionSaved ==>
              r.cfg == h.cfg.(positionSaved := true,
                              position := if h.cfg.closed then 0 else h.cfg.topPosition)
  {
    if flag == h.cfg.positionSaved then h
    else
      var c :=
        if !flag then h.cfg.(closed := IsClosed(h.cfg))
        else h.cfg.(position := if h.cfg.closed then 0 else h.cfg.topPosition);
      h.(cfg := c.(positionSaved := flag))
  }

  /** Leaving saved-position mode keeps the closed reading; with a
      non-zero top position, entering it keeps both readings. */
  lemma SetMotorSavedKeepsReading(h: Handler, flag: bool)
    ensures !flag ==> IsClosed(SetMotorSaved(h, flag).cfg) == IsClosed(h.cfg)
    ensures flag && h.cfg.topPosition != 0 ==>
              IsClosed(SetMotorSaved(h, flag).cfg) == IsClosed(h.cfg) &&
              IsOpen(SetMotorSaved(h, flag).cfg) == IsOpen(h.cfg)
  {
  }

  /** Only a door between its extremes in saved-position mode can be lost
      by leaving that mode: it is then recorded as open. */
  lemma LeavingSavedModeReadsMovingAsOpen(h: Handler)
    requires DoorState(h.cfg) == Moving
    ensures DoorState(SetMotorSaved(h, false).cfg) == Open
  {
  }
}
