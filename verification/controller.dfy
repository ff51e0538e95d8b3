/** The scheduling and command layer of src/main.cpp: the global door
    handler together with the loop counter and the automation-delay flag,
    the command dispatcher, the delay-gated door poll, the manual move
    wrapper and one iteration of the main loop. */
module Controller {
  import opened Bytes
  import opened Settings
  import opened Persistence
  import opened Position
  import opened Setters
  import opened Schedule
  import opened Automation
  import opened Commands

  /** Seconds automation stays suppressed after a manual move. */
  const AutomationDelayTicks: nat := 900
  /** The door and the network are polled every fifth tick. */
  const PollingPeriod: nat := 5
  /** The counter restarts at 1 when it reaches this value. */
  const CounterLimit: nat := 65535

  /** The program's global state: the door handler, the tick counter and
      whether automation is currently held back. */
  datatype System = System(door: Handler, counter: Word16, automationDelay: bool)

  /** The result of an action that reports success. */
  datatype Outcome = Outcome(after: System, ok: bool)

  /** The counter range the loop maintains. */
  predicate CounterInRange(c: int) {
    1 <= c < CounterLimit
  }

  /** The state `setup` leaves behind: settings loaded (or bootstrapped),
      then the day's opening and closing minutes computed by the NTP
      configuration step, the counter at 1 and automation held back. */
  function Start(rom: Store, freshId: Byte, sunrise: int, sunset: int): (s: System)
    requires FreshId(freshId)
    ensures CounterInRange(s.counter) && s.automationDelay
    ensures s.door.cfg == CalculateTimeToMove(LoadSettings(Initial(rom), freshId).cfg, sunrise, sunset)
    ensures s.door.cfg.id == rom[DoorIdOffset]
    ensures rom[DoorIdOffset] != UnsetId ==> s.door.rom == rom
    ensures s.door.cfg.closed
  {
    var h := LoadSettings(Initial(rom), freshId);
    System(h.(cfg := CalculateTimeToMove(h.cfg, sunrise, sunset)), 1, true)
  }

  /** A first boot keeps the unset id 255 in memory, so the first bulk save
      (any door move) writes 255 back to the store: the next boot flashes
      the defaults again and memory still holds 255. */
  lemma FirstBootMoveForgetsId(rom: Store, freshId: Byte, nextId: Byte, sunrise: int, sunset: int)
    requires FreshId(freshId) && FreshId(nextId)
    requires rom[DoorIdOffset] == UnsetId
    ensures var s := Start(rom, freshId, sunrise, sunset);
            var m := MoveDoor(s.door, true);
            m.moved && m.after.rom[DoorIdOffset] == UnsetId &&
            Start(m.after.rom, nextId, sunrise, sunset).door.cfg.id == UnsetId
  {
  }

  /** Because of that, a threshold set after a first boot is lost at the
      next boot once the door has moved: the store is flashed again. */
  lemma FirstBootSettingLost(rom: Store, freshId: Byte, nextId: Byte, sunrise: int, sunset: int)
    requires FreshId(freshId) && FreshId(nextId)
    requires rom[DoorIdOffset] == UnsetId
    ensures var s := Start(rom, freshId, sunrise, sunset);
            var h := SetLowerThreshold(s.door, 20);
            var m := MoveDoor(h, true);
            h.cfg.lowerThreshold == 20 && m.moved &&
            Start(m.after.rom, nextId, sunrise, sunset).door.cfg.lowerThreshold == DefaultLowerThreshold
  {
  }

  /** The `moveDoor` wrapper of the main program: a move that happened
      restarts the counter and holds automation back; a refused move
      changes nothing. */
  function ManualMove(s: System, open: bool): (r: Outcome)
    ensures r.ok == MoveDoor(s.door, open).moved
    ensures r.after.door == MoveDoor(s.door, open).after
    ensures r.ok ==> r.after.counter == 1 && r.after.automationDelay
    ensures !r.ok ==> r.after == s
  {
    var m := MoveDoor(s.door, open);
    if m.moved then Outcome(System(m.after, 1, true), true)
    else Outcome(s, false)
  }

  /** Whether the automation delay holds the poll back on this tick. */
  predicate Held(s: System) {
    s.counter % AutomationDelayTicks != 0 && s.automationDelay
  }

  /** `pollDoor`. While automation is held back and the counter is not a
      multiple of 900 the door is not polled. Otherwise the hold is
      released and the door polled; an automatic move re-arms the hold
      only when light triggering is on and time triggering off. */
  function PollDoor(s: System, rd: Readings): (r: Outcome)
    ensures Held(s) ==> r == Outcome(s, false)
    ensures !Held(s) ==>
              var p := Poll(s.door, rd);
              var rearm := p.moved && p.after.cfg.ldrEnabled && !p.after.cfg.timeEnabled;
              r.ok == p.moved && r.after.door == p.after &&
              (rearm ==> r.after.counter == 1 && r.after.automationDelay) &&
              (!rearm ==> r.after.counter == s.counter && !r.after.automationDelay)
  {
    if s.counter % AutomationDelayTicks != 0 && s.automationDelay then
      Outcome(s, false)
    else
      var s1 := if s.automationDelay then s.(automationDelay := false) else s;
      var p := Poll(s1.door, rd);
      var s2 := s1.(door := p.after);
      if p.moved && s2.door.cfg.ldrEnabled && !s2.door.cfg.timeEnabled then
        Outcome(s2.(counter := 1, automationDelay := true), true)
      else
        Outcome(s2, p.moved)
  }

  /** Every code the dispatcher recognises. */
  const KnownCodes: set<char> :=
    {'0', '1', '2', '4', '5', '6', '7', '8', 'a', 'm', 'n', 'f', 'h', 'o', 'c',
     'p', 'd', 'l', 't', 'r'}

  /** The codes that act only when an argument came with them. */
  const ArgumentCodes: set<char> :=
    {'0', '1', '2', '4', '5', '6', '7', '8', 'm', 'n', 'l', 't'}

  /** The door handler after a code that takes an argument. */
  function ApplyArgument(s: System, code: char, arg: Byte): (r: System)
    requires code in ArgumentCodes
    ensures code != '2' ==> r.counter == s.counter && r.automationDelay == s.automationDelay
  {
    var d := s.door;
    match code
    case '0' => s.(door := SetAutomated(d, arg != 0))
    case '1' => s.(door := SetAutomated(d, arg != 0))
    case '2' => ManualMove(s, arg != 0).after
    case '4' => s.(door := SetTopPosition(d, arg))
    case '5' => s.(door := SetLowerThreshold(d, arg))
    case '6' => s.(door := SetUpperThreshold(d, arg))
    case '7' => s.(door := SetDoorId(d, arg))
    case '8' => s.(door := SetDoorOpenTime(d, arg))
    case 'm' => s.(door := SetMotorSaved(d, arg != 0))
    case 'n' => s.(door := SetMotorMoveSpeed(d, arg))
    case 'l' => s.(door := SetLdrEnabled(d, arg != 0))
    case 't' => s.(door := SetTimeEnabled(d, arg != 0))
  }

  /** `interpretPacketCommand`. Listed codes are accepted and unlisted
      ones (including '`') rejected with no effect. A code that needs an
      argument but came without one does nothing. 'a' releases the hold,
      'o' and 'c' force the door state and hold automation back, 'f'
      resets to factory defaults (then falls into the help branch, which
      changes nothing), and 'h', 'p', 'd' and 'r' change nothing. */
  function Dispatch(s: System, p: Parameters, freshId: Byte): (r: Outcome)
    requires FreshId(freshId)
    ensures r.ok <==> p.command in KnownCodes
    ensures !r.ok ==> r.after == s
    ensures p.command in ArgumentCodes && !p.hasParameter ==> r.after == s
    ensures p.command == 'a' ==> r.after == s.(automationDelay := false)
    ensures p.command == 'o' ==>
              r.after.counter == 1 && r.after.automationDelay &&
              r.after.door == ForcedOpen(s.door) && IsOpen(r.after.door.cfg)
    ensures p.command == 'c' ==>
              r.after.counter == 1 && r.after.automationDelay &&
              r.after.door == ForcedClosed(s.door) && IsClosed(r.after.door.cfg)
    ensures p.command == 'f' ==> r.after == s.(door := FactoryReset(s.door, freshId))
    ensures p.command in {'h', 'p', 'd', 'r'} ==> r.after == s
    ensures p.command in ArgumentCodes && p.hasParameter ==>
              r.after == ApplyArgument(s, p.command, p.argument)
  {
    var code := p.command;
    if code in ArgumentCodes then
      Outcome(if p.hasParameter then ApplyArgument(s, code, p.argument) else s, true)
    else if code == 'a' then Outcome(s.(automationDelay := false), true)
    else if code == 'f' then Outcome(s.(door := FactoryReset(s.door, freshId)), true)
    else if code == 'o' then Outcome(System(ForcedOpen(s.door), 1, true), true)
    else if code == 'c' then Outcome(System(ForcedClosed(s.door), 1, true), true)
    else if code in {'h', 'p', 'd', 'r'} then Outcome(s, true)
    else Outcome(s, false)
  }

  /** Only the move, force and delay commands touch the counter or the
      hold; every other command leaves both alone. */
  lemma DispatchTimingFrame(s: System, p: Parameters, freshId: Byte)
    requires FreshId(freshId)
    requires p.command !in {'2', 'o', 'c', 'a'}
    ensures Dispatch(s, p, freshId).after.counter == s.counter
    ensures Dispatch(s, p, freshId).after.automationDelay == s.automationDelay
  {
  }

  /** Codes '0' and '1' both set the automation flag. */
  lemma LdrCodeSetsAutomation(s: System, arg: Byte, freshId: Byte)
    requires FreshId(freshId)
    ensures Dispatch(s, Parameters('1', true, 1, arg), freshId) ==
            Dispatch(s, Parameters('0', true, 1, arg), freshId)
    ensures Dispatch(s, Parameters('1', true, 1, arg), freshId).after.door.cfg.automated == (arg != 0)
  {
  }

  /** A received packet is parsed and dispatched; no packet, no change. */
  function Receive(s: System, packet: string, freshId: Byte): (r: System)
    requires FreshId(freshId)
    ensures |packet| == 0 ==> r == s
  {
    if |packet| > 0 then Dispatch(s, Commands.Parse(packet), freshId).after else s
  }

  /** The counter step at the end of `loop`: a 16-bit increment, restarting
      at 1 on reaching 65535. */
  function NextCounter(c: Word16): (n: Word16)
    ensures CounterInRange(c) ==> CounterInRange(n)
    ensures CounterInRange(c) && c + 1 < CounterLimit ==> n == c + 1
    ensures CounterInRange(c) && c + 1 == CounterLimit ==> n == 1
  {
    var n := ToWord16(c + 1);
    if n >= CounterLimit then 1 else n
  }

  /** Everything one iteration of `loop` consumes. */
  datatype Tick = Tick(eepromFailed: bool, connected: bool, readings: Readings,
                       packet: string, freshId: Byte)

  /** One iteration of `loop`. A failed store stops everything: no poll,
      no command, not even the counter moves. When connected, every fifth
      tick polls the door and then, if the counter is still a multiple of
      five, the network. When disconnected the door is polled on every tick
      while light triggering is on. The counter then advances. */
  function LoopStep(s: System, t: Tick): (r: System)
    requires FreshId(t.freshId)
    ensures t.eepromFailed ==> r == s
    ensures CounterInRange(s.counter) ==> CounterInRange(r.counter)
    ensures !t.eepromFailed && t.connected && s.counter % PollingPeriod != 0 ==>
              r == s.(counter := NextCounter(s.counter))
    ensures !t.eepromFailed && !t.connected && !s.door.cfg.ldrEnabled ==>
              r == s.(counter := NextCounter(s.counter))
  {
    if t.eepromFailed then s
    else
      var s1 :=
        if t.connected then
          var polled := if s.counter % PollingPeriod == 0 then PollDoor(s, t.readings).after else s;
          if polled.counter % PollingPeriod == 0 then Receive(polled, t.packet, t.freshId) else polled
        else if s.door.cfg.ldrEnabled then PollDoor(s, t.readings).after
        else s;
      s1.(counter := NextCounter(s1.counter))
  }

  /** A sequence of loop iterations. */
  function Run(s: System, ticks: seq<Tick>): System
    requires forall i :: 0 <= i < |ticks| ==> FreshId(ticks[i].freshId)
    decreases |ticks|
  {
    if |ticks| == 0 then s else Run(LoopStep(s, ticks[0]), ticks[1..])
  }

  /** From start-up on, the counter stays within [1, 65534] however many
      iterations run and whatever they receive. */
  lemma {:induction false} CounterStaysInRange(s: System, ticks: seq<Tick>)
    requires forall i :: 0 <= i < |ticks| ==> FreshId(ticks[i].freshId)
    requires CounterInRange(s.counter)
    ensures CounterInRange(Run(s, ticks).counter)
    decreases |ticks|
  {
    if |ticks| > 0 {
      CounterStaysInRange(LoopStep(s, ticks[0]), ticks[1..]);
    }
  }

  /** A store that failed to start freezes the whole system. */
  lemma {:induction false} FailedStoreFreezes(s: System, ticks: seq<Tick>)
    requires forall i :: 0 <= i < |ticks| ==> FreshId(ticks[i].freshId)
    requires forall i :: 0 <= i < |ticks| ==> ticks[i].eepromFailed
    ensures Run(s, ticks) == s
    decreases |ticks|
  {
    if |ticks| > 0 {
      FailedStoreFreezes(LoopStep(s, ticks[0]), ticks[1..]);
    }
  }
}
