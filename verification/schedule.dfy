/** The sun schedule (`calculateTimeToMove`) and the day/night predicate
    with its bounded clock retry (`checkTime`). Sunrise and sunset minutes
    come from an astronomical library outside this model and arrive as
    parameters; the clock arrives as a `Clock` reading. */
module Schedule {
  import opened Bytes
  import opened Settings

  /** The signed bias, in minutes, that an offset code applies to sunrise:
      codes above 125 delay opening by (code - 100) * 2, codes below 100
      advance it by code * 2, codes 100..125 leave it unchanged. */
  function Bias(code: Byte): (b: int)
    ensures code > 125 ==> b == (code - 100) * 2
    ensures code < 100 ==> b == -(code * 2)
    ensures 100 <= code <= 125 ==> b == 0
  {
    if code > 125 then (code - 100) * 2
    else if code < 100 then -(code * 2)
    else 0
  }

  /** The bias range is asymmetric and clipped: at most 198 minutes
      earlier, at most 310 minutes later, and no code delays opening by
      less than 52 minutes. */
  lemma BiasRange(code: Byte)
    ensures -198 <= Bias(code) <= 310
    ensures Bias(code) > 0 ==> Bias(code) >= 52
    ensures Bias(code) < 0 <==> 0 < code < 100
  {
  }

  /** `calculateTimeToMove`: the opening minute is sunrise shifted by the
      code's bias and the closing minute is sunset, both stored in
      `uint16_t` fields (wrapping modulo 65536). Nothing else changes. */
  function CalculateTimeToMove(c: Config, sunrise: int, sunset: int): (r: Config)
    ensures r == c.(minuteToOpen := r.minuteToOpen, minuteToClose := r.minuteToClose)
    ensures (r.minuteToOpen - (sunrise + Bias(c.minuteOffset))) % 0x1_0000 == 0
    ensures (r.minuteToClose - sunset) % 0x1_0000 == 0
    ensures 0 <= sunrise + Bias(c.minuteOffset) < 0x1_0000 ==>
              r.minuteToOpen == sunrise + Bias(c.minuteOffset)
    ensures 0 <= sunset < 0x1_0000 ==> r.minuteToClose == sunset
  {
    var code := c.minuteOffset;
    var open :=
      if code > 125 then ToWord16(sunrise + (code - 100) * 2)
      else if code < 100 then ToWord16(sunrise - code * 2)
      else ToWord16(sunrise);
    c.(minuteToOpen := open, minuteToClose := ToWord16(sunset))
  }

  /** The three worked examples of the bias: code 150 opens 100 minutes
      after sunrise, code 40 opens 80 minutes before, code 110 at sunrise. */
  lemma BiasExamples(c: Config, sunrise: int, sunset: int)
    requires 80 <= sunrise <= 1439 && 0 <= sunset <= 1439
    ensures CalculateTimeToMove(c.(minuteOffset := 150), sunrise, sunset).minuteToOpen == sunrise + 100
    ensures CalculateTimeToMove(c.(minuteOffset := 40), sunrise, sunset).minuteToOpen == sunrise - 80
    ensures CalculateTimeToMove(c.(minuteOffset := 110), sunrise, sunset).minuteToOpen == sunrise
    ensures CalculateTimeToMove(c, sunrise, sunset).minuteToClose == sunset
  {
  }

  /** How many times `checkTime` retries reading the hour before giving up. */
  const MaxTimeAttempts: nat := 6

  /** A clock reading: `probes[k]` says whether the k-th attempt to read the
      hour succeeded (attempts past the end fail), and `now` is the
      minute of the day the clock reports once it answers. */
  datatype Clock = Clock(probes: seq<bool>, now: Word16)

  /** Whether attempt `k` to read the hour succeeds. */
  predicate Probe(probes: seq<bool>, k: nat) {
    k < |probes| && probes[k]
  }

  /** The clock answers within the first read and six retries. */
  predicate ClockAnswers(probes: seq<bool>) {
    exists k :: 0 <= k <= MaxTimeAttempts && Probe(probes, k)
  }

  /** The retry loop of `checkTime`: read the hour, and while it is
      unavailable give up after six retries or try again. It succeeds
      exactly when `ClockAnswers`, and then on the first successful read. */
  method ReadHour(probes: seq<bool>) returns (available: bool, attempts: nat)
    ensures attempts <= MaxTimeAttempts
    ensures available <==> ClockAnswers(probes)
    ensures available ==>
              Probe(probes, attempts) &&
              forall k :: 0 <= k < attempts ==> !Probe(probes, k)
    ensures !available ==> attempts == MaxTimeAttempts
  {
    attempts := 0;
    var ok := Probe(probes, 0);
    while !ok
      invariant attempts <= MaxTimeAttempts
      invariant ok == Probe(probes, attempts)
      invariant forall k :: 0 <= k < attempts ==> !Probe(probes, k)
      decreases MaxTimeAttempts - attempts
    {
      if attempts >= MaxTimeAttempts {
        return false, attempts;
      }
      attempts := attempts + 1;
      ok := Probe(probes, attempts);
    }
    available := true;
  }

  /** `checkTime(day)`. When the clock does not answer it reports whether
      light triggering is enabled. Otherwise "day" is the inclusive window
      from the opening minute to the closing minute, and "night" is
      everything outside it. */
  function CheckTime(c: Config, day: bool, clock: Clock): (r: bool)
    ensures !ClockAnswers(clock.probes) ==> r == c.ldrEnabled
    ensures ClockAnswers(clock.probes) && day ==>
              (r <==> c.minuteToOpen <= clock.now <= c.minuteToClose)
    ensures ClockAnswers(clock.probes) && !day ==>
              (r <==> clock.now < c.minuteToOpen || c.minuteToClose < clock.now)
  {
    if !ClockAnswers(clock.probes) then c.ldrEnabled
    else if day then c.minuteToOpen <= clock.now && clock.now <= c.minuteToClose
    else c.minuteToOpen > clock.now || clock.now > c.minuteToClose
  }

  /** With a clock that answers, night is exactly "not day"; without one,
      both read as the light-trigger flag. */
  lemma NightIsNotDay(c: Config, clock: Clock)
    ensures ClockAnswers(clock.probes) ==>
              CheckTime(c, false, clock) == !CheckTime(c, true, clock)
    ensures !ClockAnswers(clock.probes) ==>
              CheckTime(c, false, clock) == CheckTime(c, true, clock) == c.ldrEnabled
  {
  }

  /** The window of 07:00 to 18:00: both boundaries are day, 08:20 is day
      and 20:00 is night. */
  lemma DayWindowExample(c: Config, probes: seq<bool>)
    requires c.minuteToOpen == 420 && c.minuteToClose == 1080
    requires |probes| > 0 && probes[0]
    ensures CheckTime(c, true, Clock(probes, 500))
    ensures CheckTime(c, true, Clock(probes, 420)) && CheckTime(c, true, Clock(probes, 1080))
    ensures CheckTime(c, false, Clock(probes, 1200))
  {
    assert Probe(probes, 0);
  }
}
