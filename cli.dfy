// The few pieces of the tbancontrol command line that decide what is
// sent: the numeric argument checks, the retry wrapper every command
// runs under, the checks on a response curve typed on the command line,
// the channel mode mask, and the firmware gate of the watchdog option.
// A command is given as the status it returns on its k-th run, so the
// retry loop can be stated without modelling what the command does.

module Cli {
  import opened Bytes
  import opened TBanDefs
  import opened Ascii
  import TBanStatus
  import TBanCmds
  import MiniNG
  import BigNG
  import Wire

  /** Outcome of an argument check: a status and, when the status is OK,
    * the value stored through the out-pointer (otherwise 0: nothing is
    * stored). */
  datatype Parsed = Parsed(code: int, value: int)

  /** parseCmdArgument: a missing argument is -1, one that does not start
    * with a digit is -2, otherwise `atoi` of it, which is then the value
    * of its leading digits. */
  function ParseCmdArgument(arg: Option<string>): (p: Parsed)
    ensures arg.None? ==> p.code == -1
    ensures arg.Some? ==> (p.code == OK <==> |arg.value| > 0 && IsDigit(arg.value[0]))
    ensures arg.Some? && p.code != OK ==> p.code == -2
    ensures p.code == OK ==> arg.Some? && p.value == Atoi(arg.value)
    ensures p.code == OK ==> p.value == DigitsValue(LeadingDigits(arg.value))
    ensures p.code != OK ==> p.value == 0
  {
    if arg.None? then Parsed(-1, 0)
    else if |arg.value| == 0 || !IsDigit(arg.value[0]) then Parsed(-2, 0)
    else Parsed(OK, Atoi(arg.value))
  }

  /** What `%d` prints is read back as the same number, whatever text
    * follows it as long as that text does not start with a digit. */
  lemma ParseCmdArgumentDecimal(n: nat, rest: string)
    requires |rest| == 0 || !IsDigit(rest[0])
    ensures ParseCmdArgument(Some(Decimal(n) + rest)) == Parsed(OK, n)
  {
    var d := Decimal(n);
    assert (d + rest)[0] == d[0];
    AtoiDecimal(n, rest);
  }

  /** A leading sign or blank is refused, although `atoi` would accept
    * it. */
  lemma ParseCmdArgumentNoSign(rest: string)
    ensures ParseCmdArgument(Some("-" + rest)).code == -2
    ensures ParseCmdArgument(Some("+" + rest)).code == -2
    ensures ParseCmdArgument(Some(" " + rest)).code == -2
  {
  }

  /** parseCmdArgumentUC: the checks of parseCmdArgument, then -5 below
    * zero and -6 above 255; otherwise the value as a byte. */
  function ParseCmdArgumentUC(arg: Option<string>): (p: Parsed)
    ensures ParseCmdArgument(arg).code != OK ==> p == ParseCmdArgument(arg)
    ensures ParseCmdArgument(arg).code == OK ==>
      (p.code == OK <==> 0 <= ParseCmdArgument(arg).value <= 255)
    ensures ParseCmdArgument(arg).code == OK && ParseCmdArgument(arg).value > 255 ==> p.code == -6 && p.value == 0
    ensures p.code == OK ==> 0 <= p.value <= 255 && p.value == ParseCmdArgument(arg).value
  {
    var q := ParseCmdArgument(arg);
    if q.code != OK then q
    else if q.value < 0 then Parsed(-5, 0)
    else if q.value > 255 then Parsed(-6, 0)
    else q
  }

  /** Without overflow a value that starts with a digit is never
    * negative, so the -5 case cannot arise. */
  lemma ParseCmdArgumentUCNotNegative(arg: Option<string>)
    ensures ParseCmdArgumentUC(arg).code != -5
  {
  }

  /** A printed byte value is accepted as that byte; a printed larger
    * number is refused with -6. */
  lemma ParseCmdArgumentUCDecimal(n: nat, rest: string)
    requires |rest| == 0 || !IsDigit(rest[0])
    ensures n <= 255 ==> ParseCmdArgumentUC(Some(Decimal(n) + rest)) == Parsed(OK, n)
    ensures n > 255 ==> ParseCmdArgumentUC(Some(Decimal(n) + rest)) == Parsed(-6, 0)
  {
    ParseCmdArgumentDecimal(n, rest);
  }

  /** The number of runs the retry loop allows: the first one and
    * `nrRetries` more (none when the option is negative). */
  function MaxRuns(nrRetries: int): (n: nat)
    ensures n >= 1 && n >= nrRetries + 1
  {
    if nrRetries > 0 then nrRetries + 1 else 1
  }

  /** CHECK_RESULT: the command is run again while it fails and retries
    * are left.  Runs 0 .. runs-1 happen; every one before the last
    * failed; the result is the status of the last run, and a failure is
    * given back only after every allowed run has failed. */
  method Retry(command: nat -> int, nrRetries: int) returns (result: int, runs: nat)
    ensures 1 <= runs <= MaxRuns(nrRetries)
    ensures result == command(runs - 1)
    ensures forall k :: 0 <= k < runs - 1 ==> command(k) != OK
    ensures result != OK ==> runs == MaxRuns(nrRetries)
  {
    var retryCounter := 0;
    result := command(0);
    runs := 1;
    while result != OK && retryCounter < nrRetries
      invariant runs == retryCounter + 1 <= MaxRuns(nrRetries)
      invariant result == command(runs - 1)
      invariant forall k :: 0 <= k < runs - 1 ==> command(k) != OK
      decreases nrRetries - retryCounter
    {
      result := command(runs);
      retryCounter := retryCounter + 1;
      runs := runs + 1;
    }
  }

  /** PRETEND_RUN: in pretend mode the command is not run at all and the
    * result is OK; otherwise it runs under the retry loop. */
  method PretendRun(pretend: bool, command: nat -> int, nrRetries: int) returns (result: int, runs: nat)
    ensures pretend ==> result == OK && runs == 0
    ensures !pretend ==> 1 <= runs <= MaxRuns(nrRetries) && result == command(runs - 1)
    ensures !pretend ==> forall k :: 0 <= k < runs - 1 ==> command(k) != OK
    ensures !pretend && result != OK ==> runs == MaxRuns(nrRetries)
  {
    if pretend {
      result, runs := OK, 0;
    } else {
      result, runs := Retry(command, nrRetries);
    }
  }

  /** `result=-1` of the curve commands when the typed curve does not
    * start at temperature 0 or does not end at 100 percent. */
  const BAD_CURVE: int := -1

  /** setchcurve: seven temperature and pwm pairs; unless the first
    * temperature is 0 and the last pwm 100 nothing is sent and the
    * result is -1; otherwise the library's curve upload as it is
    * written, whose guard lets channel 4 through: its first frame then
    * sets the maximum temperature of channel 0 and the absolute scaling
    * of digital sensor 2. */
  function CurveCommand(isOpen: bool, ch: int, temp: seq<Byte>, pwm: seq<Byte>): (c: Cmd)
    requires |temp| == 7 && |pwm| == 7
    ensures c.Frames? <==> temp[0] == 0 && pwm[6] == 100 && isOpen && ch <= NUMBER_CHANNELS
    ensures temp[0] != 0 || pwm[6] != 100 ==> c == Reject(BAD_CURVE)
    ensures temp[0] == 0 && pwm[6] == 100 && ch > NUMBER_CHANNELS ==> c == Reject(INDEX_OUT_OF_BOUNDS)
    ensures temp[0] == 0 && pwm[6] == 100 && ch <= NUMBER_CHANNELS && !isOpen ==> c == Reject(NOT_OPENED)
    ensures c.Frames? && 0 <= ch < NUMBER_CHANNELS ==> (|c.frames| == 7 &&
      Wire.Decode(c.frames[0]) == Some([Wire.CurveTemp(ch, 0, 0), Wire.CurvePwm(ch, 0, pwm[0])]) &&
      forall i :: 0 <= i < 6 ==>
        Wire.Decode(c.frames[i]) == Some([Wire.CurveTemp(ch, i, Trunc8(2 * temp[i] as int)), Wire.CurvePwm(ch, i, pwm[i])]))
    ensures c.Frames? && ch == NUMBER_CHANNELS ==> (|c.frames| == 7 &&
      Wire.Decode(c.frames[0]) == Some([Wire.MaxTemp(0, 0), Wire.DsAbsScale(2, pwm[0])]))
  {
    if temp[0] != 0 || pwm[6] != 100 then Reject(BAD_CURVE)
    else
      TBanCmds.SetChCurveAsWrittenDecodes(isOpen, ch, temp, pwm);
      TBanCmds.SetChCurveAsWritten(isOpen, ch, temp, pwm)
  }

  /** The seventh pwm value is checked but never sent: the upload carries
    * only the first six pwm points and the seventh temperature. */
  lemma CurveLastPwmUnused(isOpen: bool, ch: int, temp: seq<Byte>, pwm: seq<Byte>, v: Byte)
    requires |temp| == 7 && |pwm| == 7 && temp[0] == 0
    ensures CurveCommand(isOpen, ch, temp, pwm[6 := 100]) == TBanCmds.SetChCurveAsWritten(isOpen, ch, temp, pwm[6 := v])
  {
    assert pwm[6 := 100][..6] == pwm[6 := v][..6];
  }

  /** msetchcurve: five pairs, the last pwm must be 100.  The channel is
    * parsed as an int into a one-byte variable, which keeps its low
    * byte.  The library's upload as written lets channel 2 through, and
    * then no frame it sends names a miniNG function. */
  function MiniCurveCommand(isOpen: bool, chArg: int, temp: seq<Byte>, pwm: seq<Byte>): (c: Cmd)
    requires |temp| == 5 && |pwm| == 5
    ensures c.Frames? <==> temp[0] == 0 && pwm[4] == 100 && isOpen && Trunc8(chArg) <= MINI_NG_NUMBER_CHANNELS
    ensures temp[0] != 0 || pwm[4] != 100 ==> c == Reject(BAD_CURVE)
    ensures temp[0] == 0 && pwm[4] == 100 && Trunc8(chArg) > MINI_NG_NUMBER_CHANNELS ==> c == Reject(INDEX_OUT_OF_BOUNDS)
    ensures temp[0] == 0 && pwm[4] == 100 && Trunc8(chArg) <= MINI_NG_NUMBER_CHANNELS && !isOpen ==> c == Reject(NOT_OPENED)
    ensures c.Frames? && Trunc8(chArg) < MINI_NG_NUMBER_CHANNELS ==> (|c.frames| == 5 &&
      forall i :: 0 <= i < 5 ==> Wire.Decode(c.frames[i]) == Some([Wire.MiniCurve(Trunc8(chArg), i, Trunc8(2 * temp[i] as int), pwm[i])]))
    ensures c.Frames? && Trunc8(chArg) == MINI_NG_NUMBER_CHANNELS ==> (|c.frames| == 5 &&
      forall i :: 0 <= i < 5 ==> Wire.Decode(c.frames[i]) == None)
  {
    if temp[0] != 0 || pwm[4] != 100 then Reject(BAD_CURVE)
    else
      var ch := Trunc8(chArg);
      MiniNG.SetChCurveAsWrittenDecodes(isOpen, ch, temp, pwm);
      MiniNG.SetChCurveAsWritten(isOpen, ch, temp, pwm)
  }

  /** The channel mask of setchmode, settacho and bsetoutmode: channel i
    * weighs 2^i, and the sum is stored in an unsigned char. */
  function ModeMask(ch0: int, ch1: int, ch2: int, ch3: int): (m: Byte)
    ensures (ch0 + 2 * ch1 + 4 * ch2 + 8 * ch3 - m) % 256 == 0
    ensures IsBit(ch0) && IsBit(ch1) && IsBit(ch2) && IsBit(ch3) ==> m == ch0 + 2 * ch1 + 4 * ch2 + 8 * ch3
  {
    Trunc8(ch0 + 2 * ch1 + 4 * ch2 + 8 * ch3)
  }

  predicate IsBit(b: int)
  {
    b == 0 || b == 1
  }

  /** Four on/off channel modes give a mask of at most 15 whose bit i is
    * the mode of channel i, as the bigNG output-mode getter reads it. */
  lemma ModeMaskBits(ch0: int, ch1: int, ch2: int, ch3: int)
    requires IsBit(ch0) && IsBit(ch1) && IsBit(ch2) && IsBit(ch3)
    ensures ModeMask(ch0, ch1, ch2, ch3) <= 15
    ensures BigNG.OutputModeBit(ModeMask(ch0, ch1, ch2, ch3), 0) == ch0
    ensures BigNG.OutputModeBit(ModeMask(ch0, ch1, ch2, ch3), 1) == ch1
    ensures BigNG.OutputModeBit(ModeMask(ch0, ch1, ch2, ch3), 2) == ch2
    ensures BigNG.OutputModeBit(ModeMask(ch0, ch1, ch2, ch3), 3) == ch3
  {
    var m := ModeMask(ch0, ch1, ch2, ch3);
    assert m == ch0 + 2 * ch1 + 4 * ch2 + 8 * ch3;
    assert BigNG.Pow2(1) == 2 && BigNG.Pow2(2) == 4 && BigNG.Pow2(3) == 8;
    DivBy2(m, ch0, ch1 + 2 * ch2 + 4 * ch3);
    DivBy4(m, ch0 + 2 * ch1, ch2 + 2 * ch3);
    DivBy8(m, ch0 + 2 * ch1 + 4 * ch2, ch3);
    BitAt(m, 0, ch1 + 2 * ch2 + 4 * ch3, ch0);
    BitAt(m, 1, ch2 + 2 * ch3, ch1);
    BitAt(m, 2, ch3, ch2);
    BitAt(m, 3, 0, ch3);
  }

  /** Halving a number whose remainder is known. */
  lemma DivBy2(m: int, r: int, q: int)
    requires 0 <= r < 2 && m == r + 2 * q
    ensures m / 2 == q
  {
  }

  /** Quartering a number whose remainder is known. */
  lemma DivBy4(m: int, r: int, q: int)
    requires 0 <= r < 4 && m == r + 4 * q
    ensures m / 4 == q
  {
  }

  /** Dividing by eight a number whose remainder is known. */
  lemma DivBy8(m: int, r: int, q: int)
    requires 0 <= r < 8 && m == r + 8 * q
    ensures m / 8 == q
  {
  }

  /** Bit i of m is b when m divided by 2^i leaves b below an even part. */
  lemma BitAt(m: Byte, i: nat, q: int, b: int)
    requires i < 8 && IsBit(b) && m / BigNG.Pow2(i) == b + 2 * q
    ensures BigNG.OutputModeBit(m, i) == b
  {
  }

  /** Every mask of at most 15 is the mask of its own four bits. */
  lemma ModeMaskRebuild(m: Byte)
    requires m <= 15
    ensures ModeMask(BigNG.OutputModeBit(m, 0), BigNG.OutputModeBit(m, 1),
                     BigNG.OutputModeBit(m, 2), BigNG.OutputModeBit(m, 3)) == m
  {
    BigNG.OutputModeBitsRebuild(m);
  }

  /** Mode values other than 0 and 1 are not refused: they carry into the
    * next channel's bit, or past a byte and out of the mask. */
  lemma ModeMaskCarries()
    ensures ModeMask(2, 0, 0, 0) == ModeMask(0, 1, 0, 0)
    ensures ModeMask(0, 0, 0, 32) == 0
  {
  }

  /** The watchdog option before each command: with firmware older than
    * 2.8 the option is switched off and nothing is kicked; otherwise the
    * watchdog is kicked while the option stays on. */
  function WatchdogGate(watchdogMode: int, buf: seq<Byte>): (g: (int, bool))
    requires |buf| == BUFSIZE
    ensures g.1 <==> watchdogMode == 1 && TBanStatus.FwLevel(buf) >= WATCHDOG_MIN_FW
    ensures watchdogMode == 1 && TBanStatus.FwLevel(buf) < WATCHDOG_MIN_FW ==> g.0 == 0
    ensures watchdogMode != 1 || TBanStatus.FwLevel(buf) >= WATCHDOG_MIN_FW ==> g.0 == watchdogMode
    ensures g.1 ==> TBanCmds.KickWatchdog(buf).Frames?
  {
    if watchdogMode != 1 then (watchdogMode, false)
    else if TBanStatus.CheckFw(buf, WATCHDOG_MIN_FW as Byte) == FW_TOO_OLD then (0, false)
    else (watchdogMode, true)
  }

  /** Once switched off the watchdog is never kicked again, whatever the
    * later status buffers say. */
  lemma WatchdogGateStaysOff(watchdogMode: int, buf: seq<Byte>, later: seq<Byte>)
    requires |buf| == BUFSIZE && |later| == BUFSIZE
    requires WatchdogGate(watchdogMode, buf).0 != 1
    ensures !WatchdogGate(WatchdogGate(watchdogMode, buf).0, later).1
  {
  }
}
