// The command functions of the classic T-Balancer as frame builders:
// each one either refuses (with the status code the library returns,
// checked in the library's order) or yields the frames it hands to the
// serial send routine.  Every builder is related to the device's reading
// of its frames (module Wire): the frames decode into exactly the
// register writes the function is documented to perform.

module TBanCmds {
  import opened Bytes
  import opened TBanDefs
  import opened Wire
  import TBanStatus

  /** The status request: select the primary source, then ask. */
  const QueryFrame: seq<Byte> := [SER_SOURCE1, SER_REQUEST]

  lemma QueryFrameDecodes()
    ensures Decode(QueryFrame) == Some([Source1, Request])
  {
    var f := QueryFrame;
    assert f[1..] == [SER_REQUEST];
    DecodeSingleByte(SER_REQUEST, Request);
    assert DecodeHead(f) == Some((Source1, 1));
    DecodeTwo(f, 1, Source1, Request);
  }

  // ---- Response curves ----

  /** Curve opcode arithmetic: point k of channel nr sits at 16*nr + k. */
  lemma CurveOpcode(nr: int, k: int)
    requires 0 <= nr < 4 && 0 <= k < 12
    ensures (16 * nr + k) / 16 == nr && (16 * nr + k) % 16 == k
  {
  }

  /** The frame for point i of a curve whose channel base opcode is
    * `base`: temperature (sent doubled, in half degrees) and pwm. */
  function CurveFrame(base: int, i: int, x: Byte, y: Byte): (f: seq<Byte>)
    ensures |f| == 4 && f[3] == y
    ensures f[2] == Trunc8(f[0] as int + 6)
    ensures x < 128 ==> f[1] / 2 == x
  {
    [Trunc8(base + i), Trunc8(2 * x), Trunc8(base + 6 + i), y]
  }

  /** The seven frames of a curve upload for channel nr: six points, then
    * the maximum temperature of the last point. */
  function CurveFrames(nr: int, x: seq<Byte>, y: seq<Byte>): (fs: seq<seq<Byte>>)
    requires |x| >= 7 && |y| >= 7
    ensures |fs| == 7
  {
    seq(6, i requires 0 <= i < 6 => CurveFrame(SER_SET_KANAL1 + 16 * nr, i, x[i], y[i]))
      + [[Trunc8(SER_SET_MAX + nr), Trunc8(2 * x[6] as int)]]
  }

  /** tban_setChCurve as written: the channel guard rejects only
    * nr > 4, so channel number 4 is let through. */
  function SetChCurveAsWritten(isOpen: bool, nr: int, x: seq<Byte>, y: seq<Byte>): (c: Cmd)
    requires |x| >= 7 && |y| >= 7
    ensures nr > NUMBER_CHANNELS ==> c == Reject(INDEX_OUT_OF_BOUNDS)
    ensures nr <= NUMBER_CHANNELS && !isOpen ==> c == Reject(NOT_OPENED)
    ensures nr <= NUMBER_CHANNELS && isOpen ==> c == Frames(CurveFrames(nr, x, y))
  {
    if nr > NUMBER_CHANNELS then Reject(INDEX_OUT_OF_BOUNDS)
    else if !isOpen then Reject(NOT_OPENED)
    else Frames(CurveFrames(nr, x, y))
  }

  /** With channel number 4 the guard passes, and the first frame the
    * device receives sets the maximum temperature of channel 0 and the
    * absolute scaling of digital sensor 2 instead of a curve point. */
  lemma SetChCurveChannelFourMisdirected(x: seq<Byte>, y: seq<Byte>)
    requires |x| >= 7 && |y| >= 7
    ensures SetChCurveAsWritten(true, 4, x, y).Frames?
    ensures Decode(SetChCurveAsWritten(true, 4, x, y).frames[0])
         == Some([MaxTemp(0, Trunc8(2 * x[0] as int)), DsAbsScale(2, y[0])])
  {
    var f := CurveFrame(SER_SET_KANAL1 + 64, 0, x[0], y[0]);
    assert f == [SER_SET_MAX, Trunc8(2 * x[0] as int), BIGNG_SER_ADDFK_DS + 2, y[0]];
    DecodeValuePair(SER_SET_MAX, Trunc8(2 * x[0] as int), BIGNG_SER_ADDFK_DS + 2, y[0],
                    MaxTemp(0, Trunc8(2 * x[0] as int)), DsAbsScale(2, y[0]));
  }

  /** Every frame of a curve upload for a real channel decodes into the
    * writes of that channel's curve. */
  lemma CurveFramesDecode(nr: int, x: seq<Byte>, y: seq<Byte>)
    requires 0 <= nr < NUMBER_CHANNELS && |x| >= 7 && |y| >= 7
    ensures forall i :: 0 <= i < 6 ==>
      Decode(CurveFrames(nr, x, y)[i])
        == Some([CurveTemp(nr, i, Trunc8(2 * x[i] as int)), CurvePwm(nr, i, y[i])])
    ensures Decode(CurveFrames(nr, x, y)[6]) == Some([MaxTemp(nr, Trunc8(2 * x[6] as int))])
  {
    var fs := CurveFrames(nr, x, y);
    forall i | 0 <= i < 6
      ensures Decode(fs[i]) == Some([CurveTemp(nr, i, Trunc8(2 * x[i] as int)), CurvePwm(nr, i, y[i])])
    {
      CurveOpcode(nr, i);
      CurveOpcode(nr, i + 6);
      var b0 := SER_SET_KANAL1 + 16 * nr + i;
      var b1 := SER_SET_KANAL1 + 16 * nr + 6 + i;
      assert fs[i] == [b0, Trunc8(2 * x[i] as int), b1, y[i]];
      DecodeValuePair(b0, Trunc8(2 * x[i] as int), b1, y[i],
                      CurveTemp(nr, i, Trunc8(2 * x[i] as int)), CurvePwm(nr, i, y[i]));
    }
    DecodeValue(SER_SET_MAX + nr, Trunc8(2 * x[6] as int), MaxTemp(nr, Trunc8(2 * x[6] as int)));
  }

  /** tban_setChCurve with the channel guard it evidently intends: only
    * channels 0..3 are accepted, and the upload then writes nothing but
    * that channel's six curve points and its maximum temperature. */
  function SetChCurve(isOpen: bool, nr: int, x: seq<Byte>, y: seq<Byte>): (c: Cmd)
    requires |x| >= 7 && |y| >= 7
    ensures c.Frames? <==> isOpen && 0 <= nr < NUMBER_CHANNELS
    ensures !(0 <= nr < NUMBER_CHANNELS) ==> c == Reject(INDEX_OUT_OF_BOUNDS)
    ensures 0 <= nr < NUMBER_CHANNELS && !isOpen ==> c == Reject(NOT_OPENED)
    ensures c.Frames? ==> (|c.frames| == 7
      && (forall i :: 0 <= i < 6 ==>
            Decode(c.frames[i]) == Some([CurveTemp(nr, i, Trunc8(2 * x[i] as int)), CurvePwm(nr, i, y[i])]))
      && Decode(c.frames[6]) == Some([MaxTemp(nr, Trunc8(2 * x[6] as int))]))
  {
    if nr < 0 || nr >= NUMBER_CHANNELS then Reject(INDEX_OUT_OF_BOUNDS)
    else if !isOpen then Reject(NOT_OPENED)
    else
      CurveFramesDecode(nr, x, y);
      Frames(CurveFrames(nr, x, y))
  }

  /** What the upload as written carries on every channel its guard lets
    * through: for a real channel that channel's curve, for channel 4 a
    * first frame that writes the maximum temperature of channel 0 and
    * the absolute scaling of digital sensor 2. */
  lemma SetChCurveAsWrittenDecodes(isOpen: bool, nr: int, x: seq<Byte>, y: seq<Byte>)
    requires |x| >= 7 && |y| >= 7
    ensures SetChCurveAsWritten(isOpen, nr, x, y).Frames? && 0 <= nr < NUMBER_CHANNELS ==>
      var fs := SetChCurveAsWritten(isOpen, nr, x, y).frames;
      |fs| == 7 &&
      (forall i :: 0 <= i < 6 ==> Decode(fs[i]) == Some([CurveTemp(nr, i, Trunc8(2 * x[i] as int)), CurvePwm(nr, i, y[i])])) &&
      Decode(fs[6]) == Some([MaxTemp(nr, Trunc8(2 * x[6] as int))])
    ensures SetChCurveAsWritten(isOpen, nr, x, y).Frames? && nr == NUMBER_CHANNELS ==>
      Decode(SetChCurveAsWritten(isOpen, nr, x, y).frames[0]) == Some([MaxTemp(0, Trunc8(2 * x[0] as int)), DsAbsScale(2, y[0])])
  {
    if isOpen && 0 <= nr < NUMBER_CHANNELS {
      SetChCurveGuardsAgree(isOpen, nr, x, y);
    }
    if isOpen && nr == NUMBER_CHANNELS {
      SetChCurveChannelFourMisdirected(x, y);
    }
  }

  /** On every channel both guards agree; they differ only on channel
    * number 4 (and on negative numbers, which the library's callers
    * never pass). */
  lemma SetChCurveGuardsAgree(isOpen: bool, nr: int, x: seq<Byte>, y: seq<Byte>)
    requires |x| >= 7 && |y| >= 7 && 0 <= nr && nr != NUMBER_CHANNELS
    ensures SetChCurve(isOpen, nr, x, y) == SetChCurveAsWritten(isOpen, nr, x, y)
  {
  }

  // ---- One-frame commands ----

  function SetChHysteresis(isOpen: bool, nr: Byte, hysteresis: Byte): (c: Cmd)
    ensures c.Frames? <==> isOpen && nr < NUMBER_CHANNELS
    ensures !isOpen ==> c == Reject(NOT_OPENED)
    ensures isOpen && nr >= NUMBER_CHANNELS ==> c == Reject(INDEX_OUT_OF_BOUNDS)
    ensures c.Frames? ==> |c.frames| == 1 && DecodeAll(c.frames) == Some([Hysteresis(nr, hysteresis)])
  {
    if !isOpen then Reject(NOT_OPENED)
    else if nr >= NUMBER_CHANNELS then Reject(INDEX_OUT_OF_BOUNDS)
    else
      DecodeValue(SER_SET_HYS + nr, hysteresis, Hysteresis(nr, hysteresis));
      Frames([[SER_SET_HYS + nr, hysteresis]])
  }

  function ResetHardware(isOpen: bool): (c: Cmd)
    ensures c.Frames? <==> isOpen
    ensures !isOpen ==> c == Reject(NOT_OPENED)
    ensures c.Frames? ==> |c.frames| == 1 && DecodeAll(c.frames) == Some([MakeAbgl])
  {
    if !isOpen then Reject(NOT_OPENED)
    else
      DecodeSingleByte(SER_MAKE_ABGL, MakeAbgl);
      Frames([[SER_MAKE_ABGL]])
  }

  /** Manual-mode mask, one bit per channel; masks above 15 are refused
    * (with the index code, as the library does). */
  function SetChMode(isOpen: bool, modeMask: Byte): (c: Cmd)
    ensures c.Frames? <==> isOpen && modeMask <= 15
    ensures !isOpen ==> c == Reject(NOT_OPENED)
    ensures isOpen && modeMask > 15 ==> c == Reject(INDEX_OUT_OF_BOUNDS)
    ensures c.Frames? ==> |c.frames| == 1 && DecodeAll(c.frames) == Some([Manual(modeMask)])
  {
    if !isOpen then Reject(NOT_OPENED)
    else if modeMask > 15 then Reject(INDEX_OUT_OF_BOUNDS)
    else
      DecodeValue(SER_MAN, modeMask, Manual(modeMask));
      Frames([[SER_MAN, modeMask]])
  }

  function SetSensorScaleFact(isOpen: bool, nr: Byte, factor: Byte): (c: Cmd)
    ensures c.Frames? <==> isOpen && nr < NUMBER_CHANNELS
    ensures !isOpen ==> c == Reject(NOT_OPENED)
    ensures isOpen && nr >= NUMBER_CHANNELS ==> c == Reject(INDEX_OUT_OF_BOUNDS)
    ensures c.Frames? ==> |c.frames| == 1 && DecodeAll(c.frames) == Some([SensorScale(nr, factor)])
  {
    if !isOpen then Reject(NOT_OPENED)
    else if nr >= NUMBER_CHANNELS then Reject(INDEX_OUT_OF_BOUNDS)
    else
      DecodeValue(SER_SKF + nr, factor, SensorScale(nr, factor));
      Frames([[SER_SKF + nr, factor]])
  }

  /** Any non-zero status switches the LED on. */
  function SetLed(isOpen: bool, status: Byte): (c: Cmd)
    ensures c.Frames? <==> isOpen
    ensures !isOpen ==> c == Reject(NOT_OPENED)
    ensures c.Frames? ==> (|c.frames| == 1
      && DecodeAll(c.frames) == Some([if status == 0 then LedOff else LedOn]))
  {
    if !isOpen then Reject(NOT_OPENED)
    else
      var b: Byte := if status == 0 then SER_LED_AUS else SER_LED_EIN;
      DecodeSingleByte(b, if status == 0 then LedOff else LedOn);
      Frames([[b]])
  }

  /** Any non-zero status switches the buzzer on. */
  function SetBuz(isOpen: bool, status: Byte): (c: Cmd)
    ensures c.Frames? <==> isOpen
    ensures !isOpen ==> c == Reject(NOT_OPENED)
    ensures c.Frames? ==> (|c.frames| == 1
      && DecodeAll(c.frames) == Some([if status == 0 then BuzzerOff else BuzzerOn]))
  {
    if !isOpen then Reject(NOT_OPENED)
    else
      var b: Byte := if status == 0 then SER_BUZ_AUS else SER_BUZ_EIN;
      DecodeSingleByte(b, if status == 0 then BuzzerOff else BuzzerOn);
      Frames([[b]])
  }

  /** Blockage detection limits; a zero in any of them is refused with
    * the null-value code. */
  function SetMotion(lower: Byte, upper: Byte, error: Byte): (c: Cmd)
    ensures c.Reject? <==> lower == 0 || upper == 0 || error == 0
    ensures c.Reject? ==> c.code == VALUE_NULL_PTR
    ensures c.Frames? ==> (|c.frames| == 1
      && DecodeAll(c.frames) == Some([ErrUp(upper), ErrGrenz(error), ErrDown(lower)]))
  {
    if lower == 0 || upper == 0 || error == 0 then Reject(VALUE_NULL_PTR)
    else
      DecodeValueTriple(SER_ERR_UP, upper, SER_ERR_GRENZ, error, SER_ERR_DOWN, lower,
                        ErrUp(upper), ErrGrenz(error), ErrDown(lower));
      DecodeAllOne([SER_ERR_UP, upper, SER_ERR_GRENZ, error, SER_ERR_DOWN, lower],
                   [ErrUp(upper), ErrGrenz(error), ErrDown(lower)]);
      Frames([[SER_ERR_UP, upper, SER_ERR_GRENZ, error, SER_ERR_DOWN, lower]])
  }

  /** Digital and analog sensor of a channel, in one frame. */
  function SetChSensAssignment(index: Byte, dsens: Byte, asens: Byte): (c: Cmd)
    ensures c.Frames? <==> index < NUMBER_CHANNELS
    ensures c.Reject? ==> c.code == INDEX_OUT_OF_BOUNDS
    ensures c.Frames? ==> (|c.frames| == 1
      && DecodeAll(c.frames) == Some([DAssign(index, dsens), AAssign(index, asens)]))
  {
    if index >= NUMBER_CHANNELS then Reject(INDEX_OUT_OF_BOUNDS)
    else
      DecodeValuePair(SER_SET_ZUORD + index, dsens, SER_SET_ZUORA + index, asens,
                      DAssign(index, dsens), AAssign(index, asens));
      DecodeAllOne([SER_SET_ZUORD + index, dsens, SER_SET_ZUORA + index, asens],
                   [DAssign(index, dsens), AAssign(index, asens)]);
      Frames([[SER_SET_ZUORD + index, dsens, SER_SET_ZUORA + index, asens]])
  }

  /** Pwm of a channel in percent; the index is checked before the value. */
  function SetChPwm(index: Byte, pwm: Byte): (c: Cmd)
    ensures c.Frames? <==> index < NUMBER_CHANNELS && pwm <= 100
    ensures index >= NUMBER_CHANNELS ==> c == Reject(INDEX_OUT_OF_BOUNDS)
    ensures index < NUMBER_CHANNELS && pwm > 100 ==> c == Reject(VALUE_OUT_OF_BOUNDS)
    ensures c.Frames? ==> |c.frames| == 1 && DecodeAll(c.frames) == Some([SetPwm(index, pwm)])
  {
    if index >= NUMBER_CHANNELS then Reject(INDEX_OUT_OF_BOUNDS)
    else if pwm > 100 then Reject(VALUE_OUT_OF_BOUNDS)
    else
      DecodeValue(SER_SET1 + index, pwm, SetPwm(index, pwm));
      Frames([[SER_SET1 + index, pwm]])
  }

  /** Start-up pwm of a channel in percent. */
  function SetChInitValue(index: Byte, pwm: Byte): (c: Cmd)
    ensures c.Frames? <==> index < NUMBER_CHANNELS && pwm <= 100
    ensures index >= NUMBER_CHANNELS ==> c == Reject(INDEX_OUT_OF_BOUNDS)
    ensures index < NUMBER_CHANNELS && pwm > 100 ==> c == Reject(VALUE_OUT_OF_BOUNDS)
    ensures c.Frames? ==> |c.frames| == 1 && DecodeAll(c.frames) == Some([InitPwm(index, pwm)])
  {
    if index >= NUMBER_CHANNELS then Reject(INDEX_OUT_OF_BOUNDS)
    else if pwm > 100 then Reject(VALUE_OUT_OF_BOUNDS)
    else
      DecodeValue(SER_INIT1 + index, pwm, InitPwm(index, pwm));
      Frames([[SER_INIT1 + index, pwm]])
  }

  /** The pwm frequency; no argument is refused. */
  function SetPwmFreq(freq: Byte): (c: Cmd)
    ensures c.Frames? && |c.frames| == 1 && DecodeAll(c.frames) == Some([PwmFreq(freq)])
  {
    DecodeValue(SER_FREQ, freq, PwmFreq(freq));
    Frames([[SER_FREQ, freq]])
  }

  /** Ping the digital sensors selected by the mask. */
  function Ping(pingmask: Byte): (c: Cmd)
    ensures c.Frames? && |c.frames| == 1 && DecodeAll(c.frames) == Some([Wire.Ping(pingmask)])
  {
    DecodeValue(SENS_PING, pingmask, Wire.Ping(pingmask));
    Frames([[SENS_PING, pingmask]])
  }

  /** Select which channels report tacho signals. */
  function SetTacho(tachomask: Byte): (c: Cmd)
    ensures c.Frames? && |c.frames| == 1 && DecodeAll(c.frames) == Some([Tacho(tachomask)])
  {
    DecodeValue(SER_OVER, tachomask, Tacho(tachomask));
    Frames([[SER_OVER, tachomask]])
  }

  /** Kick (switch on) the USB watchdog: firmware 2.8 is required; the
    * open flag is only checked by the send routine. */
  function KickWatchdog(buf: seq<Byte>): (c: Cmd)
    requires |buf| == BUFSIZE
    ensures c.Frames? <==> TBanStatus.FwLevel(buf) >= WATCHDOG_MIN_FW
    ensures c.Reject? ==> c.code == FW_TOO_OLD
    ensures c.Frames? ==> |c.frames| == 1 && DecodeAll(c.frames) == Some([WatchdogOn])
  {
    if TBanStatus.CheckFw(buf, WATCHDOG_MIN_FW as Byte) != OK then Reject(FW_TOO_OLD)
    else
      DecodeSingleByte(USB_WATCHDOG_ON, WatchdogOn);
      Frames([[USB_WATCHDOG_ON]])
  }

  /** Switch the USB watchdog off; firmware 2.8 is required. */
  function DisableWatchdog(buf: seq<Byte>): (c: Cmd)
    requires |buf| == BUFSIZE
    ensures c.Frames? <==> TBanStatus.FwLevel(buf) >= WATCHDOG_MIN_FW
    ensures c.Reject? ==> c.code == FW_TOO_OLD
    ensures c.Frames? ==> |c.frames| == 1 && DecodeAll(c.frames) == Some([WatchdogOff])
  {
    if TBanStatus.CheckFw(buf, WATCHDOG_MIN_FW as Byte) != OK then Reject(FW_TOO_OLD)
    else
      DecodeSingleByte(USB_WATCHDOG_OFF, WatchdogOff);
      Frames([[USB_WATCHDOG_OFF]])
  }
}
