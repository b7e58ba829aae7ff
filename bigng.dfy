// The bigNG variant of the T-Balancer.  Most of its readings sit in the
// base unit's status vector (the base buffer); a second 285-byte vector,
// fetched from the alternative source, holds the absolute scaling
// factors.  The extra command opcodes are decoded by module Wire.

module BigNG {
  import opened Bytes
  import opened TBanDefs
  import opened Wire

  const BIGNG_BUF_LENGTH: int := 285

  // ---- Positions (base buffer unless noted) ----
  const OUT_MODE: int := 136
  const SYS_OT: int := 145
  const DSENS_ASSIGN: int := 45
  const ASENS_ASSIGN: int := 49
  const SPECIFIC_SENS_ASSIGN: int := 164
  const AS_CALIBRATED_VALUE: int := 260
  const AS_RAW_VALUE: int := 256
  const AS_SCALING_FACTOR: int := 129
  /** Position in the bigNG buffer. */
  const AS_ABS_SCALING_FACTOR: int := 142
  /** Position in the bigNG buffer. */
  const DS_ABS_SCALING_FACTOR: int := 128
  const DS_SCALING_FACTOR: int := 19
  const DS_CALIBRATED_VALUE: int := 238
  const DS_RAW_VALUE: int := 208
  const TARGET_TEMP: int := 118
  const TARGET_MODE: int := 122
  const PWM: int := 137
  const TEMP: int := 252
  const MODE: int := 101
  const ChMaxPwmMap: seq<int> := [148, 150, 152, 154]

  const OUTPUT_MODE_PWM: Byte := 0
  const OUTPUT_MODE_ANALOG: Byte := 1
  const PRESENT: int := 1
  const NOT_PRESENT: int := 0
  const MAX_TARGET_MODE: int := 6

  /** The status request sent to the alternative source. */
  const QueryFrame: seq<Byte> := [SER_SOURCE2, SER_REQUEST]

  lemma QueryFrameDecodes()
    ensures Decode(QueryFrame) == Some([Source2, Request])
  {
    var f := QueryFrame;
    assert f[1..] == [SER_REQUEST];
    DecodeSingleByte(SER_REQUEST, Request);
    assert DecodeHead(f) == Some((Source2, 1));
    DecodeTwo(f, 1, Source2, Request);
  }

  /** A bigNG is attached when the hardware type in the BASE status
    * vector says so; the bigNG buffer is not looked at. */
  function Present(buf: seq<Byte>): (r: int)
    requires |buf| == BUFSIZE
    ensures r == PRESENT || r == NOT_PRESENT
    ensures r == PRESENT <==> buf[INFO_TYPE] == DEVICE_TYPE_BIGNG
  {
    if buf[INFO_TYPE] == DEVICE_TYPE_BIGNG then PRESENT else NOT_PRESENT
  }

  /** The bigNG vector is valid when it starts with the marker 100. */
  function DataPresent(bigBuf: seq<Byte>): (r: int)
    requires |bigBuf| == BIGNG_BUF_LENGTH
    ensures r == OK || r == CORRUPT_DATA
    ensures r == OK <==> bigBuf[0] == PRESENT_MARKER
  {
    if bigBuf[0] != PRESENT_MARKER then CORRUPT_DATA else OK
  }

  /** One byte of the bigNG vector (unchecked index, as in the library). */
  function GetValue(isOpen: bool, bigBuf: seq<Byte>, index: nat): (r: Result<Byte>)
    requires |bigBuf| == BIGNG_BUF_LENGTH && index < BIGNG_BUF_LENGTH
    ensures r.Ok? <==> isOpen
    ensures r.Ok? ==> r.value == bigBuf[index]
    ensures r.Err? ==> r.code == NOT_OPENED
  {
    if !isOpen then Err(NOT_OPENED) else Ok(bigBuf[index])
  }

  /** Output mode of channel i as bigNG_getOutputMode reports it: ANALOG
    * when bit i of the mode byte is set, PWM otherwise. */
  function OutputModeBit(modeval: Byte, i: nat): (m: Byte)
    requires i < 8
    ensures m == OUTPUT_MODE_PWM || m == OUTPUT_MODE_ANALOG
    ensures m == OUTPUT_MODE_ANALOG <==> (modeval / Pow2(i)) % 2 == 1
  {
    if (modeval / Pow2(i)) % 2 == 1 then OUTPUT_MODE_ANALOG else OUTPUT_MODE_PWM
  }

  function Pow2(i: nat): (p: nat)
    ensures p >= 1
  {
    if i == 0 then 1 else 2 * Pow2(i - 1)
  }

  /** Reading back a four-bit mask channel by channel gives its bits:
    * the mask is the sum of each channel's mode times its bit weight. */
  lemma OutputModeBitsRebuild(modeval: Byte)
    requires modeval <= 15
    ensures modeval == OutputModeBit(modeval, 0) + 2 * OutputModeBit(modeval, 1)
                       + 4 * OutputModeBit(modeval, 2) + 8 * OutputModeBit(modeval, 3)
  {
    assert Pow2(1) == 2 && Pow2(2) == 4 && Pow2(3) == 8;
  }

  function GetOvertemp(isOpen: bool, buf: seq<Byte>): (r: Result<Byte>)
    requires |buf| == BUFSIZE
    ensures r.Ok? <==> isOpen
    ensures r.Ok? ==> r.value == buf[SYS_OT]
    ensures r.Err? ==> r.code == NOT_OPENED
  {
    if !isOpen then Err(NOT_OPENED) else Ok(buf[SYS_OT])
  }

  datatype Assignment = Assignment(dsens: Byte, asens: Byte, bngsens: Byte)

  /** Sensor assignment of a channel, including the bigNG-specific one;
    * the open flag is checked first. */
  function GetChSensAssignment(isOpen: bool, buf: seq<Byte>, index: Byte): (r: Result<Assignment>)
    requires |buf| == BUFSIZE
    ensures r.Ok? <==> isOpen && index < NUMBER_CHANNELS
    ensures !isOpen ==> r == Err(NOT_OPENED)
    ensures isOpen && index >= NUMBER_CHANNELS ==> r == Err(INDEX_OUT_OF_BOUNDS)
    ensures r.Ok? ==> r.value == Assignment(buf[DSENS_ASSIGN + index], buf[ASENS_ASSIGN + index],
                                            buf[SPECIFIC_SENS_ASSIGN + index])
  {
    if !isOpen then Err(NOT_OPENED)
    else if index >= NUMBER_CHANNELS then Err(INDEX_OUT_OF_BOUNDS)
    else Ok(Assignment(buf[DSENS_ASSIGN + index], buf[ASENS_ASSIGN + index], buf[SPECIFIC_SENS_ASSIGN + index]))
  }

  datatype Sensor = Sensor(temp: Byte, raw: Byte, cal: Byte, abscal: Byte)

  /** One of the four additional analog sensors: temperature, raw value
    * and scaling come from the base vector, the absolute scaling from
    * the bigNG vector. */
  function GetASensorTemp(isOpen: bool, buf: seq<Byte>, bigBuf: seq<Byte>, index: nat): (r: Result<Sensor>)
    requires |buf| == BUFSIZE && |bigBuf| == BIGNG_BUF_LENGTH
    ensures r.Ok? <==> isOpen && index < BIGNG_NUMBER_ADDITIONAL_ANALOG_SENSORS
    ensures index >= BIGNG_NUMBER_ADDITIONAL_ANALOG_SENSORS ==> r == Err(INDEX_OUT_OF_BOUNDS)
    ensures index < BIGNG_NUMBER_ADDITIONAL_ANALOG_SENSORS && !isOpen ==> r == Err(NOT_OPENED)
    ensures r.Ok? ==> r.value == Sensor(buf[AS_CALIBRATED_VALUE + index], buf[AS_RAW_VALUE + index],
                                        buf[AS_SCALING_FACTOR + index], bigBuf[AS_ABS_SCALING_FACTOR + index])
  {
    if index >= BIGNG_NUMBER_ADDITIONAL_ANALOG_SENSORS then Err(INDEX_OUT_OF_BOUNDS)
    else if !isOpen then Err(NOT_OPENED)
    else Ok(Sensor(buf[AS_CALIBRATED_VALUE + index], buf[AS_RAW_VALUE + index],
                   buf[AS_SCALING_FACTOR + index], bigBuf[AS_ABS_SCALING_FACTOR + index]))
  }

  /** A digital sensor, with its bigNG absolute scaling. */
  function GetDSensorTemp(isOpen: bool, buf: seq<Byte>, bigBuf: seq<Byte>, index: nat): (r: Result<Sensor>)
    requires |buf| == BUFSIZE && |bigBuf| == BIGNG_BUF_LENGTH
    ensures r.Ok? <==> isOpen && index < NUMBER_DIGITAL_SENSORS
    ensures index >= NUMBER_DIGITAL_SENSORS ==> r == Err(INDEX_OUT_OF_BOUNDS)
    ensures index < NUMBER_DIGITAL_SENSORS && !isOpen ==> r == Err(NOT_OPENED)
    ensures r.Ok? ==> r.value == Sensor(buf[DS_CALIBRATED_VALUE + index], buf[DS_RAW_VALUE + index],
                                        buf[DS_SCALING_FACTOR + index], bigBuf[DS_ABS_SCALING_FACTOR + index])
  {
    if index >= NUMBER_DIGITAL_SENSORS then Err(INDEX_OUT_OF_BOUNDS)
    else if !isOpen then Err(NOT_OPENED)
    else Ok(Sensor(buf[DS_CALIBRATED_VALUE + index], buf[DS_RAW_VALUE + index],
                   buf[DS_SCALING_FACTOR + index], bigBuf[DS_ABS_SCALING_FACTOR + index]))
  }

  datatype ChInfo = ChInfo(rpmMax: int, pwm: Byte, resTemp: Byte, mode: Byte, target: Byte, targetMode: Byte)

  /** Channel information with the target-control settings. */
  function GetChInfo(isOpen: bool, buf: seq<Byte>, index: nat): (r: Result<ChInfo>)
    requires |buf| == BUFSIZE
    ensures r.Ok? <==> isOpen && index < NUMBER_CHANNELS
    ensures index >= NUMBER_CHANNELS ==> r == Err(INDEX_OUT_OF_BOUNDS)
    ensures index < NUMBER_CHANNELS && !isOpen ==> r == Err(NOT_OPENED)
    ensures r.Ok? ==>
      var n := 256 * buf[ChMaxPwmMap[index] + 1] as int + buf[ChMaxPwmMap[index]];
      2 * r.value.rpmMax <= 21 * n < 2 * r.value.rpmMax + 2
      && r.value.pwm == Trunc8(2 * buf[PWM + index] as int)
      && r.value.resTemp == buf[TEMP + index] && r.value.mode == buf[MODE + index]
      && r.value.target == buf[TARGET_TEMP + index] && r.value.targetMode == buf[TARGET_MODE + index]
  {
    if index >= NUMBER_CHANNELS then Err(INDEX_OUT_OF_BOUNDS)
    else if !isOpen then Err(NOT_OPENED)
    else
      var n := 256 * buf[ChMaxPwmMap[index] + 1] as int + buf[ChMaxPwmMap[index]];
      Ok(ChInfo(n * 21 / 2, Trunc8(2 * buf[PWM + index] as int), buf[TEMP + index], buf[MODE + index],
                buf[TARGET_TEMP + index], buf[TARGET_MODE + index]))
  }

  // ---- Commands ----

  /** Sensor assignment including the bigNG sensor (a four-bit value). */
  function SetChSensAssignment(index: Byte, dsens: Byte, asens: Byte, bngsens: Byte): (c: Cmd)
    ensures c.Frames? <==> index < NUMBER_CHANNELS && bngsens <= 15
    ensures index >= NUMBER_CHANNELS ==> c == Reject(INDEX_OUT_OF_BOUNDS)
    ensures index < NUMBER_CHANNELS && bngsens > 15 ==> c == Reject(VALUE_OUT_OF_BOUNDS)
    ensures c.Frames? ==> (|c.frames| == 1
      && DecodeAll(c.frames) == Some([DAssign(index, dsens), AAssign(index, asens), BigAssign(index, bngsens)]))
  {
    if index >= NUMBER_CHANNELS then Reject(INDEX_OUT_OF_BOUNDS)
    else if bngsens > 15 then Reject(VALUE_OUT_OF_BOUNDS)
    else
      var f: seq<Byte> := [SER_SET_ZUORD + index, dsens, SER_SET_ZUORA + index, asens, BIGNG_SER_ZUORNG + index, bngsens];
      DecodeValueTriple(SER_SET_ZUORD + index, dsens, SER_SET_ZUORA + index, asens, BIGNG_SER_ZUORNG + index, bngsens,
                        DAssign(index, dsens), AAssign(index, asens), BigAssign(index, bngsens));
      DecodeAllOne(f, [DAssign(index, dsens), AAssign(index, asens), BigAssign(index, bngsens)]);
      Frames([f])
  }

  /** Output mode of all four channels at once, one bit per channel. */
  function SetOutputMode(modemask: Byte): (c: Cmd)
    ensures c.Frames? <==> modemask <= 15
    ensures c.Reject? ==> c.code == VALUE_OUT_OF_BOUNDS
    ensures c.Frames? ==> |c.frames| == 1 && DecodeAll(c.frames) == Some([OutputMode(modemask)])
  {
    if modemask > 15 then Reject(VALUE_OUT_OF_BOUNDS)
    else
      DecodeValue(BIGNG_SER_OUTMODE, modemask, OutputMode(modemask));
      Frames([[BIGNG_SER_OUTMODE, modemask]])
  }

  function SetAsScalingFact(index: Byte, fact: Byte): (c: Cmd)
    ensures c.Frames? <==> index < BIGNG_NUMBER_ADDITIONAL_ANALOG_SENSORS
    ensures c.Reject? ==> c.code == INDEX_OUT_OF_BOUNDS
    ensures c.Frames? ==> |c.frames| == 1 && DecodeAll(c.frames) == Some([AsScale(index, fact)])
  {
    if index >= BIGNG_NUMBER_ADDITIONAL_ANALOG_SENSORS then Reject(INDEX_OUT_OF_BOUNDS)
    else
      DecodeValue(BIGNG_SER_SKF + index, fact, AsScale(index, fact));
      Frames([[BIGNG_SER_SKF + index, fact]])
  }

  function SetAsAbsScalingFact(index: Byte, fact: Byte): (c: Cmd)
    ensures c.Frames? <==> index < BIGNG_NUMBER_ADDITIONAL_ANALOG_SENSORS
    ensures c.Reject? ==> c.code == INDEX_OUT_OF_BOUNDS
    ensures c.Frames? ==> |c.frames| == 1 && DecodeAll(c.frames) == Some([AsAbsScale(index, fact)])
  {
    if index >= BIGNG_NUMBER_ADDITIONAL_ANALOG_SENSORS then Reject(INDEX_OUT_OF_BOUNDS)
    else
      DecodeValue(BIGNG_SER_ADDFK_AS + index, fact, AsAbsScale(index, fact));
      Frames([[BIGNG_SER_ADDFK_AS + index, fact]])
  }

  function SetDsAbsScalingFact(index: Byte, fact: Byte): (c: Cmd)
    ensures c.Frames? <==> index < NUMBER_DIGITAL_SENSORS
    ensures c.Reject? ==> c.code == INDEX_OUT_OF_BOUNDS
    ensures c.Frames? ==> |c.frames| == 1 && DecodeAll(c.frames) == Some([DsAbsScale(index, fact)])
  {
    if index >= NUMBER_DIGITAL_SENSORS then Reject(INDEX_OUT_OF_BOUNDS)
    else
      DecodeValue(BIGNG_SER_ADDFK_DS + index, fact, DsAbsScale(index, fact));
      Frames([[BIGNG_SER_ADDFK_DS + index, fact]])
  }

  /** Target temperature, sent in half degrees; a target of 128 or more
    * wraps when doubled into the byte. */
  function SetChTargetTemp(index: Byte, target: Byte): (c: Cmd)
    ensures c.Frames? <==> index < NUMBER_CHANNELS
    ensures c.Reject? ==> c.code == INDEX_OUT_OF_BOUNDS
    ensures c.Frames? ==> (|c.frames| == 1
      && DecodeAll(c.frames) == Some([TargetTemp(index, Trunc8(2 * target as int))]))
  {
    if index >= NUMBER_CHANNELS then Reject(INDEX_OUT_OF_BOUNDS)
    else
      DecodeValue(BIGNG_SER_ZT + index, Trunc8(2 * target as int), TargetTemp(index, Trunc8(2 * target as int)));
      Frames([[BIGNG_SER_ZT + index, Trunc8(2 * target as int)]])
  }

  /** The device halves the value back to the target exactly when the
    * target is below 128. */
  lemma TargetTempRoundTrip(index: Byte, target: Byte)
    requires index < NUMBER_CHANNELS
    ensures DecodeAll(SetChTargetTemp(index, target).frames) == Some([TargetTemp(index, Trunc8(2 * target as int))])
    ensures target < 128 <==> Trunc8(2 * target as int) / 2 == target
  {
    DoubleThenHalve(target);
  }

  /** Target-control mode 0..6; a larger mode is refused with the index
    * code, as the library does. */
  function SetChTargetMode(index: Byte, mode: Byte): (c: Cmd)
    ensures c.Frames? <==> index < NUMBER_CHANNELS && mode <= MAX_TARGET_MODE
    ensures c.Reject? ==> c.code == INDEX_OUT_OF_BOUNDS
    ensures c.Frames? ==> |c.frames| == 1 && DecodeAll(c.frames) == Some([TargetMode(index, mode)])
  {
    if index >= NUMBER_CHANNELS then Reject(INDEX_OUT_OF_BOUNDS)
    else if mode > MAX_TARGET_MODE then Reject(INDEX_OUT_OF_BOUNDS)
    else
      DecodeValue(BIGNG_SER_MODE + index, mode, TargetMode(index, mode));
      Frames([[BIGNG_SER_MODE + index, mode]])
  }
}
