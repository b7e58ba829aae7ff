// Reading the classic T-Balancer's status vector.  After a status query
// the library keeps the 285 bytes the unit answered with in its 300-byte
// receive buffer; every getter is a lookup of fixed positions in that
// buffer, guarded by the handle's open flag and the caller's index.

module TBanStatus {
  import opened Bytes
  import opened TBanDefs

  // ---- Position tables: entry i is the byte for channel or sensor i ----
  const ChPwmMap: seq<int> := [137, 138, 139, 140]
  const ChMaxPwmMap: seq<int> := [148, 150, 152, 154]
  const ChTempMap: seq<int> := [252, 253, 254, 255]
  const HysteresisMap: seq<int> := [37, 38, 39, 40]
  const DsensorAssignMap: seq<int> := [45, 46, 47, 48]
  const AsensorAssignMap: seq<int> := [49, 50, 51, 52]
  const CurveXMap: seq<int> := [53, 59, 65, 71]
  const CurveYMap: seq<int> := [77, 83, 89, 95]
  const ChModeMap: seq<int> := [101, 102, 103, 104]
  const ChStartModeMap: seq<int> := [5, 6, 7, 8]
  const DsensorMap: seq<int> := [238, 239, 240, 241, 242, 243, 244, 245]
  const DrawSensorMap: seq<int> := [208, 209, 210, 211, 212, 213, 214, 215, 216, 217, 218, 219, 220, 221]
  const AsensorMap: seq<int> := [246, 247, 248, 249, 250, 251]
  const ArawSensorMap: seq<int> := [225, 226, 227, 228, 229, 230]
  const DScalingFactorMap: seq<int> := [19, 20, 21, 22, 23, 24, 25, 26]
  const AScalingFactorMap: seq<int> := [27, 28, 29, 30, 31, 32]

  /** Every position a getter reads lies inside the part of the buffer a
    * status query fills, and each channel's six curve points come as a
    * block: temperatures at 53 + 6c, requested pwm at 77 + 6c. */
  lemma TablesInsideStatusVector()
    ensures forall c :: 0 <= c < 4 ==> CurveXMap[c] == 53 + 6 * c && CurveYMap[c] == 77 + 6 * c
    ensures forall c :: 0 <= c < 4 ==> CurveYMap[c] + 5 < STATUS_LENGTH && ChMaxPwmMap[c] + 1 < STATUS_LENGTH
    ensures forall c :: 0 <= c < 4 ==> CurveXMap[c] + 5 < CurveYMap[0]
    ensures forall i :: 0 <= i < 8 ==> DsensorMap[i] < STATUS_LENGTH && DrawSensorMap[i] < STATUS_LENGTH
    ensures forall i :: 0 <= i < 6 ==> AsensorMap[i] < STATUS_LENGTH && ArawSensorMap[i] < STATUS_LENGTH
  {
  }

  /** The status vector is valid when it starts with the marker 100. */
  function Present(buf: seq<Byte>): (r: int)
    requires |buf| > 0
    ensures r == OK || r == CORRUPT_DATA
    ensures r == OK <==> buf[0] == PRESENT_MARKER
  {
    if buf[0] != PRESENT_MARKER then CORRUPT_DATA else OK
  }

  /** One byte of the cached vector. The index is not checked: reading
    * past the buffer is undefined in the library, so it is required. */
  function GetValue(isOpen: bool, buf: seq<Byte>, index: nat): (r: Result<Byte>)
    requires index < |buf|
    ensures r.Ok? <==> isOpen
    ensures r.Ok? ==> r.value == buf[index]
    ensures r.Err? ==> r.code == NOT_OPENED
  {
    if !isOpen then Err(NOT_OPENED) else Ok(buf[index])
  }

  /** Firmware level compared against a required level: the version byte
    * holds the major version in its high nibble and the minor in its
    * low nibble, and the level is major*10 + minor. */
  function FwLevel(buf: seq<Byte>): (v: int)
    requires |buf| == BUFSIZE
    ensures 0 <= v <= 165
    ensures v == 10 * (buf[INFO_VER] / 16) + buf[INFO_VER] % 16
  {
    10 * High(buf[INFO_VER]) + Low(buf[INFO_VER])
  }

  /** The firmware check does not look at the open flag. */
  function CheckFw(buf: seq<Byte>, fw: Byte): (r: int)
    requires |buf| == BUFSIZE
    ensures r == OK || r == FW_TOO_OLD
    ensures r == OK <==> FwLevel(buf) >= fw
  {
    if FwLevel(buf) >= fw then OK else FW_TOO_OLD
  }

  /** A unit that passes a firmware check passes every lower one. */
  lemma CheckFwMonotone(buf: seq<Byte>, hi: Byte, lo: Byte)
    requires |buf| == BUFSIZE && lo <= hi
    ensures CheckFw(buf, hi) == OK ==> CheckFw(buf, lo) == OK
  {
  }

  /** Version byte 0x28 (firmware 2.8) is exactly the watchdog level, and
    * 0x27 (2.7) is below it. */
  lemma WatchdogLevelBoundary(buf: seq<Byte>)
    requires |buf| == BUFSIZE
    ensures buf[INFO_VER] == 0x28 ==> CheckFw(buf, WATCHDOG_MIN_FW as Byte) == OK
    ensures buf[INFO_VER] == 0x27 ==> CheckFw(buf, WATCHDOG_MIN_FW as Byte) == FW_TOO_OLD
  {
  }

  datatype HwInfo = HwInfo(
    deviceType: Byte, app: Byte,
    fwMajor: int, fwMinor: int, fwMonth: int, fwYear: int,
    protocol: Byte, serBufLen: int, warn: Byte, timebase: Byte)

  /** Hardware identification from the cached vector. */
  function GetHwInfo(isOpen: bool, buf: seq<Byte>): (r: Result<HwInfo>)
    requires |buf| == BUFSIZE
    ensures r.Ok? <==> isOpen
    ensures r.Err? ==> r.code == NOT_OPENED
    ensures r.Ok? ==>
      var h := r.value;
      h.deviceType == buf[INFO_TYPE] && h.app == buf[INFO_APP]
      && 16 * h.fwMajor + h.fwMinor == buf[INFO_VER] && 0 <= h.fwMinor < 16
      && 16 * h.fwMonth + h.fwYear == buf[INFO_DATE] && 0 <= h.fwYear < 16
      && h.protocol == buf[INFO_PROT]
      && h.serBufLen == 256 + buf[SER_BUFFERLN] as int && 256 <= h.serBufLen < 512
      && h.warn == buf[WARN_LEVEL] && h.timebase == buf[TARGETCONTROL_TIMEBASE]
  {
    if !isOpen then Err(NOT_OPENED)
    else
      Ok(HwInfo(buf[INFO_TYPE], buf[INFO_APP],
                High(buf[INFO_VER]), Low(buf[INFO_VER]),
                High(buf[INFO_DATE]), Low(buf[INFO_DATE]),
                buf[INFO_PROT], 256 + buf[SER_BUFFERLN] as int,
                buf[WARN_LEVEL], buf[TARGETCONTROL_TIMEBASE]))
  }

  /** The firmware level the check compares is the one the hardware info
    * reports. */
  lemma FwLevelMatchesHwInfo(buf: seq<Byte>)
    requires |buf| == BUFSIZE
    ensures GetHwInfo(true, buf).Ok?
    ensures FwLevel(buf) == 10 * GetHwInfo(true, buf).value.fwMajor + GetHwInfo(true, buf).value.fwMinor
  {
  }

  function GetPwmFreq(isOpen: bool, buf: seq<Byte>): (r: Result<Byte>)
    requires |buf| == BUFSIZE
    ensures r.Ok? <==> isOpen
    ensures r.Ok? ==> r.value == buf[PWM_FREQ]
    ensures r.Err? ==> r.code == NOT_OPENED
  {
    if !isOpen then Err(NOT_OPENED) else Ok(buf[PWM_FREQ])
  }

  /** Over-temperature limit of a channel; the open flag is checked
    * before the channel. */
  function GetChOvertemp(isOpen: bool, buf: seq<Byte>, channel: Byte): (r: Result<Byte>)
    requires |buf| == BUFSIZE
    ensures r.Ok? <==> isOpen && channel < NUMBER_CHANNELS
    ensures !isOpen ==> r == Err(NOT_OPENED)
    ensures isOpen && channel >= NUMBER_CHANNELS ==> r == Err(INDEX_OUT_OF_BOUNDS)
    ensures r.Ok? ==> r.value == buf[TEMP_MAXWARN0 + channel]
  {
    if !isOpen then Err(NOT_OPENED)
    else if channel >= NUMBER_CHANNELS then Err(INDEX_OUT_OF_BOUNDS)
    else Ok(buf[TEMP_MAXWARN0 + channel])
  }

  datatype ChInfo = ChInfo(rpmMax: int, pwm: Byte, resTemp: Byte, mode: Byte)

  /** `(256*hb + lb) * 10.5` truncated: the product is a multiple of one
    * half below 2^24, so the float computation is exact and equals the
    * floor of 21/2 of the count. */
  function RpmMax(lb: Byte, hb: Byte): (rpm: int)
    ensures 2 * rpm <= 21 * (256 * hb + lb) < 2 * rpm + 2
  {
    (256 * hb + lb) * 21 / 2
  }

  /** Channel information; the index is checked before the open flag.
    * The stored pwm is half the real value, doubled into a byte. */
  function GetChInfo(isOpen: bool, buf: seq<Byte>, index: nat): (r: Result<ChInfo>)
    requires |buf| == BUFSIZE
    ensures r.Ok? <==> isOpen && index < NUMBER_CHANNELS
    ensures index >= NUMBER_CHANNELS ==> r == Err(INDEX_OUT_OF_BOUNDS)
    ensures index < NUMBER_CHANNELS && !isOpen ==> r == Err(NOT_OPENED)
    ensures r.Ok? ==>
      r.value.rpmMax == RpmMax(buf[ChMaxPwmMap[index]], buf[ChMaxPwmMap[index] + 1])
      && r.value.pwm == Trunc8(2 * buf[ChPwmMap[index]] as int)
      && r.value.resTemp == buf[ChTempMap[index]]
      && r.value.mode == buf[ChModeMap[index]]
  {
    if index >= NUMBER_CHANNELS then Err(INDEX_OUT_OF_BOUNDS)
    else if !isOpen then Err(NOT_OPENED)
    else
      Ok(ChInfo(RpmMax(buf[ChMaxPwmMap[index]], buf[ChMaxPwmMap[index] + 1]),
                Trunc8(2 * buf[ChPwmMap[index]] as int),
                buf[ChTempMap[index]], buf[ChModeMap[index]]))
  }

  function GetDSensorScaleFact(isOpen: bool, buf: seq<Byte>, index: nat): (r: Result<Byte>)
    requires |buf| == BUFSIZE
    ensures r.Ok? <==> isOpen && index < NUMBER_DIGITAL_SENSORS
    ensures index >= NUMBER_DIGITAL_SENSORS ==> r == Err(INDEX_OUT_OF_BOUNDS)
    ensures index < NUMBER_DIGITAL_SENSORS && !isOpen ==> r == Err(NOT_OPENED)
    ensures r.Ok? ==> r.value == buf[DScalingFactorMap[index]]
  {
    if index >= NUMBER_DIGITAL_SENSORS then Err(INDEX_OUT_OF_BOUNDS)
    else if !isOpen then Err(NOT_OPENED)
    else Ok(buf[DScalingFactorMap[index]])
  }

  datatype SensorReading = SensorReading(temp: Byte, raw: Byte, cal: Byte)

  function GetDSensorTemp(isOpen: bool, buf: seq<Byte>, index: nat): (r: Result<SensorReading>)
    requires |buf| == BUFSIZE
    ensures r.Ok? <==> isOpen && index < NUMBER_DIGITAL_SENSORS
    ensures index >= NUMBER_DIGITAL_SENSORS ==> r == Err(INDEX_OUT_OF_BOUNDS)
    ensures index < NUMBER_DIGITAL_SENSORS && !isOpen ==> r == Err(NOT_OPENED)
    ensures r.Ok? ==> r.value == SensorReading(buf[DsensorMap[index]], buf[DrawSensorMap[index]], buf[DScalingFactorMap[index]])
  {
    if index >= NUMBER_DIGITAL_SENSORS then Err(INDEX_OUT_OF_BOUNDS)
    else if !isOpen then Err(NOT_OPENED)
    else Ok(SensorReading(buf[DsensorMap[index]], buf[DrawSensorMap[index]], buf[DScalingFactorMap[index]]))
  }

  function GetASensorTemp(isOpen: bool, buf: seq<Byte>, index: nat): (r: Result<SensorReading>)
    requires |buf| == BUFSIZE
    ensures r.Ok? <==> isOpen && index < NUMBER_ANALOG_SENSORS
    ensures index >= NUMBER_ANALOG_SENSORS ==> r == Err(INDEX_OUT_OF_BOUNDS)
    ensures index < NUMBER_ANALOG_SENSORS && !isOpen ==> r == Err(NOT_OPENED)
    ensures r.Ok? ==> r.value == SensorReading(buf[AsensorMap[index]], buf[ArawSensorMap[index]], buf[AScalingFactorMap[index]])
  {
    if index >= NUMBER_ANALOG_SENSORS then Err(INDEX_OUT_OF_BOUNDS)
    else if !isOpen then Err(NOT_OPENED)
    else Ok(SensorReading(buf[AsensorMap[index]], buf[ArawSensorMap[index]], buf[AScalingFactorMap[index]]))
  }

  function GetLed(isOpen: bool, buf: seq<Byte>): (r: Result<Byte>)
    requires |buf| == BUFSIZE
    ensures r.Ok? <==> isOpen
    ensures r.Ok? ==> r.value == buf[LED_ENABLE]
    ensures r.Err? ==> r.code == NOT_OPENED
  {
    GetValue(isOpen, buf, LED_ENABLE)
  }

  function GetBuzzer(isOpen: bool, buf: seq<Byte>): (r: Result<Byte>)
    requires |buf| == BUFSIZE
    ensures r.Ok? <==> isOpen
    ensures r.Ok? ==> r.value == buf[BUZ_ENABLE]
    ensures r.Err? ==> r.code == NOT_OPENED
  {
    GetValue(isOpen, buf, BUZ_ENABLE)
  }

  /** Channel mode and start mode; the open flag is checked first. */
  function GetChMode(isOpen: bool, buf: seq<Byte>, index: Byte): (r: Result<(Byte, Byte)>)
    requires |buf| == BUFSIZE
    ensures r.Ok? <==> isOpen && index < NUMBER_CHANNELS
    ensures !isOpen ==> r == Err(NOT_OPENED)
    ensures isOpen && index >= NUMBER_CHANNELS ==> r == Err(INDEX_OUT_OF_BOUNDS)
    ensures r.Ok? ==> r.value == (buf[ChModeMap[index]], buf[ChStartModeMap[index]])
  {
    if !isOpen then Err(NOT_OPENED)
    else if index >= NUMBER_CHANNELS then Err(INDEX_OUT_OF_BOUNDS)
    else Ok((buf[ChModeMap[index]], buf[ChStartModeMap[index]]))
  }

  function GetChHysteresis(isOpen: bool, buf: seq<Byte>, index: Byte): (r: Result<Byte>)
    requires |buf| == BUFSIZE
    ensures r.Ok? <==> isOpen && index < NUMBER_CHANNELS
    ensures !isOpen ==> r == Err(NOT_OPENED)
    ensures isOpen && index >= NUMBER_CHANNELS ==> r == Err(INDEX_OUT_OF_BOUNDS)
    ensures r.Ok? ==> r.value == buf[HysteresisMap[index]]
  {
    if !isOpen then Err(NOT_OPENED)
    else if index >= NUMBER_CHANNELS then Err(INDEX_OUT_OF_BOUNDS)
    else Ok(buf[HysteresisMap[index]])
  }

  /** Digital and analog sensor assigned to a channel. */
  function GetChSensAssignment(isOpen: bool, buf: seq<Byte>, index: Byte): (r: Result<(Byte, Byte)>)
    requires |buf| == BUFSIZE
    ensures r.Ok? <==> isOpen && index < NUMBER_CHANNELS
    ensures !isOpen ==> r == Err(NOT_OPENED)
    ensures isOpen && index >= NUMBER_CHANNELS ==> r == Err(INDEX_OUT_OF_BOUNDS)
    ensures r.Ok? ==> r.value == (buf[DsensorAssignMap[index]], buf[AsensorAssignMap[index]])
  {
    if !isOpen then Err(NOT_OPENED)
    else if index >= NUMBER_CHANNELS then Err(INDEX_OUT_OF_BOUNDS)
    else Ok((buf[DsensorAssignMap[index]], buf[AsensorAssignMap[index]]))
  }

  /** Watchdog state: firmware 2.8 is needed, and the firmware check
    * comes before the open flag. */
  function GetWatchdog(isOpen: bool, buf: seq<Byte>): (r: Result<(Byte, Byte)>)
    requires |buf| == BUFSIZE
    ensures r.Ok? <==> isOpen && FwLevel(buf) >= WATCHDOG_MIN_FW
    ensures FwLevel(buf) < WATCHDOG_MIN_FW ==> r == Err(FW_TOO_OLD)
    ensures FwLevel(buf) >= WATCHDOG_MIN_FW && !isOpen ==> r == Err(NOT_OPENED)
    ensures r.Ok? ==> r.value == (buf[WD_ENABLED], buf[WD_COUNTER])
  {
    if CheckFw(buf, WATCHDOG_MIN_FW as Byte) != OK then Err(FW_TOO_OLD)
    else if !isOpen then Err(NOT_OPENED)
    else Ok((buf[WD_ENABLED], buf[WD_COUNTER]))
  }

  /** Temperature of point k of a channel's response curve as
    * tban_getChCurve reports it: six points from the channel's block,
    * then the channel's maximum temperature. */
  function CurveX(buf: seq<Byte>, index: nat, k: nat): (t: Byte)
    requires |buf| == BUFSIZE && index < NUMBER_CHANNELS && k < 7
    ensures k < 6 ==> t == buf[53 + 6 * index + k]
    ensures k == 6 ==> t == buf[TEMP_MAXGRENZ0 + index]
  {
    if k < 6 then buf[CurveXMap[index] + k] else buf[TEMP_MAXGRENZ0 + index]
  }

  /** Pwm of point k of the curve: six points from the channel's block,
    * then full power at the maximum temperature. */
  function CurveY(buf: seq<Byte>, index: nat, k: nat): (p: Byte)
    requires |buf| == BUFSIZE && index < NUMBER_CHANNELS && k < 7
    ensures k < 6 ==> p == buf[77 + 6 * index + k]
    ensures k == 6 ==> p == 100
  {
    if k < 6 then buf[CurveYMap[index] + k] else 100
  }
}
