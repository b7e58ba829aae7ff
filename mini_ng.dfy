// The miniNG: a two-channel unit reached through the T-Balancer's second
// serial source.  Its status vector is the first 128 bytes of the answer
// to a query on that source; commands reach it as seven-byte
// pass-through frames (module Wire decodes them).

module MiniNG {
  import opened Bytes
  import opened TBanDefs
  import opened Wire
  import Messages

  const MINI_BUF_LENGTH: int := 128

  // ---- Positions in the miniNG vector ----
  const STATUS: int := 2
  const JUMPER: int := 3
  const POT1: int := 4
  const POT2: int := 5
  const UEBERTEMP1: int := 18
  const TIMEBASE: int := 57
  const HYSTERESE_CH1: int := 58
  const START_TWI: int := 1
  const END_TWI: int := 62
  /** The pass-through buffer of the T-Balancer: all three zero once the
    * last frame has been clocked into the miniNG. */
  const TBAN_BUFFER_B1: int := 63
  const TBAN_BUFFER_B2: int := 64
  const TBAN_BUFFER_B3: int := 65
  const ABSCAL1: int := 77

  const ChCurveXMap: seq<int> := [20, 30]
  const ChCurveYMap: seq<int> := [25, 35]
  const ChRpmMap: seq<int> := [44, 46]
  const ChMaxRpmMap: seq<int> := [45, 47]
  const ChTempMap: seq<int> := [6, 7]
  const ChCalTempMap: seq<int> := [8, 9]

  const PRESENT: int := 1
  const NOT_PRESENT: int := 0

  /** The miniNG answers with the marker 100 and frames its own part of
    * the vector with 253 and 254. */
  predicate Framed(miniBuf: seq<Byte>)
    requires |miniBuf| == MINI_BUF_LENGTH
  {
    miniBuf[0] == PRESENT_MARKER && miniBuf[START_TWI] == 253 && miniBuf[END_TWI] == 254
  }

  function Present(miniBuf: seq<Byte>): (r: int)
    requires |miniBuf| == MINI_BUF_LENGTH
    ensures r == PRESENT || r == NOT_PRESENT
    ensures r == PRESENT <==> (miniBuf[0] == 100 && miniBuf[1] == 253 && miniBuf[62] == 254)
  {
    if Framed(miniBuf) then PRESENT else NOT_PRESENT
  }

  /** The T-Balancer has handed on every byte of the last pass-through
    * frame. */
  predicate PassThroughIdle(miniBuf: seq<Byte>)
    requires |miniBuf| == MINI_BUF_LENGTH
  {
    miniBuf[TBAN_BUFFER_B1] == 0 && miniBuf[TBAN_BUFFER_B2] == 0 && miniBuf[TBAN_BUFFER_B3] == 0
  }

  /** One byte of the miniNG vector (unchecked index, as in the library). */
  function GetValue(isOpen: bool, miniBuf: seq<Byte>, index: nat): (r: Result<Byte>)
    requires |miniBuf| == MINI_BUF_LENGTH && index < MINI_BUF_LENGTH
    ensures r.Ok? <==> isOpen
    ensures r.Ok? ==> r.value == miniBuf[index]
    ensures r.Err? ==> r.code == NOT_OPENED
  {
    if !isOpen then Err(NOT_OPENED) else Ok(miniBuf[index])
  }

  datatype SensorReading = SensorReading(temp: Byte, rawTemp: Byte, cal: Byte)

  /** An analog sensor: the index is checked before the open flag. */
  function GetASensorTemp(isOpen: bool, miniBuf: seq<Byte>, index: nat): (r: Result<SensorReading>)
    requires |miniBuf| == MINI_BUF_LENGTH
    ensures r.Ok? <==> isOpen && index < MINI_NG_NUMBER_ANALOG_SENSORS
    ensures index >= MINI_NG_NUMBER_ANALOG_SENSORS ==> r == Err(INDEX_OUT_OF_BOUNDS)
    ensures index < MINI_NG_NUMBER_ANALOG_SENSORS && !isOpen ==> r == Err(NOT_OPENED)
    ensures r.Ok? ==> r.value == SensorReading(miniBuf[6 + index], miniBuf[8 + index], miniBuf[77 + index])
  {
    if index >= MINI_NG_NUMBER_ANALOG_SENSORS then Err(INDEX_OUT_OF_BOUNDS)
    else if !isOpen then Err(NOT_OPENED)
    else Ok(SensorReading(miniBuf[ChTempMap[index]], miniBuf[ChCalTempMap[index]], miniBuf[ABSCAL1 + index]))
  }

  /** Current and maximum rpm byte of a channel; the library bounds the
    * channel by the number of analog sensors, which is also two. */
  function GetChRpm(isOpen: bool, miniBuf: seq<Byte>, index: nat): (r: Result<(Byte, Byte)>)
    requires |miniBuf| == MINI_BUF_LENGTH
    ensures r.Ok? <==> isOpen && index < MINI_NG_NUMBER_ANALOG_SENSORS
    ensures index >= MINI_NG_NUMBER_ANALOG_SENSORS ==> r == Err(INDEX_OUT_OF_BOUNDS)
    ensures index < MINI_NG_NUMBER_ANALOG_SENSORS && !isOpen ==> r == Err(NOT_OPENED)
    ensures r.Ok? ==> r.value == (miniBuf[44 + 2 * index], miniBuf[45 + 2 * index])
  {
    if index >= MINI_NG_NUMBER_ANALOG_SENSORS then Err(INDEX_OUT_OF_BOUNDS)
    else if !isOpen then Err(NOT_OPENED)
    else Ok((miniBuf[ChRpmMap[index]], miniBuf[ChMaxRpmMap[index]]))
  }

  /** Hysteresis of a channel: here the open flag is checked first. */
  function GetChHysteresis(isOpen: bool, miniBuf: seq<Byte>, index: Byte): (r: Result<Byte>)
    requires |miniBuf| == MINI_BUF_LENGTH
    ensures r.Ok? <==> isOpen && index < MINI_NG_NUMBER_CHANNELS
    ensures !isOpen ==> r == Err(NOT_OPENED)
    ensures isOpen && index >= MINI_NG_NUMBER_CHANNELS ==> r == Err(INDEX_OUT_OF_BOUNDS)
    ensures r.Ok? ==> r.value == miniBuf[58 + index]
  {
    if !isOpen then Err(NOT_OPENED)
    else if index >= MINI_NG_NUMBER_CHANNELS then Err(INDEX_OUT_OF_BOUNDS)
    else Ok(miniBuf[HYSTERESE_CH1 + index])
  }

  /** Over-temperature limit of a channel (bounded like a sensor). */
  function GetChOverTemp(isOpen: bool, miniBuf: seq<Byte>, index: nat): (r: Result<Byte>)
    requires |miniBuf| == MINI_BUF_LENGTH
    ensures r.Ok? <==> isOpen && index < MINI_NG_NUMBER_ANALOG_SENSORS
    ensures index >= MINI_NG_NUMBER_ANALOG_SENSORS ==> r == Err(INDEX_OUT_OF_BOUNDS)
    ensures index < MINI_NG_NUMBER_ANALOG_SENSORS && !isOpen ==> r == Err(NOT_OPENED)
    ensures r.Ok? ==> r.value == miniBuf[18 + index]
  {
    if index >= MINI_NG_NUMBER_ANALOG_SENSORS then Err(INDEX_OUT_OF_BOUNDS)
    else if !isOpen then Err(NOT_OPENED)
    else Ok(miniBuf[UEBERTEMP1 + index])
  }

  datatype HwInfo = HwInfo(status: Byte, jumper: Byte, pot1: Byte, pot2: Byte, timebase: Byte)

  function GetHwInfo(isOpen: bool, miniBuf: seq<Byte>): (r: Result<HwInfo>)
    requires |miniBuf| == MINI_BUF_LENGTH
    ensures r.Ok? <==> isOpen
    ensures r.Err? ==> r.code == NOT_OPENED
    ensures r.Ok? ==> r.value == HwInfo(miniBuf[2], miniBuf[3], miniBuf[4], miniBuf[5], miniBuf[57])
  {
    if !isOpen then Err(NOT_OPENED)
    else Ok(HwInfo(miniBuf[STATUS], miniBuf[JUMPER], miniBuf[POT1], miniBuf[POT2], miniBuf[TIMEBASE]))
  }

  /** Temperature axis of a channel's response curve as the getter fills
    * it: the curve starts at 0 degrees, and the five stored points are
    * kept in half degrees. */
  function CurveX(miniBuf: seq<Byte>, index: nat, k: nat): (t: Byte)
    requires |miniBuf| == MINI_BUF_LENGTH && index < MINI_NG_NUMBER_CHANNELS && k < 6
    ensures k == 0 ==> t == 0
    ensures k > 0 ==> 2 * t as int <= miniBuf[ChCurveXMap[index] + k - 1] < 2 * t as int + 2
  {
    if k == 0 then 0 else miniBuf[ChCurveXMap[index] + k - 1] / 2
  }

  /** Pwm axis of the curve: the five stored points, then 100 percent. */
  function CurveY(miniBuf: seq<Byte>, index: nat, k: nat): (p: Byte)
    requires |miniBuf| == MINI_BUF_LENGTH && index < MINI_NG_NUMBER_CHANNELS && k < 6
    ensures k == 5 ==> p == 100
    ensures k < 5 ==> p == miniBuf[ChCurveYMap[index] + k]
  {
    if k == 5 then 100 else miniBuf[ChCurveYMap[index] + k]
  }

  // ---- Curve upload ----

  /** Pass-through frame for point i of the curve of channel nr: the
    * function code, the temperature (doubled) and the pwm, then the
    * send marker. */
  function CurveFrame(nr: int, i: int, x: Byte, y: Byte): (f: seq<Byte>)
    ensures |f| == 7
  {
    [SER_MINI_S1, Trunc8(MINI_SETCURVE1 + 16 * nr + i), SER_MINI_S2, Trunc8(2 * x as int),
     SER_MINI_S2_2, y, SER_MINI_SEND1]
  }

  function CurveFrames(nr: int, x: seq<Byte>, y: seq<Byte>): (fs: seq<seq<Byte>>)
    requires |x| >= 5 && |y| >= 5
    ensures |fs| == 5 && forall i :: 0 <= i < 5 ==> fs[i] == CurveFrame(nr, i, x[i], y[i])
  {
    seq(5, i requires 0 <= i < 5 => CurveFrame(nr, i, x[i], y[i]))
  }

  /** miniNG_setChCurve's checks as written: the channel guard rejects
    * only nr > 2, so channel number 2 is let through. */
  function SetChCurveAsWritten(isOpen: bool, nr: int, x: seq<Byte>, y: seq<Byte>): (c: Cmd)
    requires |x| >= 5 && |y| >= 5
    ensures nr > MINI_NG_NUMBER_CHANNELS ==> c == Reject(INDEX_OUT_OF_BOUNDS)
    ensures nr <= MINI_NG_NUMBER_CHANNELS && !isOpen ==> c == Reject(NOT_OPENED)
    ensures nr <= MINI_NG_NUMBER_CHANNELS && isOpen ==> c == Frames(CurveFrames(nr, x, y))
  {
    if nr > MINI_NG_NUMBER_CHANNELS then Reject(INDEX_OUT_OF_BOUNDS)
    else if !isOpen then Reject(NOT_OPENED)
    else Frames(CurveFrames(nr, x, y))
  }

  /** With channel number 2 every frame carries function code 0x50+i,
    * which is no miniNG function: nothing the library sends can be
    * carried out. */
  lemma SetChCurveChannelTwoUndecodable(x: seq<Byte>, y: seq<Byte>)
    requires |x| >= 5 && |y| >= 5
    ensures SetChCurveAsWritten(true, 2, x, y).Frames?
    ensures forall i :: 0 <= i < 5 ==> Decode(SetChCurveAsWritten(true, 2, x, y).frames[i]) == None
  {
    var fs := SetChCurveAsWritten(true, 2, x, y).frames;
    forall i | 0 <= i < 5
      ensures Decode(fs[i]) == None
    {
      assert fs[i][1] == 0x50 + i;
      assert MiniFunction(fs[i][1], fs[i][3], fs[i][5]).None?;
      assert DecodeHead(fs[i]).None?;
    }
  }

  /** The checks evidently intended: only channels 0 and 1 are accepted,
    * and then point i of the upload sets point i of that channel. */
  function SetChCurve(isOpen: bool, nr: int, x: seq<Byte>, y: seq<Byte>): (c: Cmd)
    requires |x| >= 5 && |y| >= 5
    ensures c.Frames? <==> isOpen && 0 <= nr < MINI_NG_NUMBER_CHANNELS
    ensures !(0 <= nr < MINI_NG_NUMBER_CHANNELS) ==> c == Reject(INDEX_OUT_OF_BOUNDS)
    ensures 0 <= nr < MINI_NG_NUMBER_CHANNELS && !isOpen ==> c == Reject(NOT_OPENED)
    ensures c.Frames? ==> (|c.frames| == 5
      && forall i :: 0 <= i < 5 ==> Decode(c.frames[i]) == Some([MiniCurve(nr, i, Trunc8(2 * x[i] as int), y[i])]))
  {
    if nr < 0 || nr >= MINI_NG_NUMBER_CHANNELS then Reject(INDEX_OUT_OF_BOUNDS)
    else if !isOpen then Reject(NOT_OPENED)
    else
      CurveFramesDecode(nr, x, y);
      Frames(CurveFrames(nr, x, y))
  }

  lemma CurveFramesDecode(nr: int, x: seq<Byte>, y: seq<Byte>)
    requires 0 <= nr < MINI_NG_NUMBER_CHANNELS && |x| >= 5 && |y| >= 5
    ensures forall i :: 0 <= i < 5 ==>
      Decode(CurveFrames(nr, x, y)[i]) == Some([MiniCurve(nr, i, Trunc8(2 * x[i] as int), y[i])])
  {
    forall i | 0 <= i < 5
      ensures Decode(CurveFrames(nr, x, y)[i]) == Some([MiniCurve(nr, i, Trunc8(2 * x[i] as int), y[i])])
    {
      var fn := MINI_SETCURVE1 + 16 * nr + i;
      assert MiniFunction(fn, Trunc8(2 * x[i] as int), y[i]) == Some(MiniCurve(nr, i, Trunc8(2 * x[i] as int), y[i]));
      DecodeMiniFrame(fn, Trunc8(2 * x[i] as int), y[i], MiniCurve(nr, i, Trunc8(2 * x[i] as int), y[i]));
    }
  }

  /** What the upload as written carries on every channel its guard lets
    * through: for a real channel that channel's curve, for channel 2
    * frames that name no miniNG function. */
  lemma SetChCurveAsWrittenDecodes(isOpen: bool, nr: int, x: seq<Byte>, y: seq<Byte>)
    requires |x| >= 5 && |y| >= 5
    ensures SetChCurveAsWritten(isOpen, nr, x, y).Frames? && 0 <= nr < MINI_NG_NUMBER_CHANNELS ==>
      var fs := SetChCurveAsWritten(isOpen, nr, x, y).frames;
      |fs| == 5 && forall i :: 0 <= i < 5 ==> Decode(fs[i]) == Some([MiniCurve(nr, i, Trunc8(2 * x[i] as int), y[i])])
    ensures SetChCurveAsWritten(isOpen, nr, x, y).Frames? && nr == MINI_NG_NUMBER_CHANNELS ==>
      forall i :: 0 <= i < 5 ==> Decode(SetChCurveAsWritten(isOpen, nr, x, y).frames[i]) == None
  {
    if isOpen && 0 <= nr < MINI_NG_NUMBER_CHANNELS {
      SetChCurveGuardsAgree(isOpen, nr, x, y);
    }
    if isOpen && nr == MINI_NG_NUMBER_CHANNELS {
      SetChCurveChannelTwoUndecodable(x, y);
    }
  }

  /** The two guards agree on every channel except number 2. */
  lemma SetChCurveGuardsAgree(isOpen: bool, nr: int, x: seq<Byte>, y: seq<Byte>)
    requires |x| >= 5 && |y| >= 5 && 0 <= nr && nr != MINI_NG_NUMBER_CHANNELS
    ensures SetChCurve(isOpen, nr, x, y) == SetChCurveAsWritten(isOpen, nr, x, y)
  {
  }

  // ---- Status texts ----

  const STATUS_ENTRY_SIZE: nat := 16

  const StatusText: seq<string> := [
    "nothing",
    "remote control active channel A",
    "remote control active channel B",
    "remote control active both channels",
    "no sensor found at channel A",
    "no sensor found at channel B",
    "no sensor found on both channels",
    "RPM fail at channel A",
    "RPM fail at channel B",
    "RPM fail at both channels",
    "fan block at channel A",
    "fan block at channel B ",
    "fan block at both channels",
    "channel 1 overtemp",
    "channel 2 overtemp",
    "both channels overtemp"
  ]

  /** The table's codes: entry k carries code k. */
  function StatusCodes(): (cs: seq<int>)
    ensures |cs| == |StatusText| && forall k :: 0 <= k < |cs| ==> cs[k] == k
  {
    seq(|StatusText|, k requires 0 <= k < |StatusText| => k)
  }

  /** The text of a miniNG status code, over the entries of the table. */
  function StrStat(code: nat): (r: Option<string>)
    ensures r.Some? <==> code < 16
    ensures r.Some? ==> r.value == StatusText[code]
  {
    var cs := StatusCodes();
    Messages.ScanWithinTable(cs, code, 0);
    assert code < 16 ==> cs[code] == code;
    var s := Messages.ScanFrom(cs, code, |cs|, 0);
    if s.Found? then Some(StatusText[s.index]) else None
  }

  /** The loop as written is bounded by the table's size in bytes: a code
    * outside 0..15 reads the entry after the last. */
  lemma StrStatReadsPastTable(code: nat)
    requires code >= 16
    ensures Messages.ScanFrom(StatusCodes(), code, |StatusText| * STATUS_ENTRY_SIZE, 0)
         == Messages.PastEnd(16)
    ensures StrStat(code) == None
  {
    Messages.ScanPastTable(StatusCodes(), code, |StatusText| * STATUS_ENTRY_SIZE, 0);
  }
}
