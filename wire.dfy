// The device's reading of the serial command stream: which register
// write each opcode of the command table stands for.  This is the
// reference every frame builder of the library is checked against: a
// frame is correct when the device decodes it into the intended writes.

module Wire {
  import opened Bytes
  import opened TBanDefs

  /** One command as the controller understands it. */
  datatype Op =
    | LedOn | LedOff | BuzzerOn | BuzzerOff
    | Source1 | Source2 | Request | MakeAbgl
    | WatchdogOn | WatchdogOff
    | SetPwm(ch: int, v: Byte)
    | PwmFreq(v: Byte)
    | Manual(mask: Byte)
    | InitPwm(ch: int, v: Byte)
    | OutputMode(mask: Byte)
    | Tacho(mask: Byte)
    | SensorScale(nr: int, v: Byte)
    | TargetTemp(ch: int, v: Byte)
    | TargetMode(ch: int, v: Byte)
    | AsScale(nr: int, v: Byte)
    | AsAbsScale(nr: int, v: Byte)
    | ErrUp(v: Byte) | ErrGrenz(v: Byte) | ErrDown(v: Byte)
    | CurveTemp(ch: int, pt: int, v: Byte)
    | CurvePwm(ch: int, pt: int, v: Byte)
    | MaxTemp(ch: int, v: Byte)
    | DsAbsScale(nr: int, v: Byte)
    | Hysteresis(ch: int, v: Byte)
    | DAssign(ch: int, v: Byte)
    | AAssign(ch: int, v: Byte)
    | BigAssign(ch: int, v: Byte)
    | Ping(mask: Byte)
    | MiniCurve(ch: int, pt: int, x: Byte, y: Byte)

  /** The one-byte commands. */
  function SingleOp(b: Byte): Option<Op> {
    if b == SER_LED_EIN then Some(LedOn)
    else if b == SER_LED_AUS then Some(LedOff)
    else if b == SER_BUZ_EIN then Some(BuzzerOn)
    else if b == SER_BUZ_AUS then Some(BuzzerOff)
    else if b == SER_SOURCE1 then Some(Source1)
    else if b == SER_SOURCE2 then Some(Source2)
    else if b == SER_REQUEST then Some(Request)
    else if b == SER_MAKE_ABGL then Some(MakeAbgl)
    else if b == USB_WATCHDOG_ON then Some(WatchdogOn)
    else if b == USB_WATCHDOG_OFF then Some(WatchdogOff)
    else None
  }

  /** The two-byte commands: opcode `b` followed by the value `v`. */
  function ValueOp(b: Byte, v: Byte): Option<Op> {
    if SER_SET1 <= b < SER_SET1 + 4 then Some(SetPwm(b - SER_SET1, v))
    else if b == SER_FREQ then Some(PwmFreq(v))
    else if b == SER_MAN then Some(Manual(v))
    else if SER_INIT1 <= b < SER_INIT1 + 4 then Some(InitPwm(b - SER_INIT1, v))
    else if b == BIGNG_SER_OUTMODE then Some(OutputMode(v))
    else if b == SER_OVER then Some(Tacho(v))
    else if SER_SKF <= b < SER_SKF + 4 then Some(SensorScale(b - SER_SKF, v))
    else if BIGNG_SER_ZT <= b < BIGNG_SER_ZT + 4 then Some(TargetTemp(b - BIGNG_SER_ZT, v))
    else if BIGNG_SER_MODE <= b < BIGNG_SER_MODE + 4 then Some(TargetMode(b - BIGNG_SER_MODE, v))
    else if BIGNG_SER_SKF <= b < BIGNG_SER_SKF + 4 then Some(AsScale(b - BIGNG_SER_SKF, v))
    else if BIGNG_SER_ADDFK_AS <= b < BIGNG_SER_ADDFK_AS + 4 then Some(AsAbsScale(b - BIGNG_SER_ADDFK_AS, v))
    else if b == SER_ERR_UP then Some(ErrUp(v))
    else if b == SER_ERR_GRENZ then Some(ErrGrenz(v))
    else if b == SER_ERR_DOWN then Some(ErrDown(v))
    else if SER_SET_KANAL1 <= b < SER_SET_MAX && (b - SER_SET_KANAL1) % 16 < 6 then
      Some(CurveTemp((b - SER_SET_KANAL1) / 16, (b - SER_SET_KANAL1) % 16, v))
    else if SER_SET_KANAL1 <= b < SER_SET_MAX && (b - SER_SET_KANAL1) % 16 < 12 then
      Some(CurvePwm((b - SER_SET_KANAL1) / 16, (b - SER_SET_KANAL1) % 16 - 6, v))
    else if SER_SET_MAX <= b < SER_SET_MAX + 4 then Some(MaxTemp(b - SER_SET_MAX, v))
    else if BIGNG_SER_ADDFK_DS <= b < BIGNG_SER_ADDFK_DS + 8 then Some(DsAbsScale(b - BIGNG_SER_ADDFK_DS, v))
    else if SER_SET_HYS <= b < SER_SET_HYS + 4 then Some(Hysteresis(b - SER_SET_HYS, v))
    else if SER_SET_ZUORD <= b < SER_SET_ZUORD + 4 then Some(DAssign(b - SER_SET_ZUORD, v))
    else if SER_SET_ZUORA <= b < SER_SET_ZUORA + 4 then Some(AAssign(b - SER_SET_ZUORA, v))
    else if BIGNG_SER_ZUORNG <= b < BIGNG_SER_ZUORNG + 4 then Some(BigAssign(b - BIGNG_SER_ZUORNG, v))
    else if b == SENS_PING then Some(Ping(v))
    else None
  }

  /** The function code of a miniNG pass-through frame. */
  function MiniFunction(fn: Byte, x: Byte, y: Byte): Option<Op> {
    if MINI_SETCURVE1 <= fn < MINI_SETCURVE1 + 5 then Some(MiniCurve(0, fn - MINI_SETCURVE1, x, y))
    else if MINI_SETCURVE2 <= fn < MINI_SETCURVE2 + 5 then Some(MiniCurve(1, fn - MINI_SETCURVE2, x, y))
    else None
  }

  /** The command at the head of a frame and how many bytes it takes. */
  function DecodeHead(f: seq<Byte>): (r: Option<(Op, nat)>)
    requires |f| > 0
    ensures r.Some? ==> 1 <= r.value.1 <= |f|
  {
    if SingleOp(f[0]).Some? then Some((SingleOp(f[0]).value, 1))
    else if f[0] == SER_MINI_S1 then
      if |f| >= 7 && f[2] == SER_MINI_S2 && f[4] == SER_MINI_S2_2 && f[6] == SER_MINI_SEND1
         && MiniFunction(f[1], f[3], f[5]).Some?
      then Some((MiniFunction(f[1], f[3], f[5]).value, 7))
      else None
    else if |f| >= 2 && ValueOp(f[0], f[1]).Some? then Some((ValueOp(f[0], f[1]).value, 2))
    else None
  }

  /** The commands a whole frame stands for, or None if the device
    * cannot make sense of it. */
  function Decode(f: seq<Byte>): Option<seq<Op>>
    decreases |f|
  {
    if |f| == 0 then Some([])
    else
      var h := DecodeHead(f);
      if h.None? then None
      else
        var rest := Decode(f[h.value.1..]);
        if rest.None? then None else Some([h.value.0] + rest.value)
  }

  /** The commands of a sequence of frames sent one after another. */
  function DecodeAll(fs: seq<seq<Byte>>): Option<seq<Op>>
  {
    if |fs| == 0 then Some([])
    else
      var a := Decode(fs[0]);
      var b := DecodeAll(fs[1..]);
      if a.Some? && b.Some? then Some(a.value + b.value) else None
  }

  /** Decoding is a parse of the frame: a one-command frame decodes into
    * that single command exactly when its head covers the whole frame. */
  lemma DecodeSingle(f: seq<Byte>, op: Op)
    requires |f| > 0 && DecodeHead(f) == Some((op, |f|))
    ensures Decode(f) == Some([op])
  {
    assert f[|f|..] == [];
    assert Decode(f[|f|..]) == Some([]);
    assert DecodeHead(f).value.0 == op;
    assert [op] + [] == [op];
  }

  /** Two commands in a row decode into both of them, in order. */
  lemma DecodeTwo(f: seq<Byte>, n: nat, a: Op, b: Op)
    requires 0 < n < |f|
    requires DecodeHead(f) == Some((a, n)) && DecodeHead(f[n..]) == Some((b, |f| - n))
    ensures Decode(f) == Some([a, b])
  {
    DecodeSingle(f[n..], b);
    assert DecodeHead(f).value.1 == n;
    assert [a] + [b] == [a, b];
  }

  /** Three commands in a row decode into all three, in order. */
  lemma DecodeThree(f: seq<Byte>, a: Op, b: Op, c: Op)
    requires |f| == 6
    requires DecodeHead(f) == Some((a, 2)) && DecodeHead(f[2..]) == Some((b, 2))
    requires DecodeHead(f[4..]) == Some((c, 2))
    ensures Decode(f) == Some([a, b, c])
  {
    assert f[2..][2..] == f[4..];
    DecodeTwo(f[2..], 2, b, c);
    assert DecodeHead(f).value.1 == 2;
    assert [a] + [b, c] == [a, b, c];
  }

  /** The frames of a command sequence decode frame by frame. */
  lemma {:induction false} DecodeAllAppend(a: seq<seq<Byte>>, b: seq<seq<Byte>>, ra: seq<Op>, rb: seq<Op>)
    requires DecodeAll(a) == Some(ra) && DecodeAll(b) == Some(rb)
    ensures DecodeAll(a + b) == Some(ra + rb)
    decreases |a|
  {
    if |a| == 0 {
      assert a + b == b;
      assert ra + rb == rb;
    } else {
      var ha := Decode(a[0]).value;
      var ta := DecodeAll(a[1..]).value;
      DecodeAllAppend(a[1..], b, ta, rb);
      assert (a + b)[1..] == a[1..] + b;
      assert (a + b)[0] == a[0];
      assert ra == ha + ta;
      assert ra + rb == ha + (ta + rb);
      assert DecodeAll(a + b) == Some(ha + (ta + rb));
    }
  }

  /** A one-byte frame decodes into its command. */
  lemma DecodeSingleByte(b: Byte, op: Op)
    requires SingleOp(b) == Some(op)
    ensures Decode([b]) == Some([op])
  {
    DecodeSingle([b], op);
  }

  /** No two-byte opcode is also a one-byte opcode or the miniNG prefix,
    * so a value command is always read as one. */
  lemma ValueOpHead(b: Byte, v: Byte, rest: seq<Byte>)
    requires ValueOp(b, v).Some?
    ensures DecodeHead([b, v] + rest) == Some((ValueOp(b, v).value, 2))
  {
    var f := [b, v] + rest;
    assert f[0] == b && f[1] == v;
    assert SingleOp(b).None?;
    assert b != SER_MINI_S1;
  }

  /** A frame of one two-byte command. */
  lemma DecodeValue(b: Byte, v: Byte, op: Op)
    requires ValueOp(b, v) == Some(op)
    ensures Decode([b, v]) == Some([op])
  {
    ValueOpHead(b, v, []);
    assert [b, v] + [] == [b, v];
    DecodeSingle([b, v], op);
  }

  /** A frame of two two-byte commands. */
  lemma DecodeValuePair(b0: Byte, v0: Byte, b1: Byte, v1: Byte, a: Op, c: Op)
    requires ValueOp(b0, v0) == Some(a) && ValueOp(b1, v1) == Some(c)
    ensures Decode([b0, v0, b1, v1]) == Some([a, c])
  {
    var f := [b0, v0, b1, v1];
    ValueOpHead(b0, v0, [b1, v1]);
    assert [b0, v0] + [b1, v1] == f;
    DecodeValue(b1, v1, c);
    assert f[2..] == [b1, v1];
    ValueOpHead(b1, v1, []);
    assert [b1, v1] + [] == [b1, v1];
    DecodeTwo(f, 2, a, c);
  }

  /** A frame of three two-byte commands. */
  lemma DecodeValueTriple(b0: Byte, v0: Byte, b1: Byte, v1: Byte, b2: Byte, v2: Byte, a: Op, c: Op, d: Op)
    requires ValueOp(b0, v0) == Some(a) && ValueOp(b1, v1) == Some(c) && ValueOp(b2, v2) == Some(d)
    ensures Decode([b0, v0, b1, v1, b2, v2]) == Some([a, c, d])
  {
    var f := [b0, v0, b1, v1, b2, v2];
    ValueOpHead(b0, v0, [b1, v1, b2, v2]);
    assert [b0, v0] + [b1, v1, b2, v2] == f;
    assert f[2..] == [b1, v1] + [b2, v2];
    ValueOpHead(b1, v1, [b2, v2]);
    assert f[4..] == [b2, v2] + [];
    ValueOpHead(b2, v2, []);
    DecodeThree(f, a, c, d);
  }

  /** A miniNG pass-through frame decodes into its function. */
  lemma DecodeMiniFrame(fn: Byte, x: Byte, y: Byte, op: Op)
    requires MiniFunction(fn, x, y) == Some(op)
    ensures Decode([SER_MINI_S1, fn, SER_MINI_S2, x, SER_MINI_S2_2, y, SER_MINI_SEND1]) == Some([op])
  {
    var f: seq<Byte> := [SER_MINI_S1, fn, SER_MINI_S2, x, SER_MINI_S2_2, y, SER_MINI_SEND1];
    assert SingleOp(f[0]).None?;
    DecodeSingle(f, op);
  }

  /** All command groups, one after another. */
  function Concat(oss: seq<seq<Op>>): seq<Op>
  {
    if |oss| == 0 then [] else oss[0] + Concat(oss[1..])
  }

  /** Frames that each decode on their own decode together into the
    * concatenation of their commands. */
  lemma {:induction false} DecodeAllEach(fs: seq<seq<Byte>>, oss: seq<seq<Op>>)
    requires |fs| == |oss|
    requires forall i :: 0 <= i < |fs| ==> Decode(fs[i]) == Some(oss[i])
    ensures DecodeAll(fs) == Some(Concat(oss))
    decreases |fs|
  {
    if |fs| > 0 {
      DecodeAllEach(fs[1..], oss[1..]);
    }
  }

  /** A single frame on its own. */
  lemma DecodeAllOne(f: seq<Byte>, ops: seq<Op>)
    requires Decode(f) == Some(ops)
    ensures DecodeAll([f]) == Some(ops)
  {
    assert [f][1..] == [];
    assert ops + [] == ops;
  }
}
