// The library handle, `struct TBan`: the open and lock flags, the lock
// file settings, the three status caches (the classic unit's 300-byte
// receive buffer, the BigNG vector and the miniNG vector), the time of
// each cache's last good query, the configured names, and the serial
// line the handle talks over.  The functions of tban.c, big_ng.c and
// mini_ng.c that change the handle are methods here; the getters and
// frame builders that only read it live in their own modules.

module Handle {
  import opened Bytes
  import opened TBanDefs
  import opened Serial
  import opened HostEnv
  import opened Ascii
  import TBanStatus
  import TBanCmds
  import BigNG
  import MiniNG
  import Parser

  /** The pause after every successful send, in nanoseconds. */
  const COMMAND_DELAY_NS: int := 25000000
  /** The extra pause after a miniNG send and between polls. */
  const MINI_NG_COMMAND_DELAY_NS: int := 250000000
  const DEFAULT_LOCKFILE: string := "/tmp/xban.lock"
  const DEFAULT_LOCK_TIMEOUT: int := 10
  /** `sizeof(tban->buf)`: the size of a pointer on the LP64 systems the
    * library targets, so tban_init clears only this many bytes. */
  const PTR_BYTES: nat := 8

  /** Outcome of the port set-up steps of tban_open after the lock is
    * taken: the device open, sigemptyset, sigaction, and the fcntl and
    * termios calls. */
  datatype Setup = SetupOk | DeviceOpenFails | SigEmptySetFails | SigActionFails | PortConfigFails

  /** The status tban_open returns for a failed set-up step. */
  function SetupError(s: Setup): (r: int)
    ensures s.SetupOk? <==> r == OK
  {
    match s
    case SetupOk => OK
    case DeviceOpenFails => EOPEN
    case SigEmptySetFails => ESIGEMPTYSET
    case SigActionFails => ESIGACTION
    case PortConfigFails => EOPEN
  }

  /** memcpy of `src` into `dest` at offset `at`. */
  method CopyInto(dest: array<Byte>, at: nat, src: seq<Byte>)
    requires at + |src| <= dest.Length
    modifies dest
    ensures dest[..] == old(dest[..at]) + src + old(dest[at + |src|..])
  {
    var j := 0;
    while j < |src|
      invariant 0 <= j <= |src|
      invariant dest[..] == old(dest[..at]) + src[..j] + old(dest[at + j..])
    {
      dest[at + j] := src[j];
      j := j + 1;
      assert src[..j] == src[..j - 1] + [src[j - 1]];
    }
    assert src[..j] == src;
  }

  class TBan {
    var isOpen: bool
    var locked: bool
    var lockTimeout: int
    var lockfile: string
    /** The classic status vector (285 of its 300 bytes are filled by a
      * query). */
    const buf: array<Byte>
    const bigBuf: array<Byte>
    const miniBuf: array<Byte>
    var lastQuery: int
    var bigLastQuery: int
    var miniLastQuery: int
    var names: Parser.Names
    /** Every frame the port accepted, in order. */
    var sent: seq<seq<Byte>>
    /** Outcomes of the coming writes. */
    var txScript: seq<bool>
    /** Chunks the coming reads return. */
    var rx: seq<seq<Byte>>
    /** Total time slept after sends, in nanoseconds. */
    var delayNs: int

    predicate Valid()
      reads this
    {
      buf.Length == BUFSIZE && bigBuf.Length == BigNG.BIGNG_BUF_LENGTH &&
      miniBuf.Length == MiniNG.MINI_BUF_LENGTH &&
      Parser.WellSized(names) && ChunksFit(rx)
    }

    /** tban_init followed by miniNG_init and bigNG_init: closed and
      * unlocked, the default lock file and timeout, default names, and a
      * receive buffer of which only the first PTR_BYTES bytes are
      * cleared; the rest keeps what the allocation held (`heap`).  The
      * device's behaviour on the line is given by `tx` and `chunks`. */
    constructor (heap: seq<Byte>, tx: seq<bool>, chunks: seq<seq<Byte>>)
      requires |heap| == BUFSIZE && ChunksFit(chunks)
      ensures Valid() && fresh(buf) && fresh(bigBuf) && fresh(miniBuf)
      ensures !isOpen && !locked && lockfile == DEFAULT_LOCKFILE && lockTimeout == DEFAULT_LOCK_TIMEOUT
      ensures lastQuery == 0 && names == Parser.DefaultNames()
      ensures forall i :: 0 <= i < BUFSIZE ==> buf[i] == if i < PTR_BYTES then 0 else heap[i]
      ensures sent == [] && txScript == tx && rx == chunks && delayNs == 0
    {
      isOpen := false;
      locked := false;
      lockfile := DEFAULT_LOCKFILE;
      lockTimeout := DEFAULT_LOCK_TIMEOUT;
      lastQuery := 0;
      bigLastQuery := 0;
      miniLastQuery := 0;
      names := Parser.DefaultNames();
      buf := new Byte[BUFSIZE](i => if 0 <= i < PTR_BYTES || !(0 <= i < |heap|) then 0 else heap[i]);
      bigBuf := new Byte[BigNG.BIGNG_BUF_LENGTH](_ => 0);
      miniBuf := new Byte[MiniNG.MINI_BUF_LENGTH](_ => 0);
      sent := [];
      txScript := tx;
      rx := chunks;
      delayNs := 0;
    }

    // ---- Sending ----

    /** tban_sendCommand: refused on a closed handle; otherwise one write,
      * followed by the command delay when it went out. */
    method SendCommand(frame: seq<Byte>) returns (r: int)
      requires Valid()
      modifies this`sent, this`txScript, this`delayNs
      ensures Valid()
      ensures !isOpen ==> r == NOT_OPENED && unchanged(this)
      ensures isOpen ==> r == (if WriteOk(old(txScript)) then OK else ESEND)
      ensures isOpen ==> txScript == DropN(old(txScript), 1)
      ensures isOpen ==> sent == old(sent) + (if r == OK then [frame] else [])
      ensures isOpen ==> delayNs == old(delayNs) + (if r == OK then COMMAND_DELAY_NS else 0)
    {
      if !isOpen {
        return NOT_OPENED;
      }
      var ok := WriteOk(txScript);
      txScript := DropN(txScript, 1);
      if !ok {
        return ESEND;
      }
      sent := sent + [frame];
      delayNs := delayNs + COMMAND_DELAY_NS;
      r := OK;
    }

    /** miniNG_sendCommand: a send with the longer miniNG pause after a
      * success. */
    method MiniSendCommand(frame: seq<Byte>) returns (r: int)
      requires Valid()
      modifies this`sent, this`txScript, this`delayNs
      ensures Valid()
      ensures !isOpen ==> r == NOT_OPENED && unchanged(this)
      ensures isOpen ==> r == (if WriteOk(old(txScript)) then OK else ESEND)
      ensures isOpen ==> txScript == DropN(old(txScript), 1)
      ensures isOpen ==> sent == old(sent) + (if r == OK then [frame] else [])
      ensures isOpen ==> delayNs == old(delayNs) + (if r == OK then COMMAND_DELAY_NS + MINI_NG_COMMAND_DELAY_NS else 0)
    {
      r := SendCommand(frame);
      if r == OK {
        delayNs := delayNs + MINI_NG_COMMAND_DELAY_NS;
      }
    }

    /** The frames of one command function sent in order, each send
      * checked and the first failure returned: exactly the frames before
      * the first refused write go out. */
    method Execute(frames: seq<seq<Byte>>) returns (r: int)
      requires Valid()
      modifies this`sent, this`txScript, this`delayNs
      ensures Valid()
      ensures !isOpen && |frames| > 0 ==> r == NOT_OPENED && unchanged(this)
      ensures isOpen || |frames| == 0 ==>
        var k := Accepted(old(txScript), |frames|);
        r == (if k == |frames| then OK else ESEND) &&
        sent == old(sent) + frames[..k] &&
        txScript == DropN(old(txScript), if k < |frames| then k + 1 else k) &&
        delayNs == old(delayNs) + k * COMMAND_DELAY_NS
    {
      var i := 0;
      while i < |frames|
        invariant 0 <= i <= |frames| && Valid()
        invariant forall j :: 0 <= j < i ==> WriteOk(DropN(old(txScript), j))
        invariant sent == old(sent) + frames[..i] && txScript == DropN(old(txScript), i)
        invariant delayNs == old(delayNs) + i * COMMAND_DELAY_NS
        invariant isOpen == old(isOpen) && (i > 0 ==> isOpen)
      {
        r := SendCommand(frames[i]);
        assert DropN(DropN(old(txScript), i), 1) == DropN(old(txScript), i + 1);
        if r != OK {
          if isOpen {
            AcceptedAt(old(txScript), |frames|, i);
          }
          return;
        }
        assert frames[..i + 1] == frames[..i] + [frames[i]];
        i := i + 1;
      }
      AcceptedAt(old(txScript), |frames|, i);
      assert frames[..i] == frames;
      r := OK;
    }

    /** The command functions: a refusal returns its status and sends
      * nothing; otherwise the frames are sent as by Execute. */
    method Run(c: Cmd) returns (r: int)
      requires Valid()
      modifies this`sent, this`txScript, this`delayNs
      ensures Valid()
      ensures c.Reject? ==> r == c.code && unchanged(this)
      ensures c.Frames? && (isOpen || |c.frames| == 0) ==>
        var k := Accepted(old(txScript), |c.frames|);
        r == (if k == |c.frames| then OK else ESEND) && sent == old(sent) + c.frames[..k]
    {
      if c.Reject? {
        return c.code;
      }
      r := Execute(c.frames);
    }

    // ---- Receiving ----

    /** tban_readData into `dest`: the bytes of the reception are stored
      * at the front of `dest`, the chunks it took are gone from the
      * line, and nothing else changes. */
    method ReadData(dest: array<Byte>, expected: nat) returns (r: int)
      requires Valid() && expected <= dest.Length
      modifies this`rx, dest
      ensures Valid()
      ensures !isOpen ==> r == NOT_OPENED && rx == old(rx) && dest[..] == old(dest[..])
      ensures isOpen ==> var v := ReadSpec(old(rx), expected);
        r == v.code && rx == old(rx)[v.consumed..] && Filled(old(dest[..]), dest[..], v.data)
    {
      if !isOpen {
        return NOT_OPENED;
      }
      ghost var rx0 := rx;
      ghost var d0 := dest[..];
      if |rx| == 0 {
        return ERECEIVE;
      }
      var chunk := rx[0];
      rx := rx[1..];
      if expected == 0 {
        return ERECEIVE;
      }
      var currdest: nat := 0;
      ghost var k: nat := 1;
      ghost var stored: seq<Byte> := [];
      PendingStart(rx0, expected);
      while currdest < expected
        invariant 1 <= k <= |rx0| && rx == rx0[k..] && chunk == rx0[k - 1] && ChunksFit(rx)
        invariant currdest == |stored| <= expected && Filled(d0, dest[..], stored)
        invariant currdest < expected ==> Pending(rx0, expected, k, stored)
        invariant currdest == expected ==> Gather(rx0, expected) == (k, stored)
        decreases |rx| + expected - currdest
      {
        var need := expected - currdest;
        var n := if |chunk| >= need then need else |chunk|;
        PendingStep(rx0, expected, k, stored);
        ghost var before := dest[..];
        CopyInto(dest, currdest, chunk[..n]);
        FilledMore(d0, before, dest[..], stored, chunk[..n]);
        stored := stored + chunk[..n];
        currdest := currdest + n;
        if currdest < expected {
          assert chunk[..n] == chunk;
          if |rx| == 0 {
            assert rx0[..k] == rx0;
            return ERECEIVE;
          }
          chunk := rx[0];
          rx := rx[1..];
          k := k + 1;
        }
      }
      r := OK;
    }

    /** tban_queryStatus: the request goes to the primary source and the
      * 285-byte answer lands in the receive buffer, even when it turns
      * out not to start with the marker; only a good answer updates the
      * time of the last query. */
    method QueryStatus(now: int) returns (r: int)
      requires Valid()
      modifies this`sent, this`txScript, this`delayNs, this`rx, this`lastQuery, buf
      ensures Valid()
      ensures !isOpen ==> r == NOT_OPENED && unchanged(this) && buf[..] == old(buf[..])
      ensures isOpen && !WriteOk(old(txScript)) ==>
        r == ESEND && sent == old(sent) && rx == old(rx) && buf[..] == old(buf[..]) && lastQuery == old(lastQuery)
      ensures isOpen && WriteOk(old(txScript)) ==>
        sent == old(sent) + [TBanCmds.QueryFrame] &&
        var v := ReadSpec(old(rx), STATUS_LENGTH);
        rx == old(rx)[v.consumed..] && Filled(old(buf[..]), buf[..], v.data) &&
        r == (if v.code != OK then v.code else if v.data[0] == PRESENT_MARKER then OK else CORRUPT_DATA) &&
        lastQuery == (if r == OK then now else old(lastQuery))
    {
      r := SendCommand(TBanCmds.QueryFrame);
      if r != OK {
        return;
      }
      r := ReadData(buf, STATUS_LENGTH);
      if r != OK {
        return;
      }
      if TBanStatus.Present(buf[..]) != OK {
        return CORRUPT_DATA;
      }
      lastQuery := now;
    }

    /** bigNG_queryStatus: the same exchange on the second source, into
      * the BigNG vector. */
    method BigQueryStatus(now: int) returns (r: int)
      requires Valid()
      modifies this`sent, this`txScript, this`delayNs, this`rx, this`bigLastQuery, bigBuf
      ensures Valid()
      ensures !isOpen ==> r == NOT_OPENED && unchanged(this) && bigBuf[..] == old(bigBuf[..])
      ensures isOpen && !WriteOk(old(txScript)) ==>
        r == ESEND && sent == old(sent) && rx == old(rx) && bigBuf[..] == old(bigBuf[..]) && bigLastQuery == old(bigLastQuery)
      ensures isOpen && WriteOk(old(txScript)) ==>
        sent == old(sent) + [BigNG.QueryFrame] &&
        var v := ReadSpec(old(rx), STATUS_LENGTH);
        rx == old(rx)[v.consumed..] && Filled(old(bigBuf[..]), bigBuf[..], v.data) &&
        r == (if v.code != OK then v.code else if v.data[0] == PRESENT_MARKER then OK else CORRUPT_DATA) &&
        bigLastQuery == (if r == OK then now else old(bigLastQuery))
    {
      r := SendCommand(BigNG.QueryFrame);
      if r != OK {
        return;
      }
      r := ReadData(bigBuf, STATUS_LENGTH);
      if r != OK {
        return;
      }
      if BigNG.DataPresent(bigBuf[..]) != OK {
        return CORRUPT_DATA;
      }
      bigLastQuery := now;
    }

    /** miniNG_queryStatus: the answer is received into a local vector and
      * its first 128 bytes are copied to the miniNG cache before the
      * framing check; a failed reception leaves the cache alone. */
    method MiniQueryStatus(now: int) returns (r: int)
      requires Valid()
      modifies this`sent, this`txScript, this`delayNs, this`rx, this`miniLastQuery, miniBuf
      ensures Valid()
      ensures !isOpen ==> r == NOT_OPENED && unchanged(this) && miniBuf[..] == old(miniBuf[..])
      ensures isOpen && !WriteOk(old(txScript)) ==>
        r == ESEND && sent == old(sent) && rx == old(rx) && miniBuf[..] == old(miniBuf[..]) && miniLastQuery == old(miniLastQuery)
      ensures isOpen && WriteOk(old(txScript)) ==>
        sent == old(sent) + [BigNG.QueryFrame] &&
        var v := ReadSpec(old(rx), STATUS_LENGTH);
        rx == old(rx)[v.consumed..] &&
        (v.code != OK ==> r == v.code && miniBuf[..] == old(miniBuf[..])) &&
        (v.code == OK ==> miniBuf[..] == v.data[..MiniNG.MINI_BUF_LENGTH] &&
                          r == (if MiniNG.Framed(miniBuf[..]) then OK else CORRUPT_DATA)) &&
        miniLastQuery == (if r == OK then now else old(miniLastQuery))
    {
      r := SendCommand(BigNG.QueryFrame);
      if r != OK {
        return;
      }
      var local := new Byte[STATUS_LENGTH](_ => 0);
      r := ReadData(local, STATUS_LENGTH);
      if r != OK {
        return;
      }
      CopyInto(miniBuf, 0, local[..MiniNG.MINI_BUF_LENGTH]);
      assert miniBuf[..] == local[..MiniNG.MINI_BUF_LENGTH];
      if !MiniNG.Framed(miniBuf[..]) {
        return CORRUPT_DATA;
      }
      miniLastQuery := now;
    }

    // ---- The lock file ----

    /** tban_unlock: the lock file is removed, and only then is the handle
      * marked unlocked. */
    method Unlock(h: Host) returns (r: int)
      modifies this`locked, h`files
      ensures var ok := lockfile in old(h.files) && lockfile !in h.undeletable;
        r == (if ok then OK else CANNOT_DELETE_LOCK_FILE) &&
        h.files == (if ok then old(h.files) - {lockfile} else old(h.files)) &&
        locked == (if ok then false else old(locked))
    {
      var ok := h.Unlink(lockfile);
      if !ok {
        return CANNOT_DELETE_LOCK_FILE;
      }
      locked := false;
      r := OK;
    }

    /** tban_lock: a lock file naming a running process means the device
      * is in use; a file naming anything else is stale and is removed
      * (any failed `getsid` counts as a dead process); then the file is
      * written with the decimal pid of this process. */
    method Lock(h: Host) returns (r: int)
      modifies this`locked, h`files
      ensures var v := old(h.FileExists(lockfile));
        var stale := v > 0 && !old(h.Alive(v));
        var files1 := if stale then old(h.files) - {lockfile} else old(h.files);
        (v > 0 && old(h.Alive(v)) ==>
           r == ALREADY_IN_USE && h.files == old(h.files) && locked == old(locked)) &&
        (stale && lockfile in h.undeletable ==>
           r == LOCK_FILE_CHANGE_NOT_ALLOWED && h.files == old(h.files) && locked == old(locked)) &&
        (v <= 0 || (stale && lockfile !in h.undeletable) ==>
           h.files == (if lockfile in h.unwritable then files1 else files1[lockfile := Decimal(h.pid)]) &&
           r == (if lockfile in h.unwritable then CANNOT_CREATE_LOCKFILE else OK) &&
           locked == (if r == OK then true else if stale then false else old(locked)))
      ensures r == OK ==> locked && lockfile in h.files
      ensures r == OK && h.pid < Pow10(LOCK_READ_LENGTH) ==> h.FileExists(lockfile) == h.pid
    {
      var v := h.FileExists(lockfile);
      if v > 0 {
        if h.Alive(v) {
          return ALREADY_IN_USE;
        }
        r := Unlock(h);
        if r != OK {
          return LOCK_FILE_CHANGE_NOT_ALLOWED;
        }
      }
      var ok := h.CreateFile(lockfile, Decimal(h.pid));
      if !ok {
        return CANNOT_CREATE_LOCKFILE;
      }
      locked := true;
      r := OK;
      if h.pid < Pow10(LOCK_READ_LENGTH) {
        LockHolderOwnPid(h.pid);
      }
    }

    /** tban_configureLockFile. */
    method ConfigureLockFile(name: string) returns (r: int)
      modifies this`lockfile
      ensures r == OK && lockfile == name
    {
      lockfile := name;
      r := OK;
    }

    /** tban_configureLockTimeout. */
    method ConfigureLockTimeout(timeout: int) returns (r: int)
      modifies this`lockTimeout
      ensures r == OK && lockTimeout == timeout
    {
      lockTimeout := timeout;
      r := OK;
    }

    /** The longest tban_checkIfDeviceUsed sleeps, in seconds: it tries
      * before each sleep and gives up at the first attempt after more
      * than lockTimeout seconds, so a negative timeout means one attempt
      * and no sleep. */
    function Patience(): (p: nat)
      reads this
      ensures lockTimeout < 0 ==> p == 0
      ensures lockTimeout >= 0 ==> p == lockTimeout + 1
    {
      if lockTimeout < 0 then 0 else lockTimeout + 1
    }

    /** tban_checkIfDeviceUsed: take the lock, trying once a second until
      * more than lockTimeout seconds have passed; every failure is
      * reported as ALREADY_IN_USE. */
    method CheckIfDeviceUsed(h: Host) returns (r: int)
      modifies this`locked, h`files, h`now
      ensures r == OK || r == ALREADY_IN_USE
      ensures r == OK ==> locked && lockfile in h.files && old(h.now) <= h.now <= old(h.now) + Patience()
      ensures r == OK && h.pid < Pow10(LOCK_READ_LENGTH) ==> h.FileExists(lockfile) == h.pid
      ensures r == ALREADY_IN_USE ==> h.now == old(h.now) + Patience()
      ensures old(h.FileExists(lockfile)) <= 0 && lockfile !in h.unwritable ==>
        r == OK && h.now == old(h.now)
      ensures var v := old(h.FileExists(lockfile));
        v > 0 && v in h.aliveUntil && old(h.now) + Patience() < h.aliveUntil[v] ==>
        r == ALREADY_IN_USE && h.files == old(h.files) && locked == old(locked)
    {
      ghost var v := h.FileExists(lockfile);
      ghost var held := v > 0 && v in h.aliveUntil && h.now + Patience() < h.aliveUntil[v];
      var t1 := h.now;
      var result := Lock(h);
      while !(h.now - t1 > lockTimeout || result == OK)
        invariant t1 <= h.now <= t1 + Patience() && h.aliveUntil == old(h.aliveUntil)
        invariant result == OK ==> locked && lockfile in h.files
        invariant result == OK && h.pid < Pow10(LOCK_READ_LENGTH) ==> h.FileExists(lockfile) == h.pid
        invariant held ==> h.files == old(h.files) && result == ALREADY_IN_USE && locked == old(locked)
        invariant v <= 0 && lockfile !in h.unwritable ==> result == OK && h.now == t1
        decreases lockTimeout - (h.now - t1)
      {
        h.Sleep();
        result := Lock(h);
      }
      if result != OK {
        return ALREADY_IN_USE;
      }
      r := OK;
    }

    // ---- Opening and closing ----

    /** tban_open: refused on an open handle; otherwise the lock is taken
      * and the port set up, and the handle is open only when every step
      * succeeds.  A failed set-up keeps the lock. */
    method Open(h: Host, setup: Setup) returns (r: int)
      modifies this`isOpen, this`locked, h`files, h`now
      ensures old(isOpen) ==>
        r == EOPEN && isOpen && locked == old(locked) && h.files == old(h.files) && h.now == old(h.now)
      ensures isOpen <==> old(isOpen) || r == OK
      ensures r == OK <==> !old(isOpen) && locked && lockfile in h.files && setup.SetupOk? && r != ALREADY_IN_USE
      ensures !old(isOpen) && r != OK && r != ALREADY_IN_USE ==> r == SetupError(setup) && locked
      ensures !old(isOpen) && old(h.FileExists(lockfile)) <= 0 && lockfile !in h.unwritable && setup.SetupOk? ==>
        r == OK && isOpen
      ensures var v := old(h.FileExists(lockfile));
        !old(isOpen) && v > 0 && v in h.aliveUntil && old(h.now) + Patience() < h.aliveUntil[v] ==>
        r == ALREADY_IN_USE && !isOpen && h.files == old(h.files)
    {
      if isOpen {
        return EOPEN;
      }
      r := CheckIfDeviceUsed(h);
      if r != OK {
        return;
      }
      r := SetupError(setup);
      if r != OK {
        return;
      }
      isOpen := true;
    }

    /** tban_close: refused on a closed handle; restoring the port
      * settings or closing the device may fail, and only a clean close
      * marks the handle closed.  The lock file is left in place. */
    method Close(portCloses: bool) returns (r: int)
      modifies this`isOpen
      ensures !old(isOpen) ==> r == NOT_OPENED && !isOpen
      ensures old(isOpen) && !portCloses ==> r == ECLOSE && isOpen
      ensures old(isOpen) && portCloses ==> r == OK && !isOpen
    {
      if !isOpen {
        return NOT_OPENED;
      }
      if !portCloses {
        return ECLOSE;
      }
      isOpen := false;
      r := OK;
    }

    // ---- Getters that fill arrays ----

    /** tban_getChCurve: the seven points of a channel's response curve
      * copied out of the cache. */
    method GetChCurve(index: nat, x: array<Byte>, y: array<Byte>) returns (r: int)
      requires Valid() && x != y && x.Length >= 7 && y.Length >= 7 && x != buf && y != buf
      modifies x, y
      ensures index >= NUMBER_CHANNELS ==> r == INDEX_OUT_OF_BOUNDS
      ensures index < NUMBER_CHANNELS && !isOpen ==> r == NOT_OPENED
      ensures r != OK ==> x[..] == old(x[..]) && y[..] == old(y[..])
      ensures r == OK <==> index < NUMBER_CHANNELS && isOpen
      ensures r == OK ==> forall k :: 0 <= k < 7 ==>
        x[k] == TBanStatus.CurveX(buf[..], index, k) && y[k] == TBanStatus.CurveY(buf[..], index, k)
      ensures forall k :: 7 <= k < x.Length ==> x[k] == old(x[k])
      ensures forall k :: 7 <= k < y.Length ==> y[k] == old(y[k])
    {
      if index >= NUMBER_CHANNELS {
        return INDEX_OUT_OF_BOUNDS;
      }
      if !isOpen {
        return NOT_OPENED;
      }
      TBanStatus.TablesInsideStatusVector();
      var i := 0;
      while i < 6
        invariant 0 <= i <= 6
        invariant forall k :: 0 <= k < i ==>
          x[k] == TBanStatus.CurveX(buf[..], index, k) && y[k] == TBanStatus.CurveY(buf[..], index, k)
        invariant forall k :: i <= k < x.Length ==> x[k] == old(x[k])
        invariant forall k :: i <= k < y.Length ==> y[k] == old(y[k])
      {
        x[i] := buf[TBanStatus.CurveXMap[index] + i];
        y[i] := buf[TBanStatus.CurveYMap[index] + i];
        i := i + 1;
      }
      x[6] := buf[TEMP_MAXGRENZ0 + index];
      y[6] := 100;
      r := OK;
    }

    /** tban_getMotionSettings: the three blockage-detection settings and,
      * per channel, the override, running and level-change values. */
    method GetMotionSettings(override: array<Byte>, rotate: array<Byte>, current: array<Byte>)
      returns (r: int, timeConst: Byte, maxLimit: Byte, incrValue: Byte)
      requires Valid() && override.Length >= 4 && rotate.Length >= 4 && current.Length >= 4
      requires override != rotate && rotate != current && override != current
      requires override != buf && rotate != buf && current != buf
      modifies override, rotate, current
      ensures r == OK <==> isOpen
      ensures r != OK ==>
        r == NOT_OPENED && override[..] == old(override[..]) && rotate[..] == old(rotate[..]) && current[..] == old(current[..])
      ensures r == OK ==>
        timeConst == buf[MES_CH_DOWN_EE] && maxLimit == buf[MES_CH_GRENZ_EE] && incrValue == buf[MES_CH_UP_EE]
      ensures r == OK ==> forall i :: 0 <= i < 4 ==>
        override[i] == buf[MES_OVERIDEBEWEGUNG + i] && rotate[i] == buf[MES_BETRIEB + i] &&
        current[i] == buf[MES_LEVELCHANGECNT + i]
      ensures forall i :: 4 <= i < override.Length ==> override[i] == old(override[i])
      ensures forall i :: 4 <= i < rotate.Length ==> rotate[i] == old(rotate[i])
      ensures forall i :: 4 <= i < current.Length ==> current[i] == old(current[i])
    {
      timeConst, maxLimit, incrValue := 0, 0, 0;
      if !isOpen {
        return NOT_OPENED, timeConst, maxLimit, incrValue;
      }
      timeConst := buf[MES_CH_DOWN_EE];
      maxLimit := buf[MES_CH_GRENZ_EE];
      incrValue := buf[MES_CH_UP_EE];
      var i := 0;
      while i < 4
        invariant 0 <= i <= 4
        invariant forall j :: 0 <= j < i ==>
          override[j] == buf[MES_OVERIDEBEWEGUNG + j] && rotate[j] == buf[MES_BETRIEB + j] &&
          current[j] == buf[MES_LEVELCHANGECNT + j]
        invariant forall j :: i <= j < override.Length ==> override[j] == old(override[j])
        invariant forall j :: i <= j < rotate.Length ==> rotate[j] == old(rotate[j])
        invariant forall j :: i <= j < current.Length ==> current[j] == old(current[j])
      {
        override[i] := buf[MES_OVERIDEBEWEGUNG + i];
        rotate[i] := buf[MES_BETRIEB + i];
        current[i] := buf[MES_LEVELCHANGECNT + i];
        i := i + 1;
      }
      r := OK;
    }

    /** bigNG_getOutputMode: the mode of each of the four channels from
      * the bits of the classic vector's output-mode byte; a mask of four
      * bits is given back exactly. */
    method BigGetOutputMode(mode: array<Byte>) returns (r: int)
      requires Valid() && mode.Length >= 4 && mode != buf
      modifies mode
      ensures r == OK <==> isOpen
      ensures r != OK ==> r == NOT_OPENED && mode[..] == old(mode[..])
      ensures r == OK ==> forall i :: 0 <= i < 4 ==> mode[i] == BigNG.OutputModeBit(buf[BigNG.OUT_MODE], i)
      ensures r == OK && buf[BigNG.OUT_MODE] <= 15 ==>
        buf[BigNG.OUT_MODE] == mode[0] as int + 2 * mode[1] as int + 4 * mode[2] as int + 8 * mode[3] as int
      ensures forall i :: 4 <= i < mode.Length ==> mode[i] == old(mode[i])
    {
      if !isOpen {
        return NOT_OPENED;
      }
      var modeval := buf[BigNG.OUT_MODE];
      var i := 0;
      while i < 4
        invariant 0 <= i <= 4
        invariant forall j :: 0 <= j < i ==> mode[j] == BigNG.OutputModeBit(modeval, j)
        invariant forall j :: i <= j < mode.Length ==> mode[j] == old(mode[j])
      {
        mode[i] := BigNG.OutputModeBit(modeval, i);
        i := i + 1;
      }
      if modeval <= 15 {
        BigNG.OutputModeBitsRebuild(modeval);
      }
      r := OK;
    }

    /** miniNG_getChCurve: the six points of a miniNG channel's curve. */
    method MiniGetChCurve(index: nat, x: array<Byte>, y: array<Byte>) returns (r: int)
      requires Valid() && x != y && x.Length >= 6 && y.Length >= 6 && x != miniBuf && y != miniBuf
      modifies x, y
      ensures index >= MINI_NG_NUMBER_CHANNELS ==> r == INDEX_OUT_OF_BOUNDS
      ensures index < MINI_NG_NUMBER_CHANNELS && !isOpen ==> r == NOT_OPENED
      ensures r != OK ==> x[..] == old(x[..]) && y[..] == old(y[..])
      ensures r == OK <==> index < MINI_NG_NUMBER_CHANNELS && isOpen
      ensures r == OK ==> forall k :: 0 <= k < 6 ==>
        x[k] == MiniNG.CurveX(miniBuf[..], index, k) && y[k] == MiniNG.CurveY(miniBuf[..], index, k)
      ensures forall k :: 6 <= k < x.Length ==> x[k] == old(x[k])
      ensures forall k :: 6 <= k < y.Length ==> y[k] == old(y[k])
    {
      if index >= MINI_NG_NUMBER_CHANNELS {
        return INDEX_OUT_OF_BOUNDS;
      }
      if !isOpen {
        return NOT_OPENED;
      }
      x[0] := 0;
      y[5] := 100;
      var i := 0;
      while i < 5
        invariant 0 <= i <= 5 && x[0] == 0 && y[5] == 100
        invariant forall k :: 1 <= k <= i ==> x[k] == MiniNG.CurveX(miniBuf[..], index, k)
        invariant forall k :: 0 <= k < i ==> y[k] == MiniNG.CurveY(miniBuf[..], index, k)
        invariant forall k :: i < k < x.Length ==> x[k] == old(x[k])
        invariant forall k :: i <= k < y.Length && k != 5 ==> y[k] == old(y[k])
      {
        x[i + 1] := miniBuf[MiniNG.ChCurveXMap[index] + i] / 2;
        y[i] := miniBuf[MiniNG.ChCurveYMap[index] + i];
        i := i + 1;
      }
      r := OK;
    }

    // ---- Curve upload to the miniNG ----

    /** miniNG_setChCurve with the channel check corrected: each point of
      * the curve is sent as a pass-through frame, and after each the
      * miniNG is queried until its pass-through buffer is empty.  That
      * wait has no bound in the library; here at most `pollBudget`
      * further queries are made, and `hung` reports a call that would
      * still be waiting.  What the line carries, leaving out the status
      * queries, is the curve frames in order, up to the first refused
      * send. */
    method MiniSetChCurve(nr: int, x: seq<Byte>, y: seq<Byte>, now: int, pollBudget: nat)
      returns (r: int, hung: bool)
      requires Valid() && |x| >= 5 && |y| >= 5
      modifies this`sent, this`txScript, this`delayNs, this`rx, this`miniLastQuery, miniBuf
      ensures Valid()
      ensures var c := MiniNG.SetChCurve(old(isOpen), nr, x, y);
        (c.Reject? ==> r == c.code && !hung && sent == old(sent) && miniBuf[..] == old(miniBuf[..])) &&
        (c.Frames? ==>
           |old(sent)| <= |sent| && sent[..|old(sent)|] == old(sent) &&
           var out := WithoutQueries(sent[|old(sent)|..]);
           (!hung && r == OK ==> out == c.frames && MiniNG.PassThroughIdle(miniBuf[..])) &&
           (!hung && r != OK ==> r == ESEND && |out| < |c.frames| && out == c.frames[..|out|]) &&
           (hung ==> |out| <= |c.frames| && out == c.frames[..|out|] && !MiniNG.PassThroughIdle(miniBuf[..])))
    {
      hung := false;
      var c := MiniNG.SetChCurve(isOpen, nr, x, y);
      if c.Reject? {
        return c.code, false;
      }
      var frames := c.frames;
      ghost var s0 := sent;
      var budget := pollBudget;
      var i := 0;
      while i < |frames|
        invariant 0 <= i <= |frames| == 5 && Valid() && isOpen
        invariant i > 0 ==> MiniNG.PassThroughIdle(miniBuf[..])
        invariant |s0| <= |sent| && sent[..|s0|] == s0 && WithoutQueries(sent[|s0|..]) == frames[..i]
      {
        ghost var before := sent;
        r := MiniSendCommand(frames[i]);
        if r != OK {
          assert sent == before && |frames[..i]| == i;
          return;
        }
        SentGrows(s0, sent, before, [frames[i]]);
        assert frames[..i + 1] == frames[..i] + [frames[i]];
        before := sent;
        var _ := MiniQueryStatus(now);
        QueryKeepsSends(s0, sent, before);
        while !MiniNG.PassThroughIdle(miniBuf[..])
          invariant Valid() && isOpen
          invariant |s0| <= |sent| && sent[..|s0|] == s0 && WithoutQueries(sent[|s0|..]) == frames[..i + 1]
          decreases budget
        {
          if budget == 0 {
            return ERROR, true;
          }
          budget := budget - 1;
          delayNs := delayNs + MINI_NG_COMMAND_DELAY_NS;
          ghost var polled := sent;
          var _ := MiniQueryStatus(now);
          QueryKeepsSends(s0, sent, polled);
        }
        i := i + 1;
      }
      r := OK;
    }

    // ---- The configuration file ----

    /** tban_parseConfig: a file that cannot be opened is an error;
      * otherwise the file is read word by word through its stream, and
      * the result and the names are those of the parse of its content. */
    method ParseConfig(h: Host, filename: string) returns (r: int)
      requires Valid()
      modifies this`names
      ensures Valid()
      ensures filename !in h.files ==> r == CONFIG_FILE_ERROR && names == old(names)
      ensures filename in h.files ==> (r, names) == Parser.ParseLoop(h.files[filename], false, old(names))
    {
      if filename !in h.files {
        return CONFIG_FILE_ERROR;
      }
      var content := h.files[filename];
      var s := new Parser.Stream(content);
      while !s.eof
        invariant s.Valid() && s.data == content && Valid()
        invariant Parser.ParseLoop(s.Remaining(), s.eof, names) == Parser.ParseLoop(content, false, old(names))
        decreases |s.data| - s.pos, if s.eof then 0 else 1
      {
        var tag, _ := s.ReadWord(" ", "");
        var t := Parser.LookupTag(tag);
        if t.None? {
          if !s.eof {
            return CONFIG_FILE_ERROR;
          }
        } else if t.value.Comment? {
          var _, _ := s.ReadWord("\n", "");
        } else if t.value.NameTag? {
          var index, _ := s.ReadWord(" ", "");
          var short, _ := s.ReadWord(" ", "\"");
          var long, _ := s.ReadWord("\n", "\"");
          var e := Parser.Entry(Parser.ConvertAsciiToInt(index), short, long, s.Remaining(), s.eof);
          names := Parser.NameEntry(e, names, t.value.cat);
        }
      }
      r := OK;
    }
  }

  /** While a reception is under way: k chunks have been taken, `stored`
    * holds what was kept of the first k - 1, and the rest of the
    * reception is the gathering of what is still needed from chunk k on. */
  ghost predicate Pending(rx0: seq<seq<Byte>>, expected: nat, k: nat, stored: seq<Byte>)
  {
    1 <= k <= |rx0| && |stored| < expected &&
    var g := Gather(rx0[k - 1..], expected - |stored|);
    Gather(rx0, expected) == (k - 1 + g.0, stored + g.1)
  }

  lemma PendingStart(rx0: seq<seq<Byte>>, expected: nat)
    requires |rx0| > 0 && expected > 0
    ensures Pending(rx0, expected, 1, [])
  {
    assert rx0[0..] == rx0;
    var g := Gather(rx0, expected);
    assert [] + g.1 == g.1;
  }

  /** One chunk of a pending reception: it either completes the
    * reception, ends it at the last chunk, or leaves it pending on the
    * next chunk. */
  lemma PendingStep(rx0: seq<seq<Byte>>, expected: nat, k: nat, stored: seq<Byte>)
    requires Pending(rx0, expected, k, stored)
    ensures var c := rx0[k - 1]; var need := expected - |stored|;
      (|c| >= need ==> Gather(rx0, expected) == (k, stored + c[..need])) &&
      (|c| < need && k == |rx0| ==> Gather(rx0, expected) == (k, stored + c)) &&
      (|c| < need && k < |rx0| ==> Pending(rx0, expected, k + 1, stored + c))
  {
    var rs := rx0[k - 1..];
    assert rs[0] == rx0[k - 1] && rs[1..] == rx0[k..];
    var c := rx0[k - 1];
    var need := expected - |stored|;
    if |c| < need {
      var g := Gather(rx0[k..], need - |c|);
      assert stored + (c + g.1) == (stored + c) + g.1;
      if k == |rx0| {
        assert g == (0, []);
        assert stored + c + [] == stored + c;
      }
    }
  }

  /** Copying the next piece of a reception behind what is there keeps
    * the destination filled. */
  lemma FilledMore(d0: seq<Byte>, before: seq<Byte>, after: seq<Byte>, stored: seq<Byte>, piece: seq<Byte>)
    requires Filled(d0, before, stored) && |stored| + |piece| <= |d0|
    requires after == before[..|stored|] + piece + before[|stored| + |piece|..]
    ensures Filled(d0, after, stored + piece)
  {
    var m := |stored| + |piece|;
    assert after[..m] == stored + piece;
    assert after[m..] == before[m..];
    assert before[m..] == before[|stored|..][|piece|..];
  }

  /** The number of accepted writes is pinned down by where the first
    * refusal falls. */
  lemma AcceptedAt(script: seq<bool>, n: nat, i: nat)
    requires i <= n
    requires forall j :: 0 <= j < i ==> WriteOk(DropN(script, j))
    requires i < n ==> !WriteOk(DropN(script, i))
    ensures Accepted(script, n) == i
  {
  }

  /** The frames on the line other than status queries. */
  function WithoutQueries(s: seq<seq<Byte>>): (t: seq<seq<Byte>>)
    ensures |t| <= |s|
    ensures forall i :: 0 <= i < |t| ==> t[i] != BigNG.QueryFrame
  {
    if |s| == 0 then []
    else (if s[0] == BigNG.QueryFrame then [] else [s[0]]) + WithoutQueries(s[1..])
  }

  /** Dropping the queries from two stretches of the line one after the
    * other. */
  lemma {:induction false} WithoutQueriesAppend(a: seq<seq<Byte>>, b: seq<seq<Byte>>)
    ensures WithoutQueries(a + b) == WithoutQueries(a) + WithoutQueries(b)
    decreases |a|
  {
    if |a| == 0 {
      assert a + b == b;
    } else {
      assert (a + b)[1..] == a[1..] + b;
      WithoutQueriesAppend(a[1..], b);
    }
  }

  /** The log after more frames went out, seen from its start `s0`. */
  lemma SentGrows(s0: seq<seq<Byte>>, now: seq<seq<Byte>>, before: seq<seq<Byte>>, more: seq<seq<Byte>>)
    requires |s0| <= |before| && before[..|s0|] == s0 && now == before + more
    ensures |s0| <= |now| && now[..|s0|] == s0
    ensures WithoutQueries(now[|s0|..]) == WithoutQueries(before[|s0|..]) + WithoutQueries(more)
  {
    assert now[|s0|..] == before[|s0|..] + more;
    WithoutQueriesAppend(before[|s0|..], more);
  }

  /** A status query adds nothing to the frames other than queries. */
  lemma QueryKeepsSends(s0: seq<seq<Byte>>, now: seq<seq<Byte>>, before: seq<seq<Byte>>)
    requires |s0| <= |before| && before[..|s0|] == s0
    requires now == before || now == before + [BigNG.QueryFrame]
    ensures |s0| <= |now| && now[..|s0|] == s0
    ensures WithoutQueries(now[|s0|..]) == WithoutQueries(before[|s0|..])
  {
    if now != before {
      SentGrows(s0, now, before, [BigNG.QueryFrame]);
      assert WithoutQueries([BigNG.QueryFrame]) == [];
      assert WithoutQueries(before[|s0|..]) + [] == WithoutQueries(before[|s0|..]);
    }
  }
}
