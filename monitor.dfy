// The state the console monitor of tbancontrol keeps between key
// presses: the command log (at most eight time-stamped lines, oldest
// first, kept in a linked list), the selection cursor over the channel
// and channel-information windows, and the time of the last automatic
// status query.  Drawing the screen is not modelled.

module Monitor {
  import opened TBanDefs
  import opened Ascii
  import opened LinkedList
  import Handle
  import Messages

  /** Entries the log keeps: the ninth addition drops the oldest. */
  const LOG_CAPACITY: nat := 8
  const SEL_CHANNELINFO: int := 0
  const SEL_CHANNEL: int := 1
  /** Highest channel and highest information line the cursor reaches. */
  const LAST_CHANNEL: int := 3
  const LAST_INFO: int := 9
  /** Seconds between automatic status queries (strictly more than). */
  const AUTO_UPDATE_INTERVAL: int := 5
  const STARTING: string := "XBan monitor starting"
  const STATUS_UPDATED: string := "Status updated"
  const AUTO_UPDATE_OK: string := "Automatic status update performed ok"

  /** The broken-down local time a log line is stamped with. */
  datatype Time = Time(year: nat, month: nat, day: nat, hour: nat, min: nat, sec: nat)

  /** `%02d`. */
  function Pad2(n: nat): (s: string)
    ensures AllDigits(s) && |s| >= 2
    ensures n < 100 ==> s == [DigitChar(n / 10), DigitChar(n % 10)]
  {
    if n < 10 then "0" + Decimal(n)
    else
      assert n < 100 ==> Decimal(n / 10) == [DigitChar(n / 10)];
      Decimal(n)
  }

  /** The log line for `s` at time t: `%d-%02d-%02d:%02d:%02d:%02d %s`. */
  function Stamped(t: Time, s: string): (line: string)
    ensures |line| > |s| && line[|line| - |s|..] == s && line[|line| - |s| - 1] == ' '
  {
    var stamp := Decimal(t.year) + "-" + Pad2(t.month) + "-" + Pad2(t.day) + ":" + Pad2(t.hour) + ":"
      + Pad2(t.min) + ":" + Pad2(t.sec);
    assert (stamp + " " + s)[|stamp| + 1..] == s;
    stamp + " " + s
  }

  /** `%d` of any integer. */
  function SignedDecimal(n: int): string
  {
    if n >= 0 then Decimal(n) else "-" + Decimal(-n)
  }

  /** The line checkResult logs for a failed status update: the code's
    * name (`(null)`, as the C library prints a missing string, for a
    * code the table does not know) and the code in brackets.  The name
    * comes from the table with the ESIGEMPTYSET comma restored; the
    * table as written differs only at ESIGEMPTYSET, which a status
    * query never returns (it fails with NOT_OPENED, ESEND or the status
    * of the read). */
  function UpdateErrorLine(result: int): string
  {
    var name := match Messages.StrError(result) case Some(n) => n case None => "(null)";
    ErrorLine(name, SignedDecimal(result))
  }

  /** `"Error when updating: %s [%d]"` with the name and the code
    * already written out. */
  function ErrorLine(name: string, code: string): (line: string)
    ensures |UPDATE_ERROR_PREFIX| + |code| + 1 < |line| && line[..|UPDATE_ERROR_PREFIX|] == UPDATE_ERROR_PREFIX
    ensures line[|line| - 1 - |code|..] == code + "]"
  {
    var head := UPDATE_ERROR_PREFIX + name + " [";
    EndsWith(head, code + "]");
    EndsWith(UPDATE_ERROR_PREFIX + name, " [");
    EndsWith(UPDATE_ERROR_PREFIX, name);
    head + (code + "]")
  }

  /** The error line starts with the fixed text and ends with the code in
    * brackets, which reads back as the status that failed. */
  lemma UpdateErrorLineReadBack(result: int)
    ensures var line := UpdateErrorLine(result);
      |UPDATE_ERROR_PREFIX| + |SignedDecimal(result)| + 1 < |line| &&
      line[..|UPDATE_ERROR_PREFIX|] == UPDATE_ERROR_PREFIX && line[|line| - 1] == ']' &&
      Atoi(line[|line| - 1 - |SignedDecimal(result)|..]) == result
  {
    var line := UpdateErrorLine(result);
    var code := SignedDecimal(result);
    assert line[|line| - 1 - |code|..] == code + "]";
    SignedDecimalReadBack(result, "]");
  }

  /** The two ends of a concatenation are its parts. */
  lemma EndsWith(a: string, b: string)
    ensures (a + b)[|a + b| - |b|..] == b && (a + b)[..|a|] == a
  {
  }

  const UPDATE_ERROR_PREFIX: string := "Error when updating: "

  /** `atoi` reads back what `%d` wrote for any int, negative ones
    * included, when no digit follows. */
  lemma SignedDecimalReadBack(n: int, r: string)
    requires |r| == 0 || !IsDigit(r[0])
    ensures Atoi(SignedDecimal(n) + r) == n
  {
    if n >= 0 {
      AtoiDecimal(n, r);
    } else {
      NegatedDecimalReadBack(-n, r);
    }
  }

  lemma NegatedDecimalReadBack(m: nat, r: string)
    requires |r| == 0 || !IsDigit(r[0])
    ensures Atoi(("-" + Decimal(m)) + r) == -(m as int)
  {
    var d := Decimal(m);
    DropSign(d, r);
    AtoiMinus(("-" + d) + r);
    LeadingDigitsOf(d, r);
    DecimalValue(m);
  }

  /** Behind the sign of a signed number written out come its digits. */
  lemma DropSign(d: string, r: string)
    ensures |("-" + d) + r| > 0 && (("-" + d) + r)[0] == '-' && (("-" + d) + r)[1..] == d + r
  {
  }

  /** The newest LOG_CAPACITY entries of a history. */
  function KeepLast(s: seq<string>): (w: seq<string>)
    ensures |w| == if |s| <= LOG_CAPACITY then |s| else LOG_CAPACITY
  {
    if |s| <= LOG_CAPACITY then s else s[|s| - LOG_CAPACITY..]
  }

  /** The window is the end of the history, element for element. */
  lemma KeepLastSuffix(s: seq<string>)
    ensures var w := KeepLast(s); forall i :: 0 <= i < |w| ==> w[i] == s[|s| - |w| + i]
  {
  }

  /** Adding to a window of the history and trimming it again gives the
    * window of the longer history: the log only ever depends on the
    * newest entries. */
  lemma KeepLastAppend(s: seq<string>, e: string)
    ensures KeepLast(KeepLast(s) + [e]) == KeepLast(s + [e])
  {
    var w := KeepLast(s);
    if |s| > LOG_CAPACITY {
      assert (w + [e])[1..] == (s + [e])[|s| + 1 - LOG_CAPACITY..];
    }
  }

  /** One addition to a full or a not yet full log. */
  lemma TrimStep(c: seq<string>, e: string)
    requires |c| <= LOG_CAPACITY
    ensures KeepLast(c + [e]) == if |c| < LOG_CAPACITY then c + [e] else c[1..] + [e]
    ensures (c + [e])[..0] + (c + [e])[1..] == (c + [e])[1..]
  {
    if |c| == LOG_CAPACITY {
      assert (c + [e])[1..] == c[1..] + [e];
    }
  }

  /** The cursor one step up: the predecessor, wrapping from 0 to `top`. */
  function StepUp(v: int, top: nat): (w: int)
    requires 0 <= v <= top
    ensures 0 <= w <= top && w == (v - 1) % (top + 1)
  {
    if v - 1 < 0 then top else v - 1
  }

  /** The cursor one step down: the successor, wrapping from `top` to 0. */
  function StepDown(v: int, top: nat): (w: int)
    requires 0 <= v <= top
    ensures 0 <= w <= top && w == (v + 1) % (top + 1)
  {
    if v + 1 > top then 0 else v + 1
  }

  /** Up and down undo each other. */
  lemma StepUpDown(v: int, top: nat)
    requires 0 <= v <= top
    ensures StepDown(StepUp(v, top), top) == v && StepUp(StepDown(v, top), top) == v
  {
  }

  /** What a key press does to the cursor: Up and Down move it, Tab
    * switches window, Other leaves it alone. */
  datatype Key = Up | Down | Tab | Other

  /** The curses codes getch gives for the arrow keys with the keypad
    * enabled (octal 0402 to 0405). */
  const KEY_DOWN: int := 258
  const KEY_UP: int := 259
  const KEY_LEFT: int := 260
  const KEY_RIGHT: int := 261
  const TAB_CODE: int := 9

  /** A code stored in a signed `char`: its low byte, read as -128..127. */
  function CharOf(code: int): (c: int)
    ensures -128 <= c < 128 && (code - c) % 256 == 0
    ensures -128 <= code < 128 ==> c == code
  {
    (code + 128) % 256 - 128
  }

  /** The key switch of tbancontrolMonitor with getch's code kept whole
    * (an `int ch`): the up arrow and 'q' move up, the down arrow and 'a'
    * move down, TAB switches window. */
  function KeyOfCode(code: int): (k: Key)
    ensures k == Up <==> code == KEY_UP || code == 'q' as int
    ensures k == Down <==> code == KEY_DOWN || code == 'a' as int
    ensures k == Tab <==> code == TAB_CODE
  {
    if code == KEY_UP || code == 'q' as int then Up
    else if code == KEY_DOWN || code == 'a' as int then Down
    else if code == TAB_CODE then Tab
    else Other
  }

  /** The key switch as written: `ch` is a `char`, so the code is cut to
    * one byte before the cases are compared, and no arrow code can be
    * matched; only 'q', 'a' and TAB move the cursor. */
  function KeyOfCodeAsWritten(code: int): (k: Key)
    ensures k == Up <==> CharOf(code) == 'q' as int
    ensures k == Down <==> CharOf(code) == 'a' as int
    ensures k == Tab <==> CharOf(code) == TAB_CODE
  {
    var ch := CharOf(code);
    if ch == KEY_UP || ch == 'q' as int then Up
    else if ch == KEY_DOWN || ch == 'a' as int then Down
    else if ch == TAB_CODE then Tab
    else Other
  }

  /** The arrow keys are ignored as written (KEY_UP is stored as 3 and
    * KEY_DOWN as 2), while the switch on the whole code moves the
    * cursor for them. */
  lemma ArrowKeysIgnored()
    ensures CharOf(KEY_UP) == 3 && CharOf(KEY_DOWN) == 2
    ensures KeyOfCodeAsWritten(KEY_UP) == Other && KeyOfCodeAsWritten(KEY_DOWN) == Other
    ensures KeyOfCode(KEY_UP) == Up && KeyOfCode(KEY_DOWN) == Down
  {
  }

  /** On every code that fits in a `char` the two switches agree. */
  lemma KeyOfCodeAgrees(code: int)
    requires -128 <= code < 128
    ensures KeyOfCodeAsWritten(code) == KeyOfCode(code)
  {
  }

  class Monitor {
    const log: DList<string>
    /** `cmdLog_count`. */
    var count: int
    var selectedChannel: int
    var selectedInfo: int
    var selectedWindow: int
    /** When the last automatic query ran. */
    var last: int
    /** Every line ever added to the log. */
    ghost var history: seq<string>

    ghost predicate Valid()
      reads this, log, log.Repr
    {
      log.Valid() && this !in log.Repr &&
      count == |log.Contents| <= LOG_CAPACITY && log.Contents == KeepLast(history) &&
      0 <= selectedChannel <= LAST_CHANNEL && 0 <= selectedInfo <= LAST_INFO &&
      (selectedWindow == SEL_CHANNEL || selectedWindow == SEL_CHANNELINFO)
    }

    /** The start of tbancontrolMonitor: a fresh log holding the start
      * line, the cursor on the first channel, and the clock read. */
    constructor (t: Time, now: int)
      ensures Valid() && fresh(log.Repr)
      ensures history == [Stamped(t, STARTING)] && log.Contents == history
      ensures selectedChannel == 0 && selectedInfo == 0 && selectedWindow == SEL_CHANNEL && last == now
    {
      log := new DList<string>();
      count := 0;
      history := [];
      selectedChannel := 0;
      selectedInfo := 0;
      selectedWindow := SEL_CHANNEL;
      last := now;
      new;
      LogAddEntry(t, STARTING);
    }

    /** logAddEntry: the stamped line goes at the end; once there are
      * more than eight, the oldest is removed. */
    method LogAddEntry(t: Time, s: string)
      requires Valid()
      modifies this`count, this`history, log.Repr
      ensures Valid() && fresh(log.Repr - old(log.Repr))
      ensures history == old(history) + [Stamped(t, s)]
      ensures log.Contents == if |old(log.Contents)| < LOG_CAPACITY then old(log.Contents) + [Stamped(t, s)]
                              else old(log.Contents)[1..] + [Stamped(t, s)]
    {
      var e := Stamped(t, s);
      ghost var c0 := log.Contents;
      KeepLastAppend(history, e);
      TrimStep(c0, e);
      history := history + [e];
      count := count + 1;
      log.Append(e);
      if count >= LOG_CAPACITY + 1 {
        DropOldest();
      }
    }

    /** The removal of the oldest line once the log holds one too many. */
    method DropOldest()
      requires log.Valid() && this !in log.Repr && count == |log.Contents| == LOG_CAPACITY + 1
      modifies this`count, log.Repr
      ensures log.Valid() && this !in log.Repr && log.Repr == old(log.Repr)
      ensures count == |log.Contents| && log.Contents == old(log.Contents)[1..]
    {
      count := count - 1;
      var _ := log.RemoveIndex(0);
    }

    /** logGetEntry: line i of the log, oldest first, or none. */
    method LogGetEntry(i: int) returns (e: Option<string>)
      requires Valid()
      ensures 0 <= i < |log.Contents| ==> e == Some(log.Contents[i])
      ensures !(0 <= i < |log.Contents|) ==> e.None?
    {
      var m := log.Get(i);
      e := if m != null then m.data else None;
    }

    /** The cursor keys of the key switch: up and down move through the
      * channels or the information lines, whichever window is selected,
      * wrapping at both ends; TAB switches window.  The program reads
      * the key through a `char` (KeyOfCodeAsWritten), so only `q`, `a`
      * and TAB reach these cases; KeyOfCode is the intended reading, in
      * which the arrow keys reach them too. */
    method HandleKey(k: Key)
      requires Valid()
      modifies this`selectedChannel, this`selectedInfo, this`selectedWindow
      ensures Valid()
      ensures k.Up? && old(selectedWindow) == SEL_CHANNEL ==>
        selectedChannel == StepUp(old(selectedChannel), LAST_CHANNEL) && selectedInfo == old(selectedInfo)
      ensures k.Up? && old(selectedWindow) == SEL_CHANNELINFO ==>
        selectedInfo == StepUp(old(selectedInfo), LAST_INFO) && selectedChannel == old(selectedChannel)
      ensures k.Down? && old(selectedWindow) == SEL_CHANNEL ==>
        selectedChannel == StepDown(old(selectedChannel), LAST_CHANNEL) && selectedInfo == old(selectedInfo)
      ensures k.Down? && old(selectedWindow) == SEL_CHANNELINFO ==>
        selectedInfo == StepDown(old(selectedInfo), LAST_INFO) && selectedChannel == old(selectedChannel)
      ensures k.Tab? ==>
        selectedWindow != old(selectedWindow) && selectedChannel == old(selectedChannel) && selectedInfo == old(selectedInfo)
      ensures !k.Tab? ==> selectedWindow == old(selectedWindow)
      ensures k.Other? ==> selectedChannel == old(selectedChannel) && selectedInfo == old(selectedInfo)
    {
      match k
      case Up =>
        if selectedWindow == SEL_CHANNEL {
          selectedChannel := selectedChannel - 1;
          if selectedChannel < 0 {
            selectedChannel := LAST_CHANNEL;
          }
        } else {
          selectedInfo := selectedInfo - 1;
          if selectedInfo < 0 {
            selectedInfo := LAST_INFO;
          }
        }
      case Down =>
        if selectedWindow == SEL_CHANNEL {
          selectedChannel := selectedChannel + 1;
          if selectedChannel > LAST_CHANNEL {
            selectedChannel := 0;
          }
        } else {
          selectedInfo := selectedInfo + 1;
          if selectedInfo > LAST_INFO {
            selectedInfo := 0;
          }
        }
      case Tab =>
        selectedWindow := if selectedWindow == SEL_CHANNEL then SEL_CHANNELINFO else SEL_CHANNEL;
      case Other =>
    }

    /** The 'l' key: a log line, then a status query, whose failure is
      * logged as well. */
    method Refresh(tban: Handle.TBan, t: Time, cur: int) returns (r: int)
      requires Valid() && tban.Valid() && {tban, tban.buf} !! log.Repr
      modifies this`count, this`history, log.Repr
      modifies tban`sent, tban`txScript, tban`delayNs, tban`rx, tban`lastQuery, tban.buf
      ensures Valid() && tban.Valid() && fresh(log.Repr - old(log.Repr))
      ensures history == old(history) + [Stamped(t, STATUS_UPDATED)]
                         + (if r == OK then [] else [Stamped(t, UpdateErrorLine(r))])
      ensures tban.lastQuery == (if r == OK then cur else old(tban.lastQuery))
    {
      LogAddEntry(t, STATUS_UPDATED);
      r := QueryChecked(tban, t, cur);
    }

    /** A status query whose result goes through checkResult. */
    method QueryChecked(tban: Handle.TBan, t: Time, cur: int) returns (r: int)
      requires Valid() && tban.Valid() && {tban, tban.buf} !! log.Repr
      modifies this`count, this`history, log.Repr
      modifies tban`sent, tban`txScript, tban`delayNs, tban`rx, tban`lastQuery, tban.buf
      ensures Valid() && tban.Valid() && fresh(log.Repr - old(log.Repr))
      ensures history == old(history) + (if r == OK then [] else [Stamped(t, UpdateErrorLine(r))])
      ensures tban.lastQuery == (if r == OK then cur else old(tban.lastQuery))
    {
      r := Query(tban, cur);
      CheckResult(t, r);
    }

    /** A status query leaves the log alone; only the handle changes. */
    method Query(tban: Handle.TBan, cur: int) returns (r: int)
      requires Valid() && tban.Valid() && {tban, tban.buf} !! log.Repr
      modifies tban`sent, tban`txScript, tban`delayNs, tban`rx, tban`lastQuery, tban.buf
      ensures Valid() && tban.Valid() && {tban, tban.buf} !! log.Repr
      ensures tban.lastQuery == (if r == OK then cur else old(tban.lastQuery))
    {
      r := tban.QueryStatus(cur);
    }

    /** checkResult: a failed status is logged with its name and code;
      * success logs nothing. */
    method CheckResult(t: Time, r: int)
      requires Valid()
      modifies this`count, this`history, log.Repr
      ensures Valid() && fresh(log.Repr - old(log.Repr))
      ensures history == old(history) + (if r == OK then [] else [Stamped(t, UpdateErrorLine(r))])
    {
      if r != OK {
        LogAddEntry(t, UpdateErrorLine(r));
      }
    }

    /** The end of each round of the key loop: more than five seconds
      * after the last automatic query the status is queried again, and
      * a good answer is logged. */
    method AutoUpdate(tban: Handle.TBan, t: Time, cur: int) returns (queried: bool, r: int)
      requires Valid() && tban.Valid() && {tban, tban.buf} !! log.Repr
      modifies this`count, this`history, this`last, log.Repr
      modifies tban`sent, tban`txScript, tban`delayNs, tban`rx, tban`lastQuery, tban.buf
      ensures Valid() && tban.Valid() && fresh(log.Repr - old(log.Repr))
      ensures queried <==> cur > old(last) + AUTO_UPDATE_INTERVAL
      ensures last == if queried then cur else old(last)
      ensures !queried ==> r == OK && history == old(history) && tban.sent == old(tban.sent)
      ensures queried ==> tban.lastQuery == (if r == OK then cur else old(tban.lastQuery))
      ensures history == old(history) + (if queried && r == OK then [Stamped(t, AUTO_UPDATE_OK)] else [])
    {
      queried := cur > last + AUTO_UPDATE_INTERVAL;
      r := OK;
      if queried {
        last := cur;
        r := tban.QueryStatus(cur);
        if r == OK {
          LogAddEntry(t, AUTO_UPDATE_OK);
        }
      }
    }
  }
}
