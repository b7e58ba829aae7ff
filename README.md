# libtban and tbancontrol in Dafny

This project models the core of xban. The core is libtban, the C library that talks to a
T-Balancer fan controller over a serial line. Its bigNG and miniNG add-ons are in the core
too. The model also covers the parts of the `tbancontrol` tool that decide what the
device is sent: the command-line argument checks, the retry wrapper, the curve and mode
checks, the monitor's command log with its cursor, and the doubly-linked list that holds
the log.

The model is organised like this:

- **The handle** (`Handle.TBan`) is a class with the same state as `struct TBan`:
  - the open and locked flags;
  - the lock file name and its timeout;
  - the three status vectors, as arrays;
  - the time of the last good query;
  - the sensor and channel names.

  The serial line is part of the class. Its `sent` field logs every frame the port
  accepted. It also holds a script of write outcomes and the chunks the coming reads
  return; when the chunks run out, the read has timed out. Sending, receiving, querying,
  locking, opening, closing and the curve upload are methods on it, each proved against
  pure specification functions.
- **The file system and processes** are the class `HostEnv.Host`: the files, which
  processes are alive, the process's own pid, and a clock that a sleep advances.
- **The getters** read the cached status vector. They are pure functions of the open
  flag and the buffer (`TBanStatus`, `BigNG`, `MiniNG`).
- **The command functions** are frame builders that return `Cmd`: either the status that
  refuses the call, or the frames they send (`TBanCmds`, `BigNG`, `MiniNG`). `Wire` is an
  independent decoder of the opcodes. It stands for the device's side and is what every
  builder is checked against: each frame decodes into the register writes it is meant to
  perform.
- **The lookups** of status and warning texts are in `Messages` and `MiniNG`.
- **The configuration-file parser** is in `Parser`: the word reader, the tag lookup, the
  name callbacks and the parse loop.
- **The tbancontrol list** is a pointer-linked class, `LinkedList.DList`.
- **The monitor** is in `Monitor`: the log, the cursor keys, the `l` key and the
  automatic update.
- **The command-line checks** are in `Cli`.

Numbers are unbounded, and a conversion to `unsigned char` is written out as `Trunc8`
(modulo 256). Out-parameters become results. The clock, the process table and the
device's answers are inputs.

## Model

| member | source | states |
|---|---|---|
| Bytes.Trunc8 | libtban/big_ng.c:590-610 | storing an int in an unsigned char keeps it modulo 256 and leaves byte values unchanged |
| Bytes.High | libtban/tban.c:1221-1274 | the upper nibble of a version byte is 0..15 |
| Bytes.Low | libtban/tban.c:1221-1274 | the lower nibble of a version byte is 0..15 |
| Bytes.NibblesRebuild | libtban/tban.c:1221-1274 | the two nibbles the hardware info reports rebuild the version byte |
| Bytes.DoubleThenHalve | libtban/big_ng.c:590-610 | a target below 128 survives doubling into a byte; from 128 up the doubled value wraps by 256 |
| Ascii.DigitValue | libtban/parser.c:209-227 | a digit character has a value below 10 |
| Ascii.DigitChar | libtban/tban.c:344-366 | the digit written for d is a digit character that reads back as d |
| Ascii.LeadingDigits | libtban/parser.c:209-227 | the longest run of digits at the start of a string, followed by a non-digit or the end |
| Ascii.Atoi | libtban/tban.c:305-332 | atoi of the empty string is 0 |
| Ascii.Decimal | libtban/tban.c:344-366 | `%d` of a natural number is a non-empty string of digits |
| Ascii.DecimalValue | libtban/tban.c:344-366 | the digits `%d` writes spell the number again |
| Ascii.LeadingDigitsOf | libtban/parser.c:209-227 | a digit string followed by a non-digit is exactly its leading run |
| Ascii.AtoiDecimal | libtban/tban.c:305-332 | atoi reads back what `%d` wrote, with any non-digit text after it |
| Ascii.AtoiMinus | libtban/tban.c:320 | atoi of text starting with a minus sign is the negated value of the digits after it |
| Ascii.DecimalLength | libtban/tban.c:315 | a number below 10^k is written with at most k digits |
| Ascii.Pow10 | libtban/tban.c:315 | powers of ten are positive |
| HostEnv.LockHolder | libtban/tban.c:305-332 | a lock file of at most 16 characters names the pid that atoi reads from it |
| HostEnv.LockHolderOwnPid | libtban/tban.c:344-366 | a lock file written with the pid names that pid again when read back, if the pid fits in 16 digits |
| HostEnv.Host.constructor | libtban/tban.c:305-332 | the environment starts at the given files, processes, pid and clock |
| HostEnv.Host.FileExists | libtban/tban.c:305-332 | 0 for a missing file, otherwise the pid its first 16 bytes name |
| HostEnv.Host.Unlink | libtban/tban.c:444-460 | a lock file is removed exactly when it exists and may be deleted; otherwise nothing changes |
| HostEnv.Host.CreateFile | libtban/tban.c:344-366 | the file is created or emptied unless it is unwritable; the write succeeds only for non-empty text |
| HostEnv.Host.Sleep | libtban/tban.c:514-546 | one sleep advances the clock by one second |
| Serial.DropN | libtban/tban.c:811-838 | the outcomes of the writes still to come after n writes |
| Serial.Accepted | libtban/tban.c:811-838 | how many of n writes in a row succeed: all of those before the first failure |
| Serial.Gather | libtban/tban.c:853-948 | the chunks taken and the bytes kept while receiving, never more than asked for |
| Serial.GatherMeaning | libtban/tban.c:894-935 | a reception keeps the start of the chunks it took, and stops at the first chunk that completes it |
| Serial.ReadSpec | libtban/tban.c:853-948 | a reception succeeds exactly when the expected number of bytes arrives before the line falls silent, and then holds the first bytes the line delivered; asking for zero bytes always times out |
| Serial.GatherPrefix | libtban/tban.c:853-948 | what is gathered is the start of everything the line delivers |
| Handle.SetupError | libtban/tban.c:1007-1094 | the status of the port set-up is OK exactly when every step succeeds; a failed step gives EOPEN, ESIGEMPTYSET or ESIGACTION |
| Handle.CopyInto | libtban/tban.c:853-948 | memcpy puts the bytes at the offset and leaves the rest of the array as it was |
| Handle.TBan.constructor | libtban/tban.c:642-715 | a fresh handle is closed and unlocked, with the default lock file and timeout, no query yet and the default names; only the first 8 bytes of the buffer are cleared |
| Handle.TBan.SendCommand | libtban/tban.c:811-838 | refused on a closed handle; otherwise one write, which is logged and followed by the pause exactly when it succeeds |
| Handle.TBan.MiniSendCommand | libtban/mini_ng.c:193-204 | a send followed by the longer miniNG pause when it succeeds |
| Handle.TBan.Execute | libtban/tban.c:1643-1681 | the frames of a command go out in order; the first refused write stops the call with ESEND, and only the frames before it are on the line |
| Handle.TBan.Run | libtban/tban.c:2141-2162 | a refused command returns its status and sends nothing; otherwise its frames go out as Execute sends them |
| Handle.TBan.ReadData | libtban/tban.c:853-948 | the status and the bytes stored are those of the reception specification; the rest of the buffer is unchanged |
| Handle.TBan.QueryStatus | libtban/tban.c:1145-1176 | the request goes out, 285 bytes are received into the buffer, and the time of the last query advances only for an answer that starts with the marker |
| Handle.TBan.BigQueryStatus | libtban/big_ng.c:396-423 | the same exchange on the alternative source, into the bigNG vector |
| Handle.TBan.MiniQueryStatus | libtban/mini_ng.c:251-284 | the answer goes into a local vector; 128 bytes are copied to the miniNG vector and checked for the three markers |
| Handle.TBan.Unlock | libtban/tban.c:444-460 | the lock file is deleted, and only then is the handle marked unlocked; a failed delete returns CANNOT_DELETE_LOCK_FILE |
| Handle.TBan.Lock | libtban/tban.c:385-433 | a file naming a live process means ALREADY_IN_USE; a stale file is removed first; then the own pid is written and the handle is locked |
| Handle.TBan.ConfigureLockFile | libtban/tban.c:469-481 | the lock file name is replaced |
| Handle.TBan.ConfigureLockTimeout | libtban/tban.c:493-499 | the lock timeout is replaced |
| Handle.TBan.Patience | libtban/tban.c:514-546 | the longest the lock wait sleeps: timeout+1 seconds, 0 for a negative timeout |
| Handle.TBan.CheckIfDeviceUsed | libtban/tban.c:514-546 | either the lock is taken within the timeout or the whole timeout has passed and ALREADY_IN_USE is returned; a free, writable lock file is taken at once, and a lock held by a process alive past the timeout is never taken |
| Handle.TBan.Open | libtban/tban.c:1007-1094 | refused with EOPEN on an open handle; otherwise the handle is open only when the lock is taken and every set-up step succeeds, a free writable lock file with a good set-up always opens it, a lock held by a process alive past the wait gives ALREADY_IN_USE with no file changed, and a failed set-up keeps the lock |
| Handle.TBan.Close | libtban/tban.c:1106-1127 | refused on a closed handle; a failing close returns ECLOSE and leaves the handle open |
| Handle.TBan.GetChCurve | libtban/tban.c:1596-1624 | the index is checked before the open flag; the seven points are the stored temperatures and pwms with the maximum temperature and 100 percent last; nothing else is written |
| Handle.TBan.GetMotionSettings | libtban/tban.c:2021-2047 | the three blockage settings and the four channel values come from the cache; nothing is written on a closed handle |
| Handle.TBan.BigGetOutputMode | libtban/big_ng.c:148-165 | the mode of channel i is bit i of the output-mode byte, and for a four-bit byte the modes rebuild it |
| Handle.TBan.MiniGetChCurve | libtban/mini_ng.c:431-459 | the six points of a miniNG curve: temperature 0 first, halved temperatures, five pwms and then 100 |
| Handle.TBan.MiniSetChCurve | libtban/mini_ng.c:513-573 | with the corrected channel check, the frames other than status queries on the line are the curve frames in order, up to the first refused send; a clean return leaves the pass-through buffer empty |
| Handle.TBan.ParseConfig | libtban/parser.c:425-468 | a missing file is CONFIG_FILE_ERROR and changes no name; otherwise the result and the names are those of the parse of the file's content, with the corrected name callback NameEntry |
| Handle.PendingStart | libtban/tban.c:894-910 | the first chunk of a reception is taken before the loop |
| Handle.PendingStep | libtban/tban.c:912-935 | one more chunk either completes the reception or leaves it pending, with the stored bytes still the start of the line's bytes |
| Handle.FilledMore | libtban/tban.c:912-935 | copying the next piece behind the stored bytes keeps the buffer filled with the reception so far |
| Handle.AcceptedAt | libtban/tban.c:811-838 | the count of accepted writes is fixed by where the first failure is |
| Handle.WithoutQueries | libtban/mini_ng.c:513-573 | the frames on the line with the status queries left out |
| Handle.WithoutQueriesAppend | libtban/mini_ng.c:513-573 | leaving out queries works stretch by stretch |
| Handle.SentGrows | libtban/mini_ng.c:513-573 | a send adds its frame to the frames other than queries |
| Handle.QueryKeepsSends | libtban/mini_ng.c:540-570 | a status query adds nothing to the frames other than queries |
| Wire.DecodeHead | libtban/tban.h:263-333 | the device takes at least one byte and no more than the frame holds for each command |
| Wire.DecodeSingle | libtban/tban.h:263-333 | a frame holding exactly one command decodes into it |
| Wire.DecodeTwo | libtban/tban.h:263-333 | two commands in a row decode into both, in order |
| Wire.DecodeThree | libtban/tban.h:263-333 | three two-byte commands in a row decode into all three, in order |
| Wire.DecodeAllAppend | libtban/tban.h:263-333 | frames sent one after another decode into the commands of each, in order |
| Wire.DecodeSingleByte | libtban/tban.h:263-272 | a one-byte command frame decodes into its command |
| Wire.ValueOpHead | libtban/tban.h:274-315 | a two-byte opcode is never read as a one-byte command or as the miniNG prefix |
| Wire.DecodeValue | libtban/tban.h:274-315 | a frame of one opcode and value decodes into that write |
| Wire.DecodeValuePair | libtban/tban.h:274-315 | a frame of two opcode and value pairs decodes into both writes |
| Wire.DecodeValueTriple | libtban/tban.h:274-315 | a frame of three opcode and value pairs decodes into all three writes |
| Wire.DecodeMiniFrame | libtban/tban.h:317-322 | a miniNG pass-through frame decodes into its function |
| Wire.DecodeAllEach | libtban/tban.h:263-333 | frames that each decode decode together into the concatenation |
| Wire.DecodeAllOne | libtban/tban.h:263-333 | a single frame decodes on the line as on its own |
| TBanCmds.QueryFrameDecodes | libtban/tban.c:1145-1176 | the status request selects the primary source and then asks |
| TBanCmds.CurveOpcode | libtban/tban.c:1643-1681 | point k of channel nr sits at opcode offset 16*nr + k, and both are recovered from it |
| TBanCmds.CurveFrame | libtban/tban.c:1658-1666 | a point frame is four bytes: the temperature opcode with the doubled temperature, then the pwm opcode six above it with the pwm |
| TBanCmds.CurveFrames | libtban/tban.c:1643-1681 | a curve upload is seven frames |
| TBanCmds.SetChCurveAsWritten | libtban/tban.c:1650 | the guard as written refuses only channels above 4; otherwise a closed handle is refused, else the seven frames go out |
| TBanCmds.SetChCurveChannelFourMisdirected | libtban/tban.c:1650 | channel 4 passes the guard, and its first frame writes the maximum temperature of channel 0 and the absolute scaling of digital sensor 2 instead of a curve point |
| TBanCmds.SetChCurveAsWrittenDecodes | libtban/tban.c:1650-1679 | what the guard as written sends: for channels 0..3 the six points and the maximum temperature of that channel, for channel 4 a first frame that sets channel 0's maximum temperature and sensor 2's scaling |
| TBanCmds.CurveFramesDecode | libtban/tban.c:1643-1681 | for a real channel, frame i sets the doubled temperature and the pwm of point i, and the last frame sets the doubled maximum temperature |
| TBanCmds.SetChCurve | libtban/tban.c:1643-1681 | with the intended guard, frames go out exactly for an open handle and channel 0..3, and they decode into the six points and the maximum temperature of that channel |
| TBanCmds.SetChCurveGuardsAgree | libtban/tban.c:1650 | the two guards send the same thing on every channel except 4 |
| TBanCmds.SetChHysteresis | libtban/tban.c:1695-1716 | open is checked before the channel; the frame sets the hysteresis of that channel |
| TBanCmds.ResetHardware | libtban/tban.c:1732-1746 | an open handle sends the calibrate command |
| TBanCmds.SetChMode | libtban/tban.c:1762-1783 | masks above 15 are refused; the frame sets the manual-mode mask |
| TBanCmds.SetSensorScaleFact | libtban/tban.c:1799-1820 | the frame sets the scaling factor of that sensor |
| TBanCmds.SetLed | libtban/tban.c:1832-1848 | a non-zero status switches the LED on, zero switches it off |
| TBanCmds.SetBuz | libtban/tban.c:1859-1875 | a non-zero status switches the buzzer on, zero switches it off |
| TBanCmds.SetMotion | libtban/tban.c:2063-2087 | a zero limit is refused with VALUE_NULL_PTR; otherwise one frame sets the three blockage limits |
| TBanCmds.SetChSensAssignment | libtban/tban.c:2104-2125 | one frame sets the digital and the analog sensor of the channel |
| TBanCmds.SetChPwm | libtban/tban.c:2141-2162 | the index is checked before the value; the frame sets the channel's pwm |
| TBanCmds.SetChInitValue | libtban/tban.c:2181-2202 | the index is checked before the value; the frame sets the start-up pwm |
| TBanCmds.SetPwmFreq | libtban/tban.c:2215-2232 | every frequency is sent and sets the pwm frequency |
| TBanCmds.Ping | libtban/tban.c:2246-2264 | one frame pings the sensors in the mask |
| TBanCmds.SetTacho | libtban/tban.c:2404-2422 | one frame selects the tacho channels |
| TBanCmds.KickWatchdog | libtban/tban.c:2329-2350 | it is sent exactly when the firmware is 2.8 or later, otherwise FW_TOO_OLD, and it switches the watchdog on |
| TBanCmds.DisableWatchdog | libtban/tban.c:2365-2386 | it is sent exactly when the firmware is 2.8 or later, and it switches the watchdog off |
| TBanStatus.TablesInsideStatusVector | libtban/tban.c:80-105 | every position a getter reads lies inside the 285 bytes a query fills, and the curve tables are where the getters expect them |
| TBanStatus.Present | libtban/tban.c:1187-1198 | the vector is valid exactly when it starts with 100 |
| TBanStatus.GetValue | libtban/tban.c:1344-1356 | on an open handle, the byte at the index; otherwise NOT_OPENED |
| TBanStatus.FwLevel | libtban/tban.c:2435-2452 | the firmware level is ten times the major nibble plus the minor nibble |
| TBanStatus.CheckFw | libtban/tban.c:2435-2452 | OK exactly when the level reaches the required one, otherwise FW_TOO_OLD, open or not |
| TBanStatus.CheckFwMonotone | libtban/tban.c:2435-2452 | passing a firmware check means passing every lower one |
| TBanStatus.WatchdogLevelBoundary | libtban/tban.c:2435-2452 | version byte 0x28 is the first that allows the watchdog, and 0x27 does not |
| TBanStatus.GetHwInfo | libtban/tban.c:1221-1274 | on an open handle, the application, date, type, nibbles of the version and protocol from their positions |
| TBanStatus.FwLevelMatchesHwInfo | libtban/tban.c:2435-2452 | the level the firmware check compares is the major and minor version the hardware info reports |
| TBanStatus.GetPwmFreq | libtban/tban.c:1287-1300 | on an open handle, the pwm frequency byte |
| TBanStatus.GetChOvertemp | libtban/tban.c:1313-1325 | open is checked before the channel; the value is the channel's warning temperature |
| TBanStatus.RpmMax | libtban/tban.c:1376-1417 | the maximum rpm is 10.5 times the two-byte value, rounded down |
| TBanStatus.GetChInfo | libtban/tban.c:1376-1417 | the index is checked before open; the maximum rpm, pwm, temperature and mode of the channel |
| TBanStatus.GetDSensorScaleFact | libtban/tban.c:1432-1447 | the index is checked before open; the digital sensor's scaling factor |
| TBanStatus.GetDSensorTemp | libtban/tban.c:1466-1483 | the temperature, raw value and calibration of a digital sensor |
| TBanStatus.GetASensorTemp | libtban/tban.c:1502-1519 | the temperature, raw value and calibration of an analog sensor |
| TBanStatus.GetLed | libtban/tban.c:1535-1548 | on an open handle, the LED flag |
| TBanStatus.GetBuzzer | libtban/tban.c:1563-1576 | on an open handle, the buzzer flag |
| TBanStatus.GetChMode | libtban/tban.c:1892-1908 | open is checked first; the mode and start mode of the channel |
| TBanStatus.GetChHysteresis | libtban/tban.c:1923-1938 | open is checked first; the hysteresis of the channel |
| TBanStatus.GetChSensAssignment | libtban/tban.c:1954-1970 | open is checked first; the digital and analog sensor of the channel |
| TBanStatus.GetWatchdog | libtban/tban.c:2298-2314 | the firmware is checked before the open flag; the watchdog flag and counter |
| TBanStatus.CurveX | libtban/tban.c:1596-1624 | six stored temperatures of the channel, then its maximum temperature |
| TBanStatus.CurveY | libtban/tban.c:1596-1624 | six stored pwms of the channel, then 100 percent |
| BigNG.QueryFrameDecodes | libtban/big_ng.c:396-423 | the bigNG request selects the alternative source and then asks |
| BigNG.Present | libtban/big_ng.c:123-133 | a bigNG is present exactly when the base vector reports its hardware type |
| BigNG.DataPresent | libtban/big_ng.c:433-444 | the bigNG vector is valid exactly when it starts with 100 |
| BigNG.GetValue | libtban/big_ng.c:462-474 | on an open handle, the byte of the bigNG vector |
| BigNG.OutputModeBit | libtban/big_ng.c:148-165 | channel i is ANALOG exactly when bit i of the mode byte is set, otherwise PWM |
| BigNG.Pow2 | libtban/big_ng.c:148-165 | the bit weights are positive |
| BigNG.OutputModeBitsRebuild | libtban/big_ng.c:283-303 | reading the four channel modes of a four-bit mask gives the mask back |
| BigNG.GetOvertemp | libtban/big_ng.c:178-188 | on an open handle, the system over-temperature byte |
| BigNG.GetChSensAssignment | libtban/big_ng.c:207-225 | open is checked first; the three sensors assigned to the channel |
| BigNG.GetASensorTemp | libtban/big_ng.c:324-343 | the index is checked first; the additional sensor's values, with its absolute scaling from the bigNG vector |
| BigNG.GetDSensorTemp | libtban/big_ng.c:363-381 | the index is checked first; the digital sensor with its bigNG absolute scaling |
| BigNG.GetChInfo | libtban/big_ng.c:674-716 | the channel information extended by the target temperature and target mode |
| BigNG.SetChSensAssignment | libtban/big_ng.c:241-267 | the index is checked before the four-bit bigNG sensor; one frame sets all three assignments |
| BigNG.SetOutputMode | libtban/big_ng.c:283-303 | masks above 15 are refused with VALUE_OUT_OF_BOUNDS; the frame sets the output mode |
| BigNG.SetAsScalingFact | libtban/big_ng.c:487-507 | only the four additional sensors are accepted; the frame sets the scaling factor |
| BigNG.SetAsAbsScalingFact | libtban/big_ng.c:522-542 | only the four additional sensors are accepted; the frame sets the absolute scaling |
| BigNG.SetDsAbsScalingFact | libtban/big_ng.c:557-577 | only the eight digital sensors are accepted; the frame sets the absolute scaling |
| BigNG.SetChTargetTemp | libtban/big_ng.c:590-610 | the target goes out doubled into a byte |
| BigNG.TargetTempRoundTrip | libtban/big_ng.c:590-610 | the device halves the value back to the target exactly when the target is below 128 |
| BigNG.SetChTargetMode | libtban/big_ng.c:630-652 | modes above 6 are refused with the index error; the frame sets the mode |
| MiniNG.Present | libtban/mini_ng.c:144-157 | a miniNG is present exactly when its vector carries the markers 100, 253 and 254 |
| MiniNG.GetValue | libtban/mini_ng.c:223-235 | on an open handle, the byte of the miniNG vector |
| MiniNG.GetASensorTemp | libtban/mini_ng.c:303-320 | the index is checked first; the sensor's temperature, raw value and calibration |
| MiniNG.GetChRpm | libtban/mini_ng.c:337-353 | the index is bounded by the sensor count; the current and maximum rpm bytes |
| MiniNG.GetChHysteresis | libtban/mini_ng.c:367-382 | open is checked first; the channel's hysteresis |
| MiniNG.GetChOverTemp | libtban/mini_ng.c:397-412 | the index is checked first; the channel's over-temperature limit |
| MiniNG.GetHwInfo | libtban/mini_ng.c:475-493 | status, jumper, both potentiometers and the time base |
| MiniNG.CurveX | libtban/mini_ng.c:431-459 | temperature 0 first, then the stored values halved |
| MiniNG.CurveY | libtban/mini_ng.c:431-459 | the five stored pwms, then 100 percent |
| MiniNG.CurveFrame | libtban/mini_ng.c:513-573 | a pass-through frame is seven bytes |
| MiniNG.CurveFrames | libtban/mini_ng.c:513-573 | a curve upload is five frames, one per point |
| MiniNG.SetChCurveAsWritten | libtban/mini_ng.c:521 | the guard as written refuses only channels above 2 |
| MiniNG.SetChCurveChannelTwoUndecodable | libtban/mini_ng.c:521 | channel 2 passes the guard and every frame it sends carries a function code the miniNG does not have |
| MiniNG.SetChCurveAsWrittenDecodes | libtban/mini_ng.c:513-573 | what the guard as written sends: for channels 0 and 1 the five curve points of that channel, for channel 2 five frames that name no miniNG function |
| MiniNG.SetChCurve | libtban/mini_ng.c:513-573 | with the intended guard, frames go out exactly for an open handle and channel 0 or 1 |
| MiniNG.CurveFramesDecode | libtban/mini_ng.c:513-573 | frame i sets point i of the channel's curve to the doubled temperature and the pwm |
| MiniNG.SetChCurveGuardsAgree | libtban/mini_ng.c:521 | the two guards agree on every channel except 2 |
| MiniNG.StatusCodes | libtban/mini_ng.h:117-134 | entry k of the status table carries code k |
| MiniNG.StrStat | libtban/mini_ng.c:168-176 | codes 0..15 have the text of their entry; no other code has one |
| MiniNG.StrStatReadsPastTable | libtban/mini_ng.c:170 | a code of 16 or more runs the loop past the 16 entries |
| Messages.ScanWithinTable | libtban/tban.c:559-567 | a lookup bounded by the entry count stays inside the table and finds a code exactly when an entry carries it |
| Messages.ScanFindsFirst | libtban/tban.c:559-567 | the lookup returns the first entry with the code |
| Messages.ScanPastTable | libtban/tban.c:561 | bounded past the table, looking up a code that no entry carries reads past the end |
| Messages.ErrorCodes | libtban/tban.c:117-144 | the codes of the table, entry by entry |
| Messages.StrError | libtban/tban.c:559-567 | a code has a name exactly when an entry carries it, and then it is that entry's name |
| Messages.StrErrorDesc | libtban/tban.c:578-587 | a code has a description exactly when an entry carries it |
| Messages.ErrorMapComplete | libtban/tban.c:117-144 | every entry has a description and no code appears twice |
| Messages.EsigEmptySetNamed | libtban/tban.c:138 | with the comma, ESIGEMPTYSET has its own name and description |
| Messages.ErrorLookupAsWritten | libtban/tban.c:559-587 | a lookup bounded by the size of the table in bytes: a code found, or the read past the end for a code not found |
| Messages.ScanAgree | libtban/tban.c:561 | where a code is in the table, the byte-bounded scan finds the same entry |
| Messages.EsigEmptySetFused | libtban/tban.c:138 | without the comma, the name of ESIGEMPTYSET carries its description and its description is null |
| Messages.StrErrorReadsPastTable | libtban/tban.c:561 | the codes whose entries fell off the end are looked up past the table |
| Messages.WarnCodes | libtban/tban.c:157-169 | the codes of the warning table, entry by entry |
| Messages.StrWarn | libtban/tban.c:599-607 | a level has a name exactly when an entry carries it |
| Messages.StrWarnDesc | libtban/tban.c:618-626 | a level has a description exactly when it has a name |
| Messages.StrWarnReadsPastTable | libtban/tban.c:601 | a level with no entry is looked up past the table |
| Parser.ScanWord | libtban/parser.c:144-198 | a read hits the end of the file with PARSE_ERROR, or stops within the input with PARSE_OK |
| Parser.ScanWordParts | libtban/parser.c:144-198 | what is left is a suffix of the input, and the word holds only characters that are not ignored |
| Parser.ScanThrough | libtban/parser.c:144-198 | a stretch without stop characters is kept whole, less its ignored characters, and the stop after it is consumed |
| Parser.ReadWordParts | libtban/parser.c:144-198 | what is left is a suffix of the input, the word holds no ignored and no stop character, and blank input without a stop reads nothing and hits the end of the file |
| Parser.BlanksReadNothing | libtban/parser.c:144-198 | leading blanks with no stop character after them give an empty word at the end of the file |
| Parser.ReadWordStopsAtFirst | libtban/parser.c:144-198 | the first stop character ends the read and is consumed |
| Parser.ReadWordHitsEof | libtban/parser.c:144-198 | without a stop character the read runs into the end of the file |
| Parser.ReadWordClean | libtban/parser.c:144-198 | a clean word followed by a stop is read back exactly |
| Parser.KeptClean | libtban/parser.c:144-198 | a word with no ignored characters is kept as it is |
| Parser.ReadWordQuoted | libtban/parser.c:144-198 | a quoted word is read without its quotes |
| Parser.KeptQuote | libtban/parser.c:144-198 | the closing quote is dropped |
| Parser.MatchWord | libtban/parser.c:125-131 | matching words have the same length |
| Parser.MatchWordSelf | libtban/parser.c:125-131 | every word matches itself |
| Parser.MatchWordIff | libtban/parser.c:125-131 | words match exactly when they are equal up to the case of ASCII letters |
| Parser.ConvertAsciiToInt | libtban/parser.c:209-227 | -2 exactly when the word does not start with a digit, otherwise the value of its leading digits |
| Parser.ConvertDecimal | libtban/parser.c:209-227 | a written number reads back |
| Parser.WithTable | libtban/parser.c:250-411 | one table replaced, the others kept |
| Parser.Assign | libtban/parser.c:250-269 | entry k of one table gets the new names; every other entry of every table stays |
| Parser.DefaultTable | libtban/tban.c:678-706 | the default name of entry i is the prefix followed by i, for both name and description |
| Parser.DefaultNames | libtban/tban.c:678-706 | every default table has exactly its number of entries |
| Parser.LookupTagFromSpec | libtban/parser.c:442-452 | from entry i on, no tag exactly when no entry matches; otherwise the tag of the first entry that matches |
| Parser.LookupTagScan | libtban/parser.c:442-452 | the tag scan of tban_parseConfig: no tag exactly when no entry of the tag list matches, otherwise the tag of the first that does |
| Parser.LookupTagFromFirst | libtban/parser.c:425-468 | the tag scan stops at the first entry that matches |
| Parser.LookupTagFromNone | libtban/parser.c:425-468 | a word that matches no entry gets no tag |
| Parser.LookupTagFirst | libtban/parser.c:103-115 | a word gets the tag of the first entry of the tag list it matches |
| Parser.LookupTagNone | libtban/parser.c:103-115 | a word that matches no entry has no tag |
| Parser.MatchKey | libtban/parser.c:125-131 | matching words agree in length and in the lower-case letters that tell the tags apart |
| Parser.LookupTagEntry | libtban/parser.c:103-115 | each tag word is read as its own entry |
| Parser.TagNameTag | libtban/parser.c:103-115 | the tag word of each table is read as that table's tag |
| Parser.ReadEntry | libtban/parser.c:250-269 | reading an entry consumes input and ends at the end of the file when it is hit |
| Parser.ReadEntryLine | libtban/parser.c:250-269 | a line `k "a" "b"` is read back as index k with short name a and long name b |
| Parser.NameEntryAsWritten | libtban/parser.c:250-269 | the callback as written stores any index in range and writes outside its table otherwise |
| Parser.NameEntryNonNumberWritesOutside | libtban/parser.c:256-261 | an index word that is not a number makes the callback write at index -2 |
| Parser.NameEntry | libtban/parser.c:250-411 | the corrected callback stores an entry with an index in range and ignores the others |
| Parser.NameEntryAgrees | libtban/parser.c:250-411 | wherever the callback as written stores inside its table, the corrected one stores the same |
| Parser.SkipLine | libtban/parser.c:236-241 | a comment line is consumed up to its end |
| Parser.ParseLoop | libtban/parser.c:425-468 | with the corrected name callback NameEntry, the parse returns OK or CONFIG_FILE_ERROR, and every table keeps its size |
| Parser.ParseEmpty | libtban/parser.c:425-468 | an empty file changes nothing |
| Parser.ParseComment | libtban/parser.c:425-468 | a comment line is skipped whole |
| Parser.ScanLeadingSame | libtban/parser.c:144-198 | with a newline stop, skipping leading blanks does not change where a read ends |
| Parser.ScanLeadingRest | libtban/parser.c:144-198 | the same for either setting of the leading flag |
| Parser.ParseFileEnd | libtban/parser.c:425-468 | FILE_END is accepted and parsing goes on after it |
| Parser.ParseNameLine | libtban/parser.c:425-468 | a name line for an entry of its table sets that entry's names and parsing goes on |
| Parser.TagNameClean | libtban/parser.c:103-115 | tag words hold no blank and no quote |
| Parser.ParseNamed | libtban/parser.c:425-468 | a name line whose tag was read is handed to its table's callback |
| Parser.ParseUnknownTag | libtban/parser.c:425-468 | a word that is no tag ends the parse with CONFIG_FILE_ERROR |
| Parser.Stream.constructor | libtban/parser.c:425-468 | an opened file reads from the start |
| Parser.Stream.GetC | libtban/parser.c:144-198 | fgetc gives the next character, or none and the end-of-file flag |
| Parser.Stream.ReadWord | libtban/parser.c:144-198 | the character loop reads what the word-read specification says and leaves the stream after it |
| LinkedList.Node.constructor | tbancontrol/ll.c:46-67 | a new node holds its data and is linked to nothing |
| LinkedList.FirstMatch | tbancontrol/ll.c:233-259 | the position of the first element the callback matches, or the length when none does |
| LinkedList.DList.constructor | tbancontrol/ll.c:14-33 | a new list is empty, the head linked straight to the tail |
| LinkedList.DList.Prepend | tbancontrol/ll.c:46-67 | the element goes in front of the others |
| LinkedList.DList.Append | tbancontrol/ll.c:79-104 | the element goes behind the others |
| LinkedList.DList.First | tbancontrol/ll.c:116-118 | the head sentinel, which holds no data |
| LinkedList.DList.Last | tbancontrol/ll.c:129-131 | the node of the last element, or the head when the list is empty |
| LinkedList.DList.Get | tbancontrol/ll.c:134-153 | the node of element number, or null outside the list |
| LinkedList.DList.Unlink | tbancontrol/ll.c:163-188 | unlinking a node removes exactly its element |
| LinkedList.DList.RemoveIndex | tbancontrol/ll.c:163-188 | element index is removed and 0 returned, or -1 and nothing changes |
| LinkedList.DList.Remove | tbancontrol/ll.c:233-259 | the first matching element is removed and 1 returned; 0 and no change when nothing matches; a missing callback is refused |
| LinkedList.DList.Traverse | tbancontrol/ll.c:199-220 | the callback is applied to every element in order; a missing one is refused |
| Monitor.Pad2 | tbancontrol/monitor.c:132 | `%02d` writes at least two digits, and exactly the two digits of a number below 100 |
| Monitor.Stamped | tbancontrol/monitor.c:130-143 | the log line ends in a blank and the message |
| Monitor.KeepLast | tbancontrol/monitor.c:139-142 | the log keeps eight lines once it has that many |
| Monitor.KeepLastSuffix | tbancontrol/monitor.c:139-142 | the log is the end of the history, line for line |
| Monitor.KeepLastAppend | tbancontrol/monitor.c:130-143 | adding to the kept window and trimming it again is the window of the longer history |
| Monitor.TrimStep | tbancontrol/monitor.c:130-143 | an addition to a full log drops its oldest line |
| Monitor.CharOf | tbancontrol/monitor.c:510 | storing a key code in a `char` keeps it modulo 256 in -128..127 and leaves character codes unchanged |
| Monitor.KeyOfCode | tbancontrol/monitor.c:531-584 | with the key code kept whole: up for KEY_UP or `q`, down for KEY_DOWN or `a`, tab for the tab character, otherwise nothing |
| Monitor.KeyOfCodeAsWritten | tbancontrol/monitor.c:510-584 | with the code stored in `char ch`: up exactly for `q`, down exactly for `a`, tab for the tab character |
| Monitor.ArrowKeysIgnored | tbancontrol/monitor.c:510 | KEY_UP and KEY_DOWN are stored as 3 and 2 and then move nothing, while the whole code would move the cursor |
| Monitor.KeyOfCodeAgrees | tbancontrol/monitor.c:510-584 | for character codes the two readings of a key agree |
| Monitor.ErrorLine | tbancontrol/monitor.c:475-481 | the error line starts with the update prefix and ends with the code in brackets |
| Monitor.SignedDecimalReadBack | tbancontrol/monitor.c:475-481 | `%d` of any int, negative ones included, followed by a non-digit reads back with atoi |
| Monitor.UpdateErrorLineReadBack | tbancontrol/monitor.c:475-481 | the logged error line starts with the prefix, ends with `]`, and the code in the brackets reads back as the result |
| Monitor.StepUp | tbancontrol/monitor.c:540-556 | up moves to the predecessor and wraps from 0 to the last position |
| Monitor.StepDown | tbancontrol/monitor.c:557-573 | down moves to the successor and wraps from the last position to 0 |
| Monitor.StepUpDown | tbancontrol/monitor.c:540-573 | up and down undo each other |
| Monitor.Monitor.constructor | tbancontrol/monitor.c:513-524 | the log starts with the start line, and the cursor starts on the first channel |
| Monitor.Monitor.LogAddEntry | tbancontrol/monitor.c:130-143 | the stamped line goes at the end, and a ninth line pushes out the oldest |
| Monitor.Monitor.DropOldest | tbancontrol/monitor.c:139-142 | the oldest line is removed and the count follows |
| Monitor.Monitor.LogGetEntry | tbancontrol/monitor.c:149-152 | line i of the log, oldest first, or none |
| Monitor.Monitor.HandleKey | tbancontrol/monitor.c:540-584 | up and down move within the selected window, wrapping at both ends; tab switches window. As KeyOfCodeAsWritten reads the code, only q, a and tab reach these cases; KeyOfCode is the intended reading |
| Monitor.Monitor.Refresh | tbancontrol/monitor.c:615-620 | the `l` key logs a line, queries, and logs the error when the query fails |
| Monitor.Monitor.QueryChecked | tbancontrol/monitor.c:617-618 | queries the status and logs the error line only when the query fails |
| Monitor.Monitor.Query | tbancontrol/monitor.c:617 | a status query changes the handle and leaves the log alone |
| Monitor.Monitor.CheckResult | tbancontrol/monitor.c:475-481 | a failing result adds its error line to the log; OK adds nothing |
| Monitor.Monitor.AutoUpdate | tbancontrol/monitor.c:629-642 | more than five seconds after the last automatic query the status is queried again, and only a good answer is logged |
| Cli.ParseCmdArgument | tbancontrol/tbancontrol.c:352-375 | a missing argument is -1, one not starting with a digit is -2, otherwise the value of its leading digits |
| Cli.ParseCmdArgumentDecimal | tbancontrol/tbancontrol.c:352-375 | a printed number reads back |
| Cli.ParseCmdArgumentNoSign | tbancontrol/tbancontrol.c:364-365 | a sign or a blank in front is refused |
| Cli.ParseCmdArgumentUC | tbancontrol/tbancontrol.c:378-393 | the argument checks, then -5 below 0 and -6 above 255, otherwise the value as a byte |
| Cli.ParseCmdArgumentUCNotNegative | tbancontrol/tbancontrol.c:386-387 | -5 never arises |
| Cli.ParseCmdArgumentUCDecimal | tbancontrol/tbancontrol.c:378-393 | a printed byte value is accepted and a larger number refused with -6 |
| Cli.MaxRuns | tbancontrol/tbancontrol.c:411-423 | the first run and nrRetries more |
| Cli.Retry | tbancontrol/tbancontrol.c:411-423 | the command is rerun while it fails and retries are left; every run before the last failed, and a failure is returned only after every allowed run |
| Cli.PretendRun | tbancontrol/tbancontrol.c:440-452 | in pretend mode nothing runs and the result is OK; otherwise the retry loop |
| Cli.CurveCommand | tbancontrol/tbancontrol.c:1957-1982 | a curve not starting at 0 degrees or not ending at 100 percent is -1; otherwise the library's upload with its guard as written: channels above 4 are refused, channels 0..3 get their six points, and channel 4 is sent, its first frame setting channel 0's maximum temperature and sensor 2's scaling |
| Cli.CurveLastPwmUnused | tbancontrol/tbancontrol.c:1957-1982 | the seventh pwm is checked but never sent: the command is the as-written upload whatever that pwm holds |
| Cli.MiniCurveCommand | tbancontrol/tbancontrol.c:2263-2290 | the miniNG curve checks, with the channel truncated to its low byte, then the library's upload with its guard as written: channels above 2 are refused, channels 0 and 1 get their points, and channel 2's five frames name no miniNG function |
| Cli.ModeMask | tbancontrol/tbancontrol.c:1863 | the mask is the weighted sum of the four modes kept modulo 256, and exactly that sum when every mode is 0 or 1 |
| Cli.ModeMaskBits | tbancontrol/tbancontrol.c:1863 | four on/off channel modes give a mask of at most 15 whose bit i is the mode of channel i |
| Cli.ModeMaskRebuild | tbancontrol/tbancontrol.c:2103 | every four-bit mask is the mask of its own bits |
| Cli.ModeMaskCarries | tbancontrol/tbancontrol.c:1994 | modes other than 0 and 1 carry into the next channel's bit or out of the byte |
| Cli.WatchdogGate | tbancontrol/tbancontrol.c:1781-1789 | the watchdog is kicked exactly when the option is on and the firmware is 2.8 or later; older firmware switches the option off |
| Cli.WatchdogGateStaysOff | tbancontrol/tbancontrol.c:1781-1789 | once off, the watchdog is never kicked again |

## Left out

- The NULL-pointer checks (STRUCT_NULL_PTR, VALUE_NULL_PTR, BUF_NULL_PTR) are not modelled: handles, buffers and out-values always exist, and out-values become results. The one exception is the zero-limit check of setMotion, which returns VALUE_NULL_PTR for a value.
- The termios, fcntl and sigaction set-up of tban_open is one `Setup` outcome: which step fails, not how the port is configured.
- The SIGIO handler, `nanosleep` and `sleep` are modelled as counters and chunk scripts (`delayNs`, `rx`, the host clock), not as real time.
- tban_flushData, tban_free, tban_setProgressCb and the progress callback are not modelled, and neither is any other memory management.
- TBanStatus.RpmMax: the floating-point product `* 10.5` of the channel getters is modelled as its exact integer floor.
- Ascii.Atoi: overflow of `atoi` is not modelled, so the -3 path of parseCmdArgument (value 0 with errno set) never arises.
- Cli.ParseCmdArgumentUC: the -5 path (negative value) cannot arise without overflow, as `ParseCmdArgumentUCNotNegative` shows.
- Parser.ScanWord: the fixed-size word buffers of readWord and the callbacks are not modelled; an overlong word overflows them in the library.
- Parser.ParseLoop: it uses the corrected callback NameEntry; the store at dsName[-2] that a DS line with an index word that is not a number causes is shown by NameEntryAsWritten only.
- Handle.TBan.ParseConfig: it parses with the corrected callback NameEntry, so the out-of-table store of a DS line with a bad index is not part of its result.
- Parser.NameEntryAsWritten: it reports the out-of-table write as `WildWrite` and does not model what that write damages.
- Handle.TBan.GetChCurve: the x and y arrays must be distinct from each other and from the status buffer; aliasing is not modelled.
- Negative indices of the getters are taken as `nat`; with a negative index the library reads before the table.
- HostEnv.Host.CreateFile: a failing `fclose` is not modelled, and neither is a failing `getpid`.
- Handle.TBan.constructor: the clearing of only `sizeof(tban->buf)` bytes is the size of a pointer on LP64 systems (8 bytes).
- Handle.TBan.MiniSetChCurve: the library polls without a bound; the model takes a poll budget and reports `hung` when the budget runs out. It also uses the corrected channel check, so channel 2 is refused here while the guard at mini_ng.c:521 sends it; MiniNG.SetChCurveAsWritten shows what is sent then.
- Handle.TBan.ReadData: the first read in the library does not check the timeout; the model treats an exhausted chunk script the same way at every read.
- HostEnv.LockHolder: it reads the first 16 bytes as a whole string; the library's `buf[16]` has no terminator, so 16 digits make atoi read past the buffer, and that is not modelled.
- HostEnv.Host.FileExists: the same unterminated 16-byte buffer is not modelled; the pid is what atoi would read from those 16 bytes alone.
- Handle.TBan.Lock: a failing `getsid` for any reason, not only a dead process, counts as a stale lock; errno is not modelled.
- The curses screen, the monitor's key loop itself, Escape, Enter and the form input of the monitor are not modelled. The keys are modelled one call at a time.
- Monitor.Monitor.AutoUpdate: the error text the library builds for a failed automatic update is never logged, so it is not modelled.
- LinkedList.DList.Traverse: the callback returns nothing in C; the model collects what it gives back for each element instead of side effects.
- LinkedList.DList.First: returns the head sentinel, as ll_first does, not the first element.
- Monitor.CharOf: `char` is taken as signed; with an unsigned `char` the arrow codes would be stored as the same 3 and 2 and stay unmatched too.
- Cli.MiniCurveCommand: the `(int*)&ch` store into an unsigned char is modelled as keeping the low byte, which holds on little-endian machines.
- The argument-count checks and the dispatch over `argv` in tbancontrol, and every `printf`, are not modelled.

## Findings

| source | as written | input that shows it | evidently intended | confidence | as-written member | corrected member |
|---|---|---|---|---|---|---|
| libtban/tban.c:1650 | `nr > TBAN_NUMBER_CHANNELS` lets channel 4 through | tban_setChCurve with nr = 4 on an open handle: the first frame starts with 0x90, the maximum-temperature opcode | `nr >= TBAN_NUMBER_CHANNELS`, as setChHysteresis has at tban.c:1703 | not executed | TBanCmds.SetChCurveChannelFourMisdirected | TBanCmds.SetChCurve |
| libtban/mini_ng.c:521 | `nr > MINI_NG_NUMBER_CHANNELS` lets channel 2 through | miniNG_setChCurve with nr = 2: every frame carries function code 0x50 + i, which the miniNG does not have | `nr >= MINI_NG_NUMBER_CHANNELS` | not executed | MiniNG.SetChCurveChannelTwoUndecodable | MiniNG.SetChCurve |
| libtban/tban.c:138 | a missing comma fuses the name and description of ESIGEMPTYSET | tban_strerror(TBAN_ESIGEMPTYSET) gives "TBAN_ESIGEMPTYSETError when clearing the sig set", and tban_strerrordesc gives NULL | a comma between the two strings | not executed | Messages.EsigEmptySetFused | Messages.EsigEmptySetNamed |
| libtban/tban.c:561 | the lookup loops run to `sizeof` of the table, its size in bytes, not its entry count | tban_strerror(TBAN_LOCK_FILE_CHANGE_NOT_ALLOWED) reads past the 22 entries; so does any code without an entry | `sizeof(TBan_errorMap)/sizeof(TBan_errorMap[0])` | not executed | Messages.StrErrorReadsPastTable | Messages.StrError |
| libtban/mini_ng.c:170 | the same byte-size bound in miniNG_strstat | miniNG_strstat(16) reads past the 16 entries | the entry count as the bound | not executed | MiniNG.StrStatReadsPastTable | MiniNG.StrStat |
| tbancontrol/monitor.c:510 | `char ch` holds the code getch returns, so the KEY_UP and KEY_DOWN cases never match | pressing the up arrow: getch gives 259 (KEY_UP), stored as 3, and the cursor stays where it is | `int ch`, as formGetValue declares its key variable at monitor.c:163 | not executed | Monitor.ArrowKeysIgnored | Monitor.KeyOfCode |
| libtban/parser.c:256-261 | the index from convertAsciiToInt is used without a check | a DS line whose index word is not a number stores the names at dsName[-2] | store only indices inside the table | not executed | Parser.NameEntryNonNumberWritesOutside | Parser.NameEntry |
