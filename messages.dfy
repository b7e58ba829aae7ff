// The text tables of the library: status-code names and descriptions,
// and the warning levels the device reports.  Every lookup scans its
// table from the start and answers with the first entry carrying the
// code, or with nothing.
//
// The library's scans are bounded by the size of the table in BYTES
// rather than by its number of entries; `ScanFrom` models the loop with
// an explicit bound so that both the loop as written and the loop over
// the entries can be stated.  Entry sizes are those of a 64-bit (LP64)
// build: 24 bytes for an error or warning entry (an int and two
// pointers), 16 for a miniNG status entry (a byte and a pointer).

module Messages {
  import opened TBanDefs

  /** How a scan ends: at the first entry with the code, after `bound`
    * entries without one, or by reading at an index past the table. */
  datatype Scan = Found(index: nat) | NotFound | PastEnd(index: nat)

  /** The lookup loop: entries i, i+1, ... below `bound` are compared
    * with `code`. */
  function ScanFrom(codes: seq<int>, code: int, bound: nat, i: nat): Scan
    decreases bound - i
  {
    if i >= bound then NotFound
    else if i >= |codes| then PastEnd(i)
    else if codes[i] == code then Found(i)
    else ScanFrom(codes, code, bound, i + 1)
  }

  /** Bounded by the number of entries, the scan never leaves the table;
    * it finds the first entry carrying the code, and reports NotFound
    * exactly when no entry from i on carries it. */
  lemma {:induction false} ScanWithinTable(codes: seq<int>, code: int, i: nat)
    requires i <= |codes|
    ensures !ScanFrom(codes, code, |codes|, i).PastEnd?
    ensures ScanFrom(codes, code, |codes|, i).Found? <==> exists j :: i <= j < |codes| && codes[j] == code
    ensures ScanFrom(codes, code, |codes|, i).Found? ==>
      var k := ScanFrom(codes, code, |codes|, i).index;
      i <= k < |codes| && codes[k] == code && forall j :: i <= j < k ==> codes[j] != code
    decreases |codes| - i
  {
    if i < |codes| && codes[i] != code {
      ScanWithinTable(codes, code, i + 1);
    }
  }

  /** The scan stops at the first entry carrying the code, whatever the
    * bound beyond it. */
  lemma {:induction false} ScanFindsFirst(codes: seq<int>, code: int, bound: nat, i: nat, k: nat)
    requires i <= k < |codes| && k < bound && codes[k] == code
    requires forall j :: i <= j < k ==> codes[j] != code
    ensures ScanFrom(codes, code, bound, i) == Found(k)
    decreases k - i
  {
    if i < k {
      ScanFindsFirst(codes, code, bound, i + 1, k);
    }
  }

  /** Bounded past the table, the scan for a code no entry carries reads
    * the first index beyond the table. */
  lemma {:induction false} ScanPastTable(codes: seq<int>, code: int, bound: nat, i: nat)
    requires i <= |codes| < bound
    requires forall j :: i <= j < |codes| ==> codes[j] != code
    ensures ScanFrom(codes, code, bound, i) == PastEnd(|codes|)
    decreases |codes| - i
  {
    if i < |codes| {
      ScanPastTable(codes, code, bound, i + 1);
    }
  }

  /** What a lookup as written hands back: a text, the null pointer, or
    * nothing defined at all (the scan read past the table). */
  datatype Lookup = Text(s: string) | Null | ReadPastEnd(index: nat)

  // ---- Status codes ----

  datatype ErrorEntry = ErrorEntry(code: int, text: string, description: Option<string>)

  const ERROR_ENTRY_SIZE: nat := 24

  /** The status-code table with every entry complete: each code's own
    * name and its description. */
  const ErrorMap: seq<ErrorEntry> := [
    ErrorEntry(OK, "TBAN_OK", Some("Command executed ok")),
    ErrorEntry(ERROR, "TBAN_ERROR", Some("Unknown error")),
    ErrorEntry(INDEX_OUT_OF_BOUNDS, "TBAN_INDEX_OUT_OF_BOUNDS", Some("The channel/sensor index is out of bounds")),
    ErrorEntry(VALUE_OUT_OF_BOUNDS, "TBAN_VALUE_OUT_OF_BOUNDS", Some("The value supplied as an argument to the function is out of bounds")),
    ErrorEntry(NOT_OPENED, "TBAN_NOT_OPENED", Some("TBan hardware is not open")),
    ErrorEntry(NOT_IMPLEMENTED, "TBAN_NOT_IMPLEMENTED", Some("Function not implemented yet")),
    ErrorEntry(FW_TOO_OLD, "TBAN_FW_TOO_OLD", Some("The currently loaded firmware is too old for the function that was trying to execute. Please upgrade")),
    ErrorEntry(STRUCT_NULL_PTR, "TBAN_STRUCT_NULL_PTR", Some("The TBan structure tried to operate on is NULL. Need to call the tban_init() before.")),
    ErrorEntry(VALUE_NULL_PTR, "TBAN_VALUE_NULL_PTR", Some("The value pointer supplied to the function is NULL")),
    ErrorEntry(BUF_NULL_PTR, "TBAN_BUF_NULL_PTR", Some("The buffer rpointer supplied to the function is NULL")),
    ErrorEntry(VECTOR_TO_SMALL, "TBAN_VECTOR_TO_SMALL", Some("The resulting vector is too small")),
    ErrorEntry(CANNOT_MALLOC, "TBAN_CANNOT_MALLOC", Some("malloc couldn't allocate memory")),
    ErrorEntry(CORRUPT_DATA, "TBAN_CORRUPT_DATA", Some("The query vector is corrupt and unusable until a correct update is made to it.")),
    ErrorEntry(EOPEN, "TBAN_EOPEN", Some("open function call failed")),
    ErrorEntry(ECLOSE, "TBAN_ECLOSE", Some("close function call failed")),
    ErrorEntry(ESEND, "TBAN_ESEND", Some("send function call failed")),
    ErrorEntry(ERECEIVE, "TBAN_ERECEIVE", Some("Timeout when receiving data")),
    ErrorEntry(ESIGACTION, "TBAN_ESIGACTION", Some("Error when installing the serial communication handler (sigaction)")),
    ErrorEntry(ESIGEMPTYSET, "TBAN_ESIGEMPTYSET", Some("Error when clearing the sig set")),
    ErrorEntry(CANNOT_CREATE_LOCKFILE, "TBAN_CANNOT_CREATE_LOCKFILE", Some("Cannot create the lock file")),
    ErrorEntry(ALREADY_IN_USE, "TBAN_ALREADY_IN_USE", Some("The TBan is already in use by another program, timeout reached")),
    ErrorEntry(CANNOT_DELETE_LOCK_FILE, "TBAN_CANNOT_DELETE_LOCK_FILE", Some("Cannot delete the lock file"))
  ]

  /** The table as the library initialises it: the comma after the name
    * of the ESIGEMPTYSET entry is missing, so the compiler joins the
    * name and the description into one text and the description is
    * left null. */
  const ErrorMapAsWritten: seq<ErrorEntry> :=
    ErrorMap[18 := ErrorEntry(ESIGEMPTYSET, "TBAN_ESIGEMPTYSET" + "Error when clearing the sig set", None)]

  function ErrorCodes(t: seq<ErrorEntry>): (cs: seq<int>)
    ensures |cs| == |t| && forall j :: 0 <= j < |t| ==> cs[j] == t[j].code
  {
    seq(|t|, j requires 0 <= j < |t| => t[j].code)
  }

  /** The name of a status code, looked up over the entries of the
    * complete table. */
  function StrError(code: int): (r: Option<string>)
    ensures r.Some? <==> exists j :: 0 <= j < |ErrorMap| && ErrorMap[j].code == code
    ensures r.Some? ==> exists j :: 0 <= j < |ErrorMap| && ErrorMap[j].code == code && r.value == ErrorMap[j].text
  {
    var cs := ErrorCodes(ErrorMap);
    ScanWithinTable(cs, code, 0);
    var s := ScanFrom(cs, code, |cs|, 0);
    if s.Found? then Some(ErrorMap[s.index].text) else None
  }

  /** The description of a status code. */
  function StrErrorDesc(code: int): (r: Option<string>)
    ensures r.Some? <==> exists j :: 0 <= j < |ErrorMap| && ErrorMap[j].code == code
    ensures r.Some? ==> exists j :: 0 <= j < |ErrorMap| && ErrorMap[j].code == code && ErrorMap[j].description == r
  {
    var cs := ErrorCodes(ErrorMap);
    ScanWithinTable(cs, code, 0);
    ErrorMapComplete();
    var s := ScanFrom(cs, code, |cs|, 0);
    if s.Found? then ErrorMap[s.index].description else None
  }

  /** Every entry of the complete table has a description, and no code
    * appears twice, so lookups are unambiguous. */
  lemma ErrorMapComplete()
    ensures forall j :: 0 <= j < |ErrorMap| ==> ErrorMap[j].description.Some?
    ensures forall j, k :: 0 <= j < k < |ErrorMap| ==> ErrorMap[j].code != ErrorMap[k].code
  {
  }

  /** With the table fixed, ESIGEMPTYSET has its own name and its
    * description. */
  lemma EsigEmptySetNamed()
    ensures StrError(ESIGEMPTYSET) == Some("TBAN_ESIGEMPTYSET")
    ensures StrErrorDesc(ESIGEMPTYSET) == Some("Error when clearing the sig set")
  {
    assert ErrorMap[18].code == ESIGEMPTYSET;
    assert forall j :: 0 <= j < |ErrorMap| && j != 18 ==> ErrorMap[j].code != ESIGEMPTYSET;
  }

  /** A lookup as the library writes it: the loop runs to the size of the
    * table in bytes, and the entry found yields its name or (when
    * `description` is set) its description. */
  function ErrorLookupAsWritten(code: int, description: bool): (r: Lookup)
    ensures (exists j :: 0 <= j < |ErrorMapAsWritten| && ErrorMapAsWritten[j].code == code) <==> !r.ReadPastEnd?
    ensures r.ReadPastEnd? ==> r.index == |ErrorMapAsWritten|
  {
    var cs := ErrorCodes(ErrorMapAsWritten);
    var s := ScanFrom(cs, code, |cs| * ERROR_ENTRY_SIZE, 0);
    ScanWithinTable(cs, code, 0);
    ScanAgree(cs, code, |cs| * ERROR_ENTRY_SIZE, 0);
    if s.Found? then
      var e := ErrorMapAsWritten[s.index];
      if !description then Text(e.text)
      else if e.description.Some? then Text(e.description.value)
      else Null
    else if s.PastEnd? then ReadPastEnd(s.index)
    else Null
  }

  /** A scan bounded past the table agrees with the scan over the
    * entries when the code is in the table, and otherwise reads past the
    * end. */
  lemma ScanAgree(codes: seq<int>, code: int, bound: nat, i: nat)
    requires i <= |codes| < bound
    ensures (exists j :: i <= j < |codes| && codes[j] == code) ==>
      ScanFrom(codes, code, bound, i) == ScanFrom(codes, code, |codes|, i)
    ensures (forall j :: i <= j < |codes| ==> codes[j] != code) ==>
      ScanFrom(codes, code, bound, i) == PastEnd(|codes|)
    decreases |codes| - i
  {
    if i < |codes| {
      ScanAgree(codes, code, bound, i + 1);
    }
    if forall j :: i <= j < |codes| ==> codes[j] != code {
      ScanPastTable(codes, code, bound, i);
    }
  }

  /** The missing comma: the name of ESIGEMPTYSET carries its description
    * glued on, and its description is null. */
  lemma EsigEmptySetFused()
    ensures ErrorLookupAsWritten(ESIGEMPTYSET, false) == Text("TBAN_ESIGEMPTYSETError when clearing the sig set")
    ensures ErrorLookupAsWritten(ESIGEMPTYSET, true) == Null
  {
    AsWrittenBeforeEsig();
    LookupAsWrittenAt(ESIGEMPTYSET, 18);
    FusedName();
  }

  /** The two adjacent literals the compiler joins. */
  lemma FusedName()
    ensures "TBAN_ESIGEMPTYSET" + "Error when clearing the sig set" == "TBAN_ESIGEMPTYSETError when clearing the sig set"
  {
  }

  /** In the table as written, the entries before ESIGEMPTYSET carry lower
    * codes, and its own entry has the fused name and no description. */
  lemma AsWrittenBeforeEsig()
    ensures |ErrorMapAsWritten| == 22
    ensures forall j :: 0 <= j < 18 ==> ErrorMapAsWritten[j].code < ESIGEMPTYSET
    ensures ErrorMapAsWritten[18] == ErrorEntry(ESIGEMPTYSET, "TBAN_ESIGEMPTYSET" + "Error when clearing the sig set", None)
  {
    ErrorCodesBeforeEsig();
    forall j | 0 <= j < 18
      ensures ErrorMapAsWritten[j].code < ESIGEMPTYSET
    {
      assert ErrorMapAsWritten[j] == ErrorMap[j];
    }
  }

  /** A lookup as written yields the first entry that carries the code. */
  lemma LookupAsWrittenAt(code: int, k: nat)
    requires k < |ErrorMapAsWritten| && ErrorMapAsWritten[k].code == code
    requires forall j :: 0 <= j < k ==> ErrorMapAsWritten[j].code != code
    ensures ErrorLookupAsWritten(code, false) == Text(ErrorMapAsWritten[k].text)
    ensures ErrorLookupAsWritten(code, true) ==
      if ErrorMapAsWritten[k].description.Some? then Text(ErrorMapAsWritten[k].description.value) else Null
  {
    var cs := ErrorCodes(ErrorMapAsWritten);
    ScanFindsFirst(cs, code, |cs| * ERROR_ENTRY_SIZE, 0, k);
  }

  /** The byte bound: the library returns LOCK_FILE_CHANGE_NOT_ALLOWED
    * and CONFIG_FILE_ERROR, neither of which has an entry, so naming
    * either makes the loop read past the table. */
  lemma StrErrorReadsPastTable()
    ensures ErrorLookupAsWritten(LOCK_FILE_CHANGE_NOT_ALLOWED, false) == ReadPastEnd(22)
    ensures ErrorLookupAsWritten(CONFIG_FILE_ERROR, false) == ReadPastEnd(22)
    ensures StrError(LOCK_FILE_CHANGE_NOT_ALLOWED) == None && StrError(CONFIG_FILE_ERROR) == None
  {
    ErrorCodesBounded();
    forall j | 0 <= j < |ErrorMapAsWritten|
      ensures ErrorMapAsWritten[j].code <= CANNOT_DELETE_LOCK_FILE
    {
      if j != 18 {
        assert ErrorMapAsWritten[j] == ErrorMap[j];
      }
    }
  }

  /** The entries before ESIGEMPTYSET carry lower codes. */
  lemma ErrorCodesBeforeEsig()
    ensures |ErrorMap| == 22
    ensures forall j :: 0 <= j < 18 ==> ErrorMap[j].code < ESIGEMPTYSET
  {
  }

  /** The highest code with an entry is CANNOT_DELETE_LOCK_FILE. */
  lemma ErrorCodesBounded()
    ensures |ErrorMap| == 22
    ensures forall j :: 0 <= j < |ErrorMap| ==> ErrorMap[j].code <= CANNOT_DELETE_LOCK_FILE
  {
  }

  // ---- Warning levels ----

  datatype WarnEntry = WarnEntry(code: int, text: string, description: string)

  const WarningMap: seq<WarnEntry> := [
    WarnEntry(0, "Normal", "Normal"),
    WarnEntry(1, "Startup", "Starting up"),
    WarnEntry(3, "USB reset", "USB has been reset"),
    WarnEntry(4, "HeatsinkWarn", "Heatsink onboard warning"),
    WarnEntry(5, "SensorAssignment", "Sensor assignment"),
    WarnEntry(8, "HeatsinkCritical", "Heatsink onboard critical - Reaction: after 10s all to PWM, after 20s all to 100%"),
    WarnEntry(10, "FanBlock", "One of the fans are blocked"),
    WarnEntry(12, "Flow", "Flowmeter range"),
    WarnEntry(18, "TempCritical", "Critical temperature reached"),
    WarnEntry(19, "SwitchOffWarn", "Switch off warning"),
    WarnEntry(20, "SwitchOff", "Switching off")
  ]

  function WarnCodes(t: seq<WarnEntry>): (cs: seq<int>)
    ensures |cs| == |t| && forall j :: 0 <= j < |t| ==> cs[j] == t[j].code
  {
    seq(|t|, j requires 0 <= j < |t| => t[j].code)
  }

  /** The name of a warning level, over the entries of the table. */
  function StrWarn(code: int): (r: Option<string>)
    ensures r.Some? <==> exists j :: 0 <= j < |WarningMap| && WarningMap[j].code == code
    ensures r.Some? ==> exists j :: 0 <= j < |WarningMap| && WarningMap[j].code == code && r.value == WarningMap[j].text
  {
    var cs := WarnCodes(WarningMap);
    ScanWithinTable(cs, code, 0);
    var s := ScanFrom(cs, code, |cs|, 0);
    if s.Found? then Some(WarningMap[s.index].text) else None
  }

  /** The description of a warning level. */
  function StrWarnDesc(code: int): (r: Option<string>)
    ensures r.Some? <==> StrWarn(code).Some?
    ensures r.Some? ==> exists j :: 0 <= j < |WarningMap| && WarningMap[j].code == code && r.value == WarningMap[j].description
  {
    var cs := WarnCodes(WarningMap);
    ScanWithinTable(cs, code, 0);
    var s := ScanFrom(cs, code, |cs|, 0);
    if s.Found? then Some(WarningMap[s.index].description) else None
  }

  /** The warning level is a byte the device reports; levels such as 2
    * have no entry, and the byte-bounded loop as written then reads past
    * the table. */
  lemma StrWarnReadsPastTable()
    ensures ScanFrom(WarnCodes(WarningMap), 2, |WarningMap| * ERROR_ENTRY_SIZE, 0) == PastEnd(|WarningMap|)
    ensures StrWarn(2) == None
  {
    ScanPastTable(WarnCodes(WarningMap), 2, |WarningMap| * ERROR_ENTRY_SIZE, 0);
  }
}
