// The configuration-file parser: a file of lines
//     TBAN_DS 3 "cpu" "CPU die"
// gives names to sensors and channels; `#` starts a comment line and
// FILE_END is accepted and ignored.  The reader works on a character
// stream (class Stream) exactly as `readWord` drives `fgetc`; the pure
// functions below state what a read and a whole parse produce over the
// remaining input.

module Parser {
  import opened TBanDefs
  import opened Ascii

  const PARSE_OK: int := 0
  const PARSE_ERROR: int := 10

  /** White space that is dropped before the first kept character. */
  predicate Blank(c: char)
  {
    c == ' ' || c == '\t' || c == '\n'
  }

  /** One call of `readWord` over the remaining input: the word read, the
    * input left behind, whether end of file was hit, and the status. */
  datatype Word = Word(text: string, rest: string, eof: bool, status: int)

  /** The read loop with its `leading` flag: stop at (and consume) the
    * first stop character; drop ignored characters and leading blanks;
    * running out of input is PARSE_ERROR. */
  function ScanWord(s: string, stop: string, ignore: string, leading: bool): (w: Word)
    ensures w.eof ==> w.rest == [] && w.status == PARSE_ERROR
    ensures !w.eof ==> |w.rest| < |s| && w.status == PARSE_OK
    decreases |s|
  {
    if |s| == 0 then Word([], [], true, PARSE_ERROR)
    else if s[0] in stop then Word([], s[1..], false, PARSE_OK)
    else
      var lead := leading && Blank(s[0]);
      var w := ScanWord(s[1..], stop, ignore, lead);
      if s[0] !in ignore && !lead then w.(text := [s[0]] + w.text) else w
  }

  function ReadWord(s: string, stop: string, ignore: string): Word
  {
    ScanWord(s, stop, ignore, true)
  }

  /** A read leaves a suffix of the input, its word holds no ignored and
    * no stop character, and blank input without a stop reads nothing. */
  lemma ReadWordParts(s: string, stop: string, ignore: string)
    ensures var w := ReadWord(s, stop, ignore);
      |w.rest| <= |s| && w.rest == s[|s| - |w.rest|..] &&
      (forall i :: 0 <= i < |w.text| ==> w.text[i] !in ignore && w.text[i] !in stop) &&
      ((forall i :: 0 <= i < |s| ==> Blank(s[i]) && s[i] !in stop) ==> w.text == [] && w.eof)
  {
    ScanWordParts(s, stop, ignore, true);
    BlanksReadNothing(s, stop, ignore);
  }

  /** Leading blanks are skipped, so a stretch of blanks without a stop
    * character reads as no word at all, up to the end of the file. */
  lemma {:induction false} BlanksReadNothing(s: string, stop: string, ignore: string)
    ensures (forall i :: 0 <= i < |s| ==> Blank(s[i]) && s[i] !in stop) ==>
      ScanWord(s, stop, ignore, true).text == [] && ScanWord(s, stop, ignore, true).eof
    decreases |s|
  {
    if |s| > 0 && forall i :: 0 <= i < |s| ==> Blank(s[i]) && s[i] !in stop {
      assert forall i :: 0 <= i < |s[1..]| ==> s[1..][i] == s[i + 1];
      BlanksReadNothing(s[1..], stop, ignore);
    }
  }

  /** What is left after a read is a suffix of the input, and the word
    * holds no stop and no ignored character. */
  lemma {:induction false} ScanWordParts(s: string, stop: string, ignore: string, leading: bool)
    ensures var w := ScanWord(s, stop, ignore, leading);
      w.rest == s[|s| - |w.rest|..] &&
      forall i :: 0 <= i < |w.text| ==> w.text[i] !in ignore && w.text[i] !in stop
    decreases |s|
  {
    if |s| > 0 && s[0] !in stop {
      ScanWordParts(s[1..], stop, ignore, leading && Blank(s[0]));
      var w := ScanWord(s[1..], stop, ignore, leading && Blank(s[0]));
      assert s[1..][|s[1..]| - |w.rest|..] == s[|s| - |w.rest|..];
    }
  }

  /** The characters of w that are not ignored. */
  function Kept(w: string, ignore: string): (k: string)
  {
    if |w| == 0 then [] else (if w[0] in ignore then [] else [w[0]]) + Kept(w[1..], ignore)
  }

  /** Reading a stretch free of stop characters, once past the leading
    * blanks, keeps its non-ignored characters and consumes the stop
    * character after it. */
  lemma {:induction false} ScanThrough(w: string, r: string, stop: string, ignore: string)
    requires forall i :: 0 <= i < |w| ==> w[i] !in stop
    requires |r| > 0 && r[0] in stop
    ensures ScanWord(w + r, stop, ignore, false) == Word(Kept(w, ignore), r[1..], false, PARSE_OK)
    decreases |w|
  {
    if |w| == 0 {
      assert w + r == r;
    } else {
      assert (w + r)[1..] == w[1..] + r;
      ScanThrough(w[1..], r, stop, ignore);
    }
  }

  /** The first stop character ends the read: it is consumed, nothing
    * after it is looked at, and the read succeeds. */
  lemma {:induction false} ReadWordStopsAtFirst(s: string, stop: string, ignore: string, k: nat, leading: bool)
    requires k < |s| && s[k] in stop && forall i :: 0 <= i < k ==> s[i] !in stop
    ensures ScanWord(s, stop, ignore, leading).rest == s[k + 1..]
    ensures !ScanWord(s, stop, ignore, leading).eof && ScanWord(s, stop, ignore, leading).status == PARSE_OK
    decreases k
  {
    if k > 0 {
      assert s[1..][k - 1..] == s[k..];
      ReadWordStopsAtFirst(s[1..], stop, ignore, k - 1, leading && Blank(s[0]));
      assert s[1..][k..] == s[k + 1..];
    }
  }

  /** Without a stop character the read runs into end of file. */
  lemma {:induction false} ReadWordHitsEof(s: string, stop: string, ignore: string, leading: bool)
    requires forall i :: 0 <= i < |s| ==> s[i] !in stop
    ensures ScanWord(s, stop, ignore, leading).eof
    ensures ScanWord(s, stop, ignore, leading).status == PARSE_ERROR
    decreases |s|
  {
    if |s| > 0 {
      ReadWordHitsEof(s[1..], stop, ignore, leading && Blank(s[0]));
    }
  }

  /** A clean word (no stop, ignored or leading blank character) followed
    * by a stop character is read back unchanged. */
  lemma ReadWordClean(w: string, sc: char, r: string, stop: string, ignore: string)
    requires forall i :: 0 <= i < |w| ==> w[i] !in stop && w[i] !in ignore
    requires |w| > 0 && !Blank(w[0]) && sc in stop
    ensures ReadWord(w + [sc] + r, stop, ignore) == Word(w, r, false, PARSE_OK)
  {
    var s := w + [sc] + r;
    assert s == w + ([sc] + r);
    ScanThrough(w, [sc] + r, stop, ignore);
    KeptClean(w, ignore);
    assert s[1..] == w[1..] + ([sc] + r);
    ScanThrough(w[1..], [sc] + r, stop, ignore);
    KeptClean(w[1..], ignore);
    assert ([sc] + r)[1..] == r;
  }

  lemma {:induction false} KeptClean(w: string, ignore: string)
    requires forall i :: 0 <= i < |w| ==> w[i] !in ignore
    ensures Kept(w, ignore) == w
    decreases |w|
  {
    if |w| > 0 {
      KeptClean(w[1..], ignore);
    }
  }

  /** A quoted word: the quotes are dropped, the inside is kept as is. */
  lemma ReadWordQuoted(w: string, sc: char, r: string, stop: string)
    requires forall i :: 0 <= i < |w| ==> w[i] !in stop && w[i] != '"'
    requires sc in stop && '"' !in stop
    ensures ReadWord("\"" + w + "\"" + [sc] + r, stop, "\"") == Word(w, r, false, PARSE_OK)
  {
    var q := "\"" + w + "\"";
    var s := q + [sc] + r;
    assert s[0] == '"' && !Blank(s[0]);
    assert s[1..] == (w + "\"") + ([sc] + r);
    assert forall i :: 0 <= i < |w + "\""| ==> (w + "\"")[i] !in stop;
    ScanThrough(w + "\"", [sc] + r, stop, "\"");
    KeptQuote(w);
    assert ([sc] + r)[1..] == r;
  }

  lemma {:induction false} KeptQuote(w: string)
    requires forall i :: 0 <= i < |w| ==> w[i] != '"'
    ensures Kept(w + "\"", "\"") == w
    decreases |w|
  {
    if |w| == 0 {
      assert Kept("\"", "\"") == [] + Kept([], "\"");
    } else {
      assert (w + "\"")[1..] == w[1..] + "\"";
      KeptQuote(w[1..]);
    }
  }

  // ---- Words ----

  function ToLower(c: char): char
  {
    if 'A' <= c <= 'Z' then (c as int + 32) as char else c
  }

  /** `strcasecmp(a, b) == 0`: equal up to the case of ASCII letters. */
  function MatchWord(a: string, b: string): (r: bool)
    ensures r ==> |a| == |b|
  {
    if |a| == 0 || |b| == 0 then |a| == 0 && |b| == 0
    else ToLower(a[0]) == ToLower(b[0]) && MatchWord(a[1..], b[1..])
  }

  lemma {:induction false} MatchWordSelf(a: string)
    ensures MatchWord(a, a)
    decreases |a|
  {
    if |a| > 0 {
      MatchWordSelf(a[1..]);
    }
  }

  /** Matching compares the lower-cased words. */
  lemma {:induction false} MatchWordIff(a: string, b: string)
    ensures MatchWord(a, b) <==> |a| == |b| && forall i :: 0 <= i < |a| ==> ToLower(a[i]) == ToLower(b[i])
    decreases |a|
  {
    if |a| > 0 && |b| > 0 {
      MatchWordIff(a[1..], b[1..]);
      if |a| == |b| && forall i :: 0 <= i < |a| ==> ToLower(a[i]) == ToLower(b[i]) {
        assert forall i :: 0 <= i < |a| - 1 ==> ToLower(a[1..][i]) == ToLower(b[1..][i]) by {
          forall i | 0 <= i < |a| - 1 ensures ToLower(a[1..][i]) == ToLower(b[1..][i]) {
            assert a[1..][i] == a[i + 1] && b[1..][i] == b[i + 1];
          }
        }
      }
    }
  }

  /** `convertAsciiToInt`: -2 unless the word starts with a digit, else
    * the value of its leading digits. */
  function ConvertAsciiToInt(s: string): (v: int)
    ensures v == -2 <==> |s| == 0 || !IsDigit(s[0])
    ensures v != -2 ==> v == DigitsValue(LeadingDigits(s))
  {
    if |s| == 0 || !IsDigit(s[0]) then -2 else Atoi(s)
  }

  /** Reading back a written number. */
  lemma ConvertDecimal(n: nat)
    ensures ConvertAsciiToInt(Decimal(n)) == n
  {
    AtoiDecimal(n, []);
    assert Decimal(n) + [] == Decimal(n);
  }

  // ---- Name tables ----

  datatype Category = TBanDS | TBanAS | TBanCH | MiniAS | MiniCH | BigAS

  /** The number of entries of each name table. */
  function Capacity(c: Category): nat
  {
    match c
    case TBanDS => NUMBER_DIGITAL_SENSORS
    case TBanAS => NUMBER_ANALOG_SENSORS
    case TBanCH => NUMBER_CHANNELS
    case MiniAS => MINI_NG_NUMBER_ANALOG_SENSORS
    case MiniCH => MINI_NG_NUMBER_CHANNELS
    case BigAS => BIGNG_NUMBER_ADDITIONAL_ANALOG_SENSORS
  }

  /** Short names and long descriptions of one kind of device part. */
  datatype NameTable = NameTable(short: seq<string>, long: seq<string>)

  datatype Names = Names(ds: NameTable, an: NameTable, ch: NameTable,
                         miniAs: NameTable, miniCh: NameTable, bigAs: NameTable)

  function TableOf(n: Names, c: Category): NameTable
  {
    match c
    case TBanDS => n.ds
    case TBanAS => n.an
    case TBanCH => n.ch
    case MiniAS => n.miniAs
    case MiniCH => n.miniCh
    case BigAS => n.bigAs
  }

  function WithTable(n: Names, c: Category, t: NameTable): (m: Names)
    ensures TableOf(m, c) == t
    ensures forall d :: d != c ==> TableOf(m, d) == TableOf(n, d)
  {
    match c
    case TBanDS => n.(ds := t)
    case TBanAS => n.(an := t)
    case TBanCH => n.(ch := t)
    case MiniAS => n.(miniAs := t)
    case MiniCH => n.(miniCh := t)
    case BigAS => n.(bigAs := t)
  }

  /** Every table has exactly its number of entries. */
  predicate WellSized(n: Names)
  {
    forall c :: |TableOf(n, c).short| == Capacity(c) && |TableOf(n, c).long| == Capacity(c)
  }

  /** Entry k of table c gets a new short and long name; all others stay. */
  function Assign(n: Names, c: Category, k: nat, short: string, long: string): (m: Names)
    requires WellSized(n) && k < Capacity(c)
    ensures WellSized(m)
    ensures TableOf(m, c).short[k] == short && TableOf(m, c).long[k] == long
    ensures forall j :: 0 <= j < Capacity(c) && j != k ==>
      TableOf(m, c).short[j] == TableOf(n, c).short[j] && TableOf(m, c).long[j] == TableOf(n, c).long[j]
    ensures forall d :: d != c ==> TableOf(m, d) == TableOf(n, d)
  {
    var t := TableOf(n, c);
    WithTable(n, c, NameTable(t.short[k := short], t.long[k := long]))
  }

  /** The names given before any configuration: a prefix and the index. */
  function DefaultTable(prefix: string, count: nat): (t: NameTable)
    ensures |t.short| == count && |t.long| == count
    ensures forall i :: 0 <= i < count ==> t.short[i] == prefix + Decimal(i) && t.long[i] == prefix + Decimal(i)
  {
    var s := seq(count, i requires 0 <= i < count => prefix + Decimal(i));
    NameTable(s, s)
  }

  function DefaultNames(): (n: Names)
    ensures WellSized(n)
  {
    Names(DefaultTable("DS", NUMBER_DIGITAL_SENSORS), DefaultTable("AS", NUMBER_ANALOG_SENSORS),
          DefaultTable("CH", NUMBER_CHANNELS), DefaultTable("miniNG-AS", MINI_NG_NUMBER_ANALOG_SENSORS),
          DefaultTable("miniNG-ch", MINI_NG_NUMBER_CHANNELS), DefaultTable("BigNG-AS", BIGNG_NUMBER_ADDITIONAL_ANALOG_SENSORS))
  }

  // ---- Tags ----

  datatype Tag = NameTag(cat: Category) | FileEnd | Comment

  const TagList: seq<(string, Tag)> := [
    ("TBAN_DS", NameTag(TBanDS)), ("TBAN_AS", NameTag(TBanAS)), ("TBAN_CH", NameTag(TBanCH)),
    ("MINI_NG_AS", NameTag(MiniAS)), ("MINI_CH", NameTag(MiniCH)), ("BIG_NG_AS", NameTag(BigAS)),
    ("FILE_END", FileEnd), ("#", Comment)
  ]

  /** The first entry of the tag list the word matches. */
  function LookupTagFrom(word: string, i: nat): Option<Tag>
    requires i <= |TagList|
    decreases |TagList| - i
  {
    if i == |TagList| then None
    else if MatchWord(word, TagList[i].0) then Some(TagList[i].1)
    else LookupTagFrom(word, i + 1)
  }

  /** tban_parseConfig's scan of the tag list: the tag of the first
    * entry the word matches, none when it matches no entry. */
  function LookupTag(word: string): Option<Tag>
  {
    LookupTagFrom(word, 0)
  }

  /** From entry i on, the scan finds no tag exactly when no entry
    * matches, and otherwise the tag of the first entry that does. */
  lemma {:induction false} LookupTagFromSpec(word: string, i: nat)
    requires i <= |TagList|
    ensures LookupTagFrom(word, i).None? <==> forall k :: i <= k < |TagList| ==> !MatchWord(word, TagList[k].0)
    ensures LookupTagFrom(word, i).Some? ==> exists j :: (i <= j < |TagList| && MatchWord(word, TagList[j].0) &&
      LookupTagFrom(word, i) == Some(TagList[j].1) && forall k :: i <= k < j ==> !MatchWord(word, TagList[k].0))
    decreases |TagList| - i
  {
    if i < |TagList| && !MatchWord(word, TagList[i].0) {
      LookupTagFromSpec(word, i + 1);
      if LookupTagFrom(word, i).Some? {
        var j :| i + 1 <= j < |TagList| && MatchWord(word, TagList[j].0) &&
          LookupTagFrom(word, i + 1) == Some(TagList[j].1) && forall k :: i + 1 <= k < j ==> !MatchWord(word, TagList[k].0);
        assert forall k :: i <= k < j ==> !MatchWord(word, TagList[k].0);
      }
    }
  }

  /** tban_parseConfig's scan: no tag exactly when the word matches no
    * entry of the tag list, otherwise the tag of the first that does. */
  lemma LookupTagScan(word: string)
    ensures LookupTag(word).None? <==> forall k :: 0 <= k < |TagList| ==> !MatchWord(word, TagList[k].0)
    ensures LookupTag(word).Some? ==> exists j :: (0 <= j < |TagList| && MatchWord(word, TagList[j].0) &&
      LookupTag(word) == Some(TagList[j].1) && forall k :: 0 <= k < j ==> !MatchWord(word, TagList[k].0))
  {
    LookupTagFromSpec(word, 0);
  }

  /** The scan over the tag list stops at the first entry matching. */
  lemma {:induction false} LookupTagFromFirst(word: string, i: nat, j: nat)
    requires i <= j < |TagList| && MatchWord(word, TagList[j].0)
    requires forall k :: i <= k < j ==> !MatchWord(word, TagList[k].0)
    ensures LookupTagFrom(word, i) == Some(TagList[j].1)
    decreases j - i
  {
    if i < j {
      LookupTagFromFirst(word, i + 1, j);
    }
  }

  lemma {:induction false} LookupTagFromNone(word: string, i: nat)
    requires i <= |TagList|
    requires forall k :: i <= k < |TagList| ==> !MatchWord(word, TagList[k].0)
    ensures LookupTagFrom(word, i).None?
    decreases |TagList| - i
  {
    if i < |TagList| {
      LookupTagFromNone(word, i + 1);
    }
  }

  /** A word gets the tag of the first entry it matches, and no tag when
    * it matches none. */
  lemma LookupTagFirst(word: string, j: nat)
    requires j < |TagList| && MatchWord(word, TagList[j].0)
    requires forall k :: 0 <= k < j ==> !MatchWord(word, TagList[k].0)
    ensures LookupTag(word) == Some(TagList[j].1)
  {
    LookupTagFromFirst(word, 0, j);
  }

  lemma LookupTagNone(word: string)
    requires forall k :: 0 <= k < |TagList| ==> !MatchWord(word, TagList[k].0)
    ensures LookupTag(word).None?
  {
    LookupTagFromNone(word, 0);
  }

  /** Length and the lower-cased characters 0 and 5 tell the tags apart. */
  function Key(s: string): (int, char, char)
  {
    (|s|, if |s| > 0 then ToLower(s[0]) else ' ', if |s| > 5 then ToLower(s[5]) else ' ')
  }

  lemma MatchKey(a: string, b: string)
    ensures MatchWord(a, b) ==> Key(a) == Key(b)
  {
    MatchWordIff(a, b);
  }

  /** The keys of the tag words, all different. */
  lemma TagKeys()
    ensures Key(TagList[0].0) == (7, 't', 'd') && Key(TagList[1].0) == (7, 't', 'a')
    ensures Key(TagList[2].0) == (7, 't', 'c') && Key(TagList[3].0) == (10, 'm', 'n')
    ensures Key(TagList[4].0) == (7, 'm', 'c') && Key(TagList[5].0) == (9, 'b', 'g')
    ensures Key(TagList[6].0) == (8, 'f', 'e') && Key(TagList[7].0) == (1, '#', ' ')
  {
  }

  /** Each tag word is read as its own entry of the tag list. */
  lemma LookupTagEntry(j: nat)
    requires j < |TagList|
    ensures LookupTag(TagList[j].0) == Some(TagList[j].1)
  {
    var w := TagList[j].0;
    MatchWordSelf(w);
    TagKeys();
    forall k | 0 <= k < j ensures !MatchWord(w, TagList[k].0) {
      MatchKey(w, TagList[k].0);
    }
    LookupTagFirst(w, j);
  }

  /** The tag word of each table. */
  function TagName(c: Category): string
  {
    match c
    case TBanDS => "TBAN_DS"
    case TBanAS => "TBAN_AS"
    case TBanCH => "TBAN_CH"
    case MiniAS => "MINI_NG_AS"
    case MiniCH => "MINI_CH"
    case BigAS => "BIG_NG_AS"
  }

  /** The tag word of a table is read as that table's tag. */
  lemma TagNameTag(c: Category)
    ensures LookupTag(TagName(c)) == Some(NameTag(c))
  {
    match c
    case TBanDS => LookupTagEntry(0);
    case TBanAS => LookupTagEntry(1);
    case TBanCH => LookupTagEntry(2);
    case MiniAS => LookupTagEntry(3);
    case MiniCH => LookupTagEntry(4);
    case BigAS => LookupTagEntry(5);
  }

  // ---- Callbacks ----

  /** What a name line yields once its tag has been read: the index word,
    * the short name (up to a space) and the long name (up to the end of
    * the line), quotes dropped. */
  datatype Entry = Entry(index: int, short: string, long: string, rest: string, eof: bool)

  function ReadEntry(s: string): (e: Entry)
    ensures |e.rest| <= |s|
    ensures e.eof ==> e.rest == []
  {
    var w1 := ReadWord(s, " ", "");
    var w2 := ReadWord(w1.rest, " ", "\"");
    var w3 := ReadWord(w2.rest, "\n", "\"");
    Entry(ConvertAsciiToInt(w1.text), w2.text, w3.text, w3.rest, w3.eof)
  }

  /** A name line read back: index, short name, long name. */
  lemma ReadEntryLine(k: nat, a: string, b: string, rest: string)
    requires forall i :: 0 <= i < |a| ==> a[i] != ' ' && a[i] != '"'
    requires forall i :: 0 <= i < |b| ==> b[i] != '\n' && b[i] != '"'
    ensures ReadEntry(Decimal(k) + " \"" + a + "\" \"" + b + "\"\n" + rest) == Entry(k, a, b, rest, false)
  {
    var d := Decimal(k);
    var s := d + " \"" + a + "\" \"" + b + "\"\n" + rest;
    var r1 := "\"" + a + "\" \"" + b + "\"\n" + rest;
    var r2 := "\"" + b + "\"\n" + rest;
    assert s == d + [' '] + r1;
    ReadWordClean(d, ' ', r1, " ", "");
    ConvertDecimal(k);
    assert r1 == "\"" + a + "\"" + [' '] + r2;
    ReadWordQuoted(a, ' ', r2, " ");
    assert r2 == "\"" + b + "\"" + ['\n'] + rest;
    ReadWordQuoted(b, '\n', rest, "\n");
  }

  /** The callback as written stores at whatever index the line gives; an
    * index outside the table is a write outside the table. */
  datatype Stored = Stored(names: Names) | WildWrite(index: int)

  function NameEntryAsWritten(e: Entry, n: Names, c: Category): (r: Stored)
    requires WellSized(n)
    ensures r.WildWrite? <==> !(0 <= e.index < Capacity(c))
    ensures r.WildWrite? ==> r.index == e.index
    ensures r.Stored? ==> r.names == Assign(n, c, e.index, e.short, e.long)
  {
    if 0 <= e.index < Capacity(c) then Stored(Assign(n, c, e.index, e.short, e.long))
    else WildWrite(e.index)
  }

  /** An index word that is not a number makes the callback write at
    * index -2. */
  lemma NameEntryNonNumberWritesOutside(word: string, rest: string, n: Names, c: Category)
    requires WellSized(n)
    requires forall i :: 0 <= i < |word| ==> word[i] != ' '
    requires |word| > 0 && !IsDigit(word[0]) && !Blank(word[0])
    ensures ReadEntry(word + " " + rest).index == -2
    ensures NameEntryAsWritten(ReadEntry(word + " " + rest), n, c) == WildWrite(-2)
  {
    assert word + " " + rest == word + [' '] + rest;
    ReadWordClean(word, ' ', rest, " ", "");
  }

  /** The callback with the evidently intended check: an entry whose index
    * lies outside its table is skipped. */
  function NameEntry(e: Entry, n: Names, c: Category): (m: Names)
    requires WellSized(n)
    ensures WellSized(m)
    ensures 0 <= e.index < Capacity(c) ==> m == Assign(n, c, e.index, e.short, e.long)
    ensures !(0 <= e.index < Capacity(c)) ==> m == n
  {
    if 0 <= e.index < Capacity(c) then Assign(n, c, e.index, e.short, e.long) else n
  }

  /** Where the library's callback is defined, the corrected one agrees. */
  lemma NameEntryAgrees(e: Entry, n: Names, c: Category)
    requires WellSized(n) && NameEntryAsWritten(e, n, c).Stored?
    ensures NameEntryAsWritten(e, n, c).names == NameEntry(e, n, c)
  {
  }

  /** `commentCb`: discard the rest of the line. */
  function SkipLine(s: string): (w: Word)
    ensures |w.rest| <= |s|
    ensures w.eof ==> w.rest == []
  {
    ReadWord(s, "\n", "")
  }

  // ---- The whole file ----

  /** `tban_parseConfig` over the remaining input of an open file: read a
    * tag, run its callback, and go on until end of file; a word that is
    * no tag is an error unless end of file was hit reading it. */
  function ParseLoop(s: string, eof: bool, n: Names): (r: (int, Names))
    requires WellSized(n) && (eof ==> s == [])
    ensures WellSized(r.1)
    ensures r.0 == OK || r.0 == CONFIG_FILE_ERROR
    decreases |s|, if eof then 0 else 1
  {
    if eof then (OK, n)
    else
      var t := ReadWord(s, " ", "");
      var tag := LookupTag(t.text);
      if tag.None? then
        if t.eof then (OK, n) else (CONFIG_FILE_ERROR, n)
      else if tag.value.FileEnd? then ParseLoop(t.rest, t.eof, n)
      else if tag.value.Comment? then
        var w := SkipLine(t.rest);
        ParseLoop(w.rest, w.eof, n)
      else
        var e := ReadEntry(t.rest);
        ParseLoop(e.rest, e.eof, NameEntry(e, n, tag.value.cat))
  }

  /** An empty file changes nothing. */
  lemma ParseEmpty(n: Names)
    requires WellSized(n)
    ensures ParseLoop([], false, n) == (OK, n)
  {
  }

  /** A comment line is skipped whole. */
  lemma ParseComment(c: string, rest: string, n: Names)
    requires WellSized(n) && forall i :: 0 <= i < |c| ==> c[i] != '\n'
    ensures ParseLoop("# " + c + "\n" + rest, false, n) == ParseLoop(rest, false, n)
  {
    var s := "# " + c + "\n" + rest;
    assert s == "#" + [' '] + (c + "\n" + rest);
    ReadWordClean("#", ' ', c + "\n" + rest, " ", "");
    LookupTagEntry(7);
    assert forall i :: 0 <= i < |c| ==> c[i] !in "\n";
    assert c + "\n" + rest == c + ("\n" + rest);
    ScanThrough(c, "\n" + rest, "\n", "");
    assert ("\n" + rest)[1..] == rest;
    ScanLeadingSame(c + "\n" + rest);
  }

  /** With a newline stop, the leading flag never changes where a read
    * ends. */
  lemma {:induction false} ScanLeadingSame(s: string)
    ensures ScanWord(s, "\n", "", true).rest == ScanWord(s, "\n", "", false).rest
    ensures ScanWord(s, "\n", "", true).eof == ScanWord(s, "\n", "", false).eof
    decreases |s|
  {
    if |s| > 0 && s[0] != '\n' {
      ScanLeadingSame(s[1..]);
      ScanLeadingRest(s[1..], Blank(s[0]));
    }
  }

  lemma {:induction false} ScanLeadingRest(s: string, leading: bool)
    ensures ScanWord(s, "\n", "", leading).rest == ScanWord(s, "\n", "", false).rest
    ensures ScanWord(s, "\n", "", leading).eof == ScanWord(s, "\n", "", false).eof
    decreases |s|
  {
    if |s| > 0 && s[0] != '\n' {
      ScanLeadingRest(s[1..], leading && Blank(s[0]));
      ScanLeadingRest(s[1..], false);
    }
  }

  /** FILE_END is accepted and parsing goes on after it. */
  lemma ParseFileEnd(rest: string, n: Names)
    requires WellSized(n)
    ensures ParseLoop("FILE_END " + rest, false, n) == ParseLoop(rest, false, n)
  {
    assert "FILE_END " + rest == "FILE_END" + [' '] + rest;
    ReadWordClean("FILE_END", ' ', rest, " ", "");
    LookupTagEntry(6);
  }

  /** The text of a name line after its tag: index, short name and long
    * name, both quoted. */
  function EntryText(k: nat, a: string, b: string): string
  {
    Decimal(k) + " \"" + a + "\" \"" + b + "\"\n"
  }

  /** A name line for an entry of its table sets that entry's short and
    * long name, and parsing goes on with the next line. */
  lemma ParseNameLine(c: Category, k: nat, a: string, b: string, rest: string, n: Names)
    requires WellSized(n) && k < Capacity(c)
    requires forall i :: 0 <= i < |a| ==> a[i] != ' ' && a[i] != '"'
    requires forall i :: 0 <= i < |b| ==> b[i] != '\n' && b[i] != '"'
    ensures ParseLoop(TagName(c) + " " + EntryText(k, a, b) + rest, false, n)
         == ParseLoop(rest, false, Assign(n, c, k, a, b))
  {
    var line := EntryText(k, a, b) + rest;
    var tn := TagName(c);
    var s := tn + " " + EntryText(k, a, b) + rest;
    assert s == tn + [' '] + line;
    TagNameClean(c);
    ReadWordClean(tn, ' ', line, " ", "");
    assert line == Decimal(k) + " \"" + a + "\" \"" + b + "\"\n" + rest;
    ReadEntryLine(k, a, b, rest);
    ParseNamed(s, c, line, n);
  }

  lemma TagNameClean(c: Category)
    ensures |TagName(c)| > 0 && !Blank(TagName(c)[0])
    ensures forall i :: 0 <= i < |TagName(c)| ==> TagName(c)[i] != ' ' && TagName(c)[i] != '"'
  {
    match c
    case TBanDS => assert TagName(c) == "TBAN_DS";
    case TBanAS => assert TagName(c) == "TBAN_AS";
    case TBanCH => assert TagName(c) == "TBAN_CH";
    case MiniAS => assert TagName(c) == "MINI_NG_AS";
    case MiniCH => assert TagName(c) == "MINI_CH";
    case BigAS => assert TagName(c) == "BIG_NG_AS";
  }

  /** One step of the loop over a name line whose tag was read whole. */
  lemma ParseNamed(s: string, c: Category, line: string, n: Names)
    requires WellSized(n) && ReadWord(s, " ", "") == Word(TagName(c), line, false, PARSE_OK)
    ensures var e := ReadEntry(line); ParseLoop(s, false, n) == ParseLoop(e.rest, e.eof, NameEntry(e, n, c))
  {
    TagNameTag(c);
  }

  /** A word that is no tag, followed by more input, is an error. */
  lemma ParseUnknownTag(w: string, rest: string, n: Names)
    requires WellSized(n)
    requires forall i :: 0 <= i < |w| ==> w[i] != ' '
    requires |w| > 0 && !Blank(w[0]) && LookupTag(w).None?
    ensures ParseLoop(w + " " + rest, false, n) == (CONFIG_FILE_ERROR, n)
  {
    assert w + " " + rest == w + [' '] + rest;
    ReadWordClean(w, ' ', rest, " ", "");
  }

  // ---- The character stream ----

  /** An open file read with `fgetc`/`feof`. */
  class Stream {
    const data: string
    var pos: nat
    var eof: bool

    predicate Valid()
      reads this
    {
      pos <= |data| && (eof ==> pos == |data|)
    }

    function Remaining(): string
      reads this
      requires Valid()
    {
      data[pos..]
    }

    constructor (content: string)
      ensures Valid() && data == content && pos == 0 && !eof
    {
      data := content;
      pos := 0;
      eof := false;
    }

    /** `fgetc`: the next character, or None (setting the end-of-file
      * flag) when there is none. */
    method GetC() returns (c: Option<char>)
      requires Valid()
      modifies this
      ensures Valid()
      ensures old(pos) < |data| ==> c == Some(data[old(pos)]) && pos == old(pos) + 1 && eof == old(eof)
      ensures old(pos) == |data| ==> c.None? && pos == old(pos) && eof
    {
      if pos < |data| {
        c := Some(data[pos]);
        pos := pos + 1;
      } else {
        c := None;
        eof := true;
      }
    }

    /** `readWord`: characters are taken one at a time until a stop
      * character or end of file. */
    method ReadWord(stop: string, ignore: string) returns (text: string, status: int)
      requires Valid()
      modifies this
      ensures Valid()
      ensures ScanWord(old(Remaining()), stop, ignore, true) == Word(text, Remaining(), eof, status)
    {
      ghost var s0 := Remaining();
      text := [];
      var leading := true;
      while true
        invariant Valid()
        invariant ScanWord(s0, stop, ignore, true)
               == var w := ScanWord(Remaining(), stop, ignore, leading); w.(text := text + w.text)
        decreases |data| - pos
      {
        ghost var before := Remaining();
        var c := GetC();
        if c.None? {
          assert before == [];
          assert text + [] == text;
          status := PARSE_ERROR;
          return;
        }
        assert before == [c.value] + Remaining();
        if c.value in stop {
          assert text + [] == text;
          status := PARSE_OK;
          return;
        }
        if !Blank(c.value) {
          leading := false;
        }
        if c.value !in ignore && !leading {
          text := text + [c.value];
        }
      }
    }
  }
}
