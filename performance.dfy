/**
 * The memory and battery readers of the Node driver's performance commands.
 * `dumpsys meminfo` rows are split into words and fed one by one to the
 * parser of the device's API level, which fills a dictionary of named
 * values in place; the battery level is the integer after the first ':' of
 * `dumpsys battery`. Taking the shell output is left to the caller: the
 * output is a parameter.
 */
module Performance {

  import opened Wrappers
  import opened Text

  const MEMORY_KEYS: seq<string> := [
    "totalPrivateDirty", "nativePrivateDirty", "dalvikPrivateDirty", "eglPrivateDirty", "glPrivateDirty",
    "totalPss", "nativePss", "dalvikPss", "eglPss", "glPss",
    "nativeHeapAllocatedSize", "nativeHeapSize", "nativeRss", "dalvikRss", "totalRss"]

  const BATTERY_KEYS: seq<string> := ["power"]

  const NATIVE := "Native"
  const DALVIK := "Dalvik"
  const EGL := "EGL"
  const GL := "GL"
  const MTRACK := "mtrack"
  const TOTAL := "TOTAL"
  const HEAP := "Heap"

  const NO_DATA_MESSAGE := "No data from dumpsys"

  // ---------------------------------------------------------------------------
  // Rows as words

  /** The leading run of non-blank characters. */
  function Word(s: string): (r: string)
    ensures |r| <= |s| && r == s[..|r|]
    ensures s != [] && !IsJsSpace(s[0]) ==> r != []
  {
    if s == [] || IsJsSpace(s[0]) then [] else [s[0]] + Word(s[1..])
  }

  /** `line.trim().split(/\s+/).filter(Boolean)`: the maximal runs of non-blank characters. */
  function Words(s: string): (r: seq<string>)
    ensures forall k :: 0 <= k < |r| ==> r[k] != []
    decreases |s|
  {
    if s == [] then []
    else if IsJsSpace(s[0]) then Words(s[1..])
    else var w := Word(s); [w] + Words(s[|w|..])
  }

  // ---------------------------------------------------------------------------
  // The value dictionary and the row layouts

  /** A dictionary of values; a value read past the end of a row is `None`, as is a missing key. */
  type Values = map<string, Option<string>>

  function Lookup(d: Values, key: string): Option<string> {
    if key in d then d[key] else None
  }

  /** The dictionary object the parsers fill. */
  class ValueDict {
    var values: Values

    /** `{totalPrivateDirty: ''}`. */
    constructor()
      ensures values == map["totalPrivateDirty" := Some("")]
    {
      values := map["totalPrivateDirty" := Some("")];
    }
  }

  /**
   * A destructuring position: the row entry at `index` goes to `key`. A
   * destructuring assignment `[, , d.a, d.b] = entries` is the list of its
   * positions, applied left to right by Assign.
   */
  datatype Slot = Slot(index: nat, key: string)

  /** Assigns the slots left to right. */
  function Assign(d: Values, slots: seq<Slot>, e: seq<string>): Values
    decreases slots
  {
    if slots == [] then d else Assign(d[slots[0].key := At(e, slots[0].index)], slots[1..], e)
  }

  /** The index the last slot for `key` reads, if any slot writes it. */
  function KeyIndex(slots: seq<Slot>, key: string): Option<nat> {
    if slots == [] then None
    else
      var rest := KeyIndex(slots[1..], key);
      if rest.Some? then rest else if slots[0].key == key then Some(slots[0].index) else None
  }

  /** After the assignments, a key holds what its last slot read, or what it held before. */
  lemma {:induction false} AssignLookup(d: Values, slots: seq<Slot>, e: seq<string>, key: string)
    ensures Lookup(Assign(d, slots, e), key) ==
      if KeyIndex(slots, key).Some? then At(e, KeyIndex(slots, key).value) else Lookup(d, key)
    decreases slots
  {
    if slots != [] {
      AssignLookup(d[slots[0].key := At(e, slots[0].index)], slots[1..], e, key);
    }
  }

  /** A key no slot writes keeps its value. */
  lemma {:induction false} KeyIndexAbsent(slots: seq<Slot>, key: string)
    requires forall i :: 0 <= i < |slots| ==> slots[i].key != key
    ensures KeyIndex(slots, key).None?
  {
    if slots != [] {
      KeyIndexAbsent(slots[1..], key);
    }
  }

  predicate IsRow(e: seq<string>, kind: string, subKind: string) {
    At(e, 0) == Some(kind) && At(e, 1) == Some(subKind)
  }

  const NATIVE_SLOTS_19 := [Slot(2, "nativePss"), Slot(3, "nativePrivateDirty"), Slot(6, "nativeHeapSize"), Slot(7, "nativeHeapAllocatedSize")]
  const NATIVE_SLOTS_30 := [Slot(2, "nativePss"), Slot(3, "nativePrivateDirty"), Slot(6, "nativeRss"), Slot(7, "nativeHeapSize"), Slot(8, "nativeHeapAllocatedSize")]
  const DALVIK_SLOTS_19 := [Slot(2, "dalvikPss"), Slot(3, "dalvikPrivateDirty")]
  const DALVIK_SLOTS_30 := [Slot(2, "dalvikPss"), Slot(3, "dalvikPrivateDirty"), Slot(6, "dalvikRss")]
  const EGL_SLOTS := [Slot(2, "eglPss"), Slot(3, "eglPrivateDirty")]
  const GL_SLOTS := [Slot(2, "glPss"), Slot(3, "glPrivateDirty")]
  const TOTAL_SLOTS_19 := [Slot(1, "totalPss"), Slot(2, "totalPrivateDirty")]
  const TOTAL_SLOTS_30 := [Slot(1, "totalPss"), Slot(2, "totalPrivateDirty"), Slot(5, "totalRss")]

  /** The number of entries of the full TOTAL row of a layout. */
  function TotalLength(api: int): nat {
    if api >= 30 then 9 else 8
  }

  /** The slots a row of a layout writes; none for rows the layout ignores. */
  function RowSlots(api: int, e: seq<string>): seq<Slot> {
    if IsRow(e, NATIVE, HEAP) then (if api >= 30 then NATIVE_SLOTS_30 else NATIVE_SLOTS_19)
    else if IsRow(e, DALVIK, HEAP) then (if api >= 30 then DALVIK_SLOTS_30 else DALVIK_SLOTS_19)
    else if IsRow(e, EGL, MTRACK) then EGL_SLOTS
    else if IsRow(e, GL, MTRACK) then GL_SLOTS
    else if At(e, 0) == Some(TOTAL) && |e| == TotalLength(api) then (if api >= 30 then TOTAL_SLOTS_30 else TOTAL_SLOTS_19)
    else []
  }

  /** parseMeminfoForApi19To29: destructures a known row into the dictionary, in place. */
  method ParseMeminfoForApi19To29(entries: seq<string>, valDict: ValueDict)
    modifies valDict
    ensures valDict.values == Assign(old(valDict.values), RowSlots(29, entries), entries)
  {
    var kind, subKind := At(entries, 0), At(entries, 1);
    if kind == Some(NATIVE) && subKind == Some(HEAP) {
      valDict.values := Assign(valDict.values, NATIVE_SLOTS_19, entries);
    } else if kind == Some(DALVIK) && subKind == Some(HEAP) {
      valDict.values := Assign(valDict.values, DALVIK_SLOTS_19, entries);
    } else if kind == Some(EGL) && subKind == Some(MTRACK) {
      valDict.values := Assign(valDict.values, EGL_SLOTS, entries);
    } else if kind == Some(GL) && subKind == Some(MTRACK) {
      valDict.values := Assign(valDict.values, GL_SLOTS, entries);
    } else if kind == Some(TOTAL) && |entries| == 8 {
      valDict.values := Assign(valDict.values, TOTAL_SLOTS_19, entries);
    }
  }

  /** parseMeminfoForApiAbove29: the same with the RSS columns of API 30 and later. */
  method ParseMeminfoForApiAbove29(entries: seq<string>, valDict: ValueDict)
    modifies valDict
    ensures valDict.values == Assign(old(valDict.values), RowSlots(30, entries), entries)
  {
    var kind, subKind := At(entries, 0), At(entries, 1);
    if kind == Some(NATIVE) && subKind == Some(HEAP) {
      valDict.values := Assign(valDict.values, NATIVE_SLOTS_30, entries);
    } else if kind == Some(DALVIK) && subKind == Some(HEAP) {
      valDict.values := Assign(valDict.values, DALVIK_SLOTS_30, entries);
    } else if kind == Some(EGL) && subKind == Some(MTRACK) {
      valDict.values := Assign(valDict.values, EGL_SLOTS, entries);
    } else if kind == Some(GL) && subKind == Some(MTRACK) {
      valDict.values := Assign(valDict.values, GL_SLOTS, entries);
    } else if kind == Some(TOTAL) && |entries| == 9 {
      valDict.values := Assign(valDict.values, TOTAL_SLOTS_30, entries);
    }
  }

  // ---------------------------------------------------------------------------
  // Properties of the layouts

  /** On API 19-29 the Native Heap row sets the PSS, the private dirty pages and the two heap sizes, and nothing else. */
  lemma NativeHeapRow19(d: Values, e: seq<string>, key: string)
    requires IsRow(e, NATIVE, HEAP)
    ensures var r := Assign(d, RowSlots(29, e), e);
      Lookup(r, "nativePss") == At(e, 2) && Lookup(r, "nativePrivateDirty") == At(e, 3) &&
      Lookup(r, "nativeHeapSize") == At(e, 6) && Lookup(r, "nativeHeapAllocatedSize") == At(e, 7) &&
      (key !in {"nativePss", "nativePrivateDirty", "nativeHeapSize", "nativeHeapAllocatedSize"} ==> Lookup(r, key) == Lookup(d, key))
  {
    var slots := RowSlots(29, e);
    AssignLookup(d, slots, e, "nativePss");
    AssignLookup(d, slots, e, "nativePrivateDirty");
    AssignLookup(d, slots, e, "nativeHeapSize");
    AssignLookup(d, slots, e, "nativeHeapAllocatedSize");
    AssignLookup(d, slots, e, key);
    if key !in {"nativePss", "nativePrivateDirty", "nativeHeapSize", "nativeHeapAllocatedSize"} {
      KeyIndexAbsent(slots, key);
    }
  }

  /** On API 30 and later the Native Heap row also sets the native RSS, and the heap sizes move one column right. */
  lemma NativeHeapRow30(d: Values, e: seq<string>, key: string)
    requires IsRow(e, NATIVE, HEAP)
    ensures var r := Assign(d, RowSlots(30, e), e);
      Lookup(r, "nativePss") == At(e, 2) && Lookup(r, "nativePrivateDirty") == At(e, 3) &&
      Lookup(r, "nativeRss") == At(e, 6) && Lookup(r, "nativeHeapSize") == At(e, 7) &&
      Lookup(r, "nativeHeapAllocatedSize") == At(e, 8) &&
      (key !in {"nativePss", "nativePrivateDirty", "nativeRss", "nativeHeapSize", "nativeHeapAllocatedSize"} ==>
         Lookup(r, key) == Lookup(d, key))
  {
    var slots := RowSlots(30, e);
    AssignLookup(d, slots, e, "nativePss");
    AssignLookup(d, slots, e, "nativePrivateDirty");
    AssignLookup(d, slots, e, "nativeRss");
    AssignLookup(d, slots, e, "nativeHeapSize");
    AssignLookup(d, slots, e, "nativeHeapAllocatedSize");
    AssignLookup(d, slots, e, key);
    if key !in {"nativePss", "nativePrivateDirty", "nativeRss", "nativeHeapSize", "nativeHeapAllocatedSize"} {
      KeyIndexAbsent(slots, key);
    }
  }

  /** On API 30 and later the Dalvik Heap row sets the Dalvik RSS from the seventh entry. */
  lemma DalvikHeapRow30(d: Values, e: seq<string>)
    requires IsRow(e, DALVIK, HEAP)
    ensures var r := Assign(d, RowSlots(30, e), e);
      Lookup(r, "dalvikPss") == At(e, 2) && Lookup(r, "dalvikPrivateDirty") == At(e, 3) && Lookup(r, "dalvikRss") == At(e, 6)
  {
    var slots := RowSlots(30, e);
    AssignLookup(d, slots, e, "dalvikPss");
    AssignLookup(d, slots, e, "dalvikPrivateDirty");
    AssignLookup(d, slots, e, "dalvikRss");
  }

  /** On API 30 and later the full TOTAL row sets the total PSS, private dirty pages and RSS. */
  lemma TotalRow30(d: Values, e: seq<string>)
    requires At(e, 0) == Some(TOTAL) && |e| == 9
    ensures var r := Assign(d, RowSlots(30, e), e);
      Lookup(r, "totalPss") == Some(e[1]) && Lookup(r, "totalPrivateDirty") == Some(e[2]) && Lookup(r, "totalRss") == Some(e[5])
  {
    var slots := RowSlots(30, e);
    AssignLookup(d, slots, e, "totalPss");
    AssignLookup(d, slots, e, "totalPrivateDirty");
    AssignLookup(d, slots, e, "totalRss");
  }

  /** A TOTAL row counts only with exactly the full layout's number of entries. */
  lemma ShortTotalIgnored(api: int, d: Values, e: seq<string>)
    requires At(e, 0) == Some(TOTAL) && |e| != TotalLength(api)
    ensures Assign(d, RowSlots(api, e), e) == d
  {
  }

  /** Rows that are none of the five known kinds leave the dictionary as it was. */
  lemma OtherRowsIgnored(api: int, d: Values, e: seq<string>)
    requires !IsRow(e, NATIVE, HEAP) && !IsRow(e, DALVIK, HEAP) && !IsRow(e, EGL, MTRACK) && !IsRow(e, GL, MTRACK)
    requires At(e, 0) != Some(TOTAL)
    ensures Assign(d, RowSlots(api, e), e) == d
  {
  }

  // ---------------------------------------------------------------------------
  // getMemoryInfo

  /** The dictionary after feeding every line to the parser of the API level. */
  function DictAfter(lines: seq<string>, api: int): Values {
    if lines == [] then map["totalPrivateDirty" := Some("")]
    else
      var e := Words(lines[|lines| - 1]);
      Assign(DictAfter(lines[..|lines| - 1], api), RowSlots(api, e), e)
  }

  /** One more line: its row, parsed with the layout of the API level, updates the dictionary. */
  lemma DictAfterStep(lines: seq<string>, i: nat, api: int)
    requires i < |lines|
    ensures var e := Words(lines[i]);
            DictAfter(lines[..i + 1], api) ==
            Assign(DictAfter(lines[..i], api), RowSlots(if api >= 30 then 30 else 29, e), e)
  {
    assert lines[..i + 1][..i] == lines[..i];
    RowSlotsLayout(api, Words(lines[i]));
  }

  /** The layouts only tell API 30 and later from the earlier ones. */
  lemma RowSlotsLayout(api: int, e: seq<string>)
    ensures RowSlots(api, e) == RowSlots(if api >= 30 then 30 else 29, e)
  {
    assert TotalLength(api) == TotalLength(if api >= 30 then 30 else 29);
  }

  /** `headers.map((header) => valDict[header])`. */
  function ValuesOf(d: Values, keys: seq<string>): (r: seq<Option<string>>)
    ensures |r| == |keys|
    ensures forall k :: 0 <= k < |keys| ==> r[k] == Lookup(d, keys[k])
  {
    if keys == [] then [] else [Lookup(d, keys[0])] + ValuesOf(d, keys[1..])
  }

  /** The memory table: the key names and their values in the same order. */
  datatype Table = Table(headers: seq<string>, values: seq<Option<string>>)

  function ParseErrorMessage(data: string): string {
    "Unable to parse memory data: '" + data + "'"
  }

  /** One attempt of getMemoryInfo on the output `data` of `dumpsys meminfo`. */
  function MemoryInfo(data: string, api: int): (r: Result<Table, string>)
    ensures r.Ok? ==> r.value.headers == MEMORY_KEYS && |r.value.values| == |MEMORY_KEYS|
    ensures r.Err? ==> r.error == NO_DATA_MESSAGE || r.error == ParseErrorMessage(data)
  {
    if data == [] then Err(NO_DATA_MESSAGE)
    else
      var d := DictAfter(SplitOn(data, '\n'), api);
      var total := Lookup(d, "totalPrivateDirty");
      if total.Some? && total.value != [] && total.value != "nodex" then Ok(Table(MEMORY_KEYS, ValuesOf(d, MEMORY_KEYS)))
      else Err(ParseErrorMessage(data))
  }

  /**
   * getMemoryInfo, one attempt: feeds every line of the output to the parser
   * of the API level, then answers the table unless the total private dirty
   * pages are missing or "nodex".
   */
  method GetMemoryInfo(data: string, apiLevel: int) returns (r: Result<Table, string>)
    ensures r == MemoryInfo(data, apiLevel)
  {
    if data == [] {
      return Err(NO_DATA_MESSAGE);
    }
    var values := FeedLines(SplitOn(data, '\n'), apiLevel);
    var total := Lookup(values, "totalPrivateDirty");
    if total.Some? && total.value != [] && total.value != "nodex" {
      return Ok(Table(MEMORY_KEYS, ValuesOf(values, MEMORY_KEYS)));
    }
    return Err(ParseErrorMessage(data));
  }

  /** The parsing loop of getMemoryInfo: every line goes to the row parser of the API level. */
  method FeedLines(lines: seq<string>, apiLevel: int) returns (values: Values)
    ensures values == DictAfter(lines, apiLevel)
  {
    var valDict := new ValueDict();
    var i := 0;
    while i < |lines|
      invariant 0 <= i <= |lines|
      invariant valDict.values == DictAfter(lines[..i], apiLevel)
    {
      DictAfterStep(lines, i, apiLevel);
      var entries := Words(lines[i]);
      if apiLevel >= 30 {
        ParseMeminfoForApiAbove29(entries, valDict);
      } else {
        ParseMeminfoForApi19To29(entries, valDict);
      }
      i := i + 1;
    }
    assert lines[..i] == lines;
    values := valDict.values;
  }

  /** The words of the last line that is a full TOTAL row of the layout, if any. */
  function LastFullTotal(lines: seq<string>, api: int): (r: Option<seq<string>>)
    ensures r.Some? ==> |r.value| == TotalLength(api) && r.value[0] == TOTAL && r.value[2] != []
  {
    if lines == [] then None
    else
      var e := Words(lines[|lines| - 1]);
      if At(e, 0) == Some(TOTAL) && |e| == TotalLength(api) then Some(e) else LastFullTotal(lines[..|lines| - 1], api)
  }

  /** Only full TOTAL rows write the total private dirty pages. */
  lemma TotalKeyOnlyInTotalRows(api: int, e: seq<string>)
    ensures KeyIndex(RowSlots(api, e), "totalPrivateDirty") ==
      if At(e, 0) == Some(TOTAL) && |e| == TotalLength(api) then Some(2) else None
  {
  }

  /** The total private dirty pages come from the last full TOTAL row; without one they stay "". */
  lemma {:induction false} TotalFromLastTotalRow(lines: seq<string>, api: int)
    ensures Lookup(DictAfter(lines, api), "totalPrivateDirty") ==
      if LastFullTotal(lines, api).Some? then Some(LastFullTotal(lines, api).value[2]) else Some("")
  {
    if lines != [] {
      var init := lines[..|lines| - 1];
      var e := Words(lines[|lines| - 1]);
      TotalFromLastTotalRow(init, api);
      AssignLookup(DictAfter(init, api), RowSlots(api, e), e, "totalPrivateDirty");
      TotalKeyOnlyInTotalRows(api, e);
    }
  }

  /**
   * The memory table is answered exactly when there is output with a full
   * TOTAL row, the last of which does not read "nodex"; it then lists every
   * key's value in the order of MEMORY_KEYS.
   */
  lemma MemoryInfoMeaning(data: string, api: int)
    ensures var last := LastFullTotal(SplitOn(data, '\n'), api);
      MemoryInfo(data, api).Ok? <==> data != [] && last.Some? && last.value[2] != "nodex"
    ensures data == [] ==> MemoryInfo(data, api) == Err(NO_DATA_MESSAGE)
    ensures MemoryInfo(data, api).Ok? ==> forall k :: 0 <= k < |MEMORY_KEYS| ==>
      MemoryInfo(data, api).value.values[k] == Lookup(DictAfter(SplitOn(data, '\n'), api), MEMORY_KEYS[k])
  {
    TotalFromLastTotalRow(SplitOn(data, '\n'), api);
  }

  // ---------------------------------------------------------------------------
  // getBatteryInfo

  function BatteryErrorMessage(data: string): string {
    "Unable to parse battery data: '" + data + "'"
  }

  /** The text between the first and the second ':' (`data.split(':')[1] || ''`). */
  function LevelText(data: string): string {
    var parts := SplitOn(data, ':');
    if |parts| > 1 then parts[1] else []
  }

  /** One attempt of getBatteryInfo on the output `data` of `dumpsys battery | grep level`. */
  function BatteryInfo(data: string): (r: Result<(seq<string>, seq<string>), string>)
    ensures r.Ok? ==> r.value.0 == BATTERY_KEYS && |r.value.1| == 1
    ensures r.Ok? <==> data != [] && ParseIntPrefix(Trim(JsBlank, LevelText(data))).Some?
    ensures r.Err? ==> r.error == (if data == [] then NO_DATA_MESSAGE else BatteryErrorMessage(data))
  {
    if data == [] then Err(NO_DATA_MESSAGE)
    else
      match ParseIntPrefix(Trim(JsBlank, LevelText(data)))
      case None => Err(BatteryErrorMessage(data))
      case Some(power) => Ok((BATTERY_KEYS, [IntToDecimal(power)]))
  }

  /** Blanks in front of a run of digits trim away. */
  lemma {:induction false} TrimPadded(pad: string, digits: string)
    requires forall k :: 0 <= k < |pad| ==> IsJsSpace(pad[k])
    requires digits != [] && AllDigits(digits)
    ensures Trim(JsBlank, pad + digits) == digits
  {
    if pad == [] {
      assert pad + digits == digits;
      assert !IsJsSpace(digits[|digits| - 1]);
    } else {
      assert (pad + digits)[1..] == pad[1..] + digits;
      TrimPadded(pad[1..], digits);
    }
  }

  /** The level text is everything after the first ':' when there is no second one. */
  lemma LevelTextAfterColon(heading: string, rest: string)
    requires ':' !in heading && ':' !in rest
    ensures LevelText(heading + ":" + rest) == rest
  {
    assert heading + ":" + rest == heading + [':'] + rest;
    SplitOnFirst(heading, ':', rest);
    SplitOnNone(rest, ':');
  }

  /** `parseInt` reads a printed natural number back. */
  lemma ParsePrinted(n: nat)
    ensures ParseIntPrefix(NatToDecimal(n)) == Some(n)
  {
    var digits := NatToDecimal(n);
    assert IsDigit(digits[0]);
    assert !IsBlank(JsBlank, digits[0]);
    assert StripLeading(JsBlank, digits) == digits;
    DigitPrefixOfDigits(digits, []);
    assert digits + [] == digits;
    DecimalRoundTrip(n);
  }

  /** A level printed after the first ':' is read back as it was printed. */
  lemma BatteryRoundTrip(heading: string, pad: string, level: nat)
    requires ':' !in heading
    requires forall k :: 0 <= k < |pad| ==> IsJsSpace(pad[k])
    ensures BatteryInfo(heading + ":" + pad + NatToDecimal(level)) == Ok((BATTERY_KEYS, [NatToDecimal(level)]))
  {
    var digits := NatToDecimal(level);
    var rest := pad + digits;
    assert ':' !in rest by {
      forall k | 0 <= k < |rest|
        ensures rest[k] != ':'
      {
        if k >= |pad| {
          assert rest[k] == digits[k - |pad|];
        }
      }
    }
    assert heading + ":" + pad + digits == heading + ":" + rest;
    LevelTextAfterColon(heading, rest);
    TrimPadded(pad, digits);
    ParsePrinted(level);
  }

  /** Output without a ':' has no level. */
  lemma BatteryWithoutColon(data: string)
    requires data != [] && ':' !in data
    ensures BatteryInfo(data) == Err(BatteryErrorMessage(data))
  {
    SplitOnNone(data, ':');
  }
}
