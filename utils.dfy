/**
 * The driver's small helpers: checking that command arguments are present,
 * reading a capability that may hold one name or a JSON array of names, and
 * turning native log lines into Selenium log records.
 */
module Utils {
  import opened Wrappers
  import opened Text
  import opened Json
  import BidiModels

  // ---------------------------------------------------------------------
  // Required arguments
  // ---------------------------------------------------------------------

  /** One argument name or a list of them. */
  datatype ArgNames = OneName(name: string) | NameList(names: seq<string>)

  function NameSeq(argNames: ArgNames): (r: seq<string>)
    ensures argNames.OneName? ==> r == [argNames.name]
    ensures argNames.NameList? ==> r == argNames.names
  {
    match argNames
    case OneName(name) => [name]
    case NameList(names) => names
  }

  function MissingArgMessage(name: string): string {
    "'" + name + "' argument must be provided"
  }

  /** The names checked in order: the first one absent from `opts` is reported, and when all are present `opts` comes back. */
  function RequireAll(names: seq<string>, opts: Object): (r: Result<Object, string>)
    ensures r.Ok? <==> forall i :: 0 <= i < |names| ==> names[i] in opts
    ensures r.Ok? ==> r.value == opts
    ensures r.Err? ==> exists i :: 0 <= i < |names| && names[i] !in opts
                                   && (forall j :: 0 <= j < i ==> names[j] in opts)
                                   && r.error == MissingArgMessage(names[i])
  {
    if names == [] then Ok(opts)
    else if names[0] !in opts then Err(MissingArgMessage(names[0]))
    else
      var rest := RequireAll(names[1..], opts);
      if rest.Err? then
        ghost var i :| 0 <= i < |names[1..]| && names[1..][i] !in opts
                       && (forall j :: 0 <= j < i ==> names[1..][j] in opts)
                       && rest.error == MissingArgMessage(names[1..][i]);
        assert names[i + 1] == names[1..][i];
        assert forall j :: 1 <= j < i + 1 ==> names[j] == names[1..][j - 1];
        rest
      else
        assert forall i :: 1 <= i < |names| ==> names[i] == names[1..][i - 1];
        rest
  }

  /** `requireArgs`: a single name is checked like a list holding only it. */
  function RequireArgs(argNames: ArgNames, opts: Object): (r: Result<Object, string>)
    ensures r.Ok? <==> forall i :: 0 <= i < |NameSeq(argNames)| ==> NameSeq(argNames)[i] in opts
    ensures r.Ok? ==> r.value == opts
    ensures argNames.OneName? && r.Err? ==> r.error == MissingArgMessage(argNames.name)
  {
    RequireAll(NameSeq(argNames), opts)
  }

  /** Checking two lists is checking the first and then the second. */
  lemma {:induction false} RequireConcat(a: seq<string>, b: seq<string>, opts: Object)
    ensures RequireAll(a + b, opts) == if RequireAll(a, opts).Err? then RequireAll(a, opts) else RequireAll(b, opts)
    decreases |a|
  {
    if a != [] {
      assert (a + b)[0] == a[0] && (a + b)[1..] == a[1..] + b;
      if a[0] in opts {
        RequireConcat(a[1..], b, opts);
      }
    } else {
      assert a + b == b;
    }
  }

  // ---------------------------------------------------------------------
  // Array capabilities
  // ---------------------------------------------------------------------

  /** A capability value: a string, or an array of strings. */
  datatype Cap = CapString(s: string) | CapArray(items: seq<string>)

  function StringItems(items: seq<string>): (r: seq<Json>)
    ensures |r| == |items| && forall i :: 0 <= i < |r| ==> r[i] == JStr(items[i])
  {
    if items == [] then [] else [JStr(items[0])] + StringItems(items[1..])
  }

  /** `String(cap)`: an array is joined with commas. */
  function CapText(cap: Cap): string {
    match cap
    case CapString(s) => s
    case CapArray(items) => ArrayString(StringItems(items))
  }

  function NotArrayMessage(cap: Cap): string {
    "must provide a string or JSON Array; received " + CapText(cap)
  }

  /**
   * `parseArray`. `parsed` is what `JSON.parse` makes of the capability's
   * text, `None` when it throws. A JSON array is returned as it is; any other
   * string is a list of itself; anything else is refused.
   */
  function ParseArray(cap: Cap, parsed: Option<Json>): (r: Result<seq<Json>, string>)
    ensures r.Ok? <==> (parsed.Some? && parsed.value.JArr?) || cap.CapString?
    ensures parsed.Some? && parsed.value.JArr? ==> r == Ok(parsed.value.items)
    ensures cap.CapString? && !(parsed.Some? && parsed.value.JArr?) ==> r == Ok([JStr(cap.s)])
    ensures r.Err? ==> r.error == NotArrayMessage(cap)
  {
    if parsed.Some? && parsed.value.JArr? then Ok(parsed.value.items)
    else if cap.CapString? then Ok([JStr(cap.s)])
    else Err(NotArrayMessage(cap))
  }

  /** A one-element array of text given as an array is joined into its text, so it is read only if that text is JSON. */
  lemma SingleArrayCap(name: string, parsed: Option<Json>)
    requires !(parsed.Some? && parsed.value.JArr?)
    ensures CapText(CapArray([name])) == name
    ensures ParseArray(CapArray([name]), parsed) == Err(NotArrayMessage(CapArray([name])))
  {
    assert StringItems([name]) == [JStr(name)];
    assert ArrayString([JStr(name)]) == ValueString(JStr(name)) + [];
  }

  // ---------------------------------------------------------------------
  // Log records
  // ---------------------------------------------------------------------

  const ESC: char := '\U{1b}'

  /** The length of the longest prefix of decimal digits. */
  function DigitRun(t: string): (r: nat)
    ensures r <= |t| && (r < |t| ==> !IsDigit(t[r]))
    ensures forall i :: 0 <= i < r ==> IsDigit(t[i])
  {
    if t == [] || !IsDigit(t[0]) then 0 else 1 + DigitRun(t[1..])
  }

  /** A character a colour code can hold after its opening escape and bracket. */
  predicate IsCodeChar(c: char) {
    IsDigit(c) || c == ';' || c == 'm'
  }

  /** The length of the longest prefix matching `(;\d+)*`. */
  function GroupsRun(t: string): (r: nat)
    ensures r <= |t|
    ensures forall i :: 0 <= i < r ==> IsCodeChar(t[i])
    ensures r < |t| ==> !(t[r] == ';' && r + 1 < |t| && IsDigit(t[r + 1]))
    decreases |t|
  {
    if |t| >= 2 && t[0] == ';' && IsDigit(t[1]) then
      var d := 1 + DigitRun(t[1..]);
      var rest := GroupsRun(t[d..]);
      assert forall i :: d <= i < d + rest ==> t[i] == t[d..][i - d];
      d + rest
    else 0
  }

  /** The length of the optional group `(\d+(;\d+)*)?`, matched greedily. */
  function CodeBody(t: string): (r: nat)
    ensures r <= |t| && forall i :: 0 <= i < r ==> IsCodeChar(t[i])
  {
    if t != [] && IsDigit(t[0]) then
      var d := DigitRun(t);
      var g := GroupsRun(t[d..]);
      assert forall i :: d <= i < d + g ==> t[i] == t[d..][i - d];
      d + g
    else 0
  }

  /** The length of the colour code `ESC [ (\d+(;\d+)*)? m` at the start of `s`, if there is one. */
  function ColorCodeAt(s: string): (r: Option<nat>)
    ensures r.Some? ==> 3 <= r.value <= |s| && s[0] == ESC && s[1] == '[' && s[r.value - 1] == 'm'
  {
    if |s| >= 2 && s[0] == ESC && s[1] == '[' then
      var t := s[2..];
      var body := CodeBody(t);
      if body < |t| && t[body] == 'm' then Some(3 + body) else None
    else None
  }

  /** A colour code is made of the escape, the bracket and code characters only. */
  lemma CodeChars(s: string)
    requires ColorCodeAt(s).Some?
    ensures forall i :: 2 <= i < ColorCodeAt(s).value ==> IsCodeChar(s[i])
  {
    var t := s[2..];
    var body := CodeBody(t);
    assert ColorCodeAt(s).value == 3 + body;
    forall i | 2 <= i < 3 + body
      ensures IsCodeChar(s[i])
    {
      assert s[i] == t[i - 2];
    }
  }

  /** One left-to-right pass removing every colour code, as a global regular-expression replace does. */
  function StripColorCodes(s: string): (r: string)
    ensures |r| <= |s|
    decreases |s|
  {
    if s == [] then []
    else match ColorCodeAt(s)
      case Some(n) => StripColorCodes(s[n..])
      case None => [s[0]] + StripColorCodes(s[1..])
  }

  /** The characters of `s` that no colour code contains. */
  function Plain(s: string): (r: string)
    ensures ESC !in r
  {
    if s == [] then [] else (if s[0] == ESC || s[0] == '[' || IsCodeChar(s[0]) then [] else [s[0]]) + Plain(s[1..])
  }

  lemma {:induction false} PlainConcat(a: string, b: string)
    ensures Plain(a + b) == Plain(a) + Plain(b)
    decreases |a|
  {
    if a != [] {
      assert (a + b)[0] == a[0] && (a + b)[1..] == a[1..] + b;
      PlainConcat(a[1..], b);
    } else {
      assert a + b == b;
    }
  }

  /** A colour code holds no plain character. */
  lemma {:induction false} PlainOfCode(s: string, n: nat)
    requires n <= |s| && forall i :: 0 <= i < n ==> s[i] == ESC || s[i] == '[' || IsCodeChar(s[i])
    ensures Plain(s[..n]) == []
    decreases n
  {
    if n > 0 {
      assert s[..n][1..] == s[1..][..n - 1];
      PlainOfCode(s[1..], n - 1);
    }
  }

  /** Stripping removes colour-code characters only: every other character is kept, in order. */
  lemma {:induction false} StripKeepsPlain(s: string)
    ensures Plain(StripColorCodes(s)) == Plain(s)
    decreases |s|
  {
    if s != [] {
      var code := ColorCodeAt(s);
      if code.Some? {
        var n := code.value;
        StripSkipsCode(s);
        StripKeepsPlain(s[n..]);
        PlainSkipsCode(s);
      } else {
        StripKeepsChar(s);
        StripKeepsPlain(s[1..]);
        PlainConcat([s[0]], StripColorCodes(s[1..]));
        assert s == [s[0]] + s[1..];
        PlainConcat([s[0]], s[1..]);
      }
    }
  }

  /** A colour code at the start is dropped whole. */
  lemma StripSkipsCode(s: string)
    requires s != [] && ColorCodeAt(s).Some?
    ensures StripColorCodes(s) == StripColorCodes(s[ColorCodeAt(s).value..])
  {
  }

  /** A character that starts no colour code is kept. */
  lemma StripKeepsChar(s: string)
    requires s != [] && ColorCodeAt(s).None?
    ensures StripColorCodes(s) == [s[0]] + StripColorCodes(s[1..])
  {
  }

  /** A colour code at the start adds nothing plain. */
  lemma PlainSkipsCode(s: string)
    requires ColorCodeAt(s).Some?
    ensures Plain(s) == Plain(s[ColorCodeAt(s).value..])
  {
    var n := ColorCodeAt(s).value;
    CodeChars(s);
    PlainOfCode(s, n);
    assert s == s[..n] + s[n..];
    PlainConcat(s[..n], s[n..]);
  }

  /** Text without an escape character is left as it is. */
  lemma {:induction false} StripWithoutEscape(s: string)
    requires ESC !in s
    ensures StripColorCodes(s) == s
    decreases |s|
  {
    if s != [] {
      assert s[0] != ESC;
      StripWithoutEscape(s[1..]);
    }
  }

  /** A red foreground code in front of a text is dropped. */
  lemma StripLeadingCode(t: string)
    ensures StripColorCodes("\U{1b}[31m" + t) == StripColorCodes(t)
  {
    var s := "\U{1b}[31m" + t;
    assert s[2..][..2] == "31" && s[2..][2] == 'm';
    assert DigitRun(s[2..][2..]) == 0;
    assert CodeBody(s[2..]) == 2;
    assert ColorCodeAt(s) == Some(5);
    assert s[5..] == t;
  }

  /** The code `ESC [ 0 m` at the start of a text. */
  lemma ResetCodeAt(rest: string)
    ensures ColorCodeAt([ESC, '[', '0', 'm'] + rest) == Some(4)
  {
    var s := [ESC, '[', '0', 'm'] + rest;
    var t := s[2..];
    assert t[0] == '0' && t[1] == 'm';
    assert DigitRun(t[1..]) == 0;
    assert DigitRun(t) == 1;
    assert GroupsRun(t[1..]) == 0;
  }

  /** The pass is single: removing an inner code can join the pieces of a new one around it. */
  lemma StripSinglePass()
    ensures StripColorCodes([ESC, '[', ESC, '[', '0', 'm', 'm']) == [ESC, '[', 'm']
    ensures ColorCodeAt([ESC, '[', 'm']) == Some(3)
  {
    var s := [ESC, '[', ESC, '[', '0', 'm', 'm'];
    assert CodeBody(s[2..]) == 0;
    assert ColorCodeAt(s) == None;
    assert ColorCodeAt(s[1..]) == None;
    assert s[2..] == [ESC, '[', '0', 'm'] + "m";
    ResetCodeAt("m");
    assert s[2..][4..] == "m";
    assert CodeBody("m") == 0;
    assert StripColorCodes("m") == "m";
    assert StripColorCodes(s[2..]) == "m";
    assert s[1..][1..] == s[2..];
    assert StripColorCodes(s[1..]) == ['['] + StripColorCodes(s[2..]);
    assert StripColorCodes(s) == [ESC] + StripColorCodes(s[1..]);
  }

  /** `toLogRecord`: the level defaults to "ALL". */
  function ToLogRecord(timestamp: int, message: string, level: Option<string>): (r: BidiModels.LogEntry)
    ensures r.timestamp == timestamp && r.message == message
    ensures r.level == level.GetOr("ALL")
  {
    BidiModels.LogEntry(timestamp, level.GetOr("ALL"), message)
  }

  /** A native log line, with an optional prefix, time and level. */
  datatype NativeEntry = NativeEntry(message: string, prefix: Option<string>, timestamp: Option<int>, level: Option<string>)

  /** The message with its prefix in brackets in front, when it has a non-empty one. */
  function PrefixedMessage(x: NativeEntry): (r: string)
    ensures x.prefix.None? || x.prefix.value == [] ==> r == x.message
    ensures x.prefix.Some? && x.prefix.value != [] ==> r == "[" + x.prefix.value + "] " + x.message
  {
    if x.prefix.None? || x.prefix.value == [] then x.message else "[" + x.prefix.value + "] " + x.message
  }

  /**
   * `nativeLogEntryToSeleniumEntry`: the prefixed message without colour
   * codes, the entry's time or else `now`, and the level "ALL" whatever the
   * entry's own level.
   */
  function NativeLogEntryToSeleniumEntry(x: NativeEntry, now: int): (r: BidiModels.LogEntry)
    ensures r.message == StripColorCodes(PrefixedMessage(x))
    ensures r.timestamp == x.timestamp.GetOr(now)
    ensures r.level == "ALL"
  {
    ToLogRecord(x.timestamp.GetOr(now), StripColorCodes(PrefixedMessage(x)), None)
  }

  /** A plain line keeps its text and gains its prefix; a coloured one loses only colour-code characters. */
  lemma NativeEntryText(x: NativeEntry, now: int)
    ensures ESC !in PrefixedMessage(x) ==> NativeLogEntryToSeleniumEntry(x, now).message == PrefixedMessage(x)
    ensures Plain(NativeLogEntryToSeleniumEntry(x, now).message) == Plain(PrefixedMessage(x))
  {
    if ESC !in PrefixedMessage(x) {
      StripWithoutEscape(PrefixedMessage(x));
    }
    StripKeepsPlain(PrefixedMessage(x));
  }
}
