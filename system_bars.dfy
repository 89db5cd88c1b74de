/**
 * The status and navigation bar parser over the window manager's dumpsys
 * output: window titles group the property lines below them, and the frame
 * and view visibility of the StatusBar and NavigationBar windows are read
 * out of those lines.
 */
module SystemBars {

  import opened Wrappers
  import opened Text

  /** A JavaScript number as parseFloat yields it: a value, or NaN. */
  datatype Num = Num(v: real) | NaN

  function Minus(a: Num, b: Num): Num {
    if a.Num? && b.Num? then Num(a.v - b.v) else NaN
  }

  /** The value of the digits after a decimal point. */
  function FractionValue(digits: string): (r: real)
    requires AllDigits(digits)
    ensures 0.0 <= r <= 1.0
  {
    if digits == [] then 0.0 else (DigitValue(digits[0]) as real + FractionValue(digits[1..])) / 10.0
  }

  /**
   * parseFloat of a string over the frame pattern's characters [0-9.-]: an
   * optional '-', digits, and an optional '.' with more digits; NaN when no
   * digit leads.
   */
  function ParseFloat(s: string): (r: Num)
  {
    var negative := s != [] && s[0] == '-';
    var t := if negative then s[1..] else s;
    var whole := DigitPrefix(t);
    var rest := t[|whole|..];
    var fraction := if rest != [] && rest[0] == '.' then DigitPrefix(rest[1..]) else [];
    if whole == [] && fraction == [] then NaN
    else
      var magnitude := DecimalValue(whole) as real + FractionValue(fraction);
      Num(if negative then -magnitude else magnitude)
  }

  /** An integer printed in decimal parses back to itself. */
  lemma ParseFloatInt(n: int)
    ensures ParseFloat(IntToDecimal(n)) == Num(n as real)
  {
    var m := if n >= 0 then n else -n;
    var digits := NatToDecimal(m);
    DecimalRoundTrip(m);
    DigitPrefixOfDigits(digits, []);
    assert digits + [] == digits;
    if n < 0 {
      assert IntToDecimal(n)[1..] == digits;
    }
  }


  predicate IsFrameChar(c: char) { IsDigit(c) || c == '.' || c == '-' }
  predicate IsHexDigit(c: char) { IsDigit(c) || ('a' <= c <= 'f') || ('A' <= c <= 'F') }
  predicate IsLowerHexDigit(c: char) { IsDigit(c) || ('a' <= c <= 'f') }
  /** The `[\w-]` class of window names. */
  predicate IsNameChar(c: char) { IsWordChar(c) || c == '-' }

  /** What is left of `s` after the longest leading run of characters satisfying `p`. */
  function DropRun(s: string, p: char -> bool): (r: string)
    ensures |r| <= |s| && r == s[|s| - |r|..]
    ensures forall k :: 0 <= k < |s| - |r| ==> p(s[k])
    ensures r == [] || !p(r[0])
  {
    if s == [] || !p(s[0]) then s else DropRun(s[1..], p)
  }

  /** A run spelled out in front of a character outside the class is dropped exactly. */
  lemma {:induction false} DropRunOver(part: string, rest: string, p: char -> bool)
    requires forall k :: 0 <= k < |part| ==> p(part[k])
    requires rest == [] || !p(rest[0])
    ensures DropRun(part + rest, p) == rest
  {
    if part == [] {
      assert part + rest == rest;
    } else {
      assert (part + rest)[1..] == part[1..] + rest;
      DropRunOver(part[1..], rest, p);
    }
  }

  /** The four coordinate texts of a frame. */
  datatype Frame = Frame(left: string, top: string, right: string, bottom: string)

  /** What follows each coordinate of `[l,t][r,b]` once the leading '[' is read. */
  const FRAME_CLOSES: seq<string> := [",", "][", ",", "]"]

  /**
   * Greedy `[0-9.-]+` runs, the i-th followed by `closes[i]`: the texts of the
   * runs. No close text starts with a frame character, so each run is the
   * only one that can match.
   */
  function Coordinates(t: string, closes: seq<string>): (r: Option<seq<string>>)
    ensures r.Some? ==> |r.value| == |closes|
    decreases |closes|
  {
    if closes == [] then Some([])
    else
      var rest := DropRun(t, IsFrameChar);
      if |rest| == |t| || !StartsWith(rest, closes[0]) then None
      else
        match Coordinates(rest[|closes[0]|..], closes[1..])
        case None => None
        case Some(more) => Some([t[..|t| - |rest|]] + more)
  }

  /** FRAME_PATTERN `m?[Ff]rame=\[(..),(..)\]\[(..),(..)\]` at the start of `t`. */
  function FrameMatch(t: string): Option<Frame> {
    var u := if StartsWith(t, "m") then t[1..] else t;
    if StartsWith(u, "Frame=[") || StartsWith(u, "frame=[") then
      match Coordinates(u[7..], FRAME_CLOSES)
      case None => None
      case Some(cs) => Some(Frame(cs[0], cs[1], cs[2], cs[3]))
    else None
  }

  /** The regular-expression `\b` before index `p`, for a match starting with a word character. */
  predicate WordStart(s: string, p: nat)
    requires p <= |s|
  {
    p == 0 || !IsWordChar(s[p - 1])
  }

  function FrameAt(s: string, p: nat): Option<Frame>
    requires p <= |s|
  {
    if WordStart(s, p) then FrameMatch(s[p..]) else None
  }

  /** The first of the positions p..end at which `at` finds a match: a regular-expression `exec` from `p`. */
  function FirstMatch<T>(at: nat -> Option<T>, p: nat, end: nat): Option<T>
    requires p <= end
    decreases end - p
  {
    var m := at(p);
    if m.Some? || p == end then m else FirstMatch(at, p + 1, end)
  }

  /** `FirstMatch` answers the match at the first position that has one. */
  lemma {:induction false} FirstMatchFirst<T>(at: nat -> Option<T>, p: nat, q: nat, end: nat)
    requires p <= q <= end && at(q).Some?
    requires forall k :: p <= k < q ==> at(k).None?
    ensures FirstMatch(at, p, end) == at(q)
    decreases q - p
  {
    if p < q {
      FirstMatchFirst(at, p + 1, q, end);
    }
  }

  /** `FirstMatch` fails exactly when no position has a match. */
  lemma {:induction false} FirstMatchNone<T>(at: nat -> Option<T>, p: nat, end: nat)
    requires p <= end
    ensures FirstMatch(at, p, end).None? <==> forall k :: p <= k <= end ==> at(k).None?
    decreases end - p
  {
    if p < end {
      FirstMatchNone(at, p + 1, end);
    }
  }

  /** What `FirstMatch` answers is the match at some position. */
  lemma {:induction false} FirstMatchFound<T>(at: nat -> Option<T>, p: nat, end: nat)
    requires p <= end
    ensures FirstMatch(at, p, end).Some? ==> exists k :: p <= k <= end && at(k) == FirstMatch(at, p, end)
    decreases end - p
  {
    if p < end && at(p).None? {
      FirstMatchFound(at, p + 1, end);
    }
  }

  /** The frame match at each position of `s`. */
  function FramesIn(s: string): nat -> Option<Frame> {
    (k: nat) => if k <= |s| then FrameAt(s, k) else None
  }

  /** `FRAME_PATTERN.exec`: the leftmost match at or after `p`. */
  function FindFrame(s: string, p: nat): Option<Frame>
    requires p <= |s|
  {
    FirstMatch(FramesIn(s), p, |s|)
  }

  /** VIEW_VISIBILITY_PATTERN `mViewVisibility=(0x[0-9a-fA-F]+)` at the start of `t`: the hex digits. */
  function VisibilityMatch(t: string): (r: Option<string>)
    ensures r.Some? ==> r.value != [] && forall k :: 0 <= k < |r.value| ==> IsHexDigit(r.value[k])
  {
    if !StartsWith(t, "mViewVisibility=0x") then None
    else
      var digits := t[18..];
      var rest := DropRun(digits, IsHexDigit);
      if |rest| == |digits| then None else Some(digits[..|digits| - |rest|])
  }

  function VisibilityAt(s: string, p: nat): Option<string>
    requires p <= |s|
  {
    if WordStart(s, p) then VisibilityMatch(s[p..]) else None
  }

  function VisibilitiesIn(s: string): nat -> Option<string> {
    (k: nat) => if k <= |s| then VisibilityAt(s, k) else None
  }

  function FindVisibility(s: string, p: nat): (r: Option<string>)
    requires p <= |s|
    ensures r.Some? ==> r.value != [] && forall k :: 0 <= k < |r.value| ==> IsHexDigit(r.value[k])
  {
    var at := VisibilitiesIn(s);
    FirstMatchFound(at, p, |s|);
    FirstMatch(at, p, |s|)
  }

  function HexDigitValue(c: char): nat
    requires IsHexDigit(c)
  {
    if IsDigit(c) then c as int - '0' as int
    else if 'a' <= c <= 'f' then c as int - 'a' as int + 10
    else c as int - 'A' as int + 10
  }

  /** `parseInt("0x" + digits, 16)`. */
  function HexValue(digits: string): nat
    requires forall k :: 0 <= k < |digits| ==> IsHexDigit(digits[k])
  {
    if digits == [] then 0
    else 16 * HexValue(digits[..|digits| - 1]) + HexDigitValue(digits[|digits| - 1])
  }

  /** A hex number is zero exactly when every digit is '0'. */
  lemma {:induction false} HexZeroIff(digits: string)
    requires forall k :: 0 <= k < |digits| ==> IsHexDigit(digits[k])
    ensures HexValue(digits) == 0 <==> forall k :: 0 <= k < |digits| ==> digits[k] == '0'
  {
    if digits != [] {
      var init := digits[..|digits| - 1];
      HexZeroIff(init);
      if HexValue(digits) == 0 {
        forall k | 0 <= k < |digits|
          ensures digits[k] == '0'
        {
          if k < |init| {
            assert digits[k] == init[k];
          }
        }
      }
      if forall k :: 0 <= k < |digits| ==> digits[k] == '0' {
        assert forall k :: 0 <= k < |init| ==> init[k] == digits[k];
      }
    }
  }

  /** Integers printed in decimal, each followed by its close text, then `rest`. */
  function CoordinatesText(ns: seq<int>, closes: seq<string>, rest: string): string
    requires |ns| == |closes|
    decreases |closes|
  {
    if closes == [] then rest
    else IntToDecimal(ns[0]) + (closes[0] + CoordinatesText(ns[1..], closes[1..], rest))
  }

  /** The frame line as dumpsys prints it, followed by `rest`. */
  function FrameText(l: int, t: int, r: int, b: int, rest: string): string {
    "m" + ("Frame=[" + CoordinatesText([l, t, r, b], FRAME_CLOSES, rest))
  }

  lemma IntDigitsAreFrameChars(n: int)
    ensures forall k :: 0 <= k < |IntToDecimal(n)| ==> IsFrameChar(IntToDecimal(n)[k])
  {
    if n < 0 {
      forall k | 0 <= k < |IntToDecimal(n)|
        ensures IsFrameChar(IntToDecimal(n)[k])
      {
        if k > 0 {
          assert IntToDecimal(n)[k] == NatToDecimal(-n)[k - 1];
        }
      }
    }
  }

  function Decimals(ns: seq<int>): (r: seq<string>)
    ensures |r| == |ns|
  {
    if ns == [] then [] else [IntToDecimal(ns[0])] + Decimals(ns[1..])
  }

  /** Printed integers are read back as their own texts, whatever follows them. */
  lemma {:induction false} CoordinatesRoundTrip(ns: seq<int>, closes: seq<string>, rest: string)
    requires |ns| == |closes|
    requires forall i :: 0 <= i < |closes| ==> closes[i] != [] && !IsFrameChar(closes[i][0])
    ensures Coordinates(CoordinatesText(ns, closes, rest), closes) == Some(Decimals(ns))
    decreases |closes|
  {
    if closes != [] {
      var n := IntToDecimal(ns[0]);
      var after := CoordinatesText(ns[1..], closes[1..], rest);
      var t := CoordinatesText(ns, closes, rest);
      assert t == n + (closes[0] + after);
      CoordinatesRoundTrip(ns[1..], closes[1..], rest);
      IntDigitsAreFrameChars(ns[0]);
      assert (closes[0] + after)[0] == closes[0][0];
      DropRunOver(n, closes[0] + after, IsFrameChar);
      PrefixParts(closes[0], after);
      assert t[..|t| - |closes[0] + after|] == n;
    }
  }

  lemma FrameClosesAreClosers()
    ensures forall i :: 0 <= i < |FRAME_CLOSES| ==> FRAME_CLOSES[i] != [] && !IsFrameChar(FRAME_CLOSES[i][0])
  {
  }

  lemma DecimalsOfFour(l: int, t: int, r: int, b: int)
    ensures Decimals([l, t, r, b]) == [IntToDecimal(l), IntToDecimal(t), IntToDecimal(r), IntToDecimal(b)]
  {
    assert Decimals([b]) == [IntToDecimal(b)] by { assert [b][1..] == []; }
    assert Decimals([r, b]) == [IntToDecimal(r), IntToDecimal(b)] by { assert [r, b][1..] == [b]; }
    assert Decimals([t, r, b]) == [IntToDecimal(t), IntToDecimal(r), IntToDecimal(b)] by { assert [t, r, b][1..] == [r, b]; }
    assert [l, t, r, b][1..] == [t, r, b];
  }

  lemma FrameMatchAfterM(u: string, cs: seq<string>)
    requires StartsWith(u, "Frame=[") && Coordinates(u[7..], FRAME_CLOSES) == Some(cs)
    ensures FrameMatch("m" + u) == Some(Frame(cs[0], cs[1], cs[2], cs[3]))
  {
    PrefixParts("m", u);
  }

  /** The frame pattern reads a printed frame back, whatever follows it. */
  lemma FrameRoundTrip(l: int, t: int, r: int, b: int, rest: string)
    ensures FrameMatch(FrameText(l, t, r, b, rest)) ==
      Some(Frame(IntToDecimal(l), IntToDecimal(t), IntToDecimal(r), IntToDecimal(b)))
  {
    var s0 := CoordinatesText([l, t, r, b], FRAME_CLOSES, rest);
    FrameClosesAreClosers();
    CoordinatesRoundTrip([l, t, r, b], FRAME_CLOSES, rest);
    DecimalsOfFour(l, t, r, b);
    PrefixParts("Frame=[", s0);
    FrameMatchAfterM("Frame=[" + s0, Decimals([l, t, r, b]));
  }

  /** `FindFrame` is the leftmost match: it finds the first position where the pattern matches. */
  lemma FindFrameFirst(s: string, p: nat, q: nat)
    requires p <= q <= |s| && FrameAt(s, q).Some?
    requires forall k :: p <= k < q ==> FrameAt(s, k).None?
    ensures FindFrame(s, p) == FrameAt(s, q)
  {
    FirstMatchFirst(FramesIn(s), p, q, |s|);
  }

  /** `FindFrame` fails only when the pattern matches nowhere. */
  lemma FindFrameNone(s: string, p: nat)
    requires p <= |s|
    ensures FindFrame(s, p).None? <==> forall k :: p <= k <= |s| ==> FrameAt(s, k).None?
  {
    FirstMatchNone(FramesIn(s), p, |s|);
    assert forall k :: p <= k <= |s| ==> FramesIn(s)(k) == FrameAt(s, k);
  }

  lemma FindVisibilityFirst(s: string, p: nat, q: nat)
    requires p <= q <= |s| && VisibilityAt(s, q).Some?
    requires forall k :: p <= k < q ==> VisibilityAt(s, k).None?
    ensures FindVisibility(s, p) == VisibilityAt(s, q)
  {
    FirstMatchFirst(VisibilitiesIn(s), p, q, |s|);
  }

  lemma FindVisibilityNone(s: string, p: nat)
    requires p <= |s|
    ensures FindVisibility(s, p).None? <==> forall k :: p <= k <= |s| ==> VisibilityAt(s, k).None?
  {
    FirstMatchNone(VisibilitiesIn(s), p, |s|);
    assert forall k :: p <= k <= |s| ==> VisibilitiesIn(s)(k) == VisibilityAt(s, k);
  }

  /** Printed at the start of the text, a frame is the one the search finds. */
  lemma FindPrintedFrame(l: int, t: int, r: int, b: int, rest: string)
    ensures FindFrame(FrameText(l, t, r, b, rest), 0) ==
      Some(Frame(IntToDecimal(l), IntToDecimal(t), IntToDecimal(r), IntToDecimal(b)))
  {
    FrameRoundTrip(l, t, r, b, rest);
    assert FrameText(l, t, r, b, rest)[0..] == FrameText(l, t, r, b, rest);
  }

  /** The visibility pattern reads back the hex digits printed after it. */
  lemma VisibilityRoundTrip(digits: string, rest: string)
    requires digits != [] && forall k :: 0 <= k < |digits| ==> IsHexDigit(digits[k])
    requires rest == [] || !IsHexDigit(rest[0])
    ensures VisibilityMatch("mViewVisibility=0x" + (digits + rest)) == Some(digits)
  {
    PrefixParts("mViewVisibility=0x", digits + rest);
    DropRunOver(digits, rest, IsHexDigit);
    assert (digits + rest)[..|digits|] == digits;
  }

  /** The frame and visibility of one window. */
  datatype WindowProperties = WindowProperties(visible: bool, x: Num, y: Num, width: Num, height: Num)

  /** DEFAULT_WINDOW_PROPERTIES: an invisible, empty window. */
  const DEFAULT_WINDOW_PROPERTIES := WindowProperties(false, Num(0.0), Num(0.0), Num(0.0), Num(0.0))

  function FrameErrorMessage(name: string): string {
    "Cannot parse the frame size from '" + name + "' window properties"
  }

  function VisibilityErrorMessage(name: string): string {
    "Cannot parse the visibility value from '" + name + "' window properties"
  }

  /**
   * parseWindowProperties: the first frame and the first visibility found in
   * the window's lines joined by newlines; either missing is an error naming
   * the window, the frame being looked for first.
   */
  function ParseWindowProperties(name: string, props: seq<string>): (r: Result<WindowProperties, string>)
    ensures FindFrame(JoinWith(props, '\n'), 0).None? ==> r == Err(FrameErrorMessage(name))
    ensures FindFrame(JoinWith(props, '\n'), 0).Some? && FindVisibility(JoinWith(props, '\n'), 0).None? ==>
      r == Err(VisibilityErrorMessage(name))
    ensures r.Ok? <==> FindFrame(JoinWith(props, '\n'), 0).Some? && FindVisibility(JoinWith(props, '\n'), 0).Some?
  {
    var propLines := JoinWith(props, '\n');
    match FindFrame(propLines, 0)
    case None => Err(FrameErrorMessage(name))
    case Some(frame) =>
      match FindVisibility(propLines, 0)
      case None => Err(VisibilityErrorMessage(name))
      case Some(digits) => Ok(Measure(frame, digits))
  }

  /** The properties read off a frame and a visibility: the frame's origin and extent, and whether the flags are VIEW_VISIBLE. */
  function Measure(frame: Frame, digits: string): WindowProperties
    requires forall k :: 0 <= k < |digits| ==> IsHexDigit(digits[k])
  {
    var x := ParseFloat(frame.left);
    var y := ParseFloat(frame.top);
    WindowProperties(HexValue(digits) == 0, x, y, Minus(ParseFloat(frame.right), x), Minus(ParseFloat(frame.bottom), y))
  }

  /** A printed start and end parse to the start and the distance between them. */
  lemma SpanPrinted(a: int, c: int)
    ensures ParseFloat(IntToDecimal(a)) == Num(a as real)
    ensures Minus(ParseFloat(IntToDecimal(c)), ParseFloat(IntToDecimal(a))) == Num((c - a) as real)
  {
    ParseFloatInt(a);
    ParseFloatInt(c);
  }

  lemma MeasurePrinted(l: int, t: int, r: int, b: int, digits: string)
    requires forall k :: 0 <= k < |digits| ==> IsHexDigit(digits[k])
    ensures Measure(Frame(IntToDecimal(l), IntToDecimal(t), IntToDecimal(r), IntToDecimal(b)), digits) ==
      WindowProperties(forall k :: 0 <= k < |digits| ==> digits[k] == '0',
                       Num(l as real), Num(t as real), Num((r - l) as real), Num((b - t) as real))
  {
    SpanPrinted(l, r);
    SpanPrinted(t, b);
    HexZeroIff(digits);
  }

  /**
   * For a frame printed with integer coordinates, x and y are its left and
   * top, width and height the differences to its right and bottom, and the
   * window is visible exactly when every visibility digit is '0'.
   */
  lemma PrintedProperties(name: string, props: seq<string>, l: int, t: int, r: int, b: int, digits: string)
    requires FindFrame(JoinWith(props, '\n'), 0) == Some(Frame(IntToDecimal(l), IntToDecimal(t), IntToDecimal(r), IntToDecimal(b)))
    requires FindVisibility(JoinWith(props, '\n'), 0) == Some(digits)
    ensures ParseWindowProperties(name, props) ==
      Ok(WindowProperties(forall k :: 0 <= k < |digits| ==> digits[k] == '0',
                          Num(l as real), Num(t as real), Num((r - l) as real), Num((b - t) as real)))
  {
    MeasurePrinted(l, t, r, b, digits);
  }

  /** What follows a non-empty run of `p` and one `\s`. */
  function AfterRunAndSpace(s: string, p: char -> bool): (r: Option<string>)
    ensures r.Some? ==> |r.value| < |s|
  {
    var rest := DropRun(s, p);
    if |rest| == |s| || rest == [] || !IsJsSpace(rest[0]) then None else Some(rest[1..])
  }

  /** `([\w-]+)\}:$`: the window name closing the title. */
  function TitleFromName(s: string): (r: Option<string>)
    ensures r.Some? ==> r.value != [] && forall k :: 0 <= k < |r.value| ==> IsNameChar(r.value[k])
  {
    var rest := DropRun(s, IsNameChar);
    if |rest| == |s| || rest != "}:" then None else Some(s[..|s| - |rest|])
  }

  /** `\w+\s`, then the name. */
  function TitleFromKind(s: string): (r: Option<string>)
    ensures r.Some? ==> r.value != [] && forall k :: 0 <= k < |r.value| ==> IsNameChar(r.value[k])
  {
    match AfterRunAndSpace(s, IsWordChar)
    case None => None
    case Some(u) => TitleFromName(u)
  }

  /** `[0-9a-f]+\s`, then the kind. */
  function TitleFromHash(s: string): (r: Option<string>)
    ensures r.Some? ==> r.value != [] && forall k :: 0 <= k < |r.value| ==> IsNameChar(r.value[k])
  {
    match AfterRunAndSpace(s, IsLowerHexDigit)
    case None => None
    case Some(u) => TitleFromKind(u)
  }

  /** `\d+\sWindow\{`, then the hash. */
  function TitleFromNumber(s: string): (r: Option<string>)
    ensures r.Some? ==> r.value != [] && forall k :: 0 <= k < |r.value| ==> IsNameChar(r.value[k])
  {
    match AfterRunAndSpace(s, IsDigit)
    case None => None
    case Some(u) => if StartsWith(u, "Window{") then TitleFromHash(u[7..]) else None
  }

  /** `Window\s#`, then the number. */
  function TitleAfterIndent(s: string): (r: Option<string>)
    ensures r.Some? ==> r.value != [] && forall k :: 0 <= k < |r.value| ==> IsNameChar(r.value[k])
  {
    if !StartsWith(s, "Window") then None
    else
      var u := s[6..];
      if |u| < 2 || !IsJsSpace(u[0]) || u[1] != '#' then None else TitleFromNumber(u[2..])
  }

  /**
   * WINDOW_TITLE_PATTERN `^\s+Window\s#\d+\sWindow\{[0-9a-f]+\s\w+\s([\w-]+)\}:$`
   * over a whole line: the window name it captures. The indent is read one
   * blank at a time; each class is disjoint from the character after it, so
   * every greedy run is the only one that can match.
   */
  function TitleName(line: string): (r: Option<string>)
    ensures r.Some? ==> r.value != [] && forall k :: 0 <= k < |r.value| ==> IsNameChar(r.value[k])
  {
    if |line| < 2 || !IsJsSpace(line[0]) then None
    else if IsJsSpace(line[1]) then TitleName(line[1..])
    else TitleAfterIndent(line[1..])
  }

  lemma {:induction false} IndentOver(indent: string, rest: string)
    requires indent != [] && AllOf(indent, IsJsSpace)
    requires rest != [] && !IsJsSpace(rest[0])
    ensures TitleName(indent + rest) == TitleAfterIndent(rest)
  {
    assert (indent + rest)[1..] == indent[1..] + rest;
    if |indent| > 1 {
      IndentOver(indent[1..], rest);
    } else {
      assert indent[1..] + rest == rest;
    }
  }

  /** A window title as dumpsys prints it. */
  function TitleText(indent: string, number: nat, hash: string, kind: string, name: string): string {
    indent + ("Window" + (" #" + (NatToDecimal(number) + (" " + ("Window{" + (hash + (" " + (kind + (" " + (name + "}:"))))))))))
  }

  predicate AllOf(s: string, p: char -> bool) {
    forall k :: 0 <= k < |s| ==> p(s[k])
  }

  lemma AfterRunAndSpaceOver(part: string, rest: string, p: char -> bool)
    requires part != [] && AllOf(part, p) && !p(' ')
    ensures AfterRunAndSpace(part + (" " + rest), p) == Some(rest)
  {
    DropRunOver(part, " " + rest, p);
    PrefixParts(" ", rest);
  }

  lemma TitleFromNameOver(name: string)
    requires name != [] && AllOf(name, IsNameChar)
    ensures TitleFromName(name + "}:") == Some(name)
  {
    DropRunOver(name, "}:", IsNameChar);
    assert (name + "}:")[..|name|] == name;
  }

  lemma TitleFromKindOver(kind: string, name: string)
    requires kind != [] && AllOf(kind, IsWordChar)
    requires name != [] && AllOf(name, IsNameChar)
    ensures TitleFromKind(kind + (" " + (name + "}:"))) == Some(name)
  {
    AfterRunAndSpaceOver(kind, name + "}:", IsWordChar);
    TitleFromNameOver(name);
  }

  lemma TitleFromHashOver(hash: string, kind: string, name: string)
    requires hash != [] && AllOf(hash, IsLowerHexDigit)
    requires kind != [] && AllOf(kind, IsWordChar)
    requires name != [] && AllOf(name, IsNameChar)
    ensures TitleFromHash(hash + (" " + (kind + (" " + (name + "}:"))))) == Some(name)
  {
    AfterRunAndSpaceOver(hash, kind + (" " + (name + "}:")), IsLowerHexDigit);
    TitleFromKindOver(kind, name);
  }

  lemma TitleFromNumberOver(number: nat, hash: string, kind: string, name: string)
    requires hash != [] && AllOf(hash, IsLowerHexDigit)
    requires kind != [] && AllOf(kind, IsWordChar)
    requires name != [] && AllOf(name, IsNameChar)
    ensures TitleFromNumber(NatToDecimal(number) + (" " + ("Window{" + (hash + (" " + (kind + (" " + (name + "}:")))))))) == Some(name)
  {
    var after := hash + (" " + (kind + (" " + (name + "}:"))));
    DecimalRoundTrip(number);
    AfterRunAndSpaceOver(NatToDecimal(number), "Window{" + after, IsDigit);
    PrefixParts("Window{", after);
    TitleFromHashOver(hash, kind, name);
  }

  /** A printed title line is recognised, and its name is the one captured. */
  lemma TitleRoundTrip(indent: string, number: nat, hash: string, kind: string, name: string)
    requires indent != [] && AllOf(indent, IsJsSpace)
    requires hash != [] && AllOf(hash, IsLowerHexDigit)
    requires kind != [] && AllOf(kind, IsWordChar)
    requires name != [] && AllOf(name, IsNameChar)
    ensures TitleName(TitleText(indent, number, hash, kind, name)) == Some(name)
  {
    var after := NatToDecimal(number) + (" " + ("Window{" + (hash + (" " + (kind + (" " + (name + "}:")))))));
    PrefixParts("Window", " #" + after);
    IndentOver(indent, "Window" + (" #" + after));
    PrefixParts(" #", after);
    TitleFromNumberOver(number, hash, kind, name);
  }

  /** The windows found so far in the order their names first appeared, each with its property lines. */
  type Windows = seq<(string, seq<string>)>

  /** `windows[name]`. */
  function Lookup(ws: Windows, name: string): (r: Option<seq<string>>)
    ensures r.Some? <==> exists i :: 0 <= i < |ws| && ws[i].0 == name
  {
    if ws == [] then None
    else if ws[0].0 == name then Some(ws[0].1)
    else Lookup(ws[1..], name)
  }

  /** `windows[name] = lines`: a known name keeps its place, a new one goes last. */
  function Put(ws: Windows, name: string, lines: seq<string>): (r: Windows)
    ensures |r| == |ws| || |r| == |ws| + 1
    ensures forall i :: 0 <= i < |ws| ==> r[i].0 == ws[i].0
    ensures |r| == |ws| + 1 ==> r[|ws|].0 == name
  {
    if ws == [] then [(name, lines)]
    else if ws[0].0 == name then [(name, lines)] + ws[1..]
    else [ws[0]] + Put(ws[1..], name, lines)
  }

  /** After a put, the name holds the new lines and every other name what it held. */
  lemma {:induction false} PutLookup(ws: Windows, name: string, lines: seq<string>, other: string)
    ensures Lookup(Put(ws, name, lines), other) == if other == name then Some(lines) else Lookup(ws, other)
  {
    if ws != [] && ws[0].0 != name {
      PutLookup(ws[1..], name, lines, other);
    }
  }

  /** The grouping state of parseWindows: the windows and the current window's name. */
  datatype Grouping = Grouping(windows: Windows, current: Option<string>)

  /**
   * One line of the dumpsys output, its trailing blanks removed: a title
   * opens its window afresh, a blank line closes the current one, and any
   * other line joins the current window if there is one.
   */
  function NextLine(g: Grouping, raw: string): Grouping {
    var line := StripTrailing(JsBlank, raw);
    match TitleName(line)
    case Some(name) => Grouping(Put(g.windows, name, []), Some(name))
    case None =>
      if Trim(JsBlank, line) == [] then Grouping(g.windows, None)
      else if g.current.Some? && Lookup(g.windows, g.current.value).Some? then
        Grouping(Put(g.windows, g.current.value, Lookup(g.windows, g.current.value).value + [line]), g.current)
      else g
  }

  /** The grouping after the given lines. */
  function GroupLines(rows: seq<string>): Grouping {
    if rows == [] then Grouping([], None)
    else NextLine(GroupLines(rows[..|rows| - 1]), rows[|rows| - 1])
  }

  /** The name a raw line titles, if it is a title. */
  function TitleOf(raw: string): Option<string> {
    TitleName(StripTrailing(JsBlank, raw))
  }

  /** The current window, when there is one, is among the windows. */
  predicate CurrentOpen(g: Grouping) {
    g.current.Some? ==> Lookup(g.windows, g.current.value).Some?
  }

  /** One line adds at most its own title to the names, and keeps the current window among them. */
  lemma NextLineNames(g: Grouping, raw: string, name: string)
    ensures Lookup(NextLine(g, raw).windows, name).Some? <==> Lookup(g.windows, name).Some? || TitleOf(raw) == Some(name)
    ensures CurrentOpen(g) ==> CurrentOpen(NextLine(g, raw))
  {
    var line := StripTrailing(JsBlank, raw);
    match TitleName(line)
    case Some(n) =>
      PutLookup(g.windows, n, [], name);
      PutLookup(g.windows, n, [], n);
    case None =>
      if Trim(JsBlank, line) != [] && g.current.Some? && Lookup(g.windows, g.current.value).Some? {
        var lines := Lookup(g.windows, g.current.value).value + [line];
        PutLookup(g.windows, g.current.value, lines, name);
        PutLookup(g.windows, g.current.value, lines, g.current.value);
      }
  }

  lemma SplitLast(a: seq<string>, b: seq<string>)
    requires b != []
    ensures a + b == (a + b[..|b| - 1]) + [b[|b| - 1]]
  {
  }

  /** Grouping one more line is one more step. */
  lemma GroupLinesSnoc(rows: seq<string>, last: string)
    ensures GroupLines(rows + [last]) == NextLine(GroupLines(rows), last)
  {
    assert (rows + [last])[..|rows|] == rows;
  }

  /** Some line is mapped to `Some(name)` by `f`; read from the last line back. */
  predicate SomeLineGives(rows: seq<string>, f: string -> Option<string>, name: string) {
    rows != [] && (f(rows[|rows| - 1]) == Some(name) || SomeLineGives(rows[..|rows| - 1], f, name))
  }

  lemma {:induction false} SomeLineGivesIff(rows: seq<string>, f: string -> Option<string>, name: string)
    ensures SomeLineGives(rows, f, name) <==> exists i :: 0 <= i < |rows| && f(rows[i]) == Some(name)
  {
    if rows != [] {
      var init := rows[..|rows| - 1];
      SomeLineGivesIff(init, f, name);
      if exists i :: 0 <= i < |rows| && f(rows[i]) == Some(name) {
        var i :| 0 <= i < |rows| && f(rows[i]) == Some(name);
        if i < |init| {
          assert init[i] == rows[i];
        }
      }
      if exists i :: 0 <= i < |init| && f(init[i]) == Some(name) {
        var i :| 0 <= i < |init| && f(init[i]) == Some(name);
        assert rows[i] == init[i];
      }
    }
  }

  /**
   * The windows are exactly the titled names, and the current window, when
   * there is one, is among them.
   */
  lemma {:induction false} GroupedNames(rows: seq<string>, name: string)
    ensures Lookup(GroupLines(rows).windows, name).Some? <==> exists i :: 0 <= i < |rows| && TitleOf(rows[i]) == Some(name)
    ensures CurrentOpen(GroupLines(rows))
  {
    GroupedTitled(rows, name);
    SomeLineGivesIff(rows, TitleOf, name);
  }

  lemma {:induction false} GroupedTitled(rows: seq<string>, name: string)
    ensures Lookup(GroupLines(rows).windows, name).Some? <==> SomeLineGives(rows, TitleOf, name)
    ensures CurrentOpen(GroupLines(rows))
  {
    if rows != [] {
      var init := rows[..|rows| - 1];
      GroupedTitled(init, name);
      NextLineNames(GroupLines(init), rows[|rows| - 1], name);
    }
  }

  /** No window is found exactly when no line is a title. */
  lemma NoWindowsIffNoTitle(rows: seq<string>)
    ensures GroupLines(rows).windows == [] <==> forall i :: 0 <= i < |rows| ==> TitleOf(rows[i]).None?
  {
    var ws := GroupLines(rows).windows;
    if ws != [] {
      GroupedNames(rows, ws[0].0);
    }
    if exists i :: 0 <= i < |rows| && TitleOf(rows[i]).Some? {
      var i :| 0 <= i < |rows| && TitleOf(rows[i]).Some?;
      GroupedNames(rows, TitleOf(rows[i]).value);
    }
  }

  /** Every line satisfies `p`; read from the last line back. */
  predicate EveryLine(rows: seq<string>, p: string -> bool) {
    rows == [] || (p(rows[|rows| - 1]) && EveryLine(rows[..|rows| - 1], p))
  }

  lemma {:induction false} EveryLineIff(rows: seq<string>, p: string -> bool)
    ensures EveryLine(rows, p) <==> forall k :: 0 <= k < |rows| ==> p(rows[k])
  {
    if rows != [] {
      var init := rows[..|rows| - 1];
      EveryLineIff(init, p);
      assert forall k :: 0 <= k < |init| ==> init[k] == rows[k];
    }
  }

  predicate IsNotTitle(raw: string) {
    TitleOf(raw).None?
  }

  /** A property line: neither a title nor blank once its trailing blanks are gone. */
  predicate IsPropertyLine(raw: string) {
    TitleOf(raw).None? && Trim(JsBlank, StripTrailing(JsBlank, raw)) != []
  }

  /** The lines with their trailing blanks removed, as they are stored. */
  function Stripped(rows: seq<string>): (r: seq<string>)
    ensures |r| == |rows|
  {
    if rows == [] then [] else Stripped(rows[..|rows| - 1]) + [StripTrailing(JsBlank, rows[|rows| - 1])]
  }

  lemma NextLineTitle(g: Grouping, raw: string)
    requires TitleOf(raw).Some?
    ensures NextLine(g, raw).current == TitleOf(raw)
    ensures Lookup(NextLine(g, raw).windows, TitleOf(raw).value) == Some([])
  {
    PutLookup(g.windows, TitleOf(raw).value, [], TitleOf(raw).value);
  }

  lemma NextLineJoins(g: Grouping, raw: string, name: string)
    requires g.current == Some(name) && Lookup(g.windows, name).Some? && IsPropertyLine(raw)
    ensures NextLine(g, raw).current == Some(name)
    ensures Lookup(NextLine(g, raw).windows, name) == Some(Lookup(g.windows, name).value + [StripTrailing(JsBlank, raw)])
  {
    PutLookup(g.windows, name, Lookup(g.windows, name).value + [StripTrailing(JsBlank, raw)], name);
  }

  /**
   * The property lines after a title, up to the next title or blank line,
   * are the lines of that title's window, in order.
   */
  lemma {:induction false} GroupedUnderTitle(pre: seq<string>, title: string, body: seq<string>)
    requires TitleOf(title).Some?
    requires EveryLine(body, IsPropertyLine)
    ensures GroupLines(pre + [title] + body).current == TitleOf(title)
    ensures Lookup(GroupLines(pre + [title] + body).windows, TitleOf(title).value) == Some(Stripped(body))
    decreases |body|
  {
    var name := TitleOf(title).value;
    if body == [] {
      assert pre + [title] + body == pre + [title];
      assert (pre + [title])[..|pre|] == pre;
      NextLineTitle(GroupLines(pre), title);
    } else {
      var init := body[..|body| - 1];
      var g := GroupLines(pre + [title] + init);
      var last := body[|body| - 1];
      SplitLast(pre + [title], body);
      GroupLinesSnoc(pre + [title] + init, last);
      assert Stripped(body) == Stripped(init) + [StripTrailing(JsBlank, body[|body| - 1])];
      GroupedUnderTitle(pre, title, init);
      NextLineJoins(g, body[|body| - 1], name);
    }
  }

  /** An all-blank line closes the current window, and lines after it join no window until the next title. */
  lemma {:induction false} BlankEndsGroup(pre: seq<string>, blank: string, body: seq<string>)
    requires AllOf(blank, IsJsSpace)
    requires EveryLine(body, IsNotTitle)
    ensures GroupLines(pre + [blank] + body) == Grouping(GroupLines(pre).windows, None)
    decreases |body|
  {
    if body == [] {
      assert pre + [blank] + body == pre + [blank];
      assert (pre + [blank])[..|pre|] == pre;
      assert StripTrailing(JsBlank, blank) == [];
    } else {
      var init := body[..|body| - 1];
      var last := body[|body| - 1];
      SplitLast(pre + [blank], body);
      GroupLinesSnoc(pre + [blank] + init, last);
      BlankEndsGroup(pre, blank, init);
    }
  }

  const STATUS_BAR_WINDOW_NAME_PREFIX := "StatusBar"
  const NAVIGATION_BAR_WINDOW_NAME_PREFIX := "NavigationBar"
  const NO_WINDOWS_MESSAGE := "Cannot parse any window information from the dumpsys output"

  predicate IsStatusBar(name: string) { StartsWith(name, STATUS_BAR_WINDOW_NAME_PREFIX) }
  predicate IsNavigationBar(name: string) { StartsWith(name, NAVIGATION_BAR_WINDOW_NAME_PREFIX) }

  /** The bars found so far: the properties of the latest window of each kind. */
  type Found = (Option<WindowProperties>, Option<WindowProperties>)

  /**
   * The second loop of parseWindows over the windows in order: a StatusBar
   * window sets the status bar, a NavigationBar window the navigation bar,
   * a later window replacing an earlier one; the first window whose
   * properties cannot be parsed ends the scan with its error.
   */
  function Scan(ws: Windows): Result<Found, string> {
    if ws == [] then Ok((None, None))
    else
      match Scan(ws[..|ws| - 1])
      case Err(e) => Err(e)
      case Ok(found) =>
        var (name, props) := ws[|ws| - 1];
        if IsStatusBar(name) then
          match ParseWindowProperties(name, props)
          case Err(e) => Err(e)
          case Ok(p) => Ok((Some(p), found.1))
        else if IsNavigationBar(name) then
          match ParseWindowProperties(name, props)
          case Err(e) => Err(e)
          case Ok(p) => Ok((found.0, Some(p)))
        else Ok(found)
  }

  /** An error met on a prefix of the windows is the error of the whole scan. */
  lemma {:induction false} ScanErrSticks(ws: Windows, k: nat)
    requires k <= |ws| && Scan(ws[..k]).Err?
    ensures Scan(ws) == Scan(ws[..k])
    decreases |ws| - k
  {
    if k < |ws| {
      assert ws[..k + 1][..k] == ws[..k];
      ScanErrSticks(ws, k + 1);
    } else {
      assert ws[..k] == ws;
    }
  }

  /** No name is both a status bar's and a navigation bar's. */
  lemma BarKindsDisjoint(name: string)
    ensures !(IsStatusBar(name) && IsNavigationBar(name))
  {
    if IsStatusBar(name) {
      assert name[0] == STATUS_BAR_WINDOW_NAME_PREFIX[0];
    }
  }

  /** Window `j` is the last one whose name `isBar` accepts. */
  predicate LastBar(ws: Windows, isBar: string -> bool, j: int) {
    0 <= j < |ws| && isBar(ws[j].0) && forall k :: j < k < |ws| ==> !isBar(ws[k].0)
  }

  /** A successful scan sets the status bar exactly when some window is a status bar. */
  lemma {:induction false} ScanStatusBarFound(ws: Windows)
    requires Scan(ws).Ok?
    ensures Scan(ws).value.0.None? <==> forall i :: 0 <= i < |ws| ==> !IsStatusBar(ws[i].0)
  {
    if ws != [] {
      var init := ws[..|ws| - 1];
      ScanStatusBarFound(init);
      BarKindsDisjoint(ws[|ws| - 1].0);
      assert forall i :: 0 <= i < |init| ==> init[i] == ws[i];
    }
  }

  /** ... and then to the properties of the last status bar window. */
  lemma {:induction false} ScanStatusBarLast(ws: Windows, j: nat)
    requires Scan(ws).Ok? && LastBar(ws, IsStatusBar, j)
    ensures Scan(ws).value.0.Some? && ParseWindowProperties(ws[j].0, ws[j].1) == Ok(Scan(ws).value.0.value)
  {
    var init := ws[..|ws| - 1];
    BarKindsDisjoint(ws[|ws| - 1].0);
    if j < |init| {
      assert forall i :: 0 <= i < |init| ==> init[i] == ws[i];
      assert LastBar(init, IsStatusBar, j);
      ScanStatusBarLast(init, j);
    }
  }

  /** A successful scan sets the navigation bar exactly when some window is a navigation bar. */
  lemma {:induction false} ScanNavigationBarFound(ws: Windows)
    requires Scan(ws).Ok?
    ensures Scan(ws).value.1.None? <==> forall i :: 0 <= i < |ws| ==> !IsNavigationBar(ws[i].0)
  {
    if ws != [] {
      var init := ws[..|ws| - 1];
      ScanNavigationBarFound(init);
      BarKindsDisjoint(ws[|ws| - 1].0);
      assert forall i :: 0 <= i < |init| ==> init[i] == ws[i];
    }
  }

  /** ... and then to the properties of the last navigation bar window. */
  lemma {:induction false} ScanNavigationBarLast(ws: Windows, j: nat)
    requires Scan(ws).Ok? && LastBar(ws, IsNavigationBar, j)
    ensures Scan(ws).value.1.Some? && ParseWindowProperties(ws[j].0, ws[j].1) == Ok(Scan(ws).value.1.value)
  {
    var init := ws[..|ws| - 1];
    BarKindsDisjoint(ws[|ws| - 1].0);
    if j < |init| {
      assert forall i :: 0 <= i < |init| ==> init[i] == ws[i];
      assert LastBar(init, IsNavigationBar, j);
      ScanNavigationBarLast(init, j);
    }
  }

  /** A bar window whose properties cannot be parsed. */
  predicate Unreadable(w: (string, seq<string>)) {
    (IsStatusBar(w.0) || IsNavigationBar(w.0)) && ParseWindowProperties(w.0, w.1).Err?
  }

  /** The scan fails at the last window when it failed before or that window is unreadable. */
  lemma ScanErrStep(ws: Windows)
    requires ws != []
    ensures Scan(ws).Err? <==> Scan(ws[..|ws| - 1]).Err? || Unreadable(ws[|ws| - 1])
  {
  }

  /** The scan fails exactly when some bar window's properties cannot be parsed. */
  lemma {:induction false} ScanErrIff(ws: Windows)
    ensures Scan(ws).Err? <==> exists i :: 0 <= i < |ws| && Unreadable(ws[i])
  {
    if ws != [] {
      var init := ws[..|ws| - 1];
      ScanErrIff(init);
      ScanErrStep(ws);
      assert forall i :: 0 <= i < |init| ==> init[i] == ws[i];
    }
  }

  /** What parseWindows answers: the status bar's and the navigation bar's properties. */
  datatype Bars = Bars(statusBar: WindowProperties, navigationBar: WindowProperties)

  function OrDefault(p: Option<WindowProperties>): WindowProperties {
    if p.Some? then p.value else DEFAULT_WINDOW_PROPERTIES
  }

  /** parseWindows as a function of the dumpsys output. */
  function SystemBarsOf(lines: string): (r: Result<Bars, string>)
    ensures GroupLines(SplitOn(lines, '\n')).windows == [] ==> r == Err(NO_WINDOWS_MESSAGE)
    ensures r.Ok? ==> Scan(GroupLines(SplitOn(lines, '\n')).windows).Ok?
  {
    var windows := GroupLines(SplitOn(lines, '\n')).windows;
    if windows == [] then Err(NO_WINDOWS_MESSAGE)
    else
      match Scan(windows)
      case Err(e) => Err(e)
      case Ok(found) => Ok(Bars(OrDefault(found.0), OrDefault(found.1)))
  }

  /**
   * parseWindows: groups the lines under their window titles, then reads the
   * status and navigation bar windows; a bar with no window is reported
   * invisible and empty.
   */
  method ParseWindows(lines: string) returns (r: Result<Bars, string>)
    ensures r == SystemBarsOf(lines)
  {
    var windows := GroupWindows(SplitOn(lines, '\n'));
    if windows == [] {
      return Err(NO_WINDOWS_MESSAGE);
    }
    var found := ScanWindows(windows);
    if found.Err? {
      return Err(found.error);
    }
    return Ok(Bars(OrDefault(found.value.0), OrDefault(found.value.1)));
  }

  /** The grouping loop of parseWindows: each window title with the lines under it. */
  method GroupWindows(rows: seq<string>) returns (windows: Windows)
    ensures windows == GroupLines(rows).windows
  {
    windows := [];
    var currentWindowName: Option<string> := None;
    var i := 0;
    while i < |rows|
      invariant 0 <= i <= |rows|
      invariant Grouping(windows, currentWindowName) == GroupLines(rows[..i])
    {
      GroupLinesSnoc(rows[..i], rows[i]);
      assert rows[..i + 1] == rows[..i] + [rows[i]];
      windows, currentWindowName := GroupLine(windows, currentWindowName, rows[i]);
      i := i + 1;
    }
    assert rows[..i] == rows;
  }

  /** One turn of the grouping loop. */
  method GroupLine(windows: Windows, currentWindowName: Option<string>, raw: string)
    returns (windows': Windows, currentWindowName': Option<string>)
    ensures Grouping(windows', currentWindowName') == NextLine(Grouping(windows, currentWindowName), raw)
  {
    windows', currentWindowName' := windows, currentWindowName;
    var line := StripTrailing(JsBlank, raw);
    var title := TitleName(line);
    if title.Some? {
      currentWindowName' := title;
      windows' := Put(windows, title.value, []);
    } else if Trim(JsBlank, line) == [] {
      currentWindowName' := None;
    } else if currentWindowName.Some? && Lookup(windows, currentWindowName.value).Some? {
      windows' := Put(windows, currentWindowName.value, Lookup(windows, currentWindowName.value).value + [line]);
    }
  }

  /** The scanning loop of parseWindows: the properties of the last status and navigation bar windows. */
  method ScanWindows(windows: Windows) returns (r: Result<Found, string>)
    ensures r == Scan(windows)
  {
    var statusBar: Option<WindowProperties> := None;
    var navigationBar: Option<WindowProperties> := None;
    var j := 0;
    while j < |windows|
      invariant 0 <= j <= |windows|
      invariant Scan(windows[..j]) == Ok((statusBar, navigationBar))
    {
      assert windows[..j + 1][..j] == windows[..j];
      var (name, props) := windows[j];
      if IsStatusBar(name) {
        var p := ParseWindowProperties(name, props);
        if p.Err? {
          ScanErrSticks(windows, j + 1);
          return Err(p.error);
        }
        statusBar := Some(p.value);
      } else if IsNavigationBar(name) {
        var p := ParseWindowProperties(name, props);
        if p.Err? {
          ScanErrSticks(windows, j + 1);
          return Err(p.error);
        }
        navigationBar := Some(p.value);
      }
      j := j + 1;
    }
    assert windows[..j] == windows;
    return Ok((statusBar, navigationBar));
  }

  /**
   * The output fails exactly when no line is a window title or a bar window
   * cannot be parsed; otherwise each bar is read from the last window of its
   * kind, and a bar with no window is DEFAULT_WINDOW_PROPERTIES.
   */
  lemma SystemBarsMeaning(lines: string)
    ensures var rows := SplitOn(lines, '\n');
      (forall i :: 0 <= i < |rows| ==> TitleOf(rows[i]).None?) ==> SystemBarsOf(lines) == Err(NO_WINDOWS_MESSAGE)
    ensures var ws := GroupLines(SplitOn(lines, '\n')).windows;
      ws != [] ==> (SystemBarsOf(lines).Err? <==>
        exists i :: 0 <= i < |ws| && Unreadable(ws[i]))
    ensures var ws := GroupLines(SplitOn(lines, '\n')).windows;
      SystemBarsOf(lines).Ok? && (forall i :: 0 <= i < |ws| ==> !IsStatusBar(ws[i].0)) ==>
        SystemBarsOf(lines).value.statusBar == DEFAULT_WINDOW_PROPERTIES
    ensures var ws := GroupLines(SplitOn(lines, '\n')).windows;
      SystemBarsOf(lines).Ok? && (forall i :: 0 <= i < |ws| ==> !IsNavigationBar(ws[i].0)) ==>
        SystemBarsOf(lines).value.navigationBar == DEFAULT_WINDOW_PROPERTIES
    ensures var ws := GroupLines(SplitOn(lines, '\n')).windows;
      forall j :: SystemBarsOf(lines).Ok? && LastBar(ws, IsStatusBar, j) ==>
        ParseWindowProperties(ws[j].0, ws[j].1) == Ok(SystemBarsOf(lines).value.statusBar)
    ensures var ws := GroupLines(SplitOn(lines, '\n')).windows;
      forall j :: SystemBarsOf(lines).Ok? && LastBar(ws, IsNavigationBar, j) ==>
        ParseWindowProperties(ws[j].0, ws[j].1) == Ok(SystemBarsOf(lines).value.navigationBar)
  {
    var rows := SplitOn(lines, '\n');
    var ws := GroupLines(rows).windows;
    NoWindowsIffNoTitle(rows);
    ScanErrIff(ws);
    if ws != [] && Scan(ws).Ok? {
      ScanStatusBarFound(ws);
      ScanNavigationBarFound(ws);
      forall j | LastBar(ws, IsStatusBar, j)
        ensures ParseWindowProperties(ws[j].0, ws[j].1) == Ok(OrDefault(Scan(ws).value.0))
      {
        ScanStatusBarLast(ws, j);
      }
      forall j | LastBar(ws, IsNavigationBar, j)
        ensures ParseWindowProperties(ws[j].0, ws[j].1) == Ok(OrDefault(Scan(ws).value.1))
      {
        ScanNavigationBarLast(ws, j);
      }
    }
  }
}
