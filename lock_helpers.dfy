/**
 * Unlock helpers of the Node driver: validation of the unlock capabilities,
 * the credential type of an unlock type, the encodings of a key, and the
 * pointer actions that draw an unlock pattern.
 */
module LockHelpers {

  import opened Wrappers
  import opened Text
  import opened Json

  const PIN_UNLOCK := "pin"
  const PIN_UNLOCK_KEY_EVENT := "pinWithKeyEvent"
  const PASSWORD_UNLOCK := "password"
  const PATTERN_UNLOCK := "pattern"
  const FINGERPRINT_UNLOCK := "fingerprint"
  const TOUCH_DELAY_MS := 1000

  // ---------------------------------------------------------------------------
  // validateUnlockCapabilities

  predicate IsNonZeroDigit(c: char) { '1' <= c <= '9' }

  /** `/^[0-9]+$/`. */
  predicate IsDigitKey(s: string) {
    s != [] && AllDigits(s)
  }

  /** `/^[1-9]{2,9}$/`. */
  predicate IsPatternKey(s: string) {
    2 <= |s| <= 9 && forall k :: 0 <= k < |s| ==> IsNonZeroDigit(s[k])
  }

  /** `/([1-9]).*?\1/`: a digit 1-9 seen again later on the same line. */
  predicate HasRepeatedDigit(s: string) {
    exists i, j :: 0 <= i < j < |s| && IsNonZeroDigit(s[i]) && s[j] == s[i] &&
      (forall k :: i < k < j ==> !IsJsLineTerminator(s[k]))
  }

  /** `/.{4,}/`: four characters in a row, none of them a line terminator. */
  predicate HasFourOnOneLine(s: string) {
    |s| >= 4 && (OnOneLine(s[..4]) || HasFourOnOneLine(s[1..]))
  }

  predicate OnOneLine(s: string) {
    forall k :: 0 <= k < |s| ==> !IsJsLineTerminator(s[k])
  }

  const UNLOCK_TYPES_TEXT := "pin,pinWithKeyEvent,password,pattern,fingerprint"
  const MISSING_TYPE_MESSAGE := "A non-empty unlock key value must be provided"

  function DigitsMessage(key: Option<Json>): string {
    "Unlock key value '" + JsString(key) + "' must only consist of digits"
  }

  function PatternMessage(key: Option<Json>): string {
    "Unlock key value '" + JsString(key) + "' must only include from two to nine digits in range 1..9"
  }

  function RepeatMessage(key: Option<Json>): string {
    "Unlock key value '" + JsString(key) + "' must define a valid pattern where repeats are not allowed"
  }

  function PasswordMessage(key: Option<Json>): string {
    "The minimum allowed length of unlock key value '" + JsString(key) + "' is 4 characters"
  }

  function InvalidTypeMessage(unlockType: string): string {
    "Invalid unlock type '" + unlockType + "'. Only the following unlock types are supported: " + UNLOCK_TYPES_TEXT
  }

  /** The unlock type when it is a non-empty string. */
  function UnlockType(caps: Object): Option<string> {
    if "unlockType" in caps && caps["unlockType"].JStr? && caps["unlockType"].s != [] then Some(caps["unlockType"].s)
    else None
  }

  /**
   * validateUnlockCapabilities: the capabilities when the unlock key suits the
   * unlock type, else the error it throws. A missing capabilities object
   * (`caps ?? {}`) is read as an empty one.
   */
  function ValidateUnlockCapabilities(caps: Option<Object>): (r: Result<Option<Object>, string>)
    ensures r.Ok? ==> r.value == caps
  {
    var c := if caps.Some? then caps.value else map[];
    var key := Get(c, "unlockKey");
    match UnlockType(c)
    case None => Err(MISSING_TYPE_MESSAGE)
    case Some(unlockType) =>
      if unlockType in [PIN_UNLOCK, PIN_UNLOCK_KEY_EVENT, FINGERPRINT_UNLOCK] then
        if !IsDigitKey(Trim(JsBlank, LodashString(key))) then Err(DigitsMessage(key)) else Ok(caps)
      else if unlockType == PATTERN_UNLOCK then
        var trimmed := Trim(JsBlank, LodashString(key));
        if !IsPatternKey(trimmed) then Err(PatternMessage(key))
        else if HasRepeatedDigit(trimmed) then Err(RepeatMessage(key))
        else Ok(caps)
      else if unlockType == PASSWORD_UNLOCK then
        if !HasFourOnOneLine(JsString(key)) then Err(PasswordMessage(key)) else Ok(caps)
      else Err(InvalidTypeMessage(unlockType))
  }

  /** A capabilities object with the given unlock type and key. */
  function Caps(unlockType: string, key: Option<Json>): Object {
    if key.Some? then map["unlockType" := JStr(unlockType), "unlockKey" := key.value]
    else map["unlockType" := JStr(unlockType)]
  }

  /** Within a string of digits 1-9, the repeat pattern matches exactly when some digit occurs twice. */
  lemma RepeatIffNotDistinct(s: string)
    requires forall k :: 0 <= k < |s| ==> IsNonZeroDigit(s[k])
    ensures HasRepeatedDigit(s) <==> exists i, j :: 0 <= i < j < |s| && s[i] == s[j]
  {
    if exists i, j :: 0 <= i < j < |s| && s[i] == s[j] {
      var i, j :| 0 <= i < j < |s| && s[i] == s[j];
      assert forall k :: i < k < j ==> !IsJsLineTerminator(s[k]);
    }
  }

  /** Without line terminators, the password pattern asks for four characters at least. */
  lemma FourOnOneLineIffLength(s: string)
    requires OnOneLine(s)
    ensures HasFourOnOneLine(s) <==> |s| >= 4
  {
    if |s| >= 4 {
      assert OnOneLine(s[..4]);
    }
  }

  /** Without a non-empty unlock type nothing else is looked at. */
  lemma MissingTypeRejected(caps: Option<Object>)
    requires caps.None? || UnlockType(caps.value).None?
    ensures ValidateUnlockCapabilities(caps) == Err(MISSING_TYPE_MESSAGE)
  {
  }

  /** pin, pinWithKeyEvent and fingerprint keys pass exactly when they trim to a non-empty run of digits. */
  lemma DigitKeyRule(unlockType: string, key: Option<Json>)
    requires unlockType in [PIN_UNLOCK, PIN_UNLOCK_KEY_EVENT, FINGERPRINT_UNLOCK]
    ensures var t := Trim(JsBlank, LodashString(key));
      ValidateUnlockCapabilities(Some(Caps(unlockType, key))).Ok? <==> t != [] && forall k :: 0 <= k < |t| ==> IsDigit(t[k])
    ensures ValidateUnlockCapabilities(Some(Caps(unlockType, key))).Err? ==>
      ValidateUnlockCapabilities(Some(Caps(unlockType, key))) == Err(DigitsMessage(key))
  {
    assert UnlockType(Caps(unlockType, key)) == Some(unlockType);
    assert Get(Caps(unlockType, key), "unlockKey") == key;
  }

  /** With a pattern type, validation comes down to the shape test and then the repeat test. */
  lemma PatternBranch(key: Option<Json>)
    ensures var t := Trim(JsBlank, LodashString(key));
      ValidateUnlockCapabilities(Some(Caps(PATTERN_UNLOCK, key))) ==
        if !IsPatternKey(t) then Err(PatternMessage(key))
        else if HasRepeatedDigit(t) then Err(RepeatMessage(key))
        else Ok(Some(Caps(PATTERN_UNLOCK, key)))
  {
    assert UnlockType(Caps(PATTERN_UNLOCK, key)) == Some(PATTERN_UNLOCK);
    assert Get(Caps(PATTERN_UNLOCK, key), "unlockKey") == key;
  }

  /**
   * A pattern key passes exactly when it trims to two to nine digits 1-9, all different.
   * The shape is checked first and the repeat second, each with its own message.
   */
  lemma PatternKeyRule(key: Option<Json>)
    ensures var t := Trim(JsBlank, LodashString(key));
      ValidateUnlockCapabilities(Some(Caps(PATTERN_UNLOCK, key))).Ok? <==>
        (2 <= |t| <= 9 && (forall k :: 0 <= k < |t| ==> IsNonZeroDigit(t[k])) &&
         forall i, j :: 0 <= i < j < |t| ==> t[i] != t[j])
    ensures var t := Trim(JsBlank, LodashString(key));
      !IsPatternKey(t) ==> ValidateUnlockCapabilities(Some(Caps(PATTERN_UNLOCK, key))) == Err(PatternMessage(key))
    ensures var t := Trim(JsBlank, LodashString(key));
      IsPatternKey(t) && HasRepeatedDigit(t) ==>
        ValidateUnlockCapabilities(Some(Caps(PATTERN_UNLOCK, key))) == Err(RepeatMessage(key))
  {
    PatternBranch(key);
    var t := Trim(JsBlank, LodashString(key));
    if IsPatternKey(t) {
      RepeatIffNotDistinct(t);
    }
  }

  /** A password passes exactly when its text, untrimmed, has four characters on one line. */
  lemma PasswordKeyRule(key: Option<Json>)
    ensures ValidateUnlockCapabilities(Some(Caps(PASSWORD_UNLOCK, key))).Ok? <==> HasFourOnOneLine(JsString(key))
  {
    assert UnlockType(Caps(PASSWORD_UNLOCK, key)) == Some(PASSWORD_UNLOCK);
    assert Get(Caps(PASSWORD_UNLOCK, key), "unlockKey") == key;
  }

  /** Blanks count towards a password: four spaces pass where three fail. */
  lemma PasswordBlanksCount()
    ensures ValidateUnlockCapabilities(Some(Caps(PASSWORD_UNLOCK, Some(JStr("    "))))).Ok?
    ensures ValidateUnlockCapabilities(Some(Caps(PASSWORD_UNLOCK, Some(JStr("   "))))).Err?
  {
    PasswordKeyRule(Some(JStr("    ")));
    PasswordKeyRule(Some(JStr("   ")));
    SpacesOnOneLine();
  }

  /** Four spaces fit the password pattern, three do not. */
  lemma SpacesOnOneLine()
    ensures HasFourOnOneLine(JsString(Some(JStr("    "))))
    ensures !HasFourOnOneLine(JsString(Some(JStr("   "))))
  {
    assert JsString(Some(JStr("    "))) == "    ";
    assert JsString(Some(JStr("   "))) == "   ";
    assert OnOneLine("    "[..4]);
  }

  /** A password type with no key at all passes, its key printing as "undefined". */
  lemma MissingPasswordKeyPasses()
    ensures ValidateUnlockCapabilities(Some(Caps(PASSWORD_UNLOCK, None))).Ok?
  {
    PasswordKeyRule(None);
    UndefinedOnOneLine();
  }

  /** "undefined" fits the password pattern. */
  lemma UndefinedOnOneLine()
    ensures HasFourOnOneLine("undefined")
  {
    assert OnOneLine("undefined"[..4]);
  }

  /** Any other non-empty unlock type is refused. */
  lemma UnknownTypeRejected(unlockType: string, key: Option<Json>)
    requires unlockType != [] && unlockType !in [PIN_UNLOCK, PIN_UNLOCK_KEY_EVENT, FINGERPRINT_UNLOCK, PATTERN_UNLOCK, PASSWORD_UNLOCK]
    ensures ValidateUnlockCapabilities(Some(Caps(unlockType, key))) == Err(InvalidTypeMessage(unlockType))
  {
    assert UnlockType(Caps(unlockType, key)) == Some(unlockType);
  }

  // ---------------------------------------------------------------------------
  // toCredentialType

  /**
   * toCredentialType: the credential kind adb expects for an unlock type;
   * every other validated type throws.
   */
  function ToCredentialType(unlockType: string): (r: Result<string, string>)
    ensures r.Ok? <==> unlockType in [PIN_UNLOCK, PIN_UNLOCK_KEY_EVENT, PASSWORD_UNLOCK, PATTERN_UNLOCK]
    ensures r.Ok? ==> r.value in ["pin", "password", "pattern"]
    ensures r.Err? ==> r.error == "Unlock type '" + unlockType + "' is not known"
  {
    if unlockType == PIN_UNLOCK || unlockType == PIN_UNLOCK_KEY_EVENT then Ok("pin")
    else if unlockType == PASSWORD_UNLOCK then Ok("password")
    else if unlockType == PATTERN_UNLOCK then Ok("pattern")
    else Err("Unlock type '" + unlockType + "' is not known")
  }

  /** Every validated unlock type but fingerprint has a credential type. */
  lemma ValidatedTypesHaveCredentials(caps: Object)
    requires ValidateUnlockCapabilities(Some(caps)).Ok?
    ensures UnlockType(caps).Some?
    ensures UnlockType(caps).value != FINGERPRINT_UNLOCK ==> ToCredentialType(UnlockType(caps).value).Ok?
  {
  }

  // ---------------------------------------------------------------------------
  // encodePassword and stringKeyToArr

  /** encodePassword: every `\s` character becomes "%s". */
  function EncodePassword(key: string): (r: string)
    ensures forall k :: 0 <= k < |r| ==> !IsJsSpace(r[k])
  {
    ReplaceEach(key, IsJsSpace, "%s")
  }

  /** The encoding works character by character: it splits over concatenation. */
  lemma {:induction false} EncodePasswordConcat(a: string, b: string)
    ensures EncodePassword(a + b) == EncodePassword(a) + EncodePassword(b)
  {
    if a != [] {
      assert (a + b)[1..] == a[1..] + b;
      EncodePasswordConcat(a[1..], b);
    } else {
      assert a + b == b;
    }
  }

  /** ... a blank becomes "%s" and any other character stays. */
  lemma EncodePasswordChar(c: char)
    ensures EncodePassword([c]) == if IsJsSpace(c) then "%s" else [c]
  {
    assert [c][1..] == [];
  }

  /** The characters of `s` that are not blanks, in order. */
  function NonBlanks(s: string): (r: string)
    ensures forall k :: 0 <= k < |r| ==> !IsJsSpace(r[k])
  {
    if s == [] then [] else (if IsJsSpace(s[0]) then [] else [s[0]]) + NonBlanks(s[1..])
  }

  /** `s.split(/\s*\/)` of a string with no blanks: its characters one by one (none for the empty string). */
  function SplitChars(s: string): (r: seq<string>)
    ensures |r| == |s|
    ensures forall k :: 0 <= k < |r| ==> r[k] == [s[k]]
  {
    if s == [] then [] else [[s[0]]] + SplitChars(s[1..])
  }

  /** stringKeyToArr: trim, drop every run of blanks, then split into characters. */
  function StringKeyToArr(key: string): (r: seq<string>)
    ensures forall k :: 0 <= k < |r| ==> |r[k]| == 1 && !IsJsSpace(r[k][0])
  {
    SplitChars(ReplaceEach(Trim(JsBlank, key), IsJsSpace, ""))
  }

  lemma {:induction false} RemoveBlanks(s: string)
    ensures ReplaceEach(s, IsJsSpace, "") == NonBlanks(s)
  {
    if s != [] {
      RemoveBlanks(s[1..]);
    }
  }

  /** Removing the blanks of a string after dropping leading blanks removes the same ones. */
  lemma {:induction false} NonBlanksOfStripped(s: string)
    ensures NonBlanks(StripLeading(JsBlank, s)) == NonBlanks(s)
  {
    if s != [] && IsJsSpace(s[0]) {
      NonBlanksOfStripped(s[1..]);
    }
  }

  lemma {:induction false} NonBlanksConcat(a: string, b: string)
    ensures NonBlanks(a + b) == NonBlanks(a) + NonBlanks(b)
  {
    if a != [] {
      assert (a + b)[1..] == a[1..] + b;
      NonBlanksConcat(a[1..], b);
    } else {
      assert a + b == b;
    }
  }

  lemma {:induction false} NonBlanksOfAllBlank(s: string)
    requires forall k :: 0 <= k < |s| ==> IsJsSpace(s[k])
    ensures NonBlanks(s) == []
  {
    if s != [] {
      NonBlanksOfAllBlank(s[1..]);
    }
  }

  lemma NonBlanksOfTrimmed(s: string)
    ensures NonBlanks(Trim(JsBlank, s)) == NonBlanks(s)
  {
    TrimStrips(JsBlank, s);
    var t := StripLeading(JsBlank, s);
    var r := StripTrailing(JsBlank, t);
    StripTrailingBlanks(JsBlank, t);
    assert t == r + t[|r|..];
    NonBlanksConcat(r, t[|r|..]);
    NonBlanksOfAllBlank(t[|r|..]);
    NonBlanksOfStripped(s);
  }

  /** stringKeyToArr yields the non-blank characters of the key, one string each. */
  lemma StringKeyToArrChars(key: string)
    ensures StringKeyToArr(key) == SplitChars(NonBlanks(key))
  {
    RemoveBlanks(Trim(JsBlank, key));
    NonBlanksOfTrimmed(key);
  }

  // ---------------------------------------------------------------------------
  // getPatternKeyPosition and getPatternActions

  /** A point on the screen. */
  datatype Position = Position(x: real, y: real)

  /** JavaScript `%` on integers: the remainder takes the dividend's sign. */
  function JsRem(a: int, b: int): (r: int)
    requires b > 0
    ensures a >= 0 ==> r == a % b
    ensures -b < r < b
  {
    if a >= 0 then a % b else -((-a) % b)
  }

  /** `Math.round`: the nearest integer, halves rounding up. */
  function Round(v: real): int {
    (v + 0.5).Floor
  }

  /** `Math.ceil`. */
  function Ceil(v: real): int {
    -((-v).Floor)
  }

  /** The column of a key, 1 to 3 (`key % 3 || 3`). */
  function Column(key: int): int {
    if JsRem(key, 3) == 0 then 3 else JsRem(key, 3)
  }

  /** The row of a key, 1 to 3 (`Math.ceil((key % 9 || 9) / 3)`). */
  function Row(key: int): int {
    Ceil((if JsRem(key, 9) == 0 then 9 else JsRem(key, 9)) as real / 3.0)
  }

  /** getPatternKeyPosition: the centre of the key's cell in a 3x3 grid of `piece`-sized cells from `initPos`. */
  function KeyPosition(key: int, initPos: Position, piece: real): Position {
    Position(Round(initPos.x + Column(key) as real * piece - piece / 2.0) as real,
             Round(initPos.y + Row(key) as real * piece - piece / 2.0) as real)
  }

  /** Keys 1-9 lie left to right, top to bottom. */
  lemma KeyCells(key: int)
    requires 1 <= key <= 9
    ensures Column(key) == (key - 1) % 3 + 1
    ensures Row(key) == (key - 1) / 3 + 1
  {
  }

  /** With a unit piece from the origin, key `k` is at column and row of its cell. */
  lemma UnitGrid(key: int)
    requires 1 <= key <= 9
    ensures KeyPosition(key, Position(0.0, 0.0), 1.0) == Position(Column(key) as real, Row(key) as real)
  {
    KeyCells(key);
  }

  datatype Action =
    | PointerMove(duration: int, x: real, y: real)
    | PointerDown(button: int)
    | PointerUp(button: int)

  /**
   * The offset along one axis: one piece towards the target, two when the
   * target is more than a piece away.
   */
  function Offset(diff: real, piece: real): real {
    if diff > 0.0 then (if diff > piece then piece + piece else piece)
    else if diff < 0.0 then (if -diff > piece then -piece - piece else -piece)
    else 0.0
  }

  /** The move from the last key towards the next one. */
  function MoveTowards(last: Position, next: Position, piece: real): Action {
    PointerMove(TOUCH_DELAY_MS, Offset(next.x - last.x, piece) + last.x, Offset(next.y - last.y, piece) + last.y)
  }

  /** The actions pushed for the given keys before the final pointer up. */
  function PatternPresses(keys: seq<int>, initPos: Position, piece: real): (r: seq<Action>)
    ensures keys == [] ==> r == []
    ensures keys != [] ==> |r| == |keys| + 1
  {
    if keys == [] then []
    else if |keys| == 1 then
      var p := KeyPosition(keys[0], initPos, piece);
      [PointerMove(TOUCH_DELAY_MS, p.x, p.y), PointerDown(0)]
    else
      var init := keys[..|keys| - 1];
      PatternPresses(init, initPos, piece) +
        [MoveTowards(KeyPosition(init[|init| - 1], initPos, piece), KeyPosition(keys[|keys| - 1], initPos, piece), piece)]
  }

  /** The pointer source getPatternActions answers. */
  datatype PointerSource = PointerSource(id: string, pointerType: string, actions: seq<Action>)

  /**
   * getPatternActions: a move to the first key and a press, one move per
   * further key from where the last key was, and a release.
   */
  method GetPatternActions(keys: seq<int>, initPos: Position, piece: real) returns (r: seq<PointerSource>)
    ensures r == [PointerSource("patternUnlock", "touch", PatternPresses(keys, initPos, piece) + [PointerUp(0)])]
  {
    var pointerActions: seq<Action> := [];
    var lastPos: Option<Position> := None;
    var i := 0;
    while i < |keys|
      invariant 0 <= i <= |keys|
      invariant pointerActions == PatternPresses(keys[..i], initPos, piece)
      invariant lastPos == if i == 0 then None else Some(KeyPosition(keys[i - 1], initPos, piece))
    {
      var keyPos := KeyPosition(keys[i], initPos, piece);
      if lastPos.None? {
        PressesFirst(keys, initPos, piece);
        pointerActions := pointerActions + [PointerMove(TOUCH_DELAY_MS, keyPos.x, keyPos.y), PointerDown(0)];
        lastPos := Some(keyPos);
        i := i + 1;
        continue;
      }
      PressesStep(keys, i, initPos, piece);
      var moveX := AxisMove(keyPos.x - lastPos.value.x, piece);
      var moveY := AxisMove(keyPos.y - lastPos.value.y, piece);
      pointerActions := pointerActions + [PointerMove(TOUCH_DELAY_MS, moveX + lastPos.value.x, moveY + lastPos.value.y)];
      lastPos := Some(keyPos);
      i := i + 1;
    }
    assert keys[..i] == keys;
    pointerActions := pointerActions + [PointerUp(0)];
    return [PointerSource("patternUnlock", "touch", pointerActions)];
  }

  /** The offset along one axis, as getPatternActions computes it for x and again for y. */
  method AxisMove(diff: real, piece: real) returns (move: real)
    ensures move == Offset(diff, piece)
  {
    move := 0.0;
    if diff > 0.0 {
      move := piece;
      if diff > piece {
        move := move + piece;
      }
    } else if diff < 0.0 {
      move := -1.0 * piece;
      if -diff > piece {
        move := move - piece;
      }
    }
  }

  /** The first key adds a move onto it and a press. */
  lemma PressesFirst(keys: seq<int>, initPos: Position, piece: real)
    requires keys != []
    ensures var p := KeyPosition(keys[0], initPos, piece);
      PatternPresses(keys[..1], initPos, piece) == [PointerMove(TOUCH_DELAY_MS, p.x, p.y), PointerDown(0)]
  {
  }

  /** A further key adds the move from the previous key towards it. */
  lemma PressesStep(keys: seq<int>, i: nat, initPos: Position, piece: real)
    requires 1 <= i < |keys|
    ensures PatternPresses(keys[..i + 1], initPos, piece) ==
      PatternPresses(keys[..i], initPos, piece) +
        [MoveTowards(KeyPosition(keys[i - 1], initPos, piece), KeyPosition(keys[i], initPos, piece), piece)]
  {
    assert keys[..i + 1][..i] == keys[..i];
  }

  /** The pattern starts with a move to the first key and a press, and ends with the release. */
  lemma PatternShape(keys: seq<int>, initPos: Position, piece: real)
    requires keys != []
    ensures var a := PatternPresses(keys, initPos, piece);
      a[0] == PointerMove(TOUCH_DELAY_MS, KeyPosition(keys[0], initPos, piece).x, KeyPosition(keys[0], initPos, piece).y) &&
      a[1] == PointerDown(0)
    decreases |keys|
  {
    if |keys| > 1 {
      var init := keys[..|keys| - 1];
      PatternShape(init, initPos, piece);
      assert init[0] == keys[0];
    }
  }

  /** Move `k` of a pattern (after the press) goes from key k-1 towards key k. */
  lemma {:induction false} PatternMoves(keys: seq<int>, initPos: Position, piece: real, k: nat)
    requires 1 <= k < |keys|
    ensures PatternPresses(keys, initPos, piece)[k + 1] ==
      MoveTowards(KeyPosition(keys[k - 1], initPos, piece), KeyPosition(keys[k], initPos, piece), piece)
    decreases |keys|
  {
    var init := keys[..|keys| - 1];
    if k < |keys| - 1 {
      PatternMoves(init, initPos, piece, k);
      assert init[k - 1] == keys[k - 1] && init[k] == keys[k];
    }
  }

  /** A difference of none, one or two pieces is covered exactly. */
  lemma OffsetExact(d: int, piece: real)
    requires piece > 0.0 && -2 <= d <= 2
    ensures Offset(d as real * piece, piece) == d as real * piece
  {
    if d == 2 {
      assert d as real * piece == piece + piece;
    } else if d == 1 {
      assert d as real * piece == piece;
    } else if d == -1 {
      assert d as real * piece == -piece;
    } else if d == -2 {
      assert d as real * piece == -piece - piece;
    }
  }

  /** With a unit piece, the move between two cells of the grid lands on the second. */
  lemma MoveBetweenCells(ca: int, ra: int, cb: int, rb: int)
    requires 1 <= ca <= 3 && 1 <= ra <= 3 && 1 <= cb <= 3 && 1 <= rb <= 3
    ensures MoveTowards(Position(ca as real, ra as real), Position(cb as real, rb as real), 1.0) ==
      PointerMove(TOUCH_DELAY_MS, cb as real, rb as real)
  {
    OffsetExact(cb - ca, 1.0);
    OffsetExact(rb - ra, 1.0);
  }

  /** With a unit piece from the origin, the move between two keys 1-9 lands on the second. */
  lemma UnitMove(a: int, b: int)
    requires 1 <= a <= 9 && 1 <= b <= 9
    ensures MoveTowards(KeyPosition(a, Position(0.0, 0.0), 1.0), KeyPosition(b, Position(0.0, 0.0), 1.0), 1.0) ==
      PointerMove(TOUCH_DELAY_MS, Column(b) as real, Row(b) as real)
  {
    UnitGrid(a);
    UnitGrid(b);
    KeyCells(a);
    KeyCells(b);
    MoveBetweenCells(Column(a), Row(a), Column(b), Row(b));
  }

  /**
   * With a unit piece from the origin, every move between keys 1-9 lands
   * exactly on the next key's column and row.
   */
  lemma UnitPatternLands(keys: seq<int>, k: nat)
    requires forall i :: 0 <= i < |keys| ==> 1 <= keys[i] <= 9
    requires 1 <= k < |keys|
    ensures PatternPresses(keys, Position(0.0, 0.0), 1.0)[k + 1] ==
      PointerMove(TOUCH_DELAY_MS, Column(keys[k]) as real, Row(keys[k]) as real)
  {
    PatternMoves(keys, Position(0.0, 0.0), 1.0, k);
    UnitMove(keys[k - 1], keys[k]);
  }
}
