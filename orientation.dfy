/**
 * The orientation handler: reads or sets the device's rotation. The display
 * is a record of the values UiDevice reports; the rotation it shows at
 * successive polls after a turn is an observation function, poll 0 being the
 * read right after the turn and each further poll 100 ms later.
 */
module Orientation {

  import opened Wrappers
  import opened Text
  import opened Json
  import opened Command
  import opened OrientationEnum

  /** What UiDevice reports: the raw rotation code and the display's size. */
  datatype Display = Display(rotation: int, width: int, height: int)

  /** The turns UiDevice can be asked for. */
  datatype Turn = SetRight | SetLeft | SetNatural

  /**
   * Stand-ins for the messages of the runtime's exceptions, whose own text
   * (`getMessage()`, null on Dalvik for these) is not part of the model.
   */
  const NULL_POINTER := "NullPointerException"
  const CLASS_CAST := "ClassCastException"
  const TIMEOUT := 2000
  const POLL_INTERVAL := 100
  /** The number of polls after the first read that fit in the timeout. */
  const MAX_POLLS := TIMEOUT / POLL_INTERVAL

  const REFUSED_MESSAGE := "Set the orientation, but app refused to rotate."

  predicate IsLandscape(orientation: string) {
    EqualsIgnoreCase(orientation, "LANDSCAPE")
  }

  /**
   * isWideScreenDevice: a device is not wide exactly when it is held upright
   * and taller than wide, or on its side and wider than tall; a square display,
   * or an unknown rotation, counts as wide.
   */
  function IsWideScreenDevice(d: Display): (r: bool)
    ensures !r <==> (FromInteger(d.rotation).Some? &&
                     ((!Sideways(FromInteger(d.rotation).value) && d.height > d.width) ||
                      (Sideways(FromInteger(d.rotation).value) && d.width > d.height)))
    ensures d.width == d.height ==> r
  {
    var rotation := FromInteger(d.rotation);
    !(((rotation == Some(Rotation0) || rotation == Some(Rotation180)) && d.height > d.width) ||
      ((rotation == Some(Rotation90) || rotation == Some(Rotation270)) && d.width > d.height))
  }

  /** The display as it reports itself once turned to `to`: a quarter turn swaps width and height. */
  function Rotated(d: Display, to: Rotation): Display
    requires FromInteger(d.rotation).Some?
  {
    if Sideways(FromInteger(d.rotation).value) == Sideways(to) then Display(Value(to), d.width, d.height)
    else Display(Value(to), d.height, d.width)
  }

  /** Whether a device's natural orientation is landscape does not depend on how it is held. */
  lemma WideScreenKeptByTurning(d: Display, to: Rotation)
    requires FromInteger(d.rotation).Some?
    ensures IsWideScreenDevice(Rotated(d, to)) == IsWideScreenDevice(d)
  {
    ValueRoundTrip(to);
  }

  /** getRotation: upright reads as PORTRAIT and sideways as LANDSCAPE, swapped for a natural-landscape device. */
  function GetRotation(isNaturalOrientation: bool, d: Display): (r: Result<CommandResult, string>)
    ensures r.Err? <==> FromInteger(d.rotation).None?
    ensures r.Err? ==> r.error == NULL_POINTER
    ensures r.Ok? ==> r.value.status == Success
    ensures r.Ok? ==> (r.value.value == JStr("LANDSCAPE") <==>
                       Sideways(FromInteger(d.rotation).value) != (isNaturalOrientation && IsWideScreenDevice(d)))
    ensures r.Ok? ==> r.value.value in {JStr("LANDSCAPE"), JStr("PORTRAIT")}
  {
    var naturalOrientationRequired := isNaturalOrientation && IsWideScreenDevice(d);
    match FromInteger(d.rotation)
    case None => Err(NULL_POINTER)
    case Some(Rotation0) | Some(Rotation180) =>
      Ok(SuccessResult(JStr(if naturalOrientationRequired then "LANDSCAPE" else "PORTRAIT")))
    case Some(Rotation90) | Some(Rotation270) =>
      Ok(SuccessResult(JStr(if naturalOrientationRequired then "PORTRAIT" else "LANDSCAPE")))
  }

  /** The orientation acted on: on a natural-landscape device the request is inverted first. */
  function Requested(orientation: string, isNaturalOrientation: bool, d: Display): (r: string)
    ensures !(isNaturalOrientation && IsWideScreenDevice(d)) ==> r == orientation
    ensures isNaturalOrientation && IsWideScreenDevice(d) ==> IsLandscape(r) == !IsLandscape(orientation)
  {
    if isNaturalOrientation && IsWideScreenDevice(d) then
      (if IsLandscape(orientation) then "PORTRAIT" else "LANDSCAPE")
    else orientation
  }

  /** The rotation a turn aims at. */
  function Target(t: Turn): Rotation {
    match t
    case SetRight => Rotation270
    case SetLeft => Rotation270
    case SetNatural => Rotation0
  }

  /** The message when no turn is needed. */
  function AlreadyMessage(requested: string): string {
    if IsLandscape(requested) then "Already in landscape mode." else "Already in portrait mode."
  }

  /**
   * The turn asked of the device from rotation `current`: landscape is reached
   * from upright by turning right (from 0) or left (from 180); anything else
   * is reached from sideways by turning back to natural.
   */
  function PlannedTurn(requested: string, current: Rotation): (t: Option<Turn>)
    ensures t.None? <==> Sideways(current) == IsLandscape(requested)
    ensures t.Some? ==> Sideways(Target(t.value)) == IsLandscape(requested)
    ensures t == Some(SetRight) <==> IsLandscape(requested) && current == Rotation0
    ensures t == Some(SetLeft) <==> IsLandscape(requested) && current == Rotation180
    ensures t == Some(SetNatural) <==> !IsLandscape(requested) && Sideways(current)
  {
    if IsLandscape(requested) then
      match current
      case Rotation0 => Some(SetRight)
      case Rotation180 => Some(SetLeft)
      case _ => None
    else
      match current
      case Rotation90 | Rotation270 => Some(SetNatural)
      case _ => None
  }

  /**
   * handleRotation: makes the planned turn, then polls until the display shows
   * the target or the timeout has passed. `polls` is the number of 100 ms
   * waits; the result is success exactly when the last read shows the target.
   */
  method HandleRotation(orientation: string, isNaturalOrientation: bool, d: Display, observe: nat -> int)
    returns (r: Result<CommandResult, string>, turn: Option<Turn>, polls: nat)
    ensures FromInteger(d.rotation).None? ==> r == Err(NULL_POINTER) && turn.None?
    ensures FromInteger(d.rotation).Some? ==>
      turn == PlannedTurn(Requested(orientation, isNaturalOrientation, d), FromInteger(d.rotation).value)
    ensures FromInteger(d.rotation).Some? && turn.None? ==>
      r == Ok(SuccessResult(JStr(AlreadyMessage(Requested(orientation, isNaturalOrientation, d))))) && polls == 0
    ensures turn.Some? ==> polls <= MAX_POLLS
    ensures turn.Some? ==> forall m :: 0 <= m < polls ==> FromInteger(observe(m)) != Some(Target(turn.value))
    ensures turn.Some? && FromInteger(observe(polls)) == Some(Target(turn.value)) ==>
      r == Ok(SuccessResult(JStr("Rotation (" + Requested(orientation, isNaturalOrientation, d) + ") successful.")))
    ensures turn.Some? && FromInteger(observe(polls)) != Some(Target(turn.value)) ==>
      polls == MAX_POLLS && r == Ok(ErrorResult(REFUSED_MESSAGE))
  {
    var current := FromInteger(d.rotation);
    var requested := Requested(orientation, isNaturalOrientation, d);
    if current.None? {
      return Err(NULL_POINTER), None, 0;
    }
    turn := PlannedTurn(requested, current.value);
    if turn.None? {
      return Ok(SuccessResult(JStr(AlreadyMessage(requested)))), None, 0;
    }
    var desired := Target(turn.value);
    polls := 0;
    current := FromInteger(observe(0));
    var elapsed := 0;
    while current != Some(desired) && elapsed < TIMEOUT
      invariant polls <= MAX_POLLS && elapsed == POLL_INTERVAL * polls
      invariant current == FromInteger(observe(polls))
      invariant forall m :: 0 <= m < polls ==> FromInteger(observe(m)) != Some(desired)
      decreases MAX_POLLS - polls
    {
      polls := polls + 1;
      elapsed := POLL_INTERVAL * polls;
      current := FromInteger(observe(polls));
    }
    if current != Some(desired) {
      return Ok(ErrorResult(REFUSED_MESSAGE)), turn, polls;
    }
    return Ok(SuccessResult(JStr("Rotation (" + requested + ") successful."))), turn, polls;
  }

  /** `Boolean.valueOf(String.valueOf(v))`: true only for a value that prints as "true", in any case. */
  function NaturalFlag(v: Json): (b: bool)
    ensures v.JBool? ==> b == v.b
    ensures v.JStr? ==> (b <==> EqualsIgnoreCase(v.s, "true"))
    ensures !v.JBool? && !v.JStr? ==> !b
  {
    match v
    case JBool(b) => b
    case JStr(s) => EqualsIgnoreCase(s, "true")
    case _ => false
  }

  function IsNaturalOrientation(params: Object): bool {
    "naturalOrientation" in params && NaturalFlag(params["naturalOrientation"])
  }

  /**
   * execute: an "orientation" parameter selects setting, its absence getting.
   * A non-string orientation fails its cast before either; an exception while
   * setting becomes an error result.
   */
  method Execute(params: Object, d: Display, observe: nat -> int)
    returns (r: Result<CommandResult, string>, turn: Option<Turn>, polls: nat)
    ensures "orientation" !in params ==> r == GetRotation(IsNaturalOrientation(params), d) && turn.None?
    ensures "orientation" in params && !params["orientation"].JStr? ==> r == Err(CLASS_CAST) && turn.None?
    ensures "orientation" in params && params["orientation"].JStr? ==> r.Ok?
    ensures "orientation" in params && params["orientation"].JStr? && FromInteger(d.rotation).None? ==>
      r == Ok(ErrorResult("Unable to rotate screen: " + NULL_POINTER)) && turn.None?
    ensures "orientation" in params && params["orientation"].JStr? && FromInteger(d.rotation).Some? ==>
      turn == PlannedTurn(Requested(params["orientation"].s, IsNaturalOrientation(params), d), FromInteger(d.rotation).value)
    ensures "orientation" in params && params["orientation"].JStr? && FromInteger(d.rotation).Some? && turn.None? ==>
      r == Ok(SuccessResult(JStr(AlreadyMessage(Requested(params["orientation"].s, IsNaturalOrientation(params), d)))))
    ensures "orientation" in params && turn.Some? ==> polls <= MAX_POLLS
    ensures "orientation" in params && turn.Some? ==>
      forall m :: 0 <= m < polls ==> FromInteger(observe(m)) != Some(Target(turn.value))
    ensures "orientation" in params && turn.Some? && FromInteger(observe(polls)) == Some(Target(turn.value)) ==>
      r == Ok(SuccessResult(JStr("Rotation (" + Requested(params["orientation"].s, IsNaturalOrientation(params), d) + ") successful.")))
    ensures "orientation" in params && turn.Some? && FromInteger(observe(polls)) != Some(Target(turn.value)) ==>
      polls == MAX_POLLS && r == Ok(ErrorResult(REFUSED_MESSAGE))
  {
    polls := 0;
    if "orientation" in params && !params["orientation"].JStr? {
      return Err(CLASS_CAST), None, 0;
    }
    var isNaturalOrientation := IsNaturalOrientation(params);
    if "orientation" in params {
      var res;
      res, turn, polls := HandleRotation(params["orientation"].s, isNaturalOrientation, d, observe);
      if res.Err? {
        return Ok(ErrorResult("Unable to rotate screen: " + res.error)), turn, polls;
      }
      return res, turn, polls;
    }
    return GetRotation(isNaturalOrientation, d), None, 0;
  }

  /**
   * Set, then get: once the display shows the rotation the set aimed at (or
   * already showed), reading the orientation back, with the same
   * natural-orientation flag, gives what was asked for.
   */
  lemma SetThenGet(orientation: string, isNaturalOrientation: bool, d: Display)
    requires FromInteger(d.rotation).Some?
    ensures var current := FromInteger(d.rotation).value;
      var turn := PlannedTurn(Requested(orientation, isNaturalOrientation, d), current);
      var final := if turn.Some? then Target(turn.value) else current;
      GetRotation(isNaturalOrientation, Rotated(d, final)) ==
        Ok(SuccessResult(JStr(if IsLandscape(orientation) then "LANDSCAPE" else "PORTRAIT")))
  {
    var current := FromInteger(d.rotation).value;
    var turn := PlannedTurn(Requested(orientation, isNaturalOrientation, d), current);
    var final := if turn.Some? then Target(turn.value) else current;
    WideScreenKeptByTurning(d, final);
    ValueRoundTrip(final);
  }
}
