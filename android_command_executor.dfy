/**
 * Dispatch of a command to the handler registered under its action name.
 * Running a handler is a parameter: it answers a result or throws a
 * JSONException, shown as `Err`.
 */
module AndroidCommandExecutor {

  import opened Wrappers
  import opened Json
  import opened Command

  datatype Handler =
    | WaitForIdle | Clear | Orientation | Swipe | Flick | Drag | Pinch | Click
    | TouchLongClick | TouchDown | TouchUp | TouchMove | GetText | SetText | GetName
    | GetAttribute | GetDeviceSize | ScrollTo | Find | GetLocation | GetSize | GetRect
    | Wake | PressBack | PressKeyCode | LongPressKeyCode | TakeScreenshot | UpdateStrings
    | GetDataDir | MultiPointerGesture | OpenNotification | Source | CompressedLayoutHierarchy
    | ConfiguratorHandler

  /** The registrations in the order the static initialiser makes them. */
  const REGISTRATIONS: seq<(string, Handler)> := [
    ("waitForIdle", WaitForIdle), ("clear", Clear), ("orientation", Orientation),
    ("swipe", Swipe), ("flick", Flick), ("drag", Drag), ("pinch", Pinch), ("click", Click),
    ("touchLongClick", TouchLongClick), ("touchDown", TouchDown), ("touchUp", TouchUp),
    ("touchMove", TouchMove), ("getText", GetText), ("setText", SetText), ("getName", GetName),
    ("getAttribute", GetAttribute), ("getDeviceSize", GetDeviceSize), ("scrollTo", ScrollTo),
    ("find", Find), ("getLocation", GetLocation), ("getSize", GetSize), ("getRect", GetRect),
    ("wake", Wake), ("pressBack", PressBack), ("pressKeyCode", PressKeyCode),
    ("longPressKeyCode", LongPressKeyCode), ("takeScreenshot", TakeScreenshot),
    ("updateStrings", UpdateStrings), ("getDataDir", GetDataDir),
    ("performMultiPointerGesture", MultiPointerGesture), ("openNotification", OpenNotification),
    ("source", Source), ("compressedLayoutHierarchy", CompressedLayoutHierarchy),
    ("configurator", ConfiguratorHandler)
  ]

  /** The table after putting each registration in turn; a later put of a name would replace an earlier one. */
  function Register(regs: seq<(string, Handler)>): map<string, Handler>
  {
    if regs == [] then map[]
    else Register(regs[..|regs| - 1])[regs[|regs| - 1].0 := regs[|regs| - 1].1]
  }

  const HANDLERS: map<string, Handler> := Register(REGISTRATIONS)

  /** Registration `j` is the last one made under `name`: no later put replaces it. */
  predicate LastWith(regs: seq<(string, Handler)>, name: string, j: int) {
    0 <= j < |regs| && regs[j].0 == name && forall k :: j < k < |regs| ==> regs[k].0 != name
  }

  /** Every name some registration used is in the table. */
  lemma {:induction false} RegisterHas(regs: seq<(string, Handler)>, i: nat)
    requires i < |regs|
    ensures regs[i].0 in Register(regs)
  {
    if i < |regs| - 1 {
      RegisterHas(regs[..|regs| - 1], i);
    }
  }

  /** The table holds no other name: each name in it comes from a registration `i`. */
  lemma {:induction false} RegisterOnly(regs: seq<(string, Handler)>, name: string) returns (i: nat)
    requires name in Register(regs)
    ensures i < |regs| && regs[i].0 == name
  {
    var last := regs[|regs| - 1];
    if name == last.0 {
      i := |regs| - 1;
    } else {
      i := RegisterOnly(regs[..|regs| - 1], name);
    }
  }

  /** A name maps to the handler of the last registration made under it. */
  lemma {:induction false} RegisterLast(regs: seq<(string, Handler)>, j: nat)
    requires j < |regs| && LastWith(regs, regs[j].0, j)
    ensures regs[j].0 in Register(regs) && Register(regs)[regs[j].0] == regs[j].1
  {
    if j < |regs| - 1 {
      var init := regs[..|regs| - 1];
      assert init[j] == regs[j];
      assert LastWith(init, init[j].0, j);
      RegisterLast(init, j);
    }
  }

  /** Every registered name reaches a handler, and the table holds no other name. */
  lemma HandlerTable()
    ensures forall i :: 0 <= i < |REGISTRATIONS| ==> REGISTRATIONS[i].0 in HANDLERS
    ensures forall name :: name in HANDLERS ==> exists i :: 0 <= i < |REGISTRATIONS| && REGISTRATIONS[i].0 == name
  {
    forall i | 0 <= i < |REGISTRATIONS| {
      RegisterHas(REGISTRATIONS, i);
    }
    forall name | name in HANDLERS
      ensures exists i :: 0 <= i < |REGISTRATIONS| && REGISTRATIONS[i].0 == name
    {
      var i := RegisterOnly(REGISTRATIONS, name);
    }
  }

  const DECODE_ERROR_MESSAGE := "Could not decode action/params of command, please check format!"

  function UnknownCommandMessage(action: string): string {
    "Unknown command: " + action
  }

  /**
   * execute: the handler under the command's action runs; an unknown action
   * gives UNKNOWN_COMMAND, and a JSONException, from the envelope or the
   * handler, JSON_DECODER_ERROR.
   */
  function Execute(command: AndroidCommand, run: Handler -> Result<CommandResult, string>): (r: CommandResult)
    reads command
    ensures command.ActionName().Err? ==> r == CommandResult(JsonDecoderError, JStr(DECODE_ERROR_MESSAGE))
    ensures command.ActionName().Ok? && command.ActionName().value !in HANDLERS ==>
      r == CommandResult(UnknownCommand, JStr(UnknownCommandMessage(command.ActionName().value)))
  {
    match command.ActionName()
    case Err(_) => CommandResult(JsonDecoderError, JStr(DECODE_ERROR_MESSAGE))
    case Ok(action) =>
      if action in HANDLERS then
        match run(HANDLERS[action])
        case Ok(result) => result
        case Err(_) => CommandResult(JsonDecoderError, JStr(DECODE_ERROR_MESSAGE))
      else CommandResult(UnknownCommand, JStr(UnknownCommandMessage(action)))
  }

  /**
   * An action registered last by registration `i` runs that registration's
   * handler and no other, whatever the other handlers would do.
   */
  lemma DispatchesToOwnHandler(command: AndroidCommand, run: Handler -> Result<CommandResult, string>,
                               run': Handler -> Result<CommandResult, string>, i: nat)
    requires i < |REGISTRATIONS| && LastWith(REGISTRATIONS, REGISTRATIONS[i].0, i)
    requires command.ActionName() == Ok(REGISTRATIONS[i].0)
    requires run(REGISTRATIONS[i].1) == run'(REGISTRATIONS[i].1)
    ensures Execute(command, run) == Execute(command, run')
    ensures run(REGISTRATIONS[i].1).Ok? ==> Execute(command, run) == run(REGISTRATIONS[i].1).value
    ensures run(REGISTRATIONS[i].1).Err? ==> Execute(command, run) == CommandResult(JsonDecoderError, JStr(DECODE_ERROR_MESSAGE))
  {
    RegisterLast(REGISTRATIONS, i);
  }
}
