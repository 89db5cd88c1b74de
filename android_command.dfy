/**
 * The command envelope the agent receives from the driver: a JSON object with
 * a "cmd" type, an "action" name and a "params" object.
 */
module Command {

  import opened Wrappers
  import opened Text
  import opened Json

  datatype CommandType = Shutdown | Action

  const ELEMENT_PREFIX := "element:"

  function BadCommandType(stringType: string): string {
    "Got bad command type: " + stringType
  }

  /** The status codes of a command result. */
  datatype WDStatus = Success | UnknownError | UnknownCommand | JsonDecoderError | NoSuchElement

  /** What a handler answers: a status and a JSON value. */
  datatype CommandResult = CommandResult(status: WDStatus, value: Json)

  function SuccessResult(value: Json): CommandResult {
    CommandResult(Success, value)
  }

  function ErrorResult(message: string): CommandResult {
    CommandResult(UnknownError, JStr(message))
  }

  class AndroidCommand {
    const json: Object
    var cmdType: Option<CommandType>

    constructor(json: Object)
      ensures this.json == json && cmdType == None
    {
      this.json := json;
      cmdType := None;
    }

    /** The constructor: the decoded object, whose "cmd" string must name a known command type. */
    static method FromJson(json: Object) returns (r: Result<AndroidCommand, string>)
      ensures r.Ok? ==> fresh(r.value) && r.value.json == json && r.value.cmdType.Some?
      ensures r.Ok? <==> GetString(json, "cmd").Ok? && GetString(json, "cmd").value in {"shutdown", "action"}
      ensures r.Err? && GetString(json, "cmd").Err? ==> r.error == JSON_EXCEPTION
      ensures r.Err? && GetString(json, "cmd").Ok? ==> r.error == BadCommandType(GetString(json, "cmd").value)
    {
      var command := new AndroidCommand(json);
      var cmd := GetString(json, "cmd");
      if cmd.Err? {
        return Err(cmd.error);
      }
      var err := command.SetType(cmd.value);
      if err.Some? {
        return Err(err.value);
      }
      return Ok(command);
    }

    /** setType: "shutdown" and "action" are the only command types; anything else throws and keeps the type. */
    method SetType(stringType: string) returns (err: Option<string>)
      modifies this
      ensures stringType == "shutdown" ==> err.None? && cmdType == Some(Shutdown)
      ensures stringType == "action" ==> err.None? && cmdType == Some(Action)
      ensures stringType !in {"shutdown", "action"} ==> err == Some(BadCommandType(stringType)) && cmdType == old(cmdType)
    {
      if stringType == "shutdown" {
        cmdType := Some(Shutdown);
      } else if stringType == "action" {
        cmdType := Some(Action);
      } else {
        return Some(BadCommandType(stringType));
      }
      return None;
    }

    /** An action command whose "action" string starts with "element:"; a missing action counts as no. */
    predicate IsElementCommand()
      reads this
    {
      cmdType == Some(Action) && GetString(json, "action").Ok? && StartsWith(GetString(json, "action").value, ELEMENT_PREFIX)
    }

    /** action(): the action name, without its "element:" prefix for element commands. */
    function ActionName(): (r: Result<string, string>)
      reads this
      ensures r.Err? <==> GetString(json, "action").Err?
      ensures r.Ok? && IsElementCommand() ==> ELEMENT_PREFIX + r.value == GetString(json, "action").value
      ensures r.Ok? && !IsElementCommand() ==> r.value == GetString(json, "action").value
    {
      var action := GetString(json, "action");
      if IsElementCommand() then Ok(action.value[8..]) else action
    }

    /** params(): a new table with every key of the "params" object and its value. */
    method Params() returns (r: Result<map<string, Json>, string>)
      ensures r.Err? <==> GetObject(json, "params").Err?
      ensures r.Ok? ==> r.value.Keys == GetObject(json, "params").value.Keys
      ensures r.Ok? ==> forall k :: k in r.value ==> r.value[k] == GetObject(json, "params").value[k]
    {
      var paramsObj :- GetObject(json, "params");
      var newParams: map<string, Json> := map[];
      var keys := paramsObj.Keys;
      while keys != {}
        invariant keys <= paramsObj.Keys
        invariant newParams.Keys == paramsObj.Keys - keys
        invariant forall k :: k in newParams ==> newParams[k] == paramsObj[k]
        decreases |keys|
      {
        var param :| param in keys;
        newParams := newParams[param := paramsObj[param]];
        keys := keys - {param};
      }
      return Ok(newParams);
    }
  }

  /** A shutdown command is never an element command. */
  lemma ShutdownIsNoElementCommand(command: AndroidCommand)
    requires command.cmdType == Some(Shutdown)
    ensures !command.IsElementCommand()
    ensures command.ActionName() == GetString(command.json, "action")
  {
  }

  /** Putting "element:" in front of an action makes it an element command whose action() is the original name. */
  lemma ElementPrefixRoundTrip(command: AndroidCommand, name: string)
    requires command.cmdType == Some(Action) && "action" in command.json
    requires command.json["action"] == JStr(ELEMENT_PREFIX + name)
    ensures command.IsElementCommand()
    ensures command.ActionName() == Ok(name)
  {
    assert (ELEMENT_PREFIX + name)[..8] == ELEMENT_PREFIX;
    assert (ELEMENT_PREFIX + name)[8..] == name;
  }
}
