/**
 * The configurator command: sets one of UiAutomator's five timeouts, a
 * negative or missing value standing for that timeout's default. The
 * Configurator singleton is an object holding the five settings by name.
 */
module ConfiguratorHandler {

  import opened Wrappers
  import opened Json
  import opened Command

  const ACTION_ACKNOWLEDGMENT_TIMEOUT := "actionAcknowledgmentTimeout"
  const KEY_INJECTION_DELAY := "keyInjectionDelay"
  const SCROLL_ACKNOWLEDGMENT_TIMEOUT := "scrollAcknowledgmentTimeout"
  const WAIT_FOR_IDLE_TIMEOUT := "waitForIdleTimeout"
  const WAIT_FOR_SELECTOR_TIMEOUT := "waitForSelectorTimeout"

  const API_MESSAGE := "Device API version must >= 18!"
  const UNKNOWN_KEY_MESSAGE := "'configurator' command must contain 'config' key!"
  const NULL_POINTER := "NullPointerException"
  const CLASS_CAST := "ClassCastException"

  /** The default of each known setting; `None` for any other name. */
  function Default(key: string): (r: Option<int>)
    ensures r.Some? <==> key in {ACTION_ACKNOWLEDGMENT_TIMEOUT, KEY_INJECTION_DELAY, SCROLL_ACKNOWLEDGMENT_TIMEOUT,
                                 WAIT_FOR_IDLE_TIMEOUT, WAIT_FOR_SELECTOR_TIMEOUT}
    ensures r.Some? ==> r.value >= 0
  {
    if key == ACTION_ACKNOWLEDGMENT_TIMEOUT then Some(3000)
    else if key == KEY_INJECTION_DELAY then Some(0)
    else if key == SCROLL_ACKNOWLEDGMENT_TIMEOUT then Some(200)
    else if key == WAIT_FOR_IDLE_TIMEOUT then Some(10000)
    else if key == WAIT_FOR_SELECTOR_TIMEOUT then Some(10000)
    else None
  }

  /** The value applied: the requested one when non-negative, else the setting's default. */
  function Effective(key: string, value: int): (r: int)
    requires Default(key).Some?
    ensures value >= 0 ==> r == value
    ensures value < 0 ==> r == Default(key).value
    ensures r >= 0
  {
    if value < 0 then Default(key).value else value
  }

  predicate IsInt32(n: int) {
    -0x8000_0000 <= n < 0x8000_0000
  }

  /** `(Integer) params.get("value")`: -1 when absent; anything but an int fails the cast. */
  function RequestedValue(params: Object): (r: Result<int, string>)
    ensures "value" !in params ==> r == Ok(-1)
    ensures "value" in params ==> (r.Ok? <==> params["value"].JNum? && IsInt32(params["value"].n))
    ensures "value" in params && r.Ok? ==> r.value == params["value"].n
    ensures r.Err? ==> r.error == CLASS_CAST
  {
    if "value" !in params then Ok(-1)
    else if params["value"].JNum? && IsInt32(params["value"].n) then Ok(params["value"].n)
    else Err(CLASS_CAST)
  }

  /** `(String) params.get("config")`: a missing name is null, which the switch throws on. */
  function ConfigName(params: Object): (r: Result<string, string>)
    ensures "config" !in params ==> r == Err(NULL_POINTER)
    ensures "config" in params ==> (r.Ok? <==> params["config"].JStr?)
    ensures "config" in params && r.Ok? ==> r.value == params["config"].s
    ensures "config" in params && r.Err? ==> r.error == CLASS_CAST
  {
    if "config" !in params then Err(NULL_POINTER)
    else if params["config"].JStr? then Ok(params["config"].s)
    else Err(CLASS_CAST)
  }

  /** The Configurator singleton's settings, by name. */
  class Configurator {
    var settings: map<string, int>

    constructor()
      ensures settings == map[]
    {
      settings := map[];
    }
  }

  /**
   * execute: below API 18 nothing is touched; otherwise a known name gets its
   * effective value, which is answered, and an unknown name is an error and
   * sets nothing.
   */
  method Execute(api18: bool, params: Object, configurator: Configurator) returns (r: Result<CommandResult, string>)
    modifies configurator
    ensures !api18 ==> r == Ok(ErrorResult(API_MESSAGE)) && configurator.settings == old(configurator.settings)
    ensures api18 && RequestedValue(params).Err? ==> r == Err(CLASS_CAST) && configurator.settings == old(configurator.settings)
    ensures api18 && RequestedValue(params).Ok? && ConfigName(params).Err? ==>
      r == Err(ConfigName(params).error) && configurator.settings == old(configurator.settings)
    ensures api18 && RequestedValue(params).Ok? && ConfigName(params).Ok? && Default(ConfigName(params).value).None? ==>
      r == Ok(ErrorResult(UNKNOWN_KEY_MESSAGE)) && configurator.settings == old(configurator.settings)
    ensures api18 && RequestedValue(params).Ok? && ConfigName(params).Ok? && Default(ConfigName(params).value).Some? ==>
      var key := ConfigName(params).value;
      var value := Effective(key, RequestedValue(params).value);
      r == Ok(SuccessResult(JNum(value))) && configurator.settings == old(configurator.settings)[key := value]
  {
    if !api18 {
      return Ok(ErrorResult(API_MESSAGE));
    }
    var value :- RequestedValue(params);
    var methodName :- ConfigName(params);
    if Default(methodName).None? {
      return Ok(ErrorResult(UNKNOWN_KEY_MESSAGE));
    }
    if value < 0 {
      value := Default(methodName).value;
    }
    configurator.settings := configurator.settings[methodName := value];
    return Ok(SuccessResult(JNum(value)));
  }
}
