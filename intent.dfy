/**
 * The intent argument builder of the Node driver: turns the options of an
 * activity start, a broadcast or a service call into the argument list of
 * `am`. The options are typed strings except the extras, which are checked
 * at run time and so are kept as raw values.
 */
module Intent {

  import opened Wrappers
  import opened Text
  import opened Json

  const NO_VALUE_ARG_TYPE := "sn"
  const SUPPORTED_EXTRA_TYPES: seq<string> :=
    ["s", NO_VALUE_ARG_TYPE, "z", "i", "l", "f", "u", "cn", "ia", "ial", "la", "lal", "fa", "fal", "sa", "sal"]

  /** The `categories` option: one name, or an array of names. */
  datatype Categories = Name(name: string) | Names(names: seq<string>)

  datatype IntentOpts = IntentOpts(
    intent: Option<string>,
    action: Option<string>,
    uri: Option<string>,
    mimeType: Option<string>,
    identifier: Option<string>,
    categories: Option<Categories>,
    component: Option<string>,
    package: Option<string>,
    extras: Option<Json>,
    flags: Option<string>)

  /** The default `opts = {}`. */
  const NO_OPTS := IntentOpts(None, None, None, None, None, None, None, None, None, None)

  /** The InvalidArgumentError cases; the offending value is carried along. */
  datatype IntentError =
    | ExtrasNotArray
    | ItemNotArray(item: Json)
    | UnknownType(givenType: Option<Json>)
    | InvalidKey(extra: seq<Json>)
    | MissingValue(extraType: string, extra: seq<Json>)


  /** A string option that is set and non-empty. */
  predicate Given(o: Option<string>) {
    o.Some? && o.value != []
  }

  /** A flag and its value when the option is given. */
  function Pair(flag: string, o: Option<string>): (r: seq<Json>)
    ensures Given(o) ==> r == [JStr(flag), JStr(o.value)]
    ensures !Given(o) ==> r == []
  {
    if Given(o) then [JStr(flag), JStr(o.value)] else []
  }

  /** The intent itself when it is given. */
  function IntentArg(o: Option<string>): (r: seq<Json>)
    ensures Given(o) ==> r == [JStr(o.value)]
    ensures !Given(o) ==> r == []
  {
    if Given(o) then [JStr(o.value)] else []
  }

  /** The identifier is pushed whenever it is set, even empty. */
  function IdentifierArgs(o: Option<string>): (r: seq<Json>)
    ensures o.Some? ==> r == [JStr("-i"), JStr(o.value)]
    ensures o.None? ==> r == []
  {
    if o.Some? then [JStr("-i"), JStr(o.value)] else []
  }

  /** One "-c" pair per category name, in order. */
  function CategoryPairs(names: seq<string>): (r: seq<Json>)
    ensures |r| == 2 * |names|
  {
    if names == [] then [] else [JStr("-c"), JStr(names[0])] + CategoryPairs(names[1..])
  }

  /** The arguments of `categories`: a non-empty name, or any array of names. */
  function CategoryArgs(c: Option<Categories>): seq<Json> {
    match c
    case None => []
    case Some(Name(n)) => if n != [] then [JStr("-c"), JStr(n)] else []
    case Some(Names(ns)) => CategoryPairs(ns)
  }

  /** Every option up to and including the package, in the order the builder emits them. */
  function HeadArgs(opts: IntentOpts): seq<Json> {
    IntentArg(opts.intent) + Pair("-a", opts.action) + Pair("-d", opts.uri) + Pair("-t", opts.mimeType)
    + IdentifierArgs(opts.identifier) + CategoryArgs(opts.categories) + Pair("-n", opts.component) + Pair("-p", opts.package)
  }

  /** lodash `isEmpty`: absent, null, booleans and numbers count as empty, and so do empty strings, arrays and objects. */
  predicate IsEmptyValue(v: Option<Json>) {
    match v
    case None => true
    case Some(JStr(s)) => s == []
    case Some(JArr(items)) => items == []
    case Some(JObj(fields)) => fields == map[]
    case Some(_) => true
  }

  /** A key is accepted when it is not empty and, if it is a string, not blank. */
  predicate ValidKey(key: Option<Json>) {
    !IsEmptyValue(key) && !(key.value.JStr? && Trim(JsBlank, key.value.s) == [])
  }

  /** The arguments of one extra `[type, key, value]`, or why it is refused. */
  function ItemArgs(item: Json): (r: Result<seq<Json>, IntentError>)
    ensures r.Ok? ==> item.JArr? && |item.items| >= 2
    ensures r.Ok? && item.items[0] == JStr(NO_VALUE_ARG_TYPE) ==> r.value == [JStr("--esn"), item.items[1]]
    ensures r.Ok? && item.items[0] != JStr(NO_VALUE_ARG_TYPE) ==>
      |item.items| >= 3 && item.items[0].JStr? && r.value == [JStr("--e" + item.items[0].s), item.items[1], item.items[2]]
  {
    if !item.JArr? then Err(ItemNotArray(item))
    else
      var extraType := At(item.items, 0);
      var key := At(item.items, 1);
      var value := At(item.items, 2);
      if !(extraType.Some? && extraType.value.JStr? && extraType.value.s in SUPPORTED_EXTRA_TYPES) then
        Err(UnknownType(extraType))
      else if !ValidKey(key) then Err(InvalidKey(item.items))
      else if extraType.value.s == NO_VALUE_ARG_TYPE then Ok([JStr("--esn"), key.value])
      else if value.None? then Err(MissingValue(extraType.value.s, item.items))
      else Ok([JStr("--e" + extraType.value.s), key.value, value.value])
  }

  /** The arguments of all extras, in order, or the error of the first refused one. */
  function ExtrasArgs(items: seq<Json>): Result<seq<Json>, IntentError> {
    if items == [] then Ok([])
    else
      var args :- ExtrasArgs(items[..|items| - 1]);
      var last :- ItemArgs(items[|items| - 1]);
      Ok(args + last)
  }

  /** The arguments of the `extras` option: a truthy value must be an array. */
  function ExtrasOptionArgs(extras: Option<Json>): Result<seq<Json>, IntentError> {
    if extras.None? || !Truthy(extras.value) then Ok([])
    else if !extras.value.JArr? then Err(ExtrasNotArray)
    else ExtrasArgs(extras.value.items)
  }

  /** parseIntentSpec as a function of the options. */
  function IntentArgs(opts: IntentOpts): (r: Result<seq<Json>, IntentError>)
    ensures r.Err? <==> ExtrasOptionArgs(opts.extras).Err?
    ensures r.Err? ==> r.error == ExtrasOptionArgs(opts.extras).error
    ensures r.Ok? ==> HeadArgs(opts) <= r.value
  {
    var extras :- ExtrasOptionArgs(opts.extras);
    Ok(HeadArgs(opts) + extras + Pair("-f", opts.flags))
  }

  /** Once an extra is refused, later ones do not change the outcome. */
  lemma {:induction false} ExtrasErrSticks(items: seq<Json>, i: nat)
    requires i <= |items| && ExtrasArgs(items[..i]).Err?
    ensures ExtrasArgs(items) == ExtrasArgs(items[..i])
    decreases |items| - i
  {
    if i < |items| {
      assert items[..i + 1][..i] == items[..i];
      ExtrasErrSticks(items, i + 1);
    } else {
      assert items[..i] == items;
    }
  }

  /** One pass of the extras loop: checks the extra and pushes its arguments. */
  method PushExtra(resultArgs: seq<Json>, item: Json) returns (r: Result<seq<Json>, IntentError>)
    ensures ItemArgs(item).Err? ==> r == Err(ItemArgs(item).error)
    ensures ItemArgs(item).Ok? ==> r == Ok(resultArgs + ItemArgs(item).value)
  {
    if !item.JArr? {
      return Err(ItemNotArray(item));
    }
    var extraType := At(item.items, 0);
    var key := At(item.items, 1);
    var value := At(item.items, 2);
    if !(extraType.Some? && extraType.value.JStr? && extraType.value.s in SUPPORTED_EXTRA_TYPES) {
      return Err(UnknownType(extraType));
    }
    if IsEmptyValue(key) || (key.value.JStr? && Trim(JsBlank, key.value.s) == []) {
      return Err(InvalidKey(item.items));
    }
    if extraType.value.s == NO_VALUE_ARG_TYPE {
      assert "--e" + extraType.value.s == "--esn";
      return Ok(resultArgs + [JStr("--e" + extraType.value.s), key.value]);
    } else if value.None? {
      return Err(MissingValue(extraType.value.s, item.items));
    }
    return Ok(resultArgs + [JStr("--e" + extraType.value.s), key.value, value.value]);
  }

  /**
   * parseIntentSpec: pushes the arguments of each given option in turn,
   * checking each extra as it goes.
   */
  method ParseIntentSpec(opts: IntentOpts) returns (r: Result<seq<Json>, IntentError>)
    ensures r == IntentArgs(opts)
  {
    var resultArgs := IntentArg(opts.intent);
    resultArgs := resultArgs + Pair("-a", opts.action);
    resultArgs := resultArgs + Pair("-d", opts.uri);
    resultArgs := resultArgs + Pair("-t", opts.mimeType);
    resultArgs := resultArgs + IdentifierArgs(opts.identifier);
    resultArgs := resultArgs + CategoryArgs(opts.categories);
    resultArgs := resultArgs + Pair("-n", opts.component);
    resultArgs := resultArgs + Pair("-p", opts.package);
    ghost var head := resultArgs;
    assert head == HeadArgs(opts);
    ghost var extrasArgs: seq<Json> := [];
    if opts.extras.Some? && Truthy(opts.extras.value) {
      if !opts.extras.value.JArr? {
        return Err(ExtrasNotArray);
      }
      var extras := opts.extras.value.items;
      var i := 0;
      while i < |extras|
        invariant 0 <= i <= |extras|
        invariant ExtrasArgs(extras[..i]).Ok?
        invariant resultArgs == head + ExtrasArgs(extras[..i]).value
      {
        assert extras[..i + 1][..i] == extras[..i];
        var pushed := PushExtra(resultArgs, extras[i]);
        if pushed.Err? {
          ExtrasErrSticks(extras, i + 1);
          return Err(pushed.error);
        }
        resultArgs := pushed.value;
        i := i + 1;
      }
      assert extras[..i] == extras;
      extrasArgs := ExtrasArgs(extras).value;
    }
    assert ExtrasOptionArgs(opts.extras) == Ok(extrasArgs);
    assert resultArgs == head + extrasArgs;
    resultArgs := resultArgs + Pair("-f", opts.flags);
    return Ok(resultArgs);
  }

  /** With no options there are no arguments. */
  lemma NoOptsNoArgs()
    ensures IntentArgs(NO_OPTS) == Ok([])
  {
    assert HeadArgs(NO_OPTS) == [];
  }

  /** An array of categories gives a "-c" before each name, names in order. */
  lemma {:induction false} CategoryPairsAt(names: seq<string>, k: nat)
    requires k < |names|
    ensures CategoryPairs(names)[2 * k] == JStr("-c") && CategoryPairs(names)[2 * k + 1] == JStr(names[k])
  {
    if k > 0 {
      CategoryPairsAt(names[1..], k - 1);
    }
  }

  /** The intent comes first when it is given. */
  lemma IntentFirst(opts: IntentOpts)
    requires IntentArgs(opts).Ok? && Given(opts.intent)
    ensures IntentArgs(opts).value[0] == JStr(opts.intent.value)
  {
  }

  /** The flags come last when they are given. */
  lemma FlagsLast(opts: IntentOpts)
    requires IntentArgs(opts).Ok? && Given(opts.flags)
    ensures var r := IntentArgs(opts).value;
      |r| >= 2 && r[|r| - 2..] == [JStr("-f"), JStr(opts.flags.value)]
  {
  }

  /** The extras come between the package and the flags, unchanged by the other options. */
  lemma ExtrasBetween(opts: IntentOpts)
    requires IntentArgs(opts).Ok?
    ensures var r := IntentArgs(opts).value;
      var h := |HeadArgs(opts)|;
      var e := ExtrasOptionArgs(opts.extras).value;
      ExtrasOptionArgs(opts.extras).Ok? && h + |e| <= |r| && r[h..h + |e|] == e
  {
  }

  /** A truthy non-array `extras` is refused whatever the other options. */
  lemma NonArrayExtrasRefused(opts: IntentOpts)
    requires opts.extras.Some? && Truthy(opts.extras.value) && !opts.extras.value.JArr?
    ensures IntentArgs(opts) == Err(ExtrasNotArray)
  {
  }

  /** The extras are refused exactly when one of them is, with the error of the first refused one. */
  lemma {:induction false} ExtrasFirstError(items: seq<Json>)
    ensures ExtrasArgs(items).Err? <==> exists k :: 0 <= k < |items| && ItemArgs(items[k]).Err?
    ensures ExtrasArgs(items).Err? ==>
      exists k :: 0 <= k < |items| && ItemArgs(items[k]).Err? &&
        ExtrasArgs(items).error == ItemArgs(items[k]).error &&
        forall m :: 0 <= m < k ==> ItemArgs(items[m]).Ok?
  {
    if items != [] {
      var init := items[..|items| - 1];
      ExtrasFirstError(init);
      assert forall m :: 0 <= m < |init| ==> init[m] == items[m];
    }
  }

  /** Each accepted extra contributes two arguments for "sn" and three otherwise. */
  function ArgCount(items: seq<Json>): nat {
    if items == [] then 0
    else ArgCount(items[..|items| - 1]) + (if items[|items| - 1].JArr? && At(items[|items| - 1].items, 0) == Some(JStr(NO_VALUE_ARG_TYPE)) then 2 else 3)
  }

  lemma {:induction false} ExtrasCount(items: seq<Json>)
    requires ExtrasArgs(items).Ok?
    ensures |ExtrasArgs(items).value| == ArgCount(items)
  {
    if items != [] {
      ExtrasCount(items[..|items| - 1]);
    }
  }

  /** A key that is blank, or any empty value, refuses the extra. */
  lemma BlankKeyRefused(extraType: string, key: Json, rest: seq<Json>)
    requires extraType in SUPPORTED_EXTRA_TYPES
    requires IsEmptyValue(Some(key)) || (key.JStr? && Trim(JsBlank, key.s) == [])
    ensures ItemArgs(JArr([JStr(extraType), key] + rest)) == Err(InvalidKey([JStr(extraType), key] + rest))
  {
  }

  /** An unsupported type refuses the extra. */
  lemma UnknownTypeRefused(item: seq<Json>)
    requires item == [] || !item[0].JStr? || item[0].s !in SUPPORTED_EXTRA_TYPES
    ensures ItemArgs(JArr(item)) == Err(UnknownType(At(item, 0)))
  {
  }

  /** A typed extra other than "sn" without a value is refused. */
  lemma MissingValueRefused(extraType: string, key: string)
    requires extraType in SUPPORTED_EXTRA_TYPES && extraType != NO_VALUE_ARG_TYPE
    requires Trim(JsBlank, key) != []
    ensures ItemArgs(JArr([JStr(extraType), JStr(key)])) == Err(MissingValue(extraType, [JStr(extraType), JStr(key)]))
  {
    assert ValidKey(Some(JStr(key)));
  }

  /** With a value it gives its three arguments, the value passed through as it is. */
  lemma ValueExtraArgs(extraType: string, key: string, value: Json)
    requires extraType in SUPPORTED_EXTRA_TYPES && extraType != NO_VALUE_ARG_TYPE
    requires Trim(JsBlank, key) != []
    ensures ItemArgs(JArr([JStr(extraType), JStr(key), value])) == Ok([JStr("--e" + extraType), JStr(key), value])
  {
    assert ValidKey(Some(JStr(key)));
  }
}
