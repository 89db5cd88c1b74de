/**
 * Context helpers of the Node driver: the context-name constants, the list
 * of webview context names built from the devtools webview mapping, and the
 * Chromedriver capabilities computed from the session options.
 */
module ContextHelpers {
  import opened Wrappers
  import opened Text
  import opened Json

  const NATIVE_WIN := "NATIVE_APP"
  const WEBVIEW_WIN := "WEBVIEW"
  const CHROMIUM_WIN := "CHROMIUM"
  const WEBVIEW_BASE := WEBVIEW_WIN + "_"
  const CHROME_PACKAGE_NAME := "com.android.chrome"
  const KNOWN_CHROME_PACKAGE_NAMES: seq<string> := [CHROME_PACKAGE_NAME, "com.chrome.beta", "com.chrome.dev", "com.chrome.canary"]

  // ---------------------------------------------------------------------
  // parseWebviewNames
  // ---------------------------------------------------------------------

  /** One entry of the webview mapping: the devtools socket, its page count (absent when unreported), its process and its context name. */
  datatype WebviewMapping = WebviewMapping(webview: string, pages: Option<nat>, proc: string, webviewName: Option<string>)

  predicate HasPages(m: WebviewMapping) {
    m.pages.Some? && m.pages.value > 0
  }

  /** The entry contributes its name: it is not skipped for lack of pages, and its name is a non-empty string. */
  predicate Emitted(m: WebviewMapping, ensureWebviewsHavePages: bool) {
    (!ensureWebviewsHavePages || HasPages(m)) && m.webviewName.Some? && m.webviewName.value != []
  }

  /** The names of the emitted entries, in mapping order. */
  function WebviewNames(mapping: seq<WebviewMapping>, ensureWebviewsHavePages: bool): (r: seq<string>)
    ensures |r| <= |mapping|
  {
    if mapping == [] then []
    else
      var last := mapping[|mapping| - 1];
      WebviewNames(mapping[..|mapping| - 1], ensureWebviewsHavePages)
      + (if Emitted(last, ensureWebviewsHavePages) then [last.webviewName.value] else [])
  }

  /**
   * The webview context names: just CHROMIUM in a Chrome session, otherwise
   * the non-empty names of the entries kept, in order; entries without pages
   * are skipped unless that check is switched off (it is on by default).
   */
  method ParseWebviewNames(mapping: seq<WebviewMapping>, ensureWebviewsHavePages: Option<bool>, isChromeSession: Option<bool>)
    returns (result: seq<string>)
    ensures isChromeSession.GetOr(false) ==> result == [CHROMIUM_WIN]
    ensures !isChromeSession.GetOr(false) ==> result == WebviewNames(mapping, ensureWebviewsHavePages.GetOr(true))
  {
    if isChromeSession.GetOr(false) {
      return [CHROMIUM_WIN];
    }
    var ensurePages := ensureWebviewsHavePages.GetOr(true);
    result := [];
    var i := 0;
    while i < |mapping|
      invariant i <= |mapping|
      invariant result == WebviewNames(mapping[..i], ensurePages)
    {
      var m := mapping[i];
      assert mapping[..i + 1][..i] == mapping[..i];
      if ensurePages && !HasPages(m) {
        i := i + 1;
        continue;
      }
      if m.webviewName.Some? && m.webviewName.value != [] {
        result := result + [m.webviewName.value];
      }
      i := i + 1;
    }
    assert mapping[..i] == mapping;
  }

  /** The names of two mappings one after the other are the names of each, in order. */
  lemma {:induction false} WebviewNamesConcat(a: seq<WebviewMapping>, b: seq<WebviewMapping>, ensurePages: bool)
    ensures WebviewNames(a + b, ensurePages) == WebviewNames(a, ensurePages) + WebviewNames(b, ensurePages)
    decreases |b|
  {
    if b == [] {
      assert a + b == a;
    } else {
      var b' := b[..|b| - 1];
      assert (a + b)[..|a + b| - 1] == a + b';
      assert (a + b)[|a + b| - 1] == b[|b| - 1];
      WebviewNamesConcat(a, b', ensurePages);
    }
  }

  /** A name is listed exactly when some emitted entry carries it. */
  lemma {:induction false} WebviewNamesMember(mapping: seq<WebviewMapping>, ensurePages: bool, x: string)
    ensures x in WebviewNames(mapping, ensurePages)
            <==> exists i :: 0 <= i < |mapping| && Emitted(mapping[i], ensurePages) && mapping[i].webviewName.value == x
    decreases |mapping|
  {
    if mapping != [] {
      var init := mapping[..|mapping| - 1];
      WebviewNamesMember(init, ensurePages, x);
      if exists i :: 0 <= i < |init| && Emitted(init[i], ensurePages) && init[i].webviewName.value == x {
        var i :| 0 <= i < |init| && Emitted(init[i], ensurePages) && init[i].webviewName.value == x;
        assert mapping[i] == init[i];
      }
      if exists i :: 0 <= i < |mapping| && Emitted(mapping[i], ensurePages) && mapping[i].webviewName.value == x {
        var i :| 0 <= i < |mapping| && Emitted(mapping[i], ensurePages) && mapping[i].webviewName.value == x;
        if i < |init| {
          assert init[i] == mapping[i];
        }
      }
    }
  }

  /** Every listed name is non-empty (an empty or missing name is never emitted). */
  lemma {:induction false} WebviewNamesNonEmpty(mapping: seq<WebviewMapping>, ensurePages: bool)
    ensures forall x :: x in WebviewNames(mapping, ensurePages) ==> x != []
    decreases |mapping|
  {
    if mapping != [] {
      WebviewNamesNonEmpty(mapping[..|mapping| - 1], ensurePages);
    }
  }

  /** With the page check on, an entry without pages contributes nothing. */
  lemma SkipWithoutPages(mapping: seq<WebviewMapping>, m: WebviewMapping)
    requires !HasPages(m)
    ensures WebviewNames(mapping + [m], true) == WebviewNames(mapping, true)
  {
    assert (mapping + [m])[..|mapping|] == mapping;
  }

  // ---------------------------------------------------------------------
  // createChromedriverCaps
  // ---------------------------------------------------------------------

  /** `a?.[key]`: a property of a present object value; anything else reads as undefined. */
  function Member(a: Option<Json>, key: string): (r: Option<Json>)
    ensures r.Some? <==> a.Some? && a.value.JObj? && key in a.value.fields
    ensures r.Some? ==> r.value == a.value.fields[key]
  {
    if a.Some? && a.value.JObj? && key in a.value.fields then Some(a.value.fields[key]) else None
  }

  predicate OptTruthy(a: Option<Json>) {
    a.Some? && Truthy(a.value)
  }

  /** JavaScript `a || b`. */
  function JsOr(a: Option<Json>, b: Option<Json>): (r: Option<Json>)
    ensures OptTruthy(a) ==> r == a
    ensures !OptTruthy(a) ==> r == b
  {
    if OptTruthy(a) then a else b
  }

  /** lodash `toLower` of a value, ASCII letters only. */
  function LodashLower(a: Option<Json>): string {
    ToLowerAscii(LodashString(a))
  }

  /** Writing `undefined` into an object: the key no longer reads as a value. */
  function Put(o: Object, key: string, v: Option<Json>): (r: Object)
    ensures v.Some? ==> r == o[key := v.value]
    ensures v.None? ==> r == o - {key}
  {
    if v.Some? then o[key := v.value] else o - {key}
  }

  /** The package that `caps.chromeOptions.androidPackage` starts from. */
  function BasePackage(opts: Object, details: Option<Json>): Option<Json> {
    JsOr(JsOr(Member(Get(opts, "chromeOptions"), "androidPackage"), Get(opts, "appPackage")),
         Member(Member(details, "info"), "Android-Package"))
  }

  /** The package names that make the driver drop the activity and the process. */
  predicate IsChromePackage(pkg: Option<Json>) {
    (pkg.Some? && pkg.value.JStr? && pkg.value.s in KNOWN_CHROME_PACKAGE_NAMES) || LodashLower(pkg) == "chrome"
  }

  /** The five Chromedriver options the driver computes. */
  predicate ComputedKey(k: string) {
    k == "androidPackage" || k == "androidUseRunningApp" || k == "androidActivity" || k == "androidProcess"
    || k == "androidDeviceSerial"
  }

  /** The first computed options: the package, when one is found, and whether to use the running app. */
  function PackageStep(opts: Object, details: Option<Json>): (r: Object)
    ensures forall k :: k in r ==> ComputedKey(k)
    ensures OptTruthy(BasePackage(opts, details)) ==> Get(r, "androidPackage") == BasePackage(opts, details)
    ensures "androidActivity" !in r && "androidProcess" !in r
  {
    var pkg := BasePackage(opts, details);
    var o: Object := if OptTruthy(pkg) then map["androidPackage" := pkg.value] else map[];
    var running := Get(opts, "chromeUseRunningApp");
    if running.Some? && running.value.JBool? then o["androidUseRunningApp" := running.value] else o
  }

  /** The explicitly requested package, activity and process override what was found. */
  function ExplicitStep(o: Object, opts: Object, details: Option<Json>): (r: Object)
    ensures (forall k :: k in o ==> ComputedKey(k)) ==> forall k :: k in r ==> ComputedKey(k)
    ensures !OptTruthy(Get(opts, "chromeAndroidPackage")) ==> Get(r, "androidPackage") == Get(o, "androidPackage")
    ensures OptTruthy(Get(opts, "chromeAndroidActivity")) ==> Get(r, "androidActivity") == Get(opts, "chromeAndroidActivity")
  {
    var o1 := if OptTruthy(Get(opts, "chromeAndroidPackage")) then o["androidPackage" := opts["chromeAndroidPackage"]] else o;
    var o2 := if OptTruthy(Get(opts, "chromeAndroidActivity")) then o1["androidActivity" := opts["chromeAndroidActivity"]] else o1;
    var procName := Member(Member(details, "process"), "name");
    if OptTruthy(Get(opts, "chromeAndroidProcess")) then o2["androidProcess" := opts["chromeAndroidProcess"]]
    else if OptTruthy(procName) && OptTruthy(Member(Member(details, "process"), "id")) then o2["androidProcess" := procName.value]
    else o2
  }

  /** A chromium-webview browser takes the app activity. */
  function BrowserStep(o: Object, opts: Object): (r: Object)
    ensures (forall k :: k in o ==> ComputedKey(k)) ==> forall k :: k in r ==> ComputedKey(k)
    ensures LodashLower(Get(opts, "browserName")) == "chromium-webview" ==> Get(r, "androidActivity") == Get(opts, "appActivity")
    ensures LodashLower(Get(opts, "browserName")) != "chromium-webview" ==> r == o
    ensures Get(r, "androidPackage") == Get(o, "androidPackage")
  {
    if LodashLower(Get(opts, "browserName")) == "chromium-webview" then Put(o, "androidActivity", Get(opts, "appActivity")) else o
  }

  /** Chrome itself needs neither activity nor process, and bare "chrome" becomes its real package name. */
  function ChromeStep(o: Object): (r: Object)
    ensures forall k :: k in r ==> k in o || k == "androidPackage"
    ensures IsChromePackage(Get(o, "androidPackage")) ==> "androidActivity" !in r && "androidProcess" !in r
    ensures IsChromePackage(Get(o, "androidPackage")) && LodashLower(Get(o, "androidPackage")) == "chrome"
            ==> Get(r, "androidPackage") == Some(JStr(CHROME_PACKAGE_NAME))
    ensures IsChromePackage(Get(o, "androidPackage")) && LodashLower(Get(o, "androidPackage")) != "chrome"
            ==> Get(r, "androidPackage") == Get(o, "androidPackage")
    ensures !IsChromePackage(Get(o, "androidPackage")) ==> r == o
  {
    if IsChromePackage(Get(o, "androidPackage")) then
      (if LodashLower(Get(o, "androidPackage")) == "chrome" then o["androidPackage" := JStr(CHROME_PACKAGE_NAME)] else o)
      - {"androidActivity", "androidProcess"}
    else o
  }

  /**
   * The Chromedriver options the driver computes itself, before the user's
   * `chromeOptions` are merged in, ending with the device serial.
   */
  function Precomputed(opts: Object, deviceId: string, details: Option<Json>): (r: Object)
    ensures Get(r, "androidDeviceSerial") == Some(JStr(deviceId))
    ensures forall k :: k in r ==> ComputedKey(k)
  {
    ChromeStep(BrowserStep(ExplicitStep(PackageStep(opts, details), opts, details), opts))["androidDeviceSerial" := JStr(deviceId)]
  }

  predicate IsPlainObject(a: Option<Json>) {
    a.Some? && a.value.JObj?
  }

  const PERFORMANCE_PREF: Object := map["performance" := JStr("ALL")]

  /** The characters of a string, each as a one-character string. */
  function Chars(s: string): (r: seq<Json>)
    ensures |r| == |s| && forall i :: 0 <= i < |s| ==> r[i] == JStr([s[i]])
  {
    seq(|s|, i requires 0 <= i < |s| => JStr([s[i]]))
  }

  /** The items under their decimal indices, as the own properties of an array or a string. */
  function Indexed(items: seq<Json>): (r: Object)
    ensures forall k :: k in r ==> AllDigits(k)
    decreases |items|
  {
    if items == [] then map[]
    else Indexed(items[..|items| - 1])[NatToDecimal(|items| - 1) := items[|items| - 1]]
  }

  /** Item `i` is found under the decimal text of `i`. */
  lemma {:induction false} IndexedEntries(items: seq<Json>, i: nat)
    requires i < |items|
    ensures NatToDecimal(i) in Indexed(items) && Indexed(items)[NatToDecimal(i)] == items[i]
    decreases |items|
  {
    if i < |items| - 1 {
      DecimalInjective(i, |items| - 1);
      IndexedEntries(items[..|items| - 1], i);
    }
  }

  /**
   * The own enumerable properties of a value, as `Object.assign` and
   * `_.toPairs` read them: the fields of an object, the items of an array or
   * the characters of a string under their indices, and none for a number,
   * a boolean or null.
   */
  function OwnEntries(v: Json): Object {
    match v
    case JObj(fields) => fields
    case JArr(items) => Indexed(items)
    case JStr(s) => Indexed(Chars(s))
    case _ => map[]
  }

  /**
   * The logging preferences: the Chrome-specific ones, else the generic
   * ones, once either is an object; `enablePerformanceLogging` then copies
   * the own properties of whatever truthy value is there and adds
   * performance: ALL on top.
   */
  function LoggingPrefs(opts: Object): (r: Option<Json>)
    ensures (!OptTruthy(Get(opts, "enablePerformanceLogging"))
             && !IsPlainObject(Get(opts, "loggingPrefs")) && !IsPlainObject(Get(opts, "chromeLoggingPrefs"))) ==> r.None?
    ensures OptTruthy(Get(opts, "enablePerformanceLogging")) ==>
              r.Some? && r.value.JObj? && Get(r.value.fields, "performance") == Some(JStr("ALL"))
  {
    var lp :=
      if IsPlainObject(Get(opts, "loggingPrefs")) || IsPlainObject(Get(opts, "chromeLoggingPrefs"))
      then JsOr(Get(opts, "chromeLoggingPrefs"), Get(opts, "loggingPrefs"))
      else None;
    if OptTruthy(Get(opts, "enablePerformanceLogging")) then
      if OptTruthy(lp) then Some(JObj(OwnEntries(lp.value) + PERFORMANCE_PREF))
      else Some(JObj(PERFORMANCE_PREF))
    else lp
  }

  /** The elements `[...v]` spreads: array items or string characters; other values are not iterable. */
  function Spread(v: Json): Option<seq<Json>> {
    match v
    case JArr(items) => Some(items)
    case JStr(s) => Some(Chars(s))
    case _ => None
  }

  /** The error of spreading a value that is not iterable; the engine's own wording is not part of the model. */
  const TYPE_ERROR := "TypeError: not iterable"

  /**
   * The user's `chromeOptions` as `_.toPairs` lists them, after `Arguments`
   * is appended to `args` and removed; spreading a non-iterable value
   * throws. A string or an array gives its index entries.
   */
  function UserOptions(opts: Object): (r: Result<Object, string>)
    ensures !IsPlainObject(Get(opts, "chromeOptions")) ==> r.Ok?
    ensures r.Ok? && IsPlainObject(Get(opts, "chromeOptions")) && !OptTruthy(Member(Get(opts, "chromeOptions"), "Arguments"))
            ==> r.value == opts["chromeOptions"].fields
    ensures r.Ok? ==> "Arguments" !in r.value || !OptTruthy(Member(Get(opts, "chromeOptions"), "Arguments"))
  {
    var user := Get(opts, "chromeOptions");
    if !IsPlainObject(user) then Ok(if user.Some? then OwnEntries(user.value) else map[])
    else
      var fields := user.value.fields;
      var arguments := Member(user, "Arguments");
      if !OptTruthy(arguments) then Ok(fields)
      else
        var args := JsOr(Member(user, "args"), Some(JArr([])));
        var head := Spread(args.value);
        var tail := Spread(arguments.value);
        if head.None? || tail.None? then Err(TYPE_ERROR)
        else Ok(fields["args" := JArr(head.value + tail.value)] - {"Arguments"})
  }

  /** The capabilities handed to Chromedriver. */
  datatype ChromedriverCaps = ChromedriverCaps(chromeOptions: Object, pageLoadStrategy: Option<Json>, loggingPrefs: Option<Json>)

  /**
   * Builds the Chromedriver capabilities: the computed options, then every
   * user option whose key reads as undefined on them (neither computed nor
   * inherited from `Object.prototype`).
   */
  method CreateChromedriverCaps(opts: Object, deviceId: string, details: Option<Json>) returns (r: Result<ChromedriverCaps, string>)
    ensures r.Err? <==> UserOptions(opts).Err?
    ensures r.Err? ==> r.error == TYPE_ERROR
    ensures r.Ok? ==> r.value.chromeOptions == Unprotected(UserOptions(opts).value) + Precomputed(opts, deviceId, details)
    ensures r.Ok? ==> r.value.pageLoadStrategy == (if OptTruthy(Get(opts, "pageLoadStrategy")) then Get(opts, "pageLoadStrategy") else None)
    ensures r.Ok? ==> r.value.loggingPrefs == LoggingPrefs(opts)
  {
    var found := FindPackage(opts, details);
    var explicit := ApplyExplicit(found, opts, details);
    var browser := ApplyBrowser(explicit, opts);
    var chromeOptions := ApplyChrome(browser);
    chromeOptions := chromeOptions["androidDeviceSerial" := JStr(deviceId)];
    var pageLoadStrategy: Option<Json> := None;
    if OptTruthy(Get(opts, "pageLoadStrategy")) {
      pageLoadStrategy := Get(opts, "pageLoadStrategy");
    }
    var loggingPrefs := ComputeLoggingPrefs(opts);
    var user := UserOptions(opts);
    if user.Err? {
      return Err(user.error);
    }
    var merged := MergeUserOptions(chromeOptions, user.value);
    return Ok(ChromedriverCaps(merged, pageLoadStrategy, loggingPrefs));
  }

  /** The package found for the session, and whether to use the running app. */
  method FindPackage(opts: Object, details: Option<Json>) returns (chromeOptions: Object)
    ensures chromeOptions == PackageStep(opts, details)
  {
    chromeOptions := map[];
    var androidPackage := BasePackage(opts, details);
    if OptTruthy(androidPackage) {
      chromeOptions := chromeOptions["androidPackage" := androidPackage.value];
    }
    var running := Get(opts, "chromeUseRunningApp");
    if running.Some? && running.value.JBool? {
      chromeOptions := chromeOptions["androidUseRunningApp" := running.value];
    }
  }

  /** The explicitly requested package, activity and process, written over the options found. */
  method ApplyExplicit(found: Object, opts: Object, details: Option<Json>) returns (chromeOptions: Object)
    ensures chromeOptions == ExplicitStep(found, opts, details)
  {
    chromeOptions := found;
    if OptTruthy(Get(opts, "chromeAndroidPackage")) {
      chromeOptions := chromeOptions["androidPackage" := opts["chromeAndroidPackage"]];
    }
    if OptTruthy(Get(opts, "chromeAndroidActivity")) {
      chromeOptions := chromeOptions["androidActivity" := opts["chromeAndroidActivity"]];
    }
    var procName := Member(Member(details, "process"), "name");
    if OptTruthy(Get(opts, "chromeAndroidProcess")) {
      chromeOptions := chromeOptions["androidProcess" := opts["chromeAndroidProcess"]];
    } else if OptTruthy(procName) && OptTruthy(Member(Member(details, "process"), "id")) {
      chromeOptions := chromeOptions["androidProcess" := procName.value];
    }
  }

  /** A chromium-webview browser writes the app activity. */
  method ApplyBrowser(explicit: Object, opts: Object) returns (chromeOptions: Object)
    ensures chromeOptions == BrowserStep(explicit, opts)
  {
    chromeOptions := explicit;
    if LodashLower(Get(opts, "browserName")) == "chromium-webview" {
      chromeOptions := Put(chromeOptions, "androidActivity", Get(opts, "appActivity"));
    }
  }

  /** A Chrome package drops the activity and the process; bare "chrome" is renamed. */
  method ApplyChrome(browser: Object) returns (chromeOptions: Object)
    ensures chromeOptions == ChromeStep(browser)
  {
    chromeOptions := browser;
    var isChrome := LodashLower(Get(chromeOptions, "androidPackage")) == "chrome";
    if IsChromePackage(Get(chromeOptions, "androidPackage")) {
      if isChrome {
        chromeOptions := chromeOptions["androidPackage" := JStr(CHROME_PACKAGE_NAME)];
      }
      chromeOptions := chromeOptions - {"androidActivity", "androidProcess"};
    }
  }

  /** The logging preferences, first the object the user gave, then the performance preference. */
  method ComputeLoggingPrefs(opts: Object) returns (loggingPrefs: Option<Json>)
    ensures loggingPrefs == LoggingPrefs(opts)
  {
    loggingPrefs := None;
    if IsPlainObject(Get(opts, "loggingPrefs")) || IsPlainObject(Get(opts, "chromeLoggingPrefs")) {
      loggingPrefs := JsOr(Get(opts, "chromeLoggingPrefs"), Get(opts, "loggingPrefs"));
    }
    if OptTruthy(Get(opts, "enablePerformanceLogging")) {
      loggingPrefs :=
        if OptTruthy(loggingPrefs) then Some(JObj(OwnEntries(loggingPrefs.value) + PERFORMANCE_PREF))
        else Some(JObj(PERFORMANCE_PREF));
    }
  }

  /** The properties every object literal inherits from `Object.prototype`: reading them never gives `undefined`. */
  const OBJECT_PROTOTYPE_KEYS: set<string> := {
    "constructor", "hasOwnProperty", "isPrototypeOf", "propertyIsEnumerable", "toLocaleString", "toString",
    "valueOf", "__proto__", "__defineGetter__", "__defineSetter__", "__lookupGetter__", "__lookupSetter__"}

  /** `_.isUndefined(o[key])` for an object literal `o`: the key is neither its own nor inherited. */
  predicate IsUndefinedIn(o: Object, key: string) {
    key !in o && key !in OBJECT_PROTOTYPE_KEYS
  }

  /** The user options whose keys do not name an inherited property. */
  function Unprotected(user: Object): Object {
    map k | k in user && k !in OBJECT_PROTOTYPE_KEYS :: user[k]
  }

  /**
   * Copies each user option whose key reads as undefined on the computed
   * options; computed keys keep the driver's values, and keys such as
   * "constructor" or "toString" are never copied.
   */
  method MergeUserOptions(computed: Object, user: Object) returns (merged: Object)
    ensures merged == Unprotected(user) + computed
  {
    merged := computed;
    var pending := user.Keys;
    ghost var done: set<string> := {};
    while pending != {}
      invariant pending + done == user.Keys && pending !! done
      invariant merged == Restrict(user, done) + computed
      decreases |pending|
    {
      var opt :| opt in pending;
      RestrictStep(user, done, computed, opt);
      if IsUndefinedIn(merged, opt) {
        merged := merged[opt := user[opt]];
      }
      pending := pending - {opt};
      done := done + {opt};
    }
    RestrictAll(user);
  }

  /** The user options under the keys in `keys`, inherited names left out. */
  ghost function Restrict(user: Object, keys: set<string>): Object
    requires keys <= user.Keys
  {
    map k | k in keys && k !in OBJECT_PROTOTYPE_KEYS :: user[k]
  }

  /** One more user key: set when it reads as undefined, and left alone otherwise. */
  lemma RestrictStep(user: Object, done: set<string>, computed: Object, opt: string)
    requires done <= user.Keys && opt in user && opt !in done
    ensures IsUndefinedIn(Restrict(user, done) + computed, opt) ==>
            Restrict(user, done + {opt}) + computed == (Restrict(user, done) + computed)[opt := user[opt]]
    ensures !IsUndefinedIn(Restrict(user, done) + computed, opt) ==>
            Restrict(user, done + {opt}) + computed == Restrict(user, done) + computed
  {
  }

  lemma RestrictAll(user: Object)
    ensures Restrict(user, user.Keys) == Unprotected(user)
  {
  }

  /** The device serial is always the adb device id: no user option can override it. */
  lemma DeviceSerialAlways(opts: Object, deviceId: string, details: Option<Json>)
    requires UserOptions(opts).Ok?
    ensures (Unprotected(UserOptions(opts).value) + Precomputed(opts, deviceId, details))["androidDeviceSerial"] == JStr(deviceId)
  {
  }

  /**
   * A user option survives exactly when the driver did not compute that key
   * and it names no inherited property; a computed key keeps the driver's value.
   */
  lemma UserFillsOnlyMissing(opts: Object, deviceId: string, details: Option<Json>, key: string)
    requires UserOptions(opts).Ok? && key in UserOptions(opts).value
    ensures var merged := Unprotected(UserOptions(opts).value) + Precomputed(opts, deviceId, details);
            (key in merged <==> key in Precomputed(opts, deviceId, details) || key !in OBJECT_PROTOTYPE_KEYS)
            && (key in Precomputed(opts, deviceId, details) ==> merged[key] == Precomputed(opts, deviceId, details)[key])
            && (IsUndefinedIn(Precomputed(opts, deviceId, details), key) ==> merged[key] == UserOptions(opts).value[key])
  {
  }

  /** A user "constructor" option is dropped: the computed options already inherit one. */
  lemma ConstructorOptionDropped(opts: Object, deviceId: string, details: Option<Json>)
    requires UserOptions(opts).Ok? && "constructor" in UserOptions(opts).value
    ensures "constructor" !in Unprotected(UserOptions(opts).value) + Precomputed(opts, deviceId, details)
  {
    assert "constructor" in OBJECT_PROTOTYPE_KEYS;
    assert !ComputedKey("constructor");
  }

  /** A string given as `chromeOptions` contributes its characters under their indices. */
  lemma StringOptionsIndexed(opts: Object, s: string, i: nat)
    requires Get(opts, "chromeOptions") == Some(JStr(s)) && i < |s|
    ensures UserOptions(opts).Ok?
    ensures NatToDecimal(i) in UserOptions(opts).value && UserOptions(opts).value[NatToDecimal(i)] == JStr([s[i]])
  {
    IndexedEntries(Chars(s), i);
  }

  /**
   * A known Chrome package, or bare "chrome" in any case, leaves no computed
   * activity or process, and bare "chrome" becomes com.android.chrome.
   */
  lemma ChromePackageDropsActivity(opts: Object, deviceId: string, details: Option<Json>, pkg: string)
    requires !OptTruthy(Get(opts, "chromeAndroidPackage"))
    requires BasePackage(opts, details) == Some(JStr(pkg))
    requires pkg in KNOWN_CHROME_PACKAGE_NAMES || ToLowerAscii(pkg) == "chrome"
    ensures "androidActivity" !in Precomputed(opts, deviceId, details)
    ensures "androidProcess" !in Precomputed(opts, deviceId, details)
    ensures Precomputed(opts, deviceId, details)["androidPackage"]
            == JStr(if ToLowerAscii(pkg) == "chrome" then CHROME_PACKAGE_NAME else pkg)
  {
    assert LodashString(Some(JStr(pkg))) == pkg;
    assert pkg != [];
    var o := BrowserStep(ExplicitStep(PackageStep(opts, details), opts, details), opts);
    assert Get(o, "androidPackage") == Some(JStr(pkg));
  }

  /** A chromium-webview browser takes its activity from the app activity, unless it is a Chrome package. */
  lemma ChromiumWebviewActivity(opts: Object, deviceId: string, details: Option<Json>, activity: Json)
    requires Get(opts, "browserName") == Some(JStr("chromium-webview")) && Get(opts, "appActivity") == Some(activity)
    requires !IsChromePackage(Get(ExplicitStep(PackageStep(opts, details), opts, details), "androidPackage"))
    ensures Get(Precomputed(opts, deviceId, details), "androidActivity") == Some(activity)
  {
    ChromiumWebviewName(opts);
    var b := BrowserStep(ExplicitStep(PackageStep(opts, details), opts, details), opts);
    assert ChromeStep(b) == b;
  }

  lemma ChromiumWebviewName(opts: Object)
    requires Get(opts, "browserName") == Some(JStr("chromium-webview"))
    ensures LodashLower(Get(opts, "browserName")) == "chromium-webview"
  {
    assert LodashString(Get(opts, "browserName")) == "chromium-webview";
    LowerNoCapitals("chromium-webview");
  }

  /** Performance logging adds performance: ALL and keeps every other preference of an object. */
  lemma PerformanceLoggingMerged(opts: Object, prefs: Object)
    requires OptTruthy(Get(opts, "enablePerformanceLogging"))
    requires Get(opts, "chromeLoggingPrefs") == Some(JObj(prefs))
    ensures LoggingPrefs(opts).Some? && LoggingPrefs(opts).value.JObj?
    ensures LoggingPrefs(opts).value.fields["performance"] == JStr("ALL")
    ensures forall k :: k in prefs && k != "performance" ==> k in LoggingPrefs(opts).value.fields && LoggingPrefs(opts).value.fields[k] == prefs[k]
  {
  }

  /** Performance logging over a string copies the string's characters under their indices, then adds performance: ALL. */
  lemma PerformanceLoggingIndexed(opts: Object, s: string, i: nat)
    requires OptTruthy(Get(opts, "enablePerformanceLogging")) && IsPlainObject(Get(opts, "loggingPrefs"))
    requires Get(opts, "chromeLoggingPrefs") == Some(JStr(s)) && i < |s|
    ensures LoggingPrefs(opts).Some? && LoggingPrefs(opts).value.JObj?
    ensures Get(LoggingPrefs(opts).value.fields, NatToDecimal(i)) == Some(JStr([s[i]]))
  {
    IndexedEntries(Chars(s), i);
    assert NatToDecimal(i) != "performance" by {
      assert IsDigit(NatToDecimal(i)[0]);
    }
  }

  /** Performance logging alone gives exactly performance: ALL. */
  lemma PerformanceLoggingAlone(opts: Object)
    requires OptTruthy(Get(opts, "enablePerformanceLogging"))
    requires "loggingPrefs" !in opts && "chromeLoggingPrefs" !in opts
    ensures LoggingPrefs(opts) == Some(JObj(map["performance" := JStr("ALL")]))
  {
  }

  /** `Arguments` is appended to `args` and removed. */
  lemma ArgumentsMerged(opts: Object, args: seq<Json>, arguments: seq<Json>)
    requires IsPlainObject(Get(opts, "chromeOptions"))
    requires Member(Get(opts, "chromeOptions"), "args") == Some(JArr(args))
    requires Member(Get(opts, "chromeOptions"), "Arguments") == Some(JArr(arguments))
    ensures UserOptions(opts).Ok?
    ensures UserOptions(opts).value == opts["chromeOptions"].fields["args" := JArr(args + arguments)] - {"Arguments"}
  {
  }
}
