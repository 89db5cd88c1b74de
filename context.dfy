/**
 * Context naming and switching: the native app, the webviews found on the
 * device, and the Chromedriver sessions that drive the Chrome-backed ones.
 */
module Context {
  import opened Wrappers
  import opened Text
  import opened ContextHelpers
  import opened BidiModels

  /** The capabilities the context commands read. */
  datatype DriverOpts = DriverOpts(
    autoWebviewName: Option<string>,
    appPackage: Option<string>,
    recreateChromeDriverSessions: bool,
    automationName: Option<string>,
    ensureWebviewsHavePages: Option<bool>,
    isChromeSession: Option<bool>)

  /** A Chromedriver session, known by the context it was started for. */
  datatype Chromedriver = Chromedriver(context: string)

  /** What the driver does outside its own fields, oldest first. */
  datatype Effect =
    | SetupExisting(context: string)
    | SetupNew(context: string)
    | StopChromedriver(context: string)
    | Emit(event: ContextUpdatedEvent)

  /** The errors of context switching: an unlisted context, or one switchContext cannot enter from the current one. */
  datatype ContextError = NoSuchContext | CannotSwitch(target: string)
  {
    /** The text switchContext throws with. */
    function SwitchMessage(): string
      requires CannotSwitch?
    {
      "Didn't know how to handle switching to context '" + target + "'"
    }
  }

  /** lodash `includes` on a string, and the one name a Chrome session uses. */
  predicate IsChromedriverContext(viewName: Option<string>) {
    viewName.Some? && (Contains(viewName.value, WEBVIEW_WIN) || viewName.value == CHROMIUM_WIN)
  }

  /** The webview the driver picks for "WEBVIEW": the auto webview name, else the app package. */
  function DefaultWebviewName(opts: DriverOpts): (r: string)
    ensures StartsWith(r, WEBVIEW_BASE)
    ensures opts.autoWebviewName.Some? && opts.autoWebviewName.value != [] ==> r == WEBVIEW_BASE + opts.autoWebviewName.value
    ensures (opts.autoWebviewName.None? || opts.autoWebviewName.value == []) && opts.appPackage.Some?
            ==> r == WEBVIEW_BASE + opts.appPackage.value
  {
    var suffix :=
      if opts.autoWebviewName.Some? && opts.autoWebviewName.value != [] then opts.autoWebviewName.value
      else if opts.appPackage.Some? then opts.appPackage.value
      else "undefined";
    WEBVIEW_BASE + suffix
  }

  /** A name that starts with the webview prefix is a Chromedriver context. */
  lemma WebviewPrefixIsChromedriver(name: string)
    requires StartsWith(name, WEBVIEW_BASE)
    ensures IsChromedriverContext(Some(name))
  {
    assert name[0..|WEBVIEW_WIN|] == WEBVIEW_WIN;
    assert OccursAt(name, WEBVIEW_WIN, 0);
  }

  /** The native app is never a Chromedriver context. */
  lemma NativeIsNotChromedriver()
    ensures !IsChromedriverContext(Some(NATIVE_WIN))
  {
    forall i: nat | i <= |NATIVE_WIN|
      ensures !OccursAt(NATIVE_WIN, WEBVIEW_WIN, i)
    {
      if i + |WEBVIEW_WIN| <= |NATIVE_WIN| {
        assert NATIVE_WIN[i..i + |WEBVIEW_WIN|][0] == NATIVE_WIN[i] != 'W';
      }
    }
  }

  /** The context `setContext` aims at: the native app for no name, the default webview for "WEBVIEW". */
  function TargetContext(name: Option<string>, opts: DriverOpts): (r: string)
    ensures name.None? ==> r == NATIVE_WIN
    ensures name == Some(WEBVIEW_WIN) ==> StartsWith(r, WEBVIEW_BASE)
    ensures name.Some? && name.value != WEBVIEW_WIN ==> r == name.value
  {
    if name.None? then NATIVE_WIN
    else if name.value == WEBVIEW_WIN then DefaultWebviewName(opts)
    else name.value
  }

  /** The webview context names of a mapping, with the Chrome-session flag of the options winning over the driver's. */
  function WebviewContexts(mapping: seq<WebviewMapping>, opts: DriverOpts, isChromeSession: bool): (r: seq<string>)
    ensures opts.isChromeSession.GetOr(isChromeSession) ==> r == [CHROMIUM_WIN]
    ensures !opts.isChromeSession.GetOr(isChromeSession) ==> r == WebviewNames(mapping, opts.ensureWebviewsHavePages.GetOr(true))
  {
    if opts.isChromeSession.GetOr(isChromeSession) then [CHROMIUM_WIN]
    else WebviewNames(mapping, opts.ensureWebviewsHavePages.GetOr(true))
  }

  /** No listed context has an empty name. */
  lemma ContextNamesNonEmpty(mapping: seq<WebviewMapping>, opts: DriverOpts, isChromeSession: bool)
    ensures forall x :: x in [NATIVE_WIN] + WebviewContexts(mapping, opts, isChromeSession) ==> x != []
  {
    WebviewNamesNonEmpty(mapping, opts.ensureWebviewsHavePages.GetOr(true));
  }

  /** The BiDi domain: the lower-cased automation name, "undefined" when there is none. */
  function AutomationDomain(opts: DriverOpts): string {
    ToLowerAscii(if opts.automationName.Some? then opts.automationName.value else "undefined")
  }

  /** The two events announcing the context `name`, with the arguments of the current event in the order its signature names them. */
  function NotifyEffects(opts: DriverOpts, name: string): (r: seq<Effect>)
    ensures |r| == 2 && r[0].Emit? && r[1].Emit?
    ensures r[0].event.eventMethod == ContextUpdated(AutomationDomain(opts)) && r[1].event.eventMethod == ContextUpdatedObsolete
    ensures r[0].event.name == name && r[1].event.name == name
  {
    [Emit(MakeContextUpdatedEvent(name, AutomationDomain(opts))), Emit(MakeObsoleteContextUpdatedEvent(name))]
  }

  /** The two events as the notification builds them: the automation name and the context name change places. */
  function NotifyEffectsAsWritten(opts: DriverOpts, name: string): (r: seq<Effect>)
    ensures |r| == 2 && r[0].Emit? && r[1].Emit?
    ensures r[0].event.eventMethod == ContextUpdated(name) && r[0].event.name == AutomationDomain(opts)
    ensures r[1].event == MakeObsoleteContextUpdatedEvent(name)
  {
    [Emit(MakeContextUpdatedEvent(AutomationDomain(opts), name)), Emit(MakeObsoleteContextUpdatedEvent(name))]
  }

  /** Both announced events name the same context with the same type. */
  lemma NotifyEffectsAgree(opts: DriverOpts, name: string)
    ensures NotifyEffects(opts, name)[0].event.contextType == NotifyEffects(opts, name)[1].event.contextType
    ensures NotifyEffects(opts, name)[0].event.contextType == NATIVE <==> name == NATIVE_WIN
  {
    EventsAgree(name, AutomationDomain(opts));
  }

  /** As written, switching to the native app announces a WEB context named after the automation. */
  lemma NativeAnnouncedAsWeb()
    ensures var opts := DriverOpts(None, None, false, Some("uiautomator2"), None, None);
            var effects := NotifyEffectsAsWritten(opts, NATIVE_WIN);
            effects[0].event.name == "uiautomator2" && effects[0].event.contextType == WEB
            && effects[1].event.contextType == NATIVE
  {
    var opts := DriverOpts(None, None, false, Some("uiautomator2"), None, None);
    LowerNoCapitals("uiautomator2");
    assert AutomationDomain(opts) == "uiautomator2";
    assert "uiautomator2" != NATIVE_WIN by {
      assert "uiautomator2"[0] != NATIVE_WIN[0];
    }
  }

  /** What the stop loop leaves behind: one stop per session, for exactly the sessions there were. */
  ghost predicate StopsAll(stops: seq<Effect>, contexts: set<string>) {
    |stops| == |contexts|
    && (forall i :: 0 <= i < |stops| ==> stops[i].StopChromedriver? && stops[i].context in contexts)
    && (forall k :: k in contexts ==> StopChromedriver(k) in stops)
  }

  lemma StopsAllStep(stops: seq<Effect>, contexts: set<string>, k: string)
    requires StopsAll(stops, contexts) && k !in contexts
    ensures StopsAll(stops + [StopChromedriver(k)], contexts + {k})
  {
    assert forall j :: j in contexts ==> StopChromedriver(j) in stops + [StopChromedriver(k)];
  }

  /** Stops the sessions one at a time, forgetting each once it is stopped. */
  method StopSessions(sessions: map<string, Chromedriver>) returns (stops: seq<Effect>)
    ensures StopsAll(stops, sessions.Keys)
  {
    var remaining := sessions;
    ghost var done: set<string> := {};
    stops := [];
    while remaining != map[]
      invariant remaining.Keys + done == sessions.Keys
      invariant remaining.Keys !! done
      invariant StopsAll(stops, done)
      decreases |remaining|
    {
      var context :| context in remaining;
      StopsAllStep(stops, done, context);
      stops := stops + [StopChromedriver(context)];
      remaining := remaining - {context};
      done := done + {context};
    }
  }

  class Driver {
    const opts: DriverOpts
    const isChromeSession: bool
    /** The context set explicitly, if any. */
    var curContext: Option<string>
    /** The contexts found the last time they were listed. */
    var contexts: seq<string>
    var chromedriver: Option<Chromedriver>
    var proxyReqRes: Option<Chromedriver>
    var proxyCommand: Option<Chromedriver>
    var jwpProxyActive: bool
    /** The Chromedriver sessions started so far, by context. */
    var sessionChromedrivers: map<string, Chromedriver>
    var bidiProxyUrl: Option<string>
    var effects: seq<Effect>

    /** The proxy fields move together, and the proxied session is one the driver keeps. */
    ghost predicate Valid()
      reads this
    {
      (forall k :: k in sessionChromedrivers ==> sessionChromedrivers[k] == Chromedriver(k))
      && proxyReqRes == chromedriver && proxyCommand == chromedriver
      && (jwpProxyActive <==> chromedriver.Some?)
      && (chromedriver.Some? ==> chromedriver.value.context in sessionChromedrivers)
    }

    /** Commands are proxied exactly in a Chromedriver context, to that context's session. */
    ghost predicate ProxyFollowsContext()
      reads this
    {
      (jwpProxyActive <==> IsChromedriverContext(curContext))
      && (jwpProxyActive ==> chromedriver == Some(Chromedriver(curContext.value)))
    }

    constructor (opts: DriverOpts, isChromeSession: bool, bidiProxyUrl: Option<string>)
      ensures this.opts == opts && this.isChromeSession == isChromeSession && this.bidiProxyUrl == bidiProxyUrl
      ensures curContext.None? && contexts == [] && sessionChromedrivers == map[] && effects == []
      ensures Valid() && ProxyFollowsContext()
    {
      this.opts := opts;
      this.isChromeSession := isChromeSession;
      this.bidiProxyUrl := bidiProxyUrl;
      curContext := None;
      contexts := [];
      chromedriver := None;
      proxyReqRes := None;
      proxyCommand := None;
      jwpProxyActive := false;
      sessionChromedrivers := map[];
      effects := [];
    }

    /** The context in use: the one set explicitly, else the native app. */
    function GetCurrentContext(): (r: string)
      reads this
      ensures r != []
      ensures curContext.Some? && curContext.value != [] ==> r == curContext.value
      ensures curContext.None? || curContext.value == [] ==> r == NATIVE_WIN
    {
      if curContext.Some? && curContext.value != [] then curContext.value else NATIVE_WIN
    }

    /** A web context is any context set explicitly other than the native app. */
    predicate IsWebContext()
      reads this
    {
      curContext.Some? && curContext.value != NATIVE_WIN
    }

    /** Lists the contexts: the native app first, then the webviews of the mapping. */
    method AssignContexts(mapping: seq<WebviewMapping>) returns (r: seq<string>)
      modifies this`contexts
      ensures r == contexts == [NATIVE_WIN] + WebviewContexts(mapping, opts, isChromeSession)
    {
      var webviews := ParseWebviewNames(mapping, opts.ensureWebviewsHavePages, Some(opts.isChromeSession.GetOr(isChromeSession)));
      contexts := [NATIVE_WIN] + webviews;
      r := contexts;
    }

    /** Stops proxying: the Chromedriver and both proxy functions are cleared. */
    method SuspendChromedriverProxy()
      modifies this`chromedriver, this`proxyReqRes, this`proxyCommand, this`jwpProxyActive
      ensures chromedriver.None? && proxyReqRes.None? && proxyCommand.None? && !jwpProxyActive
    {
      chromedriver := None;
      proxyReqRes := None;
      proxyCommand := None;
      jwpProxyActive := false;
    }

    /** Proxies to the context's Chromedriver, reusing the session when there is one and starting it otherwise. */
    method StartChromedriverProxy(context: string)
      requires Valid()
      modifies this`chromedriver, this`proxyReqRes, this`proxyCommand, this`jwpProxyActive,
        this`sessionChromedrivers, this`effects
      ensures Valid()
      ensures context in old(sessionChromedrivers) ==>
                sessionChromedrivers == old(sessionChromedrivers) && effects == old(effects) + [SetupExisting(context)]
      ensures context !in old(sessionChromedrivers) ==>
                sessionChromedrivers == old(sessionChromedrivers)[context := Chromedriver(context)]
                && effects == old(effects) + [SetupNew(context)]
      ensures jwpProxyActive && chromedriver == Some(Chromedriver(context))
    {
      var cd: Chromedriver;
      if context in sessionChromedrivers {
        cd := sessionChromedrivers[context];
        effects := effects + [SetupExisting(context)];
      } else {
        cd := Chromedriver(context);
        effects := effects + [SetupNew(context)];
        sessionChromedrivers := sessionChromedrivers[context := cd];
      }
      chromedriver := Some(cd);
      proxyReqRes := Some(cd);
      proxyCommand := Some(cd);
      jwpProxyActive := true;
    }

    /** Stops proxying, then stops every Chromedriver session and forgets it. */
    method StopChromedriverProxies()
      requires Valid()
      modifies this`chromedriver, this`proxyReqRes, this`proxyCommand, this`jwpProxyActive,
        this`sessionChromedrivers, this`effects
      ensures Valid()
      ensures chromedriver.None? && !jwpProxyActive && sessionChromedrivers == map[]
      ensures |effects| >= |old(effects)| && effects[..|old(effects)|] == old(effects)
      ensures StopsAll(effects[|old(effects)|..], old(sessionChromedrivers).Keys)
    {
      SuspendChromedriverProxy();
      var stops := StopSessions(sessionChromedrivers);
      assert (effects + stops)[|effects|..] == stops;
      effects := effects + stops;
      sessionChromedrivers := map[];
    }

    predicate CanSwitchTo(name: string)
      reads this
    {
      IsChromedriverContext(Some(name)) || IsChromedriverContext(curContext)
    }

    /**
     * Attaches to the Chromedriver of a Chromedriver context; leaving one
     * either stops every session or only suspends the proxy; anything else
     * cannot be switched to.
     */
    method SwitchContext(name: string) returns (r: Result<(), ContextError>)
      requires Valid()
      modifies this`chromedriver, this`proxyReqRes, this`proxyCommand, this`jwpProxyActive,
        this`sessionChromedrivers, this`effects, this`bidiProxyUrl
      ensures Valid() && bidiProxyUrl.None?
      ensures r.Ok? <==> CanSwitchTo(name)
      ensures r.Err? ==> r.error == CannotSwitch(name)
      ensures r.Ok? ==> (jwpProxyActive <==> IsChromedriverContext(Some(name)))
      ensures IsChromedriverContext(Some(name)) ==> jwpProxyActive && chromedriver == Some(Chromedriver(name))
      ensures IsChromedriverContext(Some(name)) && name in old(sessionChromedrivers) ==>
                sessionChromedrivers == old(sessionChromedrivers) && effects == old(effects) + [SetupExisting(name)]
      ensures IsChromedriverContext(Some(name)) && name !in old(sessionChromedrivers) ==>
                sessionChromedrivers == old(sessionChromedrivers)[name := Chromedriver(name)]
                && effects == old(effects) + [SetupNew(name)]
      ensures !IsChromedriverContext(Some(name)) && IsChromedriverContext(curContext) ==> !jwpProxyActive
      ensures !IsChromedriverContext(Some(name)) && IsChromedriverContext(curContext) && opts.recreateChromeDriverSessions ==>
                sessionChromedrivers == map[] && |effects| >= |old(effects)| && effects[..|old(effects)|] == old(effects)
                && StopsAll(effects[|old(effects)|..], old(sessionChromedrivers).Keys)
      ensures !IsChromedriverContext(Some(name)) && IsChromedriverContext(curContext) && !opts.recreateChromeDriverSessions ==>
                sessionChromedrivers == old(sessionChromedrivers) && effects == old(effects)
      ensures !CanSwitchTo(name) ==>
                sessionChromedrivers == old(sessionChromedrivers) && effects == old(effects)
                && chromedriver == old(chromedriver) && jwpProxyActive == old(jwpProxyActive)
    {
      bidiProxyUrl := None;
      if IsChromedriverContext(Some(name)) {
        StartChromedriverProxy(name);
        r := Ok(());
      } else if IsChromedriverContext(curContext) {
        if opts.recreateChromeDriverSessions {
          StopChromedriverProxies();
        } else {
          SuspendChromedriverProxy();
        }
        r := Ok(());
      } else {
        r := Err(CannotSwitch(name));
      }
    }

    /** Announces the current context to BiDi clients. */
    method NotifyBiDiContextChange()
      modifies this`effects
      ensures effects == old(effects) + NotifyEffects(opts, GetCurrentContext())
    {
      var name := GetCurrentContext();
      effects := effects + NotifyEffects(opts, name);
    }

    /**
     * Switches to the context `name` names, out of those the mapping
     * offers; staying in the current context does nothing.
     */
    method SetContext(name: Option<string>, mapping: seq<WebviewMapping>) returns (r: Result<(), ContextError>)
      requires Valid() && ProxyFollowsContext()
      modifies this
      ensures Valid() && ProxyFollowsContext()
      ensures Some(TargetContext(name, opts)) == old(curContext) ==>
                r.Ok? && curContext == old(curContext) && contexts == old(contexts) && effects == old(effects)
                && sessionChromedrivers == old(sessionChromedrivers) && chromedriver == old(chromedriver)
                && bidiProxyUrl == old(bidiProxyUrl)
      ensures Some(TargetContext(name, opts)) != old(curContext) ==>
                contexts == [NATIVE_WIN] + WebviewContexts(mapping, opts, isChromeSession)
      ensures Some(TargetContext(name, opts)) != old(curContext) && TargetContext(name, opts) !in contexts ==>
                r == Err(NoSuchContext) && curContext == old(curContext) && effects == old(effects)
                && sessionChromedrivers == old(sessionChromedrivers) && chromedriver == old(chromedriver)
                && bidiProxyUrl == old(bidiProxyUrl)
      ensures Some(TargetContext(name, opts)) != old(curContext) && TargetContext(name, opts) in contexts ==>
                (r.Ok? <==> IsChromedriverContext(Some(TargetContext(name, opts))) || IsChromedriverContext(old(curContext)))
      ensures r.Err? && r != Err(NoSuchContext) ==>
                r.error.CannotSwitch? && curContext == old(curContext) && effects == old(effects)
                && sessionChromedrivers == old(sessionChromedrivers) && chromedriver == old(chromedriver)
      ensures r.Ok? && Some(TargetContext(name, opts)) != old(curContext) ==>
                TargetContext(name, opts) in contexts && curContext == Some(TargetContext(name, opts))
                && bidiProxyUrl.None? && |effects| >= 2
                && effects[|effects| - 2..] == NotifyEffects(opts, TargetContext(name, opts))
    {
      var newContext := TargetContext(name, opts);
      if Some(newContext) == curContext {
        return Ok(());
      }
      var available := AssignContexts(mapping);
      if newContext !in available {
        return Err(NoSuchContext);
      }
      ContextNamesNonEmpty(mapping, opts, isChromeSession);
      r := EnterContext(newContext);
    }

    /** Switches to a listed context other than the current one, then announces it. */
    method EnterContext(newContext: string) returns (r: Result<(), ContextError>)
      requires Valid() && ProxyFollowsContext()
      requires newContext != [] && Some(newContext) != curContext
      modifies this`curContext, this`chromedriver, this`proxyReqRes, this`proxyCommand, this`jwpProxyActive,
        this`sessionChromedrivers, this`effects, this`bidiProxyUrl
      ensures Valid() && ProxyFollowsContext()
      ensures r.Ok? <==> IsChromedriverContext(Some(newContext)) || IsChromedriverContext(old(curContext))
      ensures r.Err? ==>
                r.error.CannotSwitch? && curContext == old(curContext) && effects == old(effects)
                && sessionChromedrivers == old(sessionChromedrivers) && chromedriver == old(chromedriver)
      ensures r.Ok? ==>
                curContext == Some(newContext) && bidiProxyUrl.None? && |effects| >= 2
                && effects[|effects| - 2..] == NotifyEffects(opts, newContext)
    {
      r := SwitchContext(newContext);
      if r.Err? {
        return;
      }
      curContext := Some(newContext);
      assert GetCurrentContext() == newContext;
      ghost var before := effects;
      NotifyBiDiContextChange();
      assert effects[|effects| - 2..] == effects[|before|..];
    }
  }
}
