/** The WebDriver BiDi events the driver emits: context updates and log entries. */
module BidiModels {
  import opened Text
  import ContextHelpers

  /** The event method names; the names' spelled-out strings are not part of this model. */
  datatype EventMethod = ContextUpdated(domain: string) | ContextUpdatedObsolete | LogEntryAdded

  datatype ContextType = NATIVE | WEB

  datatype ContextUpdatedEvent = ContextUpdatedEvent(eventMethod: EventMethod, name: string, contextType: ContextType)

  /** A context-update event for `contextName`: NATIVE for the native app, WEB for anything else. */
  function ToContextUpdatedEvent(eventMethod: EventMethod, contextName: string): (r: ContextUpdatedEvent)
    ensures r.eventMethod == eventMethod && r.name == contextName
    ensures r.contextType == NATIVE <==> contextName == ContextHelpers.NATIVE_WIN
  {
    ContextUpdatedEvent(eventMethod, contextName, if contextName == ContextHelpers.NATIVE_WIN then NATIVE else WEB)
  }

  /** The context-update event of a domain. */
  function MakeContextUpdatedEvent(contextName: string, domain: string): (r: ContextUpdatedEvent)
    ensures r.eventMethod == ContextUpdated(domain) && r.name == contextName
    ensures r.contextType == WEB <==> contextName != ContextHelpers.NATIVE_WIN
  {
    ToContextUpdatedEvent(ContextUpdated(domain), contextName)
  }

  /** The context-update event under its deprecated method name. */
  function MakeObsoleteContextUpdatedEvent(contextName: string): (r: ContextUpdatedEvent)
    ensures r.eventMethod == ContextUpdatedObsolete && r.name == contextName
    ensures r.contextType == WEB <==> contextName != ContextHelpers.NATIVE_WIN
  {
    ToContextUpdatedEvent(ContextUpdatedObsolete, contextName)
  }

  /** The current and the deprecated event name the same context with the same type. */
  lemma EventsAgree(contextName: string, domain: string)
    ensures MakeContextUpdatedEvent(contextName, domain).contextType == MakeObsoleteContextUpdatedEvent(contextName).contextType
    ensures MakeContextUpdatedEvent(contextName, domain).name == MakeObsoleteContextUpdatedEvent(contextName).name
  {
  }

  // ---------------------------------------------------------------------
  // Log entries
  // ---------------------------------------------------------------------

  const BIDI_LEVELS: set<string> := {"debug", "info", "warn", "error"}

  /** The level, lower-cased, when BiDi knows it, and "info" otherwise. */
  function AdjustLogLevel(originalLevel: string): (r: string)
    ensures r in BIDI_LEVELS
    ensures ToLowerAscii(originalLevel) in BIDI_LEVELS ==> r == ToLowerAscii(originalLevel)
    ensures ToLowerAscii(originalLevel) !in BIDI_LEVELS ==> r == "info"
  {
    var lc := ToLowerAscii(originalLevel);
    if lc == "debug" || lc == "info" || lc == "warn" || lc == "error" then lc else "info"
  }

  /** Every BiDi level is already lower case. */
  lemma LevelsLowerCase(level: string)
    requires level in BIDI_LEVELS
    ensures ToLowerAscii(level) == level
  {
    LevelNames(level);
    DebugLower();
    InfoLower();
    WarnLower();
    ErrorLower();
  }

  /** The four BiDi levels. */
  lemma LevelNames(level: string)
    requires level in BIDI_LEVELS
    ensures level == "debug" || level == "info" || level == "warn" || level == "error"
  {
  }

  lemma DebugLower() ensures ToLowerAscii("debug") == "debug" { LowerNoCapitals("debug"); }
  lemma InfoLower() ensures ToLowerAscii("info") == "info" { LowerNoCapitals("info"); }
  lemma WarnLower() ensures ToLowerAscii("warn") == "warn" { LowerNoCapitals("warn"); }
  lemma ErrorLower() ensures ToLowerAscii("error") == "error" { LowerNoCapitals("error"); }

  /** Adjusting an adjusted level changes nothing. */
  lemma AdjustLogLevelIdempotent(originalLevel: string)
    ensures AdjustLogLevel(AdjustLogLevel(originalLevel)) == AdjustLogLevel(originalLevel)
  {
    LevelsLowerCase(AdjustLogLevel(originalLevel));
  }

  /** A BiDi level in any letter case comes out in lower case. */
  lemma AdjustKnownLevel(originalLevel: string, level: string)
    requires level in BIDI_LEVELS && ToLowerAscii(originalLevel) == level
    ensures AdjustLogLevel(originalLevel) == level
  {
  }

  /** A logcat record. */
  datatype LogEntry = LogEntry(timestamp: int, level: string, message: string)

  datatype LogEntryAddedEvent = LogEntryAddedEvent(
    context: string, eventMethod: EventMethod, logType: string,
    level: string, realm: string, text: string, timestamp: int)

  /** The BiDi log event of a logcat record: its message as text, its timestamp, its adjusted level. */
  function MakeLogEntryAddedEvent(entry: LogEntry, context: string, logType: string): (r: LogEntryAddedEvent)
    ensures r.text == entry.message && r.timestamp == entry.timestamp
    ensures r.level == AdjustLogLevel(entry.level) && r.level in BIDI_LEVELS
    ensures r.context == context && r.logType == logType
    ensures r.eventMethod == LogEntryAdded && r.realm == []
  {
    LogEntryAddedEvent(context, LogEntryAdded, logType, AdjustLogLevel(entry.level), "", entry.message, entry.timestamp)
  }

  /** Re-emitting an event's own level, message and time gives the same event. */
  lemma LogEventStable(entry: LogEntry, context: string, logType: string)
    ensures var e := MakeLogEntryAddedEvent(entry, context, logType);
            MakeLogEntryAddedEvent(LogEntry(e.timestamp, e.level, e.text), context, logType) == e
  {
    AdjustLogLevelIdempotent(entry.level);
  }
}
