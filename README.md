# Appium Android driver: bootstrap agent and driver helpers, modelled in Dafny

The Appium Android driver automates Android devices over the WebDriver protocol. It has two parts. The first is an on-device
Java agent, the *bootstrap*. It receives JSON commands and dispatches them to handlers. It keeps a registry of the UI
elements it has found and replays multi-finger gestures as touch events. The second is the Node driver. Its helpers turn
`adb` and `dumpsys` text into values, validate capabilities, build intent arguments, track connectivity flags, switch
between the native and webview contexts, and build Chromedriver capabilities.

A Dafny module models each source file of that core:

- **Bootstrap agent.** The sources are `AndroidCommand`, `AndroidCommandExecutor`, `AndroidElementsHash`,
  `MultiPointerGesture`, `Orientation`, `OrientationEnum`, `TheWatchers`, `ConfiguratorHandler`, `UiAutomatorParser` and
  `UnicodeEncoder.needsEncoding`.
  - Code that changes state in place is modelled as classes with `modifies` frames. These are the element registry, the
    locator parser, the command envelope, the watcher and the configurator.
  - Loops become methods with loop invariants, each proved against a specification function.
- **Node helpers.** The sources are the system-bars window parser, the unlock helpers, the intent builder, the meminfo
  and battery parsers, the connectivity commands, context switching, the Chromedriver capabilities, container file paths,
  and the log, event and media-extension helpers.
  - The device and `adb` are parameters.
  - Alternatively, a small `Device`/`Driver` class stands in for them and records the requests sent.
  - Everything a device call returns is an input.

Shared modules: `Wrappers` (Option and Result), `Text` (string helpers, ASCII case mapping) and `Json` (a JSON value
model with the org.json accessors and JavaScript `String()`).

## Model

| member | source | states |
|---|---|---|
| MultiPointerGesture.CreatePointerCoords | bootstrap/src/io/appium/android/bootstrap/handler/MultiPointerGesture.java:44-61 | a sample without "touch" gives no coordinates; one with it gives its x and y with size 1 and pressure 1 |
| MultiPointerGesture.LastTouchIsLatest | bootstrap/src/io/appium/android/bootstrap/handler/MultiPointerGesture.java:127-131 | the repeated position is null exactly while no visited sample had a touch, and otherwise it is the coordinates of the latest sample that had one |
| MultiPointerGesture.StartBounds | bootstrap/src/io/appium/android/bootstrap/handler/MultiPointerGesture.java:118-125 | the input cursor never moves back and moves at most one sample per 5 ms step |
| MultiPointerGesture.AdvanceNeedsTime | bootstrap/src/io/appium/android/bootstrap/handler/MultiPointerGesture.java:118-125 | the cursor moves to the next sample iff the running time has passed the current sample's time and that sample is not the last one |
| MultiPointerGesture.BreakUsesAllSamples | bootstrap/src/io/appium/android/bootstrap/handler/MultiPointerGesture.java:119-122 | resampling stops only once the last sample is current and the running time has passed its time |
| MultiPointerGesture.WaitDecreases | bootstrap/src/io/appium/android/bootstrap/handler/MultiPointerGesture.java:118-134 | while the running time has not passed the current sample's time, the number of steps still to wait goes down, so the `while (true)` loop ends |
| MultiPointerGesture.GesturesToPointerCoords | bootstrap/src/io/appium/android/bootstrap/handler/MultiPointerGesture.java:96-137 | an empty gesture list fails on its first element. Otherwise there is one entry per 5 ms step, each step before the stop does not stop, and entry k is the latest touch among the samples visited up to step k (null before the first one) |
| MultiPointerGesture.GetPointerAction | bootstrap/src/io/appium/android/bootstrap/handler/MultiPointerGesture.java:156-163 | for an 8-bit event, the low eight bits give the event back and the bits above give the index; for an 8-bit index too, the masked action and the action index recover both |
| MultiPointerGesture.IndexOfFirst | bootstrap/src/io/appium/android/bootstrap/handler/MultiPointerGesture.java:186-195 | findIndex's answer is the first list position holding the id, and there is none iff no position holds it |
| MultiPointerGesture.FindIndex | bootstrap/src/io/appium/android/bootstrap/handler/MultiPointerGesture.java:186-195 | the loop returns that first position, or fails with "findIndex: touch id not found" when the finger is not in the list |
| MultiPointerGesture.MaxLenBounds | bootstrap/src/io/appium/android/bootstrap/handler/MultiPointerGesture.java:208-224 | the longest row bounds every row and is the length of one of them, so the loop runs for steps 0 to that length |
| MultiPointerGesture.Transitions | bootstrap/src/io/appium/android/bootstrap/handler/MultiPointerGesture.java:209-224 | the scan lists the fingers going down (an entry that is non-null at the step, with the step 0 or the previous entry null) and the fingers whose row length equals the step, both in id order, and reports more events iff some row is longer than the step |
| MultiPointerGesture.ReleasePhase | bootstrap/src/io/appium/android/bootstrap/handler/MultiPointerGesture.java:227-238 | each released finger sends UP if it is the only one down and POINTER_UP with its list index otherwise, then leaves both lists; a finger not down makes findIndex throw |
| MultiPointerGesture.MovePhase | bootstrap/src/io/appium/android/bootstrap/handler/MultiPointerGesture.java:241-246 | when fingers are down, each takes its row's entry at the step and one MOVE is sent; a row that has ended throws |
| MultiPointerGesture.AddPhase | bootstrap/src/io/appium/android/bootstrap/handler/MultiPointerGesture.java:257-262 | each new finger is appended with its entry and sends POINTER_DOWN with the new last index |
| MultiPointerGesture.PressPhase | bootstrap/src/io/appium/android/bootstrap/handler/MultiPointerGesture.java:248-263 | when no finger is down, the first new finger sends ACTION_DOWN and the others POINTER_DOWN |
| MultiPointerGesture.StepPhase | bootstrap/src/io/appium/android/bootstrap/handler/MultiPointerGesture.java:208-266 | one turn of the step loop runs the release, the move and the press in that order, and an exception ends the turn |
| MultiPointerGesture.InjectAll | bootstrap/src/io/appium/android/bootstrap/handler/MultiPointerGesture.java:229-262 | `success &=` makes every injection and keeps the AND of all answers |
| MultiPointerGesture.PerformMultiPointerGesture | bootstrap/src/io/appium/android/bootstrap/handler/MultiPointerGesture.java:197-269 | the events injected are those of the whole gesture from no finger down at step 0. The result is the AND of every injection's answer, or the exception that stopped it |
| MultiPointerGestureFacts.DownsExactly | bootstrap/src/io/appium/android/bootstrap/handler/MultiPointerGesture.java:213-220 | a finger is in the down list of step s iff its entry at s is non-null and, unless s is 0, its entry at s-1 is null; the list is in increasing id order |
| MultiPointerGestureFacts.UpsExactly | bootstrap/src/io/appium/android/bootstrap/handler/MultiPointerGesture.java:221-223 | a finger is in the up list of step s iff its row length is s; the list is in increasing id order |
| MultiPointerGestureFacts.PerformWellFormed | bootstrap/src/io/appium/android/bootstrap/handler/MultiPointerGesture.java:228-263 | every event injected is well formed. DOWN and UP carry exactly one finger and MOVE at least one. POINTER_DOWN names the newly added last pointer and POINTER_UP one of the pointers, both with at least two fingers down |
| MultiPointerGestureFacts.LiveAll | bootstrap/src/io/appium/android/bootstrap/handler/MultiPointerGesture.java:241-244 | the move succeeds iff every finger down still has an entry at the step |
| MultiPointerGestureFacts.IdsMoved | bootstrap/src/io/appium/android/bootstrap/handler/MultiPointerGesture.java:236-246 | the move keeps the fingers down and their order: the properties and coords lists stay in step |
| MultiPointerGestureFacts.PerformLiftsAll | bootstrap/src/io/appium/android/bootstrap/handler/MultiPointerGesture.java:203-268 | a gesture that ends without an exception leaves no finger down |
| MultiPointerGesture.Run | bootstrap/src/io/appium/android/bootstrap/handler/MultiPointerGesture.java:208-265 | an exception in the current step ends the run there, with exactly that step's events and contacts |
| MultiPointerGesture.Perform | bootstrap/src/io/appium/android/bootstrap/handler/MultiPointerGesture.java:203-268 | the gesture begins with step 0's events, and a gesture of no fingers injects nothing and succeeds |
| MultiPointerGestureFacts.FoundIfDown | bootstrap/src/io/appium/android/bootstrap/handler/MultiPointerGesture.java:186-195 | findIndex finds every finger that is down |
| MultiPointerGestureFacts.ReleaseDown | bootstrap/src/io/appium/android/bootstrap/handler/MultiPointerGesture.java:227-238 | when each finger is down once, releasing fingers that are down throws nothing, and exactly the released fingers leave the list |
| MultiPointerGestureFacts.PressAppends | bootstrap/src/io/appium/android/bootstrap/handler/MultiPointerGesture.java:248-263 | pressing fingers that have entries throws nothing and appends them to the list in id order |
| MultiPointerGestureFacts.StepKeepsContacts | bootstrap/src/io/appium/android/bootstrap/handler/MultiPointerGesture.java:208-266 | in a gesture where each row is null entries followed by non-null ones, a step throws nothing. Afterwards the fingers down are exactly those that went down earlier and whose row goes on, each once |
| MultiPointerGestureFacts.ContactGestureCompletes | bootstrap/src/io/appium/android/bootstrap/handler/MultiPointerGesture.java:197-269 | such a gesture runs without an exception and ends with every finger lifted |
| MultiPointerGestureFacts.ReleaseMissing | bootstrap/src/io/appium/android/bootstrap/handler/MultiPointerGesture.java:227-228 | releasing a finger that is not down throws |
| MultiPointerGestureFacts.StepKeepsOut | bootstrap/src/io/appium/android/bootstrap/handler/MultiPointerGesture.java:213-220 | a finger whose row has only null entries is never put down |
| MultiPointerGestureFacts.SilentFingerThrows | bootstrap/src/io/appium/android/bootstrap/handler/MultiPointerGesture.java:186-195 | a finger whose row has no non-null entry, an empty row included, makes the gesture throw: findIndex fails when its row ends, unless another finger's index error ends the gesture first |
| AndroidElementsHash.NextIdFresh | bootstrap/src/io/appium/android/bootstrap/AndroidElementsHash.java:63-67 | the id the next addition takes was never issued before, so the counter scheme never overwrites a cached element |
| AndroidElementsHash.ElementsHash.constructor | bootstrap/src/io/appium/android/bootstrap/AndroidElementsHash.java:54-57 | a new cache is empty with the counter at 0 |
| AndroidElementsHash.ElementsHash.AddElement | bootstrap/src/io/appium/android/bootstrap/AndroidElementsHash.java:63-69 | the counter goes up by one, the element takes the counter's decimal form as id, that id was not in the cache, and only that entry is added |
| AndroidElementsHash.ElementsHash.GetElement | bootstrap/src/io/appium/android/bootstrap/AndroidElementsHash.java:77-79 | an unknown key gives null; a known one gives the element stored under it, whose own id is that key |
| AndroidElementsHash.ElementsHash.GetElementBySelector | bootstrap/src/io/appium/android/bootstrap/AndroidElementsHash.java:91-124 | succeeds iff the object (the base's child, or from the root when the key names nothing) exists and, below a base, both bounds can be read and intersect. Success caches it under a fresh id. Failure throws ElementNotFoundException and leaves the cache as it was |
| AndroidElementsHash.ElementsHash.GetElements | bootstrap/src/io/appium/android/bootstrap/AndroidElementsHash.java:135-197 | a selector that matches `.*INSTANCE=\d+]$` gives its one object iff it exists. Otherwise round k caches the k-th match until the first round that finds nothing. The found elements take the next ids in order and are added to the cache |
| AndroidElementsHash.ElementsHash.Enumerate | bootstrap/src/io/appium/android/bootstrap/AndroidElementsHash.java:167-196 | the loop's result is exactly rounds 0 to n-1, all found. Round n finds nothing. From the root, rounds use index k when the selector holds "CLASS_REGEX=" and instance k otherwise; below a base they use the child with instance k |
| AndroidElementsHash.FoundInOrderAll | bootstrap/src/io/appium/android/bootstrap/AndroidElementsHash.java:171-195 | every found element at position i is the object of round i and exists on the screen |
| AndroidElementsHash.NumberedAll | bootstrap/src/io/appium/android/bootstrap/AndroidElementsHash.java:63-67 | the i-th found element carries id counter + i + 1 |
| AndroidElementsHash.StoredKeepsAndAdds | bootstrap/src/io/appium/android/bootstrap/AndroidElementsHash.java:63-69 | storing freshly numbered elements keeps every earlier entry, adds each found element under a new id, and adds nothing else |
| UiAutomatorParser.EndFrom | bootstrap/src/io/appium/android/bootstrap/utils/UiAutomatorParser.java:76-93 | the scan stops at the first ';' where the parenthesis count is zero, or at the end of the text, and passes no earlier such ';' |
| UiAutomatorParser.ParseOne | bootstrap/src/io/appium/android/bootstrap/utils/UiAutomatorParser.java:96-102 | a statement that UiScrollableParser recognises goes to the scrollable parser, every other one to the selector parser |
| UiAutomatorParser.ParseAll | bootstrap/src/io/appium/android/bootstrap/utils/UiAutomatorParser.java:45-102 | a success has one selector per statement, and a failing first statement is the result |
| UiAutomatorParser.UiAutomatorParser.constructor | bootstrap/src/io/appium/android/bootstrap/utils/UiAutomatorParser.java:29-34 | a new parser holds no text and no selectors |
| UiAutomatorParser.UiAutomatorParser.TrimWhitespace | bootstrap/src/io/appium/android/bootstrap/utils/UiAutomatorParser.java:56-58 | the text is trimmed of Java blanks (every character up to U+0020) at both ends, and nothing else changes |
| UiAutomatorParser.UiAutomatorParser.RemoveTailingSemicolon | bootstrap/src/io/appium/android/bootstrap/utils/UiAutomatorParser.java:60-64 | an empty text throws StringIndexOutOfBoundsException. Otherwise one trailing ';' is dropped, and a text without one is kept |
| UiAutomatorParser.UiAutomatorParser.ConsumeSemicolon | bootstrap/src/io/appium/android/bootstrap/utils/UiAutomatorParser.java:66-72 | an empty text throws an index error. A text not starting with ';' fails with "Expected ';' but saw '<c>'" and is kept. Otherwise exactly its first character is dropped |
| UiAutomatorParser.UiAutomatorParser.ConsumeStatement | bootstrap/src/io/appium/android/bootstrap/utils/UiAutomatorParser.java:74-105 | the text up to the first ';' at count zero is parsed, as a scrollable or as a plain selector by its own test, and appended to the selectors. The text keeps the rest, that ';' included; a sub-parser's error is the result |
| UiAutomatorParser.UiAutomatorParser.NextStatement | bootstrap/src/io/appium/android/bootstrap/utils/UiAutomatorParser.java:46-51 | one loop round parses the next statement of the prepared text's split: it either fails with the whole parse's error or consumes one more statement and shortens the text, which ends the loop |
| UiAutomatorParser.UiAutomatorParser.ConsumeAll | bootstrap/src/io/appium/android/bootstrap/utils/UiAutomatorParser.java:45-51 | the statement loop gives the selectors of every statement of the split, in order, or the first statement's error |
| UiAutomatorParser.UiAutomatorParser.Parse | bootstrap/src/io/appium/android/bootstrap/utils/UiAutomatorParser.java:36-54 | an empty input fails with the "Tried to parse an empty string" syntax error. Otherwise the text is trimmed and stripped of one trailing ';', then split into statements. The result is their selectors in order, or the first error |
| UiAutomatorParser.FirstSplit | bootstrap/src/io/appium/android/bootstrap/utils/UiAutomatorParser.java:78-93 | the statement end is the first split position, and is the end of the text when there is none |
| UiAutomatorParser.LeadingSemicolonKept | bootstrap/src/io/appium/android/bootstrap/utils/UiAutomatorParser.java:47-48 | trimming the rest after a statement keeps its ';' in front, so consumeSemicolon's check always passes |
| UiAutomatorParser.SplitAfterStatement | bootstrap/src/io/appium/android/bootstrap/utils/UiAutomatorParser.java:45-51 | after a statement is consumed, the statements still to come are those of the remaining text |
| UiAutomatorParser.ParseAllAppend | bootstrap/src/io/appium/android/bootstrap/utils/UiAutomatorParser.java:98-101 | a successful statement appends its selector to those before it |
| UiAutomatorParser.ParseAllFails | bootstrap/src/io/appium/android/bootstrap/utils/UiAutomatorParser.java:96-101 | a failing statement after successful ones is the result of the whole parse, whatever follows |
| UiAutomatorParserFacts.ParseAllEach | bootstrap/src/io/appium/android/bootstrap/utils/UiAutomatorParser.java:36-54 | a successful parse returns one selector per statement, each the sub-parser's result for that statement, in order |
| UiAutomatorParserFacts.ParseAllError | bootstrap/src/io/appium/android/bootstrap/utils/UiAutomatorParser.java:96-101 | a failed parse reports one statement's own sub-parser error |
| UiAutomatorParserFacts.ParseErrors | bootstrap/src/io/appium/android/bootstrap/utils/UiAutomatorParser.java:36-72 | parse fails only with the empty-input error, the index error of blank input, or a sub-parser's error. The "Expected ';'" error can never happen |
| UiAutomatorParserFacts.BlankInputIndexError | bootstrap/src/io/appium/android/bootstrap/utils/UiAutomatorParser.java:41-42 | input made only of blanks, not empty, fails reading the last character (an index error) rather than with a syntax error |
| UiAutomatorParserFacts.OneSemicolonDropped | bootstrap/src/io/appium/android/bootstrap/utils/UiAutomatorParser.java:60-64 | only one trailing ';' is dropped: a text ending in ";;" keeps its first one |
| UiAutomatorParserFacts.NoSplitBeforeParen | bootstrap/src/io/appium/android/bootstrap/utils/UiAutomatorParser.java:77-91 | before the first '(' the count stays negative, so no ';' there ends a statement |
| UiAutomatorParserFacts.DepthPrefix | bootstrap/src/io/appium/android/bootstrap/utils/UiAutomatorParser.java:78-93 | the count at a position depends only on the characters before it |
| UiAutomatorParserFacts.FirstStatementWhole | bootstrap/src/io/appium/android/bootstrap/utils/UiAutomatorParser.java:95 | the first statement holds no split position of its own |
| UiAutomatorParserFacts.StatementsWhole | bootstrap/src/io/appium/android/bootstrap/utils/UiAutomatorParser.java:74-105 | splitting any statement of a split again gives that statement alone |
| UiAutomatorParserFacts.QuotedParenCounts | bootstrap/src/io/appium/android/bootstrap/utils/UiAutomatorParser.java:77-91 | parentheses inside string literals are counted too: in `t(")");u` the ';' does not separate two statements |
| Command.AndroidCommand.constructor | bootstrap/src/io/appium/android/bootstrap/AndroidCommand.java:35-37 | the command holds the decoded object and no type yet |
| Command.AndroidCommand.FromJson | bootstrap/src/io/appium/android/bootstrap/AndroidCommand.java:35-39 | building a command succeeds iff "cmd" is a string naming "shutdown" or "action". A missing or non-string "cmd" throws JSONException, and any other name throws "Got bad command type: <name>" |
| Command.AndroidCommand.SetType | bootstrap/src/io/appium/android/bootstrap/AndroidCommand.java:125-133 | "shutdown" and "action" set the matching type; any other string throws "Got bad command type: <type>" and leaves the type as it was |
| Command.AndroidCommand.ActionName | bootstrap/src/io/appium/android/bootstrap/AndroidCommand.java:47-52 | action() fails iff "action" is not a string. For an element command it is the action string with its 8-character "element:" prefix removed, and otherwise the string as it is |
| Command.AndroidCommand.Params | bootstrap/src/io/appium/android/bootstrap/AndroidCommand.java:106-116 | params() fails iff "params" is not an object; otherwise the new table has exactly that object's keys with their values |
| Command.ShutdownIsNoElementCommand | bootstrap/src/io/appium/android/bootstrap/AndroidCommand.java:88-97 | a shutdown command is never an element command, so its action() is the raw action string |
| Command.ElementPrefixRoundTrip | bootstrap/src/io/appium/android/bootstrap/AndroidCommand.java:47-52 | an action command whose action is "element:" + name is an element command, and action() gives back name |
| AndroidCommandExecutor.RegisterHas | bootstrap/src/io/appium/android/bootstrap/AndroidCommandExecutor.java:31-68 | every name put in the map is in the map |
| AndroidCommandExecutor.RegisterOnly | bootstrap/src/io/appium/android/bootstrap/AndroidCommandExecutor.java:31-68 | every name in the map was put there by some registration, returned as a witness |
| AndroidCommandExecutor.RegisterLast | bootstrap/src/io/appium/android/bootstrap/AndroidCommandExecutor.java:31-68 | a name maps to the handler of the last put under that name, as HashMap.put replaces earlier values |
| AndroidCommandExecutor.HandlerTable | bootstrap/src/io/appium/android/bootstrap/AndroidCommandExecutor.java:33-68 | the static table holds exactly the names of its 34 registrations |
| AndroidCommandExecutor.Execute | bootstrap/src/io/appium/android/bootstrap/AndroidCommandExecutor.java:77-92 | an action() that throws gives JSON_DECODER_ERROR with "Could not decode action/params of command, please check format!"; an unregistered action gives UNKNOWN_COMMAND with "Unknown command: <action>" |
| AndroidCommandExecutor.DispatchesToOwnHandler | bootstrap/src/io/appium/android/bootstrap/AndroidCommandExecutor.java:81-91 | a registered action runs its own handler and no other: the result depends only on that handler. It is that handler's answer, or JSON_DECODER_ERROR when the handler throws JSONException |
| OrientationEnum.Value | bootstrap/src/io/appium/android/bootstrap/OrientationEnum.java:24-48 | every rotation's code is one of 0 to 3 |
| OrientationEnum.FromInteger | bootstrap/src/io/appium/android/bootstrap/OrientationEnum.java:26-38 | an integer decodes to a rotation iff it lies in 0 to 3, and that rotation's code is the integer; any other gives null |
| OrientationEnum.ValueRoundTrip | bootstrap/src/io/appium/android/bootstrap/OrientationEnum.java:24-48 | decoding a rotation's code gives the rotation back |
| OrientationEnum.ValuesDistinct | bootstrap/src/io/appium/android/bootstrap/OrientationEnum.java:24 | two rotations have the same code iff they are the same rotation |
| Orientation.IsWideScreenDevice | bootstrap/src/io/appium/android/bootstrap/handler/Orientation.java:167-174 | a device is not wide exactly when it is upright and taller than wide, or sideways and wider than tall; a square display or an unknown rotation counts as wide |
| Orientation.WideScreenKeptByTurning | bootstrap/src/io/appium/android/bootstrap/handler/Orientation.java:167-174 | turning the device, which swaps width and height on a quarter turn, does not change whether its natural orientation counts as landscape |
| Orientation.GetRotation | bootstrap/src/io/appium/android/bootstrap/handler/Orientation.java:72-98 | an unknown rotation makes the switch on null throw NullPointerException. Otherwise the answer is success with "LANDSCAPE" or "PORTRAIT": LANDSCAPE iff sideways differs from natural-landscape-required |
| Orientation.Requested | bootstrap/src/io/appium/android/bootstrap/handler/Orientation.java:119-122 | on a natural-landscape device the requested orientation is inverted; otherwise it is kept |
| Orientation.PlannedTurn | bootstrap/src/io/appium/android/bootstrap/handler/Orientation.java:124-147 | no turn is needed iff the device is already sideways exactly when landscape is asked. Landscape is reached by turning right from 0 and left from 180, and portrait by turning back to natural from 90 or 270. Every turn aims at a rotation of the requested kind |
| Orientation.HandleRotation | bootstrap/src/io/appium/android/bootstrap/handler/Orientation.java:109-163 | an unknown rotation throws. Otherwise the planned turn is made, or "Already in landscape/portrait mode." is answered with no polling. At most 20 polls of 100 ms are made, none showing the target before the last. The answer is "Rotation (<o>) successful." iff the last read shows the target, and "Set the orientation, but app refused to rotate." otherwise |
| Orientation.NaturalFlag | bootstrap/src/io/appium/android/bootstrap/handler/Orientation.java:49-51 | Boolean.valueOf(String.valueOf(v)) is true only for the boolean true or a string equal to "true" in any case |
| Orientation.Execute | bootstrap/src/io/appium/android/bootstrap/handler/Orientation.java:43-163 | without "orientation" the rotation is read. A non-string orientation fails its cast. Setting always answers a result: an exception inside becomes "Unable to rotate screen: <message>". Otherwise the planned turn is made: no turn answers that the device is already in the requested orientation; a turn polls at most MAX_POLLS times and answers success exactly when the last poll sees the target, or else the refusal after MAX_POLLS polls |
| Orientation.SetThenGet | bootstrap/src/io/appium/android/bootstrap/handler/Orientation.java:72-163 | once the display shows the rotation a set aimed at, or already showed, reading the orientation back with the same flag gives what was asked for |
| TheWatchers.Step | bootstrap/src/io/appium/android/bootstrap/utils/TheWatchers.java:34-46 | the alert line is logged iff the dialog is seen by the first look while no alert is pending. Afterwards the alert is pending iff it was pending or just raised, and the second look still sees the dialog |
| TheWatchers.Watchers.constructor | bootstrap/src/io/appium/android/bootstrap/utils/TheWatchers.java:25-32 | no alert is pending at first |
| TheWatchers.Watchers.Check | bootstrap/src/io/appium/android/bootstrap/utils/TheWatchers.java:34-46 | check moves the alert state one step and answers the new state |
| TheWatchers.StableObservation | bootstrap/src/io/appium/android/bootstrap/utils/TheWatchers.java:34-46 | when both looks agree, check answers exactly whether the dialog is present |
| TheWatchers.PresentDialogLogsOnce | bootstrap/src/io/appium/android/bootstrap/utils/TheWatchers.java:35-39 | while the dialog stays present, one alert is logged over any number of checks when none was pending, and none otherwise |
| TheWatchers.RearmsAfterDialogGone | bootstrap/src/io/appium/android/bootstrap/utils/TheWatchers.java:41-44 | once the dialog goes away, its next appearance is logged again |
| UnicodeEncoder.NeedsEncoding | bootstrap/src/io/appium/android/bootstrap/utils/UnicodeEncoder.java:50-62 | text with no code point above 0x7F and no '&' needs no encoding. Otherwise the first such code point decides: it needs encoding iff that point is outside Selenium's key block U+E000 to U+E040 |
| ConfiguratorHandler.Default | bootstrap/src/io/appium/android/bootstrap/handler/ConfiguratorHandler.java:40-73 | exactly the five known setting names have a default, and every default is non-negative |
| ConfiguratorHandler.Effective | bootstrap/src/io/appium/android/bootstrap/handler/ConfiguratorHandler.java:42-69 | a non-negative value is applied as given and a negative one becomes the setting's default, so the applied value is never negative |
| ConfiguratorHandler.RequestedValue | bootstrap/src/io/appium/android/bootstrap/handler/ConfiguratorHandler.java:33-36 | an absent "value" means -1. Any value that is not a 32-bit integer fails the (Integer) cast with ClassCastException |
| ConfiguratorHandler.ConfigName | bootstrap/src/io/appium/android/bootstrap/handler/ConfiguratorHandler.java:37-40 | a missing "config" is null and the switch throws NullPointerException on it; a non-string fails the (String) cast |
| ConfiguratorHandler.Configurator.constructor | bootstrap/src/io/appium/android/bootstrap/handler/ConfiguratorHandler.java:39 | the settings table starts empty |
| ConfiguratorHandler.Execute | bootstrap/src/io/appium/android/bootstrap/handler/ConfiguratorHandler.java:27-75 | below API 18 it answers "Device API version must >= 18!". A bad cast or a missing name throws, and an unknown name answers "'configurator' command must contain 'config' key!"; all of these set nothing. A known name gets its effective value set, only that one, and the value is answered |
| SystemBars.FractionValue | lib/commands/system-bars.js:104-107 | the digits after a decimal point are worth between 0 and 1 |
| SystemBars.ParseFloatInt | lib/commands/system-bars.js:104-107 | parseFloat reads an integer printed in decimal back as that integer |
| SystemBars.DropRun | lib/commands/system-bars.js:8 | a greedy character-class run: what is dropped is all in the class and what is left does not start with it |
| SystemBars.Coordinates | lib/commands/system-bars.js:8 | the four greedy `[0-9.-]+` groups of the frame pattern, one text per group |
| SystemBars.CoordinatesRoundTrip | lib/commands/system-bars.js:8 | integers printed with their separators are read back as their own decimal texts, whatever follows |
| SystemBars.FrameRoundTrip | lib/commands/system-bars.js:8 | the frame pattern reads a printed `mFrame=[l,t][r,b]` back as its four coordinates |
| SystemBars.FirstMatchFirst | lib/commands/system-bars.js:99 | `exec` answers the match at the first position that has one |
| SystemBars.FirstMatchNone | lib/commands/system-bars.js:99-100 | `exec` fails exactly when no position has a match |
| SystemBars.FindFrameFirst | lib/commands/system-bars.js:99 | the frame search finds the leftmost position where the frame pattern matches |
| SystemBars.FindFrameNone | lib/commands/system-bars.js:99-103 | the frame search fails only when the frame pattern matches nowhere |
| SystemBars.FindPrintedFrame | lib/commands/system-bars.js:99-107 | a frame printed at the start of the text is the one the search finds |
| SystemBars.FindVisibility | lib/commands/system-bars.js:108 | a visibility match is a non-empty run of hex digits |
| SystemBars.FindVisibilityFirst | lib/commands/system-bars.js:108 | the visibility search finds the leftmost match |
| SystemBars.FindVisibilityNone | lib/commands/system-bars.js:108-112 | the visibility search fails only when the pattern matches nowhere |
| SystemBars.VisibilityRoundTrip | lib/commands/system-bars.js:9 | the visibility pattern reads back the hex digits printed after `mViewVisibility=0x` |
| SystemBars.HexZeroIff | lib/commands/system-bars.js:113 | the hex value is 0 exactly when every digit is '0' |
| SystemBars.ParseWindowProperties | lib/commands/system-bars.js:96-115 | a missing frame throws "Cannot parse the frame size from '<name>' window properties". A frame without visibility throws "Cannot parse the visibility value from '<name>' window properties". It succeeds iff both are found in the joined lines |
| SystemBars.SpanPrinted | lib/commands/system-bars.js:104-107 | a printed start and end parse to the start and to their difference |
| SystemBars.MeasurePrinted | lib/commands/system-bars.js:104-113 | for integer coordinates, x and y are left and top, width and height are right - left and bottom - top, and visible means the hex value is VIEW_VISIBLE (0) |
| SystemBars.PrintedProperties | lib/commands/system-bars.js:96-115 | with the frame and visibility found in a window's lines, its properties are left, top, right - left and bottom - top. It is visible exactly when every visibility digit is '0' |
| SystemBars.TitleName | lib/commands/system-bars.js:7 | a title line's captured name is a non-empty run of `[\w-]` |
| SystemBars.TitleRoundTrip | lib/commands/system-bars.js:7 | a title printed as `<indent>Window #<n> Window{<hash> <kind> <name>}:` is recognised and its name captured |
| SystemBars.Lookup | lib/commands/system-bars.js:145 | a name is found iff some window entry carries it |
| SystemBars.Put | lib/commands/system-bars.js:137 | a known name keeps its place and a new one goes last |
| SystemBars.PutLookup | lib/commands/system-bars.js:137 | after the assignment the name holds the new lines and every other name what it held |
| SystemBars.NextLineNames | lib/commands/system-bars.js:133-147 | one line adds at most its own title to the window names, and the current window stays among them |
| SystemBars.GroupLinesSnoc | lib/commands/system-bars.js:133 | grouping one more line is one more loop turn |
| SystemBars.SomeLineGivesIff | lib/commands/system-bars.js:133-139 | the recursive "some line titles name" agrees with the quantified one |
| SystemBars.GroupedNames | lib/commands/system-bars.js:133-147 | the window names are exactly the names titled by some line, and the current window is among them |
| SystemBars.NoWindowsIffNoTitle | lib/commands/system-bars.js:133-152 | no window is found exactly when no line is a title |
| SystemBars.EveryLineIff | lib/commands/system-bars.js:133-147 | the recursive "every line" agrees with the quantified one |
| SystemBars.Stripped | lib/commands/system-bars.js:133 | trimming the trailing blanks keeps one line per line |
| SystemBars.NextLineTitle | lib/commands/system-bars.js:134-138 | a title line opens its window afresh, with no lines, and makes it current |
| SystemBars.NextLineJoins | lib/commands/system-bars.js:145-147 | a property line under an open window is appended to it, trailing blanks removed |
| SystemBars.GroupedUnderTitle | lib/commands/system-bars.js:133-147 | the property lines after a title, up to the next title or blank line, are that window's lines in order |
| SystemBars.BlankEndsGroup | lib/commands/system-bars.js:140-143 | a blank line closes the current window, and the lines after it join no window until the next title |
| SystemBars.ScanErrSticks | lib/commands/system-bars.js:156-162 | a property error on an earlier window is the error of the whole scan |
| SystemBars.BarKindsDisjoint | lib/commands/system-bars.js:157-160 | no name is both a status bar's and a navigation bar's |
| SystemBars.ScanStatusBarFound | lib/commands/system-bars.js:156-162 | a successful scan sets the status bar exactly when some window's name starts with "StatusBar" |
| SystemBars.ScanStatusBarLast | lib/commands/system-bars.js:156-162 | the status bar is then the properties of the last such window |
| SystemBars.ScanNavigationBarFound | lib/commands/system-bars.js:156-162 | a successful scan sets the navigation bar exactly when some window's name starts with "NavigationBar" |
| SystemBars.ScanNavigationBarLast | lib/commands/system-bars.js:156-162 | the navigation bar is then the properties of the last such window |
| SystemBars.ScanErrStep | lib/commands/system-bars.js:156-162 | the scan fails at the last window iff it failed before or that window is an unreadable bar |
| SystemBars.ScanErrIff | lib/commands/system-bars.js:156-162 | the scan fails exactly when some bar window's properties cannot be parsed |
| SystemBars.ParseWindows | lib/commands/system-bars.js:127-176 | the method computes exactly the dumpsys reading that SystemBarsMeaning characterises |
| SystemBars.SystemBarsOf | lib/commands/system-bars.js:127-176 | without any window title it fails with "Cannot parse any window information from the dumpsys output"; a success needs at least one window and a scan of the windows without error |
| SystemBars.GroupWindows | lib/commands/system-bars.js:131-148 | the grouping loop yields the windows of line-by-line grouping |
| SystemBars.GroupLine | lib/commands/system-bars.js:134-147 | one loop turn: a title opens its window, a blank line closes the current one, and another line joins the current window |
| SystemBars.ScanWindows | lib/commands/system-bars.js:156-162 | the scanning loop yields the scan of the windows in order |
| SystemBars.SystemBarsMeaning | lib/commands/system-bars.js:127-176 | with no title line it throws "Cannot parse any window information from the dumpsys output". Otherwise it fails iff some bar window is unreadable. Each bar is read from the last window of its kind, and a bar with no window is {visible: false, 0, 0, 0, 0} |
| LockHelpers.ValidateUnlockCapabilities | lib/commands/lock/helpers.js:75-111 | a capabilities object that passes is returned unchanged; every way it can fail is spelled out by the rule lemmas below |
| LockHelpers.RepeatIffNotDistinct | lib/commands/lock/helpers.js:91 | on a string of digits 1-9, `/([1-9]).*?\1/` matches exactly when some digit occurs twice |
| LockHelpers.FourOnOneLineIffLength | lib/commands/lock/helpers.js:99 | without line terminators, `/.{4,}/` matches exactly when there are at least four characters |
| LockHelpers.MissingTypeRejected | lib/commands/lock/helpers.js:76-79 | a missing capabilities object, or an unlock type that is not a non-empty string, throws "A non-empty unlock key value must be provided" |
| LockHelpers.DigitKeyRule | lib/commands/lock/helpers.js:81-84 | for pin, pinWithKeyEvent and fingerprint the key passes iff its trimmed text is a non-empty run of digits; otherwise the "must only consist of digits" error names the key |
| LockHelpers.PatternKeyRule | lib/commands/lock/helpers.js:85-95 | a pattern key passes iff its trimmed text is two to nine digits 1-9, all different; a key of the wrong shape fails with the shape message, and a well-shaped key with a repeated digit fails with the repeat message |
| LockHelpers.PasswordKeyRule | lib/commands/lock/helpers.js:96-103 | a password passes iff its untrimmed String() text has four characters on one line |
| LockHelpers.PasswordBlanksCount | lib/commands/lock/helpers.js:97-99 | blanks count towards a password: four spaces pass and three fail |
| LockHelpers.MissingPasswordKeyPasses | lib/commands/lock/helpers.js:99 | a password type with no key passes, since String(undefined) is "undefined" |
| LockHelpers.UnknownTypeRejected | lib/commands/lock/helpers.js:104-108 | any other non-empty unlock type throws "Invalid unlock type '<t>'" with the supported list |
| LockHelpers.ToCredentialType | lib/commands/lock/helpers.js:57-68 | pin and pinWithKeyEvent map to "pin", password to "password" and pattern to "pattern". Every other validated type, fingerprint included, throws "Unlock type '<t>' is not known" |
| LockHelpers.ValidatedTypesHaveCredentials | lib/commands/lock/helpers.js:57-111 | every unlock type that passes validation, except fingerprint, has a credential type |
| LockHelpers.EncodePassword | lib/commands/lock/helpers.js:143-145 | the encoded password holds no `\s` character |
| LockHelpers.EncodePasswordConcat | lib/commands/lock/helpers.js:143-145 | the encoding splits over concatenation |
| LockHelpers.EncodePasswordChar | lib/commands/lock/helpers.js:143-145 | a blank becomes "%s" and any other character stays as it is |
| LockHelpers.StringKeyToArrChars | lib/commands/lock/helpers.js:152-154 | stringKeyToArr yields the key's non-blank characters in order, one one-character string each |
| LockHelpers.StringKeyToArr | lib/commands/lock/helpers.js:152-154 | every element is a single character that is not blank |
| LockHelpers.NonBlanksOfTrimmed | lib/commands/lock/helpers.js:153 | trimming first removes none of the non-blank characters |
| LockHelpers.JsRem | lib/commands/lock/helpers.js:263-265 | JavaScript's `%` agrees with the mathematical remainder on non-negative keys and stays strictly between -b and b |
| LockHelpers.KeyCells | lib/commands/lock/helpers.js:254-270 | keys 1 to 9 lie left to right, top to bottom: column (k-1)%3+1 and row (k-1)/3+1 |
| LockHelpers.UnitGrid | lib/commands/lock/helpers.js:254-270 | with a unit piece from the origin, key k sits at its column and row |
| LockHelpers.PatternPresses | lib/commands/lock/helpers.js:286-328 | no key gives no action, and n keys give n + 1 actions before the release |
| LockHelpers.GetPatternActions | lib/commands/lock/helpers.js:278-338 | the answer is one touch pointer "patternUnlock" whose actions are the presses of the keys followed by pointerUp |
| LockHelpers.AxisMove | lib/commands/lock/helpers.js:296-320 | one axis's offset: one piece towards the target, two when the target is more than a piece away, none when level |
| LockHelpers.PressesFirst | lib/commands/lock/helpers.js:288-294 | the first key adds a move onto it, lasting TOUCH_DELAY_MS (1000), and a press |
| LockHelpers.PressesStep | lib/commands/lock/helpers.js:296-327 | each further key adds the move from the previous key's position towards it |
| LockHelpers.PatternShape | lib/commands/lock/helpers.js:288-292 | a pattern starts with the move to the first key and pointerDown |
| LockHelpers.PatternMoves | lib/commands/lock/helpers.js:296-327 | move k after the press goes from key k-1 towards key k |
| LockHelpers.OffsetExact | lib/commands/lock/helpers.js:296-320 | a difference of zero, one or two pieces is covered exactly |
| LockHelpers.UnitMove | lib/commands/lock/helpers.js:254-327 | with a unit piece from the origin, the move between two keys 1-9 lands on the second |
| LockHelpers.UnitPatternLands | lib/commands/lock/helpers.js:278-338 | with a unit piece from the origin every move of a pattern over keys 1-9 lands exactly on the next key |
| Intent.Pair | lib/commands/intent.ts:358-366 | a truthy option (set and non-empty) adds its flag and its value; otherwise nothing |
| Intent.IntentArg | lib/commands/intent.ts:355-357 | a truthy intent adds itself alone |
| Intent.IdentifierArgs | lib/commands/intent.ts:367-369 | the identifier adds "-i" and itself whenever it is not nil, even when empty |
| Intent.IntentArgs | lib/commands/intent.ts:352-419 | parseIntentSpec fails exactly when the extras are refused, with their error; otherwise the arguments begin with the intent, action, data, type, identifier, categories, component and package arguments |
| Intent.CategoryPairs | lib/commands/intent.ts:371-372 | an array of categories gives two arguments per name |
| Intent.CategoryPairsAt | lib/commands/intent.ts:371-372 | pair k of an array of categories is "-c" followed by name k |
| Intent.ItemArgs | lib/commands/intent.ts:387-413 | an accepted extra is an array of at least two items. A "sn" extra gives "--esn" and its key. Any other gives "--e<type>", its key and its value, passed through as they are |
| Intent.ExtrasErrSticks | lib/commands/intent.ts:387-413 | once an extra is refused, the later ones do not change the outcome |
| Intent.PushExtra | lib/commands/intent.ts:387-413 | one loop pass throws the extra's error or pushes its arguments after those already pushed |
| Intent.ParseIntentSpec | lib/commands/intent.ts:352-419 | the method builds exactly the argument list or error of the option-by-option reading below |
| Intent.NoOptsNoArgs | lib/commands/intent.ts:352 | with no options, `opts = {}`, there are no arguments |
| Intent.IntentFirst | lib/commands/intent.ts:355-357 | a given intent is the first argument |
| Intent.FlagsLast | lib/commands/intent.ts:415-417 | given flags are the last two arguments, "-f" and the flags |
| Intent.ExtrasBetween | lib/commands/intent.ts:352-419 | the extras' arguments come right after the options up to the package and before the flags |
| Intent.NonArrayExtrasRefused | lib/commands/intent.ts:383-386 | a truthy `extras` that is not an array throws "'extras' must be an array", whatever the other options |
| Intent.ExtrasFirstError | lib/commands/intent.ts:387-413 | the extras are refused exactly when one of them is, and the error is that of the first refused one |
| Intent.ExtrasCount | lib/commands/intent.ts:403-412 | accepted extras give two arguments each for "sn" and three otherwise |
| Intent.BlankKeyRefused | lib/commands/intent.ts:398-402 | a key that is empty for lodash, or a blank string, refuses the extra |
| Intent.UnknownTypeRefused | lib/commands/intent.ts:392-397 | a type outside the sixteen supported ones refuses the extra, naming the type |
| Intent.MissingValueRefused | lib/commands/intent.ts:405-409 | a typed extra other than "sn" that has no value is refused |
| Intent.ValueExtraArgs | lib/commands/intent.ts:410-412 | with a value it gives "--e<type>", the key and the value |
| Performance.Word | lib/commands/performance.ts:252 | the leading run of non-blank characters is a prefix, and is non-empty when the text starts with a non-blank |
| Performance.Words | lib/commands/performance.ts:252 | `line.trim().split(/\s+/).filter(Boolean)` gives no empty word |
| Performance.ValueDict.constructor | lib/commands/performance.ts:249 | the dictionary starts as `{totalPrivateDirty: ''}` |
| Performance.AssignLookup | lib/commands/performance.ts:154-209 | after a destructuring assignment a key holds what its last slot read, or what it held before |
| Performance.KeyIndexAbsent | lib/commands/performance.ts:154-209 | a key that no slot writes keeps its value |
| Performance.ParseMeminfoForApi19To29 | lib/commands/performance.ts:150-176 | the row parser of API 19-29 changes the dictionary exactly by its layout's destructuring, in place |
| Performance.ParseMeminfoForApiAbove29 | lib/commands/performance.ts:183-210 | the same for the layout of API 30 and later |
| Performance.NativeHeapRow19 | lib/commands/performance.ts:155-165 | on API 19-29 a Native Heap row sets nativePss, nativePrivateDirty, nativeHeapSize and nativeHeapAllocatedSize from entries 2, 3, 6 and 7, and no other key |
| Performance.NativeHeapRow30 | lib/commands/performance.ts:188-199 | on API 30 and later it also sets nativeRss from entry 6, and the heap sizes move to entries 7 and 8 |
| Performance.DalvikHeapRow30 | lib/commands/performance.ts:200-201 | on API 30 and later a Dalvik Heap row sets dalvikPss, dalvikPrivateDirty and dalvikRss from entries 2, 3 and 6 |
| Performance.TotalRow30 | lib/commands/performance.ts:206-208 | on API 30 and later a nine-entry TOTAL row sets totalPss, totalPrivateDirty and totalRss from entries 1, 2 and 5 |
| Performance.ShortTotalIgnored | lib/commands/performance.ts:172-174 | a TOTAL row counts only with exactly the full listing's number of entries, 8 or 9 by API level |
| Performance.OtherRowsIgnored | lib/commands/performance.ts:154-175 | rows of no known kind leave the dictionary as it was |
| Performance.DictAfterStep | lib/commands/performance.ts:251-258 | one more line updates the dictionary by the row parser of the API level |
| Performance.RowSlotsLayout | lib/commands/performance.ts:253-257 | the layout only tells API 30 and later from earlier levels |
| Performance.ValuesOf | lib/commands/performance.ts:261 | one value per header, each the dictionary's value under it |
| Performance.MemoryInfo | lib/commands/performance.ts:246-265 | a table lists exactly MEMORY_KEYS, with one value each; every failure is "No data from dumpsys" or "Unable to parse memory data: '<data>'" |
| Performance.GetMemoryInfo | lib/commands/performance.ts:245-265 | one attempt of the method gives exactly the reading of the output characterised by MemoryInfoMeaning |
| Performance.FeedLines | lib/commands/performance.ts:251-258 | the loop leaves the dictionary that feeding every line to its API level's parser gives |
| Performance.LastFullTotal | lib/commands/performance.ts:172-174 | the last full TOTAL row has the layout's length and a non-empty totalPrivateDirty entry |
| Performance.TotalKeyOnlyInTotalRows | lib/commands/performance.ts:172-208 | only full TOTAL rows write totalPrivateDirty |
| Performance.TotalFromLastTotalRow | lib/commands/performance.ts:249-258 | totalPrivateDirty comes from the last full TOTAL row, and without one it stays '' |
| Performance.MemoryInfoMeaning | lib/commands/performance.ts:229-267 | the table is answered exactly when there is output whose last full TOTAL row does not read "nodex" in totalPrivateDirty. It then lists every key's value in the order of MEMORY_KEYS, and empty output gives "No data from dumpsys" |
| Performance.BatteryInfo | lib/commands/performance.ts:528-545 | empty output gives "No data from dumpsys". The level is the parseInt of the text between the first and second ':', trimmed. It is answered iff that parse is not NaN, as one value under BATTERY_KEYS, and otherwise "Unable to parse battery data: '<data>'" |
| Performance.TrimPadded | lib/commands/performance.ts:537 | blanks in front of a run of digits trim away |
| Performance.LevelTextAfterColon | lib/commands/performance.ts:537 | with no second ':' the level text is everything after the first one |
| Performance.ParsePrinted | lib/commands/performance.ts:537 | parseInt reads a printed natural number back |
| Performance.BatteryRoundTrip | lib/commands/performance.ts:532-540 | a level printed after the first ':' is answered as it was printed |
| Performance.BatteryWithoutColon | lib/commands/performance.ts:537-543 | output without a ':' has no level and fails with the parse error |
| Network.BitOrBits | lib/commands/network.ts:39-41 | bit k of `a \| b` is set iff it is set in a or in b |
| Network.BitAndNotBits | lib/commands/network.ts:202 | bit k of `~b & a` is set iff it is set in a and not in b |
| Network.ZeroHasNoBit | lib/commands/network.ts:34 | 0 has no bit set |
| Network.Apply | lib/commands/network.ts:235-254 | each setter request changes only the flag it names; a broadcast changes none |
| Network.ReplayConcat | lib/commands/network.ts:182-223 | replaying two runs of requests is replaying the second after the first |
| Network.Device.constructor | lib/commands/network.ts:29-45 | a device starts with its radio flags and API level and no requests sent |
| Network.Device.Send | lib/commands/network.ts:235-254 | a setter request is logged and the named flag takes the new value |
| Network.SwitchAirplaneMode | lib/commands/network.ts:182-186 | airplane mode is set, and below API level 30 the change is broadcast |
| Network.AirplaneCalls | lib/commands/network.ts:183-186 | the requests set airplane mode to the value asked, never to the other one. They broadcast it iff the API level is below 30, and they touch neither Wi-Fi nor data |
| Network.AirplaneCallsState | lib/commands/network.ts:183-186 | the airplane requests change only the airplane flag, to the value asked |
| Network.Connection | lib/commands/network.ts:29-45 | the bitmask is below 8. Bit 0 is airplane mode, and bits 1 and 2 are Wi-Fi and data outside airplane mode; in airplane mode it is exactly AIRPLANE_MODE_MASK (1) |
| Network.ConnectionRoundTrip | lib/commands/network.ts:29-45 | outside airplane mode, decoding the bitmask gives the radio state back |
| Network.GetNetworkConnection | lib/commands/network.ts:29-45 | the bitmask read from the device is the one of its radio state |
| Network.Decode | lib/commands/network.ts:173-175 | bit 0 requests airplane mode, bit 1 Wi-Fi and bit 2 data |
| Network.EarlyResultBits | lib/commands/network.ts:199-202 | the early answer keeps the Wi-Fi and data bits read and carries the airplane flag read afterwards |
| Network.SetNetworkConnection | lib/commands/network.ts:167-226 | the device receives exactly the planned requests, only for what differs from the bitmask read first, and the answer is the bitmask of the resulting state |
| Network.SetRadios | lib/commands/network.ts:205-223 | the Wi-Fi request when it differs, then the data request unless airplane mode is requested or data already matches |
| Network.AirplaneChangedOnlyWhenDiffers | lib/commands/network.ts:182-193 | airplane mode is set iff the requested bit differs from the bit read, always to the requested value, and broadcast only below API 30 |
| Network.WifiToggledOnlyWhenDiffers | lib/commands/network.ts:195-212 | Wi-Fi is set iff the requested bit differs from the bit read, always to the requested value |
| Network.DataToggledOnlyWhenDiffers | lib/commands/network.ts:214-223 | data is left alone when airplane mode is requested. Otherwise it is set iff the requested bit differs from the bit read, always to the requested value |
| Network.EarlyExitResult | lib/commands/network.ts:195-203 | when Wi-Fi and data already match, the answer has the requested Wi-Fi and data bits and the airplane flag the device reports |
| Network.RequestReached | lib/commands/network.ts:167-226 | starting outside airplane mode, a request without airplane mode ends in exactly the requested radios and answers their bitmask |
| Network.AirplaneRequestReached | lib/commands/network.ts:167-226 | a request for airplane mode ends in airplane mode and answers a bitmask with bit 0 set |
| Network.RadioStepsKeepAirplane | lib/commands/network.ts:205-223 | the Wi-Fi and data steps do not change airplane mode |
| Network.CastArray | lib/commands/network.ts:123-125 | no argument means every supported service, and one name is a list of one |
| Network.Unsupported | lib/commands/network.ts:126 | `_.difference` keeps exactly the requested names that are not supported |
| Network.QueryConnectivity | lib/commands/network.ts:121-154 | the query fails iff some requested name is unsupported, with the pluralised message. Otherwise it reports exactly the requested services, each with the device's flag |
| Network.MobileGetConnectivity | lib/commands/network.ts:121-154 | the method answers that query against the device's radio state |
| Network.OneUnknownService | lib/commands/network.ts:127-138 | a single unknown name gives "Service name <n> is not known. Only the following services are suported: wifi,data,airplaneMode" |
| Network.DefaultQueryReportsAll | lib/commands/network.ts:123 | the default query reports all three flags |
| Network.GivenServices | lib/commands/network.ts:83-92 | the services queried are exactly those whose argument was given, all supported |
| Network.GivenServicesQuery | lib/commands/network.ts:83-93 | the setter's own query never fails and reports just the given services |
| Network.MobileSetConnectivity | lib/commands/network.ts:71-112 | with no argument it throws "Either one of [...] options must be provided" and changes nothing. Otherwise it succeeds, and the device receives the requests for every given flag that differs from what the query reported, airplane mode included |
| Network.SetDiffering | lib/commands/network.ts:94-111 | the setters for the differing flags are all started |
| Network.SetWifiAndData | lib/commands/network.ts:95-100 | the Wi-Fi and data setters start as soon as they are created |
| Network.SetConnectivityReached | lib/commands/network.ts:71-112 | after the corrected setter every given flag holds its requested value and the others are unchanged |
| Network.WrittenCallsReached | lib/commands/network.ts:94-111 | as written, the setter reaches the Wi-Fi and data values asked for but leaves airplane mode as it was |
| Network.AirplaneRequestIgnored | lib/commands/network.ts:101-110 | as written, a request to change only airplane mode sends nothing: the function pushed to the setters is never called by `B.all` |
| Network.ToggleData | lib/commands/network.ts:262-268 | mobile data is flipped with one request |
| Network.ToggleWiFi | lib/commands/network.ts:276-282 | Wi-Fi is flipped with one request |
| Network.ToggleFlightMode | lib/commands/network.ts:290-299 | airplane mode is flipped, and broadcast below API level 30 |
| Network.SetConnectivityCallsAsWritten | lib/commands/network.ts:93-111 | as written only Wi-Fi and data requests are sent, each exactly when its flag is given and differs from the flag reported |
| Network.SetConnectivityCalls | lib/commands/network.ts:93-111 | an airplane-mode request is sent exactly when the airplane flag is given and differs, asking for the given value; Wi-Fi and data requests as before |
| Context.DefaultWebviewName | lib/commands/context/exports.ts:166-168 | the default webview is "WEBVIEW_" followed by the auto webview name when it is non-empty, and by the app package otherwise |
| Context.WebviewPrefixIsChromedriver | lib/commands/context/exports.ts:391-393 | every "WEBVIEW_..." name is a Chromedriver context |
| Context.NativeIsNotChromedriver | lib/commands/context/exports.ts:391-393 | NATIVE_APP is never a Chromedriver context |
| Context.TargetContext | lib/commands/context/exports.ts:57-63 | no name means NATIVE_APP, "WEBVIEW" means the default webview, and any other name is kept |
| Context.WebviewContexts | lib/commands/context/exports.ts:107-113 | the Chrome-session flag of the options wins over the driver's. A Chrome session lists only CHROMIUM; otherwise the webview names of the mapping are listed, checking for pages unless told not to |
| Context.ContextNamesNonEmpty | lib/commands/context/exports.ts:107-116 | no listed context has an empty name |
| Context.NotifyEffects | lib/commands/context/exports.ts:399-406 | the corrected notification emits two events naming the current context: the current method under the lower-cased automation name, then the deprecated method |
| Context.NotifyEffectsAsWritten | lib/commands/context/exports.ts:403 | as written, the first event's domain is the context name and its context is the automation name, while the second event is right |
| Context.NotifyEffectsAgree | lib/commands/context/exports.ts:399-406 | in the corrected notification both events give the context the same type, NATIVE iff it is NATIVE_APP |
| Context.NativeAnnouncedAsWeb | lib/commands/context/exports.ts:403 | as written, switching to NATIVE_APP under uiautomator2 announces a WEB context named "uiautomator2" in the first event while the second says NATIVE |
| Context.StopsAllStep | lib/commands/context/exports.ts:371-382 | one more stop keeps the record of one stop per stopped session |
| Context.StopSessions | lib/commands/context/exports.ts:371-382 | the loop stops every session exactly once and no other |
| Context.Driver.constructor | lib/commands/context/exports.ts:33-37 | a new driver has no context set, no contexts listed, no Chromedriver session and no event |
| Context.Driver.GetCurrentContext | lib/commands/context/exports.ts:33-37 | the current context is the one set when it is non-empty, and NATIVE_APP otherwise |
| Context.Driver.AssignContexts | lib/commands/context/exports.ts:107-116 | the contexts are NATIVE_APP followed by the webview contexts, and are stored and returned |
| Context.Driver.SuspendChromedriverProxy | lib/commands/context/exports.ts:335-340 | the Chromedriver and both proxy functions are cleared and proxying is off |
| Context.Driver.StartChromedriverProxy | lib/commands/context/exports.ts:233-330 | an existing session for the context is reused; otherwise one is started and kept under the context. Either way the proxy is on, to that session |
| Context.Driver.StopChromedriverProxies | lib/commands/context/exports.ts:369-383 | proxying is off, every session is stopped once, and none is kept |
| Context.Driver.SwitchContext | lib/commands/context/exports.ts:125-150 | the BiDi proxy URL is cleared. A Chromedriver context starts or reuses its proxy. Leaving a Chromedriver context stops every session when recreateChromeDriverSessions is set, and only suspends the proxy otherwise. Anything else throws "Didn't know how to handle switching to context '<name>'" and changes nothing else |
| Context.Driver.NotifyBiDiContextChange | lib/commands/context/exports.ts:399-406 | the two context-update events of the current context are emitted, in the corrected argument order |
| Context.Driver.SetContext | lib/commands/context/exports.ts:56-79 | staying in the current context does nothing. Otherwise the contexts are listed again, and a target not among them throws NoSuchContextError. A switch that fails leaves the context; a successful one sets it and ends with the two notification events |
| Context.Driver.EnterContext | lib/commands/context/exports.ts:76-78 | switching to a listed context succeeds iff it, or the context left, is a Chromedriver context; it then becomes current and is announced |
| ContextHelpers.WebviewNames | lib/commands/context/helpers.js:264-277 | at most one name per mapping entry, in mapping order |
| ContextHelpers.ParseWebviewNames | lib/commands/context/helpers.js:256-282 | a Chrome session yields exactly [CHROMIUM]; otherwise the names of the entries that have pages (when the check is on, the default) and a non-empty webviewName |
| ContextHelpers.WebviewNamesConcat | lib/commands/context/helpers.js:266-277 | the names of a concatenated mapping are the names of each part, in order |
| ContextHelpers.WebviewNamesMember | lib/commands/context/helpers.js:266-277 | a name is listed if and only if some kept entry carries it |
| ContextHelpers.WebviewNamesNonEmpty | lib/commands/context/helpers.js:274-276 | no listed name is empty |
| ContextHelpers.SkipWithoutPages | lib/commands/context/helpers.js:267-273 | with the page check on, an entry without pages adds nothing |
| ContextHelpers.Member | lib/commands/context/helpers.js:155-158 | optional chaining reads a key only of a present object, and otherwise gives undefined |
| ContextHelpers.JsOr | lib/commands/context/helpers.js:155-158 | `a \|\| b` is a when a is truthy, and b otherwise |
| ContextHelpers.Put | lib/commands/context/helpers.js:192-193 | writing undefined removes the key; writing a value sets it |
| ContextHelpers.PackageStep | lib/commands/context/helpers.js:155-166 | a truthy package from chromeOptions, appPackage or the webview info is used; no activity or process is set yet |
| ContextHelpers.ExplicitStep | lib/commands/context/helpers.js:167-177 | chromeAndroidPackage overrides the package only when truthy; a truthy chromeAndroidActivity sets the activity |
| ContextHelpers.BrowserStep | lib/commands/context/helpers.js:178-180 | a chromium-webview browser (any case) takes the app activity; otherwise nothing changes; the package never changes |
| ContextHelpers.ChromeStep | lib/commands/context/helpers.js:184-194 | a Chrome package drops activity and process; bare "chrome" becomes com.android.chrome; other packages leave the options untouched |
| ContextHelpers.Precomputed | lib/commands/context/helpers.js:153-196 | the computed options always carry the adb device id as androidDeviceSerial, and hold no key but the five Chromedriver options the driver computes |
| ContextHelpers.UserOptions | lib/commands/context/helpers.js:216-228 | never fails unless chromeOptions is an object; without truthy Arguments an object's fields pass unchanged; with them, Arguments is gone from the result |
| ContextHelpers.CreateChromedriverCaps | lib/commands/context/helpers.js:152-246 | fails exactly when spreading Arguments or args throws; otherwise the options are the user's options not named after an Object.prototype member, under the computed ones, with pageLoadStrategy when truthy and the computed logging preferences |
| ContextHelpers.FindPackage | lib/commands/context/helpers.js:155-166 | yields exactly the options PackageStep specifies |
| ContextHelpers.ApplyExplicit | lib/commands/context/helpers.js:167-177 | yields exactly the options ExplicitStep specifies |
| ContextHelpers.ApplyBrowser | lib/commands/context/helpers.js:178-180 | yields exactly the options BrowserStep specifies |
| ContextHelpers.ApplyChrome | lib/commands/context/helpers.js:184-194 | yields exactly the options ChromeStep specifies |
| ContextHelpers.LoggingPrefs | lib/commands/context/helpers.js:198-214 | without performance logging and without an object among loggingPrefs and chromeLoggingPrefs there are no preferences; with performance logging there always are, an object whose performance is ALL |
| ContextHelpers.IndexedEntries | lib/commands/context/helpers.js:213 | the own properties of an array or a string hold item i under the decimal text of i |
| ContextHelpers.ComputeLoggingPrefs | lib/commands/context/helpers.js:198-214 | yields exactly the preferences LoggingPrefs specifies |
| ContextHelpers.MergeUserOptions | lib/commands/context/helpers.js:227-234 | the loop copies exactly the user options whose keys read as undefined on the computed options (neither computed nor inherited from Object.prototype): the result is those user options overridden by the computed ones |
| ContextHelpers.ConstructorOptionDropped | lib/commands/context/helpers.js:153-229 | a user "constructor" option is never copied: the computed options inherit one |
| ContextHelpers.StringOptionsIndexed | lib/commands/context/helpers.js:228 | a string chromeOptions contributes each character under its index |
| ContextHelpers.DeviceSerialAlways | lib/commands/context/helpers.js:196 | no user option can override the device serial |
| ContextHelpers.UserFillsOnlyMissing | lib/commands/context/helpers.js:228-234 | a user key is in the result iff the driver computed it or it names no Object.prototype member; a computed key keeps the computed value, and a key undefined on the computed options takes the user's value |
| ContextHelpers.ChromePackageDropsActivity | lib/commands/context/helpers.js:184-194 | a known Chrome package or bare "chrome" leaves no activity and no process, and "chrome" is renamed to com.android.chrome |
| ContextHelpers.ChromiumWebviewActivity | lib/commands/context/helpers.js:178-180 | a chromium-webview browser's activity is the app activity unless the package is Chrome's |
| ContextHelpers.PerformanceLoggingMerged | lib/commands/context/helpers.js:206-214 | performance logging sets performance: ALL and keeps every other given preference |
| ContextHelpers.PerformanceLoggingIndexed | lib/commands/context/helpers.js:198-214 | performance logging over a string chromeLoggingPrefs (with an object loggingPrefs) keeps each character under its index beside performance: ALL |
| ContextHelpers.PerformanceLoggingAlone | lib/commands/context/helpers.js:211-213 | without other preferences, performance logging gives exactly {performance: ALL} |
| ContextHelpers.ArgumentsMerged | lib/commands/context/helpers.js:216-220 | Arguments is appended after args and removed |
| BidiModels.ToContextUpdatedEvent | lib/commands/bidi/models.ts:11-19 | the event carries the method and the context name, and its type is NATIVE exactly for NATIVE_APP |
| BidiModels.MakeContextUpdatedEvent | lib/commands/bidi/models.ts:21-23 | the event is the domain's context-updated event for the name, typed WEB exactly when the name is not NATIVE_APP |
| BidiModels.MakeObsoleteContextUpdatedEvent | lib/commands/bidi/models.ts:28-30 | the deprecated event names the context with the same NATIVE/WEB rule |
| BidiModels.EventsAgree | lib/commands/bidi/models.ts:21-30 | the current and the deprecated event agree on name and type |
| BidiModels.AdjustLogLevel | lib/commands/bidi/models.ts:48-59 | the result is always a BiDi level: the lower-cased level when it is debug, info, warn or error, and info otherwise |
| BidiModels.AdjustLogLevelIdempotent | lib/commands/bidi/models.ts:48-59 | adjusting an adjusted level changes nothing |
| BidiModels.AdjustKnownLevel | lib/commands/bidi/models.ts:49-55 | a known level in any letter case comes out lower-cased |
| BidiModels.MakeLogEntryAddedEvent | lib/commands/bidi/models.ts:32-46 | the event keeps the record's message and timestamp, adjusts its level, uses an empty realm, and carries the given context and type |
| BidiModels.LogEventStable | lib/commands/bidi/models.ts:32-59 | re-emitting an event's own level, text and time reproduces the event |
| FileActions.NormalizeSegments | lib/commands/file-actions.ts:283 | after normalisation only plain name segments remain, and never more than were given |
| FileActions.NormalizeAbsolute | lib/commands/file-actions.ts:283 | a normalised absolute path starts with the root |
| FileActions.Resolve | lib/commands/file-actions.ts:283 | resolving against an absolute base gives an absolute path |
| FileActions.NormalizeNames | lib/commands/file-actions.ts:283 | segments that are all plain names survive normalisation unchanged |
| FileActions.NormalizeLeadingEmpty | lib/commands/file-actions.ts:283 | the root's empty leading segment does not change the normal form |
| FileActions.SplitJoinSegments | lib/commands/file-actions.ts:283 | splitting joined slash-free segments at slashes gives them back |
| FileActions.NormalRootedNames | lib/commands/file-actions.ts:283 | a rooted path of plain names is already normal |
| FileActions.NormalizeIdempotent | lib/commands/file-actions.ts:283 | normalising twice is the same as normalising once |
| FileActions.ResolveNames | lib/commands/file-actions.ts:283 | resolving plain names under a base of plain names appends them to the base |
| FileActions.ParseContainerPath | lib/commands/file-actions.ts:275-284 | a parsed path inside the container is absolute; a failure is the error naming the given path |
| FileActions.ContainerPathAccepted | lib/commands/file-actions.ts:10 | a path matching ^@([^/]+)/(.+) yields the package before the first slash and the rest of the line resolved under /data/data/<package> |
| FileActions.ContainerPathRejected | lib/commands/file-actions.ts:10 | a path matching the pattern at no slash has no groups |
| FileActions.ContainerPathRefused | lib/commands/file-actions.ts:276-282 | without a match parsing fails with the message naming the path |
| FileActions.RelativePart | lib/commands/file-actions.ts:10 | the second group never holds a line terminator, because `.` does not match one |
| FileActions.MatchAtFirstSlash | lib/commands/file-actions.ts:10 | the separating slash of a match is the first slash after the marker |
| FileActions.NoSlashRejected | lib/commands/file-actions.ts:10 | "@" followed by a package and no slash is refused |
| FileActions.ContainerPathOfNames | lib/commands/file-actions.ts:275-284 | "@pkg/a/b" of plain names parses to pkg and /data/data/pkg/a/b |
| FileActions.ContainerResolvesNames | lib/commands/file-actions.ts:283 | plain names resolve under the package's container to themselves appended to it |
| FileActions.EscapePath | lib/commands/file-actions.ts:325-327 | the escaped path is empty only for an empty path, never starts with a bare quote, and is the path itself when it has no quote |
| FileActions.UnescapeEscape | lib/commands/file-actions.ts:325-327 | escaping loses nothing: unescaping gives the path back |
| FileActions.EscapedQuotesFollowBackslash | lib/commands/file-actions.ts:325-327 | every quote in an escaped path follows a backslash |
| FileActions.Basename | lib/commands/file-actions.ts:44 | the base name holds no slash |
| FileActions.Dirname | lib/commands/file-actions.ts:126 | the directory of an absolute path is absolute |
| FileActions.DirnameBasename | lib/commands/file-actions.ts:121-126 | an absolute path is its directory name, a slash and its base name |
| FileActions.TmpDestination | lib/commands/file-actions.ts:44 | the temporary copy lies directly under /data/local/tmp, with no further slash |
| FileActions.Transfer | lib/commands/file-actions.ts:62 | a transfer succeeds exactly when adb reports no error |
| FileActions.PullFile | lib/commands/file-actions.ts:28-72 | a path ending in a slash is refused as a folder, exactly then, before any request |
| FileActions.PushFile | lib/commands/file-actions.ts:91-159 | a path ending in a slash is refused as a folder, exactly then, before any request |
| FileActions.ScanMedia | lib/commands/file-actions.ts:291-322 | one request: the settings app's scan from API level 29, exactly then, and below it a shell broadcast whose data is file://<path> |
| FileActions.FsCheck | lib/commands/file-actions.ts:333-346 | one shell argument: the test `[ -<op> ` on the quoted path, ending with `] && echo __PASS__`, behind `run-as <package>` when a package is given |
| FileActions.DeleteTarget | lib/commands/file-actions.ts:220-227 | an ordinary path is deleted as it is; a container path that does not parse gives the parse error |
| FileActions.MobileDeleteFile | lib/commands/file-actions.ts:192-203 | a path ending in a slash is refused, exactly then, with the message that names a file, before any request |
| FileActions.DeleteFileOrFolder | lib/commands/file-actions.ts:214-265 | a malformed container path fails with that error and no request, exactly then; no failure is an invalid-argument error; a true or false answer is always the outcome of the last request, a presence test of the target |
| FileActions.DeleteAt | lib/commands/file-actions.ts:229-264 | once the path is parsed, a true or false answer always comes from a final presence test of the target, and no failure is an argument error |
| FileActions.PullPlainPath | lib/commands/file-actions.ts:60-71 | an ordinary path is pulled with a single transfer whose outcome is the result |
| FileActions.PullFromContainer | lib/commands/file-actions.ts:39-71 | a container pull succeeds exactly when both run-as steps, the transfer and the cleanup do; a failing run-as step gives the container-access error and nothing is pulled; after the copy, adb pulls the temporary file and then removes it, and a failing removal replaces the outcome with its error |
| FileActions.PushPlainPath | lib/commands/file-actions.ts:143-150 | an ordinary path is pushed directly, and a media scan follows exactly when the push succeeds |
| FileActions.PushToContainer | lib/commands/file-actions.ts:115-158 | a container push ends by removing the temporary copy, succeeds exactly when all five steps and the removal do, and otherwise fails with the removal's error if it failed, or else the container-access error |
| FileActions.DeleteOutcome | lib/commands/file-actions.ts:241-263 | false exactly when the item is absent; removal exactly when it is present and of the expected kind; a failing removal is the last request and gives its error; true exactly when the removal succeeded and the item was gone afterwards |
| FileActions.DeleteUnlistable | lib/commands/file-actions.ts:229-239 | a container that cannot be listed gives the container-access error after the listing and nothing else |
| FileActions.FolderRemovalDistinct | lib/commands/file-actions.ts:253-257 | a folder removal differs from every test, listing and file removal |
| FileActions.MobileDeleteFileOnlyFiles | lib/commands/file-actions.ts:246-256 | mobileDeleteFile never reports a non-folder and never removes recursively: its folder branch is dead code |
| Utils.RequireAll | lib/utils.ts:21-26 | succeeds exactly when every name is a key, returning the same object; otherwise it reports the first missing name |
| Utils.RequireArgs | lib/utils.ts:20-27 | a single name is checked as a one-name list; success exactly when all names are present, returning the options unchanged |
| Utils.RequireConcat | lib/utils.ts:21-25 | checking two lists is checking the first, then the second |
| Utils.ParseArray | lib/utils.ts:34-47 | a text that parses as a JSON array gives its items; any other string gives a list of itself; anything else is refused with the message naming the capability |
| Utils.SingleArrayCap | lib/utils.ts:37-46 | an array holding one non-JSON name is refused, because String() joins it into its bare text |
| Utils.ColorCodeAt | lib/utils.ts:11 | a match starts with ESC and "[" and ends with "m" |
| Utils.CodeChars | lib/utils.ts:11 | between the bracket and the end a colour code holds only digits, ";" and "m" |
| Utils.StripColorCodes | lib/utils.ts:80 | stripping never lengthens the text |
| Utils.StripKeepsPlain | lib/utils.ts:80 | stripping removes colour-code characters only: every other character is kept, in order |
| Utils.StripWithoutEscape | lib/utils.ts:80 | text without an escape character is unchanged |
| Utils.StripLeadingCode | lib/utils.ts:80 | a leading ESC[31m is removed |
| Utils.ResetCodeAt | lib/utils.ts:11 | ESC[0m at the start is a four-character code |
| Utils.StripSinglePass | lib/utils.ts:80 | the replace is a single pass: removing an inner code can leave a new code behind |
| Utils.ToLogRecord | lib/utils.ts:92-98 | timestamp and message are kept; the level defaults to "ALL" |
| Utils.PrefixedMessage | lib/utils.ts:77 | the message gets "[prefix] " in front exactly when the prefix is non-empty |
| Utils.NativeLogEntryToSeleniumEntry | lib/utils.ts:76-82 | the message is the prefixed text with colour codes stripped; the time is the entry's or else now; the level is always "ALL" |
| Utils.NativeEntryText | lib/utils.ts:76-82 | a plain line keeps its prefixed text, and a coloured one loses only colour-code characters |
| MediaProjection.AdjustMediaExtension | lib/commands/media-projection.ts:176-178 | the result ends with ".mp4" in some letter case and extends the name by at most that; it equals the name exactly when the lower-cased name already ends with ".mp4" |
| MediaProjection.AdjustIdempotent | lib/commands/media-projection.ts:176-178 | adjusting twice is adjusting once |
| MediaProjection.UpperCaseExtensionKept | lib/commands/media-projection.ts:177 | "clip.MP4" is kept, because the test is on the lower-cased name |
| MediaProjection.OtherExtensionExtended | lib/commands/media-projection.ts:177 | "clip.avi" becomes "clip.avi.mp4" |

## Left out

- I/O: sockets, the UiAutomator bridge, the clock beyond poll counts, temporary files and local file contents are left out. Every value they supply is a parameter of the model.
- Concurrency: the order in which `B.all` runs its promises is not modelled. The requests are modelled in the order they are created.
- MultiPointerGesture: the resampler's floating-point time accumulation is left out. The model's running time is exactly k/200 s; events are injected through a parameter that reports success.
- AndroidCommandExecutor.HandlerTable: the table has 34 names, but the model does not prove that count or that the names are pairwise distinct. It proves that lookup finds the last registration of a name. Handlers other than those modelled are abstract and given as a parameter.
- UiAutomatorParser: UiSelectorParser and UiScrollableParser are not part of this model. They appear as abstract sub-parsers passed in as a parameter.
- UiAutomatorParser: a whitespace-only locator is modelled as written: the code reads `charAt(-1)`, and the model returns an index-out-of-bounds error.
- ConfiguratorHandler: a missing configuration key is modelled as written: the Java switch on a null string throws a NullPointerException, and the model returns that error.
- UnicodeEncoder.encode is left out because it needs the foreign IMAP UTF-7 charset. UnicodeEncoder.NeedsEncoding reads text as a sequence of code points, so an unpaired surrogate in the Java string is not modelled.
- Json: numbers are integers only (floating point left out). Json.GetString refuses non-string values, where org.json coerces them.
- SystemBars: `parseFloat` of a bar's size is read as an exact rational, not as a double, so rounding is not modelled.
- Strings: a Dafny string is a sequence of Unicode scalar values, while JavaScript and Java count UTF-16 code units (`length`, `charAt`, `split`, and regular expressions such as `/.{4,}/`). Text with characters outside the Basic Multilingual Plane is therefore measured differently: a password of two such characters passes `/.{4,}/` in JavaScript and fails in the model.
- Text: `equalsIgnoreCase`, `_.toLower` and `toLowerCase` are ASCII-only.
- SystemBars: the visible flag follows system-bars.js: visible exactly when mViewVisibility is 0x0. The repository's test file systems-bars-specs.js (lines 59-103) expects the opposite. JavaScript's ordering of integer-like object keys in the window dictionary is not modelled. The `adb shell dumpsys` call of getSystemBars and mobilePerformStatusBarCommand are left out.
- LockHelpers.ToCredentialType: the JavaScript object lookup returns an inherited member for names such as "constructor" or "toString" instead of throwing. The model throws for them; such names never pass validateUnlockCapabilities, so the gap is unreachable through the unlock flow.
- LockHelpers.KeyPosition: positions, pieces and offsets are exact reals, while helpers.js:263-265 computes them in IEEE doubles before `Math.round`. A sum that lands near a half may round differently on the device. LockHelpers.Round itself matches `Math.round`, halves going up.
- LockHelpers: the keys of the pattern positions are integers, so `_.parseInt` of string keys is not modelled. fastUnlock, waitForUnlock and the other asynchronous unlock flows over adb are left out.
- Performance: getMemoryInfo's retry loop is modelled as a single attempt over the command output it is given. The API level and the adb output are parameters. CPU and network-traffic information are left out.
- Network: the adb and settings-app requests are modelled as a log of calls (Network.Device.Send). isWifiOn is the device's flag. mobileGetConnectivity reads the flags from the device record.
- Network: the device is idealised: each request changes only its own flag, so turning airplane mode on does not switch Wi-Fi or data off. Network.RequestReached, Network.AirplaneRequestReached and Network.RadioStepsKeepAirplane rely on this.
- Orientation: the clock is a poll count: one poll every 100 ms, a 2000 ms timeout, at most 20 polls.
- Orientation: the runtime's exception messages (`e.getMessage()` in "Unable to rotate screen: " + message) are stood in for by the exception's name, "NullPointerException" or "ClassCastException"; their real text is not modelled.
- Context: startChromedriverProxy's deep cloning of options, its stop listeners, onChromedriverStop and the window-handle queries are left out. The order in which stopChromedriverProxies visits sessions is not modelled (sessions are a set). Webview discovery (getWebViewsMapping) and the device queries behind mobileGetContexts are parameters.
- Context: switching from an unset context to NATIVE_APP is an error, as in the code, because neither side is a Chromedriver context.
- ContextHelpers: log messages are left out, including the list of protected option names. `_.toLower` is ASCII-only.
- ContextHelpers.UserOptions: the order in which `_.toPairs` lists the user options is not modelled, since each key is copied at most once and the result does not depend on it. A non-iterable spread fails with a stand-in message (ContextHelpers.TYPE_ERROR), not the engine's own wording.
- FileActions: mobileDeleteFile's refusal message names the wrong kind of item ("points to a folder and not to a file"). It is modelled as written, as FileActions.FileGiven.
- FileActions: in mobileDeleteFile, `expectsFile` is always true, so the folder branch of deleteFileOrFolder is dead code (FileActions.MobileDeleteFileOnlyFiles).
- FileActions: the base64 content of pullFile and pushFile, the local temporary file, and pullFolder (zip of a pulled folder) are left out, because they are I/O.
- FileActions: scanMedia catches and logs its own failures, so the media scan has no outcome in the model. scanMedia's API level is a parameter. The `rm` requests are modelled with their failures: the removal in deleteFileOrFolder (rmError) and the removal of the temporary copy in the `finally` blocks of pullFile and pushFile (cleanupError), whose error replaces the outcome.
- FileActions.EscapePath: the model does not interpret the shell. In a POSIX shell a backslash inside single quotes is an ordinary character, so a quote in a path still ends the quoted word in the commands sent through run-as. EscapedQuotesFollowBackslash states only where the backslashes go, not that the command is safe.
- FileActions.Basename and FileActions.Dirname are `path.posix.basename`/`dirname` for resolved paths only, which is the only way the code uses them.
- Utils: parseArray converts its argument with `String()`, so an array such as ["a","b"] becomes the text "a,b" and is refused unless that text is JSON (Utils.SingleArrayCap). `JSON.parse` is a parameter.
- Utils: the colour-code removal is a single left-to-right pass, as a global replace is (Utils.StripSinglePass). The model does not claim that the result is free of colour codes.
- Utils.NativeLogEntryToSeleniumEntry: the entry's own level is not passed on, so the result's level is always "ALL", as in the code. `Date.now()` is a parameter.
- Utils.RequireArgs: lodash `_.has` also accepts deep paths such as "a.b"; the model checks top-level keys only.
- removeAllSessionWebSocketHandlers in utils.ts is server plumbing and is not part of this model.

## Findings

| source | as written | input that shows it | evidently intended | confidence | as-written member | corrected member |
|---|---|---|---|---|---|---|
| lib/commands/network.ts:101-111 | the airplane-mode setter is an async function placed in the list given to `B.all`, which resolves a function as a plain value without calling it | mobileSetConnectivity with airplaneMode=true while airplane mode is off: no request is sent and the mode stays off | call the setter, so that a differing airplane-mode flag is changed like Wi-Fi and data | not executed | Network.SetConnectivityCallsAsWritten, shown by Network.AirplaneRequestIgnored | Network.SetConnectivityCalls, with Network.SetConnectivityReached and Network.MobileSetConnectivity |
| lib/commands/context/exports.ts:403 | `makeContextUpdatedEvent(automationName, name)` is called, but bidi/models.ts:21 declares the parameters as (contextName, domain) | switching to NATIVE_APP under automation name uiautomator2: the event announces a WEB context named "uiautomator2" | pass (name, automationName) | not executed | Context.NotifyEffectsAsWritten, shown by Context.NativeAnnouncedAsWeb | Context.NotifyEffects, with Context.NotifyEffectsAgree |
