/**
 * The multi-pointer gesture handler of the on-device agent: the resampling of
 * the driver's timed waypoints onto the 5 ms injection grid, and the sequencer
 * that turns one row of pointer coordinates per finger into Android motion
 * events.
 */
module MultiPointerGesture {

  import opened Wrappers

  /** Pause between two injection steps. */
  const MOTION_EVENT_INJECTION_DELAY_MILLIS: nat := 5

  /** android.view.MotionEvent action codes. */
  const ACTION_DOWN: int := 0
  const ACTION_UP: int := 1
  const ACTION_MOVE: int := 2
  const ACTION_POINTER_DOWN: int := 5
  const ACTION_POINTER_UP: int := 6
  const ACTION_POINTER_INDEX_SHIFT: nat := 8

  const FIND_INDEX_MESSAGE := "findIndex: touch id not found"

  /** A waypoint position decoded from the command's "touch" object. */
  datatype Point = Point(x: int, y: int)

  /** One driver sample: an optional "touch" position and its "time" in seconds. */
  datatype Sample = Sample(touch: Option<Point>, time: real)

  /** MotionEvent.PointerCoords as the handler fills it. */
  datatype Coords = Coords(x: int, y: int, size: int, pressure: int)

  /** createPointerCoords: no "touch" gives no coordinates; otherwise size and pressure are 1. */
  function CreatePointerCoords(s: Sample): (r: Option<Coords>)
    ensures r.None? <==> s.touch.None?
    ensures r.Some? ==> r.value == Coords(s.touch.value.x, s.touch.value.y, 1, 1)
  {
    match s.touch
    case None => None
    case Some(p) => Some(Coords(p.x, p.y, 1, 1))
  }

  // ---------------------------------------------------------------------
  // Resampling (gesturesToPointerCoords)
  // ---------------------------------------------------------------------

  /** The running time, in seconds, at injection step k. */
  function StepTime(k: nat): real {
    k as real / 200.0
  }

  /** The cursor after one step's check: it moves on only once the step time passes the current sample's time. */
  function Advance(g: seq<Sample>, k: nat, c: nat): nat
    requires c < |g|
  {
    if StepTime(k) > g[c].time && c < |g| - 1 then c + 1 else c
  }

  /** Index of the current sample when step k begins. */
  function Start(g: seq<Sample>, k: nat): (c: nat)
    requires |g| > 0
    ensures c < |g|
  {
    if k == 0 then 0 else Advance(g, k - 1, Start(g, k - 1))
  }

  /** Step k ends the resampling: its time passed the last sample's time. */
  predicate Breaks(g: seq<Sample>, k: nat)
    requires |g| > 0
  {
    StepTime(k) > g[Start(g, k)].time && Start(g, k) == |g| - 1
  }

  /** The coordinates of the latest sample in `s` that has a touch; `None` when there is none. */
  function LastTouch(s: seq<Sample>): (r: Option<Coords>)
  {
    if s == [] then None
    else if s[|s| - 1].touch.Some? then CreatePointerCoords(s[|s| - 1])
    else LastTouch(s[..|s| - 1])
  }

  lemma {:induction false} LastTouchIsLatest(s: seq<Sample>)
    ensures LastTouch(s).None? <==> forall i :: 0 <= i < |s| ==> s[i].touch.None?
    ensures LastTouch(s).Some? ==>
      exists i :: 0 <= i < |s| && LastTouch(s) == CreatePointerCoords(s[i]) && s[i].touch.Some? &&
        forall j :: i < j < |s| ==> s[j].touch.None?
  {
    if s != [] && s[|s| - 1].touch.None? {
      var t := s[..|s| - 1];
      LastTouchIsLatest(t);
      assert forall i :: 0 <= i < |t| ==> t[i] == s[i];
    }
  }

  /** Steps before k cannot use samples past Start(g, k): the cursor moves at most one sample a step. */
  lemma {:induction false} StartBounds(g: seq<Sample>, j: nat, k: nat)
    requires |g| > 0 && j <= k
    ensures Start(g, j) <= Start(g, k) <= Start(g, j) + (k - j)
    ensures Start(g, k) <= k
    decreases k
  {
    if k > j {
      StartBounds(g, j, k - 1);
    }
    if k > 0 {
      StartBounds(g, 0, k - 1);
    }
  }

  /** A sample becomes current only at a step whose time is past the previous sample's time. */
  lemma AdvanceNeedsTime(g: seq<Sample>, k: nat)
    requires |g| > 0
    ensures Start(g, k + 1) == Start(g, k) || Start(g, k + 1) == Start(g, k) + 1
    ensures Start(g, k + 1) == Start(g, k) + 1 <==> StepTime(k) > g[Start(g, k)].time && Start(g, k) < |g| - 1
  {
  }

  /** When the resampling stops, every sample from the first current one up to the last has been used. */
  lemma BreakUsesAllSamples(g: seq<Sample>, k: nat)
    requires |g| > 0 && Breaks(g, k)
    ensures Start(g, k) == |g| - 1 && StepTime(k) > g[|g| - 1].time
  {
  }

  /** The samples that were current at some step up to k, in order. */
  function Visited(g: seq<Sample>, k: nat): seq<Sample>
    requires |g| > 0
  {
    StartBounds(g, 1, k + 1);
    g[Start(g, 1)..Start(g, k + 1) + 1]
  }

  /** Steps some wait beyond the current sample's time: the second part of the loop's termination measure. */
  function Wait(t: real, k: nat): nat {
    if StepTime(k) > t then 0 else ((200.0 * t).Floor - k + 1) as nat
  }

  lemma WaitDecreases(t: real, k: nat)
    requires !(StepTime(k) > t)
    ensures Wait(t, k + 1) < Wait(t, k)
  {
    assert (k as real) <= 200.0 * t;
  }

  /**
   * gesturesToPointerCoords: one entry per 5 ms step until the step time passes
   * the last sample's time; each entry repeats the latest touch among the
   * samples visited so far.  An empty list has no first sample and fails.
   */
  method GesturesToPointerCoords(g: seq<Sample>) returns (r: Result<seq<Option<Coords>>, string>)
    ensures r.Err? <==> |g| == 0
    ensures r.Ok? ==> Breaks(g, |r.value|)
    ensures r.Ok? ==> forall k :: 0 <= k < |r.value| ==>
      !Breaks(g, k) && r.value[k] == LastTouch(Visited(g, k))
  {
    if |g| == 0 {
      return Err("JSONArray[0] not found.");
    }
    var pc: seq<Option<Coords>> := [];
    var lastPosition: Option<Coords> := None;
    var i := 1;
    var k: nat := 0;
    while true
      invariant 1 <= i <= |g| && i - 1 == Start(g, k)
      invariant |pc| == k
      invariant k == 0 ==> lastPosition == None
      invariant k > 0 ==> lastPosition == LastTouch(Visited(g, k - 1))
      invariant forall j :: 0 <= j < k ==> !Breaks(g, j) && pc[j] == LastTouch(Visited(g, j))
      decreases |g| - i, Wait(g[i - 1].time, k)
    {
      if StepTime(k) > g[i - 1].time {
        if i == |g| {
          break;
        }
        i := i + 1;
      } else {
        WaitDecreases(g[i - 1].time, k);
      }
      assert !Breaks(g, k);
      var currentCoord := CreatePointerCoords(g[i - 1]);
      if currentCoord.Some? {
        lastPosition := currentCoord;
      }
      NextVisited(g, k);
      pc := pc + [lastPosition];
      k := k + 1;
    }
    r := Ok(pc);
  }

  /** The latest touch after step k: the current sample's own, or the one before. */
  lemma NextVisited(g: seq<Sample>, k: nat)
    requires |g| > 0
    ensures var c := Start(g, k + 1);
      LastTouch(Visited(g, k)) ==
        (if g[c].touch.Some? then CreatePointerCoords(g[c])
         else if k == 0 then None else LastTouch(Visited(g, k - 1)))
  {
    var c := Start(g, k + 1);
    var s := Visited(g, k);
    StartBounds(g, 1, k + 1);
    assert s == g[Start(g, 1)..c + 1];
    if k == 0 {
      assert s == [g[c]];
    } else {
      StartBounds(g, 1, k);
      VisitStep(g, Start(g, 1), Start(g, k), c);
    }
  }

  /** Visiting sample b after samples lo..a keeps the latest touch consistent. */
  lemma VisitStep(g: seq<Sample>, lo: nat, a: nat, b: nat)
    requires lo <= a < |g| && (b == a || b == a + 1) && b < |g|
    ensures LastTouch(g[lo..b + 1]) ==
      (if g[b].touch.Some? then CreatePointerCoords(g[b]) else LastTouch(g[lo..a + 1]))
  {
    var s := g[lo..b + 1];
    assert s[|s| - 1] == g[b];
    if b == a + 1 {
      assert s[..|s| - 1] == g[lo..a + 1];
    } else if g[b].touch.None? {
      assert s == g[lo..a + 1];
    }
  }

  // ---------------------------------------------------------------------
  // Sequencing (performMultiPointerGesture)
  // ---------------------------------------------------------------------

  /** One row of coordinates per finger id; `None` is a null entry. */
  type Rows = seq<seq<Option<Coords>>>

  /**
   * A finger that is down: its PointerProperties id and its current
   * PointerCoords.  The handler keeps the two in parallel lists that it always
   * grows and shrinks together; here they are one list of pairs.
   */
  datatype Pointer = Pointer(id: nat, coords: Option<Coords>)

  /** The fingers down, in the order they went down. */
  type Contacts = seq<Pointer>

  /** An injected motion event: its action and the pointers it carries. */
  datatype Event = Event(action: int, pointers: seq<Pointer>)

  /** A run so far: the fingers down, the events injected, and the exception that stopped it, if any. */
  datatype Progress = Progress(contacts: Contacts, events: seq<Event>, failure: Option<string>)

  const INDEX_OUT_OF_BOUNDS_MESSAGE := "ArrayIndexOutOfBoundsException"

  /**
   * getPointerAction: the pointer index shifted into bits 8 and up. The
   * receiving side recovers both halves, the action from the low eight bits
   * and the index from the bits above.
   */
  function GetPointerAction(motionEvent: int, index: nat): (r: int)
    ensures 0 <= motionEvent < 256 ==> r % 256 == motionEvent && r / 256 == index
    ensures 0 <= motionEvent < 256 && index < 256 ==> ActionMasked(r) == motionEvent && ActionIndex(r) == index
  {
    assert Pow2(ACTION_POINTER_INDEX_SHIFT) == 256;
    motionEvent + index * Pow2(ACTION_POINTER_INDEX_SHIFT)
  }

  function Pow2(n: nat): (r: nat)
    ensures r >= 1
  {
    if n == 0 then 1 else 2 * Pow2(n - 1)
  }

  /** MotionEvent.getActionMasked: the low eight bits. */
  function ActionMasked(action: int): int { action % 256 }

  /** MotionEvent.getActionIndex: bits 8 to 15. */
  function ActionIndex(action: int): int { (action / 256) % 256 }

  /** A finger goes down at step s: its entry is non-null and the previous one is null or absent. */
  predicate GoesDown(row: seq<Option<Coords>>, s: nat) {
    s < |row| && row[s].Some? && (s == 0 || row[s - 1].None?)
  }

  /** The ids below n that go down at step s, in id order. */
  function Downs(pcs: Rows, s: nat, n: nat): seq<nat>
    requires n <= |pcs|
  {
    if n == 0 then [] else Downs(pcs, s, n - 1) + (if GoesDown(pcs[n - 1], s) then [n - 1] else [])
  }

  /** The ids below n whose row ends exactly at step s, in id order. */
  function Ups(pcs: Rows, s: nat, n: nat): seq<nat>
    requires n <= |pcs|
  {
    if n == 0 then [] else Ups(pcs, s, n - 1) + (if |pcs[n - 1]| == s then [n - 1] else [])
  }

  /** The length of the longest row. */
  function MaxLen(pcs: Rows): nat {
    if |pcs| == 0 then 0
    else
      var m := MaxLen(pcs[..|pcs| - 1]);
      if |pcs[|pcs| - 1]| > m then |pcs[|pcs| - 1]| else m
  }

  /** findIndex's answer: the first list position holding finger `id`. */
  function IndexOf(c: Contacts, id: nat): (r: Option<nat>)
    ensures r.Some? ==> r.value < |c|
  {
    if c == [] then None
    else if c[0].id == id then Some(0)
    else match IndexOf(c[1..], id)
      case None => None
      case Some(i) => Some(i + 1)
  }

  /** ArrayList.remove(index). */
  function RemoveAt<T>(s: seq<T>, i: nat): seq<T>
    requires i < |s|
  {
    s[..i] + s[i + 1..]
  }

  /** p followed by q. */
  function Then(p: Progress, q: Progress): Progress {
    Progress(q.contacts, p.events + q.events, q.failure)
  }

  /** The event one release sends and the list it leaves: UP for the last finger, POINTER_UP with its index otherwise. */
  function ReleaseOne(c: Contacts, i: nat): Progress
    requires i < |c|
  {
    var action := if |c| == 1 then ACTION_UP else GetPointerAction(ACTION_POINTER_UP, i);
    Progress(RemoveAt(c, i), [Event(action, c)], None)
  }

  /** The release phase: each finger of `ups` in turn; one that is not down makes findIndex throw. */
  function Release(c: Contacts, ups: seq<nat>): Progress
    decreases |ups|
  {
    if ups == [] then Progress(c, [], None)
    else match IndexOf(c, ups[0])
      case None => Progress(c, [], Some(FIND_INDEX_MESSAGE))
      case Some(i) => Then(ReleaseOne(c, i), Release(ReleaseOne(c, i).contacts, ups[1..]))
  }

  /** Finger id has an entry at step s. */
  predicate HasEntry(pcs: Rows, id: nat, s: nat) {
    id < |pcs| && s < |pcs[id]|
  }

  /** Every finger down has a row with an entry at step s. */
  predicate Live(c: Contacts, pcs: Rows, s: nat) {
    c == [] || (Live(c[..|c| - 1], pcs, s) && HasEntry(pcs, c[|c| - 1].id, s))
  }

  /** The fingers down, each with its entry at step s in place of its coordinates. */
  function Moved(c: Contacts, pcs: Rows, s: nat): Contacts
    requires Live(c, pcs, s)
  {
    if c == [] then []
    else Moved(c[..|c| - 1], pcs, s) + [Pointer(c[|c| - 1].id, pcs[c[|c| - 1].id][s])]
  }

  /** The move phase: every finger still down takes its entry at step s, then one MOVE; a row that ended throws. */
  function Move(c: Contacts, pcs: Rows, s: nat): Progress {
    if |c| == 0 then Progress(c, [], None)
    else if !Live(c, pcs, s) then Progress(c, [], Some(INDEX_OUT_OF_BOUNDS_MESSAGE))
    else Progress(Moved(c, pcs, s), [Event(ACTION_MOVE, Moved(c, pcs, s))], None)
  }

  /** The event one POINTER_DOWN sends, with the new finger's list index, and the list it leaves. */
  function AddOne(c: Contacts, id: nat, pcs: Rows, s: nat): Progress
    requires HasEntry(pcs, id, s)
  {
    var c1 := c + [Pointer(id, pcs[id][s])];
    Progress(c1, [Event(GetPointerAction(ACTION_POINTER_DOWN, |c1| - 1), c1)], None)
  }

  /** Appends each finger of ds with a POINTER_DOWN; a finger without an entry throws. */
  function AddEach(c: Contacts, ds: seq<nat>, pcs: Rows, s: nat): Progress
    decreases |ds|
  {
    if ds == [] then Progress(c, [], None)
    else if !HasEntry(pcs, ds[0], s) then Progress(c, [], Some(INDEX_OUT_OF_BOUNDS_MESSAGE))
    else Then(AddOne(c, ds[0], pcs, s), AddEach(AddOne(c, ds[0], pcs, s).contacts, ds[1..], pcs, s))
  }

  /** The ACTION_DOWN of the press phase, sent for the first new finger when no finger is down. */
  function FirstDown(c: Contacts, downs: seq<nat>, pcs: Rows, s: nat): Progress {
    if downs != [] && |c| == 0 then
      if !HasEntry(pcs, downs[0], s) then Progress(c, [], Some(INDEX_OUT_OF_BOUNDS_MESSAGE))
      else
        var c1 := [Pointer(downs[0], pcs[downs[0]][s])];
        Progress(c1, [Event(ACTION_DOWN, c1)], None)
    else Progress(c, [], None)
  }

  /** The fingers of the press phase that get a POINTER_DOWN. */
  function PointerDowns(c: Contacts, downs: seq<nat>): seq<nat> {
    if downs != [] && |c| == 0 then downs[1..] else downs
  }

  /** The press phase: DOWN for the first finger when none is down, POINTER_DOWN for the others. */
  function Press(c: Contacts, downs: seq<nat>, pcs: Rows, s: nat): Progress {
    var first := FirstDown(c, downs, pcs, s);
    if first.failure.Some? then first
    else Then(first, AddEach(first.contacts, PointerDowns(c, downs), pcs, s))
  }

  /** One step of the loop: release, move, press; an exception ends the step. */
  function Step(c: Contacts, pcs: Rows, s: nat): Progress {
    var r := Release(c, Ups(pcs, s, |pcs|));
    if r.failure.Some? then r
    else
      var m := Move(r.contacts, pcs, s);
      if m.failure.Some? then Then(r, m)
      else Then(r, Then(m, Press(m.contacts, Downs(pcs, s, |pcs|), pcs, s)))
  }

  /** Steps s up to the longest row's length; an exception ends the run. */
  function Run(c: Contacts, pcs: Rows, s: nat): (r: Progress)
    requires s <= MaxLen(pcs)
    ensures Step(c, pcs, s).failure.Some? ==> r == Step(c, pcs, s)
    decreases MaxLen(pcs) - s
  {
    var p := Step(c, pcs, s);
    if p.failure.Some? || s == MaxLen(pcs) then p
    else Then(p, Run(p.contacts, pcs, s + 1))
  }

  /** The whole gesture, from no finger down at step 0. */
  function Perform(pcs: Rows): (r: Progress)
    ensures Step([], pcs, 0).events <= r.events
    ensures pcs == [] ==> r == Progress([], [], None)
  {
    Run([], pcs, 0)
  }

  /** Every event of `evs` was accepted by the device: the AND of the injection results. */
  function AllAccepted(evs: seq<Event>, inject: Event -> bool): bool {
    if evs == [] then true else inject(evs[0]) && AllAccepted(evs[1..], inject)
  }

  // ---------------------------------------------------------------------
  // The handler's loops, proved against the functions above
  // ---------------------------------------------------------------------

  lemma ThenAssoc(a: Progress, b: Progress, c: Progress)
    ensures Then(a, Then(b, c)) == Then(Then(a, b), c)
  {
    assert a.events + (b.events + c.events) == (a.events + b.events) + c.events;
  }

  /** What IndexOf finds: the first position holding the finger, and None exactly when no position does. */
  lemma {:induction false} IndexOfFirst(c: Contacts, id: nat)
    ensures IndexOf(c, id).Some? ==> c[IndexOf(c, id).value].id == id
    ensures IndexOf(c, id).Some? ==> forall j :: 0 <= j < IndexOf(c, id).value ==> c[j].id != id
    ensures IndexOf(c, id).None? <==> forall j :: 0 <= j < |c| ==> c[j].id != id
  {
    if c != [] && c[0].id != id {
      IndexOfFirst(c[1..], id);
      assert forall j :: 1 <= j < |c| ==> c[j] == c[1..][j - 1];
    }
  }

  /** Skipping i positions that do not hold the finger shifts IndexOf's answer by i. */
  lemma {:induction false} IndexOfFrom(c: Contacts, id: nat, i: nat)
    requires i <= |c| && forall j :: 0 <= j < i ==> c[j].id != id
    ensures IndexOf(c, id) == (if IndexOf(c[i..], id).None? then None else Some(IndexOf(c[i..], id).value + i))
    decreases i
  {
    if i > 0 {
      assert c[1..][i - 1..] == c[i..];
      IndexOfFrom(c[1..], id, i - 1);
    }
  }

  /** findIndex: IndexOf's answer, or the RuntimeException it throws when the finger is not down. */
  method FindIndex(c: Contacts, id: nat) returns (r: Result<nat, string>)
    ensures r.Ok? ==> IndexOf(c, id) == Some(r.value)
    ensures r.Err? ==> IndexOf(c, id) == None && r.error == FIND_INDEX_MESSAGE
  {
    var i := 0;
    while i < |c|
      invariant 0 <= i <= |c|
      invariant forall j :: 0 <= j < i ==> c[j].id != id
    {
      if c[i].id == id {
        IndexOfFrom(c, id, i);
        return Ok(i);
      }
      i := i + 1;
    }
    IndexOfFrom(c, id, i);
    return Err(FIND_INDEX_MESSAGE);
  }

  /** The longest row bounds every row and is the length of one of them. */
  lemma {:induction false} MaxLenBounds(pcs: Rows)
    ensures forall id :: 0 <= id < |pcs| ==> |pcs[id]| <= MaxLen(pcs)
    ensures |pcs| > 0 ==> exists id :: 0 <= id < |pcs| && |pcs[id]| == MaxLen(pcs)
  {
    if |pcs| > 0 {
      var init := pcs[..|pcs| - 1];
      MaxLenBounds(init);
      assert forall id :: 0 <= id < |init| ==> init[id] == pcs[id];
    }
  }

  /** The first scan of a step: who goes down, whose row ends, and whether any row is still running. */
  method Transitions(pcs: Rows, step: nat) returns (downs: seq<nat>, ups: seq<nat>, hasEvents: bool)
    ensures downs == Downs(pcs, step, |pcs|)
    ensures ups == Ups(pcs, step, |pcs|)
    ensures hasEvents <==> step < MaxLen(pcs)
  {
    downs, ups, hasEvents := [], [], false;
    for id := 0 to |pcs|
      invariant downs == Downs(pcs, step, id)
      invariant ups == Ups(pcs, step, id)
      invariant hasEvents <==> exists j :: 0 <= j < id && step < |pcs[j]|
    {
      if step < |pcs[id]| {
        hasEvents := true;
        if pcs[id][step].Some? {
          if step == 0 || pcs[id][step - 1].None? {
            downs := downs + [id];
          }
        }
      } else if step == |pcs[id]| {
        ups := ups + [id];
      }
    }
    MaxLenBounds(pcs);
  }

  /** The release loop: findIndex, one UP or POINTER_UP, then removal from the list. */
  method ReleasePhase(c: Contacts, ups: seq<nat>) returns (p: Progress)
    ensures p == Release(c, ups)
  {
    var cur, events := c, [];
    for j := 0 to |ups|
      invariant Release(c, ups) == Then(Progress(cur, events, None), Release(cur, ups[j..]))
    {
      var index := FindIndex(cur, ups[j]);
      if index.Err? {
        return Progress(cur, events, Some(index.error));
      }
      var i := index.value;
      var action := if |cur| == 1 then ACTION_UP else GetPointerAction(ACTION_POINTER_UP, i);
      assert ups[j..][1..] == ups[j + 1..];
      ThenAssoc(Progress(cur, events, None), ReleaseOne(cur, i), Release(RemoveAt(cur, i), ups[j + 1..]));
      events := events + [Event(action, cur)];
      cur := RemoveAt(cur, i);
    }
    assert ups[|ups|..] == [];
    p := Progress(cur, events, None);
  }

  /** A finger without an entry anywhere in a prefix is one Live rejects. */
  lemma {:induction false} LivePrefix(c: Contacts, pcs: Rows, s: nat, k: nat)
    requires k <= |c| && Live(c, pcs, s)
    ensures Live(c[..k], pcs, s)
    decreases |c|
  {
    if k < |c| {
      assert c[..|c| - 1][..k] == c[..k];
      LivePrefix(c[..|c| - 1], pcs, s, k);
    } else {
      assert c[..k] == c;
    }
  }

  /** Moving one more finger of the list. */
  lemma MovedStep(c: Contacts, pcs: Rows, s: nat, i: nat)
    requires i < |c| && Live(c[..i], pcs, s) && HasEntry(pcs, c[i].id, s)
    ensures Live(c[..i + 1], pcs, s)
    ensures Moved(c[..i + 1], pcs, s) == Moved(c[..i], pcs, s) + [Pointer(c[i].id, pcs[c[i].id][s])]
  {
    assert c[..i + 1][..i] == c[..i];
  }

  /** The move loop: each finger's entry at this step, or the exception for a row that ended, then one MOVE. */
  method MovePhase(c: Contacts, pcs: Rows, step: nat) returns (p: Progress)
    ensures p == Move(c, pcs, step)
  {
    if |c| == 0 {
      return Progress(c, [], None);
    }
    var moved := [];
    for i := 0 to |c|
      invariant Live(c[..i], pcs, step)
      invariant moved == Moved(c[..i], pcs, step)
    {
      var id := c[i].id;
      if id >= |pcs| || step >= |pcs[id]| {
        assert c[..i + 1][..i] == c[..i];
        if Live(c, pcs, step) {
          LivePrefix(c, pcs, step, i + 1);
        }
        return Progress(c, [], Some(INDEX_OUT_OF_BOUNDS_MESSAGE));
      }
      MovedStep(c, pcs, step, i);
      moved := moved + [Pointer(id, pcs[id][step])];
    }
    assert c[..|c|] == c;
    p := Progress(moved, [Event(ACTION_MOVE, moved)], None);
  }

  /** The POINTER_DOWN loop of the press phase. */
  method AddPhase(c: Contacts, ds: seq<nat>, pcs: Rows, step: nat) returns (p: Progress)
    ensures p == AddEach(c, ds, pcs, step)
  {
    var cur, events := c, [];
    for k := 0 to |ds|
      invariant AddEach(c, ds, pcs, step) == Then(Progress(cur, events, None), AddEach(cur, ds[k..], pcs, step))
    {
      var id := ds[k];
      if id >= |pcs| || step >= |pcs[id]| {
        return Progress(cur, events, Some(INDEX_OUT_OF_BOUNDS_MESSAGE));
      }
      assert ds[k..][1..] == ds[k + 1..];
      ThenAssoc(Progress(cur, events, None), AddOne(cur, id, pcs, step), AddEach(AddOne(cur, id, pcs, step).contacts, ds[k + 1..], pcs, step));
      cur := cur + [Pointer(id, pcs[id][step])];
      events := events + [Event(GetPointerAction(ACTION_POINTER_DOWN, |cur| - 1), cur)];
    }
    assert ds[|ds|..] == [];
    p := Progress(cur, events, None);
  }

  /** The press phase: the first ACTION_DOWN when no finger is down, then the POINTER_DOWN loop. */
  method PressPhase(c: Contacts, downs: seq<nat>, pcs: Rows, step: nat) returns (p: Progress)
    ensures p == Press(c, downs, pcs, step)
  {
    var cur, events, rest := c, [], downs;
    if |downs| > 0 && |c| == 0 {
      var id := downs[0];
      if id >= |pcs| || step >= |pcs[id]| {
        return Progress(c, [], Some(INDEX_OUT_OF_BOUNDS_MESSAGE));
      }
      rest := downs[1..];
      cur := [Pointer(id, pcs[id][step])];
      events := [Event(ACTION_DOWN, cur)];
    }
    var d := AddPhase(cur, rest, pcs, step);
    p := Then(Progress(cur, events, None), d);
  }

  /** One turn of the step loop: the scan, then release, move and press. */
  method StepPhase(c: Contacts, pcs: Rows, step: nat) returns (p: Progress, hasEvents: bool)
    ensures p == Step(c, pcs, step)
    ensures hasEvents <==> step < MaxLen(pcs)
  {
    var downs, ups;
    downs, ups, hasEvents := Transitions(pcs, step);
    var r := ReleasePhase(c, ups);
    if r.failure.Some? {
      return r, hasEvents;
    }
    var m := MovePhase(r.contacts, pcs, step);
    if m.failure.Some? {
      return Then(r, m), hasEvents;
    }
    var d := PressPhase(m.contacts, downs, pcs, step);
    p := Then(r, Then(m, d));
  }

  lemma {:induction false} AllAcceptedConcat(a: seq<Event>, b: seq<Event>, inject: Event -> bool)
    ensures AllAccepted(a + b, inject) == (AllAccepted(a, inject) && AllAccepted(b, inject))
  {
    if a != [] {
      assert (a + b)[1..] == a[1..] + b;
      AllAcceptedConcat(a[1..], b, inject);
    } else {
      assert a + b == b;
    }
  }

  /** `success &=` over a list of injections: every injection is made, and the AND of the answers kept. */
  method InjectAll(success: bool, evs: seq<Event>, inject: Event -> bool) returns (ok: bool)
    ensures ok == (success && AllAccepted(evs, inject))
  {
    ok := success;
    for i := 0 to |evs|
      invariant ok == (success && AllAccepted(evs[..i], inject))
    {
      AllAcceptedConcat(evs[..i], [evs[i]], inject);
      assert evs[..i + 1] == evs[..i] + [evs[i]];
      var accepted := inject(evs[i]);
      ok := ok && accepted;
    }
    assert evs[..|evs|] == evs;
  }

  /** One turn of the step loop, seen through the run it still has to do. */
  lemma LoopStep(c: Contacts, pcs: Rows, step: nat, done: seq<Event>, p: Progress, whole: Progress)
    requires step <= MaxLen(pcs) && p == Step(c, pcs, step)
    requires whole == Then(Progress(c, done, None), Run(c, pcs, step))
    ensures p.failure.Some? ==> whole == Progress(p.contacts, done + p.events, p.failure)
    ensures p.failure.None? && step == MaxLen(pcs) ==> whole == Progress(p.contacts, done + p.events, None)
    ensures p.failure.None? && step < MaxLen(pcs) ==>
      whole == Then(Progress(p.contacts, done + p.events, None), Run(p.contacts, pcs, step + 1))
  {
    if p.failure.None? && step < MaxLen(pcs) {
      ThenAssoc(Progress(c, done, None), p, Run(p.contacts, pcs, step + 1));
    }
  }

  /** The loop's state agrees with the run: `whole` is the whole run and `done` the events so far. */
  predicate OnTrack(whole: Progress, c: Contacts, done: seq<Event>, pcs: Rows, step: nat, hasEvents: bool) {
    if hasEvents then step <= MaxLen(pcs) && whole == Then(Progress(c, done, None), Run(c, pcs, step))
    else whole == Progress(c, done, None)
  }

  /** One turn of the step loop and its injections, with what they leave of the run. */
  method Turn(c: Contacts, pcs: Rows, step: nat, done: seq<Event>, success: bool, inject: Event -> bool, ghost whole: Progress)
    returns (p: Progress, more: bool, success': bool)
    requires OnTrack(whole, c, done, pcs, step, true)
    requires success == AllAccepted(done, inject)
    ensures success' == AllAccepted(done + p.events, inject)
    ensures p.failure.Some? ==> whole == Progress(p.contacts, done + p.events, p.failure)
    ensures p.failure.None? ==> OnTrack(whole, p.contacts, done + p.events, pcs, step + 1, more)
    ensures more ==> step < MaxLen(pcs)
  {
    p, more := StepPhase(c, pcs, step);
    LoopStep(c, pcs, step, done, p, whole);
    success' := InjectAll(success, p.events, inject);
    AllAcceptedConcat(done, p.events, inject);
  }

  /**
   * performMultiPointerGesture: the events it injects, in order, and the AND of
   * every injection result; an exception (a finger released while not down, a
   * finger still down past the end of its row) stops it.  `inject` is the
   * device's answer to each injection.
   */
  method PerformMultiPointerGesture(pcs: Rows, inject: Event -> bool) returns (events: seq<Event>, result: Result<bool, string>)
    ensures events == Perform(pcs).events
    ensures Perform(pcs).failure.Some? ==> result == Err(Perform(pcs).failure.value)
    ensures Perform(pcs).failure.None? ==> result == Ok(AllAccepted(events, inject))
  {
    var hasEvents, success := true, true;
    var step: nat := 0;
    var c: Contacts := [];
    events := [];
    ghost var whole := Perform(pcs);
    assert OnTrack(whole, c, events, pcs, step, hasEvents);
    while hasEvents
      invariant OnTrack(whole, c, events, pcs, step, hasEvents)
      invariant success == AllAccepted(events, inject)
      invariant hasEvents ==> step <= MaxLen(pcs)
      decreases MaxLen(pcs) + 1 - step, hasEvents
    {
      var p, more;
      p, more, success := Turn(c, pcs, step, events, success, inject, whole);
      events := events + p.events;
      if p.failure.Some? {
        return events, Err(p.failure.value);
      }
      hasEvents := more;
      c := p.contacts;
      step := step + 1;
    }
    result := Ok(success);
  }
}
