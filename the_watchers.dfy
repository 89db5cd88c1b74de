/**
 * The system-dialog watcher: raises one alert when a system dialog appears
 * and re-arms once it has gone. Each check looks for the dialog twice; the
 * two looks are the parameters `first` and `second`.
 */
module TheWatchers {

  /** One check from alert state `alerted`: the new state and whether the alert line was logged. */
  function Step(alerted: bool, first: bool, second: bool): (r: (bool, bool))
    ensures r.1 <==> first && !alerted
    ensures r.0 <==> (alerted || first) && second
  {
    var raised := first && !alerted;
    var afterFirst := alerted || raised;
    (afterFirst && second, raised)
  }

  class Watchers {
    var alerted: bool

    constructor()
      ensures !alerted
    {
      alerted := false;
    }

    /** check: answers the alert state after the two looks; `logged` is the one debug line. */
    method Check(first: bool, second: bool) returns (r: bool, logged: bool)
      modifies this
      ensures (alerted, logged) == Step(old(alerted), first, second)
      ensures r == alerted
    {
      logged := false;
      if first && !alerted {
        logged := true;
        alerted := true;
      }
      if !second && alerted {
        alerted := false;
      }
      return alerted, logged;
    }
  }

  /** When both looks agree, the check leaves and answers exactly what they saw. */
  lemma StableObservation(alerted: bool, present: bool)
    ensures Step(alerted, present, present).0 == present
  {
  }

  /** The alert lines logged by successive checks with the given looks. */
  function Logs(alerted: bool, looks: seq<(bool, bool)>): nat
    decreases |looks|
  {
    if looks == [] then 0
    else
      var (next, logged) := Step(alerted, looks[0].0, looks[0].1);
      (if logged then 1 else 0) + Logs(next, looks[1..])
  }

  /** While the dialog stays present, only the first check logs, and only if no alert was pending. */
  lemma {:induction false} PresentDialogLogsOnce(alerted: bool, looks: seq<(bool, bool)>)
    requires forall i :: 0 <= i < |looks| ==> looks[i].0 && looks[i].1
    ensures Logs(alerted, looks) == if !alerted && looks != [] then 1 else 0
    decreases |looks|
  {
    if looks != [] {
      assert looks[0].0 && looks[0].1;
      PresentDialogLogsOnce(true, looks[1..]);
      assert Logs(true, looks[1..]) == 0;
    }
  }

  /** A dialog that goes away re-arms the alert: the next appearance logs again. */
  lemma RearmsAfterDialogGone(alerted: bool, gone: bool)
    requires !gone
    ensures Step(Step(alerted, gone, gone).0, true, true).1
  {
  }
}
