/** Checking a table after every reported ruleset change, debounced and with back-off while checks fail. */
module Recheck {
  import opened Common
  import opened Powers

  const MONITOR_DEBOUNCE_MS: nat := 200
  const MONITOR_MAX_BACKOFF_MS: nat := 60000
  const MAX_COUNTED_FAILURES: nat := 16

  /**
   * The variables of the watcher and the timeout it scheduled, with its delay.
   * `owed` and `streak` are what happened: a change was reported since the last
   * check began, and how many checks in a row failed since one verified.
   */
  datatype Watch = Watch(
    stopped: bool, debounce: bool, checking: bool, changedDuringCheck: bool, failures: nat,
    timer: Option<nat>, owed: bool, streak: nat)

  const IDLE := Watch(false, false, false, false, 0, None, false, 0)

  function Backoff(failures: nat): nat {
    var delay := MONITOR_DEBOUNCE_MS * Pow2(failures);
    if delay < MONITOR_MAX_BACKOFF_MS then delay else MONITOR_MAX_BACKOFF_MS
  }

  function Changed(w: Watch): Watch {
    if w.stopped || w.debounce then w
    else if w.checking then w.(changedDuringCheck := true)
    else w.(debounce := true, timer := Some(Backoff(w.failures)))
  }

  function TimerFired(w: Watch): Watch {
    w.(debounce := false, timer := None, checking := true, owed := false)
  }

  function CheckDone(w: Watch, present: bool): Watch {
    var counted := if w.failures + 1 < MAX_COUNTED_FAILURES then w.failures + 1 else MAX_COUNTED_FAILURES;
    var done := w.(
      checking := false, failures := if present then 0 else counted,
      streak := if present then 0 else w.streak + 1);
    if done.changedDuringCheck then Changed(done.(changedDuringCheck := false)) else done
  }

  function Verified(w: Watch): Watch {
    var calm := w.(failures := 0, streak := 0);
    if w.failures == 0 then w
    else if w.debounce then Changed(calm.(debounce := false, timer := None))
    else calm
  }

  function Stop(w: Watch): Watch {
    w.(stopped := true, timer := None)
  }

  // ---- Runs ----

  datatype Event = ChangeReported | TimerEvent | CheckEvent(present: bool) | VerifiedElsewhere | StopCalled

  /** After the stop the feed and the verifications are no longer listened to. */
  predicate Enabled(w: Watch, e: Event) {
    match e
    case ChangeReported => !w.stopped
    case TimerEvent => w.timer.Some?
    case CheckEvent(_) => w.checking
    case VerifiedElsewhere => !w.stopped
    case StopCalled => true
  }

  function After(w: Watch, e: Event): Watch
    requires Enabled(w, e)
  {
    match e
    case ChangeReported => Changed(w).(owed := true)
    case TimerEvent => TimerFired(w)
    case CheckEvent(present) => CheckDone(w, present)
    case VerifiedElsewhere => Verified(w)
    case StopCalled => Stop(w)
  }

  function Run(events: seq<Event>): Option<Watch> {
    if events == [] then Some(IDLE)
    else
      var before := Run(events[..|events| - 1]);
      if before.Some? && Enabled(before.value, events[|events| - 1])
      then Some(After(before.value, events[|events| - 1]))
      else None
  }

  predicate Inv(w: Watch) {
    && (!w.stopped ==> w.debounce == w.timer.Some?)
    && (w.stopped ==> w.timer.None?)
    && !(w.timer.Some? && w.checking)
    && (w.changedDuringCheck ==> w.checking)
    && (!w.stopped && w.owed ==> w.timer.Some? || (w.checking && w.changedDuringCheck))
    && w.failures == (if w.streak < MAX_COUNTED_FAILURES then w.streak else MAX_COUNTED_FAILURES)
    && (w.timer.Some? ==> w.timer.value == Backoff(w.streak))
  }

  lemma {:induction false} BackoffCeiling(k: nat)
    requires k >= 9
    ensures Backoff(k) == MONITOR_MAX_BACKOFF_MS
  {
    if k == 9 {
      assert Pow2(9) == 512 by {
        assert Pow2(8) == 2 * Pow2(7) && Pow2(7) == 2 * Pow2(6) && Pow2(6) == 2 * Pow2(5);
        assert Pow2(5) == 2 * Pow2(4) && Pow2(4) == 2 * Pow2(3) && Pow2(3) == 2 * Pow2(2);
        assert Pow2(2) == 2 * Pow2(1) && Pow2(1) == 2 * Pow2(0);
      }
    } else {
      BackoffCeiling(k - 1);
    }
  }

  /** Counting failures only up to sixteen does not change any delay. */
  lemma CountIsEnough(streak: nat)
    ensures Backoff(if streak < MAX_COUNTED_FAILURES then streak else MAX_COUNTED_FAILURES) == Backoff(streak)
  {
    if streak >= MAX_COUNTED_FAILURES {
      BackoffCeiling(streak);
      BackoffCeiling(MAX_COUNTED_FAILURES);
    }
  }

  lemma StepKeepsInv(w: Watch, e: Event)
    requires Inv(w) && Enabled(w, e)
    ensures Inv(After(w, e))
  {
    hide Backoff;
    CountIsEnough(w.streak);
    CountIsEnough(w.streak + 1);
    CountIsEnough(0);
  }

  /**
   * At every moment before the stop a change reported since the last check began
   * is covered by the armed timer or by the flag of the running check; the two
   * never coexist; an armed timer waits min(200 * 2^k, 60000) ms after k failed
   * checks in a row; after the stop no timer is left that could start a check.
   */
  lemma {:induction false} NoChangeIsLost(events: seq<Event>)
    requires Run(events).Some?
    ensures
      var w := Run(events).value;
      && (!w.stopped && w.owed ==> w.timer.Some? || (w.checking && w.changedDuringCheck))
      && !(w.timer.Some? && w.checking)
      && (w.timer.Some? ==> w.timer.value == Backoff(w.streak))
      && (w.stopped ==> !Enabled(w, TimerEvent))
    ensures Inv(Run(events).value)
  {
    if events != [] {
      hide After, Enabled;
      NoChangeIsLost(events[..|events| - 1]);
      StepKeepsInv(Run(events[..|events| - 1]).value, events[|events| - 1]);
      StoppedHasNoTimer(Run(events).value);
    }
  }

  lemma StoppedHasNoTimer(w: Watch)
    requires Inv(w)
    ensures w.stopped ==> !Enabled(w, TimerEvent)
  {
  }

  predicate StaysStopped(w: Watch) {
    && (forall present :: w.checking ==> After(w, CheckEvent(present)).stopped && After(w, CheckEvent(present)).timer.None?)
    && !Enabled(w, TimerEvent) && !Enabled(w, ChangeReported) && !Enabled(w, VerifiedElsewhere)
  }

  lemma StopIsFinal(w: Watch)
    requires Inv(w) && w.stopped
    ensures StaysStopped(w)
  {
    forall present | w.checking
      ensures After(w, CheckEvent(present)).stopped && After(w, CheckEvent(present)).timer.None?
    {
      assert After(w, CheckEvent(present)) == CheckDone(w, present);
    }
  }

  // ---- The watcher as an object ----

  class Watcher {
    var stopped: bool
    var debounce: bool
    var checking: bool
    var changedDuringCheck: bool
    var failures: nat
    var timer: Option<nat>
    ghost var owed: bool
    ghost var streak: nat

    ghost function View(): Watch
      reads this
    {
      Watch(stopped, debounce, checking, changedDuringCheck, failures, timer, owed, streak)
    }

    ghost predicate Valid()
      reads this
    {
      Inv(View())
    }

    /** The armed timer, or the flag of the check that is running. */
    ghost predicate Covered()
      reads this
    {
      timer.Some? || (checking && changedDuringCheck)
    }

    constructor ()
      ensures Valid() && View() == IDLE
    {
      stopped, debounce, checking, changedDuringCheck, failures := false, false, false, false, 0;
      timer, owed, streak := None, false, 0;
    }

    method OnChange()
      modifies this`debounce, this`changedDuringCheck, this`timer
      ensures View() == Changed(old(View()))
    {
      if stopped || debounce {
        return;
      }
      if checking {
        changedDuringCheck := true;
        return;
      }
      debounce, timer := true, Some(Backoff(failures));
    }

    /** The change will be checked for: by the timer, or by one more check after the one that runs. */
    method OnReport()
      requires Valid() && !stopped
      modifies this`debounce, this`changedDuringCheck, this`timer, this`owed
      ensures Valid() && View() == Changed(old(View())).(owed := true)
      ensures Covered() && (old(timer.Some?) ==> timer == old(timer))
    {
      hide Backoff;
      StepKeepsInv(View(), ChangeReported);
      OnChange();
      owed := true;
    }

    /** The check that starts is for every change reported so far. */
    method OnTimer()
      requires Valid() && timer.Some?
      modifies this`debounce, this`timer, this`checking, this`owed
      ensures Valid() && View() == TimerFired(old(View()))
      ensures checking && !old(checking) && !Covered() && !owed
    {
      hide Backoff;
      StepKeepsInv(View(), TimerEvent);
      debounce, timer, checking, owed := false, None, true, false;
    }

    /** A change reported during the check leads to one more, after a delay that tells how many failed. */
    method OnCheckDone(present: bool)
      requires Valid() && checking
      modifies this
      ensures Valid() && View() == CheckDone(old(View()), present)
      ensures !checking && timer == if !stopped && old(changedDuringCheck) then Some(Backoff(streak)) else None
    {
      hide Backoff;
      StepKeepsInv(View(), CheckEvent(present));
      checking := false;
      failures := if present then 0 else if failures + 1 < MAX_COUNTED_FAILURES then failures + 1 else MAX_COUNTED_FAILURES;
      streak := if present then 0 else streak + 1;
      if changedDuringCheck {
        changedDuringCheck := false;
        OnChange();
      }
    }

    /** A waiting check stays waiting, now for the normal delay. */
    method OnVerified()
      requires Valid() && !stopped
      modifies this
      ensures Valid() && View() == Verified(old(View()))
      ensures Covered() == old(Covered()) && (timer.Some? ==> timer.value == Backoff(0))
    {
      hide Backoff;
      StepKeepsInv(View(), VerifiedElsewhere);
      if failures == 0 {
        return;
      }
      failures, streak := 0, 0;
      if debounce {
        debounce, timer := false, None;
        OnChange();
      }
    }

    /** No check starts any more: nothing but the end of a running check can follow, and it arms nothing. */
    method OnStop()
      requires Valid()
      modifies this`stopped, this`timer
      ensures Valid() && View() == Stop(old(View()))
      ensures stopped && timer.None? && StaysStopped(View())
    {
      hide Backoff;
      StepKeepsInv(View(), StopCalled);
      stopped, timer := true, None;
      StopIsFinal(View());
    }
  }
}
