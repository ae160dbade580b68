/** The `App` component of the water-reminder page: the glass counter and
    its goal, the derived progress and remaining counts, the permission
    flag, and the reminder timer that React's effect creates, stores and
    clears. */
module WaterApp {
  import opened Browser
  import opened ReminderSettings

  const DefaultGoal: nat := 8
  const DefaultInterval: nat := 10

  /** The `setInterval` period, in milliseconds, for an interval in minutes. */
  function PeriodMs(minutes: nat): (ms: nat)
    // a whole number of minutes, from which the interval is recovered
    ensures ms % 60_000 == 0 && ms / 60_000 == minutes
    ensures minutes > 0 ==> ms >= 60_000
  {
    minutes * 60 * 1000
  }

  /** The "Remaining" figure: how many glasses are still missing, never
      negative. */
  function Remaining(intake: nat, goal: nat): (r: nat)
    ensures r == 0 <==> intake >= goal
    ensures intake < goal ==> intake + r == goal
  {
    if goal - intake > 0 then goal - intake else 0
  }

  /** `progressPercentage`: the share of the goal reached, capped at 100. */
  function Progress(intake: nat, goal: nat): (r: real)
    requires goal > 0
    ensures 0.0 <= r <= 100.0
    ensures r == 100.0 <==> intake >= goal
    ensures intake <= goal ==> r * goal as real == intake as real * 100.0
  {
    var ratio := (intake as real / goal as real) * 100.0;
    if intake < goal then
      assert intake as real / goal as real < 1.0;
      assert ratio < 100.0;
      ratio
    else
      assert intake as real / goal as real >= 1.0;
      assert ratio >= 100.0;
      if ratio < 100.0 then ratio else 100.0
  }

  /** One more glass never lowers the progress and takes one off what
      remains, until the goal is reached. */
  lemma AddingWaterAdvances(intake: nat, goal: nat)
    requires goal > 0
    ensures Progress(intake, goal) <= Progress(intake + 1, goal)
    ensures Remaining(intake + 1, goal) == if intake < goal then Remaining(intake, goal) - 1 else 0
  {
  }

  /** The component's state, as React keeps it across renders, together
      with the browser timers and notifications it has produced. */
  class App {
    // useState values
    var intake: nat                 // waterIntake
    var goal: nat
    var interval: nat               // reminderInterval, in minutes
    var enabled: bool               // notificationsEnabled
    var stored: Option<TimerId>     // reminderTimerId; None is null

    /** The `reminderTimerId` that the last run of the reminder effect saw;
        the cleanup function that run returned closes over it. */
    var captured: Option<TimerId>
    var mounted: bool

    // the browser's side
    var live: map<TimerId, nat>     // intervals not yet cleared, with their periods
    var nextId: TimerId             // the handle the next setInterval returns
    var sent: seq<Notification>     // every notification App constructs (confirmations and reminders), in order

    /** The invariant every React transition of the code as written keeps. */
    ghost predicate Valid()
      reads this
    {
      AllowedGoal(goal) && AllowedInterval(interval) &&
      // handles are never reused
      (forall id :: id in live ==> id < nextId) &&
      (stored.Some? ==> stored.value < nextId) &&
      (captured.Some? ==> captured.value < nextId) &&
      // at most one timer is live, and it is the stored one
      (forall id :: id in live ==> stored == Some(id)) &&
      // the id the pending cleanup holds has already been cleared
      (captured.Some? ==> captured.value !in live) &&
      // a timer runs exactly when notifications are enabled, at the current period
      (enabled <==> stored.Some? && stored.value in live) &&
      (forall id :: id in live ==> live[id] == PeriodMs(interval))
    }

    /** What one run of the reminder effect (the previous cleanup, then the
        body) leaves behind, given the stored handle, the next handle and the
        notifications from before it. */
    ghost predicate AfterReminderEffect(prevStored: Option<TimerId>, prevNext: TimerId, prevSent: seq<Notification>)
      reads this
    {
      captured == prevStored &&
      (enabled ==>
        stored == Some(prevNext) && nextId == prevNext + 1 &&
        live == map[prevNext := PeriodMs(interval)] &&
        sent == prevSent + [ActivatedNotice(interval)]) &&
      (!enabled ==>
        stored == prevStored && nextId == prevNext && live == map[] && sent == prevSent)
    }

    /** Mounting: the first render with the default state, and the first
        run of the reminder effect (notifications are off, so it starts
        nothing). The mount-time permission request is issued here; its
        answer arrives later through ApplyPermission. */
    constructor ()
      ensures Valid() && mounted
      ensures intake == 0 && goal == DefaultGoal && interval == DefaultInterval && !enabled
      ensures stored == None && captured == None && live == map[] && nextId == 1 && sent == []
    {
      intake, goal, interval, enabled, stored := 0, DefaultGoal, DefaultInterval, false, None;
      captured, mounted := None, true;
      live, nextId, sent := map[], 1, [];
      new;
      ReminderEffectBody();
    }

    /** `setInterval(callback, periodMs)`: a new live timer with a handle
        not used before. */
    method StartTimer(periodMs: nat) returns (id: TimerId)
      modifies this`live, this`nextId
      ensures id == old(nextId) && nextId == old(nextId) + 1
      ensures live == old(live)[id := periodMs]
    {
      id := nextId;
      live := live[id := periodMs];
      nextId := nextId + 1;
    }

    /** `clearInterval(id)`: the timer stops; clearing a handle that is not
        live changes nothing. */
    method ClearTimer(id: TimerId)
      modifies this`live
      ensures live == old(live) - {id}
      ensures id !in old(live) ==> live == old(live)
    {
      live := live - {id};
    }

    /** The body of the reminder effect: clear whatever handle is stored,
        then, when notifications are enabled, start a timer at the current
        period, store its handle and send the "activated" notice. The
        cleanup it returns closes over the handle stored before it ran. */
    method ReminderEffectBody()
      requires stored.Some? ==> stored.value < nextId
      modifies this`live, this`nextId, this`stored, this`captured, this`sent
      ensures captured == old(stored)
      ensures old(stored).Some? ==> old(stored).value !in live
      ensures enabled ==>
        stored == Some(old(nextId)) && nextId == old(nextId) + 1 &&
        live == (if old(stored).Some? then old(live) - {old(stored).value} else old(live))[old(nextId) := PeriodMs(interval)] &&
        sent == old(sent) + [ActivatedNotice(interval)]
      ensures !enabled ==>
        stored == old(stored) && nextId == old(nextId) && sent == old(sent) &&
        live == (if old(stored).Some? then old(live) - {old(stored).value} else old(live))
    {
      var seen := stored;
      if seen.Some? {
        ClearTimer(seen.value);
      }
      if enabled {
        var id := StartTimer(PeriodMs(interval));
        stored := Some(id);
        sent := sent + [ActivatedNotice(interval)];
      }
      captured := seen;
    }

    /** The cleanup the last effect run returned: it clears the handle that
        run saw, not the one the run stored. */
    method ReminderEffectCleanup()
      modifies this`live
      ensures live == if captured.Some? then old(live) - {captured.value} else old(live)
    {
      if captured.Some? {
        ClearTimer(captured.value);
      }
    }

    /** React re-running the reminder effect after `reminderInterval` or
        `notificationsEnabled` changed: the previous cleanup, then the body. */
    method RerunReminderEffect()
      requires AfterConfigChange()
      modifies this`live, this`nextId, this`stored, this`captured, this`sent
      ensures AfterReminderEffect(old(stored), old(nextId), old(sent))
      ensures old(stored).Some? ==> old(stored).value !in live
    {
      ReminderEffectCleanup();
      ReminderEffectBody();
    }

    /** The invariant minus the two conjuncts a change of `interval` or
        `enabled` breaks until the effect has re-run. */
    ghost predicate AfterConfigChange()
      reads this
    {
      AllowedGoal(goal) && AllowedInterval(interval) &&
      (forall id :: id in live ==> id < nextId) &&
      (stored.Some? ==> stored.value < nextId) &&
      (captured.Some? ==> captured.value < nextId) &&
      (forall id :: id in live ==> stored == Some(id)) &&
      (captured.Some? ==> captured.value !in live)
    }

    /** `addWater`: one more glass; nothing else changes. */
    method AddWater()
      requires Valid() && mounted
      modifies this`intake
      ensures Valid()
      ensures intake == old(intake) + 1
    {
      intake := intake + 1;
    }

    /** `resetWater`: the counter goes back to zero; nothing else changes. */
    method ResetWater()
      requires Valid() && mounted
      modifies this`intake
      ensures Valid()
      ensures intake == 0
    {
      intake := 0;
    }

    /** `setGoal` from the goal select. The goal is not a dependency of the
        reminder effect, so no timer is touched. */
    method SetGoal(g: nat)
      requires Valid() && mounted && AllowedGoal(g)
      modifies this`goal
      ensures Valid()
      ensures goal == g
    {
      goal := g;
    }

    /** `setReminderInterval` from the interval select. Setting the value it
        already has makes React skip the re-render; a new value re-runs the
        reminder effect. */
    method SetReminderInterval(m: nat)
      requires Valid() && mounted && AllowedInterval(m)
      modifies this`interval, this`live, this`nextId, this`stored, this`captured, this`sent
      ensures Valid()
      ensures interval == m
      ensures m == old(interval) ==>
        live == old(live) && nextId == old(nextId) && stored == old(stored) &&
        captured == old(captured) && sent == old(sent)
      ensures m != old(interval) ==> AfterReminderEffect(old(stored), old(nextId), old(sent))
      ensures old(stored).Some? && m != old(interval) ==> old(stored).value !in live
    {
      if m != interval {
        interval := m;
        RerunReminderEffect();
      }
    }

    /** The `.then` of a permission request, from the mount effect or from
        `requestNotificationPermission`: `setNotificationsEnabled(permission
        === "granted")`. Without the `Notification` capability no request is
        made; an answer arriving after unmount is dropped by React, and an
        unchanged flag makes React skip the re-render. A changed flag re-runs
        the reminder effect. */
    method ApplyPermission(outcome: RequestOutcome)
      requires Valid()
      modifies this`enabled, this`live, this`nextId, this`stored, this`captured, this`sent
      ensures Valid()
      ensures old(mounted) && outcome.Resolved? ==> (enabled <==> outcome.permission == Granted)
      ensures enabled == old(enabled) ==>
        live == old(live) && nextId == old(nextId) && stored == old(stored) &&
        captured == old(captured) && sent == old(sent)
      ensures !old(mounted) || outcome.Unsupported? ==> enabled == old(enabled)
      ensures enabled != old(enabled) ==> AfterReminderEffect(old(stored), old(nextId), old(sent))
    {
      if mounted && outcome.Resolved? {
        var granted := outcome.permission == Granted;
        if granted != enabled {
          enabled := granted;
          RerunReminderEffect();
        }
      }
    }

    /** A tick of a live interval timer: its callback constructs the
        reminder notification and touches no React state. The timer keeps
        running after unmount, so a tick needs no mounted page. */
    method Tick(id: TimerId)
      requires Valid() && id in live
      modifies this`sent
      ensures Valid()
      ensures sent == old(sent) + [ReminderNotice]
    {
      sent := sent + [ReminderNotice];
    }

    /** Unmounting runs the last cleanup. That cleanup holds the handle
        stored before the last effect run, which the run already cleared,
        so every live timer stays live: a running reminder keeps firing. */
    method Unmount()
      requires Valid() && mounted
      modifies this`mounted, this`live
      ensures Valid() && !mounted
      ensures live == old(live)
      ensures enabled ==> stored.Some? && stored.value in live
    {
      ReminderEffectCleanup();
      mounted := false;
    }

    /** Unmounting as the comment on the cleanup intends: a cleanup that
        closes over the handle its own run created (the `timerId` of that
        run, when there is one) stops the running reminder, so nothing is
        live afterwards and no reminder can fire. */
    method UnmountClearingLatest()
      requires Valid() && mounted
      modifies this`mounted, this`live
      ensures !mounted
      ensures live == map[]
    {
      if enabled {
        ClearTimer(stored.value);
      }
      mounted := false;
    }

    /** The figures the page displays, read from the current state. */
    function ProgressPercentage(): (r: real)
      reads this
      requires Valid()
      ensures 0.0 <= r <= 100.0
      ensures r == 100.0 <==> intake >= goal
      ensures intake <= goal ==> r * goal as real == intake as real * 100.0
    {
      OptionsPositive(goal, interval);
      Progress(intake, goal)
    }

    function RemainingGlasses(): (r: nat)
      reads this
      ensures r == 0 <==> intake >= goal
      ensures intake < goal ==> intake + r == goal
    {
      Remaining(intake, goal)
    }
  }

  /** Under the invariant at most one timer is live, and any live timer is
      the stored one. */
  lemma AtMostOneLiveTimer(a: App)
    requires a.Valid()
    ensures |a.live| <= 1
    ensures forall id :: id in a.live ==> a.stored == Some(id)
  {
    if a.stored.Some? && a.stored.value in a.live {
      assert a.live.Keys == {a.stored.value};
    } else {
      assert a.live.Keys == {};
    }
  }
}
