/** Sessions of the water-reminder page, checked against the App contracts
    alone: what a user sees after a few clicks and timer ticks. */
module AppScenarios {
  import opened Browser
  import opened WaterApp

  /** Permission is granted on mount, then the page is closed. The cleanup
      that runs on unmount holds the handle stored before the timer was
      started, so the reminder timer is still live afterwards and its next
      tick still sends a reminder. */
  method UnmountLeavesTimerRunning() returns (live: map<TimerId, nat>, sent: seq<Notification>)
    ensures |live| == 1 && forall id :: id in live ==> live[id] == PeriodMs(DefaultInterval)
    ensures sent == [ActivatedNotice(DefaultInterval), ReminderNotice]
  {
    var app := new App();
    app.ApplyPermission(Resolved(Granted));
    app.Unmount();
    assert app.live == map[1 := PeriodMs(DefaultInterval)];
    app.Tick(1);
    live, sent := app.live, app.sent;
  }

  /** The same session with the corrected cleanup: after unmount no timer
      is live, so the only notification ever sent is the confirmation. */
  method CorrectedUnmountStopsTimer() returns (live: map<TimerId, nat>, sent: seq<Notification>)
    ensures live == map[]
    ensures sent == [ActivatedNotice(DefaultInterval)]
  {
    var app := new App();
    app.ApplyPermission(Resolved(Granted));
    app.UnmountClearingLatest();
    live, sent := app.live, app.sent;
  }

  /** Reminders are on and the interval is changed twice: exactly one timer
      is live, at the newest period, and each change sent one "activated"
      notice naming its interval. */
  method ReconfigureKeepsOneTimer() returns (live: map<TimerId, nat>, sent: seq<Notification>)
    ensures |live| == 1 && forall id :: id in live ==> live[id] == PeriodMs(60)
    ensures sent == [ActivatedNotice(10), ActivatedNotice(30), ActivatedNotice(60)]
  {
    var app := new App();
    app.ApplyPermission(Resolved(Granted));
    assert app.stored == Some(1) && app.sent == [ActivatedNotice(10)];
    app.SetReminderInterval(30);
    assert app.stored == Some(2) && app.sent == [ActivatedNotice(10), ActivatedNotice(30)];
    app.SetReminderInterval(60);
    assert app.live == map[3 := PeriodMs(60)];
    live, sent := app.live, app.sent;
  }

  /** Reminders are turned off (permission is answered "denied"), the same
      answer arrives again, and the interval is changed while off: no timer
      is live and nothing but the first "activated" notice was ever sent. */
  method DisablingIsHarmlessToRepeat() returns (live: map<TimerId, nat>, sent: seq<Notification>, enabled: bool)
    ensures live == map[] && !enabled
    ensures sent == [ActivatedNotice(DefaultInterval)]
  {
    var app := new App();
    app.ApplyPermission(Resolved(Granted));
    app.ApplyPermission(Resolved(Denied));
    app.ApplyPermission(Resolved(Denied));
    app.SetReminderInterval(5);
    app.ApplyPermission(Resolved(Default));
    live, sent, enabled := app.live, app.sent, app.enabled;
  }

  /** A glass is logged, reminders come on and the timer ticks twice: the
      ticks only add reminders; the count and the goal stay as they were,
      and granting again (an unchanged flag) sends nothing more. */
  method TicksOnlyRemind() returns (intake: nat, goal: nat, remaining: nat, sent: seq<Notification>)
    ensures intake == 1 && goal == DefaultGoal && remaining == 7
    ensures sent == [ActivatedNotice(DefaultInterval), ReminderNotice, ReminderNotice]
  {
    var app := new App();
    app.AddWater();
    app.ApplyPermission(Resolved(Granted));
    app.Tick(1);
    app.Tick(1);
    app.ApplyPermission(Resolved(Granted));
    intake, goal, remaining, sent := app.intake, app.goal, app.RemainingGlasses(), app.sent;
  }

  /** Without the Notification capability nothing the permission path does
      changes the page: the flag stays off and no timer starts. */
  method UnsupportedChangesNothing() returns (live: map<TimerId, nat>, sent: seq<Notification>, enabled: bool)
    ensures live == map[] && sent == [] && !enabled
  {
    var app := new App();
    app.ApplyPermission(Unsupported);
    live, sent, enabled := app.live, app.sent, app.enabled;
  }

  /** Eight glasses against the default goal of eight fill the progress
      ring; a reset empties it again and leaves the goal alone. */
  method ReachGoalThenReset() returns (full: real, afterReset: real, goal: nat)
    ensures full == 100.0 && afterReset == 0.0 && goal == DefaultGoal
  {
    var app := new App();
    var n := 0;
    while n < 8
      invariant 0 <= n <= 8
      invariant app.Valid() && app.mounted && app.intake == n && app.goal == DefaultGoal
    {
      app.AddWater();
      n := n + 1;
    }
    full := app.ProgressPercentage();
    app.ResetWater();
    afterReset := app.ProgressPercentage();
    goal := app.goal;
  }
}
