/** The settings panel of the water-reminder page. It keeps no state of its
    own: it offers fixed goal and interval choices, hands the chosen number
    to the page's setters, and picks the notification controls from the
    page's `notificationsEnabled` flag. */
module ReminderSettings {
  import opened Browser

  /** The daily-goal choices, in the order the goal select lists them. */
  const GoalOptions: seq<nat> := [4, 6, 8, 10, 12]

  /** The reminder-interval choices in minutes, in the order listed. */
  const IntervalOptions: seq<nat> := [1, 5, 10, 30, 60, 90, 120]

  predicate AllowedGoal(g: int) {
    g in GoalOptions
  }

  predicate AllowedInterval(m: int) {
    m in IntervalOptions
  }

  /** The number the goal select hands to `setGoal` when its value becomes
      `targetValue`: `Number(e.target.value)`. */
  function OnGoalChange(targetValue: string): (g: Option<nat>)
    // a number comes out exactly for a digit string, and a canonical one
    // (an option's value) gives the number it renders
    ensures g.Some? <==> AllDigits(targetValue)
    ensures Canonical(targetValue) ==> Decimal(g.value) == targetValue
  {
    DecimalValue(targetValue)
  }

  /** The number the interval select hands to `setReminderInterval`. */
  function OnIntervalChange(targetValue: string): (m: Option<nat>)
    ensures m.Some? <==> AllDigits(targetValue)
    ensures Canonical(targetValue) ==> Decimal(m.value) == targetValue
  {
    DecimalValue(targetValue)
  }

  /** Choosing the i-th goal option: the option's `value` attribute is its
      number rendered as a string, and the handler passes exactly that
      number on, which is an allowed goal. */
  function ChooseGoal(i: nat): (g: Option<nat>)
    requires i < |GoalOptions|
    ensures g == Some(GoalOptions[i]) && AllowedGoal(g.value)
  {
    DecimalRoundTrip(GoalOptions[i]);
    OnGoalChange(Decimal(GoalOptions[i]))
  }

  /** Choosing the i-th interval option passes exactly its number of
      minutes on, which is an allowed interval. */
  function ChooseInterval(i: nat): (m: Option<nat>)
    requires i < |IntervalOptions|
    ensures m == Some(IntervalOptions[i]) && AllowedInterval(m.value)
  {
    DecimalRoundTrip(IntervalOptions[i]);
    OnIntervalChange(Decimal(IntervalOptions[i]))
  }

  /** The goals the select can produce are exactly 4, 6, 8, 10 and 12. */
  lemma GoalChoicesExact(g: int)
    ensures AllowedGoal(g) <==> exists i :: 0 <= i < |GoalOptions| && ChooseGoal(i) == Some(g)
    ensures AllowedGoal(g) <==> g in {4, 6, 8, 10, 12}
  {
    if AllowedGoal(g) {
      var i :| 0 <= i < |GoalOptions| && GoalOptions[i] == g;
      assert ChooseGoal(i) == Some(g);
    }
  }

  /** The intervals the select can produce are exactly 1, 5, 10, 30, 60,
      90 and 120 minutes. */
  lemma IntervalChoicesExact(m: int)
    ensures AllowedInterval(m) <==> exists i :: 0 <= i < |IntervalOptions| && ChooseInterval(i) == Some(m)
    ensures AllowedInterval(m) <==> m in {1, 5, 10, 30, 60, 90, 120}
  {
    if AllowedInterval(m) {
      var i :| 0 <= i < |IntervalOptions| && IntervalOptions[i] == m;
      assert ChooseInterval(i) == Some(m);
    }
  }

  /** Every allowed goal and interval is positive, so the progress ratio
      and the timer period are well defined. */
  lemma OptionsPositive(g: int, m: int)
    requires AllowedGoal(g) && AllowedInterval(m)
    ensures g > 0 && m > 0
  {
  }

  // ----- the test notification -----

  /** What `testNotification` does in the browser. */
  datatype Effect =
    | Notify(notice: Notification)
    | Alert(message: string)
    | ConsoleError(prefix: string, message: string)

  /** Whether `new Notification(...)` returned or threw (with the error's
      message). */
  datatype Construction = Constructed | Threw(message: string)

  const TestNotice := Notification("Water Reminder Test", "This is a test notification. Notifications are working!", "/vite.svg")
  const NotEnabledMessage := "Notifications are not enabled. Please enable them using the button below."
  const ErrorLabel := "Error sending test notification:"
  const ErrorAlertPrefix := "Error sending test notification: "

  predicate Notifies(effects: seq<Effect>) {
    exists i :: 0 <= i < |effects| && effects[i].Notify?
  }

  predicate Alerts(effects: seq<Effect>) {
    exists i :: 0 <= i < |effects| && effects[i].Alert?
  }

  /** `testNotification`, given whether the page has the `Notification`
      capability, the platform's current permission and how the
      constructor call would go. */
  function TestNotification(supported: bool, permission: Permission, construction: Construction): (effects: seq<Effect>)
    // a notification is sent exactly when the capability exists, permission
    // is granted and the constructor does not throw; it is the test notice
    ensures Notifies(effects) <==> supported && permission == Granted && construction == Constructed
    // on success exactly one notification, the test notice, and nothing is logged
    ensures supported && permission == Granted && construction == Constructed ==> effects == [Notify(TestNotice)]
    ensures forall i :: 0 <= i < |effects| && effects[i].Notify? ==> effects[i].notice == TestNotice
    // whatever happens the user sees exactly one of: the notification or an alert
    ensures Notifies(effects) != Alerts(effects)
    // without capability or permission, the "not enabled" alert and nothing else
    ensures !(supported && permission == Granted) ==> effects == [Alert(NotEnabledMessage)]
    // a throwing constructor is logged with its message and alerted; nothing else happens
    ensures supported && permission == Granted && construction.Threw? ==>
      effects == [ConsoleError(ErrorLabel, construction.message), Alert(ErrorAlertPrefix + construction.message)]
  {
    if supported && permission == Granted then
      match construction
      case Constructed =>
        var sent := [Notify(TestNotice)];
        assert sent[0].Notify?;
        sent
      case Threw(message) =>
        var reported := [ConsoleError(ErrorLabel, message), Alert(ErrorAlertPrefix + message)];
        assert reported[1].Alert?;
        reported
    else
      var refused := [Alert(NotEnabledMessage)];
      assert refused[0].Alert?;
      refused
  }

  // ----- the notification controls -----

  /** The page callbacks the settings panel's buttons invoke. */
  datatype Handler = TestNotificationHandler | RequestNotificationPermission | ResetWater

  const EnabledStatus := "\U{2705} Notifications enabled"
  const DisabledStatus := "\U{274C} Notifications disabled"

  /** A button: its caption and the callback its onClick invokes. */
  datatype Button = Button(caption: string, handler: Handler)

  const TestButton := Button("Test Notification", TestNotificationHandler)
  const EnableButton := Button("Enable Notifications", RequestNotificationPermission)
  const TestNowButton := Button("Test Notification Now", TestNotificationHandler)
  const ResetButton := Button("Reset Counter", ResetWater)

  /** The panel's controls: the status text, the notification button, the
      "Test Notification Now" button when it is shown, and the reset button. */
  datatype Controls = Controls(
    status: string,
    notificationButton: Button,
    testNowButton: Option<Button>,
    resetButton: Button)

  function RenderControls(notificationsEnabled: bool): (c: Controls)
    // the status reads "enabled" exactly when notifications are enabled
    ensures c.status == EnabledStatus <==> notificationsEnabled
    ensures c.status == DisabledStatus <==> !notificationsEnabled
    // the notification button tests when enabled and asks for permission otherwise
    ensures c.notificationButton.handler == TestNotificationHandler <==> notificationsEnabled
    ensures c.notificationButton.handler == RequestNotificationPermission <==> !notificationsEnabled
    ensures c.notificationButton.caption == "Test Notification" <==> notificationsEnabled
    ensures !notificationsEnabled ==> c.notificationButton.caption == "Enable Notifications"
    // the extra test button is present exactly when enabled, and it tests
    ensures c.testNowButton.Some? <==> notificationsEnabled
    ensures c.testNowButton.Some? ==> c.testNowButton.value.handler == TestNotificationHandler
    // the reset button only resets the counter, whatever the flag
    ensures c.resetButton.handler == ResetWater
  {
    if notificationsEnabled then
      Controls(EnabledStatus, TestButton, Some(TestNowButton), ResetButton)
    else
      Controls(DisabledStatus, EnableButton, None, ResetButton)
  }
}
