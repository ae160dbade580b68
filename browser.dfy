/** The browser-side vocabulary the water-reminder page talks in: interval
    timer handles, the Notification capability and its permission result,
    the notifications the page constructs, and the conversions between
    numbers and the decimal strings that the page renders and reads back. */
module Browser {

  datatype Option<+T> = None | Some(value: T)

  /** A handle returned by `setInterval`. Browsers hand out positive
      integers, so a stored handle is always truthy in JavaScript. */
  type TimerId = i: int | i > 0 witness 1

  /** The value `Notification.requestPermission()` resolves to. */
  datatype Permission = Granted | Denied | Default

  /** What a permission request comes to: either the page has no
      `Notification` capability at all, or the request resolved. */
  datatype RequestOutcome = Unsupported | Resolved(permission: Permission)

  /** The arguments of one `new Notification(title, { body, icon })`. */
  datatype Notification = Notification(title: string, body: string, icon: string)

  const WaterIcon := "/water-icon.png"

  /** The notification each tick of the reminder timer constructs. */
  const ReminderNotice := Notification("Water Reminder", "Time to drink a glass of water!", WaterIcon)

  const ActivatedTitle := "Water Reminder Activated"
  const ActivatedPrefix := "You'll be reminded every "
  const ActivatedSuffix := " minutes to drink water."

  /** The one-shot confirmation sent when reminders are (re)configured on;
      its body names the interval in minutes. */
  function ActivatedNotice(minutes: nat): (n: Notification)
    ensures n.title == ActivatedTitle && n.icon == WaterIcon && n != ReminderNotice
  {
    Notification(ActivatedTitle, ActivatedPrefix + Decimal(minutes) + ActivatedSuffix, WaterIcon)
  }

  /** The confirmation is told apart from a tick's reminder, and the
      interval can be read back out of its body, between the fixed prefix
      and suffix. */
  lemma ActivatedNoticeNamesInterval(minutes: nat)
    ensures var n := ActivatedNotice(minutes);
      n.title == ActivatedTitle && n.icon == WaterIcon && n != ReminderNotice &&
      |ActivatedPrefix| + |ActivatedSuffix| < |n.body| &&
      n.body[..|ActivatedPrefix|] == ActivatedPrefix &&
      n.body[|n.body| - |ActivatedSuffix|..] == ActivatedSuffix &&
      DecimalValue(n.body[|ActivatedPrefix|..|n.body| - |ActivatedSuffix|]) == Some(minutes)
  {
    var digits := Decimal(minutes);
    var body := ActivatedNotice(minutes).body;
    assert body[..|ActivatedPrefix|] == ActivatedPrefix;
    assert body[|body| - |ActivatedSuffix|..] == ActivatedSuffix;
    assert body[|ActivatedPrefix|..|body| - |ActivatedSuffix|] == digits;
    DecimalRoundTrip(minutes);
  }

  /** Confirmations for different intervals differ. */
  lemma ActivatedNoticeInjective(m: nat, n: nat)
    requires ActivatedNotice(m) == ActivatedNotice(n)
    ensures m == n
  {
    ActivatedNoticeNamesInterval(m);
    ActivatedNoticeNamesInterval(n);
  }

  predicate IsDigit(c: char) {
    '0' <= c <= '9'
  }

  predicate AllDigits(s: string) {
    forall i :: 0 <= i < |s| ==> IsDigit(s[i])
  }

  function DigitChar(d: nat): (c: char)
    requires d < 10
    ensures IsDigit(c) && DigitValue(c) == d
  {
    (d + '0' as int) as char
  }

  function DigitValue(c: char): nat
    requires IsDigit(c)
  {
    c as int - '0' as int
  }

  /** `String(n)` (and `${n}`) for the small non-negative integers the page
      renders: its decimal digits, most significant first, without leading
      zeros. (JavaScript switches to exponent form from 10^21 on; the page
      never renders a number near that.) */
  function Decimal(n: nat): (s: string)
    ensures 1 <= |s| && AllDigits(s)
    ensures s[0] == '0' ==> n == 0 && s == "0"
    decreases n
  {
    if n < 10 then [DigitChar(n)] else Decimal(n / 10) + [DigitChar(n % 10)]
  }

  /** The value of a string of decimal digits, read most significant first. */
  function DigitsValue(s: string): nat
    requires AllDigits(s)
  {
    if s == [] then 0 else DigitsValue(s[..|s| - 1]) * 10 + DigitValue(s[|s| - 1])
  }

  /** A digit string in the form `String` produces: non-empty, and no
      leading zero unless it is "0" itself. */
  predicate Canonical(s: string) {
    AllDigits(s) && 0 < |s| && (s[0] != '0' || |s| == 1)
  }

  /** `Number(s)` for a string made only of ASCII digits (the empty string
      gives 0, as in JavaScript). Any other string is outside this model
      and gives None. On a canonical digit string the number it yields
      renders back to that very string. */
  function DecimalValue(s: string): (r: Option<nat>)
    ensures r.Some? <==> AllDigits(s)
    ensures Canonical(s) ==> Decimal(r.value) == s
  {
    if AllDigits(s) then CanonicalRoundTrip(s); Some(DigitsValue(s)) else None
  }

  /** Among digit strings, the canonical ones are exactly those that are the
      rendering of their own value. */
  lemma {:induction false} CanonicalRoundTrip(s: string)
    ensures AllDigits(s) ==> (Canonical(s) <==> Decimal(DigitsValue(s)) == s)
    decreases |s|
  {
    if Canonical(s) {
      var last := s[|s| - 1];
      var t := s[..|s| - 1];
      var d := DigitValue(last);
      assert DigitChar(d) == last;
      if |s| == 1 {
        assert t == [];
        assert DigitsValue(s) == d;
      } else {
        assert t[0] == s[0];
        CanonicalRoundTrip(t);
        var m := DigitsValue(t);
        assert Decimal(m)[0] != '0';
        assert Decimal(0) == "0";
        var n := DigitsValue(s);
        assert n == m * 10 + d;
        assert n / 10 == m && n % 10 == d;
        assert Decimal(n) == Decimal(m) + [DigitChar(d)];
        assert s == t + [last];
      }
    }
  }

  /** Reading back a rendered number gives the number. */
  lemma {:induction false} DecimalRoundTrip(n: nat)
    ensures DecimalValue(Decimal(n)) == Some(n)
    decreases n
  {
    var s := Decimal(n);
    if n < 10 {
      assert s[..|s| - 1] == [];
      assert DigitsValue(s) == DigitsValue([]) * 10 + DigitValue(s[0]);
    } else {
      DecimalRoundTrip(n / 10);
      assert s[..|s| - 1] == Decimal(n / 10);
    }
  }

  /** Distinct numbers render as distinct strings. */
  lemma DecimalInjective(m: nat, n: nat)
    requires Decimal(m) == Decimal(n)
    ensures m == n
  {
    DecimalRoundTrip(m);
    DecimalRoundTrip(n);
  }
}
