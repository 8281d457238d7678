/** The notification policy: stored values, the clamping that loading applies,
    and the gates that hold a notification back before any incident state is read. */
module DeliveryPolicy {
  import opened Common

  datatype Severity = Critical | Warning | Info

  datatype Channel = Email | Telegram

  /** The policy in force. Durations are seconds, as stored. */
  datatype Policy = Policy(
    emergencyPause: bool,
    pauseUntil: Option<Time>,
    cooldownCriticalSec: int,
    cooldownWarningSec: int,
    cooldownInfoSec: int,
    repeatIntervalSec: int,
    maxRepeats: int,
    notifyOnRecovery: bool,
    emailPerHour: int,
    telegramPerHour: int)
  {
    ghost predicate Valid() {
      && cooldownCriticalSec > 0 && cooldownWarningSec > 0 && cooldownInfoSec > 0
      && repeatIntervalSec > 0
      && maxRepeats >= 0
      && emailPerHour > 0 && telegramPerHour > 0
    }

    function CooldownFor(severity: Severity): (d: int)
      ensures Valid() ==> d > 0
    {
      match severity
      case Critical => cooldownCriticalSec * SECOND
      case Info => cooldownInfoSec * SECOND
      case Warning => cooldownWarningSec * SECOND
    }

    function BudgetFor(channel: Channel): (b: int)
      ensures Valid() ==> b > 0
    {
      if channel.Telegram? then telegramPerHour else emailPerHour
    }

    /** An unset (or zero) expiry pauses indefinitely; a past one lifts the pause. */
    predicate PauseActive(now: Time) {
      emergencyPause
      && !(pauseUntil.Some? && pauseUntil.value != ZERO_TIME && now > pauseUntil.value)
    }
  }

  const DEFAULT_POLICY :=
    Policy(false, None, 900, 3600, 21600, 3600, 3, true, 60, 60)

  function PositiveOr(v: int, fallback: int): int {
    if v > 0 then v else fallback
  }

  /** Reads the singleton row. Whatever the row holds, the result is a policy whose
      cooldowns, repeat interval and budgets are positive. */
  function LoadPolicy(row: Option<Policy>): (p: Policy)
    ensures p.Valid()
    ensures row.Some? && row.value.Valid() ==> p == row.value
  {
    match row
    case None => DEFAULT_POLICY
    case Some(r) =>
      Policy(r.emergencyPause, r.pauseUntil,
             PositiveOr(r.cooldownCriticalSec, 900),
             PositiveOr(r.cooldownWarningSec, 3600),
             PositiveOr(r.cooldownInfoSec, 21600),
             PositiveOr(r.repeatIntervalSec, 3600),
             if r.maxRepeats >= 0 then r.maxRepeats else 3,
             r.notifyOnRecovery,
             PositiveOr(r.emailPerHour, 60),
             PositiveOr(r.telegramPerHour, 60))
  }

  /** A group's quiet hours in minutes of the local day; None when unset or unparsable. */
  datatype QuietHours = QuietHours(start: Option<int>, end: Option<int>, allowCritical: bool)
  {
    predicate InQuiet(localMinutes: int) {
      && start.Some? && end.Some? && start.value != end.value
      && if start.value < end.value
         then start.value <= localMinutes < end.value
         else localMinutes >= start.value || localMinutes < end.value
    }
  }

  const DAY_MINUTES: int := 24 * 60

  /** Quiet hours are an arc of the clock face, overnight or not: a minute is quiet exactly when,
      going round from the start, it is reached before the end. */
  lemma QuietIsCircular(q: QuietHours, localMinutes: int)
    requires 0 <= localMinutes < DAY_MINUTES && q.start.Some? && q.end.Some?
    requires 0 <= q.start.value < DAY_MINUTES && 0 <= q.end.value < DAY_MINUTES
    ensures q.InQuiet(localMinutes)
       <==> (localMinutes - q.start.value) % DAY_MINUTES < (q.end.value - q.start.value) % DAY_MINUTES
  {
    RoundTheClock(localMinutes, q.start.value);
    RoundTheClock(q.end.value, q.start.value);
  }

  lemma RoundTheClock(a: int, b: int)
    requires 0 <= a < DAY_MINUTES && 0 <= b < DAY_MINUTES
    ensures (a - b) % DAY_MINUTES == if a >= b then a - b else a - b + DAY_MINUTES
  {
  }

  /** What loading makes of each stored value: an unusable one is replaced by its own default, 15 minutes,
      1 hour and 6 hours of cooldown, 1 hour between repeats, 3 repeats, 60 messages an hour; the rest of
      the row is kept. Without a row everything has its default. */
  lemma LoadedValues(r: Policy)
    ensures LoadPolicy(None) == Policy(false, None, 900, 3600, 21600, 3600, 3, true, 60, 60)
    ensures var p := LoadPolicy(Some(r));
      && p.cooldownCriticalSec == (if r.cooldownCriticalSec > 0 then r.cooldownCriticalSec else 900)
      && p.cooldownWarningSec == (if r.cooldownWarningSec > 0 then r.cooldownWarningSec else 3600)
      && p.cooldownInfoSec == (if r.cooldownInfoSec > 0 then r.cooldownInfoSec else 21600)
      && p.repeatIntervalSec == (if r.repeatIntervalSec > 0 then r.repeatIntervalSec else 3600)
      && p.maxRepeats == (if r.maxRepeats >= 0 then r.maxRepeats else 3)
      && p.emailPerHour == (if r.emailPerHour > 0 then r.emailPerHour else 60)
      && p.telegramPerHour == (if r.telegramPerHour > 0 then r.telegramPerHour else 60)
      && p.emergencyPause == r.emergencyPause && p.pauseUntil == r.pauseUntil && p.notifyOnRecovery == r.notifyOnRecovery
  {
  }
}
