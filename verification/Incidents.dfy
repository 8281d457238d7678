/** The per-incident rules: given the stored `delivery_state` row of a dedupe key and one
    notification request, what is decided and what the row becomes. These functions are
    the reference that the imperative dispatcher (module DeliveryEngine) is proved against. */
module Incidents {
  import opened Common
  import opened DeliveryPolicy

  /** `last_state`: the empty string, "firing" or "resolved". */
  datatype Lifecycle = Unset | Firing | Resolved

  datatype Reason =
    | NoReason
    | EmergencyPause
    | Maintenance
    | QuietHold
    | CooldownHold
    | MaxRepeatsHold
    | RecoveryMuted

  datatype StateRow = StateRow(
    severity: Severity,
    firstNotifiedAt: Time,
    lastNotifiedAt: Time,
    repeatCount: nat,
    lastState: Lifecycle,
    suppressed: nat,
    lastReason: Reason)

  /** A request after normalisation: severity validated, channels cleaned. */
  datatype Input = Input(
    key: string,
    severity: Severity,
    channels: seq<Channel>,
    isRecovery: bool,
    cooldownSec: int,
    repeatSec: int,
    maxRepeats: int,
    notifyRecovery: bool,
    digestMode: bool,
    digestIntervalMin: int,
    digestGroup: string)

  type ValidPolicy = p: Policy | p.Valid() witness DEFAULT_POLICY

  // Effective limits: a positive request value wins over the policy default.

  function Cooldown(pol: ValidPolicy, req: Input): (d: int)
    ensures d > 0
  {
    if req.cooldownSec <= 0 then pol.CooldownFor(req.severity) else req.cooldownSec * SECOND
  }

  function RepeatInterval(pol: ValidPolicy, req: Input): (d: int)
    ensures d > 0
  {
    (if req.repeatSec <= 0 then pol.repeatIntervalSec else req.repeatSec) * SECOND
  }

  function RepeatLimit(pol: ValidPolicy, req: Input): nat {
    if req.maxRepeats <= 0 then pol.maxRepeats else req.maxRepeats
  }

  datatype Verdict = Notify | Mute(reason: Reason)

  predicate IsFiring(row: Option<StateRow>) {
    row.Some? && row.value.lastState.Firing?
  }

  /** What the claim decides for a request against the row it locked. */
  function Decide(row: Option<StateRow>, req: Input, pol: ValidPolicy, ts: Time): Verdict {
    if req.isRecovery then
      if IsFiring(row) && req.notifyRecovery then Notify else Mute(RecoveryMuted)
    else if !IsFiring(row) then
      Notify
    else
      var elapsed := ts - row.value.lastNotifiedAt;
      if elapsed < Cooldown(pol, req) then Mute(CooldownHold)
      else if row.value.repeatCount >= RepeatLimit(pol, req) then Mute(MaxRepeatsHold)
      else if elapsed < RepeatInterval(pol, req) then Mute(CooldownHold)
      else Notify
  }

  /** A claim starts a new row when there is none, and when a firing retriggers a resolved one. */
  predicate CreatesRow(row: Option<StateRow>, req: Input) {
    row.None? || (!req.isRecovery && row.value.lastState.Resolved?)
  }

  /** The row a committed claim leaves behind. */
  function NextRow(row: Option<StateRow>, req: Input, pol: ValidPolicy, ts: Time): StateRow {
    var verdict := Decide(row, req, pol, ts);
    var was := if CreatesRow(row, req)
               then StateRow(req.severity, if verdict.Notify? then ts else ZERO_TIME, ZERO_TIME, 0, Unset, 0, NoReason)
               else row.value;
    StateRow(
      req.severity,
      was.firstNotifiedAt,
      if verdict.Notify? then ts else was.lastNotifiedAt,
      if verdict.Notify? && was.lastState.Firing? && !req.isRecovery then was.repeatCount + 1 else was.repeatCount,
      if req.isRecovery then Resolved else Firing,
      if verdict.Notify? then was.suppressed else was.suppressed + 1,
      if verdict.Notify? then NoReason else verdict.reason)
  }

  /** Whether a notification goes to the digest instead of the outbox: a critical firing never does. */
  predicate GoesToDigest(req: Input) {
    req.digestMode && (req.isRecovery || !req.severity.Critical?)
  }

  /** The policy hold recorded outside any claim (`touchSuppressed`). */
  function HeldRow(row: Option<StateRow>, severity: Severity, reason: Reason, dbNow: Time): StateRow {
    match row
    case None => StateRow(severity, dbNow, dbNow, 0, Unset, 1, reason)
    case Some(r) => r.(suppressed := r.suppressed + 1, lastReason := reason)
  }
}
