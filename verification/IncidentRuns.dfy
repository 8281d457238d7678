/** What the per-incident rules guarantee over every history of one dedupe key: claims in
    commit order (their clock readings in any order), policy holds, and retention pruning. */
module IncidentRuns {
  import opened Common
  import opened DeliveryPolicy
  import opened Incidents

  datatype Event =
    | Claim(req: Input, pol: ValidPolicy, ts: Time)
    | Hold(severity: Severity, reason: Reason, dbNow: Time)
    | Prune

  function Step(row: Option<StateRow>, e: Event): Option<StateRow> {
    match e
    case Claim(req, pol, ts) => Some(NextRow(row, req, pol, ts))
    case Hold(severity, reason, dbNow) => Some(HeldRow(row, severity, reason, dbNow))
    case Prune => if row.Some? && row.value.lastState.Resolved? then None else row
  }

  /** The stored row after the first n events of a history that starts with no row. */
  function RowAt(h: seq<Event>, n: nat): Option<StateRow>
    requires n <= |h|
  {
    if n == 0 then None else Step(RowAt(h, n - 1), h[n - 1])
  }

  predicate Notified(h: seq<Event>, i: nat)
    requires i < |h|
  {
    h[i].Claim? && Decide(RowAt(h, i), h[i].req, h[i].pol, h[i].ts).Notify?
  }

  /** Event i is a firing message, queued or digested. */
  predicate FiringNotice(h: seq<Event>, i: nat)
    requires i < |h|
  {
    Notified(h, i) && !h[i].req.isRecovery
  }

  /** Event i is a recovery message, queued or digested. */
  predicate RecoveryNotice(h: seq<Event>, i: nat)
    requires i < |h|
  {
    Notified(h, i) && h[i].req.isRecovery
  }

  /** Event i is a claimed recovery, sent or muted: it ends the incident cycle. */
  predicate EndsCycle(h: seq<Event>, i: nat)
    requires i < |h|
  {
    h[i].Claim? && h[i].req.isRecovery
  }

  /** Firing messages of the cycle in progress before event n. */
  function CycleNotices(h: seq<Event>, n: nat): nat
    requires n <= |h|
  {
    if n == 0 || EndsCycle(h, n - 1) then 0
    else CycleNotices(h, n - 1) + (if FiringNotice(h, n - 1) then 1 else 0)
  }

  // ---------------------------------------------------------------- spacing

  /** Until the cycle ends, the row remembers a firing no earlier than any firing message sent. */
  lemma {:induction false} FiringIsRemembered(h: seq<Event>, i: nat, n: nat)
    requires i < n <= |h|
    requires FiringNotice(h, i)
    requires forall k :: i < k < n ==> !EndsCycle(h, k)
    ensures IsFiring(RowAt(h, n))
    ensures RowAt(h, n).value.lastNotifiedAt >= h[i].ts
  {
    if n > i + 1 {
      FiringIsRemembered(h, i, n - 1);
      assert !EndsCycle(h, n - 1);
    }
  }

  /** Two firing messages of one cycle are at least the later request's cooldown and
      repeat interval apart. Nothing is assumed about the order of the clock readings. */
  lemma Spacing(h: seq<Event>, i: nat, j: nat)
    requires i < j < |h|
    requires FiringNotice(h, i) && FiringNotice(h, j)
    requires forall k :: i < k < j ==> !EndsCycle(h, k)
    ensures h[j].ts - h[i].ts >= Max(Cooldown(h[j].pol, h[j].req), RepeatInterval(h[j].pol, h[j].req))
  {
    FiringIsRemembered(h, i, j);
  }

  // ------------------------------------------------------ repeat accounting

  /** The row says firing exactly when the cycle has sent a firing message, and
      `repeat_count` is then the number of those messages minus one. */
  lemma {:induction false} RepeatAccounting(h: seq<Event>, n: nat)
    requires n <= |h|
    ensures IsFiring(RowAt(h, n)) <==> CycleNotices(h, n) > 0
    ensures IsFiring(RowAt(h, n)) ==> RowAt(h, n).value.repeatCount + 1 == CycleNotices(h, n)
    ensures RowAt(h, n).Some? && RowAt(h, n).value.lastState.Unset? ==> RowAt(h, n).value.repeatCount == 0
  {
    if n > 0 {
      RepeatAccounting(h, n - 1);
    }
  }

  /** With every effective repeat limit at most `limit`, no cycle sends more than 1 + limit firing messages. */
  lemma {:induction false} RepeatCap(h: seq<Event>, n: nat, limit: nat)
    requires n <= |h|
    requires forall i :: 0 <= i < n && h[i].Claim? ==> RepeatLimit(h[i].pol, h[i].req) <= limit
    ensures CycleNotices(h, n) <= 1 + limit
  {
    if n > 0 {
      RepeatCap(h, n - 1, limit);
      RepeatAccounting(h, n - 1);
    }
  }

  // ---------------------------------------------------- recovery discipline

  /** A recovery message is produced exactly when the request asks for one and the
      current cycle has sent a firing message. */
  lemma RecoveryExactly(h: seq<Event>, i: nat)
    requires i < |h|
    ensures RecoveryNotice(h, i)
        <==> EndsCycle(h, i) && h[i].req.notifyRecovery && CycleNotices(h, i) > 0
  {
    RepeatAccounting(h, i);
  }

  lemma {:induction false} CycleHasNotice(h: seq<Event>, n: nat) returns (k: nat)
    requires n <= |h|
    requires CycleNotices(h, n) > 0
    ensures k < n && FiringNotice(h, k)
    ensures forall m :: k <= m < n ==> !EndsCycle(h, m)
  {
    if FiringNotice(h, n - 1) {
      k := n - 1;
    } else {
      k := CycleHasNotice(h, n - 1);
    }
  }

  /** Every recovery message follows a firing message of its own cycle, so between two
      recovery messages there is always a new firing message: one recovery per cycle at most. */
  lemma RecoveryNeedsFiring(h: seq<Event>, j: nat) returns (k: nat)
    requires j < |h| && RecoveryNotice(h, j)
    ensures k < j && FiringNotice(h, k)
    ensures forall i :: k <= i < j ==> !EndsCycle(h, i)
    ensures forall i :: 0 <= i < j && RecoveryNotice(h, i) ==> i < k
  {
    RecoveryExactly(h, j);
    k := CycleHasNotice(h, j);
    forall i | 0 <= i < j && RecoveryNotice(h, i)
      ensures i < k
    {
      assert EndsCycle(h, i);
    }
  }

  // ------------------------------------------------- suppression conservation

  predicate Suppression(h: seq<Event>, i: nat)
    requires i < |h|
  {
    h[i].Hold? || (h[i].Claim? && !Notified(h, i))
  }

  predicate Creates(h: seq<Event>, i: nat)
    requires i < |h|
  {
    (h[i].Claim? && CreatesRow(RowAt(h, i), h[i].req)) || (h[i].Hold? && RowAt(h, i).None?)
  }

  /** The event that created the row stored after n events. */
  function CreatedBy(h: seq<Event>, n: nat): (c: nat)
    requires n <= |h|
    requires RowAt(h, n).Some?
    ensures c < n && Creates(h, c)
    ensures forall i :: c < i < n ==> !Creates(h, i)
  {
    if Creates(h, n - 1) then n - 1 else CreatedBy(h, n - 1)
  }

  function CountSuppressions(h: seq<Event>, from: nat, to: nat): nat
    requires from <= to <= |h|
  {
    if from == to then 0
    else CountSuppressions(h, from, to - 1) + (if Suppression(h, to - 1) then 1 else 0)
  }

  /** `suppressed_count` is the number of suppressions, on either path, since the row was created. */
  lemma {:induction false} SuppressionConservation(h: seq<Event>, n: nat)
    requires n <= |h|
    requires RowAt(h, n).Some?
    ensures RowAt(h, n).value.suppressed == CountSuppressions(h, CreatedBy(h, n), n)
  {
    if !Creates(h, n - 1) {
      SuppressionConservation(h, n - 1);
    } else {
      assert CountSuppressions(h, n - 1, n - 1) == 0;
    }
  }

  // ---------------------------------------------------- what must be sent, and when

  /** The cycle's latest firing message before event n. */
  function LatestNotice(h: seq<Event>, n: nat): (k: nat)
    requires n <= |h| && CycleNotices(h, n) > 0
    ensures k < n && FiringNotice(h, k)
    ensures forall m :: k < m < n ==> !EndsCycle(h, m) && !FiringNotice(h, m)
  {
    if FiringNotice(h, n - 1) then n - 1 else LatestNotice(h, n - 1)
  }

  /** Until the next message the row remembers the time of the latest one. */
  lemma {:induction false} LatestIsRemembered(h: seq<Event>, k: nat, n: nat)
    requires k < n <= |h| && FiringNotice(h, k)
    requires forall m :: k < m < n ==> !EndsCycle(h, m) && !FiringNotice(h, m)
    ensures IsFiring(RowAt(h, n)) && RowAt(h, n).value.lastNotifiedAt == h[k].ts
  {
    if n > k + 1 {
      LatestIsRemembered(h, k, n - 1);
      assert !EndsCycle(h, n - 1) && !FiringNotice(h, n - 1);
    }
  }

  /** The time between claim i and the cycle's latest firing message before it. */
  function Gap(h: seq<Event>, i: nat): int
    requires i < |h| && h[i].Claim? && CycleNotices(h, i) > 0
  {
    h[i].ts - h[LatestNotice(h, i)].ts
  }

  /** A firing claim is a message exactly when it is the first of its cycle, or both the cooldown and the
      repeat interval have passed since the latest one and the cycle has not used up its repeats. A
      positive value of the request wins over the policy's. */
  lemma FiringExactly(h: seq<Event>, i: nat)
    requires i < |h| && h[i].Claim? && !h[i].req.isRecovery
    ensures
      var req, pol := h[i].req, h[i].pol;
      var cooldownSec := if req.cooldownSec > 0 then req.cooldownSec
                         else match req.severity
                              case Critical => pol.cooldownCriticalSec
                              case Warning => pol.cooldownWarningSec
                              case Info => pol.cooldownInfoSec;
      var intervalSec := if req.repeatSec > 0 then req.repeatSec else pol.repeatIntervalSec;
      var limit := if req.maxRepeats > 0 then req.maxRepeats else pol.maxRepeats;
      FiringNotice(h, i) <==>
        CycleNotices(h, i) == 0
        || (Gap(h, i) >= cooldownSec * 1_000_000 && Gap(h, i) >= intervalSec * 1_000_000 && CycleNotices(h, i) <= limit)
  {
    RepeatAccounting(h, i);
    if CycleNotices(h, i) > 0 {
      LatestIsRemembered(h, LatestNotice(h, i), i);
    }
  }

  /** Why a firing claim was held: the repeats were used up once the cooldown had passed, or else it was
      too early. */
  lemma HeldReason(h: seq<Event>, i: nat)
    requires i < |h| && h[i].Claim? && !h[i].req.isRecovery && !FiringNotice(h, i)
    ensures CycleNotices(h, i) > 0 && RowAt(h, i + 1).Some?
    ensures RowAt(h, i + 1).value.lastReason ==
            if Gap(h, i) >= Cooldown(h[i].pol, h[i].req) && CycleNotices(h, i) > RepeatLimit(h[i].pol, h[i].req)
            then MaxRepeatsHold else CooldownHold
  {
    RepeatAccounting(h, i);
    if CycleNotices(h, i) > 0 {
      LatestIsRemembered(h, LatestNotice(h, i), i);
    }
  }

  /** `first_notified_at` tells how the row began: with a message, with a policy hold, or with a recovery
      that had nothing to recover from. */
  lemma {:induction false} FirstNotifiedAt(h: seq<Event>, n: nat)
    requires n <= |h| && RowAt(h, n).Some?
    ensures var began := CreatedBy(h, n);
            RowAt(h, n).value.firstNotifiedAt ==
            if h[began].Hold? then h[began].dbNow
            else if Notified(h, began) then h[began].ts
            else ZERO_TIME
  {
    if !Creates(h, n - 1) {
      FirstNotifiedAt(h, n - 1);
    }
  }

  /** What the row says of the latest event: its severity and state after a claim, the reason after a
      suppression, none after a message, whose time it takes; a policy hold begins an unset row or adds a
      suppression to the row there is. */
  lemma LatestEvent(h: seq<Event>, n: nat)
    requires n < |h| && !h[n].Prune?
    ensures RowAt(h, n + 1).Some?
    ensures h[n].Claim? ==> RowAt(h, n + 1).value.severity == h[n].req.severity
    ensures h[n].Claim? ==> RowAt(h, n + 1).value.lastState == if h[n].req.isRecovery then Resolved else Firing
    ensures h[n].Claim? ==> (RowAt(h, n + 1).value.lastReason == NoReason <==> Notified(h, n))
    ensures EndsCycle(h, n) && !Notified(h, n) ==> RowAt(h, n + 1).value.lastReason == RecoveryMuted
    ensures h[n].Hold? && RowAt(h, n).None? ==>
              RowAt(h, n + 1).value == StateRow(h[n].severity, h[n].dbNow, h[n].dbNow, 0, Unset, 1, h[n].reason)
    ensures h[n].Hold? && RowAt(h, n).Some? ==>
              RowAt(h, n + 1).value == RowAt(h, n).value.(suppressed := RowAt(h, n).value.suppressed + 1, lastReason := h[n].reason)
    ensures Notified(h, n) ==> RowAt(h, n + 1).value.lastNotifiedAt == h[n].ts
    ensures h[n].Claim? && !Notified(h, n) ==>
              RowAt(h, n + 1).value.lastNotifiedAt == if RowAt(h, n).Some? then RowAt(h, n).value.lastNotifiedAt else ZERO_TIME
  {
  }
}
