/**
 * The keeper-incentive timer of allocate: the incentive is paid when `duration`
 * has passed since the timer last started, and paying it restarts the timer.
 * The timer first starts when the curve is deployed.
 */
module Incentive {

  /** The timer has run out: `duration` has passed since `lastPaid`. */
  predicate IncentiveDue(lastPaid: nat, duration: nat, now: nat) {
    now >= lastPaid + duration
  }

  /** The timer's start after an allocate at time `now`: restarted exactly when the incentive was paid. */
  function TimerAfter(lastPaid: nat, duration: nat, now: nat): (t: nat)
    ensures lastPaid <= now ==> lastPaid <= t <= now
    ensures t == now || t == lastPaid
  {
    if IncentiveDue(lastPaid, duration, now) then now else lastPaid
  }

  /** The times at which a sequence of allocates, made at the given times, pays the incentive. */
  function Payments(lastPaid: nat, duration: nat, times: seq<nat>): seq<nat>
    decreases |times|
  {
    if |times| == 0 then []
    else
      var paid := if IncentiveDue(lastPaid, duration, times[0]) then [times[0]] else [];
      paid + Payments(TimerAfter(lastPaid, duration, times[0]), duration, times[1..])
  }

  /** Two allocates closer together than `duration` pay the incentive at most once between them. */
  lemma CooldownPaysAtMostOnce(lastPaid: nat, duration: nat, t1: nat, t2: nat)
    requires t1 <= t2 < t1 + duration
    ensures !(IncentiveDue(lastPaid, duration, t1) && IncentiveDue(TimerAfter(lastPaid, duration, t1), duration, t2))
  {
  }

  /** After a paid allocate, the next allocate at least `duration` later is paid again. */
  lemma PaidAgainAfterCooldown(lastPaid: nat, duration: nat, t1: nat, t2: nat)
    requires IncentiveDue(lastPaid, duration, t1)
    requires t2 >= t1 + duration
    ensures IncentiveDue(TimerAfter(lastPaid, duration, t1), duration, t2)
  {
  }

  /**
   * Paid incentives are spaced: the first comes `duration` after the timer started,
   * each later one `duration` after the one before, whatever the calls in between.
   */
  lemma {:induction false} PaymentsSpaced(lastPaid: nat, duration: nat, times: seq<nat>)
    ensures var p := Payments(lastPaid, duration, times);
      && (|p| > 0 ==> p[0] >= lastPaid + duration)
      && (forall i :: 0 < i < |p| ==> p[i] >= p[i - 1] + duration)
    decreases |times|
  {
    if |times| > 0 {
      PaymentsSpaced(TimerAfter(lastPaid, duration, times[0]), duration, times[1..]);
    }
  }

  /** However many allocates fall inside one window shorter than `duration`, at most one of them is paid. */
  lemma AtMostOnePaymentPerWindow(lastPaid: nat, duration: nat, times: seq<nat>, start: nat)
    requires forall i :: 0 <= i < |times| ==> start <= times[i] < start + duration
    ensures |Payments(lastPaid, duration, times)| <= 1
  {
    PaymentsSpaced(lastPaid, duration, times);
    var p := Payments(lastPaid, duration, times);
    if |p| > 1 {
      PaymentsAreCallTimes(lastPaid, duration, times, 0);
      PaymentsAreCallTimes(lastPaid, duration, times, 1);
      assert false;
    }
  }

  /** Every payment happens at the time of some allocate. */
  lemma {:induction false} PaymentsAreCallTimes(lastPaid: nat, duration: nat, times: seq<nat>, k: nat)
    requires k < |Payments(lastPaid, duration, times)|
    ensures Payments(lastPaid, duration, times)[k] in times
    decreases |times|
  {
    if IncentiveDue(lastPaid, duration, times[0]) {
      if k > 0 {
        PaymentsAreCallTimes(times[0], duration, times[1..], k - 1);
      }
    } else {
      PaymentsAreCallTimes(lastPaid, duration, times[1..], k);
    }
  }
}
