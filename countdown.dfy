/** The resend countdown of the sign-up page (useResendCountdown): a
    number of seconds, an `active` flag whose negation is "can resend", and
    the one-second interval that drives it, which is armed by an effect
    that runs whenever `active` changes. Each firing of the interval is a
    `Tick`. */
module Countdown {

  const Initial := 30

  /** `armed` says whether a live interval will deliver ticks. */
  datatype Timer = Timer(seconds: int, active: bool, armed: bool) {
    predicate CanResend() { !active }
  }

  /** The state the hook starts in: 30 seconds shown, resend available. */
  function Idle(): (t: Timer)
    ensures t.CanResend() && !t.armed && t.seconds == Initial
  {
    Timer(Initial, false, false)
  }

  /** The reachable states: seconds within [0, 30], an interval only while
      active, and an armed countdown has at least one second left. */
  predicate Consistent(t: Timer) {
    0 <= t.seconds <= Initial && (t.armed ==> t.active && t.seconds >= 1)
  }

  /** `start` as the hook is written: it clears the running interval and
      sets seconds and `active`; the effect that arms a new interval runs
      only when `active` actually changes, that is, when it was false. */
  function StartAsWritten(t: Timer): (r: Timer)
    ensures r.seconds == Initial && !r.CanResend()
    ensures r.armed <==> !t.active
  {
    Timer(Initial, true, !t.active)
  }

  /** `start` as intended: a fresh 30-second countdown with a live interval,
      whatever state the previous one was in. */
  function Start(t: Timer): (r: Timer)
    ensures r.seconds == Initial && !r.CanResend() && r.armed
  {
    Timer(Initial, true, true)
  }

  /** The two agree whenever the previous countdown had finished. */
  lemma StartAgreesWhenIdle(t: Timer)
    requires !t.active
    ensures StartAsWritten(t) == Start(t)
  {
  }

  /** One firing of the interval: count down, and at one second or less
      stop at zero, clear the interval and allow a resend. */
  function Tick(t: Timer): (r: Timer)
    ensures Consistent(t) ==> Consistent(r)
    ensures Consistent(t) && t.armed ==> r.seconds == t.seconds - 1
    ensures !t.armed ==> r == t
  {
    if !t.armed then t
    else if t.seconds <= 1 then Timer(0, false, false)
    else Timer(t.seconds - 1, t.active, t.armed)
  }

  /** `n` consecutive seconds. */
  function Ticks(t: Timer, n: nat): Timer
    decreases n
  {
    if n == 0 then t else Ticks(Tick(t), n - 1)
  }

  /** An armed countdown at `s` seconds counts down one per tick and stops
      at zero, with resend available, after exactly `s` ticks. */
  lemma {:induction false} TicksFromArmed(s: int, k: nat)
    requires 1 <= s <= Initial
    ensures Ticks(Timer(s, true, true), k) ==
      if k < s then Timer(s - k, true, true) else Timer(0, false, false)
  {
    if k > 0 {
      if s == 1 {
        TicksWhenUnarmed(Timer(0, false, false), k - 1);
      } else {
        TicksFromArmed(s - 1, k - 1);
      }
    }
  }

  /** Without a live interval nothing ever changes. */
  lemma {:induction false} TicksWhenUnarmed(t: Timer, k: nat)
    requires !t.armed
    ensures Ticks(t, k) == t
  {
    if k > 0 {
      TicksWhenUnarmed(t, k - 1);
    }
  }

  /** After `start`, resend is offered again exactly from the 30th tick on,
      and the seconds shown never go below zero. */
  lemma ResendAfterThirtyTicks(t: Timer, k: nat)
    ensures Ticks(Start(t), k).CanResend() <==> k >= Initial
    ensures Ticks(Start(t), k).seconds == if k < Initial then Initial - k else 0
  {
    TicksFromArmed(Initial, k);
  }

  /** Restarting a countdown that is still running, as written, leaves no
      interval: the page shows 30 seconds and refuses a resend for ever. */
  lemma FrozenCountdown(t: Timer, k: nat)
    requires t.active
    ensures Ticks(StartAsWritten(t), k) == Timer(Initial, true, false)
    ensures !Ticks(StartAsWritten(t), k).CanResend()
  {
    TicksWhenUnarmed(StartAsWritten(t), k);
  }
}
