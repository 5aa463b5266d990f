/** The countdown of `startLogoutTimer` and its inner `tick` (script.js):
    `time` starts at 120 and every call of `tick` shows it, logs out when it
    is 0 (clearing its own interval) and then decrements it. */
module LogoutTimer {

  /** The seconds a session lasts without activity. */
  const SessionSeconds := 120

  /** The closed-over `time` of the live interval, and whether that interval
      is still live (`running` is false once it has been cleared). */
  datatype Countdown = Countdown(time: int, running: bool)

  /** No interval has been started. */
  const NoTimer := Countdown(SessionSeconds, false)

  /** One call of `tick`: the new countdown, and whether this call logs the
      user out. A cleared interval never calls `tick` again, so a call on a
      stopped countdown changes nothing. */
  function Tick(c: Countdown): (Countdown, bool)
  {
    if !c.running then (c, false)
    else if c.time == 0 then (Countdown(-1, false), true)
    else (Countdown(c.time - 1, true), false)
  }

  /** `startLogoutTimer()`: `time = 120`, then the immediate first `tick`. */
  function Start(): (c: Countdown)
    ensures c.running && c.time == SessionSeconds - 1
    ensures !Tick(Countdown(SessionSeconds, true)).1
  {
    Tick(Countdown(SessionSeconds, true)).0
  }

  /** The label `tick` shows: whole minutes and remaining seconds of `time`
      (`Math.trunc(time / 60)` and `time % 60`, which for a non-negative time
      agree with Dafny's division). */
  function MinutesSeconds(time: nat): (r: (nat, nat))
    ensures r.0 * 60 + r.1 == time
    ensures r.1 < 60
  {
    (time / 60, time % 60)
  }

  /** `n` calls of `tick` from `c`: the final countdown and how many of the
      calls logged out. */
  function Run(c: Countdown, n: nat): (Countdown, nat)
    decreases n
  {
    if n == 0 then (c, 0)
    else
      var (next, out) := Tick(c);
      var (last, outs) := Run(next, n - 1);
      (last, outs + if out then 1 else 0)
  }

  /** A stopped countdown stays stopped and never logs out. */
  lemma {:induction false} RunStopped(c: Countdown, n: nat)
    requires !c.running
    ensures Run(c, n) == (c, 0)
  {
    if n > 0 {
      RunStopped(c, n - 1);
    }
  }

  /** From a live countdown at `t`, the calls count down to 0; the call made
      at 0 (call number `t + 1`) logs out and stops the interval, and no later
      call logs out again. */
  lemma {:induction false} RunRunning(t: nat, n: nat)
    ensures Run(Countdown(t, true), n)
         == if n <= t then (Countdown(t - n, true), 0) else (Countdown(-1, false), 1)
  {
    if n > 0 {
      if t == 0 {
        RunStopped(Countdown(-1, false), n - 1);
      } else {
        RunRunning(t - 1, n - 1);
      }
    }
  }

  /** Counting the immediate call that `startLogoutTimer` makes, the session
      is logged out exactly once, by call number 121: none of the first 120
      calls logs out, the 121st does, and afterwards the interval is stopped. */
  lemma LogoutExactlyOnce(n: nat)
    ensures Run(Countdown(SessionSeconds, true), n).1 == if n <= SessionSeconds then 0 else 1
    ensures n <= SessionSeconds ==> Run(Countdown(SessionSeconds, true), n).0.running
    ensures n > SessionSeconds ==> !Run(Countdown(SessionSeconds, true), n).0.running
  {
    RunRunning(SessionSeconds, n);
  }

  /** The same, for the calls that follow `Start()`: the interval's 120th
      call is the one that logs out. */
  lemma LogoutAfterStart(n: nat)
    ensures Run(Start(), n).1 == if n < SessionSeconds then 0 else 1
    ensures n < SessionSeconds ==> Run(Start(), n).0 == Countdown(SessionSeconds - 1 - n, true)
  {
    RunRunning(SessionSeconds - 1, n);
  }
}
