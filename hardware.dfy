/** The hardware the driver talks to, reduced to what the driver can observe:
    an SPI bus and a set of output pins whose every action is recorded in one
    ghost event log, and a fault oracle that decides when the next fallible
    operation fails.

    The semantics of a sequence of hardware actions is `Run`: the actions are
    attempted in order, and the first fallible one that fails stops the run
    (the `?` operator of the driver). */
module Hardware {

  type byte = x: int | 0 <= x < 256

  datatype Level = Low | High

  /** The output pins the driver drives. */
  datatype Pin = Dc | Backlight | LedRed | LedGreen | LedBlue

  /** The two sources of failure: the SPI bus and the PWM controller. */
  datatype Error = BusError | GpioError

  /** The result of a fallible driver operation; `:-` propagates a failure. */
  datatype Outcome = Pass | Fail(error: Error) {
    predicate IsFailure() { Fail? }
    function PropagateFailure(): Outcome requires Fail? { this }
  }

  /** An action visible on the hardware. */
  datatype Event =
    | Drive(pin: Pin, level: Level)   // an output pin driven low or high
    | Write(data: seq<byte>)          // one SPI transfer
    | Delay(ms: nat)                  // a pause of the calling thread
    | PwmOff(pin: Pin)                // software PWM stopped on a pin
    | PwmOn(pin: Pin)                 // software PWM started on a pin
    | TearReady                       // the tearing-effect input was seen high

  /** Actions that can report an error: SPI transfers and PWM changes. */
  predicate Fallible(e: Event) {
    e.Write? || e.PwmOff? || e.PwmOn?
  }

  function ErrorOf(e: Event): Error {
    if e.Write? then BusError else GpioError
  }

  /** The observable effect of running actions: the log afterwards, whether
      they all succeeded, and how many more fallible actions will succeed. */
  datatype Effect = Effect(log: seq<Event>, status: Outcome, budget: nat)

  /** One action attempted when `b` more fallible actions will succeed: a
      failing action leaves no trace in the log. */
  function Step(e: Event, log: seq<Event>, b: nat): (r: Effect)
    ensures r.status.Fail? <==> Fallible(e) && b == 0
    ensures r.status.Pass? ==> r.log == log + [e]
    ensures r.status.Fail? ==> r.log == log && r.status.error == ErrorOf(e)
  {
    if Fallible(e) && b == 0 then Effect(log, Fail(ErrorOf(e)), 0)
    else Effect(log + [e], Pass, if Fallible(e) then b - 1 else b)
  }

  /** Actions attempted in order, stopping at the first failure. */
  function Run(t: seq<Event>, log: seq<Event>, b: nat): Effect
    decreases |t|
  {
    if t == [] then Effect(log, Pass, b)
    else
      var e := Step(t[0], log, b);
      if e.status.Fail? then e else Run(t[1..], e.log, e.budget)
  }

  /** The number of fallible actions in a trace. */
  function Attempts(t: seq<Event>): nat {
    if t == [] then 0 else (if Fallible(t[0]) then 1 else 0) + Attempts(t[1..])
  }

  lemma {:induction false} AttemptsAppend(s: seq<Event>, t: seq<Event>)
    ensures Attempts(s + t) == Attempts(s) + Attempts(t)
    decreases |s|
  {
    if s == [] {
      assert s + t == t;
    } else {
      assert (s + t)[0] == s[0] && (s + t)[1..] == s[1..] + t;
      AttemptsAppend(s[1..], t);
    }
  }

  /** Running two traces one after the other is running their concatenation:
      the second starts only if the first succeeded. */
  lemma {:induction false} RunAppend(s: seq<Event>, t: seq<Event>, log: seq<Event>, b: nat)
    ensures Run(s + t, log, b) ==
            var e := Run(s, log, b);
            if e.status.Fail? then e else Run(t, e.log, e.budget)
    decreases |s|
  {
    if s == [] {
      assert s + t == t;
    } else {
      assert (s + t)[0] == s[0] && (s + t)[1..] == s[1..] + t;
      var e := Step(s[0], log, b);
      if e.status.Pass? {
        RunAppend(s[1..], t, e.log, e.budget);
      }
    }
  }

  /** A run keeps the old log in front and appends a prefix of the trace. */
  lemma {:induction false} RunPrefix(t: seq<Event>, log: seq<Event>, b: nat)
    ensures var e := Run(t, log, b);
      |log| <= |e.log| <= |log| + |t| && e.log == log + t[..|e.log| - |log|]
    decreases |t|
  {
    if t != [] {
      var s := Step(t[0], log, b);
      if s.status.Pass? {
        RunPrefix(t[1..], s.log, s.budget);
        var n := |Run(t[1..], s.log, s.budget).log| - |s.log|;
        assert t[..n + 1] == [t[0]] + t[1..][..n];
      } else {
        assert t[..0] == [];
      }
    }
  }

  /** A run succeeds exactly when the budget covers every fallible action,
      and then it logs the whole trace and spends one unit per such action. */
  lemma {:induction false} RunPass(t: seq<Event>, log: seq<Event>, b: nat)
    ensures var e := Run(t, log, b);
      && (e.status.Pass? <==> Attempts(t) <= b)
      && (e.status.Pass? ==> e.log == log + t && e.budget == b - Attempts(t))
    decreases |t|
  {
    if t != [] {
      var s := Step(t[0], log, b);
      if s.status.Pass? {
        RunPass(t[1..], s.log, s.budget);
        assert t == [t[0]] + t[1..];
      }
    }
  }

  /** A failed run has logged exactly `b` fallible actions; the action after
      the logged part is fallible, and its error is the one reported. */
  lemma {:induction false} RunFail(t: seq<Event>, log: seq<Event>, b: nat)
    requires Run(t, log, b).status.Fail?
    ensures var e := Run(t, log, b); var n := |e.log| - |log|;
      && 0 <= n < |t| && Fallible(t[n]) && Attempts(t[..n]) == b
      && e.status.error == ErrorOf(t[n]) && e.budget == 0
    decreases |t|
  {
    RunPrefix(t, log, b);
    var s := Step(t[0], log, b);
    if s.status.Pass? {
      RunFail(t[1..], s.log, s.budget);
      RunPrefix(t[1..], s.log, s.budget);
      var n := |Run(t[1..], s.log, s.budget).log| - |s.log|;
      assert t[..n + 1][0] == t[0] && t[..n + 1][1..] == t[1..][..n];
    } else {
      assert t[..0] == [];
    }
  }

  /** Running two actions: the second is attempted only if the first succeeded. */
  lemma RunTwo(e1: Event, e2: Event, log: seq<Event>, b: nat)
    ensures Run([e1, e2], log, b) ==
            var s1 := Step(e1, log, b);
            if s1.status.Fail? then s1
            else var s2 := Step(e2, s1.log, s1.budget);
                 if s2.status.Fail? then s2 else Effect(s2.log, Pass, s2.budget)
  {
    assert [e1, e2][1..] == [e2] && [e2][1..] == [];
    var s1 := Step(e1, log, b);
    assert Run([e1, e2], log, b) == if s1.status.Fail? then s1 else Run([e2], s1.log, s1.budget);
    if s1.status.Pass? {
      var s2 := Step(e2, s1.log, s1.budget);
      assert Run([e2], s1.log, s1.budget) == if s2.status.Fail? then s2 else Run([], s2.log, s2.budget);
    }
  }

  /** Every fallible action of the trace is an SPI transfer. */
  predicate BusOnly(t: seq<Event>) {
    forall e | e in t :: Fallible(e) ==> e.Write?
  }

  /** Fail-fast for a trace whose fallible actions are all SPI transfers: it
      completes when the budget covers them; otherwise it stops with a bus
      error after a strict prefix, having made exactly `b` transfers. */
  lemma BusFailFast(t: seq<Event>, log: seq<Event>, b: nat)
    requires BusOnly(t)
    ensures var e := Run(t, log, b);
      && (e.status.Pass? <==> Attempts(t) <= b)
      && (e.status.Pass? ==> e.log == log + t)
      && (e.status.Fail? ==>
            var n := |e.log| - |log|;
            && 0 <= n < |t|
            && e.log == log + t[..n]
            && Attempts(t[..n]) == b
            && e.status.error == BusError)
  {
    RunPass(t, log, b);
    RunPrefix(t, log, b);
    if Run(t, log, b).status.Fail? {
      RunFail(t, log, b);
    }
  }

  /** The SPI bus and the output pins of the board.  `log` records every
      action in order; `budget` is the fault oracle: the number of further
      fallible actions that succeed before one fails. */
  class Board {
    ghost var log: seq<Event>
    var budget: nat

    constructor (budget: nat)
      ensures log == [] && this.budget == budget
    {
      log := [];
      this.budget := budget;
    }

    method SetHigh(p: Pin)
      modifies this
      ensures log == old(log) + [Drive(p, High)] && budget == old(budget)
    {
      log := log + [Drive(p, High)];
    }

    method SetLow(p: Pin)
      modifies this
      ensures log == old(log) + [Drive(p, Low)] && budget == old(budget)
    {
      log := log + [Drive(p, Low)];
    }

    method Sleep(ms: nat)
      modifies this
      ensures log == old(log) + [Delay(ms)] && budget == old(budget)
    {
      log := log + [Delay(ms)];
    }

    /** Returns once the tearing-effect input reads high. */
    method AwaitTear()
      modifies this
      ensures log == old(log) + [TearReady] && budget == old(budget)
    {
      log := log + [TearReady];
    }

    method SpiWrite(data: seq<byte>) returns (r: Outcome)
      modifies this
      ensures Effect(log, r, budget) == Step(Write(data), old(log), old(budget))
    {
      if budget == 0 {
        r := Fail(BusError);
      } else {
        log, budget, r := log + [Write(data)], budget - 1, Pass;
      }
    }

    method ClearPwm(p: Pin) returns (r: Outcome)
      modifies this
      ensures Effect(log, r, budget) == Step(PwmOff(p), old(log), old(budget))
    {
      if budget == 0 {
        r := Fail(GpioError);
      } else {
        log, budget, r := log + [PwmOff(p)], budget - 1, Pass;
      }
    }

    method SetPwm(p: Pin) returns (r: Outcome)
      modifies this
      ensures Effect(log, r, budget) == Step(PwmOn(p), old(log), old(budget))
    {
      if budget == 0 {
        r := Fail(GpioError);
      } else {
        log, budget, r := log + [PwmOn(p)], budget - 1, Pass;
      }
    }
  }
}
