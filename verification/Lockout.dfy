/** Progressive login lockout: the failure counter and lock of one account over a sequence of login attempts. */
module Lockout {
  import opened Options
  import opened Backoff

  /** `LOGIN_MAX_FAILED_ATTEMPTS`, `LOGIN_LOCKOUT_BASE_MS` and `LOGIN_LOCKOUT_MAX_MS`. */
  datatype Policy = Policy(threshold: int, baseMs: nat, maxMs: nat)

  /** The lockout part of a user row. */
  datatype Account = Account(failed: nat, lockUntil: Option<int>, twoFactor: bool)

  datatype Attempt = Attempt(at: int, correct: bool)

  datatype Outcome = Locked | WrongPassword | Challenged | LoggedIn

  function Min(a: nat, b: nat): nat { if a <= b then a else b }

  function Excess(p: Policy, failures: nat): nat {
    if failures > p.threshold then failures - p.threshold else 0
  }

  function LockoutDuration(p: Policy, failures: nat): nat {
    Min(p.maxMs, p.baseMs * Pow2(Excess(p, failures)))
  }

  function OutcomeOf(a: Account, x: Attempt): Outcome {
    if a.lockUntil.Some? && a.lockUntil.value > x.at then Locked
    else if !x.correct then WrongPassword
    else if a.twoFactor then Challenged
    else LoggedIn
  }

  /** A failed check counts and, from the threshold on, locks; a password accepted for an account with two-factor
      login is answered with a challenge before the counter is cleared. */
  function After(p: Policy, a: Account, x: Attempt): Account {
    match OutcomeOf(a, x)
    case Locked => a
    case Challenged => a
    case LoggedIn => a.(failed := 0, lockUntil := None)
    case WrongPassword =>
      var n := a.failed + 1;
      if n >= p.threshold then a.(failed := n, lockUntil := Some(x.at + LockoutDuration(p, n)))
      else a.(failed := n)
  }

  function AfterAll(p: Policy, a: Account, xs: seq<Attempt>): Account
    decreases |xs|
  {
    if xs == [] then a else AfterAll(p, After(p, a, xs[0]), xs[1..])
  }

  /** When the password checks that failed took place. */
  function FailureTimes(p: Policy, a: Account, xs: seq<Attempt>): seq<int>
    decreases |xs|
  {
    if xs == [] then []
    else (if OutcomeOf(a, xs[0]).WrongPassword? then [xs[0].at] else []) + FailureTimes(p, After(p, a, xs[0]), xs[1..])
  }

  predicate NoLogin(p: Policy, a: Account, xs: seq<Attempt>)
    decreases |xs|
  {
    xs != [] ==> !OutcomeOf(a, xs[0]).LoggedIn? && NoLogin(p, After(p, a, xs[0]), xs[1..])
  }

  /** The clock does not run backwards. */
  predicate Ordered(xs: seq<Attempt>)
    decreases |xs|
  {
    |xs| >= 2 ==> xs[0].at <= xs[1].at && Ordered(xs[1..])
  }

  // ----- the duration --------------------------------------------------------

  lemma {:induction false} Pow2Grows(m: nat, n: nat)
    requires m <= n
    ensures Pow2(m) <= Pow2(n)
    decreases n
  {
    if m < n { Pow2Grows(m, n - 1); }
  }

  lemma ScaleGrows(b: nat, x: nat, y: nat)
    requires x <= y
    ensures b * x <= b * y
  {
  }

  /** More failures never lock for less, and no lock is longer than the maximum. */
  lemma DurationIsMonotoneAndCapped(p: Policy, m: nat, n: nat)
    requires m <= n
    ensures LockoutDuration(p, m) <= LockoutDuration(p, n) <= p.maxMs
  {
    Pow2Grows(Excess(p, m), Excess(p, n));
    ScaleGrows(p.baseMs, Pow2(Excess(p, m)), Pow2(Excess(p, n)));
  }

  /** Each further failure doubles the lock until the maximum is reached. */
  lemma DurationDoublesToTheCap(p: Policy, n: nat)
    requires n >= p.threshold
    ensures LockoutDuration(p, n + 1) == Min(p.maxMs, 2 * LockoutDuration(p, n))
  {
  }

  /** The first lock, with a threshold of at least zero, is the base, or the maximum if that is less. */
  lemma FirstLockIsBase(p: Policy, n: nat)
    requires n <= p.threshold
    ensures LockoutDuration(p, n) == Min(p.maxMs, p.baseMs)
  {
  }

  // ----- when a check is run -------------------------------------------------

  /** A check is refused exactly before the lock's end, and otherwise run and answered by the password alone. */
  lemma RefusedExactlyWhen(a: Account, x: Attempt)
    ensures OutcomeOf(a, x).Locked? <==> a.lockUntil.Some? && x.at < a.lockUntil.value
    ensures !OutcomeOf(a, x).Locked? ==>
      && (OutcomeOf(a, x).WrongPassword? <==> !x.correct)
      && (OutcomeOf(a, x).Challenged? <==> x.correct && a.twoFactor)
      && (OutcomeOf(a, x).LoggedIn? <==> x.correct && !a.twoFactor)
  {
  }

  /** After a failed check the next one is refused exactly when the failures have reached the threshold and the lock for
      that many failures has not passed since. */
  lemma NextCheckRefusedExactlyWhen(p: Policy, a: Account, x: Attempt, y: Attempt)
    requires OutcomeOf(a, x).WrongPassword? && x.at <= y.at
    ensures OutcomeOf(After(p, a, x), y).Locked? <==>
      a.failed + 1 >= p.threshold && y.at - x.at < LockoutDuration(p, a.failed + 1)
  {
  }

  // ----- spacing of failures -------------------------------------------------

  /** The wait that the n-th failure imposes on the next check. */
  function Penalty(p: Policy, n: nat): nat {
    if n >= p.threshold then LockoutDuration(p, n) else 0
  }

  /** The penalties of failures lo, lo + 1, ..., hi - 1. */
  function PenaltySum(p: Policy, lo: nat, hi: nat): nat
    decreases hi
  {
    if hi <= lo then 0 else PenaltySum(p, lo, hi - 1) + Penalty(p, hi - 1)
  }

  /** Each failed check is at least the penalty of the one before it later, `from` failures having come first. */
  ghost predicate Spaced(p: Policy, f: seq<int>, from: nat) {
    forall k :: 0 < k < |f| ==> f[k] - f[k - 1] >= Penalty(p, from + k)
  }

  lemma SpacedFromFront(p: Policy, t: int, g: seq<int>, from: nat)
    requires Spaced(p, g, from + 1) && (g != [] ==> g[0] - t >= Penalty(p, from + 1))
    ensures Spaced(p, [t] + g, from)
  {
  }

  /** A check is only ever run outside the lock, and two failed checks are at least the first one's penalty apart. */
  lemma {:induction false} FailuresAreSpaced(p: Policy, a: Account, xs: seq<Attempt>)
    requires Ordered(xs) && NoLogin(p, a, xs)
    ensures AfterAll(p, a, xs).failed == a.failed + |FailureTimes(p, a, xs)|
    ensures var f := FailureTimes(p, a, xs);
      && (f != [] ==> f[0] >= xs[0].at && (a.lockUntil.Some? ==> f[0] >= a.lockUntil.value))
      && Spaced(p, f, a.failed)
    decreases |xs|
  {
    if xs != [] {
      var a' := After(p, a, xs[0]);
      var g := FailureTimes(p, a', xs[1..]);
      FailuresAreSpaced(p, a', xs[1..]);
      if OutcomeOf(a, xs[0]).WrongPassword? {
        SpacedFromFront(p, xs[0].at, g, a.failed);
      } else {
        assert [] + g == g;
      }
    }
  }

  lemma {:induction false} GapsAddUp(p: Policy, f: seq<int>, from: nat, n: nat)
    requires 0 < n <= |f| && Spaced(p, f, from)
    ensures f[n - 1] - f[0] >= PenaltySum(p, from + 1, from + n)
  {
    if n > 1 { GapsAddUp(p, f, from, n - 1); }
  }

  /** With a threshold of at least one, the failures that are penalised are those from the threshold on. */
  lemma {:induction false} PenaltiesFromThreshold(p: Policy, n: nat)
    requires 1 <= p.threshold <= n
    ensures PenaltySum(p, 1, n) == PenaltySum(p, p.threshold, n)
  {
    if n > p.threshold {
      PenaltiesFromThreshold(p, n - 1);
    } else {
      NoPenaltyBelow(p, n);
    }
  }

  lemma {:induction false} NoPenaltyBelow(p: Policy, n: nat)
    requires n <= p.threshold
    ensures PenaltySum(p, 1, n) == 0
  {
    if n > 1 { NoPenaltyBelow(p, n - 1); }
  }

  /** From a clean account, n consecutive failed password checks take at least the sum of the lockouts imposed by the
      failures from the threshold to n - 1. */
  lemma {:induction false} FailuresTakeTheirTime(p: Policy, a: Account, xs: seq<Attempt>)
    requires 1 <= p.threshold && a.failed == 0 && Ordered(xs) && NoLogin(p, a, xs)
    requires |FailureTimes(p, a, xs)| >= p.threshold
    ensures var f := FailureTimes(p, a, xs);
      f[|f| - 1] - f[0] >= PenaltySum(p, p.threshold, |f|)
  {
    var f := FailureTimes(p, a, xs);
    FailuresAreSpaced(p, a, xs);
    GapsAddUp(p, f, 0, |f|);
    PenaltiesFromThreshold(p, |f|);
  }

  /** Below the cap the sum is geometric: base * (2^(n - threshold) - 1). */
  lemma {:induction false} PenaltySumIsGeometric(p: Policy, n: nat)
    requires 1 <= p.threshold < n && p.baseMs * Pow2(n - 1 - p.threshold) <= p.maxMs
    ensures PenaltySum(p, p.threshold, n) == p.baseMs * (Pow2(n - p.threshold) - 1)
  {
    var e := n - 1 - p.threshold;
    assert Excess(p, n - 1) == e && Pow2(e + 1) == 2 * Pow2(e);
    Doubled(p.baseMs, Pow2(e));
    if e == 0 {
      assert PenaltySum(p, p.threshold, n - 1) == 0 && Pow2(0) == 1;
    } else {
      ScaleGrows(p.baseMs, Pow2(e - 1), Pow2(e));
      PenaltySumIsGeometric(p, n - 1);
    }
  }

  lemma Doubled(b: nat, x: nat)
    ensures b * (2 * x - 1) == b * (x - 1) + b * x
  {
  }

  // ----- two-factor accounts -------------------------------------------------

  /** The password step of a two-factor account never clears the counter: it counts every failed check there ever was,
      however many correct passwords came in between. */
  lemma {:induction false} TwoFactorNeverResets(p: Policy, a: Account, xs: seq<Attempt>)
    requires a.twoFactor
    ensures NoLogin(p, a, xs)
    ensures AfterAll(p, a, xs).failed == a.failed + |FailureTimes(p, a, xs)|
    decreases |xs|
  {
    if xs != [] { TwoFactorNeverResets(p, After(p, a, xs[0]), xs[1..]); }
  }

  /** Without two-factor login a correct password outside the lock clears the counter and the lock. */
  lemma LoginResetsExactlyWhen(p: Policy, a: Account, x: Attempt)
    requires a.failed > 0
    ensures After(p, a, x).failed == 0 <==> x.correct && !a.twoFactor && !OutcomeOf(a, x).Locked?
    ensures After(p, a, x).failed == 0 ==> After(p, a, x).lockUntil.None?
  {
  }

  // ----- the stored row ------------------------------------------------------

  class UserRow {
    const policy: Policy
    const twoFactor: bool
    var failedLoginAttempts: nat
    var lockUntil: Option<int>

    function View(): Account
      reads this
    {
      Account(failedLoginAttempts, lockUntil, twoFactor)
    }

    constructor (policy: Policy, twoFactor: bool)
      ensures View() == Account(0, None, twoFactor) && this.policy == policy
    {
      this.policy, this.twoFactor := policy, twoFactor;
      failedLoginAttempts, lockUntil := 0, None;
    }

    /** The password step of a login at time `now`. */
    method CheckPassword(now: int, isPasswordCorrect: bool) returns (outcome: Outcome)
      modifies this
      ensures outcome == OutcomeOf(old(View()), Attempt(now, isPasswordCorrect))
      ensures View() == After(policy, old(View()), Attempt(now, isPasswordCorrect))
    {
      if lockUntil.Some? && lockUntil.value > now { return Locked; }
      if !isPasswordCorrect {
        failedLoginAttempts := failedLoginAttempts + 1;
        if failedLoginAttempts >= policy.threshold {
          lockUntil := Some(now + LockoutDuration(policy, failedLoginAttempts));
        }
        return WrongPassword;
      }
      if twoFactor { return Challenged; }
      if failedLoginAttempts != 0 || lockUntil.Some? {
        failedLoginAttempts, lockUntil := 0, None;
      }
      outcome := LoggedIn;
    }
  }
}
