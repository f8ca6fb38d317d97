/** How many wrong passwords an account takes: what it counts, and what is evaluated. */
module Lockout {
  import opened Prelude
  import opened Passwords

  // ---------------------------------------------------------------- the lockout

  /** Logins that have read the account's hash and not yet counted their guess. */
  ghost function Guessing(s: State, u: User): set<Flow> {
    set f | f in s.flows && s.flows[f].LoginRead? && s.flows[f].user == u
  }

  predicate LockOk(a: Account) { a.failed >= MAX_FAILED ==> a.lockedUntil.Some? }

  ghost predicate Counted(s: State, u: User, inFlight: nat) {
    u in s.accounts ==>
      LockOk(s.accounts[u]) && s.accounts[u].failed + |Guessing(s, u)| <= MAX_FAILED - 1 + inFlight
  }

  lemma VerifyCounts(s: State, f: Flow, ok: bool, u: User)
    requires Enabled(s, LoginVerify(f, ok)) && s.flows[f].user == u
    ensures |Guessing(Apply(s, LoginVerify(f, ok)), u)| == |Guessing(s, u)| - 1
  {
    var s' := Apply(s, LoginVerify(f, ok));
    assert f in Guessing(s, u);
    forall g ensures g in Guessing(s', u) <==> g in Guessing(s, u) && g != f {}
    assert Guessing(s', u) == Guessing(s, u) - {f};
  }

  /** Only a login that finds no lock, or has cleared one, joins the guessing. */
  lemma FindKeepsCount(s: State, step: Step, u: User)
    requires step.LoginFind? || step.LoginClear?
    requires Enabled(s, step) && u in s.accounts && LockOk(s.accounts[u])
    ensures Guessing(Apply(s, step), u) <= Guessing(s, u) || Apply(s, step).accounts[u].failed < MAX_FAILED
    ensures Apply(s, step).accounts[u].failed <= s.accounts[u].failed
  {
    var s' := Apply(s, step);
    if s.flows[step.flow].user != u {
      forall f | f in Guessing(s', u) ensures f in Guessing(s, u) {}
    }
  }

  lemma StepKeepsCount(s: State, step: Step, u: User, inFlight: nat)
    requires inFlight >= 1 && Enabled(s, step) && Counted(s, u, inFlight)
    requires |Guessing(Apply(s, step), u)| <= inFlight
    ensures Counted(Apply(s, step), u, inFlight)
  {
    var s' := Apply(s, step);
    if step.LoginVerify? && s.flows[step.flow].user == u {
      VerifyCounts(s, step.flow, step.ok, u);
    } else if !step.LoginFind? && !step.LoginClear? && u in s.accounts {
      forall f | f in Guessing(s', u) ensures f in Guessing(s, u) {}
      SubsetSize(Guessing(s', u), Guessing(s, u));
    } else if step.LoginFind? || step.LoginClear? {
      if u in s.accounts { FindKeepsCount(s, step, u); }
      if Guessing(s', u) <= Guessing(s, u) { SubsetSize(Guessing(s', u), Guessing(s, u)); }
    }
  }

  /** With at most `inFlight` guesses at an account under way at any time, it never
    * counts more than seven and that many: eight when they come one by one. */
  lemma {:induction false} WrongGuessesAreBounded(r: Run, n: nat, u: User, inFlight: nat)
    requires IsRun(r) && n < |r.states| && inFlight >= 1
    requires forall i :: 0 <= i < |r.states| ==> |Guessing(r.states[i], u)| <= inFlight
    ensures Counted(r.states[n], u, inFlight)
  {
    if n > 0 {
      WrongGuessesAreBounded(r, n - 1, u, inFlight);
      assert r.states[n] == Apply(r.states[n - 1], r.steps[n - 1]);
      StepKeepsCount(r.states[n - 1], r.steps[n - 1], u, inFlight);
    }
  }

  // ------------------------------------------------- guesses in one lockout's time

  /** Logins that saw a lock run out and have not yet cleared it. */
  ghost function Clearing(s: State, u: User): set<Flow> {
    set f | f in s.flows && s.flows[f].LoginStale? && s.flows[f].user == u
  }

  predicate Acts(s: State, f: Flow, u: User) { f in s.flows && s.flows[f].user == u }

  predicate IsWrong(s: State, step: Step, u: User) { step.LoginVerify? && !step.ok && Acts(s, step.flow, u) }

  predicate IsClear(s: State, step: Step, u: User) { step.LoginClear? && Acts(s, step.flow, u) }

  /** The steps with which somebody who knows the password, or owns the inbox, starts
    * the count again. */
  predicate Resets(s: State, step: Step, u: User) {
    (step.LoginFinish? || step.ChangeCommit? || step.ResetCommit?) && Acts(s, step.flow, u)
  }

  /** The wrong guesses at `u` from state `i` to state `n`; and the locks cleared. */
  function Wrong(r: Run, u: User, i: nat, n: nat): nat
    requires i <= n <= |r.steps| <= |r.states|
  {
    if i == n then 0 else Wrong(r, u, i, n - 1) + if IsWrong(r.states[n - 1], r.steps[n - 1], u) then 1 else 0
  }

  function Clears(r: Run, u: User, i: nat, n: nat): nat
    requires i <= n <= |r.steps| <= |r.states|
  {
    if i == n then 0 else Clears(r, u, i, n - 1) + if IsClear(r.states[n - 1], r.steps[n - 1], u) then 1 else 0
  }

  /** There is a lock, and it will have run out by `end`. */
  predicate RunsOut(s: State, u: User, end: int) {
    u in s.accounts && s.accounts[u].lockedUntil.Some? && s.accounts[u].lockedUntil.value <= end
  }

  /** Nobody looks an account up in the future. */
  ghost predicate LooksOk(s: State) {
    forall f :: f in s.flows && s.flows[f].LoginLooking? ==> s.flows[f].at <= s.clock
  }

  lemma {:induction false} LookedInThePast(r: Run, n: nat)
    requires IsRun(r) && n < |r.states|
    ensures LooksOk(r.states[n])
  {
    if n > 0 {
      LookedInThePast(r, n - 1);
      StepKeepsLooks(r.states[n - 1], r.steps[n - 1]);
    }
  }

  lemma StepKeepsLooks(s: State, step: Step)
    requires LooksOk(s) && Enabled(s, step)
    ensures LooksOk(Apply(s, step)) && s.clock <= Apply(s, step).clock
  {
    var s' := Apply(s, step);
    forall f | f in s'.flows && s'.flows[f].LoginLooking? ensures s'.flows[f].at <= s'.clock {
      assert f in s.flows && s.flows[f].LoginLooking? ==> s.flows[f].at <= s.clock;
    }
  }

  /** A clear takes one clearing login; only a lock that runs out makes a new one. */
  lemma ClearingAfter(s: State, step: Step, u: User, end: int)
    requires Enabled(s, step) && LooksOk(s) && s.clock <= end && u in s.accounts
    ensures IsClear(s, step, u) ==> |Clearing(Apply(s, step), u)| == |Clearing(s, u)| - 1
    ensures !IsClear(s, step, u) && !RunsOut(s, u, end) ==> |Clearing(Apply(s, step), u)| <= |Clearing(s, u)|
  {
    if IsClear(s, step, u) {
      assert step.flow in Clearing(s, u);
      assert Clearing(Apply(s, step), u) == Clearing(s, u) - {step.flow};
    } else if !RunsOut(s, u, end) {
      NoNewClearing(s, step, u, end);
      SubsetSize(Clearing(Apply(s, step), u), Clearing(s, u));
    }
  }

  lemma OnlyFindMakesStale(s: State, step: Step, flows: map<Flow, Progress>, f: Flow)
    requires Enabled(s, step) && !step.LoginFind? && flows == Apply(s, step).flows
    requires f in flows && flows[f].LoginStale?
    ensures f in s.flows && s.flows[f] == flows[f]
  {
  }

  lemma FindSeesRunOut(s: State, f: Flow, u: User, end: int)
    requires Enabled(s, LoginFind(f)) && LooksOk(s) && s.clock <= end && !RunsOut(s, u, end)
    ensures Clearing(LoginFound(s, f), u) <= Clearing(s, u)
  {
  }

  lemma NoNewClearing(s: State, step: Step, u: User, end: int)
    requires Enabled(s, step) && LooksOk(s) && s.clock <= end && u in s.accounts && !RunsOut(s, u, end)
    ensures Clearing(Apply(s, step), u) <= Clearing(s, u)
  {
    if step.LoginFind? {
      FindSeesRunOut(s, step.flow, u, end);
    } else {
      forall f | f in Clearing(Apply(s, step), u) ensures f in Clearing(s, u) {
        OnlyFindMakesStale(s, step, Apply(s, step).flows, f);
      }
    }
  }

  /** How one step that is no reset moves the counter and the lock. */
  lemma CounterAfter(s: State, step: Step, u: User)
    requires Enabled(s, step) && u in s.accounts && !Resets(s, step, u)
    ensures var a, a' := s.accounts[u], Apply(s, step).accounts[u];
      && (IsClear(s, step, u) ==> a'.lockedUntil.None?)
      && (!IsClear(s, step, u) ==> a'.failed == a.failed + if IsWrong(s, step, u) then 1 else 0)
      && (!IsClear(s, step, u) ==> a'.lockedUntil == a.lockedUntil || a'.lockedUntil == Some(s.clock + LOCKOUT))
  {
  }

  /** What the counter can have reached before each of the clears. */
  function Allowance(clears: nat, k: nat): nat { clears * (MAX_FAILED - 1 + k) }

  /** How far things can have got `wrong` guesses and `clears` clears into the window. */
  ghost predicate WindowOk(s: State, u: User, k: nat, end: int, wrong: nat, clears: nat) {
    && u in s.accounts
    && wrong <= s.accounts[u].failed + Allowance(clears, k)
    && (if RunsOut(s, u, end) then clears == 0 else clears + |Clearing(s, u)| <= k)
  }

  lemma WindowStep(s: State, step: Step, u: User, k: nat, end: int, wrong: nat, clears: nat)
    requires Enabled(s, step) && !Resets(s, step, u) && LooksOk(s) && Counted(s, u, k)
    requires s.clock <= end < s.clock + LOCKOUT && WindowOk(s, u, k, end, wrong, clears)
    requires |Clearing(s, u)| <= k && |Clearing(Apply(s, step), u)| <= k
    ensures WindowOk(Apply(s, step), u, k, end, wrong + if IsWrong(s, step, u) then 1 else 0,
                     clears + if IsClear(s, step, u) then 1 else 0)
  {
    CounterAfter(s, step, u);
    ClearingAfter(s, step, u, end);
    OneMoreTime(clears, k);
  }

  lemma OneMoreTime(clears: nat, k: nat)
    ensures Allowance(clears + 1, k) == Allowance(clears, k) + MAX_FAILED - 1 + k
  {
  }

  ghost predicate AtMostUnderWay(r: Run, u: User, k: nat) {
    forall i :: 0 <= i < |r.states| ==> |Guessing(r.states[i], u)| <= k && |Clearing(r.states[i], u)| <= k
  }

  lemma WindowOneMore(r: Run, m: nat, u: User, k: nat, end: int, wrong: nat, clears: nat)
    requires IsRun(r) && m < |r.steps| && k >= 1 && AtMostUnderWay(r, u, k) && !Resets(r.states[m], r.steps[m], u)
    requires r.states[m].clock <= end < r.states[m].clock + LOCKOUT && WindowOk(r.states[m], u, k, end, wrong, clears)
    ensures WindowOk(r.states[m + 1], u, k, end, wrong + if IsWrong(r.states[m], r.steps[m], u) then 1 else 0,
                     clears + if IsClear(r.states[m], r.steps[m], u) then 1 else 0)
  {
    LookedInThePast(r, m);
    WrongGuessesAreBounded(r, m, u, k);
    assert |Clearing(r.states[m + 1], u)| <= k;
    WindowStep(r.states[m], r.steps[m], u, k, end, wrong, clears);
  }

  lemma {:induction false} ClockRuns(r: Run, i: nat, n: nat)
    requires IsRun(r) && i <= n < |r.states|
    ensures r.states[i].clock <= r.states[n].clock
    decreases n
  {
    if i < n {
      ClockRuns(r, i, n - 1);
      LookedInThePast(r, n - 1);
      StepKeepsLooks(r.states[n - 1], r.steps[n - 1]);
    }
  }

  lemma WindowOpens(s: State, u: User, k: nat, end: int)
    requires u in s.accounts && |Clearing(s, u)| <= k
    ensures WindowOk(s, u, k, end, 0, 0)
  {
  }

  /** Whatever is known before the step is known after it, one further. */
  ghost predicate Carries(s: State, step: Step, s': State, u: User, k: nat, end: int) {
    forall w: nat, c: nat :: WindowOk(s, u, k, end, w, c) ==>
      WindowOk(s', u, k, end, w + if IsWrong(s, step, u) then 1 else 0, c + if IsClear(s, step, u) then 1 else 0)
  }

  lemma {:induction false} CarriedAlong(r: Run, i: nat, n: nat, u: User, k: nat, end: int)
    requires |r.states| == |r.steps| + 1 && i <= n < |r.states| && WindowOk(r.states[i], u, k, end, 0, 0)
    requires forall m :: i <= m < n ==> Carries(r.states[m], r.steps[m], r.states[m + 1], u, k, end)
    ensures WindowOk(r.states[n], u, k, end, Wrong(r, u, i, n), Clears(r, u, i, n))
    decreases n
  {
    if i < n {
      CarriedAlong(r, i, n - 1, u, k, end);
      assert Carries(r.states[n - 1], r.steps[n - 1], r.states[n], u, k, end);
    }
  }

  lemma CarriedOver(r: Run, i: nat, m: nat, n: nat, u: User, k: nat, end: int)
    requires IsRun(r) && i <= m < n < |r.states| && k >= 1 && AtMostUnderWay(r, u, k)
    requires r.states[n].clock <= end < r.states[i].clock + LOCKOUT && !Resets(r.states[m], r.steps[m], u)
    ensures Carries(r.states[m], r.steps[m], r.states[m + 1], u, k, end)
  {
    ClockRuns(r, i, m);
    ClockRuns(r, m, n);
    forall w: nat, c: nat | WindowOk(r.states[m], u, k, end, w, c)
      ensures WindowOk(r.states[m + 1], u, k, end, w + if IsWrong(r.states[m], r.steps[m], u) then 1 else 0,
                       c + if IsClear(r.states[m], r.steps[m], u) then 1 else 0)
    {
      WindowOneMore(r, m, u, k, end, w, c);
    }
  }

  lemma WindowAfter(r: Run, i: nat, n: nat, u: User, k: nat, end: int)
    requires IsRun(r) && i <= n < |r.states| && u in r.states[i].accounts && k >= 1 && AtMostUnderWay(r, u, k)
    requires r.states[n].clock <= end < r.states[i].clock + LOCKOUT
    requires forall m :: i <= m < n ==> !Resets(r.states[m], r.steps[m], u)
    ensures WindowOk(r.states[n], u, k, end, Wrong(r, u, i, n), Clears(r, u, i, n))
  {
    WindowOpens(r.states[i], u, k, end);
    forall m | i <= m < n ensures Carries(r.states[m], r.steps[m], r.states[m + 1], u, k, end) {
      CarriedOver(r, i, m, n, u, k, end);
    }
    CarriedAlong(r, i, n, u, k, end);
  }

  lemma AllTogether(wrong: nat, failed: nat, clears: nat, k: nat, cap: nat)
    requires wrong <= failed + clears * cap && clears <= k && failed <= cap
    ensures wrong <= (k + 1) * cap
  {
    assert (k - clears) * cap >= 0;
  }

  lemma FailedAtMost(r: Run, n: nat, u: User, k: nat)
    requires IsRun(r) && n < |r.states| && u in r.states[n].accounts && k >= 1 && AtMostUnderWay(r, u, k)
    ensures r.states[n].accounts[u].failed <= MAX_FAILED - 1 + k
  {
    WrongGuessesAreBounded(r, n, u, k);
  }

  lemma WindowCounts(s: State, u: User, k: nat, end: int, wrong: nat, clears: nat)
    requires WindowOk(s, u, k, end, wrong, clears) && s.accounts[u].failed <= MAX_FAILED - 1 + k
    ensures wrong <= (k + 1) * (MAX_FAILED - 1 + k) && clears <= k
  {
    AllTogether(wrong, s.accounts[u].failed, clears, k, MAX_FAILED - 1 + k);
  }

  /** In less than one lockout's time, with at most `k` logins at an account under way
    * at once and nobody getting in, at most (k + 1)(k + 7) wrong guesses at it are
    * evaluated: a lock may be cleared late, but only by a login that saw an older one
    * run out. One at a time, that is sixteen. */
  lemma GuessesPerLockout(r: Run, i: nat, n: nat, u: User, k: nat)
    requires IsRun(r) && i <= n < |r.states| && u in r.states[i].accounts && k >= 1 && AtMostUnderWay(r, u, k)
    requires r.states[n].clock < r.states[i].clock + LOCKOUT
    requires forall m :: i <= m < n ==> !Resets(r.states[m], r.steps[m], u)
    ensures Wrong(r, u, i, n) <= (k + 1) * (MAX_FAILED - 1 + k)
    ensures Clears(r, u, i, n) <= k
  {
    WindowAfter(r, i, n, u, k, r.states[n].clock);
    FailedAtMost(r, n, u, k);
    WindowCounts(r.states[n], u, k, r.states[n].clock, Wrong(r, u, i, n), Clears(r, u, i, n));
  }
}
