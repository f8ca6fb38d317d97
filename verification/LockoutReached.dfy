/** The bounds of the lockout are reached: runs that count, and that evaluate, as many
  * wrong guesses at one account as the bounds allow. */
module LockoutReached {
  import opened Prelude
  import opened Passwords
  import opened Lockout

  /** Where account 0 stands. Flows `lo..hi` saw a lock that had run out and have not
    * cleared it, `guess` are about to verify, and ids from `next` on are free. */
  ghost predicate Standing(s: State, lo: nat, hi: nat, next: nat, failed: nat, guess: set<Flow>) {
    && 0 in s.accounts && s.accounts[0].active && s.accounts[0].hash.Some? && s.accounts[0].failed == failed
    && lo <= hi <= next && (forall f :: f in s.flows ==> f < next)
    && (forall f: Flow :: lo <= f < hi <==> f in s.flows && s.flows[f].LoginStale? && s.flows[f].user == 0)
    && (forall f: Flow :: f in guess <==> f in s.flows && s.flows[f].LoginRead? && s.flows[f].user == 0)
  }

  /** And any lock there is was set just now. */
  ghost predicate At(s: State, lo: nat, hi: nat, next: nat, failed: nat, guess: set<Flow>) {
    && Standing(s, lo, hi, next, failed, guess)
    && s.accounts[0].lockedUntil == (if failed >= MAX_FAILED then Some(s.clock + LOCKOUT) else None)
  }

  lemma StandingSizes(s: State, lo: nat, hi: nat, next: nat, failed: nat, guess: set<Flow>)
    requires Standing(s, lo, hi, next, failed, guess)
    ensures Guessing(s, 0) == guess && |Clearing(s, 0)| <= hi - lo
  {
    WithinSize(Clearing(s, 0), lo, hi);
  }

  // ---------------------------------------------------------------- single steps

  lemma BeginAt(s: State, lo: nat, hi: nat, next: nat, failed: nat, guess: set<Flow>) returns (t: State)
    requires Standing(s, lo, hi, next, failed, guess)
    ensures Enabled(s, LoginBegin(next, 0)) && t == Apply(s, LoginBegin(next, 0))
    ensures Standing(t, lo, hi, next + 1, failed, guess) && t.accounts == s.accounts && t.hashed == s.hashed
    ensures t.clock == s.clock && next in t.flows && t.flows[next] == LoginLooking(0, s.clock)
  {
    t := Apply(s, LoginBegin(next, 0));
  }

  /** Without a lock the login goes on to guess. */
  lemma FindAt(s: State, lo: nat, hi: nat, next: nat, failed: nat, guess: set<Flow>, f: Flow) returns (t: State)
    requires At(s, lo, hi, next, failed, guess) && failed < MAX_FAILED
    requires f in s.flows && s.flows[f] == LoginLooking(0, s.clock)
    ensures Enabled(s, LoginFind(f)) && t == Apply(s, LoginFind(f))
    ensures At(t, lo, hi, next, failed, guess + {f}) && f !in guess && t.clock == s.clock && t.hashed == s.hashed
  {
    t := Apply(s, LoginFind(f));
  }

  lemma FailAt(s: State, lo: nat, hi: nat, next: nat, failed: nat, guess: set<Flow>, f: Flow) returns (t: State)
    requires At(s, lo, hi, next, failed, guess) && f in guess
    ensures Enabled(s, LoginVerify(f, false)) && t == Apply(s, LoginVerify(f, false))
    ensures IsWrong(s, LoginVerify(f, false), 0)
    ensures At(t, lo, hi, next, failed + 1, guess - {f}) && t.clock == s.clock && t.hashed == s.hashed
  {
    t := Apply(s, LoginVerify(f, false));
  }

  lemma ClearAt(s: State, lo: nat, hi: nat, next: nat, failed: nat, guess: set<Flow>) returns (t: State)
    requires At(s, lo, hi, next, failed, guess) && lo < hi
    ensures Enabled(s, LoginClear(lo)) && t == Apply(s, LoginClear(lo))
    ensures At(t, lo + 1, hi, next, 0, guess + {lo}) && t.clock == s.clock && t.hashed == s.hashed
  {
    t := Apply(s, LoginClear(lo));
  }

  // ------------------------------------------------------------------ in a window

  /** From state `i` on, with nobody getting in, `wrong` guesses. */
  ghost predicate Window(r: Run, i: nat, k: nat, wrong: nat) {
    && IsRun(r) && AtMostUnderWay(r, 0, k) && i <= |r.steps|
    && (forall m :: i <= m < |r.steps| ==> !Resets(r.states[m], r.steps[m], 0))
    && Wrong(r, 0, i, |r.steps|) == wrong
  }

  /** The run goes on, and no time passes. */
  ghost predicate Follows(r: Run, r': Run)
    requires |r.states| == |r.steps| + 1 && |r'.states| == |r'.steps| + 1
  {
    r.states <= r'.states && End(r').hashed == End(r).hashed && End(r').clock == End(r).clock
  }

  lemma {:induction false} WrongSame(r: Run, r': Run, i: nat, n: nat)
    requires i <= n <= |r.steps| <= |r.states| && |r'.steps| <= |r'.states|
    requires r.steps <= r'.steps && r.states <= r'.states
    ensures Wrong(r', 0, i, n) == Wrong(r, 0, i, n)
    decreases n
  {
    if i < n { WrongSame(r, r', i, n - 1); }
  }

  lemma More(r: Run, k: nat, step: Step, t: State) returns (r': Run)
    requires IsRun(r) && AtMostUnderWay(r, 0, k) && Enabled(End(r), step) && t == Apply(End(r), step)
    requires |Guessing(t, 0)| <= k && |Clearing(t, 0)| <= k
    ensures IsRun(r') && AtMostUnderWay(r', 0, k) && r' == Run(r.states + [t], r.steps + [step])
  {
    r' := Extended(r, step);
    forall m | 0 <= m < |r'.states| ensures |Guessing(r'.states[m], 0)| <= k && |Clearing(r'.states[m], 0)| <= k {
      assert m < |r.states| ==> r'.states[m] == r.states[m];
    }
  }

  lemma Go(r: Run, i: nat, k: nat, wrong: nat, step: Step, t: State) returns (r': Run)
    requires Window(r, i, k, wrong) && Enabled(End(r), step) && t == Apply(End(r), step)
    requires !Resets(End(r), step, 0) && t.clock == End(r).clock && t.hashed == End(r).hashed
    requires |Guessing(t, 0)| <= k && |Clearing(t, 0)| <= k
    ensures Window(r', i, k, wrong + if IsWrong(End(r), step, 0) then 1 else 0) && End(r') == t && Follows(r, r')
  {
    r' := More(r, k, step, t);
    WindowGrows(r, r', i, step, t);
  }

  lemma WindowGrows(r: Run, r': Run, i: nat, step: Step, t: State)
    requires |r.states| == |r.steps| + 1 && i <= |r.steps| && r' == Run(r.states + [t], r.steps + [step])
    requires !Resets(End(r), step, 0) && forall m :: i <= m < |r.steps| ==> !Resets(r.states[m], r.steps[m], 0)
    ensures forall m :: i <= m < |r'.steps| ==> !Resets(r'.states[m], r'.steps[m], 0)
    ensures Wrong(r', 0, i, |r'.steps|) == Wrong(r, 0, i, |r.steps|) + if IsWrong(End(r), step, 0) then 1 else 0
  {
    WrongSame(r, r', i, |r.steps|);
    forall m | i <= m < |r'.steps| ensures !Resets(r'.states[m], r'.steps[m], 0) {
      if m < |r.steps| { assert r'.states[m] == r.states[m] && r'.steps[m] == r.steps[m]; }
    }
  }

  lemma Join(r: Run, i: nat, k: nat, wrong: nat, lo: nat, hi: nat, next: nat, failed: nat, guess: set<Flow>)
      returns (r': Run)
    requires Window(r, i, k, wrong) && At(End(r), lo, hi, next, failed, guess)
    requires failed < MAX_FAILED && |guess| < k && hi - lo <= k
    ensures Window(r', i, k, wrong) && At(End(r'), lo, hi, next + 1, failed, guess + {next}) && next !in guess
    ensures Follows(r, r')
  {
    var s1 := BeginAt(End(r), lo, hi, next, failed, guess);
    StandingSizes(s1, lo, hi, next + 1, failed, guess);
    var s2 := FindAt(s1, lo, hi, next + 1, failed, guess, next);
    StandingSizes(s2, lo, hi, next + 1, failed, guess + {next});
    r' := Go(r, i, k, wrong, LoginBegin(next, 0), s1);
    r' := Go(r', i, k, wrong, LoginFind(next), s2);
  }

  lemma Fail(r: Run, i: nat, k: nat, wrong: nat, lo: nat, hi: nat, next: nat, failed: nat, guess: set<Flow>, f: Flow)
      returns (r': Run)
    requires Window(r, i, k, wrong) && At(End(r), lo, hi, next, failed, guess)
    requires f in guess && |guess| <= k && hi - lo <= k
    ensures Window(r', i, k, wrong + 1) && At(End(r'), lo, hi, next, failed + 1, guess - {f})
    ensures Follows(r, r')
  {
    var s := FailAt(End(r), lo, hi, next, failed, guess, f);
    StandingSizes(s, lo, hi, next, failed + 1, guess - {f});
    SubsetSize(guess - {f}, guess);
    r' := Go(r, i, k, wrong, LoginVerify(f, false), s);
  }

  lemma Clear(r: Run, i: nat, k: nat, wrong: nat, lo: nat, hi: nat, next: nat, failed: nat) returns (r': Run)
    requires Window(r, i, k, wrong) && At(End(r), lo, hi, next, failed, {}) && lo < hi <= lo + k
    ensures Window(r', i, k, wrong) && At(End(r'), lo + 1, hi, next, 0, {lo})
    ensures Follows(r, r')
  {
    var s := ClearAt(End(r), lo, hi, next, failed, {});
    assert {} + {lo} == {lo};
    StandingSizes(s, lo + 1, hi, next, 0, {lo});
    r' := Go(r, i, k, wrong, LoginClear(lo), s);
  }

  // ---------------------------------------------------------------------- a round

  /** One guess: by the login that is waiting to make it, or by a new one. */
  lemma OneGuess(r: Run, i: nat, k: nat, wrong: nat, after: nat, lo: nat, hi: nat, next: nat,
                 failed: nat, failed': nat, guess: set<Flow>) returns (r': Run, next': nat)
    requires Window(r, i, k, wrong) && At(End(r), lo, hi, next, failed, guess) && |guess| <= 1 <= k
    requires hi - lo <= k && failed < MAX_FAILED && after == wrong + 1 && failed' == failed + 1
    ensures Window(r', i, k, after) && At(End(r'), lo, hi, next', failed', {})
    ensures Follows(r, r')
  {
    var f, g := next, {next};
    if guess == {} {
      r' := Join(r, i, k, wrong, lo, hi, next, failed, {});
      next' := next + 1;
      assert {} + {next} == g;
    } else {
      r', next', g := r, next, guess;
      f :| f in guess;
    }
    OnlyOne(g, f);
    r' := Fail(r', i, k, wrong, lo, hi, next', failed, g, f);
  }

  lemma OnlyOne(g: set<Flow>, f: Flow)
    requires |g| <= 1 && f in g
    ensures g - {f} == {}
  {
    assert |g - {f}| == 0;
  }

  /** One guess after another, seven in all at most. */
  lemma {:induction false} OneByOne(r: Run, i: nat, k: nat, wrong: nat, lo: nat, hi: nat, next: nat, guess: set<Flow>,
                                    m: nat)
      returns (r': Run, next': nat)
    requires Window(r, i, k, wrong) && At(End(r), lo, hi, next, 0, guess) && |guess| <= 1 <= k
    requires hi - lo <= k && m < MAX_FAILED
    ensures Window(r', i, k, wrong + m) && At(End(r'), lo, hi, next', m, if m == 0 then guess else {})
    ensures Follows(r, r')
    decreases m
  {
    r', next' := r, next;
    if m > 0 {
      r', next' := OneByOne(r, i, k, wrong, lo, hi, next, guess, m - 1);
      var g := if m == 1 then guess else {};
      r', next' := OneGuess(r', i, k, wrong + m - 1, wrong + m, lo, hi, next', m - 1, m, g);
    }
  }

  /** Seven counted, and `c` logins get past the pre-check before any of them guesses. */
  lemma {:induction false} Crowd(r: Run, i: nat, k: nat, wrong: nat, lo: nat, hi: nat, next: nat, c: nat)
      returns (r': Run, next': nat, guess: set<Flow>)
    requires Window(r, i, k, wrong) && At(End(r), lo, hi, next, MAX_FAILED - 1, {}) && hi - lo <= k && c <= k
    ensures Window(r', i, k, wrong) && At(End(r'), lo, hi, next', MAX_FAILED - 1, guess) && |guess| == c
    ensures Follows(r, r')
    decreases c
  {
    r', next', guess := r, next, {};
    if c > 0 {
      r', next', guess := Crowd(r, i, k, wrong, lo, hi, next, c - 1);
      r' := Join(r', i, k, wrong, lo, hi, next', MAX_FAILED - 1, guess);
      guess, next' := guess + {next'}, next' + 1;
    }
  }

  lemma {:induction false} AllFail(r: Run, i: nat, k: nat, wrong: nat, lo: nat, hi: nat, next: nat, failed: nat,
                                   guess: set<Flow>)
      returns (r': Run, after: nat, failed': nat)
    requires Window(r, i, k, wrong) && At(End(r), lo, hi, next, failed, guess) && |guess| <= k && hi - lo <= k
    ensures after == wrong + |guess| && failed' == failed + |guess|
    ensures Window(r', i, k, after) && At(End(r'), lo, hi, next, failed', {}) && Follows(r, r')
    decreases |guess|
  {
    r', after, failed' := r, wrong, failed;
    if guess != {} {
      var f :| f in guess;
      r' := Fail(r, i, k, wrong, lo, hi, next, failed, guess, f);
      r', after, failed' := AllFail(r', i, k, wrong + 1, lo, hi, next, failed + 1, guess - {f});
    }
  }

  /** Seven one by one and then `c` together: all are evaluated and all are counted. */
  lemma Round(r: Run, i: nat, k: nat, wrong: nat, lo: nat, hi: nat, next: nat, guess: set<Flow>, c: nat)
      returns (r': Run, next': nat)
    requires Window(r, i, k, wrong) && At(End(r), lo, hi, next, 0, guess) && |guess| <= 1 <= k && hi - lo <= k && c <= k
    ensures Window(r', i, k, wrong + MAX_FAILED - 1 + c) && At(End(r'), lo, hi, next', MAX_FAILED - 1 + c, {})
    ensures Follows(r, r')
  {
    var together;
    r', next' := OneByOne(r, i, k, wrong, lo, hi, next, guess, MAX_FAILED - 1);
    r', next', together := Crowd(r', i, k, wrong + MAX_FAILED - 1, lo, hi, next', c);
    var after, failed;
    r', after, failed := AllFail(r', i, k, wrong + MAX_FAILED - 1, lo, hi, next', MAX_FAILED - 1, together);
  }

  /** From `start` on as many wrong guesses as there can be, so far. */
  ghost predicate Played(start: Run, r: Run, i: nat, k: nat, wrong: nat, lo: nat, hi: nat, next: nat)
    requires |start.states| == |start.steps| + 1
  {
    Window(r, i, k, wrong) && At(End(r), lo, hi, next, MAX_FAILED - 1 + k, {}) && Follows(start, r)
  }

  /** A late clear, and a whole round more. */
  lemma AnotherRound(start: Run, r: Run, i: nat, k: nat, t: nat, wrong: nat, lo: nat, hi: nat, next: nat)
      returns (r': Run, next': nat, lo': nat, after: nat)
    requires |start.states| == |start.steps| + 1 && Played(start, r, i, k, wrong, lo, hi, next)
    requires k >= 1 && lo < hi <= lo + k && wrong == InRounds(t, k)
    ensures lo' == lo + 1 && after == InRounds(t + 1, k)
    ensures Played(start, r', i, k, after, lo', hi, next')
  {
    lo', after := lo + 1, wrong + MAX_FAILED - 1 + k;
    r' := Clear(r, i, k, wrong, lo, hi, next, MAX_FAILED - 1 + k);
    r', next' := Round(r', i, k, wrong, lo', hi, next, {lo}, k);
  }

  /** What `t` rounds come to. */
  function InRounds(t: nat, k: nat): nat { if t == 0 then 0 else InRounds(t - 1, k) + MAX_FAILED - 1 + k }

  lemma {:induction false} InRoundsIs(t: nat, k: nat)
    ensures InRounds(t, k) == Allowance(t, k)
  {
    if t > 0 {
      InRoundsIs(t - 1, k);
      OneMoreTime(t - 1, k);
    }
  }

  lemma FirstRound(r: Run, i: nat, k: nat, lo: nat, hi: nat, next: nat)
      returns (r': Run, next': nat, wrong: nat)
    requires Window(r, i, k, 0) && At(End(r), lo, hi, next, 0, {}) && k >= 1 && hi - lo <= k
    ensures wrong == InRounds(1, k)
    ensures Played(r, r', i, k, wrong, lo, hi, next')
  {
    wrong := MAX_FAILED - 1 + k;
    assert InRounds(0, k) == 0;
    r', next' := Round(r, i, k, 0, lo, hi, next, {}, k);
  }

  /** A round, and another after each of `t` late clears. */
  lemma {:induction false} Rounds(r: Run, i: nat, k: nat, lo: nat, hi: nat, next: nat, t: nat)
      returns (r': Run, next': nat, lo': nat, wrong: nat)
    requires Window(r, i, k, 0) && At(End(r), lo, hi, next, 0, {}) && k >= 1 && t <= hi - lo <= k
    ensures lo' == lo + t && wrong == InRounds(t + 1, k)
    ensures Played(r, r', i, k, wrong, lo', hi, next')
    decreases t
  {
    if t == 0 {
      lo' := lo;
      r', next', wrong := FirstRound(r, i, k, lo, hi, next);
    } else {
      r', next', lo', wrong := Rounds(r, i, k, lo, hi, next, t - 1);
      r', next', lo', wrong := AnotherRound(r, r', i, k, t, wrong, lo', hi, next');
    }
  }

  // ------------------------------------------------------------------ the opening

  /** The lock has just run out. */
  ghost predicate RunOut(s: State, lo: nat, hi: nat) {
    Standing(s, lo, hi, hi, MAX_FAILED, {}) && s.accounts[0].lockedUntil == Some(s.clock) && s.hashed == {0}
  }

  lemma Registered(k: nat) returns (r: Run)
    ensures Window(r, 1, k, 0) && |r.steps| == 1 && At(End(r), 0, 0, 0, 0, {}) && End(r).hashed == {0}
  {
    r := Run([Init()], []);
    assert Guessing(Init(), 0) == {} && Clearing(Init(), 0) == {};
    var s := Apply(Init(), Register(0, 0, 0));
    assert Guessing(s, 0) == {} && Clearing(s, 0) == {};
    r := More(r, k, Register(0, 0, 0), s);
  }

  lemma LockedAndRunOut(k: nat) returns (r: Run, next: nat)
    requires k >= 1
    ensures IsRun(r) && AtMostUnderWay(r, 0, k) && RunOut(End(r), next, next)
  {
    r := Registered(k);
    r, next := Round(r, 1, k, 0, 0, 0, 0, {}, 1);
    var s := TickAt(End(r), next);
    StandingSizes(s, next, next, next, MAX_FAILED, {});
    r := More(r, k, Tick(LOCKOUT), s);
  }

  lemma TickAt(s: State, next: nat) returns (t: State)
    requires At(s, 0, 0, next, MAX_FAILED, {}) && s.hashed == {0}
    ensures Enabled(s, Tick(LOCKOUT)) && t == Apply(s, Tick(LOCKOUT)) && RunOut(t, next, next)
  {
    t := Apply(s, Tick(LOCKOUT));
  }

  lemma StaleAt(s: State, lo: nat, hi: nat) returns (t1: State, t2: State)
    requires RunOut(s, lo, hi)
    ensures Enabled(s, LoginBegin(hi, 0)) && t1 == Apply(s, LoginBegin(hi, 0))
            && Standing(t1, lo, hi, hi + 1, MAX_FAILED, {})
    ensures Enabled(t1, LoginFind(hi)) && t2 == Apply(t1, LoginFind(hi)) && RunOut(t2, lo, hi + 1)
  {
    t1 := BeginAt(s, lo, hi, hi, MAX_FAILED, {});
    t2 := Apply(t1, LoginFind(hi));
  }

  /** `c` logins see it run out before any of them clears it. */
  lemma {:induction false} AllStale(k: nat, c: nat) returns (r: Run, lo: nat, hi: nat)
    requires 1 <= k && c <= k
    ensures hi == lo + c && IsRun(r) && AtMostUnderWay(r, 0, k) && RunOut(End(r), lo, hi)
    decreases c
  {
    if c == 0 {
      r, lo := LockedAndRunOut(k);
      hi := lo;
    } else {
      r, lo, hi := AllStale(k, c - 1);
      r := OneMoreStale(r, k, lo, hi, hi + 1);
      hi := hi + 1;
    }
  }

  lemma OneMoreStale(r: Run, k: nat, lo: nat, hi: nat, hi': nat) returns (r': Run)
    requires IsRun(r) && AtMostUnderWay(r, 0, k) && RunOut(End(r), lo, hi) && hi < lo + k && hi' == hi + 1
    ensures IsRun(r') && AtMostUnderWay(r', 0, k) && RunOut(End(r'), lo, hi')
  {
    var t1, t2 := StaleAt(End(r), lo, hi);
    StandingSizes(t1, lo, hi, hi', MAX_FAILED, {});
    StandingSizes(t2, lo, hi', hi', MAX_FAILED, {});
    r' := More(r, k, LoginBegin(hi, 0), t1);
    r' := More(r', k, LoginFind(hi), t2);
  }

  lemma ResetAt(s: State, lo: nat, hi: nat) returns (t1: State, t2: State)
    requires RunOut(s, lo, hi)
    ensures Enabled(s, ResetPrepare(hi, 0, 1)) && t1 == Apply(s, ResetPrepare(hi, 0, 1))
    ensures Standing(t1, lo, hi, hi + 1, MAX_FAILED, {})
    ensures Enabled(t1, ResetCommit(hi)) && t2 == Apply(t1, ResetCommit(hi)) && At(t2, lo, hi, hi + 1, 0, {})
  {
    t1 := Apply(s, ResetPrepare(hi, 0, 1));
    t2 := Apply(t1, ResetCommit(hi));
  }

  /** The owner resets the password meanwhile, so the count starts from nothing. */
  lemma Opening(k: nat) returns (r: Run, lo: nat, hi: nat, next: nat)
    requires k >= 1
    ensures hi == lo + k && Window(r, |r.steps|, k, 0) && At(End(r), lo, hi, next, 0, {})
  {
    r, lo, hi := AllStale(k, k);
    next := hi + 1;
    var t1, t2 := ResetAt(End(r), lo, hi);
    StandingSizes(t1, lo, hi, next, MAX_FAILED, {});
    StandingSizes(t2, lo, hi, next, 0, {});
    r := More(r, k, ResetPrepare(hi, 0, 1), t1);
    r := More(r, k, ResetCommit(hi), t2);
  }

  // ------------------------------------------------------------- main results

  /** For every `k` the bounds on the count and on the guesses are reached, and with no
    * time passing at all. */
  lemma BoundsAreReached(k: nat) returns (r: Run, i: nat)
    requires k >= 1
    ensures Window(r, i, k, Allowance(k + 1, k)) && 0 in r.states[i].accounts && r.states[i].clock == End(r).clock
    ensures 0 in End(r).accounts && End(r).accounts[0].failed == MAX_FAILED - 1 + k
  {
    var first, lo, hi, start := Opening(k);
    i := |first.steps|;
    var next, last, wrong;
    r, next, last, wrong := Rounds(first, i, k, lo, hi, start, k);
    InRoundsIs(k + 1, k);
    assert r.states[i] == End(first);
  }

  /** A stretch of a run shorter than a lockout in which nobody gets in. */
  ghost predicate Stretch(r: Run, i: nat, n: nat, u: User, k: nat) {
    && IsRun(r) && i <= n < |r.states| && u in r.states[i].accounts && AtMostUnderWay(r, u, k)
    && r.states[n].clock < r.states[i].clock + LOCKOUT
    && forall m :: i <= m < n ==> !Resets(r.states[m], r.steps[m], u)
  }

  ghost predicate NeverMore(k: nat, most: nat) {
    forall r, i, n, u :: Stretch(r, i, n, u, k) ==> Wrong(r, u, i, n) <= most
  }

  /** The most wrong guesses a lockout lets through, exactly. */
  lemma GuessesIff(k: nat, most: nat)
    requires k >= 1
    ensures NeverMore(k, most) <==> (k + 1) * (MAX_FAILED - 1 + k) <= most
  {
    if (k + 1) * (MAX_FAILED - 1 + k) <= most {
      forall r, i, n, u | Stretch(r, i, n, u, k) ensures Wrong(r, u, i, n) <= most { GuessesPerLockout(r, i, n, u, k); }
    } else {
      var r, i := BoundsAreReached(k);
      assert Stretch(r, i, |r.steps|, 0, k);
    }
  }
}
