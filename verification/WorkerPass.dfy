/** One worker pass over the queue, as the worker runs it, and its timing.
  *
  * `Outbox` is the table with the statements that change it; `RunOnce` is the
  * worker's loop. The clock is a parameter and the provider is a sequence of
  * what happened at each position of the batch. */
module WorkerPass {
  import opened Prelude
  import opened WorkQueue

  /** What the world did with one message: the provider's answer, how long the
    * call took, how long the database took to record it, and how long the worker
    * slept then. It does not sleep after a listing that has no address to look up. */
  datatype Happening = Happening(answer: Answer, call: nat, database: nat, rest: nat)

  datatype Stats = Stats(requeued: nat, claimed: nat, sent: nat, skipped: nat, failed: nat)

  // -------------------------------------------------------------------- timing

  /** When the i-th message of a pass is marked: every call and write up to and
    * including its own, and the sleeps before it. */
  function MarkTime(start: int, env: seq<Happening>, i: nat): int
    requires i < |env|
  {
    env[i].call + env[i].database
    + if i == 0 then start else MarkTime(start, env, i - 1) + env[i - 1].rest
  }

  function DatabaseTime(env: seq<Happening>, i: nat): nat
    requires i < |env|
  {
    env[i].database + if i == 0 then 0 else DatabaseTime(env, i - 1)
  }

  /** Item i (from zero) is marked within (i+1) timeouts, i gaps and the database
    * time so far. */
  lemma {:induction false} MarkTimeBound(start: int, env: seq<Happening>, timeout: nat, gap: nat, i: nat)
    requires i < |env| && forall k :: 0 <= k <= i ==> env[k].call <= timeout && env[k].rest <= gap
    ensures MarkTime(start, env, i) <= start + (i + 1) * timeout + i * gap + DatabaseTime(env, i)
    ensures (forall k :: 0 <= k <= i ==> env[k].call == timeout && env[k].rest == gap) ==>
              MarkTime(start, env, i) == start + (i + 1) * timeout + i * gap + DatabaseTime(env, i)
  {
    if i > 0 {
      MarkTimeBound(start, env, timeout, gap, i - 1);
      assert (i + 1) * timeout == i * timeout + timeout;
      assert i * gap == (i - 1) * gap + gap;
    }
  }

  /** Every mark of a batch comes within `stale` of the claim. */
  ghost predicate BatchInTime(env: seq<Happening>, stale: nat) {
    forall i :: 0 <= i < |env| ==> MarkTime(0, env, i) <= stale
  }

  ghost predicate CallsWithin(env: seq<Happening>, batch: nat, timeout: nat, gap: nat, database: nat) {
    && |env| == batch
    && (forall i :: 0 <= i < |env| ==> env[i].call <= timeout && env[i].rest <= gap)
    && (forall i :: 0 <= i < |env| ==> DatabaseTime(env, i) <= database)
  }

  ghost predicate AlwaysInTime(batch: nat, timeout: nat, gap: nat, database: nat, stale: nat) {
    forall env :: CallsWithin(env, batch, timeout, gap, database) ==> BatchInTime(env, stale)
  }

  /** A batch is sure to be marked in time exactly when its worst case fits. */
  lemma BatchFitsIff(batch: nat, timeout: nat, gap: nat, database: nat, stale: nat)
    requires batch >= 1
    ensures AlwaysInTime(batch, timeout, gap, database, stale)
            <==> batch * timeout + (batch - 1) * gap + database <= stale
  {
    if batch * timeout + (batch - 1) * gap + database <= stale {
      forall env | CallsWithin(env, batch, timeout, gap, database) ensures BatchInTime(env, stale) {
        FittingBatch(env, batch, timeout, gap, database, stale);
      }
    } else {
      var env := SlowestCalls(batch, timeout, gap, database, stale);
    }
  }

  lemma FittingBatch(env: seq<Happening>, batch: nat, timeout: nat, gap: nat, database: nat, stale: nat)
    requires batch >= 1 && CallsWithin(env, batch, timeout, gap, database)
    requires batch * timeout + (batch - 1) * gap + database <= stale
    ensures BatchInTime(env, stale)
  {
    forall i | 0 <= i < |env| ensures MarkTime(0, env, i) <= stale {
      MarkTimeBound(0, env, timeout, gap, i);
      ProductGrows(i + 1, batch, timeout);
      ProductGrows(i, batch - 1, gap);
    }
  }

  lemma ProductGrows(a: nat, b: nat, c: nat)
    requires a <= b
    ensures a * c <= b * c
  {
    assert (b - a) * c >= 0;
  }

  /** Every call times out and the database is slow once, at the start. */
  lemma SlowestCalls(batch: nat, timeout: nat, gap: nat, database: nat, stale: nat)
      returns (env: seq<Happening>)
    requires batch >= 1
    requires batch * timeout + (batch - 1) * gap + database > stale
    ensures CallsWithin(env, batch, timeout, gap, database) && !BatchInTime(env, stale)
  {
    env := seq(batch, i => Happening(Error(false), timeout, if i == 0 then database else 0, gap));
    forall i | 0 <= i < |env| ensures DatabaseTime(env, i) == database { SpentAtOnce(env, i); }
    MarkTimeBound(0, env, timeout, gap, batch - 1);
    assert MarkTime(0, env, batch - 1) > stale;
  }

  lemma {:induction false} SpentAtOnce(env: seq<Happening>, i: nat)
    requires i < |env| && forall k :: 0 < k < |env| ==> env[k].database == 0
    ensures DatabaseTime(env, i) == env[0].database
  {
    if i > 0 { SpentAtOnce(env, i - 1); }
  }

  // ------------------------------------------------ from timing back to safety

  /** The mark comes at the time a pass over some batch of calls gives it. */
  ghost predicate MarkedAt(start: int, clock: int, env: seq<Happening>, i: nat) {
    i < |env| && clock == MarkTime(start, env, i)
  }

  /** Every mark comes when a worker's loop makes the mark of that position, with
    * `timeout` on each call and `database` to spend on the whole batch. */
  ghost predicate Paced(cfg: Config, s: State, step: Step, timeout: nat, gap: nat, database: nat) {
    step.Mark? && step.pass in s.passes ==> LoopCould(cfg, s.passes[step.pass], s.clock, timeout, gap, database)
  }

  ghost predicate LoopCould(cfg: Config, pass: Pass, clock: int, timeout: nat, gap: nat, database: nat) {
    exists env :: CallsWithin(env, cfg.batch, timeout, gap, database) && MarkedAt(pass.claimedAt, clock, env, pass.done)
  }

  ghost predicate PacedRun(cfg: Config, r: Run, timeout: nat, gap: nat, database: nat) {
    |r.steps| <= |r.states|
    && forall n :: 0 <= n < |r.steps| ==> Paced(cfg, r.states[n], r.steps[n], timeout, gap, database)
  }

  predicate Fits(cfg: Config, timeout: nat, gap: nat, database: nat) {
    cfg.batch >= 1 && cfg.batch * timeout + (cfg.batch - 1) * gap + database <= cfg.staleAfter
  }

  lemma {:induction false} MarkTimeShift(start: int, env: seq<Happening>, i: nat)
    requires i < |env|
    ensures MarkTime(start, env, i) == start + MarkTime(0, env, i)
  {
    if i > 0 { MarkTimeShift(start, env, i - 1); }
  }

  lemma PacedStepIsTimely(cfg: Config, s: State, step: Step, timeout: nat, gap: nat, database: nat)
    requires Fits(cfg, timeout, gap, database) && Paced(cfg, s, step, timeout, gap, database)
    ensures Timely(cfg, s, step)
  {
    if step.Mark? && step.pass in s.passes {
      var pass := s.passes[step.pass];
      var env :| CallsWithin(env, cfg.batch, timeout, gap, database)
                 && MarkedAt(pass.claimedAt, s.clock, env, pass.done);
      FittingBatch(env, cfg.batch, timeout, gap, database, cfg.staleAfter);
      MarkTimeShift(pass.claimedAt, env, pass.done);
      assert MarkTime(0, env, pass.done) <= cfg.staleAfter;
    }
  }

  /** Sent, failed and skipped are final from the first state to the last. */
  ghost predicate SettledForGood(r: Run) {
    forall i, j, id :: 0 <= i <= j < |r.states| && id in r.states[i].rows && Final(r.states[i].rows[id].status) ==>
      Settled(id, r.states[i], r.states[j])
  }

  /** A batch whose worst case fits keeps the whole queue safe: over every run of any
    * workers that pace themselves like the loop below, no message has two holders,
    * attempts keep to the cap and settled rows stay settled. */
  lemma FittingBatchesAreSafe(cfg: Config, r: Run, timeout: nat, gap: nat, database: nat, n: nat)
    requires cfg.maxAttempts >= 1 && Fits(cfg, timeout, gap, database)
    requires IsRun(cfg, r) && PacedRun(cfg, r, timeout, gap, database) && n < |r.states|
    ensures TimelyRun(cfg, r) && Inv(cfg, r.states[n]) && SettledForGood(r)
  {
    forall m | 0 <= m < |r.steps| ensures Timely(cfg, r.states[m], r.steps[m]) {
      PacedStepIsTimely(cfg, r.states[m], r.steps[m], timeout, gap, database);
    }
    RunKeepsInv(cfg, r, n);
    forall i, j, id | 0 <= i <= j < |r.states| && id in r.states[i].rows && Final(r.states[i].rows[id].status)
      ensures Settled(id, r.states[i], r.states[j])
    {
      FinalIsForever(cfg, r, i, j, id);
    }
  }

  // ------------------------------------------------- a pass, as protocol steps

  /** From step `n` on, every mark is pass `p`'s, at the time its batch gives it. */
  ghost predicate OnSchedule(r: Run, n: nat, p: PassId, start: int, env: seq<Happening>) {
    && |r.steps| <= |r.states|
    && forall m :: n <= m < |r.steps| && r.steps[m].Mark? ==>
         r.steps[m] == Mark(p) && ScheduledMark(r.states[m], p, start, env)
  }

  ghost predicate ScheduledMark(s: State, p: PassId, start: int, env: seq<Happening>) {
    p in s.passes && s.passes[p].claimedAt == start && MarkedAt(start, s.clock, env, s.passes[p].done)
  }

  /** Where the loop stands after `i` of its messages. */
  ghost predicate Reached(cfg: Config, s: State, t: State, p: PassId, work: seq<Message>, env: seq<Happening>, i: nat)
    requires i <= |work| <= |env|
  {
    && t.passes == s.passes[p := Pass(s.clock, work[i..], None, i)]
    && t.clock == (if i == 0 then s.clock else MarkTime(s.clock, env, i - 1))
    && t.rows.Keys == s.rows.Keys
    && (forall k :: 0 <= k < i ==> SettledAt(cfg, s.rows, t.rows, work, s.clock, env, k))
    && (forall k :: i <= k < |work| ==> work[k].id in s.rows && t.rows[work[k].id] == s.rows[work[k].id])
    && (forall id :: id in s.rows && id !in IdsOf(work) ==> t.rows[id] == s.rows[id])
  }

  /** Time for the next call and its write passes; the call; the mark. */
  lemma NextMessage(cfg: Config, s: State, t: State, p: PassId, work: seq<Message>, env: seq<Happening>, i: nat)
      returns (wait: nat, t1: State, t2: State, t3: State)
    requires i < |work| <= |env| && DistinctIds(work) && Reached(cfg, s, t, p, work, env, i)
    ensures t1 == Apply(cfg, t, Tick(wait))
    ensures Enabled(cfg, t1, Call(p, env[i].answer)) && t2 == Apply(cfg, t1, Call(p, env[i].answer))
    ensures Enabled(cfg, t2, Mark(p)) && t3 == Apply(cfg, t2, Mark(p))
    ensures ScheduledMark(t2, p, s.clock, env) && Reached(cfg, s, t3, p, work, env, i + 1)
  {
    wait := env[i].call + env[i].database + if i == 0 then 0 else env[i - 1].rest;
    t1 := Apply(cfg, t, Tick(wait));
    assert t1.clock == MarkTime(s.clock, env, i);
    assert t.passes[p].work[0] == work[i];
    t2 := Apply(cfg, t1, Call(p, env[i].answer));
    t3 := Apply(cfg, t2, Mark(p));
    StillReached(cfg, s, t, t3, p, work, env, i);
  }

  lemma {:induction false} StillReached(cfg: Config, s: State, t: State, t3: State, p: PassId, work: seq<Message>,
                                        env: seq<Happening>, i: nat)
    requires i < |work| <= |env| && DistinctIds(work) && Reached(cfg, s, t, p, work, env, i)
    requires t3.clock == MarkTime(s.clock, env, i)
    requires t3.passes == t.passes[p := Pass(t.passes[p].claimedAt, t.passes[p].work[1..], None, t.passes[p].done + 1)]
    requires t3.rows
             == t.rows[work[i].id := RowAfter(cfg, t.rows[work[i].id], work[i].attempts, env[i].answer, t3.clock)]
    ensures Reached(cfg, s, t3, p, work, env, i + 1)
  {
    assert work[i..][1..] == work[i + 1..] && work[i] in work;
    forall k | 0 <= k < i ensures SettledAt(cfg, s.rows, t3.rows, work, s.clock, env, k) {
      assert SettledAt(cfg, s.rows, t.rows, work, s.clock, env, k);
    }
    forall k | i + 1 <= k < |work| ensures t3.rows[work[k].id] == s.rows[work[k].id] {
      assert work[k].id != work[i].id;
    }
    assert SettledAt(cfg, s.rows, t3.rows, work, s.clock, env, i);
  }

  /** The loop over the first `i` messages, as steps added to a path that has just
    * claimed them. */
  lemma {:induction false} PassSteps(cfg: Config, start: State, r: Run, p: PassId, work: seq<Message>,
                                     env: seq<Happening>, i: nat) returns (r': Run)
    requires IsPath(cfg, start, r) && i <= |work| <= |env| && DistinctIds(work)
    requires Reached(cfg, End(r), End(r), p, work, env, 0)
    ensures IsPath(cfg, start, r') && r.states <= r'.states && r.steps <= r'.steps
    ensures Reached(cfg, End(r), End(r'), p, work, env, i)
    ensures OnSchedule(r', |r.steps|, p, End(r).clock, env)
    decreases i
  {
    if i == 0 {
      r' := r;
    } else {
      r' := PassSteps(cfg, start, r, p, work, env, i - 1);
      r' := MessageSteps(cfg, start, End(r), |r.steps|, r', p, work, env, i);
    }
  }

  /** One message more. */
  lemma MessageSteps(cfg: Config, start: State, s: State, n: nat, r: Run, p: PassId, work: seq<Message>,
                     env: seq<Happening>, i: nat) returns (r': Run)
    requires IsPath(cfg, start, r) && 0 < i <= |work| <= |env| && DistinctIds(work) && n <= |r.steps|
    requires Reached(cfg, s, End(r), p, work, env, i - 1) && OnSchedule(r, n, p, s.clock, env)
    ensures IsPath(cfg, start, r') && r.states <= r'.states && r.steps <= r'.steps
    ensures Reached(cfg, s, End(r'), p, work, env, i) && OnSchedule(r', n, p, s.clock, env)
  {
    var wait, t1, t2, t3 := NextMessage(cfg, s, End(r), p, work, env, i - 1);
    r' := ThreeMore(cfg, start, r, wait, p, env[i - 1].answer, t1, t2, t3);
    LongerSchedule(r, r', n, p, s.clock, env);
  }

  lemma ThreeMore(cfg: Config, start: State, r: Run, wait: nat, p: PassId, answer: Answer, t1: State, t2: State,
                  t3: State)
      returns (r': Run)
    requires IsPath(cfg, start, r) && t1 == Apply(cfg, End(r), Tick(wait))
    requires Enabled(cfg, t1, Call(p, answer)) && t2 == Apply(cfg, t1, Call(p, answer))
    requires Enabled(cfg, t2, Mark(p)) && t3 == Apply(cfg, t2, Mark(p))
    ensures IsPath(cfg, start, r') && r'.states == r.states + [t1] + [t2, t3]
    ensures r'.steps == r.steps + [Tick(wait)] + [Call(p, answer), Mark(p)]
  {
    r' := Extended(cfg, start, r, Tick(wait));
    r' := ExtendedTwice(cfg, start, r', Call(p, answer), t2, Mark(p), t3);
  }

  lemma LongerSchedule(before: Run, r: Run, n: nat, p: PassId, start: int, env: seq<Happening>)
    requires |before.states| == |before.steps| + 1 && n <= |before.steps| && OnSchedule(before, n, p, start, env)
    requires |r.steps| == |before.steps| + 3 && |r.states| == |before.states| + 3
    requires before.steps <= r.steps && before.states <= r.states
    requires !r.steps[|before.steps|].Mark? && !r.steps[|before.steps| + 1].Mark?
             && r.steps[|before.steps| + 2] == Mark(p)
    requires ScheduledMark(r.states[|before.steps| + 2], p, start, env)
    ensures OnSchedule(r, n, p, start, env)
  {
    forall m | n <= m < |r.steps| && r.steps[m].Mark?
      ensures r.steps[m] == Mark(p) && ScheduledMark(r.states[m], p, start, env)
    {
      if m < |before.steps| { assert r.steps[m] == before.steps[m] && r.states[m] == before.states[m]; }
    }
  }

  // --------------------------------------------------- safe exactly if it fits

  /** As many messages as a batch takes, all claimed by one pass at once. */
  function Messages(n: nat): (work: seq<Message>)
    ensures |work| == n
  {
    seq(n, i requires 0 <= i < n => Message(i, 0))
  }

  ghost predicate AllQueued(s: State, n: nat) {
    && s.clock == 0 && s.passes == map[] && s.used == Below(n)
    && (forall id: Id :: id < n ==> id in s.rows && s.rows[id] == Row(Queued, 0, None, 0))
  }

  lemma {:induction false} Filled(cfg: Config, n: nat) returns (r: Run)
    ensures IsRun(cfg, r) && AllQueued(End(r), n) && forall m :: 0 <= m < |r.steps| ==> !r.steps[m].Mark?
  {
    if n == 0 {
      r := Run([Init()], []);
    } else {
      r := Filled(cfg, n - 1);
      r := Extended(cfg, Init(), r, Enqueue(n - 1));
      assert Below(n) == Below(n - 1) + {n - 1};
    }
  }

  lemma AllClaimed(cfg: Config, s: State) returns (ids: seq<Id>, t: State)
    requires AllQueued(s, cfg.batch)
    ensures Enabled(cfg, s, Claim(0, ids)) && t == Apply(cfg, s, Claim(0, ids))
    ensures t.clock == 0 && t.passes == map[0 := Pass(0, Messages(cfg.batch), None, 0)]
    ensures forall id: Id :: id < cfg.batch ==> id in t.rows && t.rows[id] == Row(InProgress, 0, Some(0), 0)
  {
    ids := seq(cfg.batch, i requires 0 <= i < cfg.batch => i);
    forall id | id in ids ensures Due(s.rows, id, s.clock) {}
    assert Taken(s.rows, ids) == Messages(cfg.batch);
    t := Apply(cfg, s, Claim(0, ids));
    forall id: Id | id < cfg.batch ensures id in ids { assert ids[id] == id; }
  }

  lemma {:induction false} FirstLate(env: seq<Happening>, stale: nat, n: nat) returns (late: nat)
    requires n < |env| && MarkTime(0, env, n) > stale
    ensures late <= n && MarkTime(0, env, late) > stale
    ensures forall i :: 0 <= i < late ==> MarkTime(0, env, i) <= stale
  {
    if i :| 0 <= i < n && MarkTime(0, env, i) > stale {
      late := FirstLate(env, stale, i);
    } else {
      late := n;
    }
  }

  lemma BatchClaimed(cfg: Config, env: seq<Happening>) returns (r: Run)
    requires |env| == cfg.batch
    ensures IsRun(cfg, r) && forall m :: 0 <= m < |r.steps| ==> !r.steps[m].Mark?
    ensures End(r).clock == 0 && End(r).passes.Keys == {0}
    ensures Reached(cfg, End(r), End(r), 0, Messages(cfg.batch), env, 0)
    ensures forall id: Id :: id < cfg.batch ==> id in End(r).rows && End(r).rows[id] == Row(InProgress, 0, Some(0), 0)
  {
    var filled := Filled(cfg, cfg.batch);
    var ids, t := AllClaimed(cfg, End(filled));
    r := Extended(cfg, Init(), filled, Claim(0, ids));
    assert Messages(cfg.batch)[0..] == Messages(cfg.batch);
  }

  /** One worker, one batch, every call in its timeout: up to the first message whose
    * mark will be late, and then the time that takes. */
  lemma OverdueBatch(cfg: Config, env: seq<Happening>, late: nat) returns (r: Run, n: nat)
    requires late < |env| == cfg.batch && MarkTime(0, env, late) > cfg.staleAfter
    ensures IsRun(cfg, r) && n <= |r.steps| && OnSchedule(r, n, 0, 0, env)
    ensures forall m :: 0 <= m < n ==> !r.steps[m].Mark?
    ensures End(r).passes.Keys == {0} && Heads(End(r), 0, late) && End(r).clock == MarkTime(0, env, late)
    ensures End(r).passes[0].claimedAt == 0 && End(r).passes[0].done == late
  {
    var claimed := BatchClaimed(cfg, env);
    var work := Messages(cfg.batch);
    n := |claimed.steps|;
    var reached := PassSteps(cfg, Init(), claimed, 0, work, env, late);
    var wait := MarkTime(0, env, late) - End(reached).clock;
    r := Extended(cfg, Init(), reached, Tick(wait));
  }

  /** A worker that overruns: its last mark takes a sent row out of 'sent'. */
  lemma OverrunUnsends(cfg: Config, timeout: nat, gap: nat, database: nat) returns (r: Run)
    requires cfg.batch >= 1 && !Fits(cfg, timeout, gap, database)
    ensures IsRun(cfg, r) && PacedRun(cfg, r, timeout, gap, database) && !SettledForGood(r)
  {
    var env := SlowestCalls(cfg.batch, timeout, gap, database, cfg.staleAfter);
    var over :| 0 <= over < |env| && MarkTime(0, env, over) > cfg.staleAfter;
    var late := FirstLate(env, cfg.staleAfter, over);
    var before, n := OverdueBatch(cfg, env, late);
    r := LateMarkUnsends(cfg, Init(), before, 0, 1, late);
    LateRunIsPaced(cfg, before, r, n, env, late, timeout, gap, database);
    assert !Settled(late, r.states[|before.steps| + 4], r.states[|before.steps| + 6]);
  }

  lemma LateRunIsPaced(cfg: Config, before: Run, r: Run, n: nat, env: seq<Happening>, late: nat,
                       timeout: nat, gap: nat, database: nat)
    requires cfg.batch >= 1 && CallsWithin(env, cfg.batch, timeout, gap, database) && late < |env|
    requires |before.states| == |before.steps| + 1 && before.states <= r.states && before.steps <= r.steps
    requires OnSchedule(before, n, 0, 0, env) && n <= |before.steps|
    requires forall m :: 0 <= m < n ==> !before.steps[m].Mark?
    requires 0 in End(before).passes && End(before).passes[0].claimedAt == 0 && End(before).passes[0].done == late
    requires End(before).clock == MarkTime(0, env, late)
    requires Unsends(r, |before.steps|, 0, 1, late) && HeldThroughout(End(before), r, |before.steps|, 0, 1)
    ensures PacedRun(cfg, r, timeout, gap, database)
  {
    var k := |before.steps|;
    forall m | 0 <= m < |r.steps| ensures Paced(cfg, r.states[m], r.steps[m], timeout, gap, database) {
      if m < k {
        assert r.steps[m] == before.steps[m] && r.states[m] == before.states[m];
      } else if m == k + 3 {
        AtOnceIsPaced(cfg, r.states[m], 1, timeout, gap, database);
      } else if m == k + 5 {
      }
    }
  }

  /** A call may take no time at all. */
  lemma AtOnceIsPaced(cfg: Config, s: State, q: PassId, timeout: nat, gap: nat, database: nat)
    requires cfg.batch >= 1 && q in s.passes && s.passes[q].claimedAt == s.clock && s.passes[q].done == 0
    ensures Paced(cfg, s, Mark(q), timeout, gap, database)
  {
    var env := seq(cfg.batch, _ => Happening(Accepted, 0, 0, 0));
    forall i | 0 <= i < |env| ensures DatabaseTime(env, i) == 0 { SpentAtOnce(env, i); }
    assert MarkedAt(s.clock, s.clock, env, 0);
  }

  /** In every run of workers that pace themselves like the loop. */
  ghost predicate SafeQueue(cfg: Config, timeout: nat, gap: nat, database: nat) {
    forall r :: IsRun(cfg, r) && PacedRun(cfg, r, timeout, gap, database) ==> SettledForGood(r)
  }

  /** The queue keeps its promise exactly if the worst case of a batch fits. */
  lemma SafeIffFits(cfg: Config, timeout: nat, gap: nat, database: nat)
    requires cfg.maxAttempts >= 1 && cfg.batch >= 1
    ensures SafeQueue(cfg, timeout, gap, database) <==> Fits(cfg, timeout, gap, database)
  {
    if Fits(cfg, timeout, gap, database) {
      forall r | IsRun(cfg, r) && PacedRun(cfg, r, timeout, gap, database) ensures SettledForGood(r) {
        FittingBatchesAreSafe(cfg, r, timeout, gap, database, 0);
      }
    } else {
      var r := OverrunUnsends(cfg, timeout, gap, database);
    }
  }

  const MAIL_TIMEOUT: nat := 30_000
  const GEOCODER_TIMEOUT: nat := 20_000
  const GAP: nat := 500
  const STALE_AFTER: nat := 600_000
  const DEFAULT_BATCH: nat := 25

  /** The defaults. The geocoder's batch of 25 leaves 88 seconds for the database. The
    * mailer's does not fit, however fast the database is: 19 is the largest mail batch
    * that can, and it leaves 21 seconds. */
  lemma DefaultBatches(batch: nat, database: nat)
    requires batch >= 1
    ensures AlwaysInTime(DEFAULT_BATCH, GEOCODER_TIMEOUT, GAP, database, STALE_AFTER) <==> database <= 88_000
    ensures AlwaysInTime(batch, MAIL_TIMEOUT, GAP, database, STALE_AFTER) <==> 30_500 * batch + database <= 600_500
    ensures AlwaysInTime(batch, MAIL_TIMEOUT, GAP, database, STALE_AFTER) ==> batch <= 19
    ensures AlwaysInTime(19, MAIL_TIMEOUT, GAP, database, STALE_AFTER) <==> database <= 21_000
  {
    BatchFitsIff(DEFAULT_BATCH, GEOCODER_TIMEOUT, GAP, database, STALE_AFTER);
    BatchFitsIff(batch, MAIL_TIMEOUT, GAP, database, STALE_AFTER);
    BatchFitsIff(19, MAIL_TIMEOUT, GAP, database, STALE_AFTER);
  }

  // --------------------------------------------------------------------- worker

  /** The row a mark leaves behind. */
  function RowAfter(cfg: Config, row: Row, attemptsAtClaim: nat, answer: Answer, now: int): Row {
    match answer
    case Accepted => row.(status := Done, lockedAt := None)
    case NoMatch => row.(status := Skipped, lockedAt := None)
    case Error(_) =>
      Row(if row.attempts + 1 >= cfg.maxAttempts then Failed else Queued,
          row.attempts + 1, None, now + BackoffMillis(attemptsAtClaim))
  }

  /** Due rows with the attempts they had, in whatever order they come back. */
  ghost predicate Faithful(rows: Table, work: seq<Message>, now: int) {
    forall i :: 0 <= i < |work| ==> Due(rows, work[i].id, now) && work[i].attempts == rows[work[i].id].attempts
  }

  /** Nothing taken was less overdue than `id`. */
  ghost predicate NotBefore(rows: Table, work: seq<Message>, id: Id) {
    forall i :: 0 <= i < |work| && work[i].id in rows && id in rows ==>
      rows[work[i].id].nextAttemptAt <= rows[id].nextAttemptAt
  }

  /** Taking the earliest due row next passes over none that is more overdue. */
  lemma ClaimOneMore(rows: Table, work: seq<Message>, due: set<Id>, id: Id, now: int)
    requires id in due && id in rows && DistinctIds(work) && Faithful(rows, work, now)
    requires forall k :: k in due <==> Due(rows, k, now) && k !in IdsOf(work)
    requires forall k :: k in due && k in rows ==> rows[id].nextAttemptAt <= rows[k].nextAttemptAt
    requires forall k :: k in due ==> NotBefore(rows, work, k)
    ensures var more := work + [Message(id, rows[id].attempts)];
      && IdsOf(more) == IdsOf(work) + {id} && DistinctIds(more) && Faithful(rows, more, now)
      && forall k :: k in due - {id} ==> NotBefore(rows, more, k)
  {
    assert forall i :: 0 <= i < |work| ==> work[i] in work && work[i].id in IdsOf(work);
    assert NotBefore(rows, work, id);
  }

  /** The i-th message's row is what its answer makes of the row it had, stamped
    * with its own mark time. */
  predicate SettledAt(cfg: Config, before: Table, after: Table, work: seq<Message>,
                      start: int, env: seq<Happening>, i: nat)
    requires i < |work| <= |env|
  {
    && work[i].id in before && work[i].id in after
    && after[work[i].id] == RowAfter(cfg, before[work[i].id], work[i].attempts,
                                     env[i].answer, MarkTime(start, env, i))
  }

  /** How many of the first `n` calls got an answer like this. */
  function Answers(env: seq<Happening>, n: nat, like: Answer -> bool): nat
    requires n <= |env|
  {
    if n == 0 then 0 else Answers(env, n - 1, like) + if like(env[n - 1].answer) then 1 else 0
  }

  predicate Sent(a: Answer) { a.Accepted? }

  predicate NotFound(a: Answer) { a.NoMatch? }

  predicate WentWrong(a: Answer) { a.Error? }

  /** The most overdue of a set of rows. */
  method Earliest(rows: Table, ids: set<Id>) returns (first: Id)
    requires ids != {} && ids <= rows.Keys
    ensures first in ids
    ensures forall id :: id in ids ==> rows[first].nextAttemptAt <= rows[id].nextAttemptAt
  {
    first :| first in ids;
    var todo := ids - {first};
    while todo != {}
      invariant todo <= ids && first in ids
      invariant forall id :: id in ids - todo ==> rows[first].nextAttemptAt <= rows[id].nextAttemptAt
      decreases todo
    {
      var id :| id in todo;
      todo := todo - {id};
      if rows[id].nextAttemptAt < rows[first].nextAttemptAt { first := id; }
    }
  }

  class Outbox {
    var rows: Table

    constructor ()
      ensures rows == map[]
    {
      rows := map[];
    }

    method Enqueue(id: Id, now: int)
      requires id !in rows
      modifies this
      ensures rows == Enqueued(old(rows), id, now)
    {
      rows := rows[id := Row(Queued, 0, None, now)];
    }

    /** Exactly the stalled rows go back to the queue, and are counted. */
    method RequeueStalled(now: int, staleAfter: nat) returns (affected: nat)
      modifies this
      ensures rows == Requeued(old(rows), now, staleAfter)
      ensures affected == |set id | id in old(rows) && Stalled(old(rows)[id], now, staleAfter)|
    {
      ghost var before := rows;
      var todo := rows.Keys;
      affected := 0;
      ghost var hit: set<Id> := {};
      while todo != {}
        invariant todo <= rows.Keys == before.Keys
        invariant forall id :: id in todo ==> rows[id] == before[id]
        invariant forall id :: id in rows && id !in todo ==> rows[id] == Requeued(before, now, staleAfter)[id]
        invariant hit == set id | id in before && id !in todo && Stalled(before[id], now, staleAfter)
        invariant affected == |hit|
        decreases todo
      {
        var id :| id in todo;
        if rows[id].status == InProgress && rows[id].lockedAt.Some? && rows[id].lockedAt.value < now - staleAfter {
          rows := rows[id := rows[id].(status := Queued, lockedAt := None)];
          affected := affected + 1;
          hit := hit + {id};
        }
        todo := todo - {id};
      }
      assert rows == Requeued(before, now, staleAfter);
      assert hit == set id | id in before && Stalled(before[id], now, staleAfter);
    }

    /** Up to `limit` due rows, none of them less overdue than one left out, and none
      * left out while there is room. */
    method Claim(now: int, limit: nat) returns (work: seq<Message>)
      modifies this
      ensures rows == Claimed(old(rows), IdsOf(work), now)
      ensures DistinctIds(work) && |work| <= limit
      ensures Faithful(old(rows), work, now)
      ensures forall id :: Due(old(rows), id, now) && id !in IdsOf(work) ==> NotBefore(old(rows), work, id)
      ensures |work| < limit ==> forall id :: Due(old(rows), id, now) ==> id in IdsOf(work)
    {
      ghost var before := rows;
      var due := set id | id in rows && rows[id].status == Queued && rows[id].nextAttemptAt <= now;
      work := [];
      while due != {} && |work| < limit
        invariant due <= rows.Keys == before.Keys
        invariant rows == Claimed(before, IdsOf(work), now)
        invariant DistinctIds(work) && |work| <= limit
        invariant forall id :: id in due <==> Due(before, id, now) && id !in IdsOf(work)
        invariant Faithful(before, work, now)
        invariant forall id :: id in due ==> NotBefore(before, work, id)
        decreases due
      {
        var id := Earliest(rows, due);
        assert rows[id] == before[id];
        ClaimOneMore(before, work, due, id, now);
        work := work + [Message(id, rows[id].attempts)];
        rows := rows[id := rows[id].(status := InProgress, lockedAt := Some(now))];
        due := due - {id};
      }
    }

    method MarkDone(id: Id)
      modifies this
      ensures rows == MarkedDone(old(rows), id)
    {
      if id in rows { rows := rows[id := rows[id].(status := Done, lockedAt := None)]; }
    }

    method MarkSkipped(id: Id)
      modifies this
      ensures rows == MarkedSkipped(old(rows), id)
    {
      if id in rows { rows := rows[id := rows[id].(status := Skipped, lockedAt := None)]; }
    }

    /** Nothing is written, and the caller is told, when there is no such row. */
    method MarkFailed(id: Id, now: int, backoff: int, maxAttempts: nat) returns (r: Result<Status, ()>)
      modifies this
      ensures id !in old(rows) ==> r.Err? && rows == old(rows)
      ensures id in old(rows) ==>
                && rows == MarkedFailed(old(rows), id, now, backoff, maxAttempts)
                && r == Ok(rows[id].status)
    {
      if id !in rows { return Err(()); }
      var attempts := rows[id].attempts + 1;
      var status := if attempts >= maxAttempts then Failed else Queued;
      rows := rows[id := Row(status, attempts, None, now + backoff)];
      r := Ok(status);
    }

    /** Record one answer against one claimed row. */
    method Settle(cfg: Config, message: Message, answer: Answer, now: int)
      requires message.id in rows
      modifies this
      ensures rows == old(rows)[message.id := RowAfter(cfg, old(rows)[message.id], message.attempts, answer, now)]
    {
      match answer {
        case Accepted => MarkDone(message.id);
        case NoMatch => MarkSkipped(message.id);
        case Error(_) =>
          var outcome := MarkFailed(message.id, now, BackoffMillis(message.attempts), cfg.maxAttempts);
      }
    }

    /** The worker's loop over what it claimed: the i-th row ends as the i-th
      * answer says, at the i-th mark time, and no other row changes. */
    method WorkThrough(cfg: Config, work: seq<Message>, start: int, env: seq<Happening>)
        returns (sent: nat, skipped: nat, failed: nat)
      requires DistinctIds(work) && |work| <= |env|
      requires forall i :: 0 <= i < |work| ==> work[i].id in rows
      modifies this
      ensures rows.Keys == old(rows).Keys
      ensures forall i :: 0 <= i < |work| ==> SettledAt(cfg, old(rows), rows, work, start, env, i)
      ensures forall id :: id in rows && id !in IdsOf(work) ==> rows[id] == old(rows)[id]
      ensures sent + skipped + failed == |work|
      ensures sent == Answers(env, |work|, Sent) && skipped == Answers(env, |work|, NotFound)
      ensures failed == Answers(env, |work|, WentWrong)
    {
      sent, skipped, failed := 0, 0, 0;
      ghost var ids := IdsOf(work);
      forall k | 0 <= k < |work| ensures work[k].id in ids { assert work[k] in work; }
      var now := start;
      var i := 0;
      while i < |work|
        invariant 0 <= i <= |work| && rows.Keys == old(rows).Keys
        invariant now == if i == 0 then start else MarkTime(start, env, i - 1) + env[i - 1].rest
        invariant forall k :: 0 <= k < i ==> SettledAt(cfg, old(rows), rows, work, start, env, k)
        invariant forall k :: i <= k < |work| ==> rows[work[k].id] == old(rows)[work[k].id]
        invariant forall id :: id in rows && id !in ids ==> rows[id] == old(rows)[id]
        invariant sent + skipped + failed == i
        invariant sent == Answers(env, i, Sent) && skipped == Answers(env, i, NotFound)
        invariant failed == Answers(env, i, WentWrong)
      {
        now := now + env[i].call + env[i].database;
        assert now == MarkTime(start, env, i);
        ghost var was := rows;
        Settle(cfg, work[i], env[i].answer, now);
        forall k | 0 <= k < i ensures SettledAt(cfg, old(rows), rows, work, start, env, k) {
          assert SettledAt(cfg, old(rows), was, work, start, env, k);
        }
        assert SettledAt(cfg, old(rows), rows, work, start, env, i);
        match env[i].answer {
          case Accepted => sent := sent + 1;
          case NoMatch => skipped := skipped + 1;
          case Error(_) => failed := failed + 1;
        }
        now := now + env[i].rest;
        i := i + 1;
      }
    }

    /** One undisturbed pass: recover, claim, work through. Each claimed message
      * ends as its answer says and every other row is as the recovery left it. In the
      * protocol, from any state with these rows, it is a path of pass `p`'s steps whose
      * marks all come when `env` says. */
    method RunOnce(cfg: Config, start: int, env: seq<Happening>, ghost s: State, ghost p: PassId)
        returns (stats: Stats, work: seq<Message>, ghost path: Run)
      requires cfg.batch <= |env| && s.rows == rows && s.clock == start && p !in s.passes
      modifies this
      ensures var recovered := Requeued(old(rows), start, cfg.staleAfter);
              && rows.Keys == recovered.Keys
              && DistinctIds(work) && |work| <= cfg.batch && Faithful(recovered, work, start)
              && (forall i :: 0 <= i < |work| ==>
                    SettledAt(cfg, Claimed(recovered, IdsOf(work), start), rows, work, start, env, i))
              && (forall id :: id in rows && id !in IdsOf(work) ==> rows[id] == recovered[id])
              && (|work| < cfg.batch ==> forall id :: Due(recovered, id, start) ==> id in IdsOf(work))
      ensures stats.claimed == |work| == stats.sent + stats.skipped + stats.failed
      ensures stats.sent == Answers(env, |work|, Sent) && stats.skipped == Answers(env, |work|, NotFound)
      ensures stats.failed == Answers(env, |work|, WentWrong)
      ensures stats.requeued == |set id | id in old(rows) && Stalled(old(rows)[id], start, cfg.staleAfter)|
      ensures IsPath(cfg, s, path) && End(path).rows == rows && OnSchedule(path, 0, p, start, env)
    {
      var requeued := RequeueStalled(start, cfg.staleAfter);
      ghost var recovered := rows;
      work := Claim(start, cfg.batch);
      forall i | 0 <= i < |work| ensures work[i].id in IdsOf(work) { assert work[i] in work; }
      ghost var claimed := rows;
      var sent, skipped, failed := WorkThrough(cfg, work, start, env);
      stats := Stats(requeued, |work|, sent, skipped, failed);
      path := PassIsAPath(cfg, s, p, recovered, claimed, work, env);
      SameRows(cfg, claimed, End(path).rows, rows, work, start, env);
    }
  }

  /** Recovery, the claim and the loop as protocol steps. */
  lemma PassIsAPath(cfg: Config, s: State, p: PassId, recovered: Table, claimed: Table, work: seq<Message>,
                    env: seq<Happening>) returns (path: Run)
    requires p !in s.passes && DistinctIds(work) && |work| <= cfg.batch <= |env|
    requires recovered == Requeued(s.rows, s.clock, cfg.staleAfter) && Faithful(recovered, work, s.clock)
    requires claimed == Claimed(recovered, IdsOf(work), s.clock)
    ensures IsPath(cfg, s, path) && OnSchedule(path, 0, p, s.clock, env)
    ensures End(path).rows.Keys == claimed.Keys
    ensures forall k :: 0 <= k < |work| ==> SettledAt(cfg, claimed, End(path).rows, work, s.clock, env, k)
    ensures forall id :: id in claimed && id !in IdsOf(work) ==> End(path).rows[id] == claimed[id]
  {
    var s1 := Apply(cfg, s, Requeue);
    var ids, s2 := WorkClaimed(cfg, s1, p, work);
    var before := ExtendedTwice(cfg, s, Run([s], []), Requeue, s1, WorkQueue.Claim(p, ids), s2);
    assert Reached(cfg, s2, s2, p, work, env, 0) by {
      assert work[0..] == work;
      forall k | 0 <= k < |work| ensures work[k].id in s2.rows { assert Due(recovered, work[k].id, s.clock); }
    }
    path := PassSteps(cfg, s, before, p, work, env, |work|);
    assert path.steps[0] == before.steps[0] && path.steps[1] == before.steps[1];
  }

  lemma WorkClaimed(cfg: Config, s: State, p: PassId, work: seq<Message>) returns (ids: seq<Id>, t: State)
    requires p !in s.passes && DistinctIds(work) && |work| <= cfg.batch && Faithful(s.rows, work, s.clock)
    ensures Enabled(cfg, s, WorkQueue.Claim(p, ids)) && t == Apply(cfg, s, WorkQueue.Claim(p, ids))
    ensures t.rows == Claimed(s.rows, IdsOf(work), s.clock) && t.clock == s.clock
    ensures t.passes == s.passes[p := Pass(s.clock, work, None, 0)]
  {
    ids := seq(|work|, i requires 0 <= i < |work| => work[i].id);
    forall id | id in ids ensures Due(s.rows, id, s.clock) {
      var i :| 0 <= i < |ids| && ids[i] == id;
      assert Due(s.rows, work[i].id, s.clock);
    }
    assert Taken(s.rows, ids) == work;
    forall id ensures id in ids <==> id in IdsOf(work) {
      if id in ids {
        var i :| 0 <= i < |ids| && ids[i] == id;
        assert work[i] in work;
      }
      if id in IdsOf(work) {
        var m :| m in work && m.id == id;
        var i :| 0 <= i < |work| && work[i] == m;
        assert ids[i] == id;
      }
    }
    assert (set id | id in ids) == IdsOf(work);
    t := Apply(cfg, s, WorkQueue.Claim(p, ids));
  }

  /** Settling every claimed row and leaving the rest decides the table. */
  lemma SameRows(cfg: Config, claimed: Table, a: Table, b: Table, work: seq<Message>, start: int, env: seq<Happening>)
    requires |work| <= |env| && a.Keys == b.Keys == claimed.Keys
    requires forall k :: 0 <= k < |work| ==> SettledAt(cfg, claimed, a, work, start, env, k)
    requires forall k :: 0 <= k < |work| ==> SettledAt(cfg, claimed, b, work, start, env, k)
    requires forall id :: id in claimed && id !in IdsOf(work) ==> a[id] == claimed[id] == b[id]
    ensures a == b
  {
    forall id | id in a ensures a[id] == b[id] {
      if id in IdsOf(work) {
        var m :| m in work && m.id == id;
        var k :| 0 <= k < |work| && work[k] == m;
        assert SettledAt(cfg, claimed, a, work, start, env, k) && SettledAt(cfg, claimed, b, work, start, env, k);
      }
    }
  }
}
