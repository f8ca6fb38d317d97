/** The email outbox and the geocode queue.
  *
  * Both tables run the same protocol. Workers claim due rows, call a provider
  * with nothing locked, and then mark each row by id alone; rows left claimed
  * by a worker that died are put back once they have been locked too long.
  * Times are in milliseconds. */
module WorkQueue {
  import opened Prelude

  type Id = nat
  type PassId = nat

  /** `Done` is the outbox's 'sent' and the geocode queue's 'succeeded'; only the
    * geocode queue uses `Skipped`. */
  datatype Status = Queued | InProgress | Done | Failed | Skipped

  datatype Row = Row(status: Status, attempts: nat, lockedAt: Option<int>, nextAttemptAt: int)

  type Table = map<Id, Row>

  datatype Config = Config(batch: nat, maxAttempts: nat, staleAfter: nat)

  predicate Final(status: Status) { status.Done? || status.Failed? || status.Skipped? }

  // ---------------------------------------------------------------- statements

  /** Doubling from 30 s, capped at an hour, whatever count it is given. */
  function BackoffMillis(attempts: int): (r: int)
    ensures 30_000 <= r <= 3_600_000
  {
    var exponent := if attempts < 0 then 0 else if attempts > 10 then 10 else attempts;
    var raw := 30_000 * PowerOfTwo(exponent);
    if raw < 3_600_000 then raw else 3_600_000
  }

  function PowerOfTwo(n: nat): (r: nat)
    ensures r >= 1
  {
    if n == 0 then 1 else 2 * PowerOfTwo(n - 1)
  }

  /** Each wait is twice the one before until the hour is reached. */
  lemma BackoffDoubles(attempts: int)
    ensures attempts <= 0 ==> BackoffMillis(attempts) == 30_000
    ensures attempts >= 0 ==>
              BackoffMillis(attempts + 1)
              == if 2 * BackoffMillis(attempts) < 3_600_000 then 2 * BackoffMillis(attempts) else 3_600_000
  {
    if attempts >= 10 { BackoffAtCap(); }
  }

  lemma BackoffAtCap()
    ensures BackoffMillis(10) == 3_600_000
  {
    assert PowerOfTwo(4) == 16 && PowerOfTwo(7) == 8 * PowerOfTwo(4) && PowerOfTwo(10) == 8 * PowerOfTwo(7);
  }

  function Enqueued(rows: Table, id: Id, now: int): Table {
    rows[id := Row(Queued, 0, None, now)]
  }

  predicate Due(rows: Table, id: Id, now: int) {
    id in rows && rows[id].status.Queued? && rows[id].nextAttemptAt <= now
  }

  function Claimed(rows: Table, chosen: set<Id>, now: int): Table {
    map id | id in rows ::
      if id in chosen then rows[id].(status := InProgress, lockedAt := Some(now)) else rows[id]
  }

  /** No status or owner guard: `WHERE id = $1` only. */
  function MarkedDone(rows: Table, id: Id): Table {
    if id in rows then rows[id := rows[id].(status := Done, lockedAt := None)] else rows
  }

  function MarkedSkipped(rows: Table, id: Id): Table {
    if id in rows then rows[id := rows[id].(status := Skipped, lockedAt := None)] else rows
  }

  /** Also unguarded: attempts, status and schedule are rewritten whatever they were. */
  function MarkedFailed(rows: Table, id: Id, now: int, backoff: int, maxAttempts: nat): Table
    requires id in rows
  {
    var row := rows[id];
    rows[id := Row(if row.attempts + 1 >= maxAttempts then Failed else Queued,
                   row.attempts + 1, None, now + backoff)]
  }

  predicate Stalled(row: Row, now: int, staleAfter: nat) {
    row.status.InProgress? && row.lockedAt.Some? && row.lockedAt.value < now - staleAfter
  }

  function Requeued(rows: Table, now: int, staleAfter: nat): Table {
    map id | id in rows ::
      if Stalled(rows[id], now, staleAfter)
      then rows[id].(status := Queued, lockedAt := None) else rows[id]
  }

  // ------------------------------------------------------------------ protocol

  /** What the provider said about one message. `Error(delivered)` covers the
    * ambiguous failure: the provider may have accepted a message the worker was
    * told had failed. */
  datatype Answer = Accepted | NoMatch | Error(delivered: bool)

  datatype Message = Message(id: Id, attempts: nat)

  /** One worker's pass: what it has left to do, and the answer it is holding
    * between the provider call and the mark; `done` counts its marks. */
  datatype Pass = Pass(claimedAt: int, work: seq<Message>, answer: Option<Answer>, done: nat)

  /** `accepted` are the messages the provider has taken. */
  datatype State = State(rows: Table, clock: int, passes: map<PassId, Pass>,
                         used: set<Id>, accepted: set<Id>)

  datatype Step =
    | Enqueue(id: Id)
    | Tick(millis: nat)
    | Requeue
    | Claim(pass: PassId, ids: seq<Id>)
    | Call(pass: PassId, reply: Answer)
    | Mark(pass: PassId)
    | Crash(pass: PassId)
    | Prune(expired: set<Id>)

  function Init(): State { State(map[], 0, map[], {}, {}) }

  function IdsOf(work: seq<Message>): set<Id> { set m | m in work :: m.id }

  predicate DistinctIds(work: seq<Message>) {
    forall i, j :: 0 <= i < j < |work| ==> work[i].id != work[j].id
  }

  predicate Enabled(cfg: Config, s: State, step: Step) {
    match step
    case Enqueue(id) => id !in s.used
    case Tick(_) => true
    case Requeue => true
    case Claim(p, ids) =>
      && p !in s.passes
      && |ids| <= cfg.batch
      && Distinct(ids)
      && forall id :: id in ids ==> Due(s.rows, id, s.clock)
    case Call(p, _) => p in s.passes && s.passes[p].work != [] && s.passes[p].answer.None?
    case Mark(p) => p in s.passes && s.passes[p].work != [] && s.passes[p].answer.Some?
    case Crash(p) => p in s.passes
    case Prune(ids) => forall id :: id in ids ==> id in s.rows && Final(s.rows[id].status)
  }

  function Taken(rows: Table, ids: seq<Id>): (work: seq<Message>)
    requires forall id :: id in ids ==> id in rows
    ensures |work| == |ids|
  {
    seq(|ids|, i requires 0 <= i < |ids| => Message(ids[i], rows[ids[i]].attempts))
  }

  function ApplyMark(cfg: Config, s: State, p: PassId): State
    requires Enabled(cfg, s, Mark(p))
  {
    var pass := s.passes[p];
    var m := pass.work[0];
    var rest := s.passes[p := Pass(pass.claimedAt, pass.work[1..], None, pass.done + 1)];
    match pass.answer.value
    case Accepted => s.(rows := MarkedDone(s.rows, m.id), passes := rest)
    case NoMatch => s.(rows := MarkedSkipped(s.rows, m.id), passes := rest)
    case Error(_) =>
      // `fetch_one` fails on a missing row, and the error ends the whole pass.
      if m.id in s.rows
      then s.(rows := MarkedFailed(s.rows, m.id, s.clock, BackoffMillis(m.attempts), cfg.maxAttempts),
              passes := rest)
      else s.(passes := s.passes - {p})
  }

  function Apply(cfg: Config, s: State, step: Step): State
    requires Enabled(cfg, s, step)
  {
    match step
    case Enqueue(id) => s.(rows := Enqueued(s.rows, id, s.clock), used := s.used + {id})
    case Tick(d) => s.(clock := s.clock + d)
    case Requeue => s.(rows := Requeued(s.rows, s.clock, cfg.staleAfter))
    case Claim(p, ids) =>
      s.(rows := Claimed(s.rows, (set id | id in ids), s.clock),
         passes := s.passes[p := Pass(s.clock, Taken(s.rows, ids), None, 0)])
    case Call(p, reply) =>
      var id := s.passes[p].work[0].id;
      var taken := reply.Accepted? || (reply.Error? && reply.delivered);
      s.(passes := s.passes[p := s.passes[p].(answer := Some(reply))],
         accepted := if taken then s.accepted + {id} else s.accepted)
    case Mark(p) => ApplyMark(cfg, s, p)
    case Crash(p) => s.(passes := s.passes - {p})
    case Prune(ids) => s.(rows := s.rows - ids)
  }

  /** The timing hypothesis: a mark comes no later than `staleAfter` past its
    * claim. A pass that overruns may linger, but it never marks again. */
  predicate Timely(cfg: Config, s: State, step: Step) {
    step.Mark? && step.pass in s.passes ==> InTime(cfg, s, step.pass)
  }

  predicate InTime(cfg: Config, s: State, p: PassId)
    requires p in s.passes
  {
    s.clock <= s.passes[p].claimedAt + cfg.staleAfter
  }

  datatype Run = Run(states: seq<State>, steps: seq<Step>)

  ghost predicate IsPath(cfg: Config, s: State, r: Run) {
    && |r.states| == |r.steps| + 1
    && r.states[0] == s
    && forall i :: 0 <= i < |r.steps| ==>
         Enabled(cfg, r.states[i], r.steps[i])
         && r.states[i + 1] == Apply(cfg, r.states[i], r.steps[i])
  }

  ghost predicate IsRun(cfg: Config, r: Run) { IsPath(cfg, Init(), r) }

  function End(r: Run): State
    requires |r.states| == |r.steps| + 1
  {
    r.states[|r.steps|]
  }

  lemma Extended(cfg: Config, s: State, r: Run, step: Step) returns (r': Run)
    requires IsPath(cfg, s, r) && Enabled(cfg, End(r), step)
    ensures IsPath(cfg, s, r')
    ensures r' == Run(r.states + [Apply(cfg, End(r), step)], r.steps + [step])
  {
    r' := Run(r.states + [Apply(cfg, End(r), step)], r.steps + [step]);
  }

  ghost predicate TimelyRun(cfg: Config, r: Run)
    requires IsRun(cfg, r)
  {
    forall i :: 0 <= i < |r.steps| ==> Timely(cfg, r.states[i], r.steps[i])
  }

  // ----------------------------------------------------------------- invariant

  /** What a worker may still act on. */
  function Held(cfg: Config, s: State, p: PassId): set<Id> {
    if p in s.passes && InTime(cfg, s, p) then IdsOf(s.passes[p].work) else {}
  }

  predicate RowOk(cfg: Config, row: Row, clock: int) {
    && (row.status.InProgress? <==> row.lockedAt.Some?)
    && (row.lockedAt.Some? ==> row.lockedAt.value <= clock)
    && (if row.status.Failed? then row.attempts == cfg.maxAttempts else row.attempts < cfg.maxAttempts)
  }

  ghost predicate RowsOk(cfg: Config, s: State) {
    && s.rows.Keys <= s.used
    && forall id :: id in s.rows ==> RowOk(cfg, s.rows[id], s.clock)
  }

  /** Every message a worker may still act on is locked by exactly that claim. */
  predicate LockedBy(s: State, p: PassId, id: Id)
    requires p in s.passes
  {
    && id in s.rows
    && s.rows[id].status.InProgress?
    && s.rows[id].lockedAt == Some(s.passes[p].claimedAt)
  }

  ghost predicate PassesOk(cfg: Config, s: State) {
    && (forall p :: p in s.passes ==> DistinctIds(s.passes[p].work))
    && (forall p, id :: id in Held(cfg, s, p) ==> LockedBy(s, p, id))
  }

  ghost predicate Exclusive(cfg: Config, s: State) {
    forall p, q, id :: p != q && id in Held(cfg, s, p) ==> id !in Held(cfg, s, q)
  }

  ghost predicate Inv(cfg: Config, s: State) {
    RowsOk(cfg, s) && PassesOk(cfg, s) && Exclusive(cfg, s)
  }

  lemma ClaimKeepsInv(cfg: Config, s: State, p: PassId, ids: seq<Id>)
    requires Inv(cfg, s) && Enabled(cfg, s, Claim(p, ids))
    ensures Inv(cfg, Apply(cfg, s, Claim(p, ids)))
  {
    var s' := Apply(cfg, s, Claim(p, ids));
    forall q | q != p ensures Held(cfg, s', q) == Held(cfg, s, q) {}
    forall id | id in Held(cfg, s', p) ensures id in ids && id !in s.rows.Keys - s'.rows.Keys {}
    forall q, id | id in Held(cfg, s', q) ensures LockedBy(s', q, id) {
      if q != p { assert LockedBy(s, q, id); }
    }
  }

  lemma MarkKeepsInv(cfg: Config, s: State, p: PassId)
    requires cfg.maxAttempts >= 1
    requires Inv(cfg, s) && Enabled(cfg, s, Mark(p)) && InTime(cfg, s, p)
    ensures Inv(cfg, Apply(cfg, s, Mark(p)))
    ensures s.passes[p].work[0].id in s.rows
  {
    var s' := Apply(cfg, s, Mark(p));
    var work := s.passes[p].work;
    assert work[0] in work && work[0].id in Held(cfg, s, p);
    assert LockedBy(s, p, work[0].id);
    forall id | id in Held(cfg, s', p) ensures id in Held(cfg, s, p) && id != work[0].id {
      var m :| m in work[1..] && m.id == id;
      assert m in work;
    }
    forall q | q != p ensures Held(cfg, s', q) == Held(cfg, s, q) {}
    forall q, id | id in Held(cfg, s', q) ensures LockedBy(s', q, id) {
      assert LockedBy(s, q, id);
    }
  }

  lemma StepKeepsInv(cfg: Config, s: State, step: Step)
    requires cfg.maxAttempts >= 1
    requires Inv(cfg, s) && Enabled(cfg, s, step) && Timely(cfg, s, step)
    ensures Inv(cfg, Apply(cfg, s, step))
  {
    var s' := Apply(cfg, s, step);
    match step
    case Claim(p, ids) => ClaimKeepsInv(cfg, s, p, ids);
    case Mark(p) => MarkKeepsInv(cfg, s, p);
    case _ =>
      forall q ensures Held(cfg, s', q) <= Held(cfg, s, q) {}
      forall q, id | id in Held(cfg, s', q) ensures LockedBy(s', q, id) {
        assert LockedBy(s, q, id);
      }
  }

  lemma {:induction false} RunKeepsInv(cfg: Config, r: Run, n: nat)
    requires cfg.maxAttempts >= 1
    requires IsRun(cfg, r) && TimelyRun(cfg, r) && n < |r.states|
    ensures Inv(cfg, r.states[n])
  {
    if n > 0 {
      RunKeepsInv(cfg, r, n - 1);
      StepKeepsInv(cfg, r.states[n - 1], r.steps[n - 1]);
    }
  }

  // ------------------------------------------------------------- main results

  /** For any workers, interleavings and crashes: a message is held by one worker
    * at most, and only while it is locked; attempts never pass the cap. */
  lemma SafeUnderTiming(cfg: Config, r: Run, n: nat)
    requires cfg.maxAttempts >= 1
    requires IsRun(cfg, r) && TimelyRun(cfg, r) && n < |r.states|
    ensures forall p, q, id :: p != q && id in Held(cfg, r.states[n], p) ==> id !in Held(cfg, r.states[n], q)
    ensures forall p, id :: id in Held(cfg, r.states[n], p) ==>
              id in r.states[n].rows && r.states[n].rows[id].status.InProgress?
    ensures forall id :: id in r.states[n].rows ==>
              r.states[n].rows[id].attempts <= cfg.maxAttempts
              && (r.states[n].rows[id].attempts == cfg.maxAttempts <==> r.states[n].rows[id].status.Failed?)
  {
    RunKeepsInv(cfg, r, n);
    var s := r.states[n];
    forall p, id | id in Held(cfg, s, p) ensures id in s.rows && s.rows[id].status.InProgress? {
      assert LockedBy(s, p, id);
    }
    assert forall id :: id in s.rows ==> RowOk(cfg, s.rows[id], s.clock);
  }

  /** A settled row is only ever left alone or pruned, and a pruned id stays gone. */
  ghost predicate Settled(id: Id, before: State, after: State)
    requires id in before.rows
  {
    if id in after.rows then after.rows[id] == before.rows[id] else id in after.used
  }

  lemma StepKeepsFinal(cfg: Config, s: State, step: Step, id: Id)
    requires cfg.maxAttempts >= 1
    requires Inv(cfg, s) && Enabled(cfg, s, step) && Timely(cfg, s, step)
    requires id in s.used && (id in s.rows ==> Final(s.rows[id].status))
    ensures id in Apply(cfg, s, step).used
    ensures id in Apply(cfg, s, step).rows ==>
              id in s.rows && Apply(cfg, s, step).rows[id] == s.rows[id]
  {
    if step.Mark? {
      var m := s.passes[step.pass].work[0];
      assert m in s.passes[step.pass].work && m.id in Held(cfg, s, step.pass);
      assert LockedBy(s, step.pass, m.id);
    }
  }

  /** Sent, failed and skipped are final over every timely run. */
  lemma {:induction false} FinalIsForever(cfg: Config, r: Run, i: nat, j: nat, id: Id)
    requires cfg.maxAttempts >= 1
    requires IsRun(cfg, r) && TimelyRun(cfg, r) && i <= j < |r.states|
    requires id in r.states[i].rows && Final(r.states[i].rows[id].status)
    ensures Settled(id, r.states[i], r.states[j])
    decreases j
  {
    RunKeepsInv(cfg, r, i);
    if i < j {
      FinalIsForever(cfg, r, i, j - 1, id);
      RunKeepsInv(cfg, r, j - 1);
      StepKeepsFinal(cfg, r.states[j - 1], r.steps[j - 1], id);
    }
  }

  // ------------------------------------------------------ what needs no timing

  /** A row says 'sent' only if the provider took the message, and no worker is about
    * to say it of one it did not. */
  ghost predicate DeliveryOk(s: State) {
    && (forall id :: id in s.rows && s.rows[id].status.Done? ==> id in s.accepted)
    && (forall p :: p in s.passes && s.passes[p].work != [] && s.passes[p].answer == Some(Accepted) ==>
          s.passes[p].work[0].id in s.accepted)
  }

  /** In every run, timely or not. */
  lemma {:induction false} SentMeansAccepted(cfg: Config, r: Run, n: nat)
    requires IsRun(cfg, r) && n < |r.states|
    ensures DeliveryOk(r.states[n])
  {
    if n > 0 {
      SentMeansAccepted(cfg, r, n - 1);
    }
  }

  // ------------------------------------------------- how often a provider is called

  predicate Claims(s: State, step: Step, id: Id) { step.Claim? && id in step.ids }

  predicate Calls(s: State, step: Step, id: Id) {
    && step.Call? && step.pass in s.passes && s.passes[step.pass].work != []
    && s.passes[step.pass].work[0].id == id
  }

  predicate Recovers(cfg: Config, s: State, step: Step, id: Id) {
    step.Requeue? && id in s.rows && Stalled(s.rows[id], s.clock, cfg.staleAfter)
  }

  /** How often, in the first `n` steps, a message was claimed; how often the provider
    * was called for it; and how often it was put back after a stall. */
  function ClaimCount(r: Run, id: Id, n: nat): nat
    requires n <= |r.steps| <= |r.states|
  {
    if n == 0 then 0 else ClaimCount(r, id, n - 1) + if Claims(r.states[n - 1], r.steps[n - 1], id) then 1 else 0
  }

  function CallCount(r: Run, id: Id, n: nat): nat
    requires n <= |r.steps| <= |r.states|
  {
    if n == 0 then 0 else CallCount(r, id, n - 1) + if Calls(r.states[n - 1], r.steps[n - 1], id) then 1 else 0
  }

  function RecoveryCount(cfg: Config, r: Run, id: Id, n: nat): nat
    requires n <= |r.steps| <= |r.states|
  {
    if n == 0 then 0 else
      RecoveryCount(cfg, r, id, n - 1) + if Recovers(cfg, r.states[n - 1], r.steps[n - 1], id) then 1 else 0
  }

  /** The pass still has this message to call about. */
  predicate Owes(pass: Pass, id: Id) {
    exists i :: 0 <= i < |pass.work| && pass.work[i].id == id && !(i == 0 && pass.answer.Some?)
  }

  ghost function Owing(s: State, id: Id): set<PassId> { set p | p in s.passes && Owes(s.passes[p], id) }

  /** One claim not yet paid for by an attempt or a recovery. */
  function Slack(row: Row): nat { if row.status.Queued? || row.status.Failed? then 0 else 1 }

  /** Every claim is one call, made or still owed; and every claim but the last ended
    * in an attempt or a recovery. */
  ghost predicate AccountOk(s: State, id: Id, claims: nat, calls: nat, recoveries: nat) {
    && s.rows.Keys <= s.used
    && (forall p :: p in s.passes ==> DistinctIds(s.passes[p].work))
    && calls + |Owing(s, id)| <= claims
    && (id !in s.used ==> claims == 0)
    && (id in s.rows ==> claims <= s.rows[id].attempts + recoveries + Slack(s.rows[id]))
  }

  lemma OwingAfterMark(cfg: Config, s: State, p: PassId, id: Id)
    requires Enabled(cfg, s, Mark(p)) && DistinctIds(s.passes[p].work)
    ensures Owing(ApplyMark(cfg, s, p), id) <= Owing(s, id)
    ensures p in ApplyMark(cfg, s, p).passes ==> DistinctIds(ApplyMark(cfg, s, p).passes[p].work)
  {
    var s' := ApplyMark(cfg, s, p);
    var work := s.passes[p].work;
    forall q | q in Owing(s', id) ensures q in Owing(s, id) {
      if q == p {
        var i :| 0 <= i < |work[1..]| && work[1..][i].id == id;
        assert work[i + 1].id == id;
      }
    }
  }

  lemma OwingAfterCall(cfg: Config, s: State, p: PassId, reply: Answer, id: Id)
    requires Enabled(cfg, s, Call(p, reply)) && DistinctIds(s.passes[p].work)
    ensures Owing(Apply(cfg, s, Call(p, reply)), id)
            == if s.passes[p].work[0].id == id then Owing(s, id) - {p} else Owing(s, id)
    ensures s.passes[p].work[0].id == id ==> p in Owing(s, id)
  {
    var s', work := Apply(cfg, s, Call(p, reply)), s.passes[p].work;
    assert s'.passes[p].work == work;
    forall q | q != p ensures q in Owing(s', id) <==> q in Owing(s, id) {}
    if work[0].id == id {
      assert Owes(s.passes[p], id);
    } else if Owes(s.passes[p], id) {
      var i :| 0 <= i < |work| && work[i].id == id;
      assert i != 0;
    }
  }

  lemma TakenOwes(rows: Table, ids: seq<Id>, at: int, id: Id)
    requires forall k :: k in ids ==> k in rows
    ensures Owes(Pass(at, Taken(rows, ids), None, 0), id) <==> id in ids
  {
    var pass := Pass(at, Taken(rows, ids), None, 0);
    if Owes(pass, id) {
      var i :| 0 <= i < |ids| && pass.work[i].id == id;
      assert ids[i] == id;
    }
    if id in ids {
      var i :| 0 <= i < |ids| && ids[i] == id;
      assert pass.work[i].id == id;
    }
  }

  lemma OwingAfterClaim(cfg: Config, s: State, p: PassId, ids: seq<Id>, id: Id)
    requires Enabled(cfg, s, Claim(p, ids))
    ensures Owing(Apply(cfg, s, Claim(p, ids)), id) == if id in ids then Owing(s, id) + {p} else Owing(s, id)
    ensures DistinctIds(Apply(cfg, s, Claim(p, ids)).passes[p].work)
  {
    var s' := Apply(cfg, s, Claim(p, ids));
    forall q | q != p ensures q in Owing(s', id) <==> q in Owing(s, id) {}
    TakenOwes(s.rows, ids, s.clock, id);
  }

  /** How many calls are owed, and that no pass has a message twice. */
  lemma StepKeepsOwing(cfg: Config, s: State, step: Step, id: Id)
    requires Enabled(cfg, s, step) && forall p :: p in s.passes ==> DistinctIds(s.passes[p].work)
    ensures forall p :: p in Apply(cfg, s, step).passes ==> DistinctIds(Apply(cfg, s, step).passes[p].work)
    ensures |Owing(Apply(cfg, s, step), id)| + (if Calls(s, step, id) then 1 else 0)
            <= |Owing(s, id)| + if Claims(s, step, id) then 1 else 0
  {
    var s' := Apply(cfg, s, step);
    match step
    case Claim(p, ids) => OwingAfterClaim(cfg, s, p, ids, id);
    case Call(p, reply) => OwingAfterCall(cfg, s, p, reply, id);
    case Mark(p) =>
      OwingAfterMark(cfg, s, p, id);
      SubsetSize(Owing(s', id), Owing(s, id));
    case _ => SubsetSize(Owing(s', id), Owing(s, id));
  }

  /** What a claim is charged to. */
  lemma StepKeepsCharge(cfg: Config, s: State, step: Step, id: Id)
    requires Enabled(cfg, s, step) && s.rows.Keys <= s.used
    ensures Apply(cfg, s, step).rows.Keys <= Apply(cfg, s, step).used && s.used <= Apply(cfg, s, step).used
    ensures Claims(s, step, id) ==> id in s.rows
    ensures id in Apply(cfg, s, step).rows ==> id in s.rows || id !in s.used
    ensures id in Apply(cfg, s, step).rows && id in s.rows ==>
              s.rows[id].attempts + Slack(s.rows[id]) + (if Claims(s, step, id) then 1 else 0)
              <= Apply(cfg, s, step).rows[id].attempts + Slack(Apply(cfg, s, step).rows[id])
                 + if Recovers(cfg, s, step, id) then 1 else 0
  {
  }

  lemma StepKeepsAccount(cfg: Config, s: State, step: Step, id: Id, claims: nat, calls: nat, recoveries: nat)
    requires Enabled(cfg, s, step) && AccountOk(s, id, claims, calls, recoveries)
    ensures AccountOk(Apply(cfg, s, step), id, claims + if Claims(s, step, id) then 1 else 0,
                      calls + if Calls(s, step, id) then 1 else 0,
                      recoveries + if Recovers(cfg, s, step, id) then 1 else 0)
  {
    StepKeepsOwing(cfg, s, step, id);
    StepKeepsCharge(cfg, s, step, id);
  }

  lemma {:induction false} AccountAfter(cfg: Config, r: Run, n: nat, id: Id)
    requires IsRun(cfg, r) && n < |r.states|
    ensures AccountOk(r.states[n], id, ClaimCount(r, id, n), CallCount(r, id, n), RecoveryCount(cfg, r, id, n))
  {
    if n > 0 {
      AccountAfter(cfg, r, n - 1, id);
      StepKeepsAccount(cfg, r.states[n - 1], r.steps[n - 1], id, ClaimCount(r, id, n - 1), CallCount(r, id, n - 1),
                       RecoveryCount(cfg, r, id, n - 1));
    }
  }

  /** However workers overlap, stall and die, the provider has been called for a
    * message at most once for each attempt it is charged, once for each time it was
    * recovered, and once more while it is out or when it is sent. */
  lemma CallsAreAccountedFor(cfg: Config, r: Run, n: nat, id: Id)
    requires IsRun(cfg, r) && n < |r.states| && id in r.states[n].rows
    ensures CallCount(r, id, n)
            <= r.states[n].rows[id].attempts + RecoveryCount(cfg, r, id, n) + Slack(r.states[n].rows[id])
  {
    AccountAfter(cfg, r, n, id);
  }

  /** So if marks are in time, retries cost at most the cap, and only recoveries more. */
  lemma TimelyCallsAreCapped(cfg: Config, r: Run, n: nat, id: Id)
    requires cfg.maxAttempts >= 1
    requires IsRun(cfg, r) && TimelyRun(cfg, r) && n < |r.states| && id in r.states[n].rows
    ensures CallCount(r, id, n) <= cfg.maxAttempts + RecoveryCount(cfg, r, id, n)
  {
    CallsAreAccountedFor(cfg, r, n, id);
    RunKeepsInv(cfg, r, n);
    assert RowOk(cfg, r.states[n].rows[id], r.states[n].clock);
  }

  // --------------------------------------------------------- one mark too late

  /** The head of a pass's work, still locked by it, due again once recovered. */
  predicate Heads(s: State, p: PassId, id: Id) {
    && p in s.passes && s.passes[p].work != [] && s.passes[p].work[0].id == id && s.passes[p].answer.None?
    && id in s.rows && s.rows[id].status.InProgress? && s.rows[id].lockedAt == Some(s.passes[p].claimedAt)
    && s.rows[id].nextAttemptAt <= s.clock
  }

  /** Recovered and claimed by another pass while the first still means to mark it. */
  lemma Reclaimed(cfg: Config, s: State, p: PassId, q: PassId, id: Id) returns (s1: State, s2: State)
    requires cfg.batch >= 1 && Heads(s, p, id) && s.clock > s.passes[p].claimedAt + cfg.staleAfter && q !in s.passes
    ensures s1 == Apply(cfg, s, Requeue) && Enabled(cfg, s1, Claim(q, [id])) && s2 == Apply(cfg, s1, Claim(q, [id]))
    ensures s1.clock == s2.clock == s.clock && p in s1.passes && s1.passes[p] == s.passes[p]
    ensures s2.passes == s.passes[q := Pass(s.clock, [Message(id, s.rows[id].attempts)], None, 0)]
    ensures id in s2.rows && s2.rows[id].attempts == s.rows[id].attempts
  {
    s1 := Apply(cfg, s, Requeue);
    assert Due(s1.rows, id, s1.clock);
    s2 := Apply(cfg, s1, Claim(q, [id]));
    assert Taken(s1.rows, [id]) == [Message(id, s.rows[id].attempts)];
  }

  /** One message answered and marked. */
  lemma CalledAndMarked(cfg: Config, s: State, p: PassId, id: Id, reply: Answer) returns (s1: State, s2: State)
    requires p in s.passes && s.passes[p].work != [] && s.passes[p].work[0].id == id && s.passes[p].answer.None?
    requires id in s.rows && (reply.Accepted? || reply.Error?)
    ensures Enabled(cfg, s, Call(p, reply)) && s1 == Apply(cfg, s, Call(p, reply))
    ensures Enabled(cfg, s1, Mark(p)) && s2 == Apply(cfg, s1, Mark(p))
    ensures s1.clock == s2.clock == s.clock && s1.passes == s.passes[p := s.passes[p].(answer := Some(reply))]
    ensures forall q :: q in s.passes && q != p ==> q in s2.passes && s2.passes[q] == s.passes[q]
    ensures id in s2.rows && (s2.rows[id].status.Done? <==> reply.Accepted?)
    ensures s2.rows[id].attempts == s.rows[id].attempts + if reply.Accepted? then 0 else 1
    ensures reply.Accepted? ==> id in s2.accepted
  {
    s1 := Apply(cfg, s, Call(p, reply));
    s2 := Apply(cfg, s1, Mark(p));
  }

  /** What the six steps after `n` are, and what they do to one row. */
  ghost predicate Unsends(r: Run, n: nat, p: PassId, q: PassId, id: Id) {
    && |r.steps| == n + 6 && |r.states| == n + 7
    && r.steps[n] == Requeue && r.steps[n + 1] == Claim(q, [id])
    && r.steps[n + 2] == Call(q, Accepted) && r.steps[n + 3] == Mark(q)
    && r.steps[n + 4] == Call(p, Error(false)) && r.steps[n + 5] == Mark(p)
    && id in r.states[n + 4].rows && r.states[n + 4].rows[id].status.Done?
    && id in r.states[n + 6].rows && !r.states[n + 6].rows[id].status.Done?
    && id in r.states[n].rows && r.states[n + 6].rows[id].attempts == r.states[n].rows[id].attempts + 1
  }

  /** From any such moment: the row is sent by the second pass and taken back out of
    * 'sent' by the first. */
  lemma LateMarkUnsends(cfg: Config, start: State, r: Run, p: PassId, q: PassId, id: Id) returns (r': Run)
    requires cfg.batch >= 1 && IsPath(cfg, start, r) && Heads(End(r), p, id) && q !in End(r).passes
    requires End(r).clock > End(r).passes[p].claimedAt + cfg.staleAfter
    ensures IsPath(cfg, start, r') && r.states <= r'.states && r.steps <= r'.steps
    ensures Unsends(r', |r.steps|, p, q, id) && HeldThroughout(End(r), r', |r.steps|, p, q)
  {
    var six := LateStates(cfg, End(r), p, q, id);
    r' := ExtendedBySix(cfg, start, r, p, q, id, six);
  }

  lemma ExtendedBySix(cfg: Config, start: State, r: Run, p: PassId, q: PassId, id: Id, six: seq<State>)
      returns (r': Run)
    requires IsPath(cfg, start, r) && Follow(cfg, End(r), p, q, id, six)
    ensures IsPath(cfg, start, r')
    ensures r'.states == r.states + [six[0], six[1]] + [six[2], six[3]] + [six[4], six[5]]
    ensures r'.steps == r.steps + [Requeue, Claim(q, [id])] + [Call(q, Accepted), Mark(q)]
                        + [Call(p, Error(false)), Mark(p)]
  {
    r' := ExtendedTwice(cfg, start, r, Requeue, six[0], Claim(q, [id]), six[1]);
    r' := ExtendedTwice(cfg, start, r', Call(q, Accepted), six[2], Mark(q), six[3]);
    r' := ExtendedTwice(cfg, start, r', Call(p, Error(false)), six[4], Mark(p), six[5]);
  }

  /** The six states in a row. */
  ghost predicate Follow(cfg: Config, s: State, p: PassId, q: PassId, id: Id, six: seq<State>) {
    && |six| == 6 && six[0] == Apply(cfg, s, Requeue)
    && Enabled(cfg, six[0], Claim(q, [id])) && six[1] == Apply(cfg, six[0], Claim(q, [id]))
    && Enabled(cfg, six[1], Call(q, Accepted)) && six[2] == Apply(cfg, six[1], Call(q, Accepted))
    && Enabled(cfg, six[2], Mark(q)) && six[3] == Apply(cfg, six[2], Mark(q))
    && Enabled(cfg, six[3], Call(p, Error(false))) && six[4] == Apply(cfg, six[3], Call(p, Error(false)))
    && Enabled(cfg, six[4], Mark(p)) && six[5] == Apply(cfg, six[4], Mark(p))
  }

  ghost predicate LateFacts(s: State, p: PassId, q: PassId, id: Id, six: seq<State>) {
    && |six| == 6
    && id in six[3].rows && six[3].rows[id].status.Done?
    && id in six[5].rows && !six[5].rows[id].status.Done?
    && id in s.rows && six[5].rows[id].attempts == s.rows[id].attempts + 1
    && six[2].clock == six[4].clock == s.clock
    && q in six[2].passes && six[2].passes[q].claimedAt == s.clock && six[2].passes[q].done == 0
    && p in s.passes && p in six[4].passes
    && six[4].passes[p] == s.passes[p].(answer := Some(Error(false)))
  }

  lemma LateStates(cfg: Config, s: State, p: PassId, q: PassId, id: Id) returns (six: seq<State>)
    requires cfg.batch >= 1 && Heads(s, p, id) && q !in s.passes && s.clock > s.passes[p].claimedAt + cfg.staleAfter
    ensures Follow(cfg, s, p, q, id, six) && LateFacts(s, p, q, id, six)
  {
    var s1, s2 := Reclaimed(cfg, s, p, q, id);
    var s3, s4 := CalledAndMarked(cfg, s2, q, id, Accepted);
    var s5, s6 := CalledAndMarked(cfg, s4, p, id, Error(false));
    six := [s1, s2, s3, s4, s5, s6];
  }

  /** No time passes, and each of the two marks is its pass's own. */
  ghost predicate HeldThroughout(s: State, r: Run, n: nat, p: PassId, q: PassId)
    requires |r.states| == n + 7
  {
    && r.states[n + 3].clock == r.states[n + 5].clock == s.clock
    && q in r.states[n + 3].passes && r.states[n + 3].passes[q].claimedAt == s.clock
    && r.states[n + 3].passes[q].done == 0
    && p in s.passes && p in r.states[n + 5].passes
    && r.states[n + 5].passes[p] == s.passes[p].(answer := Some(Error(false)))
  }

  lemma ExtendedTwice(cfg: Config, start: State, r: Run, a: Step, sa: State, b: Step, sb: State) returns (r': Run)
    requires IsPath(cfg, start, r) && Enabled(cfg, End(r), a) && sa == Apply(cfg, End(r), a)
    requires Enabled(cfg, sa, b) && sb == Apply(cfg, sa, b)
    ensures IsPath(cfg, start, r') && r'.states == r.states + [sa, sb] && r'.steps == r.steps + [a, b]
  {
    r' := Extended(cfg, start, r, a);
    r' := Extended(cfg, start, r', b);
  }

  /** The hypothesis is tight. Under every configuration, one millisecond of
    * lateness lets an unguarded mark take a sent row back out of 'sent'. */
  lemma OneMillisecondLateUnsends(cfg: Config) returns (r: Run)
    requires cfg.batch >= 1
    ensures IsRun(cfg, r) && |r.steps| == 9
    ensures forall i :: 0 <= i < 8 ==> Timely(cfg, r.states[i], r.steps[i])
    ensures r.steps[8].Mark? && r.steps[8].pass in r.states[8].passes
    ensures r.states[8].clock == r.states[8].passes[r.steps[8].pass].claimedAt + cfg.staleAfter + 1
    ensures 0 in r.states[7].rows && r.states[7].rows[0].status.Done?
    ensures 0 in r.states[9].rows && !r.states[9].rows[0].status.Done?
    ensures r.states[9].rows[0].attempts == 1
  {
    var late := cfg.staleAfter + 1;
    r := OneClaimed(cfg);
    r := Extended(cfg, Init(), r, Tick(late));
    assert Heads(End(r), 0, 0);
    r := LateMarkUnsends(cfg, Init(), r, 0, 1, 0);
    assert r.steps[..3][1] == r.steps[1];
  }

  lemma OneClaimed(cfg: Config) returns (r: Run)
    requires cfg.batch >= 1
    ensures IsRun(cfg, r) && r.steps == [Enqueue(0), Claim(0, [0])]
    ensures End(r).clock == 0 && End(r).passes == map[0 := Pass(0, [Message(0, 0)], None, 0)]
    ensures 0 in End(r).rows && End(r).rows[0] == Row(InProgress, 0, Some(0), 0)
  {
    r := Extended(cfg, Init(), Run([Init()], []), Enqueue(0));
    var s := End(r);
    assert Due(s.rows, 0, s.clock) && Taken(s.rows, [0]) == [Message(0, 0)];
    r := Extended(cfg, Init(), r, Claim(0, [0]));
  }

  /** Delayed, never lost: from every state a timely run can reach, a row that is
    * not settled still has a timely continuation in which it is sent. */
  lemma NeverStuck(cfg: Config, s: State, id: Id, p: PassId) returns (r: Run)
    requires cfg.batch >= 1 && Inv(cfg, s)
    requires id in s.rows && !Final(s.rows[id].status) && p !in s.passes
    ensures IsPath(cfg, s, r) && forall i :: 0 <= i < |r.steps| ==> Timely(cfg, r.states[i], r.steps[i])
    ensures id in End(r).rows && End(r).rows[id].status.Done? && id in End(r).accepted
  {
    r := TakenAgain(cfg, s, id, p);
    var s3 := End(r);
    var s4, s5 := CalledAndMarked(cfg, s3, p, id, Accepted);
    r := ExtendedTwice(cfg, s, r, Call(p, Accepted), s4, Mark(p), s5);
    assert r.states[4] == s4 && InTime(cfg, s4, p);
  }

  lemma TakenAgain(cfg: Config, s: State, id: Id, p: PassId) returns (r: Run)
    requires cfg.batch >= 1 && Inv(cfg, s)
    requires id in s.rows && !Final(s.rows[id].status) && p !in s.passes
    ensures IsPath(cfg, s, r) && |r.steps| == 3 && forall i :: 0 <= i < 3 ==> !r.steps[i].Mark?
    ensures id in End(r).rows && p in End(r).passes
    ensures End(r).passes[p] == Pass(End(r).clock, [Message(id, End(r).rows[id].attempts)], None, 0)
  {
    var row := s.rows[id];
    assert RowOk(cfg, row, s.clock);
    var wait := cfg.staleAfter + 1
                + if row.nextAttemptAt > s.clock then row.nextAttemptAt - s.clock else 0;
    var s1, s2 := WaitedFor(cfg, s, id, wait);
    r := ExtendedTwice(cfg, s, Run([s], []), Tick(wait), s1, Requeue, s2);
    assert Taken(s2.rows, [id]) == [Message(id, s2.rows[id].attempts)];
    r := Extended(cfg, s, r, Claim(p, [id]));
  }

  /** Wait out the lock and the schedule, and a row that was not settled is due. */
  lemma WaitedFor(cfg: Config, s: State, id: Id, wait: nat) returns (s1: State, s2: State)
    requires id in s.rows && !Final(s.rows[id].status) && RowOk(cfg, s.rows[id], s.clock)
    requires wait > cfg.staleAfter && s.rows[id].nextAttemptAt <= s.clock + wait
    ensures s1 == Apply(cfg, s, Tick(wait)) && s2 == Apply(cfg, s1, Requeue)
    ensures Due(s2.rows, id, s2.clock) && s2.passes == s.passes
  {
    s1 := Apply(cfg, s, Tick(wait));
    s2 := Apply(cfg, s1, Requeue);
  }
}
