/** What moves a row of a queue, and how a finished message came to be finished: over
  * any run of `WorkQueue`, timely or not. */
module WorkHistory {
  import opened Prelude
  import opened WorkQueue

  /** The message that a step marks. */
  predicate Marks(s: State, step: Step, id: Id) {
    && step.Mark? && step.pass in s.passes
    && s.passes[step.pass].work != [] && s.passes[step.pass].work[0].id == id
  }

  /** Locked longer ago than a claim may last. */
  predicate Overdue(cfg: Config, s: State, id: Id) {
    && id in s.rows && s.rows[id].status == InProgress
    && s.rows[id].lockedAt.Some? && s.rows[id].lockedAt.value + cfg.staleAfter < s.clock
  }

  /** A row leaves only by a prune, once finished; a claim locks it; a requeue puts it
    * back with its attempts and its schedule; its mark finishes it, or after an error
    * counts an attempt and puts it off. Nothing else touches it. */
  lemma RowMoves(cfg: Config, s: State, step: Step, id: Id)
    requires Enabled(cfg, s, step) && id in s.rows && s.rows.Keys <= s.used
    ensures id in Apply(cfg, s, step).rows <==> !(step.Prune? && id in step.expired)
    ensures step.Prune? && id in step.expired ==> s.rows[id].status in {Done, Failed, Skipped}
    ensures id in Apply(cfg, s, step).rows ==>
      var row, row' := s.rows[id], Apply(cfg, s, step).rows[id];
      if step.Claim? && id in step.ids then
        && row.status == Queued && row.nextAttemptAt <= s.clock
        && row' == Row(InProgress, row.attempts, Some(s.clock), row.nextAttemptAt)
      else if step.Requeue? && Overdue(cfg, s, id) then
        row' == Row(Queued, row.attempts, None, row.nextAttemptAt)
      else if Marks(s, step, id) then
        var pass := s.passes[step.pass];
        && (pass.answer == Some(Accepted) ==> row' == Row(Done, row.attempts, None, row.nextAttemptAt))
        && (pass.answer == Some(NoMatch) ==> row' == Row(Skipped, row.attempts, None, row.nextAttemptAt))
        && (pass.answer.Some? && pass.answer.value.Error? ==>
              row' == Row(if row.attempts + 1 < cfg.maxAttempts then Queued else Failed, row.attempts + 1, None,
                          s.clock + BackoffMillis(pass.work[0].attempts)))
      else row' == row
  {
  }

  /** A row arrives once, to be tried at once. */
  lemma RowArrives(cfg: Config, s: State, step: Step, id: Id)
    requires Enabled(cfg, s, step) && id !in s.rows
    ensures id in Apply(cfg, s, step).rows <==> step == Enqueue(id)
    ensures step == Enqueue(id) ==>
              id !in s.used && Apply(cfg, s, step).rows[id] == Row(Queued, 0, None, s.clock)
  {
  }

  /** A pass works through what it claimed, in order, one answer to one message; it ends
    * by a crash, or when a message that failed is there no more. */
  lemma PassMoves(cfg: Config, s: State, step: Step, p: PassId)
    requires Enabled(cfg, s, step) && p in s.passes
    ensures p !in Apply(cfg, s, step).passes <==>
              || step == Crash(p)
              || (step == Mark(p) && s.passes[p].answer.value.Error? && s.passes[p].work[0].id !in s.rows)
    ensures p in Apply(cfg, s, step).passes ==>
      var pass, pass' := s.passes[p], Apply(cfg, s, step).passes[p];
      && pass'.claimedAt == pass.claimedAt
      && (if step == Mark(p) then
            pass.work == [pass.work[0]] + pass'.work && pass'.answer == None && pass'.done == pass.done + 1
          else
            && pass'.work == pass.work && pass'.done == pass.done
            && pass'.answer == if step.Call? && step.pass == p then Some(step.reply) else pass.answer)
  {
  }

  /** A pass starts with a claim: of due rows, each once, no more than a batch of them,
    * and with the attempts they had. */
  lemma PassStarts(cfg: Config, s: State, step: Step, p: PassId)
    requires Enabled(cfg, s, step) && p !in s.passes
    ensures p in Apply(cfg, s, step).passes <==> step.Claim? && step.pass == p
    ensures step.Claim? && step.pass == p ==>
      var pass := Apply(cfg, s, step).passes[p];
      && pass.claimedAt == s.clock && pass.answer == None && pass.done == 0
      && |pass.work| == |step.ids| <= cfg.batch
      && forall i :: 0 <= i < |pass.work| ==>
           && pass.work[i].id == step.ids[i] && step.ids[i] in s.rows
           && pass.work[i].attempts == s.rows[step.ids[i]].attempts
           && (forall j :: 0 <= j < i ==> step.ids[j] != step.ids[i])
  {
    if step.Claim? {
      forall i | 0 <= i < |step.ids| ensures Due(s.rows, step.ids[i], s.clock) { assert step.ids[i] in step.ids; }
    }
  }

  /** The provider takes a message when it says so, or fails having taken it; and it is
    * asked about the message in front. */
  lemma AcceptedMoves(cfg: Config, s: State, step: Step, id: Id)
    requires Enabled(cfg, s, step)
    ensures id in Apply(cfg, s, step).accepted <==>
              || id in s.accepted
              || (step.Call? && step.reply in {Accepted, Error(true)} && s.passes[step.pass].work[0].id == id)
    ensures Apply(cfg, s, step).clock == s.clock + (if step.Tick? then step.millis else 0)
  {
  }

  // ------------------------------------------------------- how a message was finished

  /** An answer to this message, held by the pass. */
  predicate Has(s: State, p: PassId, m: Message, reply: Answer) {
    p in s.passes && s.passes[p].work != [] && s.passes[p].work[0] == m && s.passes[p].answer == Some(reply)
  }

  /** The provider answers so about this message. */
  predicate Answers(s: State, step: Step, p: PassId, m: Message, reply: Answer) {
    step == Call(p, reply) && p in s.passes && s.passes[p].work != [] && s.passes[p].work[0] == m
  }

  /** An answer that is held was given, to that pass and about that message. */
  lemma AnswerWasGiven(cfg: Config, r: Run, n: nat, p: PassId, m: Message, reply: Answer) returns (k: nat)
    requires IsRun(cfg, r) && n < |r.states| && Has(r.states[n], p, m, reply)
    ensures k < n && Answers(r.states[k], r.steps[k], p, m, reply)
  {
    forall i | 0 <= i < n && Has(r.states[i + 1], p, m, reply)
      ensures Has(r.states[i], p, m, reply) || Answers(r.states[i], r.steps[i], p, m, reply)
    {
      if p in r.states[i].passes { PassMoves(cfg, r.states[i], r.steps[i], p); }
      else { PassStarts(cfg, r.states[i], r.steps[i], p); }
    }
    k := TracedBack(r.states, r.steps, n, (s: State) => Has(s, p, m, reply),
                    (s: State, step: Step) => Answers(s, step, p, m, reply));
  }

  predicate Works(s: State, p: PassId, m: Message) { p in s.passes && m in s.passes[p].work }

  /** The pass claims this message: queued, due, and tried as often as it says. */
  predicate Takes(s: State, step: Step, p: PassId, m: Message) {
    && step.Claim? && step.pass == p && m.id in step.ids && m.id in s.rows
    && s.rows[m.id].status == Queued && s.rows[m.id].nextAttemptAt <= s.clock && s.rows[m.id].attempts == m.attempts
  }

  lemma MessageWasTaken(cfg: Config, r: Run, n: nat, p: PassId, m: Message) returns (k: nat)
    requires IsRun(cfg, r) && n < |r.states| && Works(r.states[n], p, m)
    ensures k < n && Takes(r.states[k], r.steps[k], p, m)
  {
    forall i | 0 <= i < n && Works(r.states[i + 1], p, m)
      ensures Works(r.states[i], p, m) || Takes(r.states[i], r.steps[i], p, m)
    {
      if p in r.states[i].passes { PassMoves(cfg, r.states[i], r.steps[i], p); }
      else { PassStarts(cfg, r.states[i], r.steps[i], p); }
    }
    k := TracedBack(r.states, r.steps, n, (s: State) => Works(s, p, m), (s: State, step: Step) => Takes(s, step, p, m));
  }

  lemma {:induction false} UsedHoldsRows(cfg: Config, r: Run, n: nat)
    requires IsRun(cfg, r) && n < |r.states|
    ensures r.states[n].rows.Keys <= r.states[n].used
  {
    if n > 0 { UsedHoldsRows(cfg, r, n - 1); }
  }

  /** The answer that leaves a message in this final status. */
  predicate LeadsTo(reply: Answer, status: Status) {
    match status
    case Done => reply == Accepted
    case Skipped => reply == NoMatch
    case Failed => reply.Error?
    case _ => false
  }

  predicate IsIn(s: State, id: Id, status: Status) { id in s.rows && s.rows[id].status == status }

  predicate Finishes(s: State, step: Step, id: Id, status: Status) {
    && Marks(s, step, id) && s.passes[step.pass].answer.Some? && LeadsTo(s.passes[step.pass].answer.value, status)
  }

  /** A finished message was claimed when it was due, the provider was asked about it and
    * gave the answer that its status reports, and that pass marked it: in this order,
    * whatever the timing. */
  lemma HowItWasFinished(cfg: Config, r: Run, n: nat, id: Id)
      returns (claim: nat, call: nat, mark: nat, p: PassId, m: Message, reply: Answer)
    requires IsRun(cfg, r) && n < |r.states| && id in r.states[n].rows
    requires r.states[n].rows[id].status in {Done, Failed, Skipped}
    ensures claim < call < mark < n && m.id == id
    ensures Takes(r.states[claim], r.steps[claim], p, m)
    ensures r.steps[call] == Call(p, reply) && Answers(r.states[call], r.steps[call], p, m, reply)
    ensures r.steps[mark] == Mark(p) && Has(r.states[mark], p, m, reply)
    ensures LeadsTo(reply, r.states[n].rows[id].status)
  {
    var status := r.states[n].rows[id].status;
    forall i | 0 <= i < n && IsIn(r.states[i + 1], id, status)
      ensures IsIn(r.states[i], id, status) || Finishes(r.states[i], r.steps[i], id, status)
    {
      UsedHoldsRows(cfg, r, i);
      if id in r.states[i].rows { RowMoves(cfg, r.states[i], r.steps[i], id); }
      else { RowArrives(cfg, r.states[i], r.steps[i], id); }
    }
    mark := TracedBack(r.states, r.steps, n, (s: State) => IsIn(s, id, status),
                       (s: State, step: Step) => Finishes(s, step, id, status));
    p := r.steps[mark].pass;
    m, reply := r.states[mark].passes[p].work[0], r.states[mark].passes[p].answer.value;
    call := AnswerWasGiven(cfg, r, mark, p, m, reply);
    claim := MessageWasTaken(cfg, r, call, p, m);
  }
}
