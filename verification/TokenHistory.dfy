/** Codes and links, told from what happened: what is answered to a guess, where a token
  * comes from, and exactly which steps spend it. */
module TokenHistory {
  import opened Prelude
  import opened AuthTokens

  /** The issue is under way, as it began. */
  predicate Pending(s: State, f: Flow, i: Issuing) { f in s.issuing && s.issuing[f] == i }

  /** The step begins this issue, for this user and now. */
  predicate Begins(s: State, step: Step, f: Flow, i: Issuing) {
    step == Begin(f, i.id, i.user, i.purpose, i.hash, i.ttl) && i.at == s.clock
  }

  lemma PendingWasBegun(r: Run, n: nat, f: Flow, i: Issuing) returns (k: nat)
    requires IsRun(r) && n < |r.states| && Pending(r.states[n], f, i)
    ensures k < n && Begins(r.states[k], r.steps[k], f, i)
  {
    forall m | 0 <= m < n && Pending(r.states[m + 1], f, i)
      ensures Pending(r.states[m], f, i) || Begins(r.states[m], r.steps[m], f, i)
    {
      PendingStep(r.states[m], r.steps[m], f, i);
    }
    k := TracedBack(r.states, r.steps, n, s => Pending(s, f, i), (s, step) => Begins(s, step, f, i));
  }

  lemma PendingStep(s: State, step: Step, f: Flow, i: Issuing)
    requires Enabled(s, step) && Pending(Apply(s, step), f, i)
    ensures Pending(s, f, i) || Begins(s, step, f, i)
  {
  }

  /** The row is there, for this user and purpose, with this digest and this end. */
  predicate Stands(s: State, id: Id, user: User, purpose: Purpose, hash: Hash, expiresAt: int) {
    && id in s.tokens && s.tokens[id].user == user && s.tokens[id].purpose == purpose
    && s.tokens[id].hash == hash && s.tokens[id].expiresAt == expiresAt
  }

  predicate Issues(s: State, step: Step, id: Id, user: User, purpose: Purpose, hash: Hash, expiresAt: int) {
    && step.Commit? && step.flow in s.issuing
    && var i := s.issuing[step.flow];
       i.id == id && i.user == user && i.purpose == purpose && i.hash == hash && i.at + i.ttl == expiresAt
  }

  lemma StandsStep(s: State, step: Step, id: Id, user: User, purpose: Purpose, hash: Hash, expiresAt: int)
    requires Enabled(s, step) && Stands(Apply(s, step), id, user, purpose, hash, expiresAt)
    ensures Stands(s, id, user, purpose, hash, expiresAt) || Issues(s, step, id, user, purpose, hash, expiresAt)
  {
  }

  /** Every token in the table was issued by two steps: one that names its user, its
    * purpose and its digest and starts its life, and the commit. */
  lemma TokenWasIssued(r: Run, n: nat, id: Id) returns (k: nat, c: nat, f: Flow, ttl: nat)
    requires IsRun(r) && n < |r.states| && id in r.states[n].tokens
    ensures var t := r.states[n].tokens[id];
      && k < c < n && r.steps[k] == Begin(f, id, t.user, t.purpose, t.hash, ttl) && r.steps[c] == Commit(f)
      && t.expiresAt == r.states[k].clock + ttl
  {
    var t := r.states[n].tokens[id];
    forall m | 0 <= m < n && Stands(r.states[m + 1], id, t.user, t.purpose, t.hash, t.expiresAt)
      ensures Stands(r.states[m], id, t.user, t.purpose, t.hash, t.expiresAt)
              || Issues(r.states[m], r.steps[m], id, t.user, t.purpose, t.hash, t.expiresAt)
    {
      StandsStep(r.states[m], r.steps[m], id, t.user, t.purpose, t.hash, t.expiresAt);
    }
    c := TracedBack(r.states, r.steps, n, s => Stands(s, id, t.user, t.purpose, t.hash, t.expiresAt),
                    (s, step) => Issues(s, step, id, t.user, t.purpose, t.hash, t.expiresAt));
    f := r.steps[c].flow;
    var i := r.states[c].issuing[f];
    ttl := i.ttl;
    k := PendingWasBegun(r, c, f, i);
  }

  // -------------------------------------------------------------------- answers

  /** What a guess is told, off the row as it was: nothing if there is no open challenge
    * of that purpose that still has time; otherwise whether the digest is the right one,
    * and if so whose challenge it is. */
  lemma AnswerIs(tokens: Table, id: Id, purpose: Purpose, hash: Hash, now: int, user: User)
    ensures var answerable := id in tokens && tokens[id].purpose == purpose
                              && tokens[id].consumedAt == None && now < tokens[id].expiresAt;
      && (Verdict(tokens, id, purpose, hash, now) == Gone <==> !answerable)
      && (Verdict(tokens, id, purpose, hash, now) == Wrong <==> answerable && tokens[id].hash != hash)
      && (Verdict(tokens, id, purpose, hash, now) == Matched(user) <==>
            answerable && tokens[id].hash == hash && tokens[id].user == user)
  {
  }

  /** Whoever is signed in by a code is whoever it was issued for: a matching guess goes
    * back to the issue that named that user and that digest, less than its life ago, and
    * it is the first that matches. */
  lemma MatchedIsWhoseCode(r: Run, n: nat, id: Id, purpose: Purpose, hash: Hash, user: User)
      returns (k: nat, f: Flow, ttl: nat)
    requires IsRun(r) && n < |r.states|
    requires Verdict(r.states[n].tokens, id, purpose, hash, r.states[n].clock) == Matched(user)
    ensures k < n && r.steps[k] == Begin(f, id, user, purpose, hash, ttl)
    ensures r.states[n].clock < r.states[k].clock + ttl
    ensures Count(r.states[n].wins, id) == 0 && Count(r.states[n].guesses, id) < MAX_ATTEMPTS
  {
    AnswerIs(r.states[n].tokens, id, purpose, hash, r.states[n].clock, user);
    var c;
    k, c, f, ttl := TokenWasIssued(r, n, id);
    RunKeepsInv(r, n);
    assert TokenOk(r.states[n], id);
  }

  /** A link acts on the account it was issued for, and only in its time. */
  lemma LinkIsWhoseLink(r: Run, n: nat, id: Id, purpose: Purpose, hash: Hash) returns (k: nat, f: Flow, ttl: nat)
    requires IsRun(r) && n < |r.states| && IsLink(r.states[n].tokens, id, hash, purpose, r.states[n].clock)
    ensures k < n && r.steps[k] == Begin(f, id, r.states[n].tokens[id].user, purpose, hash, ttl)
    ensures r.states[n].clock < r.states[k].clock + ttl && Count(r.states[n].wins, id) == 0
  {
    var c;
    k, c, f, ttl := TokenWasIssued(r, n, id);
    RunKeepsInv(r, n);
    assert TokenOk(r.states[n], id);
  }

  // ------------------------------------------------------- what moves a token

  /** A guess at this very token, open, in time and of its purpose. */
  predicate GuessesAt(s: State, step: Step, id: Id) {
    && step.Verify? && step.id == id && id in s.tokens && step.purpose == s.tokens[id].purpose
    && s.tokens[id].consumedAt == None && s.clock < s.tokens[id].expiresAt
  }

  /** The step spends the token: a right guess or the fifth, its own link, or an issue of
    * the same user and purpose that saw it open when it began. */
  predicate Spends(s: State, step: Step, id: Id)
    requires id in s.tokens
  {
    var t := s.tokens[id];
    t.consumedAt == None &&
    match step
    case Verify(_, _, hash) => GuessesAt(s, step, id) && (hash == t.hash || t.attempts + 1 >= 5)
    case Consume(hash, purpose) => hash == t.hash && purpose == t.purpose && s.clock < t.expiresAt
    case Commit(f) => f in s.issuing && id in s.issuing[f].seen
    case _ => false
  }

  /** A token stays until it is pruned, which only happens to one long dead. It keeps its
    * user, purpose, digest and end, counts exactly the guesses at it, and is spent by
    * exactly those steps and never unspent. */
  lemma TokenMoves(s: State, step: Step, id: Id)
    requires Inv(s) && Enabled(s, step) && id in s.tokens
    ensures id in Apply(s, step).tokens <==> !(step.Prune? && id in step.gone)
    ensures id !in Apply(s, step).tokens ==>
      var t := s.tokens[id];
      t.expiresAt + step.grace < s.clock || (t.consumedAt != None && t.consumedAt.value + step.grace < s.clock)
    ensures id in Apply(s, step).tokens ==>
      var t, t' := s.tokens[id], Apply(s, step).tokens[id];
      && t'.user == t.user && t'.purpose == t.purpose && t'.hash == t.hash && t'.expiresAt == t.expiresAt
      && t'.attempts == t.attempts + (if GuessesAt(s, step, id) then 1 else 0)
      && (t'.consumedAt == None <==> t.consumedAt == None && !Spends(s, step, id))
      && (t.consumedAt != None ==> t'.consumedAt == t.consumedAt)
  {
    if step.Commit? { assert PendingOk(s, step.flow); }
  }

  /** A token arrives, fresh, exactly when its issue commits. */
  lemma TokenArrives(s: State, step: Step, id: Id)
    requires Enabled(s, step) && id !in s.tokens
    ensures id in Apply(s, step).tokens <==> step.Commit? && s.issuing[step.flow].id == id
    ensures step.Commit? && s.issuing[step.flow].id == id ==>
      var i := s.issuing[step.flow];
      Apply(s, step).tokens[id] == Token(i.user, i.purpose, i.hash, i.at + i.ttl, None, 0)
  {
  }

  /** An issue begins by looking which tokens of its user and purpose are open, and ends
    * by committing or not at all; only time moves the clock. */
  lemma IssueMoves(s: State, step: Step, f: Flow)
    requires Enabled(s, step)
    ensures f in Apply(s, step).issuing <==>
              || (step.Begin? && step.flow == f)
              || (f in s.issuing && step != Commit(f) && step != Abort(f))
    ensures f in s.issuing && f in Apply(s, step).issuing ==> Apply(s, step).issuing[f] == s.issuing[f]
    ensures step.Begin? && step.flow == f ==>
      forall id :: id in Apply(s, step).issuing[f].seen <==>
        && id in s.tokens && s.tokens[id].user == step.user && s.tokens[id].purpose == step.purpose
        && s.tokens[id].consumedAt == None
    ensures Apply(s, step).clock == s.clock + (if step.Tick? then step.seconds else 0)
  {
  }

  /** The history counts every guess that is evaluated, and every token accepted, as a
    * code or as a link. */
  lemma HistoryMoves(s: State, step: Step, id: Id)
    requires Enabled(s, step)
    ensures Count(Apply(s, step).guesses, id) == Count(s.guesses, id) + if GuessesAt(s, step, id) then 1 else 0
    ensures var accepted := && id in s.tokens && s.tokens[id].consumedAt == None && s.clock < s.tokens[id].expiresAt
                            && ((step.Verify? && step.id == id) || step.Consume?)
                            && step.hash == s.tokens[id].hash && step.purpose == s.tokens[id].purpose;
      Count(Apply(s, step).wins, id) == Count(s.wins, id) + if accepted then 1 else 0
  {
  }

  /** A row an issue saw is of the user and purpose the issue is for, and no issue is
    * still to bring it. */
  ghost predicate SawRightly(s: State, f: Flow, id: Id)
    requires f in s.issuing
  {
    && id in s.used
    && (id in s.tokens ==> s.tokens[id].user == s.issuing[f].user && s.tokens[id].purpose == s.issuing[f].purpose)
    && forall g :: g in s.issuing ==> s.issuing[g].id != id
  }

  ghost predicate SeenOk(s: State) {
    forall f, id :: f in s.issuing && id in s.issuing[f].seen ==> SawRightly(s, f, id)
  }

  lemma BeginSeesRightly(s: State, step: Step, id: Id)
    requires Inv(s) && step.Begin? && Enabled(s, step) && id in Apply(s, step).issuing[step.flow].seen
    ensures SawRightly(Apply(s, step), step.flow, id)
  {
    assert TokenOk(s, id);
    forall g | g in s.issuing ensures s.issuing[g].id != id { assert PendingOk(s, g); }
  }

  lemma StillSeenRightly(s: State, step: Step, f: Flow, id: Id)
    requires Inv(s) && Enabled(s, step) && f in s.issuing && f in Apply(s, step).issuing && SawRightly(s, f, id)
    ensures SawRightly(Apply(s, step), f, id)
  {
    var s' := Apply(s, step);
    forall g | g in s'.issuing ensures s'.issuing[g].id != id { assert g in s.issuing ==> s.issuing[g].id != id; }
    if step.Commit? { assert s.issuing[step.flow].id != id; }
  }

  lemma SeenStep(s: State, step: Step)
    requires Inv(s) && SeenOk(s) && Enabled(s, step)
    ensures SeenOk(Apply(s, step))
  {
    var s' := Apply(s, step);
    forall f, id | f in s'.issuing && id in s'.issuing[f].seen ensures SawRightly(s', f, id) {
      if f in s.issuing {
        assert SawRightly(s, f, id);
        StillSeenRightly(s, step, f, id);
      } else {
        BeginSeesRightly(s, step, id);
      }
    }
  }

  lemma {:induction false} RunKeepsSeen(r: Run, n: nat)
    requires IsRun(r) && n < |r.states|
    ensures SeenOk(r.states[n])
  {
    if n > 0 {
      RunKeepsSeen(r, n - 1);
      RunKeepsInv(r, n - 1);
      SeenStep(r.states[n - 1], r.steps[n - 1]);
    }
  }

  /** A token is spent by its own code or link, by its fifth wrong guess, or by another
    * token issued for the same user and purpose: nothing anybody else does touches it. */
  lemma SpentByItsOwn(r: Run, n: nat, id: Id)
    requires IsRun(r) && n < |r.steps| && id in r.states[n].tokens && Open(r.states[n].tokens[id])
    requires id in r.states[n + 1].tokens && !Open(r.states[n + 1].tokens[id])
    ensures var t, step := r.states[n].tokens[id], r.steps[n];
      || (step.Verify? && step.id == id && step.purpose == t.purpose && (step.hash == t.hash || t.attempts == 4))
      || (step.Consume? && step.hash == t.hash && step.purpose == t.purpose)
      || (step.Commit? && step.flow in r.states[n].issuing
          && r.states[n].issuing[step.flow].user == t.user && r.states[n].issuing[step.flow].purpose == t.purpose)
  {
    RunKeepsInv(r, n);
    RunKeepsSeen(r, n);
    if r.steps[n].Commit? && id in r.states[n].issuing[r.steps[n].flow].seen {
      assert SawRightly(r.states[n], r.steps[n].flow, id);
    }
    TokenMoves(r.states[n], r.steps[n], id);
    assert TokenOk(r.states[n], id);
  }
}
