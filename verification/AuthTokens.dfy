/** Emailed sign-in codes and reset links: single use, at most five guesses at a
  * code, and one open per user and purpose as long as issues do not overlap. */
module AuthTokens {
  import opened Prelude

  type Id = nat
  type User = nat
  type Hash = nat
  type Flow = nat

  datatype Purpose = EmailVerify | LoginCode | PasswordReset

  datatype Token = Token(user: User, purpose: Purpose, hash: Hash, expiresAt: int,
                         consumedAt: Option<int>, attempts: nat)

  type Table = map<Id, Token>

  const MAX_ATTEMPTS: nat := 5

  predicate Open(t: Token) { t.consumedAt.None? }

  predicate Live(t: Token, now: int) { Open(t) && t.expiresAt > now }

  datatype CodeOutcome = Matched(user: User) | Wrong | Gone

  // ---------------------------------------------------------------- statements

  /** Of the given rows, those still open are spent. */
  function Spent(tokens: Table, ids: set<Id>, now: int): Table {
    map id | id in tokens ::
      if id in ids && Open(tokens[id]) then tokens[id].(consumedAt := Some(now)) else tokens[id]
  }

  predicate InSlot(t: Token, user: User, purpose: Purpose) { t.user == user && t.purpose == purpose }

  /** The open tokens of one user and purpose. */
  function OpenIn(tokens: Table, user: User, purpose: Purpose): set<Id> {
    set id | id in tokens && InSlot(tokens[id], user, purpose) && Open(tokens[id])
  }

  /** Issuing with nothing else going on. */
  function Issued(tokens: Table, id: Id, user: User, purpose: Purpose, hash: Hash, ttl: nat, now: int): Table {
    Spent(tokens, OpenIn(tokens, user, purpose), now)[id := Token(user, purpose, hash, now + ttl, None, 0)]
  }

  predicate CanGuess(tokens: Table, id: Id, purpose: Purpose, now: int) {
    id in tokens && tokens[id].purpose == purpose && Live(tokens[id], now)
  }

  /** One statement counts the attempt and decides whether it was the last. */
  function Guessed(tokens: Table, id: Id, purpose: Purpose, hash: Hash, maxAttempts: nat, now: int): Table {
    if !CanGuess(tokens, id, purpose, now) then tokens
    else
      var t := tokens[id];
      tokens[id := t.(attempts := t.attempts + 1,
                      consumedAt := if t.hash == hash || t.attempts + 1 >= maxAttempts then Some(now) else None)]
  }

  function Verdict(tokens: Table, id: Id, purpose: Purpose, hash: Hash, now: int): CodeOutcome {
    if !CanGuess(tokens, id, purpose, now) then Gone
    else if tokens[id].hash == hash then Matched(tokens[id].user) else Wrong
  }

  predicate IsLink(tokens: Table, id: Id, hash: Hash, purpose: Purpose, now: int) {
    id in tokens && tokens[id].hash == hash && tokens[id].purpose == purpose && Live(tokens[id], now)
  }

  function LinkSpent(tokens: Table, hash: Hash, purpose: Purpose, now: int): Table {
    map id | id in tokens ::
      if IsLink(tokens, id, hash, purpose, now) then tokens[id].(consumedAt := Some(now)) else tokens[id]
  }

  predicate Prunable(t: Token, now: int, grace: nat) {
    t.expiresAt < now - grace || (t.consumedAt.Some? && t.consumedAt.value < now - grace)
  }

  // ------------------------------------------------------------------ protocol

  /** A transaction that is issuing a token. Its UPDATE spends the rows it saw open
    * when it started; its INSERT becomes visible when it commits. `now()` is the
    * time it began. */
  datatype Issuing = Issuing(id: Id, user: User, purpose: Purpose, hash: Hash, ttl: nat, at: int, seen: set<Id>)

  /** `guesses` counts the guesses ever evaluated against a token, `wins` the
    * times it was ever accepted, as a code or as a link; `born` numbers the tokens
    * in the order they were committed. */
  datatype State = State(tokens: Table, clock: int, used: set<Id>, hashes: set<Hash>,
                         guesses: map<Id, nat>, wins: map<Id, nat>,
                         issuing: map<Flow, Issuing>, born: map<Id, nat>, births: nat)

  datatype Step =
    | Begin(flow: Flow, id: Id, user: User, purpose: Purpose, hash: Hash, ttl: nat)
    | Commit(flow: Flow)
    | Abort(flow: Flow)
    | Verify(id: Id, purpose: Purpose, hash: Hash)
    | Consume(hash: Hash, purpose: Purpose)
    | Prune(gone: set<Id>, grace: nat)
    | Tick(seconds: nat)

  function Init(): State { State(map[], 0, {}, {}, map[], map[], map[], map[], 0) }

  function Count(m: map<Id, nat>, id: Id): nat { if id in m then m[id] else 0 }

  /** Ids and digests are fresh. */
  predicate Enabled(s: State, step: Step) {
    match step
    case Begin(f, id, _, _, hash, _) => f !in s.issuing && id !in s.used && hash !in s.hashes
    case Commit(f) => f in s.issuing
    case Abort(f) => f in s.issuing
    case Verify(_, _, _) => true
    case Consume(_, _) => true
    case Prune(gone, grace) => forall id :: id in gone ==> id in s.tokens && Prunable(s.tokens[id], s.clock, grace)
    case Tick(_) => true
  }

  function Committed(tokens: Table, i: Issuing): Table {
    Spent(tokens, i.seen, i.at)[i.id := Token(i.user, i.purpose, i.hash, i.at + i.ttl, None, 0)]
  }

  function Apply(s: State, step: Step): State
    requires Enabled(s, step)
  {
    match step
    case Begin(f, id, user, purpose, hash, ttl) =>
      s.(issuing := s.issuing[f := Issuing(id, user, purpose, hash, ttl, s.clock, OpenIn(s.tokens, user, purpose))],
         used := s.used + {id}, hashes := s.hashes + {hash})
    case Commit(f) =>
      s.(tokens := Committed(s.tokens, s.issuing[f]), issuing := s.issuing - {f},
         born := s.born[s.issuing[f].id := s.births], births := s.births + 1)
    case Abort(f) => s.(issuing := s.issuing - {f})
    case Verify(id, purpose, hash) =>
      s.(tokens := Guessed(s.tokens, id, purpose, hash, MAX_ATTEMPTS, s.clock),
         guesses := if CanGuess(s.tokens, id, purpose, s.clock)
                    then s.guesses[id := Count(s.guesses, id) + 1] else s.guesses,
         wins := if Verdict(s.tokens, id, purpose, hash, s.clock).Matched?
                 then s.wins[id := Count(s.wins, id) + 1] else s.wins)
    case Consume(hash, purpose) =>
      s.(tokens := LinkSpent(s.tokens, hash, purpose, s.clock),
         wins := s.wins + map id | id in s.tokens && IsLink(s.tokens, id, hash, purpose, s.clock)
                          :: Count(s.wins, id) + 1)
    case Prune(gone, _) => s.(tokens := s.tokens - gone)
    case Tick(d) => s.(clock := s.clock + d)
  }

  datatype Run = Run(states: seq<State>, steps: seq<Step>)

  ghost predicate IsRun(r: Run) {
    && |r.states| == |r.steps| + 1
    && r.states[0] == Init()
    && forall i :: 0 <= i < |r.steps| ==>
         Enabled(r.states[i], r.steps[i]) && r.states[i + 1] == Apply(r.states[i], r.steps[i])
  }

  // ----------------------------------------------------------------- invariant

  /** What the table and the history say about one token agree. */
  predicate TokenOk(s: State, id: Id)
    requires id in s.tokens
  {
    var t := s.tokens[id];
    && id in s.used && t.hash in s.hashes
    && Count(s.guesses, id) == t.attempts <= MAX_ATTEMPTS
    && (Open(t) ==> t.attempts < MAX_ATTEMPTS && Count(s.wins, id) == 0)
    && Count(s.wins, id) <= 1
    && id in s.born && s.born[id] < s.births
  }

  ghost predicate HashesDiffer(s: State) {
    forall i, j :: i in s.tokens && j in s.tokens && s.tokens[i].hash == s.tokens[j].hash ==> i == j
  }

  /** A token on its way has never been seen, and its id and digest are its own. */
  ghost predicate PendingOk(s: State, f: Flow)
    requires f in s.issuing
  {
    var i := s.issuing[f];
    && i.id in s.used && i.hash in s.hashes && i.id !in s.tokens
    && Count(s.guesses, i.id) == 0 && Count(s.wins, i.id) == 0
    && (forall t :: t in s.tokens ==> s.tokens[t].hash != i.hash)
    && i.id !in i.seen
  }

  ghost predicate PendingDiffer(s: State) {
    forall f, g :: f in s.issuing && g in s.issuing && Overlap(s.issuing[f], s.issuing[g]) ==> f == g
  }

  predicate Overlap(i: Issuing, j: Issuing) { i.id == j.id || i.hash == j.hash }

  ghost predicate HistoryOk(s: State) {
    && (forall id :: Count(s.guesses, id) <= MAX_ATTEMPTS && Count(s.wins, id) <= 1)
    && (forall id :: id !in s.used ==> Count(s.guesses, id) == 0 && Count(s.wins, id) == 0)
  }

  ghost predicate Inv(s: State) {
    && (forall id :: id in s.tokens ==> TokenOk(s, id))
    && (forall f :: f in s.issuing ==> PendingOk(s, f))
    && PendingDiffer(s) && HashesDiffer(s) && HistoryOk(s)
  }

  lemma StepKeepsInv(s: State, step: Step)
    requires Inv(s) && Enabled(s, step)
    ensures Inv(Apply(s, step))
  {
    match step
    case Begin(_, _, _, _, _, _) => BeginKeepsInv(s, step);
    case Commit(_) => CommitKeepsInv(s, step);
    case Verify(_, _, _) => VerifyKeepsInv(s, step);
    case Consume(_, _) => ConsumeKeepsInv(s, step);
    case _ => OtherKeepsInv(s, step);
  }

  lemma OtherKeepsInv(s: State, step: Step)
    requires step.Abort? || step.Prune? || step.Tick?
    requires Inv(s) && Enabled(s, step)
    ensures Inv(Apply(s, step))
  {
    var s' := Apply(s, step);
    forall id | id in s'.tokens ensures TokenOk(s', id) { assert TokenOk(s, id); }
    forall f | f in s'.issuing ensures PendingOk(s', f) { assert PendingOk(s, f); }
  }

  lemma BeginKeepsInv(s: State, step: Step)
    requires step.Begin? && Inv(s) && Enabled(s, step)
    ensures Inv(Apply(s, step))
  {
    var s' := Apply(s, step);
    forall id | id in s'.tokens ensures TokenOk(s', id) && id != step.id && s.tokens[id].hash != step.hash {
      assert TokenOk(s, id);
    }
    forall f | f in s'.issuing
      ensures PendingOk(s', f)
      ensures f in s.issuing ==> !Overlap(s.issuing[f], s'.issuing[step.flow]) || f == step.flow
    {
      if f in s.issuing { assert PendingOk(s, f); }
    }
  }

  lemma CommitKeepsTokens(s: State, step: Step)
    requires step.Commit? && Inv(s) && Enabled(s, step)
    ensures forall id :: id in Apply(s, step).tokens ==> TokenOk(Apply(s, step), id)
    ensures HashesDiffer(Apply(s, step))
  {
    var s' := Apply(s, step);
    assert PendingOk(s, step.flow);
    forall id | id in s'.tokens ensures TokenOk(s', id) {
      if id != s.issuing[step.flow].id { assert TokenOk(s, id); }
    }
  }

  lemma CommitKeepsInv(s: State, step: Step)
    requires step.Commit? && Inv(s) && Enabled(s, step)
    ensures Inv(Apply(s, step))
  {
    var s' := Apply(s, step);
    CommitKeepsTokens(s, step);
    var mine := s.issuing[step.flow];
    forall f | f in s'.issuing ensures PendingOk(s', f) {
      assert PendingOk(s, f) && !Overlap(s.issuing[f], mine);
    }
  }

  lemma VerifyKeepsToken(s: State, step: Step, id: Id)
    requires step.Verify? && id in s.tokens && TokenOk(s, id)
    ensures id in Apply(s, step).tokens && TokenOk(Apply(s, step), id)
  {
  }

  lemma VerifyKeepsInv(s: State, step: Step)
    requires step.Verify? && Inv(s) && Enabled(s, step)
    ensures Inv(Apply(s, step))
  {
    var s' := Apply(s, step);
    forall id | id in s'.tokens ensures TokenOk(s', id) { VerifyKeepsToken(s, step, id); }
    forall f | f in s'.issuing ensures PendingOk(s', f) { assert PendingOk(s, f); }
    forall id ensures Count(s'.guesses, id) <= MAX_ATTEMPTS && Count(s'.wins, id) <= 1 {
      if id in s.tokens { VerifyKeepsToken(s, step, id); } else { assert Count(s.guesses, id) <= MAX_ATTEMPTS; }
    }
  }

  /** A consumed link wins once, and nothing else does. */
  lemma ConsumeCounts(s: State, step: Step, id: Id)
    requires step.Consume?
    ensures Count(Apply(s, step).wins, id)
            == Count(s.wins, id) + if IsLink(s.tokens, id, step.hash, step.purpose, s.clock) then 1 else 0
  {
  }

  lemma ConsumeKeepsToken(s: State, step: Step, id: Id)
    requires step.Consume? && id in s.tokens && TokenOk(s, id)
    ensures id in Apply(s, step).tokens && TokenOk(Apply(s, step), id)
    ensures Count(Apply(s, step).wins, id) <= 1
  {
    ConsumeCounts(s, step, id);
  }

  lemma ConsumeKeepsInv(s: State, step: Step)
    requires step.Consume? && Inv(s) && Enabled(s, step)
    ensures Inv(Apply(s, step))
  {
    var s' := Apply(s, step);
    forall id | id in s'.tokens ensures TokenOk(s', id) { ConsumeKeepsToken(s, step, id); }
    forall f | f in s'.issuing ensures PendingOk(s', f) {
      assert PendingOk(s, f);
      ConsumeCounts(s, step, s.issuing[f].id);
    }
    forall id ensures Count(s'.wins, id) <= 1 && (id !in s.used ==> Count(s'.wins, id) == 0) {
      if id in s.tokens { ConsumeKeepsToken(s, step, id); } else { ConsumeCounts(s, step, id); }
    }
  }

  lemma {:induction false} RunKeepsInv(r: Run, n: nat)
    requires IsRun(r) && n < |r.states|
    ensures Inv(r.states[n])
  {
    if n > 0 {
      RunKeepsInv(r, n - 1);
      StepKeepsInv(r.states[n - 1], r.steps[n - 1]);
    }
  }

  // ------------------------------------------------------------- main results

  /** At every moment of every run, however issues interleave: an open token has
    * attempts left, and over its whole life a token is guessed at five times at most
    * and accepted once at most, pruned or not. */
  lemma TokensAreSafe(r: Run, n: nat)
    requires IsRun(r) && n < |r.states|
    ensures forall id :: id in r.states[n].tokens && Open(r.states[n].tokens[id]) ==>
              r.states[n].tokens[id].attempts < MAX_ATTEMPTS
    ensures forall id :: Count(r.states[n].guesses, id) <= MAX_ATTEMPTS && Count(r.states[n].wins, id) <= 1
  {
    RunKeepsInv(r, n);
    assert forall id :: id in r.states[n].tokens ==> TokenOk(r.states[n], id);
  }

  /** No issue under way is about to bring this id, or this digest. */
  ghost predicate NotComing(s: State, id: Id) { id in s.used && forall f :: f in s.issuing ==> s.issuing[f].id != id }

  ghost predicate Settled(s: State, hash: Hash) {
    hash in s.hashes && forall f :: f in s.issuing ==> s.issuing[f].hash != hash
  }

  lemma StepKeepsConsumed(s: State, step: Step, id: Id)
    requires Enabled(s, step) && NotComing(s, id) && (id in s.tokens ==> !Open(s.tokens[id]))
    ensures id in Apply(s, step).tokens ==> id in s.tokens && Apply(s, step).tokens[id] == s.tokens[id]
    ensures Count(Apply(s, step).wins, id) == Count(s.wins, id)
    ensures Count(Apply(s, step).guesses, id) == Count(s.guesses, id)
    ensures NotComing(Apply(s, step), id)
  {
    var s' := Apply(s, step);
    forall f | f in s'.issuing ensures s'.issuing[f].id != id { assert f in s.issuing ==> s.issuing[f].id != id; }
  }

  /** Spent is for ever, even across pruning. */
  lemma {:induction false} ConsumedStaysConsumed(r: Run, i: nat, j: nat, id: Id)
    requires IsRun(r) && i <= j < |r.states|
    requires id in r.states[i].tokens && !Open(r.states[i].tokens[id])
    ensures id in r.states[j].tokens ==> r.states[j].tokens[id] == r.states[i].tokens[id]
    ensures Count(r.states[j].wins, id) == Count(r.states[i].wins, id)
    ensures Count(r.states[j].guesses, id) == Count(r.states[i].guesses, id)
    ensures NotComing(r.states[j], id)
    decreases j
  {
    if i < j {
      ConsumedStaysConsumed(r, i, j - 1, id);
      StepKeepsConsumed(r.states[j - 1], r.steps[j - 1], id);
    } else {
      RunKeepsInv(r, i);
      PresentIsNotComing(r.states[i], id);
    }
  }

  lemma PresentIsNotComing(s: State, id: Id)
    requires Inv(s) && id in s.tokens
    ensures NotComing(s, id) && Settled(s, s.tokens[id].hash)
  {
    assert TokenOk(s, id);
    forall f | f in s.issuing ensures s.issuing[f].id != id && s.issuing[f].hash != s.tokens[id].hash {
      assert PendingOk(s, f);
    }
  }

  /** Only `id` may carry this digest, and only for `user`. */
  ghost predicate OnlyRow(s: State, hash: Hash, id: Id, user: User) {
    forall t :: t in s.tokens && s.tokens[t].hash == hash ==> t == id && s.tokens[t].user == user
  }

  lemma StepKeepsRow(s: State, step: Step, hash: Hash, id: Id, user: User)
    requires Enabled(s, step) && Settled(s, hash) && OnlyRow(s, hash, id, user)
    ensures Settled(Apply(s, step), hash) && OnlyRow(Apply(s, step), hash, id, user)
  {
    var s' := Apply(s, step);
    forall f | f in s'.issuing ensures s'.issuing[f].hash != hash {
      assert f in s.issuing ==> s.issuing[f].hash != hash;
    }
    forall t | t in s'.tokens && s'.tokens[t].hash == hash ensures t in s.tokens && s.tokens[t].hash == hash {}
  }

  lemma {:induction false} DigestStays(r: Run, i: nat, j: nat, id: Id, t: Token)
    requires IsRun(r) && i <= j < |r.states| && id in r.states[i].tokens && r.states[i].tokens[id] == t
    ensures Settled(r.states[j], t.hash) && OnlyRow(r.states[j], t.hash, id, t.user)
    decreases j
  {
    if i < j {
      DigestStays(r, i, j - 1, id, t);
      StepKeepsRow(r.states[j - 1], r.steps[j - 1], t.hash, id, t.user);
    } else {
      RunKeepsInv(r, i);
      PresentIsNotComing(r.states[i], id);
    }
  }

  /** The account a link was peeked for is the account that spending it acts on. */
  lemma LinkKeepsItsUser(r: Run, i: nat, j: nat, id: Id, id': Id)
    requires IsRun(r) && i <= j < |r.states|
    requires id in r.states[i].tokens && id' in r.states[j].tokens
    requires r.states[i].tokens[id].hash == r.states[j].tokens[id'].hash
    ensures id == id' && r.states[i].tokens[id].user == r.states[j].tokens[id'].user
  {
    DigestStays(r, i, j, id, r.states[i].tokens[id]);
  }

  // ------------------------------------------------- one open token, and when

  /** The issues of one user and purpose that are under way. */
  ghost function IssuesIn(s: State, user: User, purpose: Purpose): set<Flow> {
    set f | f in s.issuing && s.issuing[f].user == user && s.issuing[f].purpose == purpose
  }

  /** The issues under way that did not see `id`, and so will leave it open. */
  ghost function Blind(s: State, user: User, purpose: Purpose, id: Id): set<Flow> {
    set f | f in IssuesIn(s, user, purpose) && id !in s.issuing[f].seen
  }

  /** The open tokens committed no earlier than `id`. */
  ghost function Since(s: State, user: User, purpose: Purpose, id: Id): set<Id> {
    set t | t in OpenIn(s.tokens, user, purpose) && Count(s.born, t) >= Count(s.born, id)
  }

  /** Whatever is open beside `id` since it was committed, or still to come without
    * seeing it, was under way at that moment: so it is at most `k` with `id` itself. */
  ghost predicate SlotOk(s: State, user: User, purpose: Purpose, k: nat) {
    forall id :: id in OpenIn(s.tokens, user, purpose) ==> Crowd(s, user, purpose, id) <= k
  }

  ghost function Crowd(s: State, user: User, purpose: Purpose, id: Id): nat {
    |Since(s, user, purpose, id)| + |Blind(s, user, purpose, id)|
  }

  /** No new open token, no new blind issue: no bigger crowd. */
  lemma CrowdShrinks(s: State, s': State, user: User, purpose: Purpose, id: Id)
    requires Since(s', user, purpose, id) <= Since(s, user, purpose, id)
    requires Blind(s', user, purpose, id) <= Blind(s, user, purpose, id)
    ensures Crowd(s', user, purpose, id) <= Crowd(s, user, purpose, id)
  {
    SubsetSize(Since(s', user, purpose, id), Since(s, user, purpose, id));
    SubsetSize(Blind(s', user, purpose, id), Blind(s, user, purpose, id));
  }

  lemma BeginKeepsSlot(s: State, step: Step, user: User, purpose: Purpose, k: nat)
    requires step.Begin? && Enabled(s, step) && SlotOk(s, user, purpose, k)
    ensures SlotOk(Apply(s, step), user, purpose, k)
  {
    var s' := Apply(s, step);
    forall id | id in OpenIn(s'.tokens, user, purpose) ensures Crowd(s', user, purpose, id) <= k {
      assert Blind(s', user, purpose, id) <= Blind(s, user, purpose, id);
      CrowdShrinks(s, s', user, purpose, id);
    }
  }

  lemma QuietKeepsSlot(s: State, step: Step, user: User, purpose: Purpose, k: nat)
    requires !step.Begin? && !step.Commit? && Enabled(s, step) && SlotOk(s, user, purpose, k)
    ensures SlotOk(Apply(s, step), user, purpose, k)
  {
    var s' := Apply(s, step);
    forall id | id in OpenIn(s'.tokens, user, purpose) ensures Crowd(s', user, purpose, id) <= k {
      assert id in OpenIn(s.tokens, user, purpose);
      forall t | t in Since(s', user, purpose, id) ensures t in Since(s, user, purpose, id) {}
      CrowdShrinks(s, s', user, purpose, id);
    }
  }

  lemma CommitSince(s: State, step: Step, user: User, purpose: Purpose, id: Id)
    requires step.Commit? && Inv(s) && Enabled(s, step)
    requires id in OpenIn(s.tokens, user, purpose) && id != s.issuing[step.flow].id
    ensures Since(Apply(s, step), user, purpose, id) <= Since(s, user, purpose, id) + {s.issuing[step.flow].id}
    ensures !(s.issuing[step.flow].user == user && s.issuing[step.flow].purpose == purpose) ==>
              Since(Apply(s, step), user, purpose, id) <= Since(s, user, purpose, id)
  {
  }

  lemma CommitBlind(s: State, step: Step, user: User, purpose: Purpose, id: Id)
    requires step.Commit? && Inv(s) && Enabled(s, step)
    requires id in OpenIn(Apply(s, step).tokens, user, purpose) && id != s.issuing[step.flow].id
    ensures id in OpenIn(s.tokens, user, purpose) && id !in s.issuing[step.flow].seen
    ensures Blind(Apply(s, step), user, purpose, id) == Blind(s, user, purpose, id) - {step.flow}
  {
  }

  /** Committing turns a blind issue into one more token, so the crowd stays. */
  lemma CommitKeepsCrowd(s: State, step: Step, user: User, purpose: Purpose, id: Id)
    requires step.Commit? && Inv(s) && Enabled(s, step)
    requires id in OpenIn(Apply(s, step).tokens, user, purpose) && id != s.issuing[step.flow].id
    ensures id in OpenIn(s.tokens, user, purpose)
    ensures Crowd(Apply(s, step), user, purpose, id) <= Crowd(s, user, purpose, id)
  {
    CommitBlind(s, step, user, purpose, id);
    CommitSince(s, step, user, purpose, id);
    var since, since' := Since(s, user, purpose, id), Since(Apply(s, step), user, purpose, id);
    if step.flow in IssuesIn(s, user, purpose) {
      assert step.flow in Blind(s, user, purpose, id);
      SubsetSize(since', since + {s.issuing[step.flow].id});
    } else {
      CrowdShrinks(s, Apply(s, step), user, purpose, id);
    }
  }

  /** The newcomer's crowd is itself and the issues still under way. */
  lemma NewcomerCrowd(s: State, step: Step, user: User, purpose: Purpose)
    requires step.Commit? && Inv(s) && Enabled(s, step)
    requires s.issuing[step.flow].id in OpenIn(Apply(s, step).tokens, user, purpose)
    ensures Crowd(Apply(s, step), user, purpose, s.issuing[step.flow].id) <= |IssuesIn(s, user, purpose)|
  {
    var s', mine := Apply(s, step), s.issuing[step.flow];
    assert PendingOk(s, step.flow);
    assert forall t :: t in s.tokens ==> TokenOk(s, t) && s.born[t] < s.births;
    forall t | t in Since(s', user, purpose, mine.id) ensures t == mine.id {}
    SubsetSize(Since(s', user, purpose, mine.id), {mine.id});
    assert step.flow in IssuesIn(s, user, purpose);
    SubsetSize(Blind(s', user, purpose, mine.id), IssuesIn(s, user, purpose) - {step.flow});
  }

  lemma StepKeepsSlot(s: State, step: Step, user: User, purpose: Purpose, k: nat)
    requires Inv(s) && Enabled(s, step) && SlotOk(s, user, purpose, k) && |IssuesIn(s, user, purpose)| <= k
    ensures SlotOk(Apply(s, step), user, purpose, k)
  {
    if step.Begin? {
      BeginKeepsSlot(s, step, user, purpose, k);
    } else if step.Commit? {
      forall id | id in OpenIn(Apply(s, step).tokens, user, purpose)
        ensures Crowd(Apply(s, step), user, purpose, id) <= k
      {
        if id == s.issuing[step.flow].id { NewcomerCrowd(s, step, user, purpose); }
        else { CommitKeepsCrowd(s, step, user, purpose, id); }
      }
    } else {
      QuietKeepsSlot(s, step, user, purpose, k);
    }
  }

  ghost predicate InFlight(r: Run, user: User, purpose: Purpose, k: nat) {
    forall i :: 0 <= i < |r.states| ==> |IssuesIn(r.states[i], user, purpose)| <= k
  }

  lemma {:induction false} RunKeepsSlot(r: Run, n: nat, user: User, purpose: Purpose, k: nat)
    requires IsRun(r) && n < |r.states| && InFlight(r, user, purpose, k)
    ensures SlotOk(r.states[n], user, purpose, k)
  {
    if n > 0 {
      RunKeepsSlot(r, n - 1, user, purpose, k);
      RunKeepsInv(r, n - 1);
      StepKeepsSlot(r.states[n - 1], r.steps[n - 1], user, purpose, k);
    }
  }

  lemma {:induction false} Oldest(s: State, ids: set<Id>) returns (first: Id)
    requires ids != {}
    ensures first in ids && forall id :: id in ids ==> Count(s.born, first) <= Count(s.born, id)
    decreases |ids|
  {
    first :| first in ids;
    if ids != {first} {
      var next := Oldest(s, ids - {first});
      if Count(s.born, next) < Count(s.born, first) { first := next; }
    }
  }

  /** With at most `k` issues of one user and purpose under way at any time, at most
    * `k` of their tokens are ever open at once. */
  lemma OpenTokensBounded(r: Run, n: nat, user: User, purpose: Purpose, k: nat)
    requires IsRun(r) && n < |r.states| && InFlight(r, user, purpose, k)
    ensures |OpenIn(r.states[n].tokens, user, purpose)| <= k
  {
    var s := r.states[n];
    var open := OpenIn(s.tokens, user, purpose);
    RunKeepsSlot(r, n, user, purpose, k);
    if open != {} {
      var first := Oldest(s, open);
      assert Since(s, user, purpose, first) == open;
      assert Crowd(s, user, purpose, first) <= k;
    }
  }

  // ------------------------------------------------------- and it is reached

  lemma Extended(r: Run, step: Step) returns (r': Run)
    requires IsRun(r) && Enabled(r.states[|r.steps|], step)
    ensures IsRun(r') && r'.steps == r.steps + [step]
    ensures r'.states == r.states + [Apply(r.states[|r.steps|], step)]
  {
    r' := Run(r.states + [Apply(r.states[|r.steps|], step)], r.steps + [step]);
  }

  function End(r: Run): State
    requires |r.states| == |r.steps| + 1
  {
    r.states[|r.steps|]
  }

  /** Login codes are issued under a lock of the account, by a login, or again for
    * a challenge that is live: only such resends overlap. */
  ghost predicate AsLogins(r: Run, user: User, purpose: Purpose)
    requires |r.states| == |r.steps| + 1
  {
    forall i :: 0 <= i < |r.steps| ==> AsLogin(r.states[i], r.steps[i], user, purpose)
  }

  ghost predicate AsLogin(s: State, step: Step, user: User, purpose: Purpose) {
    step.Begin? ==> IssuesIn(s, user, purpose) == {} || LiveIn(s, user, purpose) != {}
  }

  ghost function LiveIn(s: State, user: User, purpose: Purpose): set<Id> {
    set id | id in OpenIn(s.tokens, user, purpose) && Live(s.tokens[id], s.clock)
  }

  /** Token 0 came first. Flows `1..k` began while it was live and saw it; the first
    * `done` of them have committed, and what those issued is live. */
  ghost predicate Staged(s: State, user: User, purpose: Purpose, done: nat, k: nat) {
    && s.clock == 0 && s.used == Below(k + 1) && s.hashes == Below(k + 1)
    && (forall f: Flow :: f in s.issuing <==> done < f <= k)
    && (forall f: Flow :: f in s.issuing ==> s.issuing[f] == Issuing(f, user, purpose, f, 1, 0, {0}))
    && (forall id: Id :: id in s.tokens <==> id <= done)
    && (forall id: Id :: id in s.tokens ==>
          s.tokens[id] == Token(user, purpose, id, 1, if id == 0 < done then Some(0) else None, 0))
  }

  /** With `k` issues after the first, at most this many are under way. */
  function Width(k: nat): nat { if k == 0 then 1 else k }

  lemma StagedIssues(s: State, user: User, purpose: Purpose, done: nat, k: nat)
    requires Staged(s, user, purpose, done, k)
    ensures |IssuesIn(s, user, purpose)| <= k
  {
    BelowSize(k + 1);
    SubsetSize(IssuesIn(s, user, purpose) + {0}, Below(k + 1));
  }

  lemma BeginStages(s: State, user: User, purpose: Purpose, k: nat)
    requires Staged(s, user, purpose, 0, k)
    ensures Enabled(s, Begin(k + 1, k + 1, user, purpose, k + 1, 1))
    ensures AsLogin(s, Begin(k + 1, k + 1, user, purpose, k + 1, 1), user, purpose)
    ensures Staged(Apply(s, Begin(k + 1, k + 1, user, purpose, k + 1, 1)), user, purpose, 0, k + 1)
  {
    assert OpenIn(s.tokens, user, purpose) == {0};
    assert 0 in LiveIn(s, user, purpose);
    assert Below(k + 2) == Below(k + 1) + {k + 1};
  }

  lemma CommitStages(s: State, user: User, purpose: Purpose, done: nat, k: nat)
    requires Staged(s, user, purpose, done, k) && done < k
    ensures Enabled(s, Commit(done + 1)) && Staged(Apply(s, Commit(done + 1)), user, purpose, done + 1, k)
  {
  }

  /** A run of logins and resends with at most `k` issues under way. */
  ghost predicate Narrow(r: Run, user: User, purpose: Purpose, k: nat) {
    IsRun(r) && InFlight(r, user, purpose, k) && AsLogins(r, user, purpose)
  }

  lemma OneStepMore(before: Run, step: Step, user: User, purpose: Purpose, j: nat, k: nat) returns (r: Run)
    requires Narrow(before, user, purpose, j) && j <= k && Enabled(End(before), step)
    requires AsLogin(End(before), step, user, purpose)
    requires |IssuesIn(Apply(End(before), step), user, purpose)| <= k
    ensures Narrow(r, user, purpose, k) && End(r) == Apply(End(before), step)
  {
    r := Extended(before, step);
    forall i | 0 <= i < |r.states| ensures |IssuesIn(r.states[i], user, purpose)| <= k {
      assert i < |before.states| ==> r.states[i] == before.states[i];
    }
    forall i | 0 <= i < |r.steps| ensures AsLogin(r.states[i], r.steps[i], user, purpose) {
      assert r.states[i] == before.states[i];
      assert i < |before.steps| ==> AsLogin(before.states[i], before.steps[i], user, purpose);
    }
  }

  lemma NothingYet(user: User, purpose: Purpose) returns (r: Run)
    ensures Narrow(r, user, purpose, 0) && End(r) == Init()
  {
    r := Run([Init()], []);
    assert IssuesIn(Init(), user, purpose) == {};
  }

  lemma FirstLogin(user: User, purpose: Purpose) returns (r: Run)
    ensures Narrow(r, user, purpose, 1) && Staged(End(r), user, purpose, 0, 0)
  {
    r := NothingYet(user, purpose);
    var s := Apply(Init(), Begin(0, 0, user, purpose, 0, 1));
    SubsetSize(IssuesIn(s, user, purpose), {0});
    r := OneStepMore(r, Begin(0, 0, user, purpose, 0, 1), user, purpose, 0, 1);
    assert Below(1) == {0};
    StagedIssues(Apply(s, Commit(0)), user, purpose, 0, 0);
    r := OneStepMore(r, Commit(0), user, purpose, 1, 1);
  }

  /** A login, then `k` resends begin, and then the first `done` of them commit. */
  lemma {:induction false} Overlapping(user: User, purpose: Purpose, done: nat, k: nat) returns (r: Run)
    requires done <= k
    ensures Narrow(r, user, purpose, Width(k)) && Staged(End(r), user, purpose, done, k)
    decreases done + k
  {
    if done > 0 {
      r := Overlapping(user, purpose, done - 1, k);
      CommitStages(End(r), user, purpose, done - 1, k);
      StagedIssues(Apply(End(r), Commit(done)), user, purpose, done, k);
      r := OneStepMore(r, Commit(done), user, purpose, k, k);
    } else if k > 0 {
      r := Overlapping(user, purpose, 0, k - 1);
      BeginStages(End(r), user, purpose, k - 1);
      StagedIssues(Apply(End(r), Begin(k, k, user, purpose, k, 1)), user, purpose, 0, k);
      r := OneStepMore(r, Begin(k, k, user, purpose, k, 1), user, purpose, Width(k - 1), k);
    } else {
      r := FirstLogin(user, purpose);
    }
  }

  /** The bound is reached, with every one of the tokens live, and by resends of
    * a live challenge alone. */
  lemma OverlappingIssuesAllLive(user: User, purpose: Purpose, k: nat) returns (r: Run)
    ensures IsRun(r) && InFlight(r, user, purpose, k) && AsLogins(r, user, purpose)
    ensures |OpenIn(End(r).tokens, user, purpose)| == k
    ensures forall id :: id in OpenIn(End(r).tokens, user, purpose) ==> Live(End(r).tokens[id], End(r).clock)
  {
    if k == 0 {
      r := NothingYet(user, purpose);
      assert OpenIn(End(r).tokens, user, purpose) == {};
    } else {
      r := Overlapping(user, purpose, k, k);
      StagedLive(End(r), user, purpose, k);
    }
  }

  lemma StagedLive(s: State, user: User, purpose: Purpose, k: nat)
    requires Staged(s, user, purpose, k, k) && k > 0
    ensures |OpenIn(s.tokens, user, purpose)| == k
    ensures forall id :: id in OpenIn(s.tokens, user, purpose) ==> Live(s.tokens[id], s.clock)
  {
    var open := OpenIn(s.tokens, user, purpose);
    forall id: Id ensures id in open <==> 0 < id <= k {}
    assert open == Below(k + 1) - {0};
    BelowSize(k + 1);
  }

  /** In every run with at most `k` issues under way, at most `most` tokens are open. */
  ghost predicate NeverMore(user: User, purpose: Purpose, k: nat, most: nat) {
    forall r, n :: IsRun(r) && InFlight(r, user, purpose, k) && 0 <= n < |r.states| ==>
      |OpenIn(r.states[n].tokens, user, purpose)| <= most
  }

  /** The same of the runs in which only resends overlap. */
  ghost predicate NeverMoreByResends(user: User, purpose: Purpose, k: nat, most: nat) {
    forall r, n :: Narrow(r, user, purpose, k) && 0 <= n < |r.states| ==>
      |OpenIn(r.states[n].tokens, user, purpose)| <= most
  }

  /** The promise of one open token, and exactly when it is kept: overlapping issues
    * leave up to as many tokens as overlap, even when they are all resends. */
  lemma OpenTokensIff(user: User, purpose: Purpose, k: nat, most: nat)
    ensures NeverMore(user, purpose, k, most) <==> k <= most
    ensures NeverMoreByResends(user, purpose, k, most) <==> k <= most
    ensures NeverMore(user, purpose, k, 1) <==> k <= 1
  {
    NeverMoreIff(user, purpose, k, most);
    NeverMoreIff(user, purpose, k, 1);
  }

  lemma NeverMoreIff(user: User, purpose: Purpose, k: nat, most: nat)
    ensures NeverMore(user, purpose, k, most) <==> k <= most
    ensures NeverMoreByResends(user, purpose, k, most) <==> k <= most
  {
    if k <= most {
      forall r, n | IsRun(r) && InFlight(r, user, purpose, k) && 0 <= n < |r.states|
        ensures |OpenIn(r.states[n].tokens, user, purpose)| <= most
      {
        OpenTokensBounded(r, n, user, purpose, k);
      }
    } else {
      var r := OverlappingIssuesAllLive(user, purpose, k);
      assert |OpenIn(r.states[|r.steps|].tokens, user, purpose)| > most;
    }
  }

  ghost function Total(m: map<Id, nat>, ids: set<Id>): nat
    decreases |ids|
  {
    if ids == {} then 0 else Count(m, Pick(ids)) + Total(m, ids - {Pick(ids)})
  }

  ghost function Pick(ids: set<Id>): (id: Id)
    requires ids != {}
    ensures id in ids
  {
    var id :| id in ids;
    id
  }

  lemma {:induction false} TotalBound(m: map<Id, nat>, ids: set<Id>, each: nat)
    requires forall id :: id in ids ==> Count(m, id) <= each
    ensures Total(m, ids) <= each * |ids|
    decreases |ids|
  {
    if ids != {} {
      TotalBound(m, ids - {Pick(ids)}, each);
      assert each * |ids| == each * |ids - {Pick(ids)}| + each;
    }
  }

  /** Somebody guessing at every token a user has open at one moment gets at most
    * five guesses for each issue that may overlap, ever. */
  lemma GuessesPerSlot(r: Run, n: nat, m: nat, user: User, purpose: Purpose, k: nat)
    requires IsRun(r) && n < |r.states| && m < |r.states| && InFlight(r, user, purpose, k)
    ensures Total(r.states[m].guesses, OpenIn(r.states[n].tokens, user, purpose)) <= MAX_ATTEMPTS * k
  {
    var open := OpenIn(r.states[n].tokens, user, purpose);
    OpenTokensBounded(r, n, user, purpose, k);
    RunKeepsInv(r, m);
    TotalBound(r.states[m].guesses, open, MAX_ATTEMPTS);
    assert MAX_ATTEMPTS * |open| <= MAX_ATTEMPTS * k;
  }

  /** An issue that nothing overlaps is what the statements do on their own. */
  lemma AloneIsIssued(s: State, step: Step)
    requires step.Begin? && Enabled(s, step)
    ensures Enabled(Apply(s, step), Commit(step.flow))
    ensures Apply(Apply(s, step), Commit(step.flow)).tokens
            == Issued(s.tokens, step.id, step.user, step.purpose, step.hash, step.ttl, s.clock)
  {
  }

  // ------------------------------------------------------------------ the table

  class TokenTable {
    var tokens: Table

    constructor ()
      ensures tokens == map[]
    {
      tokens := map[];
    }

    method Issue(id: Id, user: User, purpose: Purpose, hash: Hash, ttl: nat, now: int)
      requires id !in tokens
      modifies this
      ensures tokens == Issued(old(tokens), id, user, purpose, hash, ttl, now)
    {
      ghost var open := OpenIn(tokens, user, purpose);
      var todo := tokens.Keys;
      while todo != {}
        invariant todo <= tokens.Keys == old(tokens).Keys
        invariant forall k :: k in tokens ==>
                    tokens[k] == if k in todo then old(tokens)[k] else Spent(old(tokens), open, now)[k]
        decreases todo
      {
        var k :| k in todo;
        if tokens[k].user == user && tokens[k].purpose == purpose && tokens[k].consumedAt.None? {
          tokens := tokens[k := tokens[k].(consumedAt := Some(now))];
        }
        todo := todo - {k};
      }
      assert tokens == Spent(old(tokens), open, now);
      tokens := tokens[id := Token(user, purpose, hash, now + ttl, None, 0)];
    }

    /** A match spends the token, and so does the last failure. */
    method VerifyCode(id: Id, purpose: Purpose, hash: Hash, maxAttempts: nat, now: int) returns (r: CodeOutcome)
      modifies this
      ensures tokens == Guessed(old(tokens), id, purpose, hash, maxAttempts, now)
      ensures r == Verdict(old(tokens), id, purpose, hash, now)
      ensures r == Gone <==>
                || id !in old(tokens) || old(tokens)[id].purpose != purpose
                || old(tokens)[id].consumedAt != None || old(tokens)[id].expiresAt <= now
      ensures r != Gone ==> r == if old(tokens)[id].hash == hash then Matched(old(tokens)[id].user) else Wrong
      ensures r != Gone ==> tokens[id].attempts == old(tokens)[id].attempts + 1
      ensures r.Matched? ==> id in tokens && !Open(tokens[id])
    {
      if id !in tokens { return Gone; }
      var t := tokens[id];
      if t.purpose != purpose || t.consumedAt.Some? || t.expiresAt <= now { return Gone; }
      var last := t.hash == hash || t.attempts + 1 >= maxAttempts;
      tokens := tokens[id := t.(attempts := t.attempts + 1, consumedAt := if last then Some(now) else None)];
      r := if t.hash == hash then Matched(t.user) else Wrong;
    }

    /** The link's owner, the first time only: nothing live with that digest is
      * left behind. */
    method ConsumeLink(hash: Hash, purpose: Purpose, now: int) returns (r: Option<User>)
      modifies this
      ensures tokens == LinkSpent(old(tokens), hash, purpose, now)
      ensures r.None? <==> forall id :: id in old(tokens) ==> !IsLink(old(tokens), id, hash, purpose, now)
      ensures r.Some? ==> exists id :: IsLink(old(tokens), id, hash, purpose, now) && old(tokens)[id].user == r.value
      ensures forall id :: id in tokens ==> !IsLink(tokens, id, hash, purpose, now)
    {
      r := None;
      var todo := tokens.Keys;
      while todo != {}
        invariant todo <= tokens.Keys == old(tokens).Keys
        invariant forall k :: k in tokens ==>
                    tokens[k] == if k in todo then old(tokens)[k] else LinkSpent(old(tokens), hash, purpose, now)[k]
        invariant r.None? <==> forall k :: k in tokens && k !in todo ==> !IsLink(old(tokens), k, hash, purpose, now)
        invariant r.Some? ==> exists k :: IsLink(old(tokens), k, hash, purpose, now) && old(tokens)[k].user == r.value
        decreases todo
      {
        var k :| k in todo;
        var t := tokens[k];
        if t.hash == hash && t.purpose == purpose && t.consumedAt.None? && t.expiresAt > now {
          assert IsLink(old(tokens), k, hash, purpose, now);
          tokens := tokens[k := t.(consumedAt := Some(now))];
          r := Some(t.user);
        }
        todo := todo - {k};
      }
      assert tokens == LinkSpent(old(tokens), hash, purpose, now);
    }
  }
}
