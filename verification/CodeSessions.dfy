/** Sessions granted by an emailed code, and the password their login verified.
  *
  * The code is sent once the password has been verified, and entering it looks only at
  * the account's status. A password changed in between revokes the sessions there are,
  * and this one is not there yet. */
module CodeSessions {
  import opened Prelude
  import opened Passwords

  /** Some code for `user` is out, or has just been entered, that password `epoch` earned. */
  ghost predicate CodeOut(s: State, user: User, epoch: nat) {
    (exists c :: IsSent(s, c, user, epoch)) || (exists f :: IsEntered(s, f, user, epoch))
  }

  predicate IsSent(s: State, c: SessionId, user: User, epoch: nat) {
    c in s.challenges && s.challenges[c] == Challenge(user, epoch)
  }

  predicate IsEntered(s: State, f: Flow, user: User, epoch: nat) {
    f in s.flows && s.flows[f] == CodeMatched(user, epoch)
  }

  /** A login that has verified the password, or a registration, sends a code. */
  predicate Sends(s: State, step: Step, user: User, epoch: nat) {
    match step
    case Register(u, _, _) => u == user && u !in s.accounts && epoch == 0
    case LoginFinish(f, remembered, _) =>
      && !remembered && f in s.flows && s.flows[f].LoginVerified?
      && s.flows[f].user == user && s.flows[f].epoch == epoch && Revalidates(s, user, s.flows[f].hash)
    case _ => false
  }

  lemma SentStep(s: State, step: Step, c: SessionId, user: User, epoch: nat)
    requires Enabled(s, step) && IsSent(Apply(s, step), c, user, epoch)
    ensures IsSent(s, c, user, epoch) || Sends(s, step, user, epoch)
            || (step.CodeResend? && IsSent(s, step.first, user, epoch))
  {
  }

  lemma EnteredStep(s: State, step: Step, f: Flow, user: User, epoch: nat)
    requires Enabled(s, step) && IsEntered(Apply(s, step), f, user, epoch)
    ensures IsEntered(s, f, user, epoch) || (step.CodeVerify? && IsSent(s, step.challenge, user, epoch))
  {
  }

  lemma CodeStep(s: State, step: Step, user: User, epoch: nat)
    requires Enabled(s, step) && CodeOut(Apply(s, step), user, epoch)
    ensures CodeOut(s, user, epoch) || Sends(s, step, user, epoch)
  {
    var s' := Apply(s, step);
    if c :| IsSent(s', c, user, epoch) {
      SentStep(s, step, c, user, epoch);
    } else {
      var f :| IsEntered(s', f, user, epoch);
      EnteredStep(s, step, f, user, epoch);
    }
  }

  /** The step puts a new password in force. */
  predicate Renews(s: State, step: Step, user: User) {
    match step
    case ChangeCommit(f, _) =>
      f in s.flows && s.flows[f].ChangeReady? && s.flows[f].user == user && Revalidates(s, user, s.flows[f].hash)
    case ResetCommit(f) => f in s.flows && s.flows[f].ResetReady? && s.flows[f].user == user
    case _ => false
  }

  function Renewals(r: Run, user: User, i: nat, n: nat): nat
    requires i <= n <= |r.steps| <= |r.states|
  {
    if i == n then 0 else Renewals(r, user, i, n - 1) + if Renews(r.states[n - 1], r.steps[n - 1], user) then 1 else 0
  }

  lemma EpochStep(s: State, step: Step, user: User)
    requires Enabled(s, step) && user in s.accounts
    ensures user in Apply(s, step).accounts
    ensures Apply(s, step).accounts[user].epoch == s.accounts[user].epoch + if Renews(s, step, user) then 1 else 0
  {
  }

  lemma {:induction false} EpochCounts(r: Run, user: User, i: nat, n: nat)
    requires IsRun(r) && i <= n < |r.states| && user in r.states[i].accounts
    ensures user in r.states[n].accounts
    ensures r.states[n].accounts[user].epoch == r.states[i].accounts[user].epoch + Renewals(r, user, i, n)
    decreases n
  {
    if i < n {
      EpochCounts(r, user, i, n - 1);
      EpochStep(r.states[n - 1], r.steps[n - 1], user);
    }
  }

  /** When a code is sent, the password it was earned with is the one in force. */
  lemma SentForThisPassword(s: State, step: Step, user: User, epoch: nat)
    requires Inv(s) && Enabled(s, step) && Sends(s, step, user, epoch)
    ensures user in Apply(s, step).accounts && Apply(s, step).accounts[user].epoch == epoch
  {
    if step.LoginFinish? {
      var p := s.flows[step.flow];
      assert ReadOk(s, p) && Stored(s, user, p.hash);
    }
  }

  lemma SentBefore(r: Run, n: nat, user: User, epoch: nat) returns (i: nat)
    requires IsRun(r) && n < |r.states| && CodeOut(r.states[n], user, epoch)
    ensures i < n && Sends(r.states[i], r.steps[i], user, epoch)
    ensures forall m :: i < m <= n ==> CodeOut(r.states[m], user, epoch)
  {
    forall m | 0 <= m < n && CodeOut(r.states[m + 1], user, epoch)
      ensures CodeOut(r.states[m], user, epoch) || Sends(r.states[m], r.steps[m], user, epoch)
    {
      CodeStep(r.states[m], r.steps[m], user, epoch);
    }
    i := TracedBack(r.states, r.steps, n, s => CodeOut(s, user, epoch), (s, step) => Sends(s, step, user, epoch));
  }

  /** A session granted by a code at step `j` was earned by a login, or a registration,
    * that sent a code at some step `i`. It outlives the password verified then exactly
    * if a change or a reset took effect in between. */
  lemma CodeSessionOutlivesIff(r: Run, j: nat, g: Flow, id: SessionId) returns (i: nat)
    requires IsRun(r) && j < |r.steps| && r.steps[j] == CodeFinish(g, id) && id in r.states[j + 1].sessions
    ensures var x := r.states[j + 1].sessions[id];
      && i < j && Sends(r.states[i], r.steps[i], x.user, x.epoch) && x.live
      && x.user in r.states[j + 1].accounts && x.granted == r.states[j + 1].accounts[x.user].epoch
      && x.granted == x.epoch + Renewals(r, x.user, i + 1, j)
      && (x.granted != x.epoch <==> Renewals(r, x.user, i + 1, j) > 0)
  {
    var s := r.states[j];
    var p := s.flows[g];
    assert IsEntered(s, g, p.user, p.epoch);
    i := SentBefore(r, j, p.user, p.epoch);
    RunKeepsInv(r, i);
    SentForThisPassword(r.states[i], r.steps[i], p.user, p.epoch);
    EpochCounts(r, p.user, i + 1, j);
  }

  /** Logged in with the password, which is then reset: the code still works. */
  lemma ResetBeforeTheCode() returns (r: Run, id: SessionId)
    ensures IsRun(r) && id in End(r).sessions && End(r).sessions[id].live
    ensures End(r).sessions[id].user in End(r).accounts
    ensures End(r).sessions[id].epoch < End(r).accounts[End(r).sessions[id].user].epoch
  {
    r := CodeSentToZero();
    r := Extended(r, ResetPrepare(1, 0, 1));
    r := Extended(r, ResetCommit(1));
    r := Extended(r, CodeVerify(2, 1));
    assert End(r).accounts[0].epoch == 1 && End(r).accounts[0].active && End(r).flows[2] == CodeMatched(0, 0);
    r := Extended(r, CodeFinish(2, 5));
    id := 5;
  }

  lemma CodeSentToZero() returns (r: Run)
    ensures IsRun(r) && 0 in End(r).accounts && End(r).accounts[0].active && End(r).accounts[0].epoch == 0
    ensures 1 in End(r).challenges && End(r).challenges[1] == Challenge(0, 0)
    ensures End(r).flows.Keys == {0} && End(r).hashed == {0} && End(r).sessions == map[]
  {
    r := Extended(Run([Init()], []), Register(0, 0, 0));
    r := Extended(r, LoginBegin(0, 0));
    r := Extended(r, LoginFind(0));
    assert End(r).flows == map[0 := LoginRead(0, 0, 0)];
    r := Extended(r, LoginVerify(0, true));
    r := Extended(r, LoginFinish(0, false, 1));
  }
}
