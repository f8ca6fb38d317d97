/** Accounts, sessions and codes, told from what happened: for each of them exactly the
  * steps that move it, and what every session and every stored hash goes back to. */
module SignIns {
  import opened Prelude
  import opened Passwords

  // ------------------------------------------------------- what takes effect

  /** A login whose check holds when it finishes. */
  predicate GetsIn(s: State, step: Step, u: User) {
    && step.LoginFinish? && step.flow in s.flows && s.flows[step.flow].LoginVerified?
    && s.flows[step.flow].user == u && LetsIn(s, u, s.flows[step.flow].hash)
  }

  /** A change of the password whose check holds when it commits. */
  predicate Changes(s: State, step: Step, u: User) {
    && step.ChangeCommit? && step.flow in s.flows && s.flows[step.flow].ChangeReady?
    && s.flows[step.flow].user == u && LetsIn(s, u, s.flows[step.flow].hash)
  }

  predicate Resets(s: State, step: Step, u: User) {
    && step.ResetCommit? && step.flow in s.flows && s.flows[step.flow].ResetReady?
    && s.flows[step.flow].user == u && u in s.accounts
  }

  /** The hash that was verified is still there to be replaced. */
  predicate Upgrades(s: State, step: Step, u: User) {
    && step.UpgradeCommit? && step.flow in s.flows && s.flows[step.flow].UpgradeReady?
    && s.flows[step.flow].user == u && u in s.accounts && s.accounts[u].hash == Some(s.flows[step.flow].hash)
  }

  /** A code was entered for an account that is active. */
  predicate EntersCode(s: State, step: Step, u: User) {
    && step.CodeFinish? && step.flow in s.flows && s.flows[step.flow].CodeMatched?
    && s.flows[step.flow].user == u && u in s.accounts && s.accounts[u].active
  }

  // ------------------------------------------------------------ what moves what

  /** The steps of a login, up to the upgrade of its hash. */
  predicate InLogin(step: Step) {
    || step.LoginBegin? || step.LoginFind? || step.LoginClear? || step.LoginVerify? || step.LoginFinish?
    || step.Rehash? || step.UpgradeCommit?
  }

  predicate PasswordAfter(s: State, step: Step, t: State, u: User)
    requires u in s.accounts
  {
    var a, renewed := s.accounts[u], Changes(s, step, u) || Resets(s, step, u);
    && u in t.accounts && t.accounts[u].epoch == a.epoch + (if renewed then 1 else 0)
    && (renewed || Upgrades(s, step, u) ==> t.accounts[u].hash == Some(s.flows[step.flow].newHash))
    && (!renewed && !Upgrades(s, step, u) ==> t.accounts[u].hash == a.hash)
  }

  lemma PasswordInLogin(s: State, step: Step, u: User)
    requires Enabled(s, step) && InLogin(step) && u in s.accounts
    ensures PasswordAfter(s, step, Apply(s, step), u)
  {
  }

  lemma PasswordElsewhere(s: State, step: Step, u: User)
    requires Enabled(s, step) && !InLogin(step) && u in s.accounts
    ensures PasswordAfter(s, step, Apply(s, step), u)
  {
  }

  /** The stored hash is replaced by a change, a reset or an upgrade of this account that
    * takes effect, with the hash it brought, and by nothing else; only the first two are
    * a new password. */
  lemma PasswordMoves(s: State, step: Step, u: User)
    requires Enabled(s, step) && u in s.accounts
    ensures PasswordAfter(s, step, Apply(s, step), u)
  {
    if InLogin(step) { PasswordInLogin(s, step, u); } else { PasswordElsewhere(s, step, u); }
  }

  /** The step is one of this flow's. */
  predicate IsOf(step: Step, f: Flow) {
    match step
    case LoginBegin(g, _) => g == f
    case LoginFind(g) => g == f
    case LoginClear(g) => g == f
    case LoginVerify(g, _) => g == f
    case LoginFinish(g, _, _) => g == f
    case Rehash(g, _) => g == f
    case UpgradeCommit(g) => g == f
    case ChangeBegin(g, _) => g == f
    case ChangeVerify(g, _, _) => g == f
    case ChangeCommit(g, _) => g == f
    case ResetPrepare(g, _, _) => g == f
    case ResetCommit(g) => g == f
    case CodeVerify(g, _) => g == f
    case CodeFinish(g, _) => g == f
    case Abandon(g) => g == f
    case _ => false
  }

  lemma LedThere(s: State, step: Step, f: Flow, p: Progress)
    requires Enabled(s, step) && Leads(s, step, f, p)
    ensures IsAt(Apply(s, step), f, p) && IsOf(step, f)
  {
  }

  predicate Passes(s: State, t: State, f: Flow) {
    (f in t.flows <==> f in s.flows) && (f in s.flows && f in t.flows ==> t.flows[f] == s.flows[f])
  }

  lemma OtherLoginPasses(s: State, step: Step, f: Flow)
    requires Enabled(s, step) && InLogin(step) && !IsOf(step, f)
    ensures Passes(s, Apply(s, step), f)
  {
  }

  lemma OtherFlowPasses(s: State, step: Step, f: Flow)
    requires Enabled(s, step) && !InLogin(step) && !IsOf(step, f)
    ensures Passes(s, Apply(s, step), f)
  {
  }

  /** What becomes of a flow by a step of its own: it is gone, or was led on. */
  lemma OwnStep(s: State, step: Step, f: Flow, p: Progress)
    requires Enabled(s, step) && IsOf(step, f) && IsAt(Apply(s, step), f, p)
    ensures !IsAt(s, f, p)
  {
  }

  /** A flow stands where its own last step led it, and every step that can lead on does:
    * none stays behind, and no other flow's step moves it. */
  lemma FlowMoves(s: State, step: Step, f: Flow, p: Progress)
    requires Enabled(s, step)
    ensures IsAt(Apply(s, step), f, p) <==> Leads(s, step, f, p) || (IsAt(s, f, p) && !IsOf(step, f))
  {
    if Leads(s, step, f, p) { LedThere(s, step, f, p); }
    else if IsOf(step, f) {
      if IsAt(Apply(s, step), f, p) { OwnStep(s, step, f, p); StageStep(s, step, f, p); }
    } else {
      if InLogin(step) { OtherLoginPasses(s, step, f); } else { OtherFlowPasses(s, step, f); }
    }
  }

  /** Only time moves the clock. */
  lemma ClockMoves(s: State, step: Step)
    requires Enabled(s, step)
    ensures Apply(s, step).clock == s.clock + (if step.Tick? then step.seconds else 0)
  {
  }

  /** Only an administrator switches an account on or off. */
  lemma SwitchMoves(s: State, step: Step, u: User)
    requires Enabled(s, step) && u in s.accounts
    ensures u in Apply(s, step).accounts
    ensures Apply(s, step).accounts[u].active
            == if step.SetActive? && step.user == u then step.active else s.accounts[u].active
  {
  }

  /** An account comes into being by registration. */
  lemma AccountArrives(s: State, step: Step, u: User)
    requires Enabled(s, step) && u !in s.accounts
    ensures u in Apply(s, step).accounts <==> step.Register? && step.user == u
    ensures u in Apply(s, step).accounts ==>
              Apply(s, step).accounts[u] == Account(true, Some(step.newHash), 0, None, 0)
  {
  }

  /** The step is one of a flow that is about this account. */
  predicate ActsFor(s: State, f: Flow, u: User) { f in s.flows && s.flows[f].user == u }

  predicate CounterAfter(s: State, step: Step, t: State, u: User)
    requires u in s.accounts
  {
    var a := s.accounts[u];
    var restarts := GetsIn(s, step, u) || Changes(s, step, u) || Resets(s, step, u)
                    || (step.LoginClear? && ActsFor(s, step.flow, u));
    var wrong := step.LoginVerify? && !step.ok && ActsFor(s, step.flow, u);
    && u in t.accounts
    && t.accounts[u].failed == (if restarts then 0 else if wrong then a.failed + 1 else a.failed)
    && t.accounts[u].lockedUntil == if restarts then None
                                    else if wrong && a.failed >= 7 then Some(s.clock + 900) else a.lockedUntil
  }

  lemma CounterInLogin(s: State, step: Step, u: User)
    requires Enabled(s, step) && InLogin(step) && u in s.accounts
    ensures CounterAfter(s, step, Apply(s, step), u)
  {
  }

  lemma CounterElsewhere(s: State, step: Step, u: User)
    requires Enabled(s, step) && !InLogin(step) && u in s.accounts
    ensures CounterAfter(s, step, Apply(s, step), u)
  {
  }

  /** The counter and the lock start again with a login that gets in, a new password or a
    * lock cleared after it ran out; a wrong guess adds one, and the eighth and every one
    * after it locks for fifteen minutes from now; nothing else moves either. */
  lemma CounterMoves(s: State, step: Step, u: User)
    requires Enabled(s, step) && u in s.accounts
    ensures CounterAfter(s, step, Apply(s, step), u)
  {
    if InLogin(step) { CounterInLogin(s, step, u); } else { CounterElsewhere(s, step, u); }
  }

  predicate SessionAfter(s: State, step: Step, t: State, id: SessionId)
    requires id in s.sessions
  {
    var x := s.sessions[id];
    && id in t.sessions
    && t.sessions[id] == x.(live := x.live && step != Logout(id)
                                    && !Changes(s, step, x.user) && !Resets(s, step, x.user))
  }

  lemma SessionInLogin(s: State, step: Step, id: SessionId)
    requires Enabled(s, step) && InLogin(step) && id in s.sessions
    ensures SessionAfter(s, step, Apply(s, step), id)
  {
  }

  lemma SessionElsewhere(s: State, step: Step, id: SessionId)
    requires Enabled(s, step) && !InLogin(step) && id in s.sessions
    ensures SessionAfter(s, step, Apply(s, step), id)
  {
  }

  /** A session is ended by logging out of it, or by a new password of its user; nothing
    * else ends one, and no step changes anything else about it. */
  lemma SessionMoves(s: State, step: Step, id: SessionId)
    requires Enabled(s, step) && id in s.sessions
    ensures SessionAfter(s, step, Apply(s, step), id)
  {
    if InLogin(step) { SessionInLogin(s, step, id); } else { SessionElsewhere(s, step, id); }
  }

  /** A session begins with a login on a remembered browser, a change of the password, or
    * a code; it is live, and its flow's user's. */
  lemma SessionArrives(s: State, step: Step, id: SessionId)
    requires Enabled(s, step) && id !in s.sessions
    ensures id in Apply(s, step).sessions ==>
      var x := Apply(s, step).sessions[id];
      && x.live && (x.direct <==> !step.CodeFinish?)
      && (|| (GetsIn(s, step, x.user) && step.remembered && step.id == id)
          || (Changes(s, step, x.user) && step.session == id)
          || (EntersCode(s, step, x.user) && step.session == id))
    ensures forall u :: (GetsIn(s, step, u) && step.remembered && step.id == id)
                        || (Changes(s, step, u) && step.session == id)
                        || (EntersCode(s, step, u) && step.session == id) ==>
              id in Apply(s, step).sessions && Apply(s, step).sessions[id].user == u
  {
  }

  /** A login on a browser that is not remembered mints nothing and sends a code; one on a
    * remembered browser does the opposite; and one whose check fails does neither. */
  lemma LoginGives(s: State, f: Flow, remembered: bool, id: SessionId)
    requires Enabled(s, LoginFinish(f, remembered, id))
    ensures var p, t := s.flows[f], Apply(s, LoginFinish(f, remembered, id));
      if !LetsIn(s, p.user, p.hash) then
        t.sessions == s.sessions && t.challenges == s.challenges && t.accounts == s.accounts && f !in t.flows
      else if remembered then
        t.challenges == s.challenges
        && t.sessions == s.sessions[id := Session(p.user, p.epoch, s.accounts[p.user].epoch, true, true)]
      else
        t.sessions == s.sessions && t.challenges == s.challenges[id := Challenge(p.user, p.epoch)]
  {
  }

  /** A code may be entered until it is entered, lapses or is replaced by another sent for
    * it; and it stands for the same login throughout. */
  lemma ChallengeMoves(s: State, step: Step, c: SessionId)
    requires Enabled(s, step) && c in s.challenges
    ensures c in Apply(s, step).challenges <==>
              !(step == CodeExpire(c) || (step.CodeVerify? && step.challenge == c)
                || (step.CodeResend? && step.first == c && step.spent))
    ensures c in Apply(s, step).challenges ==> Apply(s, step).challenges[c] == s.challenges[c]
  {
  }

  /** A code is sent by a registration, a login on a browser not remembered, or again. */
  lemma ChallengeArrives(s: State, step: Step, c: SessionId)
    requires Enabled(s, step) && c !in s.challenges && c in Apply(s, step).challenges
    ensures var x := Apply(s, step).challenges[c];
      || (step.Register? && step.challenge == c && x == Challenge(step.user, 0))
      || (GetsIn(s, step, x.user) && !step.remembered && step.id == c && x.epoch == s.flows[step.flow].epoch)
      || (step.CodeResend? && step.challenge == c && x == s.challenges[step.first])
  {
  }

  // ---------------------------------------------------- what a session goes back to

  predicate HasSession(s: State, id: SessionId, user: User, direct: bool) {
    id in s.sessions && s.sessions[id].user == user && s.sessions[id].direct == direct
  }

  /** The step that can have begun such a session. */
  predicate BeginsSession(s: State, step: Step, id: SessionId, user: User, direct: bool) {
    if direct then (GetsIn(s, step, user) && step.remembered && step.id == id)
                   || (Changes(s, step, user) && step.session == id)
    else EntersCode(s, step, user) && step.session == id
  }

  lemma HasSessionStep(s: State, step: Step, id: SessionId, user: User, direct: bool)
    requires Enabled(s, step) && HasSession(Apply(s, step), id, user, direct)
    ensures HasSession(s, id, user, direct) || BeginsSession(s, step, id, user, direct)
  {
    if id in s.sessions { SessionMoves(s, step, id); } else { SessionArrives(s, step, id); }
  }

  lemma SessionBegan(r: Run, n: nat, id: SessionId) returns (i: nat)
    requires IsRun(r) && n < |r.states| && id in r.states[n].sessions
    ensures var x := r.states[n].sessions[id];
      i < n && BeginsSession(r.states[i], r.steps[i], id, x.user, x.direct)
  {
    var user, direct := r.states[n].sessions[id].user, r.states[n].sessions[id].direct;
    forall m | 0 <= m < n && HasSession(r.states[m + 1], id, user, direct)
      ensures HasSession(r.states[m], id, user, direct)
              || BeginsSession(r.states[m], r.steps[m], id, user, direct)
    {
      HasSessionStep(r.states[m], r.steps[m], id, user, direct);
    }
    i := TracedBack(r.states, r.steps, n, s => HasSession(s, id, user, direct),
                    (s, step) => BeginsSession(s, step, id, user, direct));
  }

  /** How the flow behind a session, or behind a new hash, proved itself. */
  datatype Proof =
    | ByPassword(flow: Flow, found: nat, verified: nat, hash: Hash)
    | ByInbox(flow: Flow, entered: nat, challenge: SessionId)

  /** The flow read this hash of this user's account, and then the password matched it. */
  ghost predicate ProvesPassword(r: Run, p: Proof, user: User, i: nat)
    requires |r.states| == |r.steps| + 1 && i < |r.steps|
  {
    && p.ByPassword? && p.found < p.verified < i
    && user in r.states[p.found].accounts && r.states[p.found].accounts[user].hash == Some(p.hash)
    && r.steps[p.found] in {LoginFind(p.flow), ChangeBegin(p.flow, user)}
    && (r.steps[p.verified] == LoginVerify(p.flow, true)
        || (r.steps[p.verified].ChangeVerify? && r.steps[p.verified].flow == p.flow && r.steps[p.verified].ok))
  }

  /** A code that was out for this user was entered. */
  ghost predicate ProvesInbox(r: Run, p: Proof, user: User, i: nat)
    requires |r.states| == |r.steps| + 1 && i < |r.steps|
  {
    && p.ByInbox? && p.entered < i && r.steps[p.entered] == CodeVerify(p.flow, p.challenge)
    && p.challenge in r.states[p.entered].challenges && r.states[p.entered].challenges[p.challenge].user == user
  }

  lemma ChangeProvesPassword(r: Run, i: nat, f: Flow, user: User) returns (p: Proof)
    requires IsRun(r) && i < |r.steps| && f in r.states[i].flows && r.states[i].flows[f].ChangeReady?
    requires r.states[i].flows[f].user == user
    ensures ProvesPassword(r, p, user, i) && p.hash == r.states[i].flows[f].hash && p.flow == f
    ensures r.steps[p.verified] == ChangeVerify(f, true, r.states[i].flows[f].newHash)
  {
    var x := r.states[i].flows[f];
    var j := CameThere(r, i, f, x);
    var k := CameThere(r, j, f, ChangeRead(user, x.hash, x.epoch));
    p := ByPassword(f, k, j, x.hash);
  }

  lemma LoginProvesPassword(r: Run, i: nat, f: Flow, user: User) returns (p: Proof)
    requires IsRun(r) && i < |r.steps| && f in r.states[i].flows && r.states[i].flows[f].LoginVerified?
    requires r.states[i].flows[f].user == user
    ensures ProvesPassword(r, p, user, i) && p.hash == r.states[i].flows[f].hash && p.flow == f
  {
    var x := r.states[i].flows[f];
    var j := CameThere(r, i, f, x);
    var b, k := FoundBefore(r, j, f, user, x.hash, x.epoch);
    p := ByPassword(f, k, j, x.hash);
  }

  /** There are two ways in, and no third. A direct session goes back to a login on a
    * remembered browser, or a change of the password, that had verified the password of
    * that very account, and the account still had that hash and was active and unlocked
    * when the session began. Any other goes back to a code for that account, entered
    * while the account was active. */
  lemma TwoWaysIn(r: Run, n: nat, id: SessionId) returns (i: nat, p: Proof)
    requires IsRun(r) && n < |r.states| && id in r.states[n].sessions
    ensures var x := r.states[n].sessions[id];
      && i < n && BeginsSession(r.states[i], r.steps[i], id, x.user, x.direct)
      && x.user in r.states[i].accounts && r.states[i].accounts[x.user].active
      && if x.direct then ProvesPassword(r, p, x.user, i) && LetsIn(r.states[i], x.user, p.hash)
         else ProvesInbox(r, p, x.user, i)
  {
    var x := r.states[n].sessions[id];
    i := SessionBegan(r, n, id);
    var f := r.steps[i].flow;
    if !x.direct {
      var y := r.states[i].flows[f];
      var j := CameThere(r, i, f, y);
      p := ByInbox(f, j, r.steps[j].challenge);
    } else if r.steps[i].ChangeCommit? {
      p := ChangeProvesPassword(r, i, f, x.user);
    } else {
      p := LoginProvesPassword(r, i, f, x.user);
    }
  }

  /** A stored hash moves only by somebody who proved to be its owner: a change that
    * verified the hash it replaces, an upgrade after a login that verified it, or a reset,
    * which is prepared for an account whose link was opened. */
  lemma HashMovedByItsOwner(r: Run, i: nat, u: User) returns (p: Proof, prepared: nat)
    requires IsRun(r) && i < |r.steps| && u in r.states[i].accounts
    requires u in r.states[i + 1].accounts && r.states[i + 1].accounts[u].hash != r.states[i].accounts[u].hash
    ensures var step, was := r.steps[i], r.states[i].accounts[u].hash;
      || (Changes(r.states[i], step, u) && ProvesPassword(r, p, u, i) && was == Some(p.hash))
      || (Upgrades(r.states[i], step, u) && ProvesPassword(r, p, u, i) && was == Some(p.hash))
      || (Resets(r.states[i], step, u) && prepared < i
          && r.steps[prepared] == ResetPrepare(step.flow, u, r.states[i].flows[step.flow].newHash))
  {
    var s, step := r.states[i], r.steps[i];
    PasswordMoves(s, step, u);
    prepared := 0;
    p := ByInbox(0, 0, 0);
    var x := s.flows[step.flow];
    if Changes(s, step, u) {
      p := ChangeProvesPassword(r, i, step.flow, u);
    } else if Upgrades(s, step, u) {
      var j := CameThere(r, i, step.flow, x);
      var k := CameThere(r, j, step.flow, LoginDone(u, x.hash, x.epoch));
      p := LoginProvesPassword(r, k, step.flow, u);
    } else {
      prepared := CameThere(r, i, step.flow, x);
    }
  }

  // ------------------------------------------------------ no more sessions than codes

  /** The codes sent in the first `n` steps. */
  function CodesSent(r: Run, n: nat): nat
    requires n <= |r.steps| <= |r.states|
  {
    if n == 0 then 0 else CodesSent(r, n - 1) + if SendsCode(r.states[n - 1], r.steps[n - 1]) then 1 else 0
  }

  predicate SendsCode(s: State, step: Step) {
    || step.Register? || step.CodeResend?
    || (step.LoginFinish? && !step.remembered && step.flow in s.flows && s.flows[step.flow].LoginVerified?
        && GetsIn(s, step, s.flows[step.flow].user))
  }

  ghost function Granted(s: State): set<SessionId> { set id | id in s.sessions && !s.sessions[id].direct }

  ghost function Entered(s: State): set<Flow> { set f | f in s.flows && s.flows[f].CodeMatched? }

  lemma OneMore<T>(a: set<T>, b: set<T>, x: T)
    requires b <= a + {x}
    ensures |b| <= |a| + 1
  {
    SubsetSize(b, a + {x});
  }

  lemma GrantedAfter(s: State, step: Step)
    requires Enabled(s, step)
    ensures |Granted(Apply(s, step))| <= |Granted(s)| + if step.CodeFinish? then 1 else 0
  {
    if step.CodeFinish? {
      OneMore(Granted(s), Granted(Apply(s, step)), step.session);
    } else {
      forall id | id in Granted(Apply(s, step)) ensures id in Granted(s) {
        if id in s.sessions { SessionMoves(s, step, id); } else { SessionArrives(s, step, id); }
      }
      SubsetSize(Granted(Apply(s, step)), Granted(s));
    }
  }

  lemma EnteredAfter(s: State, step: Step)
    requires Enabled(s, step)
    ensures |Entered(Apply(s, step))|
            <= |Entered(s)| + (if step.CodeVerify? then 1 else 0) - if step.CodeFinish? then 1 else 0
  {
    var t := Apply(s, step);
    if step.CodeVerify? {
      OneMore(Entered(s), Entered(t), step.flow);
    } else if step.CodeFinish? {
      assert step.flow in Entered(s) && Entered(t) == Entered(s) - {step.flow};
    } else {
      OnlyCodesEnter(s, step);
      SubsetSize(Entered(t), Entered(s));
    }
  }

  lemma OnlyCodesEnter(s: State, step: Step)
    requires Enabled(s, step) && !step.CodeVerify?
    ensures Entered(Apply(s, step)) <= Entered(s)
  {
    forall f | f in Entered(Apply(s, step)) ensures f in Entered(s) { StageStep(s, step, f, Apply(s, step).flows[f]); }
  }

  lemma CodesOutAfter(s: State, step: Step)
    requires Enabled(s, step)
    ensures |Apply(s, step).challenges.Keys|
            <= |s.challenges.Keys| + (if SendsCode(s, step) then 1 else 0) - if step.CodeVerify? then 1 else 0
  {
    var before, after := s.challenges.Keys, Apply(s, step).challenges.Keys;
    if step.CodeVerify? {
      assert before == after + {step.challenge} && step.challenge !in after;
    } else if SendsCode(s, step) {
      OneMore(before, after, if step.LoginFinish? then step.id else step.challenge);
    } else {
      forall c | c in after ensures c in before { if c !in before { ChallengeArrives(s, step, c); } }
      SubsetSize(after, before);
    }
  }

  /** A code becomes an entered code, and that a session: each is used up on the way. */
  lemma CodesAreSpent(s: State, step: Step)
    requires Enabled(s, step)
    ensures |Granted(Apply(s, step))| + |Entered(Apply(s, step))| + |Apply(s, step).challenges.Keys|
            <= |Granted(s)| + |Entered(s)| + |s.challenges.Keys| + if SendsCode(s, step) then 1 else 0
  {
    GrantedAfter(s, step);
    EnteredAfter(s, step);
    CodesOutAfter(s, step);
  }

  /** However codes are resent, entered and abandoned, no more sessions are ever granted
    * by code than codes were sent: each is good for one, and the codes still out for one
    * more each. */
  lemma {:induction false} OneSessionPerCode(r: Run, n: nat)
    requires IsRun(r) && n < |r.states|
    ensures |Granted(r.states[n])| + |Entered(r.states[n])| + |r.states[n].challenges.Keys| <= CodesSent(r, n)
  {
    if n > 0 {
      OneSessionPerCode(r, n - 1);
      CodesAreSpent(r.states[n - 1], r.steps[n - 1]);
    } else {
      assert Granted(Init()) == {} && Entered(Init()) == {};
    }
  }
}
