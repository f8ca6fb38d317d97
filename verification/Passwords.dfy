/** Password login, password change, hash upgrade and reset, interleaved.
  *
  * Login and change run in three phases: read the stored hash, verify it while
  * holding nothing, then revalidate under the row lock and act. Each database
  * transaction is one step and anything may happen between two steps of one
  * flow. Hashes are opaque and salted, so every hashing gives a fresh value. */
module Passwords {
  import opened Prelude

  type User = nat
  type Hash = nat
  type Flow = nat
  type SessionId = nat

  const MAX_FAILED: nat := 8
  const LOCKOUT: nat := 900

  /** `epoch` is history: how many times the password (not just its hash) changed. */
  datatype Account = Account(active: bool, hash: Option<Hash>, failed: nat, lockedUntil: Option<int>, epoch: nat)

  /** `epoch` is the password that was verified for the session, `granted` the one the
    * account had when it was granted; `direct` sessions are the
    * ones login and change_password mint themselves, without an emailed code. */
  datatype Session = Session(user: User, epoch: nat, granted: nat, direct: bool, live: bool)

  /** An emailed code that may still be entered, and, as history, the password that was
    * verified before it was sent. */
  datatype Challenge = Challenge(user: User, epoch: nat)

  /** Where a flow stands between two steps, with the hash it read in phase 1 and,
    * as history, the epoch it read it in. */
  datatype Progress =
    | LoginLooking(user: User, at: int)
    | LoginStale(user: User, hash: Hash, epoch: nat)
    | LoginRead(user: User, hash: Hash, epoch: nat)
    | LoginVerified(user: User, hash: Hash, epoch: nat)
    | LoginDone(user: User, hash: Hash, epoch: nat)
    | UpgradeReady(user: User, hash: Hash, epoch: nat, newHash: Hash)
    | ChangeRead(user: User, hash: Hash, epoch: nat)
    | ChangeReady(user: User, hash: Hash, epoch: nat, newHash: Hash)
    | ResetReady(user: User, newHash: Hash)
    | CodeMatched(user: User, epoch: nat)

  /** A committed password change. */
  datatype Change = Change(user: User, verified: Hash)

  datatype State = State(accounts: map<User, Account>, sessions: map<SessionId, Session>,
                         flows: map<Flow, Progress>, clock: int,
                         hashed: set<Hash>, everStored: set<Hash>,
                         changes: seq<Change>, challenges: map<SessionId, Challenge>)

  datatype Step =
    | Register(user: User, newHash: Hash, challenge: SessionId)
    | LoginBegin(flow: Flow, user: User)
    | LoginFind(flow: Flow)
    | LoginClear(flow: Flow)
    | LoginVerify(flow: Flow, ok: bool)
    | LoginFinish(flow: Flow, remembered: bool, id: SessionId)
    | Rehash(flow: Flow, newHash: Hash)
    | UpgradeCommit(flow: Flow)
    | ChangeBegin(flow: Flow, user: User)
    | ChangeVerify(flow: Flow, ok: bool, newHash: Hash)
    | ChangeCommit(flow: Flow, session: SessionId)
    | ResetPrepare(flow: Flow, user: User, newHash: Hash)
    | ResetCommit(flow: Flow)
    | CodeResend(first: SessionId, challenge: SessionId, spent: bool)
    | CodeExpire(challenge: SessionId)
    | CodeVerify(flow: Flow, challenge: SessionId)
    | CodeFinish(flow: Flow, session: SessionId)
    | SetActive(user: User, active: bool)
    | Logout(session: SessionId)
    | Abandon(flow: Flow)
    | Tick(seconds: nat)

  predicate LockedAt(a: Account, now: int) { a.lockedUntil.Some? && a.lockedUntil.value > now }

  /** Phase 3's check: the account is active, still has the hash that was
    * verified, and is not locked. */
  predicate Revalidates(s: State, user: User, verified: Hash) {
    && user in s.accounts
    && s.accounts[user].active
    && s.accounts[user].hash == Some(verified)
    && !LockedAt(s.accounts[user], s.clock)
  }

  function Init(): State { State(map[], map[], map[], 0, {}, {}, [], map[]) }

  predicate Enabled(s: State, step: Step) {
    match step
    case Register(user, newHash, c) => user !in s.accounts && newHash !in s.hashed && c !in s.challenges
    case LoginBegin(f, _) => f !in s.flows
    case LoginFind(f) => f in s.flows && s.flows[f].LoginLooking?
    case LoginClear(f) => f in s.flows && s.flows[f].LoginStale?
    case LoginVerify(f, _) => f in s.flows && s.flows[f].LoginRead?
    case LoginFinish(f, _, id) =>
      f in s.flows && s.flows[f].LoginVerified? && id !in s.sessions && id !in s.challenges
    case Rehash(f, newHash) => f in s.flows && s.flows[f].LoginDone? && newHash !in s.hashed
    case UpgradeCommit(f) => f in s.flows && s.flows[f].UpgradeReady?
    case ChangeBegin(f, _) => f !in s.flows
    case ChangeVerify(f, _, newHash) => f in s.flows && s.flows[f].ChangeRead? && newHash !in s.hashed
    case ChangeCommit(f, id) => f in s.flows && s.flows[f].ChangeReady? && id !in s.sessions
    case ResetPrepare(f, user, newHash) => f !in s.flows && user in s.accounts && newHash !in s.hashed
    case ResetCommit(f) => f in s.flows && s.flows[f].ResetReady?
    case CodeResend(first, c, _) => first in s.challenges && c !in s.challenges
    case CodeExpire(c) => c in s.challenges
    case CodeVerify(f, c) => f !in s.flows && c in s.challenges
    case CodeFinish(f, id) => f in s.flows && s.flows[f].CodeMatched? && id !in s.sessions
    case SetActive(user, _) => user in s.accounts
    case Logout(id) => id in s.sessions
    case Abandon(f) => f in s.flows
    case Tick(_) => true
  }

  function Unlocked(a: Account): Account { a.(failed := 0, lockedUntil := None) }

  function Failure(a: Account, now: int): Account {
    a.(failed := a.failed + 1,
       lockedUntil := if a.failed + 1 >= MAX_FAILED then Some(now + LOCKOUT) else a.lockedUntil)
  }

  function RevokedFor(sessions: map<SessionId, Session>, user: User): map<SessionId, Session> {
    map id | id in sessions ::
      if sessions[id].user == user then sessions[id].(live := false) else sessions[id]
  }

  function Drop(s: State, f: Flow): State { s.(flows := s.flows - {f}) }

  /** The pre-check is three statements, each on its own: the account's status, its
    * credential, and, if that shows a lock that has run out, clearing it. */
  function LoginFound(s: State, f: Flow): State
    requires Enabled(s, LoginFind(f))
  {
    var p := s.flows[f];
    if p.user !in s.accounts then Drop(s, f)
    else
      var a := s.accounts[p.user];
      if a.hash.None? || LockedAt(a, p.at) then Drop(s, f)
      else s.(flows := s.flows[f := if a.lockedUntil.Some? then LoginStale(p.user, a.hash.value, a.epoch)
                                    else LoginRead(p.user, a.hash.value, a.epoch)])
  }

  /** Whatever the counter and the lock are by now. */
  function LoginCleared(s: State, f: Flow): State
    requires Enabled(s, LoginClear(f))
  {
    var p := s.flows[f];
    s.(accounts := if p.user in s.accounts then s.accounts[p.user := Unlocked(s.accounts[p.user])] else s.accounts,
       flows := s.flows[f := LoginRead(p.user, p.hash, p.epoch)])
  }

  function LoginFinished(s: State, f: Flow, remembered: bool, id: SessionId): State
    requires Enabled(s, LoginFinish(f, remembered, id))
  {
    var p := s.flows[f];
    if !Revalidates(s, p.user, p.hash) then Drop(s, f)
    else
      var a := s.accounts[p.user];
      var t := s.(accounts := s.accounts[p.user := Unlocked(a)],
                  flows := s.flows[f := LoginDone(p.user, p.hash, p.epoch)]);
      if remembered
      then t.(sessions := s.sessions[id := Session(p.user, p.epoch, a.epoch, true, true)])
      else t.(challenges := s.challenges[id := Challenge(p.user, p.epoch)])
  }

  /** Compare and swap: the hash moves, the password and its lockout do not. */
  function Upgraded(s: State, f: Flow): State
    requires Enabled(s, UpgradeCommit(f))
  {
    var p := s.flows[f];
    if p.user in s.accounts && s.accounts[p.user].hash == Some(p.hash)
    then Drop(s, f).(accounts := s.accounts[p.user := s.accounts[p.user].(hash := Some(p.newHash))],
                     everStored := s.everStored + {p.newHash})
    else Drop(s, f)
  }

  function NewPassword(a: Account, newHash: Hash): Account {
    Unlocked(a).(hash := Some(newHash), epoch := a.epoch + 1)
  }

  function Changed(s: State, f: Flow, id: SessionId): State
    requires Enabled(s, ChangeCommit(f, id))
  {
    var p := s.flows[f];
    if !Revalidates(s, p.user, p.hash) then Drop(s, f)
    else
      var a := NewPassword(s.accounts[p.user], p.newHash);
      Drop(s, f).(accounts := s.accounts[p.user := a],
                  everStored := s.everStored + {p.newHash},
                  sessions := RevokedFor(s.sessions, p.user)[id := Session(p.user, a.epoch, a.epoch, true, true)],
                  changes := s.changes + [Change(p.user, p.hash)])
  }

  function WasReset(s: State, f: Flow): State
    requires Enabled(s, ResetCommit(f))
  {
    var p := s.flows[f];
    if p.user !in s.accounts then Drop(s, f)
    else Drop(s, f).(accounts := s.accounts[p.user := NewPassword(s.accounts[p.user], p.newHash)],
                     everStored := s.everStored + {p.newHash},
                     sessions := RevokedFor(s.sessions, p.user))
  }

  /** Only the account's status is looked at again, not its password. */
  function CodeFinished(s: State, f: Flow, id: SessionId): State
    requires Enabled(s, CodeFinish(f, id))
  {
    var p := s.flows[f];
    if p.user !in s.accounts || !s.accounts[p.user].active then Drop(s, f)
    else
      var granted := s.accounts[p.user].epoch;
      Drop(s, f).(sessions := s.sessions[id := Session(p.user, p.epoch, granted, false, true)])
  }

  function Apply(s: State, step: Step): State
    requires Enabled(s, step)
  {
    match step
    case Register(user, newHash, c) =>
      s.(accounts := s.accounts[user := Account(true, Some(newHash), 0, None, 0)],
         challenges := s.challenges[c := Challenge(user, 0)],
         hashed := s.hashed + {newHash}, everStored := s.everStored + {newHash})
    case LoginBegin(f, user) =>
      if user in s.accounts && s.accounts[user].active
      then s.(flows := s.flows[f := LoginLooking(user, s.clock)]) else s
    case LoginFind(f) => LoginFound(s, f)
    case LoginClear(f) => LoginCleared(s, f)
    case LoginVerify(f, ok) =>
      var p := s.flows[f];
      if ok then s.(flows := s.flows[f := LoginVerified(p.user, p.hash, p.epoch)])
      else if p.user in s.accounts
      then Drop(s, f).(accounts := s.accounts[p.user := Failure(s.accounts[p.user], s.clock)])
      else Drop(s, f)
    case LoginFinish(f, remembered, id) => LoginFinished(s, f, remembered, id)
    case Rehash(f, newHash) =>
      var p := s.flows[f];
      s.(flows := s.flows[f := UpgradeReady(p.user, p.hash, p.epoch, newHash)], hashed := s.hashed + {newHash})
    case UpgradeCommit(f) => Upgraded(s, f)
    case ChangeBegin(f, user) =>
      if user in s.accounts && s.accounts[user].hash.Some?
      then s.(flows := s.flows[f := ChangeRead(user, s.accounts[user].hash.value, s.accounts[user].epoch)])
      else s
    case ChangeVerify(f, ok, newHash) =>
      var p := s.flows[f];
      if ok then
        s.(flows := s.flows[f := ChangeReady(p.user, p.hash, p.epoch, newHash)],
           hashed := s.hashed + {newHash})
      else Drop(s, f)
    case ChangeCommit(f, id) => Changed(s, f, id)
    case ResetPrepare(f, user, newHash) =>
      s.(flows := s.flows[f := ResetReady(user, newHash)], hashed := s.hashed + {newHash})
    case ResetCommit(f) => WasReset(s, f)
    case CodeResend(first, c, spent) =>
      s.(challenges := (if spent then s.challenges - {first} else s.challenges)[c := s.challenges[first]])
    case CodeExpire(c) => s.(challenges := s.challenges - {c})
    case CodeVerify(f, c) =>
      s.(challenges := s.challenges - {c},
         flows := s.flows[f := CodeMatched(s.challenges[c].user, s.challenges[c].epoch)])
    case CodeFinish(f, id) => CodeFinished(s, f, id)
    case SetActive(user, active) => s.(accounts := s.accounts[user := s.accounts[user].(active := active)])
    case Logout(id) => s.(sessions := s.sessions[id := s.sessions[id].(live := false)])
    case Abandon(f) => Drop(s, f)
    case Tick(d) => s.(clock := s.clock + d)
  }

  datatype Run = Run(states: seq<State>, steps: seq<Step>)

  ghost predicate IsRun(r: Run) {
    && |r.states| == |r.steps| + 1
    && r.states[0] == Init()
    && forall i :: 0 <= i < |r.steps| ==>
         Enabled(r.states[i], r.steps[i]) && r.states[i + 1] == Apply(r.states[i], r.steps[i])
  }

  function End(r: Run): State
    requires |r.states| == |r.steps| + 1
  {
    r.states[|r.steps|]
  }

  lemma Extended(r: Run, step: Step) returns (r': Run)
    requires IsRun(r) && Enabled(End(r), step)
    ensures IsRun(r') && r' == Run(r.states + [Apply(End(r), step)], r.steps + [step])
  {
    r' := Run(r.states + [Apply(End(r), step)], r.steps + [step]);
  }

  // ----------------------------------------------------------------- invariant

  predicate Stored(s: State, u: User, h: Hash) { u in s.accounts && s.accounts[u].hash == Some(h) }

  predicate HasFresh(p: Progress) { p.UpgradeReady? || p.ChangeReady? || p.ResetReady? }

  predicate HasRead(p: Progress) { !p.ResetReady? && !p.LoginLooking? && !p.CodeMatched? }

  /** Hashes never come back: what is stored was stored by one account only, and
    * what is waiting to be stored never was. */
  ghost predicate HashesOk(s: State) {
    && s.everStored <= s.hashed
    && (forall u, h :: Stored(s, u, h) ==> h in s.everStored)
    && (forall u, v, h :: Stored(s, u, h) && Stored(s, v, h) ==> u == v)
  }

  predicate SameFresh(p: Progress, q: Progress) { HasFresh(p) && HasFresh(q) && p.newHash == q.newHash }

  ghost predicate FreshOk(s: State) {
    && (forall f :: f in s.flows && HasFresh(s.flows[f]) ==>
          s.flows[f].newHash in s.hashed && s.flows[f].newHash !in s.everStored)
    && (forall f, g :: f in s.flows && g in s.flows && SameFresh(s.flows[f], s.flows[g]) ==> f == g)
  }

  /** If the hash a flow read is still stored, so is the password it was for. */
  predicate ReadOk(s: State, p: Progress)
    requires HasRead(p)
  {
    p.hash in s.everStored
    && (Stored(s, p.user, p.hash) ==> s.accounts[p.user].epoch == p.epoch)
  }

  ghost predicate FlowsOk(s: State) {
    forall f :: f in s.flows && HasRead(s.flows[f]) ==> ReadOk(s, s.flows[f])
  }

  /** Stored once, and by nobody now. */
  ghost predicate Retired(s: State, h: Hash) { h in s.everStored && forall u :: !Stored(s, u, h) }

  ghost predicate ChangesOk(s: State) {
    && (forall i :: 0 <= i < |s.changes| ==> Retired(s, s.changes[i].verified))
    && (forall i, j :: 0 <= i < j < |s.changes| ==> s.changes[i].verified != s.changes[j].verified)
  }

  predicate SessionOk(s: State, x: Session) {
    && x.user in s.accounts
    && (x.live ==> x.granted == s.accounts[x.user].epoch)
    && (x.direct ==> x.epoch == x.granted)
  }

  ghost predicate SessionsOk(s: State) {
    forall id :: id in s.sessions ==> SessionOk(s, s.sessions[id])
  }

  ghost predicate Inv(s: State) {
    HashesOk(s) && FreshOk(s) && FlowsOk(s) && ChangesOk(s) && SessionsOk(s)
  }

  /** Replacing one account's hash by one that was never stored keeps everything
    * that is said about hashes. */
  lemma SwapKeeps(s: State, s': State, u: User, newHash: Hash)
    requires HashesOk(s) && FlowsOk(s) && ChangesOk(s)
    requires u in s.accounts && newHash in s.hashed && newHash !in s.everStored
    requires s'.accounts.Keys == s.accounts.Keys && s'.accounts[u].hash == Some(newHash)
    requires forall v :: v in s.accounts && v != u ==> s'.accounts[v] == s.accounts[v]
    requires s'.everStored == s.everStored + {newHash} && s'.hashed == s.hashed && s'.changes == s.changes
    requires forall f :: f in s'.flows ==> f in s.flows && s'.flows[f] == s.flows[f]
    ensures HashesOk(s') && FlowsOk(s') && ChangesOk(s')
  {
    forall v, h | Stored(s', v, h) ensures (v == u && h == newHash) || (v != u && Stored(s, v, h)) {}
    forall i | 0 <= i < |s.changes| ensures Retired(s', s.changes[i].verified) {
      assert Retired(s, s.changes[i].verified);
    }
    forall f | f in s'.flows && HasRead(s'.flows[f]) ensures ReadOk(s', s'.flows[f]) {
      assert ReadOk(s, s.flows[f]);
    }
  }

  lemma RevokeKeeps(s: State, s': State, u: User)
    requires SessionsOk(s) && u in s.accounts && s'.accounts.Keys == s.accounts.Keys
    requires forall v :: v in s.accounts && v != u ==> s'.accounts[v].epoch == s.accounts[v].epoch
    requires s'.sessions == RevokedFor(s.sessions, u)
    ensures SessionsOk(s')
  {
    forall id | id in s'.sessions ensures SessionOk(s', s'.sessions[id]) { assert SessionOk(s, s.sessions[id]); }
  }

  /** Nothing that is said about hashes and changes looks at anything else. */
  lemma SameHashes(s: State, s': State)
    requires HashesOk(s) && ChangesOk(s)
    requires s'.accounts.Keys == s.accounts.Keys
    requires forall u :: u in s.accounts ==> s'.accounts[u].hash == s.accounts[u].hash
    requires s'.everStored == s.everStored && s.hashed <= s'.hashed && s'.changes == s.changes
    ensures HashesOk(s') && ChangesOk(s')
  {
    forall u, h ensures Stored(s', u, h) <==> Stored(s, u, h) {}
    forall u, h | Stored(s', u, h) ensures h in s'.everStored { assert Stored(s, u, h); }
    forall u, v, h | Stored(s', u, h) && Stored(s', v, h) ensures u == v { assert Stored(s, u, h) && Stored(s, v, h); }
    forall i | 0 <= i < |s.changes| ensures Retired(s', s.changes[i].verified) {
      assert Retired(s, s.changes[i].verified);
    }
  }

  lemma UpgradeKeepsInv(s: State, f: Flow)
    requires Inv(s) && Enabled(s, UpgradeCommit(f))
    ensures Inv(Upgraded(s, f))
  {
    var p := s.flows[f];
    if Stored(s, p.user, p.hash) { UpgradeSwap(s, f); } else { DropKeepsInv(s, f); }
  }

  lemma DropKeepsInv(s: State, f: Flow)
    requires Inv(s) && f in s.flows
    ensures Inv(Drop(s, f))
  {
    var s' := Drop(s, f);
    forall g | g in s'.flows && HasRead(s'.flows[g]) ensures ReadOk(s', s'.flows[g]) { assert ReadOk(s, s.flows[g]); }
    forall id | id in s'.sessions ensures SessionOk(s', s'.sessions[id]) { assert SessionOk(s, s.sessions[id]); }
    SameHashes(s, s');
  }

  /** The flows left behind still wait with hashes that were never stored. */
  lemma FreshLeft(s: State, s': State, f: Flow)
    requires FreshOk(s) && f in s.flows && HasFresh(s.flows[f])
    requires s'.flows == s.flows - {f} && s'.hashed == s.hashed
    requires s'.everStored == s.everStored + {s.flows[f].newHash}
    ensures FreshOk(s')
  {
  }

  lemma UpgradeSwap(s: State, f: Flow)
    requires Inv(s) && Enabled(s, UpgradeCommit(f)) && Stored(s, s.flows[f].user, s.flows[f].hash)
    ensures Inv(Upgraded(s, f))
  {
    var p, s' := s.flows[f], Upgraded(s, f);
    SwapKeeps(s, s', p.user, p.newHash);
    FreshLeft(s, s', f);
    forall id | id in s'.sessions ensures SessionOk(s', s'.sessions[id]) { assert SessionOk(s, s.sessions[id]); }
  }

  lemma ChangeKeepsInv(s: State, f: Flow, id: SessionId)
    requires Inv(s) && Enabled(s, ChangeCommit(f, id))
    ensures Inv(Changed(s, f, id))
  {
    if Revalidates(s, s.flows[f].user, s.flows[f].hash) { ChangeSwap(s, f, id); } else { DropKeepsInv(s, f); }
  }

  lemma ChangeSwap(s: State, f: Flow, id: SessionId)
    requires Inv(s) && Enabled(s, ChangeCommit(f, id)) && Revalidates(s, s.flows[f].user, s.flows[f].hash)
    ensures Inv(Changed(s, f, id))
  {
    var p, s' := s.flows[f], Changed(s, f, id);
    var t := s'.(changes := s.changes, sessions := RevokedFor(s.sessions, p.user));
    SwapKeeps(s, t, p.user, p.newHash);
    RevokeKeeps(s, t, p.user);
    FreshLeft(s, t, f);
    assert Stored(s, p.user, p.hash);
    forall i | 0 <= i < |s.changes| ensures s.changes[i].verified != p.hash {
      assert Retired(s, s.changes[i].verified);
    }
    assert Retired(s', p.hash) by {
      forall u ensures !Stored(s', u, p.hash) { assert Stored(s', u, p.hash) ==> u == p.user || Stored(s, u, p.hash); }
    }
    forall i | 0 <= i < |s'.changes| ensures Retired(s', s'.changes[i].verified) {
      if i < |s.changes| {
        assert Retired(t, t.changes[i].verified);
        forall u ensures !Stored(s', u, s.changes[i].verified) { assert !Stored(t, u, s.changes[i].verified); }
      }
    }
    forall u, h | Stored(s', u, h) ensures h in s'.everStored { assert Stored(t, u, h); }
    forall u, v, h | Stored(s', u, h) && Stored(s', v, h) ensures u == v { assert Stored(t, u, h) && Stored(t, v, h); }
    forall k | k in s'.sessions ensures SessionOk(s', s'.sessions[k]) {
      if k != id { assert SessionOk(t, t.sessions[k]); }
    }
    forall g | g in s'.flows && HasRead(s'.flows[g]) ensures ReadOk(s', s'.flows[g]) { assert ReadOk(t, t.flows[g]); }
  }

  lemma ResetKeepsInv(s: State, f: Flow)
    requires Inv(s) && Enabled(s, ResetCommit(f))
    ensures Inv(WasReset(s, f))
  {
    var p, s' := s.flows[f], WasReset(s, f);
    if p.user in s.accounts {
      SwapKeeps(s, s', p.user, p.newHash);
      RevokeKeeps(s, s', p.user);
      FreshLeft(s, s', f);
    } else {
      DropKeepsInv(s, f);
    }
  }

  /** Steps that touch no stored hash and no epoch. */
  lemma QuietStep(s: State, s': State)
    requires Inv(s)
    requires s'.accounts.Keys == s.accounts.Keys
    requires forall u :: u in s.accounts ==>
               s'.accounts[u].hash == s.accounts[u].hash && s'.accounts[u].epoch == s.accounts[u].epoch
    requires s'.everStored == s.everStored && s.hashed <= s'.hashed && s'.changes == s.changes
    requires forall f :: f in s'.flows && HasRead(s'.flows[f]) ==> ReadOk(s, s'.flows[f])
    requires forall id :: id in s'.sessions ==> SessionOk(s, s'.sessions[id])
    requires FreshOk(s')
    ensures Inv(s')
  {
    SameHashes(s, s');
    forall f | f in s'.flows && HasRead(s'.flows[f]) ensures ReadOk(s', s'.flows[f]) { assert ReadOk(s, s'.flows[f]); }
    forall id | id in s'.sessions ensures SessionOk(s', s'.sessions[id]) { assert SessionOk(s, s'.sessions[id]); }
  }

  lemma RegisterKeepsInv(s: State, user: User, newHash: Hash, c: SessionId)
    requires Inv(s) && Enabled(s, Register(user, newHash, c))
    ensures Inv(Apply(s, Register(user, newHash, c)))
  {
    var s' := Apply(s, Register(user, newHash, c));
    forall v, h | Stored(s', v, h) ensures (v == user && h == newHash) || Stored(s, v, h) {}
    assert newHash !in s.everStored;
    forall v, w, h | Stored(s', v, h) && Stored(s', w, h) ensures v == w {
      assert Stored(s, v, h) || v == user;
      assert Stored(s, w, h) || w == user;
    }
    forall i | 0 <= i < |s.changes| ensures Retired(s', s.changes[i].verified) {
      assert Retired(s, s.changes[i].verified);
    }
    forall f | f in s'.flows && HasRead(s'.flows[f]) ensures ReadOk(s', s'.flows[f]) { assert ReadOk(s, s.flows[f]); }
    forall id | id in s'.sessions ensures SessionOk(s', s'.sessions[id]) { assert SessionOk(s, s.sessions[id]); }
  }

  lemma LoginFinishKeepsInv(s: State, f: Flow, remembered: bool, id: SessionId)
    requires Inv(s) && Enabled(s, LoginFinish(f, remembered, id))
    ensures Inv(LoginFinished(s, f, remembered, id))
  {
    var p, s' := s.flows[f], LoginFinished(s, f, remembered, id);
    if Revalidates(s, p.user, p.hash) {
      assert ReadOk(s, p) && Stored(s, p.user, p.hash);
      QuietStep(s, s');
    } else {
      DropKeepsInv(s, f);
    }
  }

  lemma LoginBeginKeepsInv(s: State, f: Flow, user: User)
    requires Inv(s) && Enabled(s, LoginBegin(f, user))
    ensures Inv(Apply(s, LoginBegin(f, user)))
  {
    QuietStep(s, Apply(s, LoginBegin(f, user)));
  }

  lemma LoginFindKeepsInv(s: State, f: Flow)
    requires Inv(s) && Enabled(s, LoginFind(f))
    ensures Inv(LoginFound(s, f))
  {
    var user := s.flows[f].user;
    if user in s.accounts && s.accounts[user].hash.Some? {
      assert Stored(s, user, s.accounts[user].hash.value);
    }
    QuietStep(s, LoginFound(s, f));
  }

  lemma ChangeBeginKeepsInv(s: State, f: Flow, user: User)
    requires Inv(s) && Enabled(s, ChangeBegin(f, user))
    ensures Inv(Apply(s, ChangeBegin(f, user)))
  {
    if user in s.accounts && s.accounts[user].hash.Some? {
      assert Stored(s, user, s.accounts[user].hash.value);
    }
    QuietStep(s, Apply(s, ChangeBegin(f, user)));
  }

  lemma LoginVerifyKeepsInv(s: State, f: Flow, ok: bool)
    requires Inv(s) && Enabled(s, LoginVerify(f, ok))
    ensures Inv(Apply(s, LoginVerify(f, ok)))
  {
    assert ReadOk(s, s.flows[f]);
    QuietStep(s, Apply(s, LoginVerify(f, ok)));
  }

  lemma LoginClearKeepsInv(s: State, f: Flow)
    requires Inv(s) && Enabled(s, LoginClear(f))
    ensures Inv(LoginCleared(s, f))
  {
    assert ReadOk(s, s.flows[f]);
    QuietStep(s, LoginCleared(s, f));
  }

  lemma HashedKeepsInv(s: State, step: Step)
    requires step.ChangeVerify? || step.Rehash?
    requires Inv(s) && Enabled(s, step)
    ensures Inv(Apply(s, step))
  {
    assert ReadOk(s, s.flows[step.flow]);
    QuietStep(s, Apply(s, step));
  }

  lemma OtherKeepsInv(s: State, step: Step)
    requires step.ResetPrepare? || step.SetActive? || step.Logout? || step.Abandon? || step.Tick?
    requires Inv(s) && Enabled(s, step)
    ensures Inv(Apply(s, step))
  {
    if step.Logout? { assert SessionOk(s, s.sessions[step.session]); }
    QuietStep(s, Apply(s, step));
  }

  lemma CodeKeepsInv(s: State, step: Step)
    requires step.CodeResend? || step.CodeExpire? || step.CodeVerify? || step.CodeFinish?
    requires Inv(s) && Enabled(s, step)
    ensures Inv(Apply(s, step))
  {
    QuietStep(s, Apply(s, step));
  }

  lemma StepKeepsInv(s: State, step: Step)
    requires Inv(s) && Enabled(s, step)
    ensures Inv(Apply(s, step))
  {
    match step
    case Register(user, h, c) => RegisterKeepsInv(s, user, h, c);
    case LoginFinish(f, remembered, id) => LoginFinishKeepsInv(s, f, remembered, id);
    case UpgradeCommit(f) => UpgradeKeepsInv(s, f);
    case ChangeCommit(f, id) => ChangeKeepsInv(s, f, id);
    case ResetCommit(f) => ResetKeepsInv(s, f);
    case LoginBegin(f, user) => LoginBeginKeepsInv(s, f, user);
    case LoginFind(f) => LoginFindKeepsInv(s, f);
    case LoginClear(f) => LoginClearKeepsInv(s, f);
    case ChangeBegin(f, user) => ChangeBeginKeepsInv(s, f, user);
    case LoginVerify(f, ok) => LoginVerifyKeepsInv(s, f, ok);
    case ChangeVerify(_, _, _) => HashedKeepsInv(s, step);
    case Rehash(_, _) => HashedKeepsInv(s, step);
    case CodeResend(_, _, _) => CodeKeepsInv(s, step);
    case CodeExpire(_) => CodeKeepsInv(s, step);
    case CodeVerify(_, _) => CodeKeepsInv(s, step);
    case CodeFinish(_, _) => CodeKeepsInv(s, step);
    case _ => OtherKeepsInv(s, step);
  }

  lemma {:induction false} RunKeepsInv(r: Run, n: nat)
    requires IsRun(r) && n < |r.states|
    ensures Inv(r.states[n])
  {
    if n > 0 {
      RunKeepsInv(r, n - 1);
      StepKeepsInv(r.states[n - 1], r.steps[n - 1]);
    }
  }

  // ------------------------------------------------------------- main results

  /** However changes, logins, upgrades and resets interleave, at most one change
    * that verified a given stored hash ever commits. */
  lemma OneChangePerHash(r: Run, n: nat)
    requires IsRun(r) && n < |r.states|
    ensures forall i, j :: 0 <= i < j < |r.states[n].changes| ==>
              r.states[n].changes[i].verified != r.states[n].changes[j].verified
  {
    RunKeepsInv(r, n);
  }

  // What a flow is waiting with, it got from its own earlier steps.

  predicate IsAt(s: State, f: Flow, p: Progress) { f in s.flows && s.flows[f] == p }

  /** The account is active, has this hash and no lock that still holds. */
  predicate LetsIn(s: State, user: User, hash: Hash) {
    && user in s.accounts && s.accounts[user].active && s.accounts[user].hash == Some(hash)
    && (s.accounts[user].lockedUntil == None || s.accounts[user].lockedUntil.value <= s.clock)
  }

  /** The flow has looked, and this is the hash and the password it finds: of an account
    * that had no lock when it looked, or, if `stale`, one that had run out by then. */
  predicate Finds(s: State, step: Step, f: Flow, user: User, hash: Hash, epoch: nat, stale: bool) {
    && step == LoginFind(f) && f in s.flows && s.flows[f].LoginLooking? && s.flows[f].user == user
    && user in s.accounts && s.accounts[user].hash == Some(hash) && s.accounts[user].epoch == epoch
    && (s.accounts[user].lockedUntil.Some? <==> stale)
    && (stale ==> s.accounts[user].lockedUntil.value <= s.flows[f].at)
  }

  /** The only steps that bring a flow to where it stands. */
  predicate Leads(s: State, step: Step, f: Flow, p: Progress) {
    match p
    case LoginLooking(u, at) =>
      step == LoginBegin(f, u) && at == s.clock && u in s.accounts && s.accounts[u].active
    case LoginStale(u, h, e) => Finds(s, step, f, u, h, e, true)
    case LoginRead(u, h, e) =>
      Finds(s, step, f, u, h, e, false) || (step == LoginClear(f) && IsAt(s, f, LoginStale(u, h, e)))
    case LoginVerified(u, h, e) => step == LoginVerify(f, true) && IsAt(s, f, LoginRead(u, h, e))
    case LoginDone(u, h, e) =>
      step.LoginFinish? && step.flow == f && IsAt(s, f, LoginVerified(u, h, e)) && LetsIn(s, u, h)
    case UpgradeReady(u, h, e, newHash) => step == Rehash(f, newHash) && IsAt(s, f, LoginDone(u, h, e))
    case ChangeRead(u, h, e) =>
      step == ChangeBegin(f, u) && u in s.accounts && s.accounts[u].hash == Some(h) && s.accounts[u].epoch == e
    case ChangeReady(u, h, e, newHash) => step == ChangeVerify(f, true, newHash) && IsAt(s, f, ChangeRead(u, h, e))
    case ResetReady(u, newHash) => step == ResetPrepare(f, u, newHash) && u in s.accounts
    case CodeMatched(u, e) =>
      step.CodeVerify? && step.flow == f && step.challenge in s.challenges
      && s.challenges[step.challenge] == Challenge(u, e)
  }

  lemma StageStep(s: State, step: Step, f: Flow, p: Progress)
    requires Enabled(s, step) && IsAt(Apply(s, step), f, p)
    ensures IsAt(s, f, p) || Leads(s, step, f, p)
  {
  }

  /** The step that brought a flow to where it stands, and it has stood there since. */
  lemma CameThere(r: Run, n: nat, f: Flow, p: Progress) returns (k: nat)
    requires IsRun(r) && n < |r.states| && IsAt(r.states[n], f, p)
    ensures k < n && Leads(r.states[k], r.steps[k], f, p)
    ensures forall m :: k < m <= n ==> IsAt(r.states[m], f, p)
  {
    forall m | 0 <= m < n && IsAt(r.states[m + 1], f, p)
      ensures IsAt(r.states[m], f, p) || Leads(r.states[m], r.steps[m], f, p)
    {
      StageStep(r.states[m], r.steps[m], f, p);
    }
    k := TracedBack(r.states, r.steps, n, s => IsAt(s, f, p), (s, step) => Leads(s, step, f, p));
  }

  /** A login that is about to verify a hash found it, of an active account, with no lock
    * that held when it began. */
  lemma FoundBefore(r: Run, n: nat, f: Flow, user: User, hash: Hash, epoch: nat) returns (b: nat, k: nat)
    requires IsRun(r) && n < |r.states| && IsAt(r.states[n], f, LoginRead(user, hash, epoch))
    ensures b < k < n && r.steps[b] == LoginBegin(f, user) && r.steps[k] == LoginFind(f)
    ensures user in r.states[b].accounts && r.states[b].accounts[user].active
    ensures user in r.states[k].accounts && r.states[k].accounts[user].hash == Some(hash)
    ensures r.states[k].accounts[user].epoch == epoch && !LockedAt(r.states[k].accounts[user], r.states[b].clock)
    ensures forall m :: b < m <= n ==> f in r.states[m].flows && r.states[m].flows[f].user == user
  {
    k := CameThere(r, n, f, LoginRead(user, hash, epoch));
    if r.steps[k] == LoginClear(f) { k := CameThere(r, k, f, LoginStale(user, hash, epoch)); }
    b := CameThere(r, k, f, r.states[k].flows[f]);
  }

  /** A session login mints was earned by that same login, under way all the while: it
    * looked the account up, read its hash, and found the password to match it, in that
    * order; and when the
    * session is minted the account still has that hash and that password, is active
    * and is not locked, whatever happened to it in between. */
  lemma MintedOnTheVerifiedHash(r: Run, i: nat, f: Flow, id: SessionId) returns (b: nat, k: nat, j: nat, user: User)
    requires IsRun(r) && i < |r.steps| && r.steps[i] == LoginFinish(f, true, id)
    requires id in r.states[i + 1].sessions
    ensures b < k < j < i && r.steps[b] == LoginBegin(f, user)
    ensures r.steps[k] == LoginFind(f) && r.steps[j] == LoginVerify(f, true)
    ensures user in r.states[b].accounts && r.states[b].accounts[user].active
    ensures user in r.states[k].accounts && !LockedAt(r.states[k].accounts[user], r.states[b].clock)
    ensures user in r.states[k].accounts && user in r.states[i].accounts
    ensures f in r.states[j].flows && r.states[j].flows[f].LoginRead?
    ensures r.states[k].accounts[user].hash == r.states[i].accounts[user].hash == Some(r.states[j].flows[f].hash)
    ensures r.states[k].accounts[user].epoch == r.states[i].accounts[user].epoch
    ensures r.states[i].accounts[user].active && !LockedAt(r.states[i].accounts[user], r.states[i].clock)
    ensures forall m :: b < m <= i ==> f in r.states[m].flows && r.states[m].flows[f].user == user
    ensures r.states[i + 1].sessions[id].user == user && r.states[i + 1].sessions[id].live
    ensures r.states[i + 1].sessions[id].epoch == r.states[i].accounts[user].epoch
  {
    var s := r.states[i];
    var p := s.flows[f];
    user := p.user;
    RunKeepsInv(r, i);
    assert LetsIn(s, user, p.hash) && ReadOk(s, p) && Stored(s, user, p.hash);
    j := CameThere(r, i, f, p);
    b, k := FoundBefore(r, j, f, user, p.hash, p.epoch);
  }

  /** A live session, however it was come by, was granted while the account had the
    * password it has now: a change or a reset revokes all there are. One that login or
    * change_password mints was verified with that password too. */
  lemma SessionsDieWithThePassword(r: Run, n: nat, id: SessionId)
    requires IsRun(r) && n < |r.states|
    requires id in r.states[n].sessions && r.states[n].sessions[id].live
    ensures r.states[n].sessions[id].user in r.states[n].accounts
    ensures r.states[n].sessions[id].granted == r.states[n].accounts[r.states[n].sessions[id].user].epoch
    ensures r.states[n].sessions[id].direct ==> r.states[n].sessions[id].epoch == r.states[n].sessions[id].granted
  {
    RunKeepsInv(r, n);
    assert SessionOk(r.states[n], r.states[n].sessions[id]);
  }
}
