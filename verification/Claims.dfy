/** Claims, ownership and the verified badge.
  *
  * Each workflow is one transaction: either every write of it happens or none.
  * The three partial unique indexes, the one-listing-per-owner constraint and the
  * account-type trigger are part of the statements they guard. */
module Claims {
  import opened Prelude

  type Id = nat
  type Listing = nat
  type User = nat

  datatype ClaimStatus = Pending | Approved | Rejected | Withdrawn

  datatype Claim = Claim(listing: Listing, user: User, status: ClaimStatus)

  datatype LicenceStatus = Active | Expired | Suspended | Inactive | Unknown

  datatype Licence = Licence(status: LicenceStatus, expires: Option<int>)

  /** `roles` are the users granted the contractor role; `accounts` the users whose
    * account type is contractor. */
  datatype State = State(claims: map<Id, Claim>, listings: set<Listing>, owner: map<Listing, User>,
                         badge: map<Listing, bool>, licence: map<Listing, Licence>,
                         roles: set<User>, accounts: set<User>, today: int)

  datatype Refusal = NotFound | Conflict | Internal

  // ---------------------------------------------------------------- statements

  predicate PendingPair(s: State, l: Listing, u: User) {
    exists id :: id in s.claims && s.claims[id] == Claim(l, u, Pending)
  }

  /** The insert, under one-pending-per-pair. */
  function Inserted(s: State, id: Id, l: Listing, u: User): Result<State, Refusal> {
    if PendingPair(s, l, u) then Err(Conflict)
    else Ok(s.(claims := s.claims[id := Claim(l, u, Pending)]))
  }

  predicate HasApproved(s: State, l: Listing, u: User) {
    exists id :: id in s.claims && s.claims[id].status.Approved?
                 && (s.claims[id].listing == l || s.claims[id].user == u)
  }

  /** Out of `pending` and only out of it, under the two approved indexes. The
    * flag says whether a row moved. */
  function Moved(s: State, id: Id, status: ClaimStatus): Result<(State, bool), Refusal> {
    if id !in s.claims || !s.claims[id].status.Pending? then Ok((s, false))
    else if status.Approved? && HasApproved(s, s.claims[id].listing, s.claims[id].user) then Err(Conflict)
    else Ok((s.(claims := s.claims[id := s.claims[id].(status := status)]), true))
  }

  predicate Owns(s: State, u: User) { exists l :: l in s.owner && s.owner[l] == u }

  function Attached(s: State, l: Listing, u: User): Result<(State, bool), Refusal> {
    if l !in s.listings || l in s.owner then Ok((s, false))
    else if u !in s.accounts || Owns(s, u) then Err(Internal)
    else Ok((s.(owner := s.owner[l := u]), true))
  }

  /** The badge rule: an active, unexpired licence and a claim. */
  predicate Deserves(claimed: bool, licence: Option<Licence>, today: int) {
    && licence.Some?
    && licence.value.status.Active?
    && (licence.value.expires.Some? ==> licence.value.expires.value >= today)
    && claimed
  }

  function Facts(s: State, l: Listing): Option<Licence> {
    if l in s.licence then Some(s.licence[l]) else None
  }

  function Recomputed(s: State, l: Listing): State {
    if l !in s.listings then s
    else s.(badge := s.badge[l := Deserves(l in s.owner, Facts(s, l), s.today)])
  }

  // -------------------------------------------------------------- transactions

  /** What an approval adds after the claim row has moved. */
  function Granted(s: State, l: Listing, u: User): Result<State, Refusal> {
    match Attached(s, l, u)
    case Err(e) => Err(e)
    case Ok((t, ok)) => if ok then Ok(Recomputed(t.(roles := t.roles + {u}), l)) else Err(Conflict)
  }

  function Opened(s: State, id: Id, l: Listing, u: User): Result<State, Refusal> {
    if l !in s.listings then Err(NotFound)
    else if l in s.owner then Err(Conflict)
    else if Owns(s, u) then Err(Conflict)
    else match Inserted(s, id, l, u)
      case Err(e) => Err(e)
      case Ok(t) => match Moved(t, id, Approved)
        case Err(e) => Err(e)
        case Ok((v, _)) => Granted(v, l, u)
  }

  function Withdrew(s: State, id: Id, u: User): Result<State, Refusal> {
    if id !in s.claims || s.claims[id].user != u then Err(NotFound)
    else if !s.claims[id].status.Pending? then Err(Conflict)
    else match Moved(s, id, Withdrawn)
      case Err(e) => Err(e)
      case Ok((t, _)) => Ok(t)
  }

  function Decided(s: State, id: Id, approve: bool): Result<State, Refusal> {
    if id !in s.claims then Err(NotFound)
    else if !s.claims[id].status.Pending? then Err(Conflict)
    else match Moved(s, id, if approve then Approved else Rejected)
      case Err(e) => Err(e)
      case Ok((t, moved)) =>
        if !moved then Err(Conflict)
        else if approve then Granted(t, s.claims[id].listing, s.claims[id].user)
        else Ok(Recomputed(t, s.claims[id].listing))
  }

  datatype Step =
    | Open(id: Id, listing: Listing, user: User)
    | Withdraw(id: Id, user: User)
    | Decide(id: Id, approve: bool)
    | Import(listing: Listing, licence: Option<Licence>)
    | Recompute(listing: Listing)
    | NewDay(days: nat)

  predicate Enabled(s: State, step: Step) { step.Open? ==> step.id !in s.claims }

  /** A refused transaction leaves nothing behind. */
  function Commit(s: State, r: Result<State, Refusal>): State { if r.Ok? then r.value else s }

  function Apply(s: State, step: Step): State {
    match step
    case Open(id, l, u) => Commit(s, Opened(s, id, l, u))
    case Withdraw(id, u) => Commit(s, Withdrew(s, id, u))
    case Decide(id, approve) => Commit(s, Decided(s, id, approve))
    case Import(l, facts) =>
      var t := s.(listings := s.listings + {l},
                  licence := if facts.Some? then s.licence[l := facts.value] else s.licence - {l});
      Recomputed(t, l)
    case Recompute(l) => Recomputed(s, l)
    case NewDay(d) => s.(today := s.today + d)
  }

  // ----------------------------------------------------------------- invariant

  predicate Holds(s: State, id: Id, l: Listing, u: User) {
    id in s.claims && s.claims[id] == Claim(l, u, Approved)
  }

  predicate OwnedBy(s: State, l: Listing, u: User) { l in s.owner && s.owner[l] == u }

  ghost predicate OwnedIffApproved(s: State) {
    && (forall l :: l in s.owner ==> exists id :: Holds(s, id, l, s.owner[l]))
    && (forall id, l, u :: Holds(s, id, l, u) ==> l in s.owner && s.owner[l] == u)
  }

  ghost predicate ApprovedOnce(s: State) {
    forall i, j, l, u, m, v :: Holds(s, i, l, u) && Holds(s, j, m, v) && (l == m || u == v) ==> i == j
  }

  predicate BadgeNeedsOwner(s: State) { forall l :: l in s.badge && s.badge[l] ==> l in s.owner }

  predicate OwnersOk(s: State) {
    forall l :: l in s.owner ==> l in s.listings && s.owner[l] in s.roles && s.owner[l] in s.accounts
  }

  ghost predicate Inv(s: State) {
    OwnedIffApproved(s) && ApprovedOnce(s) && BadgeNeedsOwner(s) && OwnersOk(s)
  }

  /** No owner yet, no badge and nothing decided; pending claims may be waiting. */
  ghost predicate Start(s: State) {
    && s.owner == map[]
    && (forall l :: l in s.badge ==> !s.badge[l])
    && (forall id :: id in s.claims ==> !s.claims[id].status.Approved?)
  }

  datatype Run = Run(states: seq<State>, steps: seq<Step>)

  ghost predicate IsRun(r: Run) {
    && |r.states| == |r.steps| + 1
    && Start(r.states[0])
    && forall i :: 0 <= i < |r.steps| ==>
         Enabled(r.states[i], r.steps[i]) && r.states[i + 1] == Apply(r.states[i], r.steps[i])
  }

  /** An owner always shows up as an approved claim. */
  lemma OwnerShows(s: State, l: Listing, u: User)
    requires Inv(s)
    ensures l in s.owner || Owns(s, u) ==> HasApproved(s, l, u)
  {
    if l in s.owner {
      var k :| Holds(s, k, l, s.owner[l]);
    } else if Owns(s, u) {
      var m :| m in s.owner && s.owner[m] == u;
      var k :| Holds(s, k, m, u);
    }
  }

  /** So once the indexes let an approval through, nobody owns the listing and the
    * claimant owns nothing: attaching can no longer find it claimed. */
  lemma ApprovalImpliesFree(s: State, id: Id)
    requires Inv(s) && id in s.claims && Moved(s, id, Approved).Ok? && Moved(s, id, Approved).value.1
    ensures s.claims[id].listing !in s.owner && !Owns(s, s.claims[id].user)
  {
    OwnerShows(s, s.claims[id].listing, s.claims[id].user);
  }

  lemma GrantKeepsInv(s: State, id: Id, t: State)
    requires Inv(s) && id in s.claims && s.claims[id].status.Pending?
    requires !HasApproved(s, s.claims[id].listing, s.claims[id].user)
    requires t == s.(claims := s.claims[id := s.claims[id].(status := Approved)])
    requires Granted(t, s.claims[id].listing, s.claims[id].user).Ok?
    ensures Inv(Granted(t, s.claims[id].listing, s.claims[id].user).value)
  {
    var c := s.claims[id];
    var v := Granted(t, c.listing, c.user).value;
    forall k, l, u | Holds(v, k, l, u)
      ensures (k == id && l == c.listing && u == c.user) || (k != id && Holds(s, k, l, u))
    {
    }
    assert Holds(v, id, c.listing, c.user);
    forall l | l in v.owner ensures exists k :: Holds(v, k, l, v.owner[l]) {
      if l != c.listing {
        var k :| Holds(s, k, l, s.owner[l]);
        assert Holds(v, k, l, v.owner[l]);
      }
    }
    forall k, l, u | Holds(s, k, l, u) ensures l == c.listing || u == c.user ==> HasApproved(s, c.listing, c.user) {}
  }

  /** Writes that leave approved claims, owners, roles and account types alone. */
  lemma QuietKeepsInv(s: State, t: State)
    requires Inv(s) && t.owner == s.owner && s.listings <= t.listings
    requires s.roles <= t.roles && s.accounts <= t.accounts && BadgeNeedsOwner(t)
    requires forall id, l, u :: Holds(t, id, l, u) <==> Holds(s, id, l, u)
    ensures Inv(t)
  {
    forall l | l in t.owner ensures exists id :: Holds(t, id, l, t.owner[l]) {
      var id :| Holds(s, id, l, s.owner[l]);
      assert Holds(t, id, l, t.owner[l]);
    }
    forall id, l, u | Holds(t, id, l, u) ensures l in t.owner && t.owner[l] == u { assert Holds(s, id, l, u); }
    forall i, j, l, u, m, v | Holds(t, i, l, u) && Holds(t, j, m, v) && (l == m || u == v) ensures i == j {
      assert Holds(s, i, l, u) && Holds(s, j, m, v);
    }
  }

  lemma OpenKeepsInv(s: State, id: Id, l: Listing, u: User)
    requires Inv(s) && id !in s.claims && Opened(s, id, l, u).Ok?
    ensures Inv(Opened(s, id, l, u).value)
  {
    var t := Inserted(s, id, l, u).value;
    QuietKeepsInv(s, t);
    GrantKeepsInv(t, id, Moved(t, id, Approved).value.0);
  }

  lemma DecideKeepsInv(s: State, id: Id, approve: bool)
    requires Inv(s) && Decided(s, id, approve).Ok?
    ensures Inv(Decided(s, id, approve).value)
  {
    if approve {
      GrantKeepsInv(s, id, Moved(s, id, Approved).value.0);
    } else {
      QuietKeepsInv(s, Decided(s, id, approve).value);
    }
  }

  lemma StepKeepsInv(s: State, step: Step)
    requires Inv(s) && Enabled(s, step)
    ensures Inv(Apply(s, step))
  {
    match step
    case Open(id, l, u) => if Opened(s, id, l, u).Ok? { OpenKeepsInv(s, id, l, u); }
    case Decide(id, approve) => if Decided(s, id, approve).Ok? { DecideKeepsInv(s, id, approve); }
    case _ => QuietKeepsInv(s, Apply(s, step));
  }

  lemma {:induction false} RunKeepsInv(r: Run, n: nat)
    requires IsRun(r) && n < |r.states|
    ensures Inv(r.states[n])
  {
    if n > 0 {
      RunKeepsInv(r, n - 1);
      StepKeepsInv(r.states[n - 1], r.steps[n - 1]);
    }
  }

  // ------------------------------------------------------------- main results

  /** In every reachable state a listing is owned by a user exactly when that pair
    * has an approved claim, nobody holds two, and a badge implies an owner. */
  lemma OwnershipIsApproval(r: Run, n: nat)
    requires IsRun(r) && n < |r.states|
    ensures forall l, u :: OwnedBy(r.states[n], l, u) <==> exists id :: Holds(r.states[n], id, l, u)
    ensures forall i, j, l, u, m, v ::
              Holds(r.states[n], i, l, u) && Holds(r.states[n], j, m, v) && (l == m || u == v) ==> i == j
    ensures forall l :: l in r.states[n].badge && r.states[n].badge[l] ==>
              l in r.states[n].owner && r.states[n].owner[l] in r.states[n].roles
  {
    RunKeepsInv(r, n);
  }

  /** A claim leaves `pending` at most once: what is decided stays as decided. */
  lemma {:induction false} DecidedOnce(r: Run, i: nat, j: nat, id: Id)
    requires IsRun(r) && i <= j < |r.states|
    requires id in r.states[i].claims && !r.states[i].claims[id].status.Pending?
    ensures id in r.states[j].claims && r.states[j].claims[id] == r.states[i].claims[id]
    decreases j
  {
    if i < j {
      DecidedOnce(r, i, j - 1, id);
      StepKeepsDecided(r.states[j - 1], r.steps[j - 1], id);
    }
  }

  lemma StepKeepsDecided(s: State, step: Step, id: Id)
    requires Enabled(s, step) && id in s.claims && !s.claims[id].status.Pending?
    ensures id in Apply(s, step).claims && Apply(s, step).claims[id] == s.claims[id]
  {
  }

  /** With transactions one after another, approving fails only where it should:
    * the "claimed by someone else" refusal after the row has moved never happens. */
  lemma ApproveSucceedsIff(s: State, id: Id)
    requires Inv(s)
    ensures Decided(s, id, true).Ok? <==>
              && id in s.claims && s.claims[id].status.Pending?
              && !HasApproved(s, s.claims[id].listing, s.claims[id].user)
              && s.claims[id].listing in s.listings && s.claims[id].user in s.accounts
    ensures id in s.claims && s.claims[id].listing in s.listings && Moved(s, id, Approved).Ok?
              && Moved(s, id, Approved).value.1 ==>
              Decided(s, id, true) != Err(Conflict)
  {
    if id in s.claims && s.claims[id].status.Pending? && !HasApproved(s, s.claims[id].listing, s.claims[id].user) {
      ApprovalImpliesFree(s, id);
    }
  }

  /** Opening succeeds exactly for an unowned listing, a contractor account that
    * owns nothing, and no claim of theirs already waiting on it. */
  lemma OpenSucceedsIff(s: State, id: Id, l: Listing, u: User)
    requires Inv(s) && id !in s.claims
    ensures Opened(s, id, l, u).Ok? <==>
              l in s.listings && l !in s.owner && !Owns(s, u) && !PendingPair(s, l, u) && u in s.accounts
    ensures Opened(s, id, l, u).Ok? ==>
              && l in Opened(s, id, l, u).value.owner && Opened(s, id, l, u).value.owner[l] == u
              && l in Opened(s, id, l, u).value.badge
              && (Opened(s, id, l, u).value.badge[l] <==>
                    && l in s.licence && s.licence[l].status == Active
                    && (s.licence[l].expires == None || s.licence[l].expires.value >= s.today))
  {
    if l in s.listings && l !in s.owner && !Owns(s, u) && !PendingPair(s, l, u) {
      NothingApproved(s, l, u);
      InsertApprovesNothing(s, id, l, u);
    }
  }

  lemma InsertApprovesNothing(s: State, id: Id, l: Listing, u: User)
    requires id !in s.claims && Inserted(s, id, l, u).Ok?
    ensures HasApproved(Inserted(s, id, l, u).value, l, u) ==> HasApproved(s, l, u)
  {
    var t := Inserted(s, id, l, u).value;
    if HasApproved(t, l, u) {
      var k :| k in t.claims && t.claims[k].status.Approved? && (t.claims[k].listing == l || t.claims[k].user == u);
      assert k in s.claims && s.claims[k] == t.claims[k];
    }
  }

  lemma NothingApproved(s: State, l: Listing, u: User)
    requires Inv(s) && l !in s.owner && !Owns(s, u)
    ensures !HasApproved(s, l, u)
  {
    forall id | id in s.claims && s.claims[id].status.Approved?
      ensures s.claims[id].listing != l && s.claims[id].user != u
    {
      assert Holds(s, id, s.claims[id].listing, s.claims[id].user);
    }
  }

  // -------------------------------------------------------------------- the desk

  /** The workflow as it runs: statement after statement on the open transaction,
    * put back where it started when one is refused. */
  class Desk {
    var state: State

    constructor (start: State)
      ensures state == start
    {
      state := start;
    }

    method Attach(l: Listing, u: User) returns (r: Result<bool, Refusal>)
      modifies this
      ensures match Attached(old(state), l, u)
              case Ok((t, ok)) => state == t && r == Ok(ok)
              case Err(e) => state == old(state) && r == Err(e)
    {
      if l !in state.listings || l in state.owner { return Ok(false); }
      if u !in state.accounts || u in state.owner.Values {
        assert u in state.owner.Values ==> Owns(state, u);
        return Err(Internal);
      }
      assert !Owns(state, u);
      state := state.(owner := state.owner[l := u]);
      r := Ok(true);
    }

    method Recompute(l: Listing)
      modifies this
      ensures state == Recomputed(old(state), l)
      ensures l in state.listings ==>
                && l in state.badge
                && (state.badge[l] <==>
                      && l in state.owner && l in state.licence && state.licence[l].status == Active
                      && (state.licence[l].expires == None || state.licence[l].expires.value >= state.today))
    {
      if l in state.listings {
        var deserved := false;
        if l in state.licence && state.licence[l].status == Active {
          var expires := state.licence[l].expires;
          if expires.None? || expires.value >= state.today { deserved := l in state.owner; }
        }
        state := state.(badge := state.badge[l := deserved]);
      }
    }

    method Move(id: Id, status: ClaimStatus) returns (r: Result<bool, Refusal>)
      modifies this
      ensures match Moved(old(state), id, status)
              case Ok((t, moved)) => state == t && r == Ok(moved)
              case Err(e) => state == old(state) && r == Err(e)
    {
      if id !in state.claims || state.claims[id].status != Pending { return Ok(false); }
      var claim := state.claims[id];
      if status == Approved {
        var rivals := set k | k in state.claims && state.claims[k].status == Approved
                              && (state.claims[k].listing == claim.listing || state.claims[k].user == claim.user);
        assert HasApproved(state, claim.listing, claim.user) ==> rivals != {} by {
          if HasApproved(state, claim.listing, claim.user) {
            var k :| k in state.claims && state.claims[k].status.Approved?
                     && (state.claims[k].listing == claim.listing || state.claims[k].user == claim.user);
            assert k in rivals;
          }
        }
        if rivals != {} { return Err(Conflict); }
      }
      state := state.(claims := state.claims[id := claim.(status := status)]);
      r := Ok(true);
    }

    method Decide(id: Id, approve: bool) returns (r: Result<(), Refusal>)
      modifies this
      ensures state == Commit(old(state), Decided(old(state), id, approve))
      ensures r.Ok? <==> Decided(old(state), id, approve).Ok?
      ensures r.Err? ==> state == old(state) && r.error == Decided(old(state), id, approve).error
    {
      var saved := state;
      if id !in state.claims { return Err(NotFound); }
      var claim := state.claims[id];
      if claim.status != Pending { return Err(Conflict); }
      var moved := Move(id, if approve then Approved else Rejected);
      if moved.Err? { return Err(moved.error); }
      if approve {
        r := Grant(claim.listing, claim.user);
        if r.Err? { state := saved; }
      } else {
        Recompute(claim.listing);
        r := Ok(());
      }
    }

    /** The role, the listing and the badge of an approved claimant. */
    method Grant(l: Listing, u: User) returns (r: Result<(), Refusal>)
      modifies this
      ensures match Granted(old(state), l, u)
              case Ok(t) => state == t && r == Ok(())
              case Err(e) => state == old(state) && r == Err(e)
    {
      var attached := Attach(l, u);
      if attached.Err? { return Err(attached.error); }
      if !attached.value { return Err(Conflict); }
      state := state.(roles := state.roles + {u});
      Recompute(l);
      r := Ok(());
    }

    /** A claim is opened and approved in one transaction. */
    method Open(id: Id, l: Listing, u: User) returns (r: Result<(), Refusal>)
      requires id !in state.claims
      modifies this
      ensures state == Commit(old(state), Opened(old(state), id, l, u))
      ensures r.Ok? <==> Opened(old(state), id, l, u).Ok?
      ensures r.Err? ==> state == old(state) && r.error == Opened(old(state), id, l, u).error
    {
      var saved := state;
      if l !in state.listings { return Err(NotFound); }
      if l in state.owner { return Err(Conflict); }
      assert u in state.owner.Values ==> Owns(state, u);
      if u in state.owner.Values { return Err(Conflict); }
      assert !Owns(state, u);
      if Claim(l, u, Pending) in state.claims.Values {
        assert PendingPair(state, l, u);
        return Err(Conflict);
      }
      assert !PendingPair(state, l, u);
      state := state.(claims := state.claims[id := Claim(l, u, Pending)]);
      var moved := Move(id, Approved);
      if moved.Err? { state := saved; return Err(moved.error); }
      r := Grant(l, u);
      if r.Err? { state := saved; }
    }

    method Withdraw(id: Id, u: User) returns (r: Result<(), Refusal>)
      modifies this
      ensures state == Commit(old(state), Withdrew(old(state), id, u))
      ensures r.Ok? <==> Withdrew(old(state), id, u).Ok?
      ensures r.Err? ==> state == old(state) && r.error == Withdrew(old(state), id, u).error
    {
      if id !in state.claims || state.claims[id].user != u { return Err(NotFound); }
      if state.claims[id].status != Pending { return Err(Conflict); }
      var moved := Move(id, Withdrawn);
      r := Ok(());
    }
  }
}
