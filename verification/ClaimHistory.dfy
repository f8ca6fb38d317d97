/** Claims, owners, roles and badges, told from what happened: for each of them exactly
  * the steps that move it, and what it is after any run. */
module ClaimHistory {
  import opened Prelude
  import opened Claims

  /** A claim of this user on this listing is waiting. */
  predicate Waits(s: State, l: Listing, u: User) {
    exists id :: id in s.claims && s.claims[id].listing == l && s.claims[id].user == u && s.claims[id].status == Pending
  }

  /** An unowned listing, a contractor account that owns nothing, and no claim of theirs
    * waiting on it. */
  predicate CanOpen(s: State, l: Listing, u: User) {
    l in s.listings && l !in s.owner && !Owns(s, u) && u in s.accounts && !Waits(s, l, u)
  }

  /** A waiting claim of a contractor account that owns nothing, on an unowned listing. */
  predicate CanApprove(s: State, id: Id) {
    && id in s.claims && s.claims[id].status.Pending? && s.claims[id].listing in s.listings
    && s.claims[id].listing !in s.owner && !Owns(s, s.claims[id].user) && s.claims[id].user in s.accounts
  }

  /** The step makes `u` the owner of `l`. */
  predicate Gives(s: State, step: Step, l: Listing, u: User) {
    || (step.Open? && step.listing == l && step.user == u && CanOpen(s, l, u))
    || (step.Decide? && step.approve && CanApprove(s, step.id) && s.claims[step.id] == Claim(l, u, Pending))
  }

  /** The step asks anew whether `l` is to carry the badge. */
  predicate Rechecks(s: State, step: Step, l: Listing) {
    match step
    case Open(_, m, u) => m == l && CanOpen(s, l, u)
    case Decide(id, approve) =>
      && id in s.claims && s.claims[id].listing == l && s.claims[id].status.Pending?
      && l in s.listings && (approve ==> CanApprove(s, id))
    case Import(m, _) => m == l
    case Recompute(m) => m == l && l in s.listings
    case _ => false
  }

  /** The badge is for an owner with an active licence that has not expired today. */
  predicate Proven(s: State, l: Listing) {
    && l in s.owner && l in s.licence && s.licence[l].status == Active
    && (s.licence[l].expires == None || s.licence[l].expires.value >= s.today)
  }

  // ---------------------------------------------------------------- single steps

  lemma OpenedIs(s: State, id: Id, l: Listing, u: User)
    requires Inv(s) && id !in s.claims
    ensures Opened(s, id, l, u).Ok? <==> CanOpen(s, l, u)
    ensures CanOpen(s, l, u) ==>
      var t := Opened(s, id, l, u).value;
      && t.claims == s.claims[id := Claim(l, u, Approved)] && t.owner == s.owner[l := u]
      && t.roles == s.roles + {u} && t.listings == s.listings && t.licence == s.licence
      && t.accounts == s.accounts && t.today == s.today && t.badge == s.badge[l := Proven(t, l)]
  {
    OpenSucceedsIff(s, id, l, u);
  }

  /** The unique index on approved claims says the same as the owners do. */
  lemma ApprovableIff(s: State, id: Id)
    requires Inv(s) && id in s.claims
    ensures Decided(s, id, true).Ok? <==> CanApprove(s, id)
  {
    var c := s.claims[id];
    ApproveSucceedsIff(s, id);
    OwnerShows(s, c.listing, c.user);
    if c.listing !in s.owner && !Owns(s, c.user) { NothingApproved(s, c.listing, c.user); }
  }

  predicate CanDecide(s: State, id: Id, approve: bool) {
    id in s.claims && s.claims[id].status.Pending? && (approve ==> CanApprove(s, id))
  }

  lemma DecideIs(s: State, id: Id, approve: bool)
    requires Inv(s)
    ensures Decided(s, id, approve).Ok? <==> CanDecide(s, id, approve)
    ensures CanDecide(s, id, approve) ==>
      var t, c := Decided(s, id, approve).value, s.claims[id];
      && t.claims == s.claims[id := Claim(c.listing, c.user, if approve then Approved else Rejected)]
      && t.owner == (if approve then s.owner[c.listing := c.user] else s.owner)
      && t.roles == (if approve then s.roles + {c.user} else s.roles)
      && t.listings == s.listings && t.licence == s.licence && t.accounts == s.accounts && t.today == s.today
      && t.badge == if c.listing in s.listings then s.badge[c.listing := Proven(t, c.listing)] else s.badge
  {
    if approve && id in s.claims { ApprovableIff(s, id); }
  }

  /** Why a transaction is refused: for what is not there, or not the caller's; for what
    * is taken or decided; and, a fault, for a claimant whose account is of another type. */
  lemma RefusedBecause(s: State, id: Id, l: Listing, u: User, approve: bool)
    requires Inv(s)
    ensures id !in s.claims ==>
              && (Opened(s, id, l, u) == Err(NotFound) <==> l !in s.listings)
              && (Opened(s, id, l, u) == Err(Conflict) <==>
                    l in s.listings && (l in s.owner || Owns(s, u) || Waits(s, l, u)))
              && (Opened(s, id, l, u) == Err(Internal) ==> u !in s.accounts)
    ensures Withdrew(s, id, u) == Err(NotFound) <==> id !in s.claims || s.claims[id].user != u
    ensures Withdrew(s, id, u) == Err(Conflict) <==>
              id in s.claims && s.claims[id].user == u && !s.claims[id].status.Pending?
    ensures Decided(s, id, approve) == Err(NotFound) <==> id !in s.claims
    ensures Decided(s, id, approve) == Err(Internal) ==> approve && s.claims[id].user !in s.accounts
    ensures id in s.claims && !s.claims[id].status.Pending? ==> Decided(s, id, approve) == Err(Conflict)
  {
    if id !in s.claims {
      OpenSucceedsIff(s, id, l, u);
      if l in s.listings && l !in s.owner && !Owns(s, u) && !Waits(s, l, u) {
        NothingApproved(s, l, u);
        InsertApprovesNothing(s, id, l, u);
      }
    } else if s.claims[id].status.Pending? && approve {
      ApproveSucceedsIff(s, id);
      OwnerShows(s, s.claims[id].listing, s.claims[id].user);
    }
  }

  /** A claim says for ever who claims what; it leaves `pending` as its claimant or a
    * moderator says, and an approval only if the listing and the claimant are free. */
  lemma ClaimMoves(s: State, step: Step, id: Id)
    requires Inv(s) && Enabled(s, step) && id in s.claims
    ensures var c, t := s.claims[id], Apply(s, step);
      && id in t.claims && t.claims[id].listing == c.listing && t.claims[id].user == c.user
      && t.claims[id].status == if !c.status.Pending? then c.status
                                else if step == Withdraw(id, c.user) then Withdrawn
                                else if step == Decide(id, false) then Rejected
                                else if step == Decide(id, true) && CanApprove(s, id) then Approved else Pending
  {
    match step
    case Open(k, l, u) => OpenedIs(s, k, l, u);
    case Decide(k, approve) => DecideIs(s, k, approve);
    case _ =>
  }

  /** A claim comes into being approved. */
  lemma ClaimArrives(s: State, step: Step, id: Id)
    requires Inv(s) && Enabled(s, step) && id !in s.claims
    ensures id in Apply(s, step).claims <==> step.Open? && step.id == id && CanOpen(s, step.listing, step.user)
    ensures id in Apply(s, step).claims ==> Apply(s, step).claims[id] == Claim(step.listing, step.user, Approved)
  {
    match step
    case Open(k, l, u) => OpenedIs(s, k, l, u);
    case Decide(k, approve) => DecideIs(s, k, approve);
    case _ =>
  }

  /** An owner stays the owner; a listing gets one, and a user the role, exactly with an
    * approval. */
  lemma OwnerMoves(s: State, step: Step, l: Listing, u: User)
    requires Inv(s) && Enabled(s, step)
    ensures OwnedBy(Apply(s, step), l, u) <==> OwnedBy(s, l, u) || Gives(s, step, l, u)
    ensures u in Apply(s, step).roles <==> u in s.roles || exists m :: Gives(s, step, m, u)
  {
    match step
    case Open(k, m, v) =>
      OpenedIs(s, k, m, v);
      assert CanOpen(s, m, v) ==> Gives(s, step, m, v);
    case Decide(k, approve) =>
      DecideIs(s, k, approve);
      if approve && CanApprove(s, k) { assert Gives(s, step, s.claims[k].listing, s.claims[k].user); }
    case _ =>
  }

  /** A badge moves only when it is asked about again, and then to what is true then. */
  lemma BadgeMoves(s: State, step: Step, l: Listing)
    requires Inv(s) && Enabled(s, step)
    ensures Rechecks(s, step, l) ==>
              l in Apply(s, step).badge && (Apply(s, step).badge[l] <==> Proven(Apply(s, step), l))
    ensures !Rechecks(s, step, l) ==>
              && (l in Apply(s, step).badge <==> l in s.badge)
              && (l in s.badge ==> Apply(s, step).badge[l] == s.badge[l])
  {
    match step
    case Open(k, m, v) => OpenedIs(s, k, m, v);
    case Decide(k, approve) => DecideIs(s, k, approve);
    case _ =>
  }

  /** What an import says of a listing's licence stands until the next one; it brings
    * the listing if it is new, and nothing else does; only days move the date. */
  lemma LicenceMoves(s: State, step: Step, l: Listing)
    requires Inv(s) && Enabled(s, step)
    ensures Facts(Apply(s, step), l) == if step.Import? && step.listing == l then step.licence else Facts(s, l)
    ensures l in Apply(s, step).listings <==> l in s.listings || (step.Import? && step.listing == l)
    ensures Apply(s, step).today == s.today + (if step.NewDay? then step.days else 0)
    ensures Apply(s, step).accounts == s.accounts
  {
    match step
    case Open(k, m, v) => OpenedIs(s, k, m, v);
    case Decide(k, approve) => DecideIs(s, k, approve);
    case _ =>
  }

  // ------------------------------------------------------------------ whole runs

  /** Who was given the listing, if anybody was. */
  ghost predicate Given(r: Run, l: Listing, u: User, n: nat)
    requires n <= |r.steps| <= |r.states|
  {
    exists i :: 0 <= i < n && Gives(r.states[i], r.steps[i], l, u)
  }

  /** At any time the owners are exactly those who were given their listing at some
    * step: nobody loses one, and nobody else has one. */
  lemma {:induction false} OwnersWereGiven(r: Run, n: nat, l: Listing, u: User)
    requires IsRun(r) && n < |r.states|
    ensures OwnedBy(r.states[n], l, u) <==> Given(r, l, u, n)
  {
    if n > 0 {
      OwnersWereGiven(r, n - 1, l, u);
      RunKeepsInv(r, n - 1);
      OwnerMoves(r.states[n - 1], r.steps[n - 1], l, u);
      if Given(r, l, u, n - 1) {
        var i :| 0 <= i < n - 1 && Gives(r.states[i], r.steps[i], l, u);
        assert Given(r, l, u, n);
      }
    }
  }

  /** The last step before `n` that asked about the badge. */
  ghost function LastRecheck(r: Run, l: Listing, n: nat): (k: Option<nat>)
    requires n <= |r.steps| <= |r.states|
    ensures k.Some? ==> k.value < n && Rechecks(r.states[k.value], r.steps[k.value], l)
    ensures forall i :: (if k.Some? then k.value + 1 else 0) <= i < n ==> !Rechecks(r.states[i], r.steps[i], l)
  {
    if n == 0 then None
    else if Rechecks(r.states[n - 1], r.steps[n - 1], l) then Some(n - 1)
    else LastRecheck(r, l, n - 1)
  }

  /** A listing carries the badge exactly if the last step that asked found an owner and
    * an active licence, not expired that day. A licence that lapses since then takes the
    * badge with it at the next recheck, and not before. */
  lemma {:induction false} BadgeIsLastRecheck(r: Run, n: nat, l: Listing)
    requires IsRun(r) && n < |r.states|
    ensures var k := LastRecheck(r, l, n);
      l in r.states[n].badge && r.states[n].badge[l] <==> k.Some? && Proven(r.states[k.value + 1], l)
  {
    if n > 0 {
      BadgeIsLastRecheck(r, n - 1, l);
      RunKeepsInv(r, n - 1);
      BadgeMoves(r.states[n - 1], r.steps[n - 1], l);
    }
  }
}
