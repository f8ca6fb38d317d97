/** Photo rows and stored objects.
  *
  * Rows live in the database and objects in a bucket, and no transaction spans
  * the two. Uploads write the object, then the row, then delete what the row
  * displaced; removals and cancellations delete rows first and objects after.
  * Any number of these run at once and each may die between any two steps. */
module Photos {
  import opened Prelude

  type Job = nat
  type Contractor = nat
  type PhotoId = nat
  type Flow = nat

  datatype Key = JobKey(job: Job, id: PhotoId) | ContractorKey(contractor: Contractor, id: PhotoId)

  /** The places a row can name an object: a listing's profile photo, one of its
    * work photos, or a photo of a job. */
  datatype Slot =
    | Profile(contractor: Contractor)
    | Work(contractor: Contractor, id: PhotoId)
    | OfJob(job: Job, id: PhotoId)

  datatype Group = JobPhotos(job: Job) | WorkPhotos(contractor: Contractor)

  /** The object key an upload with photo id `id` into `slot` is stored under. */
  function KeyFor(slot: Slot, id: PhotoId): Key {
    match slot
    case Profile(c) => ContractorKey(c, id)
    case Work(c, _) => ContractorKey(c, id)
    case OfJob(j, _) => JobKey(j, id)
  }

  predicate IsSlotFor(slot: Slot, id: PhotoId) { slot.Profile? || slot.id == id }

  predicate InGroup(slot: Slot, g: Group) {
    match g
    case JobPhotos(j) => slot.OfJob? && slot.job == j
    case WorkPhotos(c) => slot.Work? && slot.contractor == c
  }

  function Limit(g: Group): nat { if g.JobPhotos? then 8 else 12 }

  datatype Progress =
    | Checked(slot: Slot, key: Key)
    | Stored(slot: Slot, key: Key)
    | Seen(slot: Slot, key: Key, previous: Option<Key>)
    | Listed(job: Job, keys: seq<Key>)
    | Deleting(keys: seq<Key>)

  datatype State = State(rows: map<Slot, Key>, objects: set<Key>, flows: map<Flow, Progress>, used: set<PhotoId>)

  datatype Step =
    | Begin(flow: Flow, slot: Slot, id: PhotoId)
    | Put(flow: Flow)
    | SeeRow(flow: Flow)
    | WriteRow(flow: Flow)
    | RemoveRow(flow: Flow, slot: Slot)
    | ClearProfile(flow: Flow, contractor: Contractor)
    | ListKeys(flow: Flow, job: Job, keys: seq<Key>)
    | Cancel(flow: Flow)
    | DeleteNext(flow: Flow, reached: bool)
    | Crash(flow: Flow)

  function Init(): State { State(map[], {}, map[], {}) }

  ghost function RowsIn(s: State, g: Group): set<Slot> { set slot | slot in s.rows && InGroup(slot, g) }

  predicate Uploading(p: Progress) { p.Checked? || p.Stored? || p.Seen? }

  ghost function UploadsIn(s: State, g: Group): set<Flow> {
    set f | f in s.flows && Uploading(s.flows[f]) && InGroup(s.flows[f].slot, g)
  }

  /** The limit is checked against the rows there are now; nothing reserves a place. */
  ghost predicate Room(s: State, slot: Slot) {
    forall g :: InGroup(slot, g) ==> |RowsIn(s, g)| < Limit(g)
  }

  ghost predicate Enabled(s: State, step: Step) {
    match step
    case Begin(f, slot, id) => f !in s.flows && id !in s.used && IsSlotFor(slot, id) && Room(s, slot)
    case Put(f) => f in s.flows && s.flows[f].Checked?
    case SeeRow(f) => f in s.flows && s.flows[f].Stored?
    case WriteRow(f) => f in s.flows && s.flows[f].Seen?
    case RemoveRow(f, slot) => f !in s.flows && slot in s.rows && !slot.Profile?
    case ClearProfile(f, _) => f !in s.flows
    case ListKeys(f, j, keys) =>
      f !in s.flows && forall k :: k in keys <==> exists slot :: slot in RowsIn(s, JobPhotos(j)) && s.rows[slot] == k
    case Cancel(f) => f in s.flows && s.flows[f].Listed?
    case DeleteNext(f, _) => f in s.flows && s.flows[f].Deleting? && s.flows[f].keys != []
    case Crash(f) => f in s.flows
  }

  // ---------------------------------------------------------------- statements

  /** What the photo column of a slot holds; `None` is NULL, or no such row. */
  function Column(rows: map<Slot, Key>, slot: Slot): Option<Key> {
    if slot in rows then Some(rows[slot]) else None
  }

  /** The rows an update leaves, and the key it returns to its caller. */
  datatype Update = Update(rows: map<Slot, Key>, returned: Option<Key>)

  /** The old key is read by a CTE, off the rows the statement started with. This is the
    * statement with nothing else going on; another one may commit between what it sees
    * and what it writes. */
  function SetPhoto(rows: map<Slot, Key>, slot: Slot, key: Key): Update {
    var previous := Column(rows, slot);
    Update(rows[slot := key], if previous == Some(key) then None else previous)
  }

  /** `RETURNING photo_storage_key` is read off the row the update has just written. */
  function ClearPhoto(rows: map<Slot, Key>, slot: Slot): Update {
    var after := rows - {slot};
    Update(after, Column(after, slot))
  }

  function ToDelete(returned: Option<Key>): seq<Key> { if returned.Some? then [returned.value] else [] }

  /** A profile photo replaces the one before; the other photos are new rows. */
  function Recorded(rows: map<Slot, Key>, slot: Slot, key: Key): Update {
    if slot.Profile? then SetPhoto(rows, slot, key) else Update(rows[slot := key], None)
  }

  function RowWritten(s: State, f: Flow): State
    requires f in s.flows && s.flows[f].Seen?
  {
    var p := s.flows[f];
    s.(rows := s.rows[p.slot := p.key],
       flows := s.flows[f := Deleting(if p.previous == Some(p.key) then [] else ToDelete(p.previous))])
  }

  ghost function Apply(s: State, step: Step): State
    requires Enabled(s, step)
  {
    match step
    case Begin(f, slot, id) => s.(flows := s.flows[f := Checked(slot, KeyFor(slot, id))], used := s.used + {id})
    case Put(f) =>
      s.(objects := s.objects + {s.flows[f].key}, flows := s.flows[f := Stored(s.flows[f].slot, s.flows[f].key)])
    case SeeRow(f) =>
      var p := s.flows[f];
      var previous := if p.slot.Profile? then Column(s.rows, p.slot) else None;
      s.(flows := s.flows[f := Seen(p.slot, p.key, previous)])
    case WriteRow(f) => RowWritten(s, f)
    case RemoveRow(f, slot) => s.(rows := s.rows - {slot}, flows := s.flows[f := Deleting([s.rows[slot]])])
    case ClearProfile(f, c) =>
      var u := ClearPhoto(s.rows, Profile(c));
      s.(rows := u.rows, flows := s.flows[f := Deleting(ToDelete(u.returned))])
    // Two statements of one transaction: a photo inserted in between loses its row too.
    case ListKeys(f, j, keys) => s.(flows := s.flows[f := Listed(j, keys)])
    case Cancel(f) =>
      s.(rows := s.rows - RowsIn(s, JobPhotos(s.flows[f].job)), flows := s.flows[f := Deleting(s.flows[f].keys)])
    case DeleteNext(f, reached) =>
      s.(objects := if reached then s.objects - {s.flows[f].keys[0]} else s.objects,
         flows := s.flows[f := Deleting(s.flows[f].keys[1..])])
    case Crash(f) => s.(flows := s.flows - {f})
  }

  datatype Run = Run(states: seq<State>, steps: seq<Step>)

  ghost predicate IsRun(r: Run) {
    && |r.states| == |r.steps| + 1
    && r.states[0] == Init()
    && forall i :: 0 <= i < |r.steps| ==>
         Enabled(r.states[i], r.steps[i]) && r.states[i + 1] == Apply(r.states[i], r.steps[i])
  }

  // ----------------------------------------------------------------- invariant

  predicate Names(s: State, slot: Slot, k: Key) { slot in s.rows && s.rows[slot] == k }

  predicate Brings(s: State, f: Flow, k: Key) { f in s.flows && Uploading(s.flows[f]) && s.flows[f].key == k }

  predicate Drops(s: State, f: Flow, k: Key) { f in s.flows && s.flows[f].Deleting? && k in s.flows[f].keys }

  /** The flow has read this key and will delete its object when it is done. */
  predicate Recalls(s: State, f: Flow, k: Key) {
    f in s.flows && match s.flows[f]
                    case Seen(_, _, previous) => previous == Some(k)
                    case Listed(_, keys) => k in keys
                    case _ => false
  }

  /** What the flow's own write takes the name away from. */
  predicate Overwrites(p: Progress, slot: Slot)
    requires p.Seen? || p.Listed?
  {
    if p.Seen? then slot == p.slot else InGroup(slot, JobPhotos(p.job))
  }

  ghost predicate RowsBacked(s: State) { forall slot, k :: Names(s, slot, k) ==> k in s.objects && k.id in s.used }

  ghost predicate OneRowPerKey(s: State) {
    forall a, b, k :: Names(s, a, k) && Names(s, b, k) ==> a == b
  }

  ghost predicate UploadsOk(s: State) {
    && (forall f, k :: Brings(s, f, k) ==> k.id in s.used && (!s.flows[f].Checked? ==> k in s.objects))
    && (forall f, g, k :: Brings(s, f, k) && Brings(s, g, k) ==> f == g)
    && (forall f, slot, k :: Brings(s, f, k) ==> !Names(s, slot, k))
  }

  /** Nothing waiting to be deleted is named by a row, or about to be. */
  ghost predicate DeletesOk(s: State) {
    && (forall f, slot, k :: Drops(s, f, k) ==> !Names(s, slot, k))
    && (forall f, g, k :: Drops(s, f, k) ==> !Brings(s, g, k))
    && (forall f, k :: Drops(s, f, k) ==> k.id in s.used)
  }

  /** A key somebody has read may still be named, but only where they will write. */
  ghost predicate RecallsOk(s: State) {
    && (forall f, k :: Recalls(s, f, k) ==> k.id in s.used)
    && (forall f, g, k :: Recalls(s, f, k) ==> !Brings(s, g, k))
    && (forall f, slot, k :: Recalls(s, f, k) && Names(s, slot, k) ==> Overwrites(s.flows[f], slot))
  }

  ghost predicate Inv(s: State) {
    RowsBacked(s) && OneRowPerKey(s) && UploadsOk(s) && DeletesOk(s) && RecallsOk(s)
  }

  lemma BeginKeepsInv(s: State, step: Step)
    requires step.Begin? && Inv(s) && Enabled(s, step)
    ensures Inv(Apply(s, step))
  {
    var s' := Apply(s, step);
    var key := KeyFor(step.slot, step.id);
    forall slot, k ensures Names(s', slot, k) <==> Names(s, slot, k) {}
    forall f, k ensures Brings(s', f, k) <==> Brings(s, f, k) || (f == step.flow && k == key) {}
    forall f, k ensures Drops(s', f, k) <==> Drops(s, f, k) {}
    forall f, k ensures Recalls(s', f, k) <==> Recalls(s, f, k) {}
    assert key.id == step.id;
  }

  lemma WriteRowKeepsInv(s: State, step: Step)
    requires step.WriteRow? && Inv(s) && Enabled(s, step)
    ensures Inv(Apply(s, step))
  {
    var s' := Apply(s, step);
    var p := s.flows[step.flow];
    assert Brings(s, step.flow, p.key);
    forall slot, k
      ensures Names(s', slot, k) <==> (slot == p.slot && k == p.key) || (slot != p.slot && Names(s, slot, k))
    {
    }
    forall f, k ensures Brings(s', f, k) <==> f != step.flow && Brings(s, f, k) {}
    forall f, k ensures Recalls(s', f, k) <==> f != step.flow && Recalls(s, f, k) {}
    forall f, k ensures Drops(s', f, k) ==>
        (f != step.flow && Drops(s, f, k)) || (f == step.flow && Recalls(s, f, k)) {}
  }

  /** Looking: what is seen is named now, and nowhere else than where it will go. */
  lemma LookKeepsInv(s: State, step: Step)
    requires step.SeeRow? || step.ListKeys?
    requires Inv(s) && Enabled(s, step)
    ensures Inv(Apply(s, step))
  {
    var s' := Apply(s, step);
    forall slot, k ensures Names(s', slot, k) <==> Names(s, slot, k) {}
    forall f, k ensures Brings(s', f, k) <==> Brings(s, f, k) {}
    forall f, k ensures Drops(s', f, k) <==> Drops(s, f, k) {}
    forall f, k | f != step.flow ensures Recalls(s', f, k) <==> Recalls(s, f, k) {}
    forall k | Recalls(s', step.flow, k) ensures SeenNow(s, s'.flows[step.flow], k) {
      SeenIsNamed(s, step, k);
    }
  }

  /** Some row the flow will write names the key. */
  ghost predicate SeenNow(s: State, p: Progress, k: Key)
    requires p.Seen? || p.Listed?
  {
    exists slot :: Names(s, slot, k) && Overwrites(p, slot)
  }

  lemma SeenIsNamed(s: State, step: Step, k: Key)
    requires step.SeeRow? || step.ListKeys?
    requires Enabled(s, step) && Recalls(Apply(s, step), step.flow, k)
    ensures SeenNow(s, Apply(s, step).flows[step.flow], k)
  {
    if step.SeeRow? {
      assert Names(s, s.flows[step.flow].slot, k);
    } else {
      var slot :| slot in RowsIn(s, JobPhotos(step.job)) && s.rows[slot] == k;
      assert Names(s, slot, k);
    }
  }

  lemma PutKeepsInv(s: State, step: Step)
    requires step.Put? && Inv(s) && Enabled(s, step)
    ensures Inv(Apply(s, step))
  {
    var s' := Apply(s, step);
    forall slot, k ensures Names(s', slot, k) <==> Names(s, slot, k) {}
    forall f, k ensures Brings(s', f, k) <==> Brings(s, f, k) {}
    forall f, k ensures Drops(s', f, k) <==> Drops(s, f, k) {}
    forall f, k ensures Recalls(s', f, k) <==> Recalls(s, f, k) {}
  }

  lemma RemoveKeepsInv(s: State, step: Step)
    requires step.RemoveRow? || step.Cancel? || step.ClearProfile?
    requires Inv(s) && Enabled(s, step)
    ensures Inv(Apply(s, step))
  {
    var s' := Apply(s, step);
    forall slot, k | Names(s', slot, k) ensures Names(s, slot, k) {}
    forall f, k ensures Brings(s', f, k) <==> Brings(s, f, k) {}
    forall f, k | Recalls(s', f, k) ensures Recalls(s, f, k) && s'.flows[f] == s.flows[f] {}
    forall f, k | Drops(s', f, k) ensures Drops(s, f, k) || Unnamed(s, s', k) {
      if !Drops(s, f, k) { RemovedKey(s, step, f, k); }
    }
  }

  /** No row names the key any more, and nobody is bringing it. */
  ghost predicate Unnamed(s: State, s': State, k: Key) {
    k.id in s.used && (forall slot :: !Names(s', slot, k)) && (forall f :: !Brings(s, f, k))
  }

  lemma RemovedKey(s: State, step: Step, f: Flow, k: Key)
    requires step.RemoveRow? || step.Cancel? || step.ClearProfile?
    requires Inv(s) && Enabled(s, step) && Drops(Apply(s, step), f, k) && !Drops(s, f, k)
    ensures Unnamed(s, Apply(s, step), k)
    ensures step.Cancel? ==> Recalls(s, step.flow, k)
    ensures step.RemoveRow? ==> Names(s, step.slot, k)
  {
    var s' := Apply(s, step);
    forall slot, j | Names(s', slot, j) ensures Names(s, slot, j) {}
    match step
    case RemoveRow(_, slot) => assert Names(s, slot, k);
    case Cancel(g) => assert Recalls(s, g, k);
    case _ =>
  }

  lemma DeleteKeepsInv(s: State, step: Step)
    requires step.DeleteNext? || step.Crash?
    requires Inv(s) && Enabled(s, step)
    ensures Inv(Apply(s, step))
  {
    var s' := Apply(s, step);
    if step.DeleteNext? { assert Drops(s, step.flow, s.flows[step.flow].keys[0]); }
    forall slot, k ensures Names(s', slot, k) <==> Names(s, slot, k) {}
    forall f, k | Brings(s', f, k) ensures Brings(s, f, k) {}
    forall f, k | Drops(s', f, k) ensures Drops(s, f, k) {}
    forall f, k | Recalls(s', f, k) ensures Recalls(s, f, k) && s'.flows[f] == s.flows[f] {}
  }

  lemma StepKeepsInv(s: State, step: Step)
    requires Inv(s) && Enabled(s, step)
    ensures Inv(Apply(s, step))
  {
    match step
    case Begin(_, _, _) => BeginKeepsInv(s, step);
    case Put(_) => PutKeepsInv(s, step);
    case SeeRow(_) => LookKeepsInv(s, step);
    case WriteRow(_) => WriteRowKeepsInv(s, step);
    case RemoveRow(_, _) => RemoveKeepsInv(s, step);
    case ClearProfile(_, _) => RemoveKeepsInv(s, step);
    case ListKeys(_, _, _) => LookKeepsInv(s, step);
    case Cancel(_) => RemoveKeepsInv(s, step);
    case DeleteNext(_, _) => DeleteKeepsInv(s, step);
    case Crash(_) => DeleteKeepsInv(s, step);
  }

  lemma {:induction false} RunKeepsInv(r: Run, n: nat)
    requires IsRun(r) && n < |r.states|
    ensures Inv(r.states[n])
  {
    if n > 0 {
      RunKeepsInv(r, n - 1);
      StepKeepsInv(r.states[n - 1], r.steps[n - 1]);
    }
  }

  // ------------------------------------------------------------- main results

  /** No committed row ever names an object that is not there, whatever is
    * interleaved and wherever it dies. */
  lemma NoRowDangles(r: Run, n: nat, slot: Slot)
    requires IsRun(r) && n < |r.states| && slot in r.states[n].rows
    ensures r.states[n].rows[slot] in r.states[n].objects
  {
    RunKeepsInv(r, n);
    assert Names(r.states[n], slot, r.states[n].rows[slot]);
  }

  /** Stored, and known to nobody. */
  ghost predicate Orphan(s: State, k: Key) {
    && k in s.objects && k.id in s.used
    && (forall slot :: !Names(s, slot, k))
    && (forall f :: !Brings(s, f, k) && !Drops(s, f, k) && !Recalls(s, f, k))
  }

  lemma StepKeepsOrphan(s: State, step: Step, k: Key)
    requires Inv(s) && Enabled(s, step) && Orphan(s, k)
    ensures Orphan(Apply(s, step), k)
  {
    var s' := Apply(s, step);
    if step.DeleteNext? { assert !Drops(s, step.flow, k); }
    if step.WriteRow? { assert !Brings(s, step.flow, k); }
    forall slot ensures !Names(s', slot, k) { assert !Names(s, slot, k); }
    forall f ensures !Brings(s', f, k) && !Drops(s', f, k) && !Recalls(s', f, k) {
      assert !Brings(s, f, k) && !Drops(s, f, k) && !Recalls(s, f, k);
      if Drops(s', f, k) && (step.RemoveRow? || step.Cancel?) { RemovedKey(s, step, f, k); }
      if Recalls(s', f, k) && (step.SeeRow? || step.ListKeys?) { SeenIsNamed(s, step, k); }
    }
  }

  /** An orphan is never found again. */
  lemma {:induction false} OrphanForever(r: Run, i: nat, j: nat, k: Key)
    requires IsRun(r) && i <= j < |r.states| && Orphan(r.states[i], k)
    ensures Orphan(r.states[j], k)
    decreases j
  {
    if i < j {
      OrphanForever(r, i, j - 1, k);
      RunKeepsInv(r, j - 1);
      StepKeepsOrphan(r.states[j - 1], r.steps[j - 1], k);
    }
  }

  /** Whatever the row held, clearing it returns no key: the column has just been
    * set to NULL. Setting it, which looks first, returns exactly the key displaced. */
  lemma WhatUpdatesReturn(rows: map<Slot, Key>, slot: Slot, key: Key)
    ensures ClearPhoto(rows, slot).returned == None
    ensures Column(rows, slot) != Some(key) ==> SetPhoto(rows, slot, key).returned == Column(rows, slot)
    ensures Column(SetPhoto(rows, slot, key).rows, slot) == Some(key)
            && Column(ClearPhoto(rows, slot).rows, slot) == None
  {
  }

  /** A key that loses its row, and that nobody has read, is nobody's any more. */
  lemma DroppedWithTheRow(s: State, s': State, slot: Slot, k: Key)
    requires Inv(s) && Names(s, slot, k) && !Names(s', slot, k) && k in s'.objects && s'.used == s.used
    requires forall x :: Names(s', x, k) ==> Names(s, x, k)
    requires forall f :: !Recalls(s', f, k)
    requires forall f :: Brings(s', f, k) ==> Brings(s, f, k)
    requires forall f :: Drops(s', f, k) ==> Drops(s, f, k)
    ensures Orphan(s', k)
  {
    forall x ensures !Names(s', x, k) { assert Names(s', x, k) ==> Names(s, x, k); }
    forall f ensures !Brings(s', f, k) && !Drops(s', f, k) {
      assert Brings(s', f, k) ==> Brings(s, f, k);
      assert Drops(s', f, k) ==> Drops(s, f, k);
    }
  }

  /** So removing a profile photo leaves its object behind, for good, unless a
    * replacement that is under way has read the key: the remover deletes the key it is
    * given, and it is given none. */
  lemma ClearedProfileLeaks(r: Run, i: nat, f: Flow, c: Contractor)
    requires IsRun(r) && i < |r.steps| && r.steps[i] == ClearProfile(f, c)
    requires Profile(c) in r.states[i].rows
    requires forall g :: !Recalls(r.states[i], g, r.states[i].rows[Profile(c)])
    ensures Orphan(r.states[i + 1], r.states[i].rows[Profile(c)])
  {
    var s, k := r.states[i], r.states[i].rows[Profile(c)];
    var s' := r.states[i + 1];
    RunKeepsInv(r, i);
    WhatUpdatesReturn(s.rows, Profile(c), k);
    assert s'.flows == s.flows[f := Deleting([])];
    assert Names(s, Profile(c), k);
    forall g ensures !Recalls(s', g, k) { assert !Recalls(s, g, k); }
    DroppedWithTheRow(s, s', Profile(c), k);
  }

  /** Replacing a profile photo drops the object it displaces exactly if its statement
    * saw that one; and if nobody did, the object is left behind for good. */
  lemma ReplacementDropsIff(r: Run, i: nat, f: Flow, c: Contractor)
    requires IsRun(r) && i < |r.steps| && r.steps[i] == WriteRow(f) && r.states[i].flows[f].slot == Profile(c)
    requires Profile(c) in r.states[i].rows
    ensures Drops(r.states[i + 1], f, r.states[i].rows[Profile(c)]) <==>
              r.states[i].flows[f].previous == Some(r.states[i].rows[Profile(c)])
    ensures (forall g :: !Recalls(r.states[i], g, r.states[i].rows[Profile(c)])) ==>
              Orphan(r.states[i + 1], r.states[i].rows[Profile(c)])
  {
    var s, k := r.states[i], r.states[i].rows[Profile(c)];
    var s' := r.states[i + 1];
    var p := s.flows[f];
    RunKeepsInv(r, i);
    assert Brings(s, f, p.key) && Names(s, Profile(c), k) && !Names(s, Profile(c), p.key);
    if forall g :: !Recalls(s, g, k) {
      forall g ensures !Recalls(s', g, k) { assert !Recalls(s, g, k); }
      forall g ensures Drops(s', g, k) ==> Drops(s, g, k) { assert !Recalls(s, f, k); }
      DroppedWithTheRow(s, s', Profile(c), k);
    }
  }

  /** Two replacements that both look before either writes: the object of the one that
    * writes first is left behind for good. */
  lemma OverlappingReplacementsLeak(s: State, f: Flow, g: Flow, c: Contractor, first: Key, second: Key)
      returns (s1: State, s2: State, s3: State, s4: State)
    requires Inv(s) && f != g && f in s.flows && g in s.flows
    requires s.flows[f] == Stored(Profile(c), first) && s.flows[g] == Stored(Profile(c), second)
    ensures Enabled(s, SeeRow(f)) && s1 == Apply(s, SeeRow(f))
    ensures Enabled(s1, SeeRow(g)) && s2 == Apply(s1, SeeRow(g))
    ensures Enabled(s2, WriteRow(f)) && s3 == Apply(s2, WriteRow(f))
    ensures Enabled(s3, WriteRow(g)) && s4 == Apply(s3, WriteRow(g))
    ensures Orphan(s4, first) && Names(s4, Profile(c), second)
  {
    assert Brings(s, f, first) && Brings(s, g, second);
    s1 := Apply(s, SeeRow(f));
    s2 := Apply(s1, SeeRow(g));
    s3 := Apply(s2, WriteRow(f));
    s4 := Apply(s3, WriteRow(g));
    LookKeepsInv(s, SeeRow(f));
    LookKeepsInv(s1, SeeRow(g));
    WriteRowKeepsInv(s2, WriteRow(f));
    NobodyReadsWhatIsComing(s, s1, s2, s3, f, g, c, first);
    FirstIsLeft(s3, s4, g, c, first, second);
  }

  lemma FirstIsLeft(s: State, s': State, g: Flow, c: Contractor, first: Key, second: Key)
    requires Inv(s) && Enabled(s, WriteRow(g)) && s' == Apply(s, WriteRow(g)) && first != second
    requires s.flows[g].slot == Profile(c) && s.flows[g].key == second && Names(s, Profile(c), first)
    requires forall h :: !Recalls(s, h, first)
    ensures Orphan(s', first) && Names(s', Profile(c), second)
  {
    assert Brings(s, g, second);
    forall h ensures Drops(s', h, first) ==> Drops(s, h, first) { assert !Recalls(s, g, first); }
    forall h ensures !Recalls(s', h, first) { assert !Recalls(s, h, first); }
    DroppedWithTheRow(s, s', Profile(c), first);
  }

  lemma NobodyReadsWhatIsComing(s: State, s1: State, s2: State, s3: State, f: Flow, g: Flow, c: Contractor, key: Key)
    requires Inv(s) && f != g && f in s.flows && g in s.flows
    requires s.flows[f] == Stored(Profile(c), key) && s.flows[g].Stored? && s.flows[g].slot == Profile(c)
    requires s1 == Apply(s, SeeRow(f)) && s2 == Apply(s1, SeeRow(g)) && s3 == Apply(s2, WriteRow(f))
    ensures forall h :: !Recalls(s3, h, key)
  {
    assert Brings(s, f, key) && !Names(s, Profile(c), key);
    forall h ensures !Recalls(s3, h, key) { assert !Recalls(s, h, key); }
  }

  // ------------------------------------- when is a displaced profile photo dropped?

  /** The replacements that have looked and not yet written. */
  ghost function Replacing(s: State, c: Contractor): set<Flow> {
    set f | f in s.flows && s.flows[f].Seen? && s.flows[f].slot == Profile(c)
  }

  ghost predicate ReplacingAtMost(r: Run, c: Contractor, k: nat) {
    forall i :: 0 <= i < |r.states| ==> |Replacing(r.states[i], c)| <= k
  }

  /** Each replacement goes on to delete the photo it displaces, if there is one. */
  ghost predicate DropsWhatItDisplaces(s: State, step: Step, s': State, c: Contractor) {
    step.WriteRow? && step.flow in Replacing(s, c) && Profile(c) in s.rows ==>
      Drops(s', step.flow, s.rows[Profile(c)])
  }

  ghost predicate AllDisplacedDropped(r: Run, c: Contractor) {
    && |r.steps| < |r.states|
    && forall i :: 0 <= i < |r.steps| ==> DropsWhatItDisplaces(r.states[i], r.steps[i], r.states[i + 1], c)
  }

  /** What the replacements have seen is still there, unless there is nothing now. */
  ghost predicate SeenIsCurrent(s: State, c: Contractor) {
    Profile(c) in s.rows ==> forall f :: f in Replacing(s, c) ==> s.flows[f].previous == Some(s.rows[Profile(c)])
  }

  lemma OneAtATimeStep(s: State, step: Step, c: Contractor)
    requires Inv(s) && Enabled(s, step) && SeenIsCurrent(s, c) && |Replacing(s, c)| <= 1
    ensures SeenIsCurrent(Apply(s, step), c) && DropsWhatItDisplaces(s, step, Apply(s, step), c)
  {
    if step.WriteRow? && step.flow in Replacing(s, c) {
      var p, s' := s.flows[step.flow], Apply(s, step);
      assert Brings(s, step.flow, p.key);
      if Profile(c) in s.rows { assert Names(s, Profile(c), s.rows[Profile(c)]); }
      SubsetSize(Replacing(s', c) + {step.flow}, Replacing(s, c));
      assert |Replacing(s', c) + {step.flow}| == |Replacing(s', c)| + 1;
      assert Replacing(s', c) == {};
    }
  }

  lemma {:induction false} OneAtATimeDrops(r: Run, n: nat, c: Contractor)
    requires IsRun(r) && ReplacingAtMost(r, c, 1) && n < |r.states|
    ensures SeenIsCurrent(r.states[n], c)
    ensures forall i :: 0 <= i < n ==> DropsWhatItDisplaces(r.states[i], r.steps[i], r.states[i + 1], c)
  {
    if n > 0 {
      OneAtATimeDrops(r, n - 1, c);
      RunKeepsInv(r, n - 1);
      OneAtATimeStep(r.states[n - 1], r.steps[n - 1], c);
    }
  }

  ghost predicate TwoFlows(r: Run) { forall i :: 0 <= i < |r.states| ==> r.states[i].flows.Keys <= {0, 1} }

  lemma TwoFlowsOn(r: Run, step: Step) returns (r': Run)
    requires IsRun(r) && TwoFlows(r) && Enabled(End(r), step) && Apply(End(r), step).flows.Keys <= {0, 1}
    ensures IsRun(r') && TwoFlows(r') && End(r') == Apply(End(r), step)
    ensures r' == Run(r.states + [Apply(End(r), step)], r.steps + [step])
  {
    r' := Run(r.states + [Apply(End(r), step)], r.steps + [step]);
  }

  lemma UploadTo(r: Run, c: Contractor, f: Flow) returns (r': Run)
    requires IsRun(r) && TwoFlows(r) && f in {0, 1} && f !in End(r).flows && f !in End(r).used
    ensures IsRun(r') && TwoFlows(r') && End(r').rows == End(r).rows && End(r').used == End(r).used + {f}
    ensures End(r').flows == End(r).flows[f := Stored(Profile(c), ContractorKey(c, f))]
  {
    r' := TwoFlowsOn(r, Begin(f, Profile(c), f));
    r' := TwoFlowsOn(r', Put(f));
  }

  /** From the empty store: both upload and look, one writes, and then the other, with
    * nothing to delete although it displaces the first one's photo. */
  lemma TwoReplacements(c: Contractor) returns (r: Run)
    ensures IsRun(r) && ReplacingAtMost(r, c, 2) && !AllDisplacedDropped(r, c)
  {
    r := Run([Init()], []);
    r := UploadTo(r, c, 0);
    r := UploadTo(r, c, 1);
    r := TwoFlowsOn(r, SeeRow(0));
    r := TwoFlowsOn(r, SeeRow(1));
    r := TwoFlowsOn(r, WriteRow(0));
    var n := |r.steps|;
    r := TwoFlowsOn(r, WriteRow(1));
    assert !DropsWhatItDisplaces(r.states[n], r.steps[n], r.states[n + 1], c);
    forall i | 0 <= i < |r.states| ensures |Replacing(r.states[i], c)| <= 2 {
      SubsetSize(Replacing(r.states[i], c), {0, 1});
    }
  }

  /** In every run with at most `k` replacements of this photo between looking and
    * writing, each deletes what it displaces. */
  ghost predicate AlwaysDropped(c: Contractor, k: nat) {
    forall r :: IsRun(r) && ReplacingAtMost(r, c, k) ==> AllDisplacedDropped(r, c)
  }

  /** Exactly if replacements do not overlap. */
  lemma AlwaysDroppedIff(c: Contractor, k: nat)
    ensures AlwaysDropped(c, k) <==> k <= 1
  {
    if k <= 1 {
      forall r | IsRun(r) && ReplacingAtMost(r, c, k) ensures AllDisplacedDropped(r, c) {
        OneAtATimeDrops(r, |r.steps|, c);
      }
    } else {
      var r := TwoReplacements(c);
      assert ReplacingAtMost(r, c, k);
    }
  }

  // ------------------------------------------------------------ the photo limits

  ghost predicate Capped(s: State, g: Group, inFlight: nat) {
    |RowsIn(s, g)| + |UploadsIn(s, g)| <= Limit(g) - 1 + inFlight
  }

  lemma StepKeepsCap(s: State, step: Step, g: Group, inFlight: nat)
    requires inFlight >= 1 && Enabled(s, step) && Capped(s, g, inFlight)
    requires |UploadsIn(Apply(s, step), g)| <= inFlight
    ensures Capped(Apply(s, step), g, inFlight)
  {
    match step
    case Begin(f, slot, id) => BeginKeepsCap(s, step, g, inFlight);
    case WriteRow(f) => WriteRowKeepsCap(s, f, g);
    case _ =>
      var s' := Apply(s, step);
      assert RowsIn(s', g) <= RowsIn(s, g);
      assert UploadsIn(s', g) <= UploadsIn(s, g);
      SubsetSize(RowsIn(s', g), RowsIn(s, g));
      SubsetSize(UploadsIn(s', g), UploadsIn(s, g));
  }

  lemma BeginKeepsCap(s: State, step: Step, g: Group, inFlight: nat)
    requires step.Begin? && Enabled(s, step) && Capped(s, g, inFlight)
    requires |UploadsIn(Apply(s, step), g)| <= inFlight
    ensures Capped(Apply(s, step), g, inFlight)
  {
    var s' := Apply(s, step);
    assert RowsIn(s', g) == RowsIn(s, g);
    if !InGroup(step.slot, g) { assert UploadsIn(s', g) == UploadsIn(s, g); }
  }

  lemma WriteRowKeepsCap(s: State, f: Flow, g: Group)
    requires Enabled(s, WriteRow(f))
    ensures |RowsIn(RowWritten(s, f), g)| + |UploadsIn(RowWritten(s, f), g)| <= |RowsIn(s, g)| + |UploadsIn(s, g)|
  {
    RowsAfterWrite(s, f, g);
    UploadsAfterWrite(s, f, g);
  }

  lemma RowsAfterWrite(s: State, f: Flow, g: Group)
    requires Enabled(s, WriteRow(f))
    ensures |RowsIn(RowWritten(s, f), g)| <= |RowsIn(s, g)| + if InGroup(s.flows[f].slot, g) then 1 else 0
  {
    var slot, s' := s.flows[f].slot, RowWritten(s, f);
    assert s'.rows.Keys == s.rows.Keys + {slot};
    var bound := RowsIn(s, g) + if InGroup(slot, g) then {slot} else {};
    forall x | x in RowsIn(s', g) ensures x in bound {}
    SubsetSize(RowsIn(s', g), bound);
  }

  lemma UploadsAfterWrite(s: State, f: Flow, g: Group)
    requires Enabled(s, WriteRow(f))
    ensures |UploadsIn(RowWritten(s, f), g)| == |UploadsIn(s, g)| - if InGroup(s.flows[f].slot, g) then 1 else 0
  {
    var after := RowWritten(s, f).flows;
    assert forall h :: h in after && h != f ==> h in s.flows && after[h] == s.flows[h];
    if InGroup(s.flows[f].slot, g) {
      assert f in UploadsIn(s, g);
      assert UploadsIn(RowWritten(s, f), g) == UploadsIn(s, g) - {f};
    } else {
      assert UploadsIn(RowWritten(s, f), g) == UploadsIn(s, g);
    }
  }

  /** The check comes before the insert, so the limit is kept by serial uploads and
    * overshot by at most one photo for each further upload in flight. */
  lemma {:induction false} PhotoCount(r: Run, n: nat, g: Group, inFlight: nat)
    requires IsRun(r) && n < |r.states| && inFlight >= 1
    requires InFlight(r, g, inFlight)
    ensures |RowsIn(r.states[n], g)| + |UploadsIn(r.states[n], g)| <= Limit(g) - 1 + inFlight
  {
    if n > 0 {
      PhotoCount(r, n - 1, g, inFlight);
      assert r.states[n] == Apply(r.states[n - 1], r.steps[n - 1]);
      StepKeepsCap(r.states[n - 1], r.steps[n - 1], g, inFlight);
    } else {
      assert RowsIn(Init(), g) == {} && UploadsIn(Init(), g) == {};
    }
  }

  // ------------------------------------------------------ how far past the limit

  ghost predicate InFlight(r: Run, g: Group, k: nat) {
    forall i :: 0 <= i < |r.states| ==> |UploadsIn(r.states[i], g)| <= k
  }

  function End(r: Run): State
    requires |r.states| == |r.steps| + 1
  {
    r.states[|r.steps|]
  }

  lemma Extended(r: Run, step: Step, g: Group, k: nat) returns (r': Run)
    requires IsRun(r) && Enabled(End(r), step) && InFlight(r, g, k)
    requires |UploadsIn(Apply(End(r), step), g)| <= k
    ensures IsRun(r') && InFlight(r', g, k) && End(r') == Apply(End(r), step)
  {
    r' := Run(r.states + [Apply(End(r), step)], r.steps + [step]);
    forall i | 0 <= i < |r'.states| ensures |UploadsIn(r'.states[i], g)| <= k {
      assert i < |r.states| ==> r'.states[i] == r.states[i];
    }
  }

  function SlotIn(g: Group, id: PhotoId): (slot: Slot)
    ensures InGroup(slot, g) && IsSlotFor(slot, id) && !slot.Profile?
    ensures forall h :: InGroup(slot, h) ==> h == g
  {
    match g
    case JobPhotos(j) => OfJob(j, id)
    case WorkPhotos(c) => Work(c, id)
  }

  /** Uploads `0..written` are done, `written..begun` have passed the check. */
  ghost predicate Staged(s: State, g: Group, written: nat, begun: nat) {
    && s.used == Below(begun) && written <= begun
    && (forall i: PhotoId :: i < written ==> SlotIn(g, i) in s.rows)
    && (forall slot :: slot in s.rows ==> !slot.Profile? && slot.id < written && slot == SlotIn(g, slot.id))
    && (forall f: Flow :: f in s.flows <==> f < begun)
    && (forall f: Flow :: f in s.flows && f < written ==> s.flows[f].Deleting?)
    && (forall f: Flow :: f in s.flows && written <= f ==> s.flows[f] == Checked(SlotIn(g, f), KeyFor(SlotIn(g, f), f)))
  }

  lemma {:induction false} StagedRows(s: State, g: Group, written: nat, begun: nat)
    requires Staged(s, g, written, begun)
    ensures |RowsIn(s, g)| == written
  {
    SlotsBelow(g, written);
    assert RowsIn(s, g) == SlotsOf(g, written);
  }

  ghost function SlotsOf(g: Group, n: nat): set<Slot> { set i: PhotoId | i in Below(n) :: SlotIn(g, i) }

  lemma {:induction false} SlotsBelow(g: Group, n: nat)
    ensures |SlotsOf(g, n)| == n
  {
    if n > 0 {
      SlotsBelow(g, n - 1);
      assert SlotsOf(g, n) == SlotsOf(g, n - 1) + {SlotIn(g, n - 1)};
      assert SlotIn(g, n - 1) !in SlotsOf(g, n - 1);
    }
  }

  lemma BeginOneMore(r: Run, g: Group, written: nat, begun: nat, k: nat) returns (r': Run)
    requires IsRun(r) && InFlight(r, g, k) && Staged(End(r), g, written, begun)
    requires written < Limit(g) && begun + 1 - written <= k
    ensures IsRun(r') && InFlight(r', g, k) && Staged(End(r'), g, written, begun + 1)
  {
    var s, step := End(r), Begin(begun, SlotIn(g, begun), begun);
    StagedRows(s, g, written, begun);
    assert Enabled(s, step);
    var next := Apply(s, step);
    assert Below(begun + 1) == Below(begun) + {begun};
    WithinSize(UploadsIn(next, g), written, begun + 1);
    r' := Extended(r, step, g, k);
  }

  lemma WriteOneMore(r: Run, g: Group, written: nat, begun: nat, k: nat) returns (r': Run)
    requires IsRun(r) && InFlight(r, g, k) && Staged(End(r), g, written, begun) && written < begun
    requires begun - written <= k
    ensures IsRun(r') && InFlight(r', g, k) && Staged(End(r'), g, written + 1, begun)
  {
    var s := End(r);
    var put, seen, done := WriteStages(s, g, written, begun);
    WithinSize(UploadsIn(put, g), written, begun);
    r' := Extended(r, Put(written), g, k);
    WithinSize(UploadsIn(seen, g), written, begun);
    r' := Extended(r', SeeRow(written), g, k);
    WithinSize(UploadsIn(done, g), written + 1, begun);
    r' := Extended(r', WriteRow(written), g, k);
  }

  lemma WriteStages(s: State, g: Group, written: nat, begun: nat) returns (put: State, seen: State, done: State)
    requires Staged(s, g, written, begun) && written < begun
    ensures Enabled(s, Put(written)) && put == Apply(s, Put(written))
    ensures Enabled(put, SeeRow(written)) && seen == Apply(put, SeeRow(written))
    ensures Enabled(seen, WriteRow(written)) && done == Apply(seen, WriteRow(written))
    ensures forall f :: f in UploadsIn(put, g) || f in UploadsIn(seen, g) ==> written <= f < begun
    ensures Staged(done, g, written + 1, begun)
  {
    put := Apply(s, Put(written));
    seen := Apply(put, SeeRow(written));
    done := Apply(seen, WriteRow(written));
  }

  /** One by one until one short of the limit; then `k` checks, and then `k` writes. */
  lemma {:induction false} Crowding(g: Group, written: nat, begun: nat, k: nat) returns (r: Run)
    requires k >= 1 && written <= begun <= written + k && begun <= Limit(g) - 1 + k
    ensures IsRun(r) && InFlight(r, g, k) && Staged(End(r), g, written, begun)
    decreases written + begun
  {
    if begun == 0 {
      r := Run([Init()], []);
      assert UploadsIn(Init(), g) == {};
    } else if written < begun && written < Limit(g) {
      r := Crowding(g, written, begun - 1, k);
      r := BeginOneMore(r, g, written, begun - 1, k);
    } else {
      r := Crowding(g, written - 1, begun, k);
      r := WriteOneMore(r, g, written - 1, begun, k);
    }
  }

  /** In every run with at most `k` uploads in flight there are at most `most` photos. */
  ghost predicate NeverMore(g: Group, k: nat, most: nat) {
    forall r, n :: IsRun(r) && InFlight(r, g, k) && 0 <= n < |r.states| ==> |RowsIn(r.states[n], g)| <= most
  }

  /** The bound is reached from an empty store, for jobs and listings alike. */
  lemma CrowdReachesTheBound(g: Group, k: nat) returns (r: Run)
    requires k >= 1
    ensures IsRun(r) && InFlight(r, g, k) && |RowsIn(End(r), g)| == Limit(g) - 1 + k
  {
    var n := Limit(g) - 1 + k;
    r := Crowding(g, n, n, k);
    StagedRows(End(r), g, n, n);
  }

  /** The limit, and exactly when it is kept: the most photos there can be is one
    * short of it and then one for each upload that may be in flight. */
  lemma PhotoLimitIff(g: Group, k: nat, most: nat)
    ensures k >= 1 ==> (NeverMore(g, k, most) <==> Limit(g) - 1 + k <= most)
    ensures NeverMore(g, k, Limit(g)) <==> k <= 1
  {
    if k >= 1 {
      NeverMoreIff(g, k, most);
      NeverMoreIff(g, k, Limit(g));
    } else {
      NeverMoreIff(g, 1, Limit(g));
      assert forall r :: InFlight(r, g, 0) ==> InFlight(r, g, 1);
    }
  }

  /** With uploads one at a time: eight photos to a job, twelve to a listing's work. */
  lemma LimitsAre(j: Job, c: Contractor, most: nat)
    ensures NeverMore(JobPhotos(j), 1, most) <==> most >= 8
    ensures NeverMore(WorkPhotos(c), 1, most) <==> most >= 12
  {
    PhotoLimitIff(JobPhotos(j), 1, most);
    PhotoLimitIff(WorkPhotos(c), 1, most);
  }

  lemma NeverMoreIff(g: Group, k: nat, most: nat)
    requires k >= 1
    ensures NeverMore(g, k, most) <==> Limit(g) - 1 + k <= most
  {
    if Limit(g) - 1 + k <= most {
      forall r, n | IsRun(r) && InFlight(r, g, k) && 0 <= n < |r.states| ensures |RowsIn(r.states[n], g)| <= most {
        PhotoCount(r, n, g, k);
      }
    } else {
      var r := CrowdReachesTheBound(g, k);
      assert |RowsIn(r.states[|r.steps|], g)| > most;
    }
  }

  // ------------------------------------------------------------------ the flows

  /** A step that cannot be taken changes nothing. */
  ghost function Next(s: State, step: Step): State { if Enabled(s, step) then Apply(s, step) else s }

  ghost function Ran(s: State, steps: seq<Step>): State {
    if steps == [] then s else Next(Ran(s, steps[..|steps| - 1]), steps[|steps| - 1])
  }

  lemma RanMore(s: State, steps: seq<Step>, step: Step)
    ensures Ran(s, steps + [step]) == Next(Ran(s, steps), step)
  {
    assert (steps + [step])[..|steps|] == steps;
  }

  lemma {:induction false} RanKeepsInv(s: State, steps: seq<Step>)
    requires Inv(s)
    ensures Inv(Ran(s, steps))
  {
    if steps != [] {
      RanKeepsInv(s, steps[..|steps| - 1]);
      var before, step := Ran(s, steps[..|steps| - 1]), steps[|steps| - 1];
      if Enabled(before, step) { StepKeepsInv(before, step); }
    }
  }

  function GroupFor(slot: Slot): Option<Group> {
    match slot
    case Profile(_) => None
    case Work(c, _) => Some(WorkPhotos(c))
    case OfJob(j, _) => Some(JobPhotos(j))
  }

  lemma RoomInItsGroup(s: State, slot: Slot)
    ensures Room(s, slot) <==> GroupFor(slot).None? || |RowsIn(s, GroupFor(slot).value)| < Limit(GroupFor(slot).value)
  {
    assert forall g :: InGroup(slot, g) <==> GroupFor(slot) == Some(g);
  }

  datatype Outcome = Refused | Missing | Died | Finished

  /** Rows and objects, with the flows as they are written. Each takes the number of
    * writes it gets to before its process dies, and `reached` says which of its
    * deletes find the store answering. `steps` is what it did, as protocol steps. */
  class Gallery {
    var rows: map<Slot, Key>
    var objects: set<Key>
    var used: set<PhotoId>

    ghost function Value(): State
      reads this
    {
      State(rows, objects, map[], used)
    }

    /** Object, then row, then the object the row displaced. */
    method Upload(slot: Slot, id: PhotoId, writes: nat, reached: bool) returns (r: Outcome, ghost steps: seq<Step>)
      requires id !in used && IsSlotFor(slot, id)
      modifies this
      ensures Value() == Ran(old(Value()), steps)
      ensures r.Refused? <==> !Room(old(Value()), slot)
      ensures r.Refused? ==> rows == old(rows) && objects == old(objects)
      ensures rows == if r.Refused? || writes < 2 then old(rows) else old(rows)[slot := KeyFor(slot, id)]
      ensures r.Finished? ==> writes >= 2
      ensures objects ==
              if r.Refused? || writes == 0 then old(objects)
              else if writes >= 3 && reached && slot.Profile? && slot in old(rows)
                      && old(rows)[slot] != KeyFor(slot, id)
              then old(objects) + {KeyFor(slot, id)} - {old(rows)[slot]}
              else old(objects) + {KeyFor(slot, id)}
    {
      ghost var s0 := Value();
      RoomInItsGroup(s0, slot);
      steps := [];
      var g := GroupFor(slot);
      if g.Some? {
        var existing := |set x | x in rows && InGroup(x, g.value)|;
        assert existing == |RowsIn(s0, g.value)|;
        if existing >= Limit(g.value) { return Refused, steps; }
      }
      var key := KeyFor(slot, id);
      used := used + {id};
      if writes < 1 {
        steps := Steps3(s0, Begin(0, slot, id), Crash(0), Crash(0));
        return Died, steps;
      }
      objects := objects + {key};
      if writes < 2 {
        steps := Steps3(s0, Begin(0, slot, id), Put(0), Crash(0));
        return Died, steps;
      }
      var displaced := Record(slot, key);
      if writes >= 3 { Delete(displaced, reached); }
      steps := UploadSteps(s0, slot, id, writes >= 3 && reached);
      r := if displaced.Some? && writes < 3 then Died else Finished;
    }

    /** Writes the row, and returns the key it displaced. */
    method Record(slot: Slot, key: Key) returns (displaced: Option<Key>)
      modifies this`rows
      ensures rows == Recorded(old(rows), slot, key).rows && displaced == Recorded(old(rows), slot, key).returned
      ensures rows == old(rows)[slot := key]
      ensures displaced.Some? <==> slot.Profile? && slot in old(rows) && old(rows)[slot] != key
      ensures displaced.Some? ==> displaced.value == old(rows)[slot]
    {
      displaced := None;
      if slot.Profile? && slot in rows && rows[slot] != key { displaced := Some(rows[slot]); }
      rows := rows[slot := key];
    }

    /** Clears the row, and returns the key that its column holds then. */
    method Clear(slot: Slot) returns (returned: Option<Key>)
      modifies this`rows
      ensures rows == ClearPhoto(old(rows), slot).rows && returned == ClearPhoto(old(rows), slot).returned
      ensures rows == old(rows) - {slot} && returned == None
    {
      rows := rows - {slot};
      returned := Column(rows, slot);
    }

    /** Best effort: a store that cannot be reached keeps the object. */
    method Delete(key: Option<Key>, reached: bool)
      modifies this`objects
      ensures objects == if key.Some? && reached then old(objects) - {key.value} else old(objects)
    {
      if key.Some? && reached { objects := objects - {key.value}; }
    }

    /** The row goes; then the object whose key came back, and none ever does. */
    method ClearProfile(c: Contractor, reached: bool) returns (returned: Option<Key>, ghost steps: seq<Step>)
      modifies this
      ensures Value() == Ran(old(Value()), steps)
      ensures returned == None
      ensures rows == old(rows) - {Profile(c)} && objects == old(objects)
    {
      ghost var s0 := Value();
      returned := Clear(Profile(c));
      Delete(returned, reached);
      steps := Steps3(s0, Step.ClearProfile(0, c), DeleteNext(0, reached), Crash(0));
    }

    /** Row first, object after. */
    method Remove(slot: Slot, writes: nat, reached: bool) returns (r: Outcome, ghost steps: seq<Step>)
      requires !slot.Profile?
      modifies this
      ensures Value() == Ran(old(Value()), steps)
      ensures r.Missing? <==> slot !in old(rows)
      ensures r.Missing? ==> rows == old(rows) && objects == old(objects)
      ensures slot in old(rows) ==>
                && rows == (if writes == 0 then old(rows) else old(rows) - {slot})
                && objects == (if writes < 2 || !reached then old(objects) else old(objects) - {old(rows)[slot]})
    {
      steps := [];
      if slot !in rows { return Missing, steps; }
      if writes < 1 { return Died, steps; }
      var key := rows[slot];
      ghost var s0 := Value();
      rows := rows - {slot};
      if writes < 2 {
        steps := Steps3(s0, RemoveRow(0, slot), Crash(0), Crash(0));
        return Died, steps;
      }
      if reached { objects := objects - {key}; }
      steps := Steps3(s0, RemoveRow(0, slot), DeleteNext(0, reached), Crash(0));
      r := Finished;
    }

    /** A cancelled job loses its rows in one commit and then its objects one by one;
      * `reached` are the keys the store answers for. */
    method CancelJob(j: Job, writes: nat, reached: set<Key>) returns (r: Outcome, ghost steps: seq<Step>)
      modifies this
      ensures Value() == Ran(old(Value()), steps)
      ensures rows == if writes == 0 then old(rows) else old(rows) - RowsIn(old(Value()), JobPhotos(j))
      ensures objects <= old(objects)
      ensures forall k :: k in old(objects) && k !in KeysOf(old(Value()), j) ==> k in objects
      ensures r.Finished? ==> objects == old(objects) - (KeysOf(old(Value()), j) * reached)
    {
      steps := [];
      if writes < 1 { return Died, steps; }
      ghost var s0 := Value();
      var mine := set slot | slot in rows && InGroup(slot, JobPhotos(j));
      var keys := KeysAt(rows, mine);
      assert mine == RowsIn(s0, JobPhotos(j));
      rows := rows - mine;
      steps := CancelStep(s0, j, keys);
      assert keys[0..] == keys;
      var i := 0;
      while i < |keys| && i + 1 < writes
        invariant 0 <= i <= |keys| && rows == s0.rows - mine && used == s0.used
        invariant Ran(s0, steps) == Cancelling(s0, rows, objects, keys[i..])
        invariant objects == s0.objects - ((set k | k in keys[..i]) * reached)
      {
        steps := DeleteStep(s0, steps, rows, objects, keys[i..], keys[i] in reached);
        assert keys[i..][1..] == keys[i + 1..] && keys[..i + 1] == keys[..i] + [keys[i]];
        if keys[i] in reached { objects := objects - {keys[i]}; }
        i := i + 1;
      }
      RanMore(s0, steps, Crash(0));
      steps := steps + [Crash(0)];
      OnlyItsKeys(s0, j, keys, i, reached, objects);
      r := if i < |keys| then Died else Finished;
    }
  }

  ghost function Cancelling(s: State, rows: map<Slot, Key>, objects: set<Key>, left: seq<Key>): State {
    State(rows, objects, map[0 := Deleting(left)], s.used)
  }

  lemma CancelIs(s: State, j: Job, keys: seq<Key>)
    requires s.flows == map[] && forall k :: k in keys <==> k in KeysOf(s, j)
    ensures Next(Next(s, ListKeys(0, j, keys)), Cancel(0))
            == Cancelling(s, s.rows - RowsIn(s, JobPhotos(j)), s.objects, keys)
  {
    var listed := Apply(s, ListKeys(0, j, keys));
    assert listed.flows[0] == Listed(j, keys) && RowsIn(listed, JobPhotos(j)) == RowsIn(s, JobPhotos(j));
    assert Apply(listed, Cancel(0)).flows == map[0 := Deleting(keys)];
  }

  lemma CancelStep(s: State, j: Job, keys: seq<Key>) returns (steps: seq<Step>)
    requires s.flows == map[] && forall k :: k in keys <==> k in KeysOf(s, j)
    ensures Ran(s, steps) == Cancelling(s, s.rows - RowsIn(s, JobPhotos(j)), s.objects, keys)
  {
    CancelIs(s, j, keys);
    steps := [] + [ListKeys(0, j, keys)] + [Cancel(0)];
    RanMore(s, [], ListKeys(0, j, keys));
    RanMore(s, [] + [ListKeys(0, j, keys)], Cancel(0));
  }

  lemma DeleteIs(s: State, left: seq<Key>, hit: bool)
    requires s.flows == map[0 := Deleting(left)] && left != []
    ensures Next(s, DeleteNext(0, hit))
            == Cancelling(s, s.rows, if hit then s.objects - {left[0]} else s.objects, left[1..])
  {
    var next := Apply(s, DeleteNext(0, hit));
    assert next.flows == map[0 := Deleting(left[1..])];
  }

  lemma DeleteStep(s: State, steps: seq<Step>, rows: map<Slot, Key>, objects: set<Key>, left: seq<Key>, hit: bool)
      returns (more: seq<Step>)
    requires left != [] && Ran(s, steps) == Cancelling(s, rows, objects, left)
    ensures Ran(s, more) == Cancelling(s, rows, if hit then objects - {left[0]} else objects, left[1..])
  {
    var step := DeleteNext(0, hit);
    more := steps + [step];
    DeleteIs(Ran(s, steps), left, hit);
    RanMore(s, steps, step);
  }

  lemma OnlyItsKeys(s: State, j: Job, keys: seq<Key>, i: nat, reached: set<Key>, objects: set<Key>)
    requires i <= |keys| && (forall k :: k in keys <==> k in KeysOf(s, j))
    requires objects == s.objects - ((set k | k in keys[..i]) * reached)
    ensures forall k :: k in s.objects && k !in KeysOf(s, j) ==> k in objects
    ensures i == |keys| ==> objects == s.objects - (KeysOf(s, j) * reached)
  {
    if i == |keys| { assert keys[..i] == keys; }
  }

  ghost function KeysOf(s: State, j: Job): set<Key> { set slot | slot in RowsIn(s, JobPhotos(j)) :: s.rows[slot] }

  method KeysAt(rows: map<Slot, Key>, slots: set<Slot>) returns (keys: seq<Key>)
    requires slots <= rows.Keys
    ensures forall k :: k in keys <==> exists slot :: slot in slots && rows[slot] == k
  {
    keys := [];
    var todo := slots;
    while todo != {}
      invariant todo <= slots
      invariant forall k :: k in keys <==> exists slot :: slot in slots - todo && rows[slot] == k
      decreases todo
    {
      var slot :| slot in todo;
      keys := keys + [rows[slot]];
      todo := todo - {slot};
    }
  }

  lemma Steps3(s: State, a: Step, b: Step, c: Step) returns (steps: seq<Step>)
    ensures Ran(s, steps) == Next(Next(Next(s, a), b), c)
  {
    steps := [] + [a] + [b] + [c];
    RanMore(s, [], a);
    RanMore(s, [] + [a], b);
    RanMore(s, [] + [a] + [b], c);
  }

  /** A whole upload. */
  lemma UploadSteps(s: State, slot: Slot, id: PhotoId, reached: bool) returns (steps: seq<Step>)
    requires s.flows == map[] && id !in s.used && IsSlotFor(slot, id) && Room(s, slot)
    ensures var key := KeyFor(slot, id);
      var u := Recorded(s.rows, slot, key);
      Ran(s, steps) == State(u.rows,
                             Fewer(s.objects + {key}, ToDelete(u.returned), reached),
                             map[], s.used + {id})
  {
    steps := Steps3(s, Begin(0, slot, id), Put(0), SeeRow(0));
    RanMore(s, steps, WriteRow(0));
    steps := steps + [WriteRow(0)];
    var t := Ran(s, steps);
    UploadIs(s, slot, id, t);
    RanMore(s, steps, DeleteNext(0, reached));
    RanMore(s, steps + [DeleteNext(0, reached)], Crash(0));
    steps := steps + [DeleteNext(0, reached)] + [Crash(0)];
    Deleted(t, ToDelete(Recorded(s.rows, slot, KeyFor(slot, id)).returned), reached);
  }

  function Fewer(objects: set<Key>, left: seq<Key>, reached: bool): set<Key> {
    if left != [] && reached then objects - {left[0]} else objects
  }

  /** Deleting the key there is, if there is one, and being gone. */
  lemma Deleted(s: State, left: seq<Key>, reached: bool)
    requires s.flows == map[0 := Deleting(left)] && |left| <= 1
    ensures Next(Next(s, DeleteNext(0, reached)), Crash(0))
            == State(s.rows, Fewer(s.objects, left, reached), map[], s.used)
  {
  }

  /** With nothing else going on, the write displaces what it saw. */
  lemma UploadIs(s: State, slot: Slot, id: PhotoId, t: State)
    requires s.flows == map[] && id !in s.used && IsSlotFor(slot, id) && Room(s, slot)
    requires t == Next(Next(Next(Next(s, Begin(0, slot, id)), Put(0)), SeeRow(0)), WriteRow(0))
    ensures var u := Recorded(s.rows, slot, KeyFor(slot, id));
      t == State(u.rows, s.objects + {KeyFor(slot, id)}, map[0 := Deleting(ToDelete(u.returned))], s.used + {id})
  {
  }
}
