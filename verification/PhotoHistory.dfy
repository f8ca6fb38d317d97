/** What moves a photo row and a stored object, and where the photo at a place came
  * from: over any run of `Photos`. */
module PhotoHistory {
  import opened Prelude
  import opened Photos

  /** The step takes the row at this place away: its own removal, a cleared profile, or
    * the cancelling of its job. */
  ghost predicate Unlists(s: State, step: Step, slot: Slot) {
    match step
    case RemoveRow(_, x) => x == slot
    case ClearProfile(_, c) => slot == Profile(c)
    case Cancel(f) => f in s.flows && s.flows[f].Listed? && slot.OfJob? && slot.job == s.flows[f].job
    case _ => false
  }

  /** The step writes this key at this place. */
  predicate Lists(s: State, step: Step, slot: Slot, k: Key) {
    && step.WriteRow? && step.flow in s.flows && s.flows[step.flow].Seen?
    && s.flows[step.flow].slot == slot && s.flows[step.flow].key == k
  }

  lemma RowMoves(s: State, step: Step, slot: Slot, k: Key)
    requires Enabled(s, step)
    ensures Names(Apply(s, step), slot, k) <==>
              || Lists(s, step, slot, k)
              || (Names(s, slot, k) && !Unlists(s, step, slot)
                  && (step.WriteRow? ==> s.flows[step.flow].slot != slot))
  {
  }

  /** An object is stored by its upload, and goes only when a delete reaches it. */
  lemma ObjectMoves(s: State, step: Step, k: Key)
    requires Enabled(s, step)
    ensures k in Apply(s, step).objects <==>
              || (step.Put? && s.flows[step.flow].key == k)
              || (k in s.objects && !(step.DeleteNext? && step.reached && s.flows[step.flow].keys[0] == k))
  {
  }

  /** How far an upload is: not yet stored, stored, or about to write its row. */
  function Stage(p: Progress): nat {
    match p
    case Checked(_, _) => 1
    case Stored(_, _) => 2
    case Seen(_, _, _) => 3
    case _ => 0
  }

  predicate IsAt(s: State, f: Flow, slot: Slot, k: Key, stage: nat) {
    && f in s.flows && Uploading(s.flows[f])
    && s.flows[f].slot == slot && s.flows[f].key == k && Stage(s.flows[f]) == stage
  }

  /** An upload stores its object, looks at the row it will write, writes it, and then
    * has what it saw there to delete. */
  lemma UploadMoves(s: State, step: Step, f: Flow, slot: Slot, k: Key)
    requires Enabled(s, step)
    ensures IsAt(Apply(s, step), f, slot, k, 1) <==>
              || (IsAt(s, f, slot, k, 1) && step != Put(f) && step != Crash(f))
              || (step.Begin? && step.flow == f && step.slot == slot && k == KeyFor(slot, step.id))
    ensures IsAt(Apply(s, step), f, slot, k, 2) <==>
              || (IsAt(s, f, slot, k, 2) && step != SeeRow(f) && step != Crash(f))
              || (IsAt(s, f, slot, k, 1) && step == Put(f))
    ensures IsAt(Apply(s, step), f, slot, k, 3) <==>
              || (IsAt(s, f, slot, k, 3) && step != WriteRow(f) && step != Crash(f))
              || (IsAt(s, f, slot, k, 2) && step == SeeRow(f))
  {
  }

  /** Every photo shown at a place was uploaded for that place, by one upload that stored
    * it first: its key is made of the place's owner and the upload's own id. */
  lemma PhotoWasUploadedHere(r: Run, n: nat, slot: Slot, k: Key)
      returns (begun: nat, stored: nat, seen: nat, written: nat, f: Flow, id: PhotoId)
    requires IsRun(r) && n < |r.states| && Names(r.states[n], slot, k)
    ensures begun < stored < seen < written < n
    ensures r.steps[begun] == Begin(f, slot, id) && r.steps[stored] == Put(f)
    ensures r.steps[seen] == SeeRow(f) && r.steps[written] == WriteRow(f)
    ensures k == match slot case OfJob(j, _) => JobKey(j, id) case Profile(c) => ContractorKey(c, id)
                            case Work(c, _) => ContractorKey(c, id)
    ensures forall m :: written < m <= n ==> Names(r.states[m], slot, k)
  {
    forall m | 0 <= m < n && Names(r.states[m + 1], slot, k)
      ensures Names(r.states[m], slot, k) || Lists(r.states[m], r.steps[m], slot, k)
    {
      RowMoves(r.states[m], r.steps[m], slot, k);
    }
    written := TracedBack(r.states, r.steps, n, (s: State) => Names(s, slot, k),
                          (s: State, step: Step) => Lists(s, step, slot, k));
    f := r.steps[written].flow;
    seen := StageBefore(r, written, f, slot, k, 3);
    stored := StageBefore(r, seen, f, slot, k, 2);
    begun := StageBefore(r, stored, f, slot, k, 1);
    id := r.steps[begun].id;
  }

  predicate Enters(s: State, step: Step, f: Flow, slot: Slot, k: Key, stage: nat) {
    match stage
    case 1 => step.Begin? && step.flow == f && step.slot == slot && k == KeyFor(slot, step.id)
    case 2 => IsAt(s, f, slot, k, 1) && step == Put(f)
    case 3 => IsAt(s, f, slot, k, 2) && step == SeeRow(f)
    case _ => false
  }

  lemma StageBefore(r: Run, n: nat, f: Flow, slot: Slot, k: Key, stage: nat) returns (m: nat)
    requires IsRun(r) && n < |r.states| && 1 <= stage <= 3 && IsAt(r.states[n], f, slot, k, stage)
    ensures m < n && Enters(r.states[m], r.steps[m], f, slot, k, stage)
  {
    forall i | 0 <= i < n && IsAt(r.states[i + 1], f, slot, k, stage)
      ensures IsAt(r.states[i], f, slot, k, stage) || Enters(r.states[i], r.steps[i], f, slot, k, stage)
    {
      UploadMoves(r.states[i], r.steps[i], f, slot, k);
    }
    m := TracedBack(r.states, r.steps, n, (s: State) => IsAt(s, f, slot, k, stage),
                    (s: State, step: Step) => Enters(s, step, f, slot, k, stage));
  }

  // ---------------------------------------------------------------- what is deleted

  /** Some place shows this photo. */
  ghost predicate Shown(s: State, k: Key) { exists slot :: Names(s, slot, k) }

  ghost predicate Known(s: State, f: Flow, k: Key) { Recalls(s, f, k) || Drops(s, f, k) }

  lemma KnownMoves(s: State, step: Step, f: Flow, k: Key)
    requires Enabled(s, step) && Known(Apply(s, step), f, k)
    ensures Known(s, f, k) || Shown(s, k)
  {
    match step
    case SeeRow(g) => if g == f && Column(s.rows, s.flows[g].slot) == Some(k) { assert Names(s, s.flows[g].slot, k); }
    case RemoveRow(g, slot) => if s.rows[slot] == k { assert Names(s, slot, k); }
    case ListKeys(g, j, keys) =>
      if g == f && k in keys {
        var slot :| slot in RowsIn(s, JobPhotos(j)) && s.rows[slot] == k;
        assert Names(s, slot, k);
      }
    case _ =>
  }

  /** What a flow has read and not yet acted on: the photo a replacement found in its place,
    * or all those of a job about to be cancelled. */
  lemma RecallsMove(s: State, step: Step, f: Flow, k: Key)
    requires Enabled(s, step)
    ensures Recalls(Apply(s, step), f, k) <==>
              || (step == SeeRow(f) && s.flows[f].slot.Profile? && Names(s, s.flows[f].slot, k))
              || (step.ListKeys? && step.flow == f
                  && exists id :: OfJob(step.job, id) in s.rows && s.rows[OfJob(step.job, id)] == k)
              || (Recalls(s, f, k) && step !in {WriteRow(f), Cancel(f), Crash(f)})
  {
    if step.ListKeys? && step.flow == f {
      if k in step.keys {
        var slot :| slot in RowsIn(s, JobPhotos(step.job)) && s.rows[slot] == k;
        assert slot == OfJob(step.job, slot.id);
      }
      forall id | OfJob(step.job, id) in s.rows && s.rows[OfJob(step.job, id)] == k ensures k in step.keys {
        assert OfJob(step.job, id) in RowsIn(s, JobPhotos(step.job));
      }
    }
  }

  /** What a flow has to delete: the photo it replaced if it had seen it, the one it
    * removed, or those it listed before it cancelled the job; each until it has tried. */
  lemma DropsMove(s: State, step: Step, f: Flow, k: Key)
    requires Enabled(s, step)
    ensures Drops(Apply(s, step), f, k) <==>
              || (step == WriteRow(f) && s.flows[f].previous == Some(k) && s.flows[f].key != k)
              || (step.RemoveRow? && step.flow == f && s.rows[step.slot] == k)
              || (step == Cancel(f) && k in s.flows[f].keys)
              || (Drops(s, f, k) && step != Crash(f)
                  && (step.DeleteNext? && step.flow == f ==> k in s.flows[f].keys[1..]))
  {
  }

  /** No object is deleted but one that was shown before, and is shown no more. */
  lemma DeletedWasShown(r: Run, n: nat) returns (m: nat)
    requires IsRun(r) && n < |r.steps| && r.steps[n].DeleteNext?
    ensures m < n && Shown(r.states[m], r.states[n].flows[r.steps[n].flow].keys[0])
    ensures !Shown(r.states[n], r.states[n].flows[r.steps[n].flow].keys[0])
  {
    var f := r.steps[n].flow;
    var k := r.states[n].flows[f].keys[0];
    assert Drops(r.states[n], f, k);
    RunKeepsInv(r, n);
    forall i | 0 <= i < n && Known(r.states[i + 1], f, k)
      ensures Known(r.states[i], f, k) || Shown(r.states[i], k)
    {
      KnownMoves(r.states[i], r.steps[i], f, k);
    }
    m := TracedBack(r.states, r.steps, n, (s: State) => Known(s, f, k), (s: State, step: Step) => Shown(s, k));
  }
}
