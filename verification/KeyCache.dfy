/** The cache of Google's signing keys.
  *
  * Lookups refresh a stale set, serve the last good one for a day past its life
  * when that fails, and force one refresh for an unknown key id, rate limited.
  * Times are seconds; a fetch takes time and may fail. */
module KeyCache {
  import opened Prelude

  type KeyId = nat
  type Key = nat

  const MIN_REFRESH_INTERVAL: nat := 300
  const MAX_STALENESS: nat := 86_400

  datatype KeySet = KeySet(keys: map<KeyId, Key>, fetchedAt: int, maxAge: nat)

  /** One call to the provider: how long it took, and the document if it came. */
  datatype Fetch = Fetch(takes: nat, document: Option<(map<KeyId, Key>, nat)>)

  datatype Refusal = Unavailable | UnknownKey

  predicate Fresh(s: KeySet, now: int) { now - s.fetchedAt < s.maxAge }

  predicate Usable(s: KeySet, now: int) { now - s.fetchedAt < s.maxAge + MAX_STALENESS }

  function Find(s: KeySet, id: KeyId): Option<Key> { if id in s.keys then Some(s.keys[id]) else None }

  /** A key handed out: when, and from which set. */
  datatype Served = Served(at: int, set_: KeySet, id: KeyId, key: Key)

  predicate ServedOk(x: Served) {
    && x.id in x.set_.keys && x.set_.keys[x.id] == x.key
    && x.at - x.set_.fetchedAt < x.set_.maxAge + 86_400
  }

  /** Consecutive moments at least the interval apart. */
  predicate Spaced(times: seq<int>) {
    forall i :: 0 <= i < |times| - 1 ==> times[i] + MIN_REFRESH_INTERVAL <= times[i + 1]
  }

  class Verifier {
    var cache: Option<KeySet>
    var lastForced: Option<int>
    var clock: int

    /** History: every key handed out and every forced refresh. */
    ghost var served: seq<Served>
    ghost var forced: seq<int>

    ghost predicate Valid()
      reads this
    {
      && (cache.Some? ==> cache.value.fetchedAt <= clock)
      && (forall i :: 0 <= i < |served| ==> ServedOk(served[i]))
      && Spaced(forced)
      && (lastForced.None? <==> forced == [])
      && (lastForced.Some? ==> lastForced.value == forced[|forced| - 1] <= clock)
    }

    constructor (now: int)
      ensures Valid() && served == [] && forced == [] && clock == now
    {
      cache, lastForced, clock, served, forced := None, None, now, [], [];
    }

    method Wait(seconds: nat)
      requires Valid()
      modifies this`clock
      ensures Valid() && clock == old(clock) + seconds
    {
      clock := clock + seconds;
    }

    /** A failed fetch leaves the cached set alone. */
    method FetchKeys(f: Fetch) returns (ok: bool)
      requires Valid()
      modifies this`cache, this`clock
      ensures Valid() && clock == old(clock) + f.takes
      ensures ok == f.document.Some?
      ensures cache == if ok then Some(KeySet(f.document.value.0, clock, f.document.value.1)) else old(cache)
    {
      clock := clock + f.takes;
      if f.document.None? { return false; }
      cache := Some(KeySet(f.document.value.0, clock, f.document.value.1));
      ok := true;
    }

    /** A key by id. What comes back is from the set now cached, and that set is
      * within its life plus a day; otherwise the lookup fails. */
    method Lookup(id: KeyId, f: Fetch) returns (r: Result<Option<Key>, Refusal>)
      requires Valid()
      modifies this`cache, this`clock, this`served
      ensures Valid() && old(clock) <= clock
      ensures r.Ok? ==> cache.Some? && Usable(cache.value, clock) && r.value == Find(cache.value, id)
      ensures old(cache).Some? && old(clock) < old(cache).value.fetchedAt + old(cache).value.maxAge ==>
                cache == old(cache) && clock == old(clock)
      ensures old(cache).None? || old(clock) >= old(cache).value.fetchedAt + old(cache).value.maxAge ==>
                && clock == old(clock) + f.takes
                && cache == if f.document.None? then old(cache)
                            else Some(KeySet(f.document.value.0, clock, f.document.value.1))
      ensures r.Err? ==> r == Err(Unavailable)
      ensures r.Err? <==> && (old(cache).None? || !Fresh(old(cache).value, old(clock)))
                          && f.document.None?
                          && (old(cache).None? || !Usable(old(cache).value, old(clock) + f.takes))
      ensures served == if r.Ok? && r.value.Some? then old(served) + [Served(clock, cache.value, id, r.value.value)]
                        else old(served)
    {
      if cache.Some? && Fresh(cache.value, clock) {
        r := Ok(Find(cache.value, id));
      } else {
        var ok := FetchKeys(f);
        if !ok && (cache.None? || !Usable(cache.value, clock)) { return Err(Unavailable); }
        r := Ok(Find(cache.value, id));
      }
      if r.value.Some? {
        served := served + [Served(clock, cache.value, id, r.value.value)];
      }
    }

    /** At most one forced refresh per interval; the moment counts even if the fetch
      * then fails. */
    method RefreshIfAllowed(f: Fetch) returns (r: Result<(), Refusal>)
      requires Valid()
      modifies this`cache, this`clock, this`lastForced, this`forced
      ensures Valid() && old(clock) <= clock
      ensures forced == old(forced) || forced == old(forced) + [old(clock)]
      ensures forced == old(forced) <==> old(lastForced).Some? && old(clock) < old(lastForced).value + 300
      ensures r.Err? ==> r == Err(Unavailable)
      ensures r.Err? <==> forced != old(forced) && f.document.None?
      ensures forced == old(forced) ==> cache == old(cache) && clock == old(clock)
      ensures forced != old(forced) ==>
                && clock == old(clock) + f.takes
                && cache == if f.document.None? then old(cache)
                            else Some(KeySet(f.document.value.0, clock, f.document.value.1))
    {
      if lastForced.Some? && clock - lastForced.value < MIN_REFRESH_INTERVAL { return Ok(()); }
      lastForced := Some(clock);
      forced := forced + [clock];
      var ok := FetchKeys(f);
      r := if ok then Ok(()) else Err(Unavailable);
    }

    /** The key for a token: look it up, and once more after a forced refresh when
      * its id is unknown. A set within its life that has the key is not fetched again;
      * one that has not is, at most once in five minutes. */
    method KeyForToken(id: KeyId, f: Fetch, g: Fetch, h: Fetch) returns (r: Result<Key, Refusal>)
      requires Valid()
      modifies this
      ensures Valid() && old(clock) <= clock
      ensures r.Ok? ==> cache.Some? && Usable(cache.value, clock) && Find(cache.value, id) == Some(r.value)
      ensures |forced| <= |old(forced)| + 1
      ensures r == Err(UnknownKey) ==> cache.Some? && id !in cache.value.keys
      ensures old(cache).Some? && old(clock) < old(cache).value.fetchedAt + old(cache).value.maxAge ==>
                if id in old(cache).value.keys then
                  r == Ok(old(cache).value.keys[id]) && cache == old(cache) && clock == old(clock)
                  && forced == old(forced)
                else forced == old(forced) <==>
                       old(lastForced).Some? && old(clock) < old(lastForced).value + 300
      ensures old(cache).Some? && old(clock) < old(cache).value.fetchedAt + old(cache).value.maxAge ==>
                id !in old(cache).value.keys && forced != old(forced) && g.document.Some? ==>
                  g.document.value.1 > 0 && id in g.document.value.0 ==> r == Ok(g.document.value.0[id])
    {
      var first := Lookup(id, f);
      if first.Err? { return Err(first.error); }
      if first.value.Some? { return Ok(first.value.value); }
      var refreshed := RefreshIfAllowed(g);
      if refreshed.Err? { return Err(refreshed.error); }
      var second := Lookup(id, h);
      if second.Err? { return Err(second.error); }
      r := if second.value.Some? then Ok(second.value.value) else Err(UnknownKey);
    }
  }

  // ---------------------------------------------------------- the rate of refresh

  function CountIn(times: seq<int>, lo: int, hi: int): nat {
    if times == [] then 0
    else CountIn(times[..|times| - 1], lo, hi) + if lo <= times[|times| - 1] <= hi then 1 else 0
  }

  /** How many of the first `n` moments can be in the window, by where the last is. */
  lemma {:induction false} CountBound(times: seq<int>, lo: int, hi: int)
    requires Spaced(times)
    ensures CountIn(times, lo, hi) > 0 ==>
              times != [] && (CountIn(times, lo, hi) - 1) * MIN_REFRESH_INTERVAL <= times[|times| - 1] - lo
    ensures CountIn(times, lo, hi) > 0 && times != [] ==>
              (CountIn(times, lo, hi) - 1) * MIN_REFRESH_INTERVAL <= hi - lo
    decreases |times|
  {
    if times != [] {
      var rest := times[..|times| - 1];
      CountBound(rest, lo, hi);
      if rest != [] { assert times[|times| - 2] + MIN_REFRESH_INTERVAL <= times[|times| - 1]; }
    }
  }

  /** Whatever key ids arrive and whichever fetches fail, a window of W seconds
    * holds at most W / 300 + 1 forced refreshes. */
  lemma RefreshesPerWindow(times: seq<int>, lo: int, width: nat)
    requires Spaced(times)
    ensures CountIn(times, lo, lo + width) <= width / MIN_REFRESH_INTERVAL + 1
  {
    CountBound(times, lo, lo + width);
  }

  // ------------------------------------------------------------ many calls at once

  // The class above takes calls one at a time. The service does not: between a fetch
  // and the write of its result, and between that and reading the cache back, other
  // calls read and write it. After a fetch that succeeded, what is read is handed out
  // with no further check of its age.

  type Task = nat

  /** Where a call stands; a forced refresh wants no key of its own. */
  datatype Progress =
    | Fetching(wanted: Option<KeyId>)
    | Holding(wanted: Option<KeyId>, fetched: KeySet)
    | FetchFailed(id: KeyId)
    | Wrote(id: KeyId, at: int)

  datatype State = State(cache: Option<KeySet>, lastForced: Option<int>, clock: int,
                         tasks: map<Task, Progress>, served: seq<Served>, forced: seq<int>)

  datatype Step =
    | Look(task: Task, id: KeyId)
    | Force(task: Task)
    | Arrive(task: Task, document: Option<(map<KeyId, Key>, nat)>)
    | Write(task: Task)
    | ReadBack(task: Task)
    | FallBack(task: Task)
    | Abandon(task: Task)
    | Tick(seconds: nat)

  function Init(): State { State(None, None, 0, map[], [], []) }

  predicate Enabled(s: State, step: Step) {
    match step
    case Look(t, _) => t !in s.tasks
    case Force(t) => t !in s.tasks
    case Arrive(t, _) => t in s.tasks && s.tasks[t].Fetching?
    case Write(t) => t in s.tasks && s.tasks[t].Holding?
    case ReadBack(t) => t in s.tasks && s.tasks[t].Wrote?
    case FallBack(t) => t in s.tasks && s.tasks[t].FetchFailed?
    case Abandon(t) => t in s.tasks
    case Tick(_) => true
  }

  /** A key from the cache as it is, if it has one by that id. */
  function Serve(s: State, id: KeyId): State {
    if s.cache.Some? && Find(s.cache.value, id).Some?
    then s.(served := s.served + [Served(s.clock, s.cache.value, id, Find(s.cache.value, id).value)]) else s
  }

  function Drop(s: State, t: Task): State { s.(tasks := s.tasks - {t}) }

  function Apply(s: State, step: Step): State
    requires Enabled(s, step)
  {
    match step
    case Look(t, id) =>
      if s.cache.Some? && Fresh(s.cache.value, s.clock) then Serve(s, id)
      else s.(tasks := s.tasks[t := Fetching(Some(id))])
    case Force(t) =>
      if s.lastForced.Some? && s.clock - s.lastForced.value < MIN_REFRESH_INTERVAL then s
      else s.(lastForced := Some(s.clock), forced := s.forced + [s.clock], tasks := s.tasks[t := Fetching(None)])
    case Arrive(t, document) =>
      var wanted := s.tasks[t].wanted;
      if document.Some?
      then s.(tasks := s.tasks[t := Holding(wanted, KeySet(document.value.0, s.clock, document.value.1))])
      else if wanted.Some? then s.(tasks := s.tasks[t := FetchFailed(wanted.value)]) else Drop(s, t)
    case Write(t) =>
      var w := s.(cache := Some(s.tasks[t].fetched));
      if s.tasks[t].wanted.Some? then w.(tasks := s.tasks[t := Wrote(s.tasks[t].wanted.value, s.clock)]) else Drop(w, t)
    case ReadBack(t) => Drop(Serve(s, s.tasks[t].id), t)
    case FallBack(t) =>
      if s.cache.Some? && Usable(s.cache.value, s.clock) then Drop(Serve(s, s.tasks[t].id), t) else Drop(s, t)
    case Abandon(t) => Drop(s, t)
    case Tick(d) => s.(clock := s.clock + d)
  }

  datatype Run = Run(states: seq<State>, steps: seq<Step>)

  ghost predicate IsRun(r: Run) {
    && |r.states| == |r.steps| + 1
    && r.states[0] == Init()
    && forall i :: 0 <= i < |r.steps| ==>
         Enabled(r.states[i], r.steps[i]) && r.states[i + 1] == Apply(r.states[i], r.steps[i])
  }

  /** A call that has its document writes it within `delay`, and reads back within
    * `delay` of that. */
  predicate Prompt(s: State, step: Step, delay: nat) {
    && (step.Write? && step.task in s.tasks && s.tasks[step.task].Holding? ==>
          s.clock <= s.tasks[step.task].fetched.fetchedAt + delay)
    && (step.ReadBack? && step.task in s.tasks && s.tasks[step.task].Wrote? ==>
          s.clock <= s.tasks[step.task].at + delay)
  }

  ghost predicate PromptRun(r: Run, delay: nat) {
    |r.steps| <= |r.states| && forall i :: 0 <= i < |r.steps| ==> Prompt(r.states[i], r.steps[i], delay)
  }

  ghost predicate AllServedOk(s: State) { forall i :: 0 <= i < |s.served| ==> ServedOk(s.served[i]) }

  /** Once a call has written, whatever is cached is at most `delay` older than that. */
  ghost predicate WritesOk(s: State, delay: nat) {
    forall t :: t in s.tasks && s.tasks[t].Wrote? ==>
      s.tasks[t].at <= s.clock && s.cache.Some? && s.cache.value.fetchedAt >= s.tasks[t].at - delay
  }

  ghost predicate ForcedOk(s: State) {
    && Spaced(s.forced) && (s.lastForced.None? <==> s.forced == [])
    && (s.lastForced.Some? ==> s.lastForced.value == s.forced[|s.forced| - 1])
  }

  // -------------------------------------------------- what moves what, and where keys come from

  /** A call starts a fetch exactly if there is no set or its life is over. */
  lemma LookFetchesIff(s: State, t: Task, id: KeyId)
    requires Enabled(s, Look(t, id))
    ensures var tasks := Apply(s, Look(t, id)).tasks;
      tasks == if s.cache.Some? && s.clock < s.cache.value.fetchedAt + s.cache.value.maxAge then s.tasks
               else s.tasks[t := Fetching(Some(id))]
  {
  }

  /** The key that a step looks for, and by when the set must have been fetched; none
    * for a set read back. */
  function Asks(s: State, step: Step): Option<(KeyId, Option<int>)>
    requires Enabled(s, step)
  {
    if s.cache.None? then None
    else
      match step
      case Look(_, id) => Some((id, Some(s.clock - s.cache.value.maxAge)))
      case ReadBack(t) => Some((s.tasks[t].id, None))
      case FallBack(t) => Some((s.tasks[t].id, Some(s.clock - s.cache.value.maxAge - 86_400)))
      case _ => None
  }

  /** A key is handed out exactly if it is asked for and in the set, and that set was
    * fetched late enough. */
  lemma ServedIff(s: State, step: Step)
    requires Enabled(s, step)
    ensures var ask := Asks(s, step);
      Apply(s, step).served ==
      if ask.Some? && ask.value.0 in s.cache.value.keys
         && (ask.value.1.Some? ==> s.cache.value.fetchedAt > ask.value.1.value)
      then s.served + [Served(s.clock, s.cache.value, ask.value.0, s.cache.value.keys[ask.value.0])] else s.served
  {
  }

  /** A forced refresh starts exactly if none did in the last five minutes. */
  lemma ForcedIff(s: State, step: Step)
    requires Enabled(s, step)
    ensures var s' := Apply(s, step);
      if step.Force? && (s.lastForced.Some? ==> s.clock >= s.lastForced.value + 300)
      then s' == s.(forced := s.forced + [s.clock], lastForced := Some(s.clock),
                    tasks := s.tasks[step.task := Fetching(None)])
      else s'.forced == s.forced && s'.lastForced == s.lastForced && (step.Force? ==> s' == s)
  {
  }

  /** A call goes from its fetch to the write of what came, and then to reading it back;
    * without a document, to what is still cached, unless it only forced a refresh. It
    * may end at any time. The cache is only ever what a call writes. */
  lemma CallMoves(s: State, step: Step, t: Task)
    requires Enabled(s, step) && t in s.tasks
    ensures var s', task := Apply(s, step), s.tasks[t];
      if step.Arrive? && step.task == t then
        match (step.document, task.wanted) {
          case (Some(d), wanted) => s'.tasks == s.tasks[t := Holding(wanted, KeySet(d.0, s.clock, d.1))]
          case (None, Some(id)) => s'.tasks == s.tasks[t := FetchFailed(id)]
          case (None, None) => s'.tasks == s.tasks - {t}
        }
      else if step == Write(t) then
        && s'.cache == Some(task.fetched)
        && s'.tasks == if task.wanted.Some? then s.tasks[t := Wrote(task.wanted.value, s.clock)] else s.tasks - {t}
      else if step in {ReadBack(t), FallBack(t), Abandon(t)} then s'.tasks == s.tasks - {t}
      else t in s'.tasks && s'.tasks[t] == task
    ensures !step.Write? ==> Apply(s, step).cache == s.cache
    ensures Apply(s, step).clock == s.clock + (if step.Tick? then step.seconds else 0)
  {
  }

  /** Is this set cached, about to be, or one a key was handed out from? */
  ghost predicate Seen(s: State, set_: KeySet) {
    || s.cache == Some(set_)
    || (exists t :: t in s.tasks && s.tasks[t].Holding? && s.tasks[t].fetched == set_)
    || (exists i :: 0 <= i < |s.served| && s.served[i].set_ == set_)
  }

  /** The provider sends exactly this set, now. */
  predicate Brings(s: State, step: Step, set_: KeySet) {
    step.Arrive? && step.document == Some((set_.keys, set_.maxAge)) && s.clock == set_.fetchedAt
  }

  lemma SeenMoves(s: State, step: Step, set_: KeySet)
    requires Enabled(s, step) && Seen(Apply(s, step), set_)
    ensures Seen(s, set_) || Brings(s, step, set_)
  {
    var s' := Apply(s, step);
    if exists i :: 0 <= i < |s'.served| && s'.served[i].set_ == set_ {
      var i :| 0 <= i < |s'.served| && s'.served[i].set_ == set_;
      ServedIff(s, step);
      if i < |s.served| { assert s.served[i] == s'.served[i]; }
    } else if exists t :: t in s'.tasks && s'.tasks[t].Holding? && s'.tasks[t].fetched == set_ {
      var t :| t in s'.tasks && s'.tasks[t].Holding? && s'.tasks[t].fetched == set_;
    }
  }

  /** Every key handed out is one the provider sent, in a document that arrived at the
    * moment its set is counted from, with the life it was given. */
  lemma KeysCameFromTheProvider(r: Run, n: nat, i: nat) returns (k: nat)
    requires IsRun(r) && n < |r.states| && i < |r.states[n].served|
    ensures var x := r.states[n].served[i];
      k < n && Brings(r.states[k], r.steps[k], x.set_)
  {
    var set_ := r.states[n].served[i].set_;
    forall m | 0 <= m < n && Seen(r.states[m + 1], set_)
      ensures Seen(r.states[m], set_) || Brings(r.states[m], r.steps[m], set_)
    {
      SeenMoves(r.states[m], r.steps[m], set_);
    }
    k := TracedBack(r.states, r.steps, n, (s: State) => Seen(s, set_),
                    (s: State, step: Step) => Brings(s, step, set_));
  }

  lemma StepKeepsWrites(s: State, step: Step, delay: nat)
    requires Enabled(s, step) && Prompt(s, step, delay) && WritesOk(s, delay)
    ensures WritesOk(Apply(s, step), delay)
  {
  }

  lemma StepKeepsServed(s: State, step: Step, delay: nat)
    requires Enabled(s, step) && Prompt(s, step, delay) && WritesOk(s, delay) && AllServedOk(s)
    requires 2 * delay < MAX_STALENESS
    ensures AllServedOk(Apply(s, step))
  {
    if step.ReadBack? {
      assert s.cache.Some? && Usable(s.cache.value, s.clock);
    }
  }

  lemma {:induction false} RunServesOk(r: Run, n: nat, delay: nat)
    requires IsRun(r) && PromptRun(r, delay) && n < |r.states|
    ensures WritesOk(r.states[n], delay) && (2 * delay < MAX_STALENESS ==> AllServedOk(r.states[n]))
  {
    if n > 0 {
      RunServesOk(r, n - 1, delay);
      StepKeepsWrites(r.states[n - 1], r.steps[n - 1], delay);
      if 2 * delay < MAX_STALENESS { StepKeepsServed(r.states[n - 1], r.steps[n - 1], delay); }
    }
  }

  /** The moment is checked and recorded under one lock: forced refreshes keep their
    * distance in every run, prompt or not. */
  lemma {:induction false} ForcedStaySpaced(r: Run, n: nat)
    requires IsRun(r) && n < |r.states|
    ensures ForcedOk(r.states[n])
  {
    if n > 0 { ForcedStaySpaced(r, n - 1); }
  }

  lemma ForcedPerWindow(r: Run, n: nat, lo: int, width: nat)
    requires IsRun(r) && n < |r.states|
    ensures CountIn(r.states[n].forced, lo, lo + width) <= width / MIN_REFRESH_INTERVAL + 1
  {
    ForcedStaySpaced(r, n);
    RefreshesPerWindow(r.states[n].forced, lo, width);
  }

  lemma Extended(r: Run, step: Step, delay: nat) returns (r': Run)
    requires IsRun(r) && PromptRun(r, delay)
    requires Enabled(r.states[|r.steps|], step) && Prompt(r.states[|r.steps|], step, delay)
    ensures IsRun(r') && PromptRun(r', delay)
    ensures r' == Run(r.states + [Apply(r.states[|r.steps|], step)], r.steps + [step])
  {
    r' := Run(r.states + [Apply(r.states[|r.steps|], step)], r.steps + [step]);
  }

  /** One call alone is enough: it fetches, is slow to write, and is slow again to read
    * back what it wrote, which nobody then checks. */
  lemma SlowCallServesOldKey(delay: nat) returns (r: Run)
    requires 2 * delay >= MAX_STALENESS
    ensures IsRun(r) && PromptRun(r, delay) && !AllServedOk(r.states[|r.steps|])
  {
    var fetched := KeySet(map[0 := 7], 0, 0);
    r := Run([Init()], []);
    r := Extended(r, Look(0, 0), delay);
    r := Extended(r, Arrive(0, Some((map[0 := 7], 0))), delay);
    r := Extended(r, Tick(delay), delay);
    r := Extended(r, Write(0), delay);
    r := Extended(r, Tick(delay), delay);
    var s := r.states[|r.steps|];
    assert s.cache == Some(fetched) && s.clock == 2 * delay && s.tasks[0] == Wrote(0, delay);
    r := Extended(r, ReadBack(0), delay);
    assert r.states[|r.steps|].served[0] == Served(2 * delay, fetched, 0, 7);
  }

  /** In every run in which calls are this prompt, every key handed out is from a set
    * younger than its life and a day. */
  ghost predicate KeysAreYoung(delay: nat) {
    forall r, n :: IsRun(r) && PromptRun(r, delay) && 0 <= n < |r.states| ==> AllServedOk(r.states[n])
  }

  /** With calls interleaved at will, that holds exactly if the two delays together
    * stay under the day that stale keys are allowed: if no call takes twelve hours to
    * write what it fetched, or to read it back. */
  lemma KeysAreYoungIff(delay: nat)
    ensures KeysAreYoung(delay) <==> 2 * delay < MAX_STALENESS
  {
    if 2 * delay < MAX_STALENESS {
      forall r, n | IsRun(r) && PromptRun(r, delay) && 0 <= n < |r.states| ensures AllServedOk(r.states[n]) {
        RunServesOk(r, n, delay);
      }
    } else {
      var r := SlowCallServesOldKey(delay);
      assert !AllServedOk(r.states[|r.steps|]);
    }
  }

  // --------------------------------------------------- does the cache go back in time?

  /** The calls that have yet to write what they fetch. */
  ghost function UnderWay(s: State): set<Task> {
    set t | t in s.tasks && (s.tasks[t].Fetching? || s.tasks[t].Holding?)
  }

  ghost predicate FetchesAtMost(r: Run, k: nat) {
    forall i :: 0 <= i < |r.states| ==> |UnderWay(r.states[i])| <= k
  }

  /** A set in the cache is only ever replaced by one fetched no earlier. */
  predicate Forward(before: Option<KeySet>, after: Option<KeySet>) {
    before.Some? ==> after.Some? && before.value.fetchedAt <= after.value.fetchedAt
  }

  ghost predicate NeverBack(r: Run) {
    |r.steps| < |r.states| && forall i :: 0 <= i < |r.steps| ==> Forward(r.states[i].cache, r.states[i + 1].cache)
  }

  /** What is cached is no newer than what is waiting to replace it. */
  ghost predicate WaitingIsNewer(s: State) {
    && (s.cache.Some? ==> s.cache.value.fetchedAt <= s.clock)
    && (forall t :: t in s.tasks && s.tasks[t].Holding? ==>
          s.tasks[t].fetched.fetchedAt <= s.clock && Forward(s.cache, Some(s.tasks[t].fetched)))
  }

  lemma AloneUnderWay(s: State, t: Task, u: Task)
    requires |UnderWay(s)| <= 1 && t in UnderWay(s) && u in UnderWay(s)
    ensures t == u
  {
    SubsetSize({t, u}, UnderWay(s));
  }

  lemma StepGoesForward(s: State, step: Step)
    requires Enabled(s, step) && WaitingIsNewer(s) && |UnderWay(s)| <= 1
    ensures WaitingIsNewer(Apply(s, step)) && Forward(s.cache, Apply(s, step).cache)
  {
    if step.Write? {
      forall t | t in s.tasks && s.tasks[t].Holding? ensures t == step.task { AloneUnderWay(s, t, step.task); }
    }
  }

  lemma {:induction false} OneAtATimeGoesForward(r: Run, n: nat)
    requires IsRun(r) && FetchesAtMost(r, 1) && n < |r.states|
    ensures WaitingIsNewer(r.states[n])
    ensures forall i :: 0 <= i < n ==> Forward(r.states[i].cache, r.states[i + 1].cache)
  {
    if n > 0 {
      OneAtATimeGoesForward(r, n - 1);
      StepGoesForward(r.states[n - 1], r.steps[n - 1]);
    }
  }

  ghost predicate TwoCalls(r: Run) { forall i :: 0 <= i < |r.states| ==> r.states[i].tasks.Keys <= {0, 1} }

  lemma TwoCallsOn(r: Run, step: Step) returns (r': Run)
    requires IsRun(r) && PromptRun(r, 1) && TwoCalls(r)
    requires Enabled(r.states[|r.steps|], step) && Prompt(r.states[|r.steps|], step, 1)
    requires Apply(r.states[|r.steps|], step).tasks.Keys <= {0, 1}
    ensures IsRun(r') && PromptRun(r', 1) && TwoCalls(r')
    ensures r' == Run(r.states + [Apply(r.states[|r.steps|], step)], r.steps + [step])
  {
    r' := Extended(r, step, 1);
  }

  lemma BothFetched() returns (r: Run)
    ensures IsRun(r) && PromptRun(r, 1) && TwoCalls(r) && |r.steps| == 5
    ensures r.states[5].clock == 1
    ensures r.states[5].tasks == map[0 := Holding(Some(0), KeySet(map[0 := 7], 0, 0)),
                                     1 := Holding(Some(0), KeySet(map[0 := 7], 1, 0))]
  {
    var document := Some((map[0 := 7], 0));
    r := Run([Init()], []);
    r := TwoCallsOn(r, Look(0, 0));
    r := TwoCallsOn(r, Look(1, 0));
    r := TwoCallsOn(r, Arrive(0, document));
    r := TwoCallsOn(r, Tick(1));
    r := TwoCallsOn(r, Arrive(1, document));
    assert r.states[5].tasks == map[0 := Holding(Some(0), KeySet(map[0 := 7], 0, 0)),
                                    1 := Holding(Some(0), KeySet(map[0 := 7], 1, 0))];
  }

  /** Two calls fetch, the second a second later; it writes first, and the first one
    * then writes its older set over the newer one. Neither takes longer than a second. */
  lemma SlowerFetchWins() returns (r: Run)
    ensures IsRun(r) && PromptRun(r, 1) && FetchesAtMost(r, 2) && |r.steps| == 7
    ensures r.steps[6].Write? && r.states[6].cache.Some? && r.states[7].cache.Some?
    ensures r.states[6].cache.value.fetchedAt > r.states[7].cache.value.fetchedAt
  {
    r := BothFetched();
    r := TwoCallsOn(r, Write(1));
    r := TwoCallsOn(r, Write(0));
    forall i | 0 <= i < |r.states| ensures |UnderWay(r.states[i])| <= 2 {
      SubsetSize(UnderWay(r.states[i]), {0, 1});
    }
  }

  /** In every run with at most `k` fetches under way. */
  ghost predicate AlwaysForward(k: nat) { forall r :: IsRun(r) && FetchesAtMost(r, k) ==> NeverBack(r) }

  /** The cache never goes back in time exactly if fetches do not overlap. */
  lemma AlwaysForwardIff(k: nat)
    ensures AlwaysForward(k) <==> k <= 1
  {
    if k <= 1 {
      forall r | IsRun(r) && FetchesAtMost(r, k) ensures NeverBack(r) { OneAtATimeGoesForward(r, |r.steps|); }
    } else {
      var r := SlowerFetchWins();
      assert FetchesAtMost(r, k) && !Forward(r.states[6].cache, r.states[7].cache) && r.states[6 + 1] == r.states[7];
    }
  }
}
