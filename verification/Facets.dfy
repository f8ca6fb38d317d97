/** The board's facet counts: one query with GROUPING SETS, read back row by row.
  * Jobs here are the ones the board's predicate matched. */
module Facets {
  import opened Prelude

  datatype Job = Job(trade: Option<string>, timeline: string, build: string)

  /** One group of one grouping set; `Everything` is the empty set's only group. */
  datatype Group = ByTrade(trade: Option<string>) | ByTimeline(timeline: string) | ByBuild(build: string) | Everything

  /** A result row. A flag of 0 means its column belongs to the row's set; the
    * others are NULL. */
  datatype Row = Row(gTrade: nat, gTimeline: nat, gBuild: nat,
                     trade: Option<string>, timeline: Option<string>, build: Option<string>, count: nat)

  datatype Facet = Facet(value: string, count: nat)

  datatype Counted = Counted(total: nat, trade: seq<Facet>, timeline: seq<Facet>, build: seq<Facet>)

  predicate Belongs(j: Job, g: Group) {
    match g
    case ByTrade(t) => j.trade == t
    case ByTimeline(t) => j.timeline == t
    case ByBuild(b) => j.build == b
    case Everything => true
  }

  function Size(jobs: seq<Job>, g: Group): nat {
    if jobs == [] then 0 else Size(jobs[1..], g) + if Belongs(jobs[0], g) then 1 else 0
  }

  function RowFor(jobs: seq<Job>, g: Group): Row {
    var n := Size(jobs, g);
    match g
    case ByTrade(t) => Row(0, 1, 1, t, None, None, n)
    case ByTimeline(t) => Row(1, 0, 1, None, Some(t), None, n)
    case ByBuild(b) => Row(1, 1, 0, None, None, Some(b), n)
    case Everything => Row(1, 1, 1, None, None, None, n)
  }

  function Result(jobs: seq<Job>, groups: seq<Group>): (rows: seq<Row>)
    ensures |rows| == |groups|
  {
    seq(|groups|, i requires 0 <= i < |groups| => RowFor(jobs, groups[i]))
  }

  /** What GROUP BY promises about the groups, in whatever order they come: each at
    * most once, the grand total among them, and every job in one of each kind. */
  ghost predicate Grouping(jobs: seq<Job>, groups: seq<Group>) {
    && (forall i, j :: 0 <= i < j < |groups| ==> groups[i] != groups[j])
    && Everything in groups
    && (forall k :: 0 <= k < |jobs| ==>
          && ByTrade(jobs[k].trade) in groups && ByTimeline(jobs[k].timeline) in groups
          && ByBuild(jobs[k].build) in groups)
  }

  function Sum(fs: seq<Facet>): nat { if fs == [] then 0 else Sum(fs[..|fs| - 1]) + fs[|fs| - 1].count }

  /** Jobs without a trade are listed under this one. */
  function TradeLabel(trade: Option<string>): string { if trade.Some? then trade.value else "other" }

  /** The reading loop, one row further. */
  function Counting(f: Counted, r: Row): Counted {
    if r.gTrade == 0 then
      f.(trade := f.trade + [Facet(TradeLabel(r.trade), r.count)])
    else if r.gTimeline == 0 then
      if r.timeline.Some? then f.(timeline := f.timeline + [Facet(r.timeline.value, r.count)]) else f
    else if r.gBuild == 0 then
      if r.build.Some? then f.(build := f.build + [Facet(r.build.value, r.count)]) else f
    else f.(total := r.count)
  }

  function Counts(rows: seq<Row>): Counted {
    if rows == [] then Counted(0, [], [], []) else Counting(Counts(rows[..|rows| - 1]), rows[|rows| - 1])
  }

  method CountFacets(rows: seq<Row>) returns (facets: Counted)
    ensures facets == Counts(rows)
  {
    facets := Counted(0, [], [], []);
    for i := 0 to |rows|
      invariant facets == Counts(rows[..i])
    {
      assert rows[..i + 1][..i] == rows[..i];
      var r := rows[i];
      if r.gTrade == 0 {
        var value := "other";
        if r.trade.Some? { value := r.trade.value; }
        facets := facets.(trade := facets.trade + [Facet(value, r.count)]);
      } else if r.gTimeline == 0 {
        if r.timeline.Some? { facets := facets.(timeline := facets.timeline + [Facet(r.timeline.value, r.count)]); }
      } else if r.gBuild == 0 {
        if r.build.Some? { facets := facets.(build := facets.build + [Facet(r.build.value, r.count)]); }
      } else {
        facets := facets.(total := r.count);
      }
    }
    assert rows[..|rows|] == rows;
  }

  // ------------------------------------------------------------- adding them up

  datatype Kind = Trades | Timelines | Builds

  predicate OfKind(g: Group, k: Kind) {
    match k
    case Trades => g.ByTrade?
    case Timelines => g.ByTimeline?
    case Builds => g.ByBuild?
  }

  function GroupOf(j: Job, k: Kind): Group {
    match k
    case Trades => ByTrade(j.trade)
    case Timelines => ByTimeline(j.timeline)
    case Builds => ByBuild(j.build)
  }

  function Share(jobs: seq<Job>, g: Group, k: Kind): nat { if OfKind(g, k) then Size(jobs, g) else 0 }

  /** The jobs in the groups of one kind, counted group by group. */
  function SumOf(jobs: seq<Job>, groups: seq<Group>, k: Kind): nat {
    if groups == [] then 0 else
      SumOf(jobs, groups[..|groups| - 1], k) + Share(jobs, groups[|groups| - 1], k)
  }

  function FacetsOf(f: Counted, k: Kind): seq<Facet> {
    match k
    case Trades => f.trade
    case Timelines => f.timeline
    case Builds => f.build
  }

  lemma SumAppend(fs: seq<Facet>, f: Facet)
    ensures Sum(fs + [f]) == Sum(fs) + f.count
  {
    assert (fs + [f])[..|fs|] == fs;
  }

  lemma CountsNext(jobs: seq<Job>, before: seq<Group>, g: Group)
    ensures Counts(Result(jobs, before + [g])) == Counting(Counts(Result(jobs, before)), RowFor(jobs, g))
  {
    var rows := Result(jobs, before + [g]);
    assert rows[..|rows| - 1] == Result(jobs, before) && rows[|rows| - 1] == RowFor(jobs, g);
  }

  function Label(g: Group): string {
    match g
    case ByTrade(t) => TradeLabel(t)
    case ByTimeline(t) => t
    case ByBuild(b) => b
    case Everything => ""
  }

  /** One facet for each group of a kind, with the group's own name and size. */
  function Entries(jobs: seq<Job>, groups: seq<Group>, k: Kind): seq<Facet> {
    if groups == [] then [] else
      Entries(jobs, groups[..|groups| - 1], k) + Entry(jobs, groups[|groups| - 1], k)
  }

  function Entry(jobs: seq<Job>, g: Group, k: Kind): seq<Facet> {
    if OfKind(g, k) then [Facet(Label(g), Size(jobs, g))] else []
  }

  /** The loop reads every group into the list of its own kind, and nothing else. */
  lemma {:induction false} FacetsAreTheGroups(jobs: seq<Job>, groups: seq<Group>, k: Kind)
    ensures FacetsOf(Counts(Result(jobs, groups)), k) == Entries(jobs, groups, k)
    decreases |groups|
  {
    if groups != [] {
      var before, g := groups[..|groups| - 1], groups[|groups| - 1];
      assert groups == before + [g];
      FacetsAreTheGroups(jobs, before, k);
      CountsNext(jobs, before, g);
    }
  }

  lemma {:induction false} EntriesSum(jobs: seq<Job>, groups: seq<Group>, k: Kind)
    ensures Sum(Entries(jobs, groups, k)) == SumOf(jobs, groups, k)
    decreases |groups|
  {
    if groups != [] {
      var before, g := groups[..|groups| - 1], groups[|groups| - 1];
      EntriesSum(jobs, before, k);
      if OfKind(g, k) { SumAppend(Entries(jobs, before, k), Facet(Label(g), Size(jobs, g))); }
      else { assert Entries(jobs, groups, k) == Entries(jobs, before, k); }
    }
  }

  /** The total is the grand-total row's, and no other row's: in particular not the
    * row of the jobs without a trade, whose trade is NULL too. */
  lemma {:induction false} TotalIsEverything(jobs: seq<Job>, groups: seq<Group>)
    ensures Counts(Result(jobs, groups)).total == if Everything in groups then Size(jobs, Everything) else 0
    decreases |groups|
  {
    if groups != [] {
      var before, g := groups[..|groups| - 1], groups[|groups| - 1];
      assert groups == before + [g];
      TotalIsEverything(jobs, before);
      CountsNext(jobs, before, g);
    }
  }

  lemma {:induction false} EverythingIsAll(jobs: seq<Job>)
    ensures Size(jobs, Everything) == |jobs|
  {
    if jobs != [] { EverythingIsAll(jobs[1..]); }
  }

  /** One more job is counted in exactly one group of each kind. */
  lemma {:induction false} OneJobMore(jobs: seq<Job>, groups: seq<Group>, k: Kind)
    requires jobs != [] && forall i, j :: 0 <= i < j < |groups| ==> groups[i] != groups[j]
    ensures SumOf(jobs, groups, k) == SumOf(jobs[1..], groups, k) + if GroupOf(jobs[0], k) in groups then 1 else 0
    decreases |groups|
  {
    if groups != [] {
      var before, g := groups[..|groups| - 1], groups[|groups| - 1];
      OneJobMore(jobs, before, k);
      assert groups == before + [g] && g !in before;
      assert OfKind(g, k) ==> (Belongs(jobs[0], g) <==> g == GroupOf(jobs[0], k));
    }
  }

  lemma {:induction false} GroupsPartition(jobs: seq<Job>, groups: seq<Group>, k: Kind)
    requires Grouping(jobs, groups)
    ensures SumOf(jobs, groups, k) == |jobs|
    decreases |jobs|
  {
    if jobs == [] {
      NoJobs(groups, k);
    } else {
      OneJobMore(jobs, groups, k);
      assert GroupOf(jobs[0], k) in groups;
      GroupsPartition(jobs[1..], groups, k);
    }
  }

  lemma {:induction false} NoJobs(groups: seq<Group>, k: Kind)
    ensures SumOf([], groups, k) == 0
    decreases |groups|
  {
    if groups != [] { NoJobs(groups[..|groups| - 1], k); }
  }

  /** In whatever order the rows come back, the total is the number of matching jobs
    * and each of the three groups sums to it. */
  lemma FacetsAgreeWithTheBoard(jobs: seq<Job>, groups: seq<Group>, k: Kind)
    requires Grouping(jobs, groups)
    ensures Counts(Result(jobs, groups)).total == |jobs|
    ensures Sum(FacetsOf(Counts(Result(jobs, groups)), k)) == |jobs|
  {
    TotalIsEverything(jobs, groups);
    EverythingIsAll(jobs);
    FacetsAreTheGroups(jobs, groups, k);
    EntriesSum(jobs, groups, k);
    GroupsPartition(jobs, groups, k);
  }
}
