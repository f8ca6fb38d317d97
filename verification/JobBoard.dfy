/** Keyset pagination of the job board.
  *
  * A page is one SQL query: rows the resume predicate admits, in ORDER BY order,
  * one more than asked for; the extra row only says that another page exists.
  * Conditions are three-valued, because a leading key may be NULL. */
module JobBoard {
  import opened Prelude

  // --------------------------------------------------------- SQL's three values

  datatype Truth = True | False | Unknown

  function Or(a: Truth, b: Truth): Truth {
    if a.True? || b.True? then True else if a.False? && b.False? then False else Unknown
  }

  function And(a: Truth, b: Truth): Truth {
    if a.False? || b.False? then False else if a.True? && b.True? then True else Unknown
  }

  /** True if either is, false if both are; and the other way round for `AND`. */
  lemma ThreeValues(a: Truth, b: Truth)
    ensures Or(a, b) == True <==> a == True || b == True
    ensures Or(a, b) == False <==> a == False && b == False
    ensures And(a, b) == False <==> a == False || b == False
    ensures And(a, b) == True <==> a == True && b == True
  {
  }

  function Known(b: bool): Truth { if b then True else False }

  /** `a < b` or `a > b`; NULL on either side makes it unknown. */
  function Compare(descending: bool, a: Option<real>, b: Option<real>): Truth {
    if a.None? || b.None? then Unknown
    else Known(if descending then a.value < b.value else a.value > b.value)
  }

  /** `IS NOT DISTINCT FROM`: equality in which NULL equals NULL. */
  function NotDistinct(a: Option<real>, b: Option<real>): Truth { Known(a == b) }

  // ----------------------------------------------------------------- the board

  /** A matching job, with the value each ordering could lead with. Budgets are
    * whole cents below 2^53, which a cursor's float carries exactly. */
  datatype Job = Job(id: nat, createdAt: int, budget: Option<int>,
                     relevance: Option<real>, distance: Option<real>, fit: Option<real>)

  datatype Sort = Newest | Best | Budget | Distance | ForMe

  datatype KeyField = ByRelevance | ByBudget | ByDistance | ByFit

  datatype Ordering = Ordering(field: Option<KeyField>, descending: bool)

  /** What the request supplies that an ordering may need. */
  datatype Supplied = Supplied(near: bool, query: bool, viewer: bool)

  datatype Cursor = Cursor(createdAt: int, id: nat, sortKey: Option<real>)

  const MAX_PAGE: nat := 50

  /** A sort with nothing to sort on degrades to newest first. */
  function OrderingFor(sort: Sort, given: Supplied): Ordering {
    match sort
    case Budget => Ordering(Some(ByBudget), true)
    case Distance => if given.near then Ordering(Some(ByDistance), false) else Ordering(None, true)
    case Best => if given.query then Ordering(Some(ByRelevance), true) else Ordering(None, true)
    case ForMe => if given.viewer then Ordering(Some(ByFit), true) else Ordering(None, true)
    case Newest => Ordering(None, true)
  }

  function Key(o: Ordering, j: Job): Option<real> {
    match o.field
    case None => None
    case Some(ByRelevance) => j.relevance
    case Some(ByBudget) => if j.budget.Some? then Some(j.budget.value as real) else None
    case Some(ByDistance) => j.distance
    case Some(ByFit) => j.fit
  }

  function CursorAt(o: Ordering, j: Job): Cursor { Cursor(j.createdAt, j.id, Key(o, j)) }

  predicate Newer(a: Job, b: Job) { a.createdAt > b.createdAt || (a.createdAt == b.createdAt && a.id > b.id) }

  /** ORDER BY: the leading key with NULLs last, then newest, then id. */
  predicate Before(o: Ordering, a: Job, b: Job) {
    var ka, kb := Key(o, a), Key(o, b);
    if ka == kb then Newer(a, b)
    else if kb.None? then true
    else if ka.None? then false
    else if o.descending then ka.value > kb.value else ka.value < kb.value
  }

  /** The generated resume condition. */
  function Resume(o: Ordering, cursor: Option<Cursor>, j: Job): Truth {
    match cursor
    case None => True
    case Some(c) =>
      var past := Known(j.createdAt < c.createdAt || (j.createdAt == c.createdAt && j.id < c.id));
      if o.field.None? then past
      else Or(Compare(o.descending, Key(o, j), c.sortKey), And(NotDistinct(Key(o, j), c.sortKey), past))
  }

  /** Job ids are the primary key. */
  ghost predicate IsTable(jobs: set<Job>) {
    forall a, b :: a in jobs && b in jobs && a.id == b.id ==> a == b
  }

  ghost function Matching(o: Ordering, jobs: set<Job>, cursor: Option<Cursor>): set<Job> {
    set j | j in jobs && Resume(o, cursor, j).True?
  }

  // ------------------------------------------------------------------ ORDER BY

  predicate Sorted(o: Ordering, s: seq<Job>) {
    forall i, j :: 0 <= i < j < |s| ==> Before(o, s[i], s[j])
  }

  ghost predicate First(o: Ordering, jobs: set<Job>, m: Job) {
    m in jobs && forall j :: j in jobs && j != m ==> Before(o, m, j)
  }

  lemma FirstExists(o: Ordering, jobs: set<Job>) returns (m: Job)
    requires IsTable(jobs) && jobs != {}
    ensures First(o, jobs, m)
    decreases |jobs|
  {
    var x :| x in jobs;
    if jobs == {x} {
      m := x;
    } else {
      assert x !in jobs - {x} && jobs == (jobs - {x}) + {x};
      m := FirstExists(o, jobs - {x});
      if Before(o, x, m) { m := x; }
    }
  }

  ghost function OrderBy(o: Ordering, jobs: set<Job>): (s: seq<Job>)
    requires IsTable(jobs)
    ensures |s| == |jobs|
    decreases |jobs|
  {
    if jobs == {} then [] else
      var m := FirstOf(o, jobs);
      [m] + OrderBy(o, jobs - {m})
  }

  ghost function FirstOf(o: Ordering, jobs: set<Job>): (m: Job)
    requires IsTable(jobs) && jobs != {}
    ensures First(o, jobs, m)
  {
    assert exists m :: First(o, jobs, m) by { var m := FirstExists(o, jobs); }
    var m :| First(o, jobs, m);
    m
  }

  lemma {:induction false} OrderByIsSorted(o: Ordering, jobs: set<Job>)
    requires IsTable(jobs)
    ensures SetOf(OrderBy(o, jobs)) == jobs && Sorted(o, OrderBy(o, jobs))
    decreases |jobs|
  {
    if jobs != {} {
      var m := FirstOf(o, jobs);
      OrderByIsSorted(o, jobs - {m});
      ConsSorted(o, m, OrderBy(o, jobs - {m}), jobs);
    }
  }

  lemma ConsSorted(o: Ordering, m: Job, s: seq<Job>, jobs: set<Job>)
    requires First(o, jobs, m) && SetOf(s) == jobs - {m} && Sorted(o, s)
    ensures SetOf([m] + s) == jobs && Sorted(o, [m] + s)
  {
    forall i | 0 <= i < |s| ensures Before(o, m, s[i]) { assert s[i] in SetOf(s); }
    forall j | j in jobs ensures j in [m] + s {
      if j != m { assert j in SetOf(s); }
    }
    forall j | j in [m] + s ensures j in jobs {
      if j != m { assert j in s && j in SetOf(s); }
    }
  }

  /** ORDER BY decides the list: there is only one sorted list of given rows. */
  lemma {:induction false} SortedUnique(o: Ordering, s: seq<Job>, t: seq<Job>)
    requires Sorted(o, s) && Sorted(o, t) && SetOf(s) == SetOf(t)
    ensures s == t
    decreases |s|
  {
    if s == [] {
      assert forall k :: 0 <= k < |t| ==> t[k] in SetOf(t);
    } else {
      assert s[0] in SetOf(s);
      assert s[0] in t;
      assert t[0] in SetOf(t);
      assert t[0] in s;
      var i :| 0 <= i < |t| && t[i] == s[0];
      var k :| 0 <= k < |s| && s[k] == t[0];
      assert s[0] == t[0];
      RestOfSorted(o, s);
      RestOfSorted(o, t);
      SortedUnique(o, s[1..], t[1..]);
      assert s == [s[0]] + s[1..] && t == [t[0]] + t[1..];
    }
  }

  lemma RestOfSorted(o: Ordering, s: seq<Job>)
    requires Sorted(o, s) && s != []
    ensures Sorted(o, s[1..]) && SetOf(s[1..]) == SetOf(s) - {s[0]}
  {
    forall j | j in SetOf(s) - {s[0]} ensures j in SetOf(s[1..]) {
      var i :| 0 <= i < |s| && s[i] == j;
      assert s[1..][i - 1] == j;
    }
    forall j | j in SetOf(s[1..]) ensures j in SetOf(s) - {s[0]} {
      var i :| 0 <= i < |s[1..]| && s[1..][i] == j;
      assert s[i + 1] == j && Before(o, s[0], s[i + 1]);
    }
  }

  // --------------------------------------------------------------------- pages

  datatype Page = Page(jobs: seq<Job>, next: Option<Cursor>)

  function Clamped(limit: int): (r: nat)
    ensures 1 <= r <= MAX_PAGE && (1 <= limit <= 50 ==> r == limit)
    ensures (limit < 1 ==> r == 1) && (limit > 50 ==> r == 50)
  {
    if limit < 1 then 1 else if limit > MAX_PAGE then MAX_PAGE else limit
  }

  /** The extra row is dropped, and the cursor is where the page really stops. */
  method TakeNext(o: Ordering, rows: seq<Job>, limit: nat) returns (page: Page)
    requires limit >= 1 && |rows| <= limit + 1
    ensures page == Paged(o, rows, limit)
  {
    var kept := rows;
    if |kept| > limit {
      kept := kept[..|kept| - 1];
      page := Page(kept, Some(CursorAt(o, kept[|kept| - 1])));
    } else {
      page := Page(kept, None);
    }
  }

  /** The first `limit` rows, and a cursor exactly when some row is left over. */
  function Paged(o: Ordering, rows: seq<Job>, limit: nat): Page
    requires limit >= 1
  {
    if |rows| <= limit then Page(rows, None) else Page(rows[..limit], Some(CursorAt(o, rows[limit - 1])))
  }

  ghost function List(o: Ordering, jobs: set<Job>, limit: nat, cursor: Option<Cursor>): Page
    requires IsTable(jobs) && limit >= 1
  {
    var admitted := OrderBy(o, Matching(o, jobs, cursor));
    var fetched := if |admitted| <= limit + 1 then admitted else admitted[..limit + 1];
    Paged(o, fetched, limit)
  }

  /** Exactly what a resume condition built from a row admits: the rows after it,
    * except that a non-NULL key never admits a NULL one. */
  lemma ResumeIff(o: Ordering, r: Job, j: Job)
    ensures Resume(o, Some(CursorAt(o, r)), j).True? <==>
              Before(o, r, j) && (Key(o, r).Some? ==> Key(o, j).Some?)
  {
  }

  /** What a later page admits, every earlier one admitted too. */
  lemma ResumeShrinks(o: Ordering, c: Option<Cursor>, r: Job, j: Job)
    requires Resume(o, c, r).True? && Resume(o, Some(CursorAt(o, r)), j).True?
    ensures Resume(o, c, j).True?
  {
  }

  lemma NextShrinks(o: Ordering, jobs: set<Job>, cursor: Option<Cursor>, r: Job)
    requires r in Matching(o, jobs, cursor)
    ensures |Matching(o, jobs, Some(CursorAt(o, r)))| < |Matching(o, jobs, cursor)|
  {
    var now, later := Matching(o, jobs, cursor), Matching(o, jobs, Some(CursorAt(o, r)));
    forall j | j in later ensures j in now && j != r { ResumeShrinks(o, cursor, r, j); }
    ProperSubset(later, now, r);
  }

  /** Follow the cursors from `cursor` to the last page. */
  ghost function Walk(o: Ordering, jobs: set<Job>, limit: nat, cursor: Option<Cursor>): seq<Job>
    requires IsTable(jobs) && limit >= 1
    decreases |Matching(o, jobs, cursor)|
  {
    var page := List(o, jobs, limit, cursor);
    if page.next.None? then page.jobs
    else
      var admitted := OrderBy(o, Matching(o, jobs, cursor));
      OrderByIsSorted(o, Matching(o, jobs, cursor));
      assert admitted[limit - 1] in SetOf(admitted);
      NextShrinks(o, jobs, cursor, admitted[limit - 1]);
      page.jobs + Walk(o, jobs, limit, page.next)
  }

  // ------------------------------------------------------------------ the walk

  /** A cursor at this row resumes with everything that follows it. */
  ghost predicate Safe(o: Ordering, jobs: set<Job>, r: Job) {
    Key(o, r).None? || forall j :: j in jobs ==> Key(o, j).Some?
  }

  lemma TailOfSorted(o: Ordering, s: seq<Job>, i: nat)
    requires Sorted(o, s) && i < |s|
    ensures Sorted(o, s[i + 1..]) && SetOf(s[i + 1..]) == set j | j in SetOf(s) && Before(o, s[i], j)
  {
    var tail := s[i + 1..];
    forall j | j in SetOf(s) && Before(o, s[i], j) ensures j in SetOf(tail) {
      var k :| 0 <= k < |s| && s[k] == j;
      assert k < i ==> Before(o, s[k], s[i]);
      assert tail[k - i - 1] == j;
    }
    forall j | j in SetOf(tail) ensures j in SetOf(s) && Before(o, s[i], j) {
      var k :| 0 <= k < |tail| && tail[k] == j;
      assert s[i + 1 + k] == j;
    }
  }

  lemma ResumesAfter(o: Ordering, jobs: set<Job>, i: nat)
    requires IsTable(jobs) && i < |OrderBy(o, jobs)| && Safe(o, jobs, OrderBy(o, jobs)[i])
    ensures OrderBy(o, Matching(o, jobs, Some(CursorAt(o, OrderBy(o, jobs)[i])))) == OrderBy(o, jobs)[i + 1..]
  {
    var s := OrderBy(o, jobs);
    OrderByIsSorted(o, jobs);
    var admitted := Matching(o, jobs, Some(CursorAt(o, s[i])));
    TailOfSorted(o, s, i);
    forall j | j in jobs ensures j in admitted <==> Before(o, s[i], j) { ResumeIff(o, s[i], j); }
    OrderByIsSorted(o, admitted);
    SortedUnique(o, OrderBy(o, admitted), s[i + 1..]);
  }

  lemma SafeLater(o: Ordering, jobs: set<Job>, i: nat, k: nat)
    requires IsTable(jobs) && i <= k < |OrderBy(o, jobs)| && Safe(o, jobs, OrderBy(o, jobs)[i])
    ensures Safe(o, jobs, OrderBy(o, jobs)[k])
  {
    OrderByIsSorted(o, jobs);
    assert i < k ==> Before(o, OrderBy(o, jobs)[i], OrderBy(o, jobs)[k]);
  }

  /** From a safe row the walk returns the whole rest of the list, in order. */
  lemma {:induction false} WalkRest(o: Ordering, jobs: set<Job>, limit: nat, s: seq<Job>, i: nat)
    requires IsTable(jobs) && limit >= 1 && s == OrderBy(o, jobs)
    requires i < |s| && Safe(o, jobs, s[i])
    ensures Walk(o, jobs, limit, Some(CursorAt(o, s[i]))) == s[i + 1..]
    decreases |s| - i
  {
    if |s| - i - 1 <= limit {
      LastPageAfter(o, jobs, limit, s, i);
    } else {
      var next := i + limit;
      SafeLater(o, jobs, i, next);
      WalkRest(o, jobs, limit, s, next);
      PageAfter(o, jobs, limit, s, i, next);
      TailInTwo(s, i, limit);
    }
  }

  lemma LastPageAfter(o: Ordering, jobs: set<Job>, limit: nat, s: seq<Job>, i: nat)
    requires IsTable(jobs) && limit >= 1 && s == OrderBy(o, jobs)
    requires i < |s| <= i + 1 + limit && Safe(o, jobs, s[i])
    ensures Walk(o, jobs, limit, Some(CursorAt(o, s[i]))) == s[i + 1..]
  {
    ResumesAfter(o, jobs, i);
    WalkLastPage(o, jobs, limit, Some(CursorAt(o, s[i])), s[i + 1..]);
  }

  lemma PageAfter(o: Ordering, jobs: set<Job>, limit: nat, s: seq<Job>, i: nat, next: nat)
    requires IsTable(jobs) && limit >= 1 && s == OrderBy(o, jobs)
    requires next == i + limit < |s| - 1 && Safe(o, jobs, s[i])
    ensures Walk(o, jobs, limit, Some(CursorAt(o, s[i])))
            == s[i + 1..][..limit] + Walk(o, jobs, limit, Some(CursorAt(o, s[next])))
  {
    ResumesAfter(o, jobs, i);
    TailInTwo(s, i, limit);
    WalkOnePage(o, jobs, limit, Some(CursorAt(o, s[i])), s[i + 1..]);
  }

  lemma TailInTwo(s: seq<Job>, i: nat, limit: nat)
    requires limit >= 1 && i + limit < |s|
    ensures s[i + 1..][limit - 1] == s[i + limit]
    ensures s[i + 1..] == s[i + 1..][..limit] + s[i + limit + 1..]
  {
  }

  lemma WalkLastPage(o: Ordering, jobs: set<Job>, limit: nat, cursor: Option<Cursor>, admitted: seq<Job>)
    requires IsTable(jobs) && limit >= |admitted| && limit >= 1
    requires admitted == OrderBy(o, Matching(o, jobs, cursor))
    ensures Walk(o, jobs, limit, cursor) == admitted
  {
  }

  lemma WalkOnePage(o: Ordering, jobs: set<Job>, limit: nat, cursor: Option<Cursor>, admitted: seq<Job>)
    requires IsTable(jobs) && 1 <= limit < |admitted| && admitted == OrderBy(o, Matching(o, jobs, cursor))
    ensures Walk(o, jobs, limit, cursor)
            == admitted[..limit] + Walk(o, jobs, limit, Some(CursorAt(o, admitted[limit - 1])))
  {
  }

  /** The first page sees the whole board. */
  lemma FirstPage(o: Ordering, jobs: set<Job>)
    ensures Matching(o, jobs, None) == jobs
  {
  }

  /** The rows whose leading key is not NULL; they are a prefix of the list. */
  ghost function Keyed(o: Ordering, jobs: set<Job>): set<Job> { set j | j in jobs && Key(o, j).Some? }

  lemma KeyedIsPrefix(o: Ordering, jobs: set<Job>)
    requires IsTable(jobs)
    ensures |Keyed(o, jobs)| <= |jobs|
    ensures OrderBy(o, Keyed(o, jobs)) == OrderBy(o, jobs)[..|Keyed(o, jobs)|]
    ensures forall i :: 0 <= i < |jobs| ==>
              (Key(o, OrderBy(o, jobs)[i]).Some? <==> i < |Keyed(o, jobs)|)
  {
    var k, n := KeyedAndRest(o, jobs);
    assert (k + n)[..|k|] == k;
  }

  lemma KeyedAndRest(o: Ordering, jobs: set<Job>) returns (k: seq<Job>, n: seq<Job>)
    requires IsTable(jobs)
    ensures OrderBy(o, jobs) == k + n && OrderBy(o, Keyed(o, jobs)) == k
    ensures |k| == |Keyed(o, jobs)| && |k + n| == |jobs|
    ensures forall i :: 0 <= i < |k + n| ==> (Key(o, (k + n)[i]).Some? <==> i < |k|)
  {
    var keyed := Keyed(o, jobs);
    k, n := OrderBy(o, keyed), OrderBy(o, jobs - keyed);
    OrderByIsSorted(o, keyed);
    OrderByIsSorted(o, jobs - keyed);
    KeyedThenRest(o, k, n, keyed, jobs - keyed);
    assert keyed + (jobs - keyed) == jobs;
    OrderByIs(o, jobs, k + n);
  }

  lemma OrderByIs(o: Ordering, jobs: set<Job>, s: seq<Job>)
    requires IsTable(jobs) && Sorted(o, s) && SetOf(s) == jobs
    ensures OrderBy(o, jobs) == s
  {
    OrderByIsSorted(o, jobs);
    SortedUnique(o, OrderBy(o, jobs), s);
  }

  lemma KeyedThenRest(o: Ordering, k: seq<Job>, n: seq<Job>, keyed: set<Job>, rest: set<Job>)
    requires Sorted(o, k) && Sorted(o, n) && SetOf(k) == keyed && SetOf(n) == rest
    requires forall j :: j in keyed ==> Key(o, j).Some?
    requires forall j :: j in rest ==> Key(o, j).None?
    ensures Sorted(o, k + n) && SetOf(k + n) == keyed + rest
    ensures forall i :: 0 <= i < |k + n| ==> (Key(o, (k + n)[i]).Some? <==> i < |k|)
  {
    forall i | 0 <= i < |k| ensures Key(o, k[i]).Some? { assert k[i] in keyed; }
    forall i | 0 <= i < |n| ensures Key(o, n[i]).None? { assert n[i] in rest; }
    forall i, j | 0 <= i < |k| && 0 <= j < |n| ensures Before(o, k[i], n[j]) {}
    forall i, j | 0 <= i < j < |k + n| ensures Before(o, (k + n)[i], (k + n)[j]) {
      if i >= |k| { assert (k + n)[i] == n[i - |k|] && (k + n)[j] == n[j - |k|]; }
    }
  }

  /** A cursor with a key walks the keyed rows only. */
  lemma {:induction false} WalkIgnoresUnkeyed(o: Ordering, jobs: set<Job>, limit: nat, c: Cursor)
    requires IsTable(jobs) && limit >= 1 && o.field.Some? && c.sortKey.Some?
    ensures Walk(o, jobs, limit, Some(c)) == Walk(o, Keyed(o, jobs), limit, Some(c))
    decreases |Matching(o, jobs, Some(c))|
  {
    var admitted := OrderBy(o, Matching(o, jobs, Some(c)));
    assert Matching(o, jobs, Some(c)) == Matching(o, Keyed(o, jobs), Some(c));
    if |admitted| <= limit {
      WalkLastPage(o, jobs, limit, Some(c), admitted);
      WalkLastPage(o, Keyed(o, jobs), limit, Some(c), admitted);
    } else {
      WalkOnePage(o, jobs, limit, Some(c), admitted);
      WalkOnePage(o, Keyed(o, jobs), limit, Some(c), admitted);
      OrderByIsSorted(o, Matching(o, jobs, Some(c)));
      assert admitted[limit - 1] in SetOf(admitted);
      NextShrinks(o, jobs, Some(c), admitted[limit - 1]);
      WalkIgnoresUnkeyed(o, jobs, limit, CursorAt(o, admitted[limit - 1]));
    }
  }

  lemma WalkFromTop(o: Ordering, jobs: set<Job>, limit: nat)
    requires IsTable(jobs) && limit >= 1
    requires |OrderBy(o, jobs)| > limit ==> Safe(o, jobs, OrderBy(o, jobs)[limit - 1])
    ensures Walk(o, jobs, limit, None) == OrderBy(o, jobs)
  {
    var s := OrderBy(o, jobs);
    FirstPage(o, jobs);
    if |s| <= limit {
      WalkLastPage(o, jobs, limit, None, s);
    } else {
      assert Walk(o, jobs, limit, None) == s[..limit] + Walk(o, jobs, limit, Some(CursorAt(o, s[limit - 1]))) by {
        WalkOnePage(o, jobs, limit, None, s);
      }
      assert Walk(o, jobs, limit, Some(CursorAt(o, s[limit - 1]))) == s[limit..] by {
        WalkRest(o, jobs, limit, s, limit - 1);
      }
      assert s == s[..limit] + s[limit..];
    }
  }

  // ------------------------------------------------------------- main results

  /** With no leading key, or none of them NULL, walking the board page by page
    * yields exactly the full list in order, for any page size. */
  lemma WalkIsComplete(o: Ordering, jobs: set<Job>, limit: nat)
    requires IsTable(jobs) && limit >= 1
    requires o.field.None? || Keyed(o, jobs) == jobs
    ensures Walk(o, jobs, limit, None) == OrderBy(o, jobs)
  {
    assert forall j :: j in Keyed(o, jobs) ==> Key(o, j).Some?;
    WalkFromTop(o, jobs, limit);
  }

  /** With NULL keys on the board, the walk returns everything when the keyed rows
    * do not fill the first page, and otherwise stops at the last keyed row. */
  lemma WalkWithUnkeyed(o: Ordering, jobs: set<Job>, limit: nat)
    requires IsTable(jobs) && limit >= 1 && o.field.Some? && Keyed(o, jobs) != jobs
    ensures Walk(o, jobs, limit, None)
            == if |Keyed(o, jobs)| < limit then OrderBy(o, jobs) else OrderBy(o, Keyed(o, jobs))
    ensures |OrderBy(o, Keyed(o, jobs))| < |OrderBy(o, jobs)|
  {
    var keyed := Keyed(o, jobs);
    assert jobs == keyed + (jobs - keyed);
    var missing :| missing in jobs - keyed;
    ProperSubset(keyed, jobs, missing);
    if |keyed| >= limit {
      WalkStopsAtKeyed(o, jobs, limit);
    } else {
      WalkReachesUnkeyed(o, jobs, limit);
    }
  }

  lemma WalkReachesUnkeyed(o: Ordering, jobs: set<Job>, limit: nat)
    requires IsTable(jobs) && |Keyed(o, jobs)| < limit
    ensures Walk(o, jobs, limit, None) == OrderBy(o, jobs)
  {
    if |OrderBy(o, jobs)| > limit {
      assert Key(o, OrderBy(o, jobs)[limit - 1]).None? by { KeyedIsPrefix(o, jobs); }
    }
    WalkFromTop(o, jobs, limit);
  }

  lemma WalkStopsAtKeyed(o: Ordering, jobs: set<Job>, limit: nat)
    requires IsTable(jobs) && 1 <= limit <= |Keyed(o, jobs)| < |jobs| && o.field.Some?
    ensures Walk(o, jobs, limit, None) == OrderBy(o, Keyed(o, jobs))
  {
    var s, keyed := OrderBy(o, jobs), Keyed(o, jobs);
    var k := OrderBy(o, keyed);
    var c := CursorAt(o, s[limit - 1]);
    assert k == s[..|k|] && Key(o, s[limit - 1]).Some? by { KeyedIsPrefix(o, jobs); }
    assert k[limit - 1] == s[limit - 1] && k[..limit] == s[..limit];
    assert Walk(o, jobs, limit, None) == s[..limit] + Walk(o, jobs, limit, Some(c)) by {
      FirstPage(o, jobs);
      WalkOnePage(o, jobs, limit, None, s);
    }
    assert Walk(o, jobs, limit, Some(c)) == k[limit..] by {
      WalkIgnoresUnkeyed(o, jobs, limit, c);
      WalkRest(o, keyed, limit, k, limit - 1);
    }
    assert k == k[..limit] + k[limit..];
  }

  /** The board's promise, and exactly when the code keeps it. */
  lemma WalkIsCompleteIff(o: Ordering, jobs: set<Job>, limit: nat)
    requires IsTable(jobs) && limit >= 1
    ensures Walk(o, jobs, limit, None) == OrderBy(o, jobs)
            <==> o.field.None? || Keyed(o, jobs) == jobs || |Keyed(o, jobs)| < limit
  {
    if o.field.None? || Keyed(o, jobs) == jobs {
      WalkIsComplete(o, jobs, limit);
    } else {
      WalkWithUnkeyed(o, jobs, limit);
    }
  }

  /** The larger value first, rows without one last, ties newest first. */
  predicate LargestFirst(x: Option<real>, y: Option<real>, a: Job, b: Job) {
    if x == y then Newer(a, b) else x.Some? && (y.Some? ==> x.value > y.value)
  }

  predicate SmallestFirst(x: Option<real>, y: Option<real>, a: Job, b: Job) {
    if x == y then Newer(a, b) else x.Some? && (y.Some? ==> x.value < y.value)
  }

  function Cents(budget: Option<int>): Option<real> { if budget.Some? then Some(budget.value as real) else None }

  /** `a` comes before `b`, in the terms of what was asked for. */
  predicate AsAsked(sort: Sort, given: Supplied, a: Job, b: Job) {
    if sort.Budget? then LargestFirst(Cents(a.budget), Cents(b.budget), a, b)
    else if sort.Distance? && given.near then SmallestFirst(a.distance, b.distance, a, b)
    else if sort.Best? && given.query then LargestFirst(a.relevance, b.relevance, a, b)
    else if sort.ForMe? && given.viewer then LargestFirst(a.fit, b.fit, a, b)
    else Newer(a, b)
  }

  lemma BeforeIsAsAsked(sort: Sort, given: Supplied, a: Job, b: Job)
    ensures Before(OrderingFor(sort, given), a, b) <==> AsAsked(sort, given, a, b)
  {
  }

  lemma WalkIsSorted(o: Ordering, jobs: set<Job>, limit: nat)
    requires IsTable(jobs) && limit >= 1
    ensures Sorted(o, Walk(o, jobs, limit, None))
  {
    OrderByIsSorted(o, jobs);
    OrderByIsSorted(o, Keyed(o, jobs));
    if o.field.None? || Keyed(o, jobs) == jobs {
      WalkIsComplete(o, jobs, limit);
    } else {
      WalkWithUnkeyed(o, jobs, limit);
    }
  }

  /** Biggest budget, nearest, most relevant or best fit first, and every request
    * with nothing to sort on newest first: on the whole walk, across its pages. */
  lemma WalkIsAsAsked(sort: Sort, given: Supplied, jobs: set<Job>, limit: nat, walk: seq<Job>, i: nat, k: nat)
    requires IsTable(jobs) && limit >= 1 && walk == Walk(OrderingFor(sort, given), jobs, limit, None)
    requires i < k < |walk|
    ensures AsAsked(sort, given, walk[i], walk[k])
  {
    WalkIsSorted(OrderingFor(sort, given), jobs, limit);
    BeforeIsAsAsked(sort, given, walk[i], walk[k]);
  }

  /** The failing case in the small: one budgeted job, one without, pages of one.
    * The unbudgeted job is on the board and on no page. */
  lemma UnbudgetedJobIsNeverReached(given: Supplied, a: Job, b: Job)
    requires a.id != b.id && a.budget.Some? && b.budget.None?
    ensures Walk(OrderingFor(Budget, given), {a, b}, 1, None) == [a]
  {
    var o := OrderingFor(Budget, given);
    assert Keyed(o, {a, b}) == {a};
    assert b in {a, b} && b !in Keyed(o, {a, b});
    WalkWithUnkeyed(o, {a, b}, 1);
    OrderByIsSorted(o, {a});
    assert OrderBy(o, {a})[0] in SetOf(OrderBy(o, {a}));
    assert OrderBy(o, {a}) == [a];
  }
}
