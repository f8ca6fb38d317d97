/** The licence importer: rows are filtered and built one at a time, and written
  * in batches, each batch one transaction. */
module LicenceImport {
  import opened Prelude

  type LicenceNo = nat
  type County = nat
  type Name = string

  /** What a licence says: the business name, and the rest. */
  datatype Content = Content(name: Name, details: nat)

  datatype Record = Record(licence: LicenceNo, content: Content)

  /** A line of the file: unreadable, or read, with what building it gave. */
  datatype Row = Malformed | Read(county: Option<County>, built: Option<Record>)

  /** The listing made from a licence. The slug is made once, from the name of the
    * day; the name belongs to the owner once there is one; the rest, postal code and
    * trades, always comes from the licence. */
  datatype Listing = Listing(claimed: bool, name: Name, slugFrom: Name, details: nat)

  datatype Database = Database(licences: map<LicenceNo, Content>, listings: map<LicenceNo, Listing>)

  datatype Outcome = Inserted | Updated | Unchanged

  datatype Counts = Counts(read: nat, skipped: nat, rejected: nat, inserted: nat, updated: nat, same: nat)

  // -------------------------------------------------------- the simple reading

  function OutcomeOf(db: Database, r: Record): Outcome {
    if r.licence !in db.licences then Inserted
    else if db.licences[r.licence] == r.content then Unchanged else Updated
  }

  function Projected(listings: map<LicenceNo, Listing>, r: Record): Listing {
    if r.licence !in listings then Listing(false, r.content.name, r.content.name, r.content.details)
    else
      var l := listings[r.licence];
      l.(name := if l.claimed then l.name else r.content.name, details := r.content.details)
  }

  /** Unchanged rows are not projected again. */
  function Upserted(db: Database, r: Record): Database {
    if OutcomeOf(db, r).Unchanged? then db
    else Database(db.licences[r.licence := r.content], db.listings[r.licence := Projected(db.listings, r)])
  }

  function Fold(db: Database, records: seq<Record>): Database {
    if records == [] then db else Upserted(Fold(db, records[..|records| - 1]), records[|records| - 1])
  }

  /** How many of the records, written in order, end with this outcome. */
  function Tally(db: Database, records: seq<Record>, o: Outcome): nat {
    if records == [] then 0 else
      var before := records[..|records| - 1];
      Tally(db, before, o) + if OutcomeOf(Fold(db, before), records[|records| - 1]) == o then 1 else 0
  }

  predicate Wanted(row: Row, county: Option<County>) { row.Read? && (county.None? || row.county == county) }

  function Addition(row: Row, county: Option<County>): seq<Record> {
    if Wanted(row, county) && row.built.Some? then [row.built.value] else []
  }

  /** The records the file asks to have written, in order. */
  function Kept(rows: seq<Row>, county: Option<County>): seq<Record> {
    if rows == [] then [] else
      Kept(rows[..|rows| - 1], county) + Addition(rows[|rows| - 1], county)
  }

  function Unreadable(rows: seq<Row>): nat {
    if rows == [] then 0 else Unreadable(rows[..|rows| - 1]) + if rows[|rows| - 1].Malformed? then 1 else 0
  }

  // ------------------------------------------------------------- about the fold

  lemma {:induction false} FoldInTwo(db: Database, a: seq<Record>, b: seq<Record>)
    ensures Fold(db, a + b) == Fold(Fold(db, a), b)
    ensures forall o :: Tally(db, a + b, o) == Tally(db, a, o) + Tally(Fold(db, a), b, o)
    decreases |b|
  {
    if b == [] {
      assert a + b == a;
    } else {
      var b' := b[..|b| - 1];
      FoldInTwo(db, a, b');
      assert (a + b)[..|a + b| - 1] == a + b';
    }
  }

  /** Every record has exactly one outcome. */
  lemma {:induction false} OutcomesAddUp(db: Database, records: seq<Record>)
    ensures Tally(db, records, Inserted) + Tally(db, records, Updated) + Tally(db, records, Unchanged) == |records|
    decreases |records|
  {
    if records != [] { OutcomesAddUp(db, records[..|records| - 1]); }
  }

  /** The listing reflects its licence: all of it if nobody has claimed it, and all
    * but the name if somebody has. */
  predicate InStep(db: Database, n: LicenceNo) {
    && n in db.licences && n in db.listings
    && db.listings[n].details == db.licences[n].details
    && (!db.listings[n].claimed ==> db.listings[n].name == db.licences[n].name)
  }

  /** Nothing about this licence or its listing differs. */
  predicate SameAt(a: Database, b: Database, n: LicenceNo) {
    && (n in a.licences <==> n in b.licences) && (n in a.licences && n in b.licences ==> a.licences[n] == b.licences[n])
    && (n in a.listings <==> n in b.listings) && (n in a.listings && n in b.listings ==> a.listings[n] == b.listings[n])
  }

  /** The records say of this licence only what is stored already. */
  predicate Nothing(db: Database, records: seq<Record>, n: LicenceNo) {
    forall i :: 0 <= i < |records| && records[i].licence == n ==>
        n in db.licences && db.licences[n] == records[i].content
  }

  lemma {:induction false} QuietAt(db: Database, records: seq<Record>, n: LicenceNo)
    requires Nothing(db, records, n)
    ensures SameAt(db, Fold(db, records), n)
    decreases |records|
  {
    if records != [] {
      var before := records[..|records| - 1];
      assert forall i :: 0 <= i < |before| ==> before[i] == records[i];
      QuietAt(db, before, n);
    }
  }

  /** Skipping the projection of unchanged rows is safe. A listing that reflected its
    * licence still does; and so does every listing whose licence the import added or
    * changed, whatever it looked like before. */
  lemma {:induction false} ProjectionInStep(db: Database, records: seq<Record>, n: LicenceNo)
    ensures InStep(db, n) || !Nothing(db, records, n) ==> InStep(Fold(db, records), n)
    decreases |records|
  {
    if records != [] {
      var before, last := records[..|records| - 1], records[|records| - 1];
      assert forall i :: 0 <= i < |before| ==> before[i] == records[i];
      ProjectionInStep(db, before, n);
      if Nothing(db, before, n) { QuietAt(db, before, n); }
      assert Nothing(db, before, n) && (last.licence == n ==> n in db.licences && db.licences[n] == last.content) ==>
               Nothing(db, records, n);
    }
  }

  /** What an import never touches: whether a listing is claimed, its slug, and the
    * name of a claimed one. */
  lemma {:induction false} OwnersKeepTheirs(db: Database, records: seq<Record>, n: LicenceNo)
    requires n in db.listings
    ensures n in Fold(db, records).listings
    ensures var l, l' := db.listings[n], Fold(db, records).listings[n];
      l'.claimed == l.claimed && l'.slugFrom == l.slugFrom && (l.claimed ==> l'.name == l.name)
    decreases |records|
  {
    if records != [] { OwnersKeepTheirs(db, records[..|records| - 1], n); }
  }

  /** What the file says about a licence, if anything: its last word. */
  function LastWord(records: seq<Record>, n: LicenceNo): Option<Content> {
    if records == [] then None
    else if records[|records| - 1].licence == n then Some(records[|records| - 1].content)
    else LastWord(records[..|records| - 1], n)
  }

  lemma {:induction false} FoldIsLastWord(db: Database, records: seq<Record>, n: LicenceNo)
    ensures n in Fold(db, records).licences <==> n in db.licences || LastWord(records, n).Some?
    ensures n in Fold(db, records).licences ==>
              Fold(db, records).licences[n] ==
              if LastWord(records, n).Some? then LastWord(records, n).value else db.licences[n]
    decreases |records|
  {
    if records != [] { FoldIsLastWord(db, records[..|records| - 1], n); }
  }

  /** The first thing the file says about a licence. */
  function FirstSaid(records: seq<Record>, n: LicenceNo): Option<Content> {
    if records == [] then None
    else if records[0].licence == n then Some(records[0].content)
    else FirstSaid(records[1..], n)
  }

  lemma {:induction false} FirstSaidNext(records: seq<Record>, last: Record, n: LicenceNo)
    ensures FirstSaid(records + [last], n) ==
            if FirstSaid(records, n).Some? then FirstSaid(records, n)
            else if last.licence == n then Some(last.content) else None
    decreases |records|
  {
    if records != [] {
      assert (records + [last])[1..] == records[1..] + [last];
      FirstSaidNext(records[1..], last, n);
    }
  }

  /** A licence nobody knew gets a listing exactly if the file names it: unclaimed,
    * with all the file last said, and a slug from what it said first. */
  lemma {:induction false} NewListingIs(db: Database, records: seq<Record>, n: LicenceNo)
    requires n !in db.licences && n !in db.listings
    ensures FirstSaid(records, n).Some? <==> LastWord(records, n).Some?
    ensures n in Fold(db, records).licences <==> FirstSaid(records, n).Some?
    ensures n in Fold(db, records).listings <==> FirstSaid(records, n).Some?
    ensures FirstSaid(records, n).Some? && LastWord(records, n).Some? && n in Fold(db, records).listings ==>
              var first, last := FirstSaid(records, n).value, LastWord(records, n).value;
              Fold(db, records).listings[n] == Listing(false, last.name, first.name, last.details)
    decreases |records|
  {
    if records != [] {
      var before, last := records[..|records| - 1], records[|records| - 1];
      NewListingIs(db, before, n);
      FoldIsLastWord(db, before, n);
      FirstSaidNext(before, last, n);
      assert before + [last] == records;
    }
  }

  /** As many records end inserted as there are licences more than before. */
  lemma {:induction false} InsertedAreNew(db: Database, records: seq<Record>)
    ensures |Fold(db, records).licences| == |db.licences| + Tally(db, records, Inserted)
    decreases |records|
  {
    if records != [] {
      var before, last := records[..|records| - 1], records[|records| - 1];
      InsertedAreNew(db, before);
      var m := Fold(db, before).licences;
      if last.licence in m {
        assert m[last.licence := last.content].Keys == m.Keys;
      } else {
        assert m[last.licence := last.content].Keys == m.Keys + {last.licence};
      }
      KeysCount(m);
      KeysCount(Fold(db, records).licences);
    }
  }

  lemma KeysCount(m: map<LicenceNo, Content>)
    ensures |m.Keys| == |m|
  {
  }

  /** Which lines are kept: those read and well formed, of the county asked for if one
    * was, in the order of the file; and no others. */
  lemma {:induction false} KeptAre(rows: seq<Row>, county: Option<County>) returns (at: seq<nat>)
    ensures |at| == |Kept(rows, county)| && forall i, j :: 0 <= i < j < |at| ==> at[i] < at[j]
    ensures forall i :: 0 <= i < |at| ==>
              at[i] < |rows| && rows[at[i]].Read? && rows[at[i]].built == Some(Kept(rows, county)[i])
    ensures forall k :: 0 <= k < |rows| ==>
              (k in at <==> && rows[k].Read? && rows[k].built.Some?
                            && (county.Some? ==> rows[k].county == Some(county.value)))
    decreases |rows|
  {
    at := [];
    if rows != [] {
      var last := |rows| - 1;
      at := KeptAre(rows[..last], county);
      if rows[last].Read? && rows[last].built.Some? && (county.Some? ==> rows[last].county == Some(county.value)) {
        at := at + [last];
      }
    }
  }

  lemma AgainAt(db: Database, records: seq<Record>, n: LicenceNo)
    ensures SameAt(Fold(db, records), Fold(Fold(db, records), records), n)
  {
    var once := Fold(db, records);
    if Nothing(db, records, n) {
      QuietAt(db, records, n);
      QuietAt(once, records, n);
    } else {
      FoldIsLastWord(db, records, n);
      FoldIsLastWord(once, records, n);
      ProjectionInStep(db, records, n);
      ProjectionInStep(once, records, n);
      OwnersKeepTheirs(once, records, n);
    }
  }

  /** Importing the same file again changes nothing, whatever the database held. */
  lemma ImportIsIdempotent(db: Database, records: seq<Record>)
    ensures Fold(Fold(db, records), records) == Fold(db, records)
  {
    var once, twice := Fold(db, records), Fold(Fold(db, records), records);
    forall n: LicenceNo
      ensures (n in once.licences <==> n in twice.licences) && (n in once.listings <==> n in twice.listings)
      ensures n in once.licences ==> once.licences[n] == twice.licences[n]
      ensures n in once.listings ==> once.listings[n] == twice.listings[n]
    {
      AgainAt(db, records, n);
    }
    assert once.licences == twice.licences && once.listings == twice.listings;
  }

  // -------------------------------------------------------------- the real loop

  datatype Options = Options(county: Option<County>, batchSize: nat, dryRun: bool)

  /** The loop's variables between two lines; `failed` once a batch was refused, and
    * `flushes` the number of batches flushed. */
  datatype Loop = Loop(db: Database, batch: seq<Record>, counts: Counts, failed: bool, flushes: nat)

  /** Where a flush may go wrong: opening the transaction, at any statement of any
    * record, or committing. */
  datatype Failure = AtBegin | AtRecord(position: nat) | AtCommit

  /** Which flushes go wrong, by number: the database's business, not the file's. */
  type Trouble = map<nat, Failure>

  predicate Breaks(trouble: Trouble, flush: nat, size: nat) {
    flush in trouble && (trouble[flush].AtRecord? ==> trouble[flush].position < size)
  }

  function WithTally(c: Counts, db: Database, records: seq<Record>): Counts {
    c.(inserted := c.inserted + Tally(db, records, Inserted),
       updated := c.updated + Tally(db, records, Updated),
       same := c.same + Tally(db, records, Unchanged))
  }

  /** One batch in one transaction: all of it, or an error and none of it. */
  function Flushed(l: Loop, dryRun: bool, trouble: Trouble): Loop {
    if dryRun then
      l.(batch := [], counts := l.counts.(inserted := l.counts.inserted + |l.batch|), flushes := l.flushes + 1)
    else if Breaks(trouble, l.flushes, |l.batch|) then l.(failed := true)
    else Loop(Fold(l.db, l.batch), [], WithTally(l.counts, l.db, l.batch), false, l.flushes + 1)
  }

  /** A line is counted, and put in the batch if it is wanted and well formed. */
  function Sorted(batch: seq<Record>, c: Counts, row: Row, county: Option<County>): (seq<Record>, Counts) {
    if row.Malformed? then (batch, c.(rejected := c.rejected + 1))
    else if !Wanted(row, county) then (batch, c.(read := c.read + 1, skipped := c.skipped + 1))
    else if row.built.None? then (batch, c.(read := c.read + 1, rejected := c.rejected + 1))
    else (batch + [row.built.value], c.(read := c.read + 1))
  }

  function Next(l: Loop, row: Row, o: Options, trouble: Trouble): Loop {
    if l.failed then l
    else
      var (batch, counts) := Sorted(l.batch, l.counts, row, o.county);
      var m := l.(batch := batch, counts := counts);
      if Wanted(row, o.county) && |batch| >= o.batchSize then Flushed(m, o.dryRun, trouble) else m
  }

  function AfterRows(l: Loop, rows: seq<Row>, o: Options, trouble: Trouble): Loop {
    if rows == [] then l else Next(AfterRows(l, rows[..|rows| - 1], o, trouble), rows[|rows| - 1], o, trouble)
  }

  function Started(db: Database): Loop { Loop(db, [], Counts(0, 0, 0, 0, 0, 0), false, 0) }

  function Imported(db: Database, rows: seq<Row>, o: Options, trouble: Trouble): Loop {
    var l := AfterRows(Started(db), rows, o, trouble);
    if l.failed || l.batch == [] then l else Flushed(l, o.dryRun, trouble)
  }

  /** The store the importer writes to. */
  class Importer {
    var db: Database

    constructor (start: Database)
      ensures db == start
    {
      db := start;
    }

    method Flush(batch: seq<Record>, dryRun: bool, flush: nat, trouble: Trouble, counts: Counts)
        returns (r: Result<Counts, ()>)
      modifies this
      ensures var l := Flushed(Loop(old(db), batch, counts, false, flush), dryRun, trouble);
              db == l.db && (r.Err? <==> l.failed) && (r.Ok? ==> r.value == l.counts)
    {
      if dryRun { return Ok(counts.(inserted := counts.inserted + |batch|)); }
      if flush in trouble && trouble[flush].AtBegin? { return Err(()); }
      var saved := db;
      var c := counts;
      for i := 0 to |batch|
        invariant db == Fold(saved, batch[..i]) && c == WithTally(counts, saved, batch[..i])
        invariant !Breaks(trouble, flush, i) || trouble[flush].AtCommit?
      {
        if flush in trouble && trouble[flush] == AtRecord(i) { db := saved; return Err(()); }
        assert batch[..i + 1][..i] == batch[..i];
        c := Write(batch[i], c);
      }
      assert batch[..|batch|] == batch;
      if flush in trouble && trouble[flush].AtCommit? { db := saved; return Err(()); }
      r := Ok(c);
    }

    /** One record: the licence, and the listing unless nothing changed. */
    method Write(record: Record, counts: Counts) returns (c: Counts)
      modifies this
      ensures db == Upserted(old(db), record)
      ensures c == match OutcomeOf(old(db), record)
                   case Inserted => counts.(inserted := counts.inserted + 1)
                   case Updated => counts.(updated := counts.updated + 1)
                   case Unchanged => counts.(same := counts.same + 1)
    {
      c := counts;
      var n := record.licence;
      if n !in db.licences {
        c := c.(inserted := c.inserted + 1);
      } else if db.licences[n] != record.content {
        c := c.(updated := c.updated + 1);
      } else {
        c := c.(same := c.same + 1);
        return;
      }
      var listing := Listing(false, record.content.name, record.content.name, record.content.details);
      if n in db.listings {
        listing := db.listings[n].(details := record.content.details);
        if !listing.claimed { listing := listing.(name := record.content.name); }
      }
      db := Database(db.licences[n := record.content], db.listings[n := listing]);
    }

    method Sort(row: Row, county: Option<County>, batch: seq<Record>, counts: Counts)
        returns (grown: seq<Record>, c: Counts, considered: bool)
      ensures (grown, c) == Sorted(batch, counts, row, county) && (considered <==> Wanted(row, county))
    {
      grown, c, considered := batch, counts, false;
      if row.Malformed? {
        c := c.(rejected := c.rejected + 1);
        return;
      }
      c := c.(read := c.read + 1);
      if county.Some? && row.county != county {
        c := c.(skipped := c.skipped + 1);
        return;
      }
      if row.built.Some? {
        grown := grown + [row.built.value];
      } else {
        c := c.(rejected := c.rejected + 1);
      }
      considered := true;
    }

    method ImportRows(rows: seq<Row>, o: Options, trouble: Trouble) returns (r: Result<Counts, ()>)
      modifies this
      ensures var l := Imported(old(db), rows, o, trouble);
              db == l.db && (r.Err? <==> l.failed) && (r.Ok? ==> r.value == l.counts)
    {
      ghost var start := Started(db);
      var counts := Counts(0, 0, 0, 0, 0, 0);
      var batch: seq<Record> := [];
      var flushes := 0;
      for i := 0 to |rows|
        invariant Loop(db, batch, counts, false, flushes) == AfterRows(start, rows[..i], o, trouble)
      {
        assert rows[..i + 1][..i] == rows[..i];
        var considered;
        batch, counts, considered := Sort(rows[i], o.county, batch, counts);
        if considered && |batch| >= o.batchSize {
          var outcome := Flush(batch, o.dryRun, flushes, trouble, counts);
          if outcome.Err? {
            StaysFailed(start, rows, i + 1, o, trouble);
            return Err(());
          }
          counts, batch, flushes := outcome.value, [], flushes + 1;
        }
      }
      assert rows[..|rows|] == rows;
      if batch != [] {
        var outcome := Flush(batch, o.dryRun, flushes, trouble, counts);
        if outcome.Err? { return Err(()); }
        counts := outcome.value;
      }
      r := Ok(counts);
    }
  }

  lemma {:induction false} StaysFailed(l: Loop, rows: seq<Row>, i: nat, o: Options, trouble: Trouble)
    requires i <= |rows| && AfterRows(l, rows[..i], o, trouble).failed
    ensures AfterRows(l, rows, o, trouble) == AfterRows(l, rows[..i], o, trouble)
    decreases |rows|
  {
    if i == |rows| {
      assert rows[..i] == rows;
    } else {
      assert rows[..|rows| - 1][..i] == rows[..i];
      StaysFailed(l, rows[..|rows| - 1], i, o, trouble);
    }
  }

  // ------------------------------------------------- batched equals row by row

  /** With a batch size of zero every record is flushed on its own. */
  function BatchUnit(batchSize: nat): nat { if batchSize == 0 then 1 else batchSize }

  /** What has been written: exactly the fold of the records flushed so far. */
  ghost predicate Written(start: Database, db: Database, dryRun: bool, flushed: seq<Record>, c: Counts) {
    if dryRun then db == start && c.inserted == |flushed| && c.updated == 0 && c.same == 0
    else
      && db == Fold(start, flushed)
      && c.inserted == Tally(start, flushed, Inserted)
      && c.updated == Tally(start, flushed, Updated)
      && c.same == Tally(start, flushed, Unchanged)
  }

  lemma FlushWrites(start: Database, l: Loop, dryRun: bool, trouble: Trouble, flushed: seq<Record>)
    requires Written(start, l.db, dryRun, flushed, l.counts) && !Flushed(l, dryRun, trouble).failed
    ensures Written(start, Flushed(l, dryRun, trouble).db, dryRun, flushed + l.batch,
            Flushed(l, dryRun, trouble).counts)
  {
    FoldInTwo(start, flushed, l.batch);
  }

  /** How the loop's position splits the records kept so far: `flushed` of them are
    * written, as whole batches; the rest wait in `batch`. A loop that has failed
    * failed on that batch, and may have seen more lines since. A batch size of zero
    * also flushes nothing now and then, so only then do flushes and batches differ. */
  ghost predicate Position(kept: seq<Record>, l: Loop, o: Options, trouble: Trouble, flushed: seq<Record>,
                           batches: nat) {
    && |flushed| == batches * BatchUnit(o.batchSize)
    && (o.batchSize >= 1 ==> l.flushes == batches && (!o.dryRun ==> Sound(trouble, batches, o.batchSize)))
    && if l.failed
       then flushed + l.batch <= kept && |l.batch| <= BatchUnit(o.batchSize) && !o.dryRun
            && (o.batchSize >= 1 ==> l.batch != []) && Breaks(trouble, l.flushes, |l.batch|)
            && (|l.batch| < BatchUnit(o.batchSize) ==> o.batchSize == 0)
       else kept == flushed + l.batch && |l.batch| < BatchUnit(o.batchSize)
  }

  /** None of the first `batches` flushes, each of this size, goes wrong. */
  predicate Sound(trouble: Trouble, batches: nat, size: nat) {
    forall k :: 0 <= k < batches ==> !Breaks(trouble, k, size)
  }

  lemma {:induction false} PositionAfter(start: Database, rows: seq<Row>, o: Options, trouble: Trouble)
      returns (flushed: seq<Record>, batches: nat)
    ensures var l := AfterRows(Started(start), rows, o, trouble);
      && Position(Kept(rows, o.county), l, o, trouble, flushed, batches)
      && Written(start, l.db, o.dryRun, flushed, l.counts)
    decreases |rows|
  {
    if rows == [] {
      flushed, batches := [], 0;
    } else {
      var before := rows[..|rows| - 1];
      flushed, batches := PositionAfter(start, before, o, trouble);
      flushed, batches := PositionNext(start, Kept(before, o.county), AfterRows(Started(start), before, o, trouble),
                                       rows[|rows| - 1], o, trouble, flushed, batches);
    }
  }

  lemma PositionNext(start: Database, kept: seq<Record>, l: Loop, row: Row, o: Options, trouble: Trouble,
                     flushed: seq<Record>, batches: nat) returns (flushed': seq<Record>, batches': nat)
    requires Position(kept, l, o, trouble, flushed, batches)
    requires Written(start, l.db, o.dryRun, flushed, l.counts)
    ensures Position(kept + Addition(row, o.county), Next(l, row, o, trouble), o, trouble, flushed', batches')
    ensures Written(start, Next(l, row, o, trouble).db, o.dryRun, flushed', Next(l, row, o, trouble).counts)
  {
    flushed', batches' := flushed, batches;
    if l.failed {
      assert flushed + l.batch <= kept + Addition(row, o.county);
    } else {
      var (batch, counts) := Sorted(l.batch, l.counts, row, o.county);
      var m := l.(batch := batch, counts := counts);
      Regroup(flushed, l.batch, Addition(row, o.county));
      assert m.batch == l.batch + Addition(row, o.county);
      if Wanted(row, o.county) && |m.batch| >= o.batchSize {
        flushed', batches' := PositionFlush(start, kept + Addition(row, o.county), m, o, trouble, flushed, batches);
      }
    }
  }

  lemma PositionFlush(start: Database, kept: seq<Record>, m: Loop, o: Options, trouble: Trouble,
                      flushed: seq<Record>, batches: nat) returns (flushed': seq<Record>, batches': nat)
    requires kept == flushed + m.batch && !m.failed && o.batchSize <= |m.batch| <= BatchUnit(o.batchSize)
    requires |flushed| == batches * BatchUnit(o.batchSize)
    requires o.batchSize >= 1 ==> m.flushes == batches && (!o.dryRun ==> Sound(trouble, batches, o.batchSize))
    requires Written(start, m.db, o.dryRun, flushed, m.counts)
    ensures Position(kept, Flushed(m, o.dryRun, trouble), o, trouble, flushed', batches')
    ensures Written(start, Flushed(m, o.dryRun, trouble).db, o.dryRun, flushed', Flushed(m, o.dryRun, trouble).counts)
  {
    flushed', batches' := flushed, batches;
    if !Flushed(m, o.dryRun, trouble).failed {
      FlushWrites(start, m, o.dryRun, trouble, flushed);
      flushed' := flushed + m.batch;
      assert flushed' + [] == kept;
      if m.batch != [] {
        batches' := batches + 1;
        OneBatchMore(batches, BatchUnit(o.batchSize), |flushed|, |m.batch|);
        if o.batchSize >= 1 && !o.dryRun { StillSound(trouble, batches, o.batchSize); }
      }
    }
  }

  lemma OneBatchMore(batches: nat, unit: nat, flushed: nat, more: nat)
    requires flushed == batches * unit && more == unit
    ensures flushed + more == (batches + 1) * unit
  {
  }

  lemma StillSound(trouble: Trouble, batches: nat, size: nat)
    requires Sound(trouble, batches, size) && !Breaks(trouble, batches, size)
    ensures Sound(trouble, batches + 1, size)
  {
  }

  // ------------------------------------------------------------------ counting

  /** Lines read, unreadable, skipped and rejected. */
  predicate Counted(rows: seq<Row>, county: Option<County>, c: Counts) {
    && c.read + Unreadable(rows) == |rows|
    && c.skipped + c.rejected + |Kept(rows, county)| == |rows|
  }

  lemma {:induction false} CountsAfter(l: Loop, rows: seq<Row>, o: Options, trouble: Trouble)
    requires l.counts == Counts(0, 0, 0, 0, 0, 0) && !AfterRows(l, rows, o, trouble).failed
    ensures Counted(rows, o.county, AfterRows(l, rows, o, trouble).counts)
    decreases |rows|
  {
    if rows != [] { CountsAfter(l, rows[..|rows| - 1], o, trouble); }
  }

  /** The lines of which something holds. */
  ghost function Lines(rows: seq<Row>, holds: Row -> bool): set<nat> { set i | 0 <= i < |rows| && holds(rows[i]) }

  lemma LinesNext(rows: seq<Row>, holds: Row -> bool)
    requires rows != []
    ensures |Lines(rows, holds)|
            == |Lines(rows[..|rows| - 1], holds)| + if holds(rows[|rows| - 1]) then 1 else 0
  {
    var n := |rows| - 1;
    assert Lines(rows, holds) == Lines(rows[..n], holds) + if holds(rows[n]) then {n} else {};
  }

  /** Which lines are counted as read, skipped and rejected: those that could be read, those
    * of them of another county than the one asked for, and those that could not be read
    * or, of the right county, not be built. */
  lemma {:induction false} CountsAre(l: Loop, rows: seq<Row>, o: Options, trouble: Trouble)
    requires l.counts == Counts(0, 0, 0, 0, 0, 0) && !AfterRows(l, rows, o, trouble).failed
    ensures var c, other := AfterRows(l, rows, o, trouble).counts,
                            (row: Row) => row.Read? && o.county.Some? && row.county != o.county;
      && c.read == |Lines(rows, (row: Row) => row.Read?)|
      && c.skipped == |Lines(rows, other)|
      && c.rejected == |Lines(rows, (row: Row) => row.Malformed? || (!other(row) && row.built.None?))|
    decreases |rows|
  {
    var other := (row: Row) => row.Read? && o.county.Some? && row.county != o.county;
    if rows != [] {
      CountsAre(l, rows[..|rows| - 1], o, trouble);
      LinesNext(rows, (row: Row) => row.Read?);
      LinesNext(rows, other);
      LinesNext(rows, (row: Row) => row.Malformed? || (!other(row) && row.built.None?));
    }
  }

  // ------------------------------------------------------------- main results

  /** A finished import is the row-by-row one, whatever the batch size: the stored
    * result is the fold, and every line of the file is accounted for once. */
  lemma BatchingChangesNothing(db: Database, rows: seq<Row>, o: Options, trouble: Trouble)
    requires !Imported(db, rows, o, trouble).failed
    ensures Imported(db, rows, o, trouble).db == if o.dryRun then db else Fold(db, Kept(rows, o.county))
    ensures var c := Imported(db, rows, o, trouble).counts;
      c.read + Unreadable(rows) == c.skipped + c.rejected + c.inserted + c.updated + c.same == |rows|
    ensures !o.dryRun ==>
      Imported(db, rows, o, trouble).counts.inserted == Tally(db, Kept(rows, o.county), Inserted)
      && Imported(db, rows, o, trouble).counts.updated == Tally(db, Kept(rows, o.county), Updated)
    ensures !o.dryRun && o.batchSize >= 1 ==> forall k :: !FlushBreaks(Kept(rows, o.county), o.batchSize, trouble, k)
  {
    var l := AfterRows(Started(db), rows, o, trouble);
    var flushed, batches := PositionAfter(db, rows, o, trouble);
    CountsAfter(Started(db), rows, o, trouble);
    assert l.batch == [] ==> flushed + l.batch == flushed;
    if l.batch != [] { FlushWrites(db, l, o.dryRun, trouble, flushed); }
    OutcomesAddUp(db, Kept(rows, o.county));
    if !o.dryRun && o.batchSize >= 1 {
      forall k ensures !FlushBreaks(Kept(rows, o.county), o.batchSize, trouble, k) {
        FlushesBefore(batches, o.batchSize, k, |l.batch|);
      }
    }
  }

  /** The k-th batch of the records exists, and flushing it goes wrong. */
  predicate FlushBreaks(kept: seq<Record>, size: nat, trouble: Trouble, k: nat) {
    k * size < |kept| && Breaks(trouble, k, if |kept| - k * size < size then |kept| - k * size else size)
  }

  /** Which batch a position is in. */
  lemma FlushesBefore(batches: nat, size: nat, k: nat, rest: nat)
    requires size >= 1 && rest <= size
    ensures k < batches ==> k * size + size <= batches * size
    ensures k > batches ==> k * size >= batches * size + rest
  {
    if k < batches { assert (batches - k - 1) * size >= 0; }
    if k > batches { assert (k - batches - 1) * size >= 0; }
  }

  /** A failed import, wherever the failure came from, leaves exactly the whole batches
    * before the one that failed; and that is the first one that could. */
  lemma FailureKeepsWholeBatches(db: Database, rows: seq<Row>, o: Options, trouble: Trouble)
      returns (batches: nat, size: nat)
    requires Imported(db, rows, o, trouble).failed
    ensures !o.dryRun && Breaks(trouble, Imported(db, rows, o, trouble).flushes, size) && size <= BatchUnit(o.batchSize)
    ensures batches * BatchUnit(o.batchSize) + size <= |Kept(rows, o.county)|
    ensures Imported(db, rows, o, trouble).db == Fold(db, Kept(rows, o.county)[..batches * BatchUnit(o.batchSize)])
    ensures o.batchSize >= 1 ==> Imported(db, rows, o, trouble).flushes == batches
    ensures o.batchSize >= 1 ==> FlushBreaks(Kept(rows, o.county), o.batchSize, trouble, batches)
    ensures o.batchSize >= 1 ==>
              forall k :: 0 <= k < batches ==> !FlushBreaks(Kept(rows, o.county), o.batchSize, trouble, k)
  {
    var l := AfterRows(Started(db), rows, o, trouble);
    var flushed;
    flushed, batches := PositionAfter(db, rows, o, trouble);
    var kept := Kept(rows, o.county);
    size := |l.batch|;
    assert flushed + l.batch <= kept;
    assert kept[..|flushed|] == flushed;
    if o.batchSize >= 1 {
      forall k | 0 <= k < batches ensures !FlushBreaks(kept, o.batchSize, trouble, k) {
        FlushesBefore(batches, o.batchSize, k, size);
      }
    }
  }

  /** So a real import succeeds exactly if none of its flushes goes wrong. */
  lemma ImportSucceedsIff(db: Database, rows: seq<Row>, o: Options, trouble: Trouble)
    requires o.batchSize >= 1 && !o.dryRun
    ensures Imported(db, rows, o, trouble).failed <==>
            exists k :: FlushBreaks(Kept(rows, o.county), o.batchSize, trouble, k)
  {
    if Imported(db, rows, o, trouble).failed {
      var batches, size := FailureKeepsWholeBatches(db, rows, o, trouble);
    } else {
      BatchingChangesNothing(db, rows, o, trouble);
    }
  }
}
