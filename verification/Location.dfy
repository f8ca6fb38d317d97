/** Where a contractor appears on the map.
  *
  * One rule decides the published point from what is stored: visibility, the
  * geocoded point and the centroid of the postal code. Everything that changes
  * one of these republishes. */
module Location {
  import opened Prelude

  type Zip = nat
  datatype Point = Point(lon: real, lat: real)

  datatype Visibility = Public | Protected

  datatype Source = Exact | ZipCentroid | Nowhere

  datatype Listing = Listing(visibility: Visibility, zip: Option<Zip>, precise: Option<Point>,
                             published: Option<Point>, source: Source)

  type Centroids = map<Zip, Point>

  function Centroid(zips: Centroids, zip: Option<Zip>): Option<Point> {
    if zip.Some? && zip.value in zips then Some(zips[zip.value]) else None
  }

  /** The promise. An exact point is shown exactly if the owner shows it and there is
    * one; failing that the centroid of the postal code, if it is known; and whatever
    * is shown is labelled as what it is. */
  ghost predicate FollowsRule(zips: Centroids, l: Listing) {
    && (l.source.Exact? <==> l.visibility.Public? && l.precise.Some?)
    && (l.source.Exact? ==> l.published == l.precise)
    && (l.source.ZipCentroid? ==> l.published == Centroid(zips, l.zip))
    && (l.source.Nowhere? <==> l.published.None?)
    && (l.published.None? ==> Centroid(zips, l.zip).None?)
  }

  datatype Step =
    | Import(zip: Option<Zip>)
    | Geocode(point: Point)
    | SetVisibility(visibility: Visibility)
    | Republish

  /** The row of one listing, and the statements that write its columns. */
  class ListingRow {
    var visibility: Visibility
    var zip: Option<Zip>
    var precise: Option<Point>
    var published: Option<Point>
    var source: Source

    ghost function Value(): Listing
      reads this
    {
      Listing(visibility, zip, precise, published, source)
    }

    /** A new listing is published by the import that creates it. */
    constructor (visibility: Visibility, zip: Option<Zip>, zips: Centroids)
      ensures Value() == Republished(zips, Listing(visibility, zip, None, None, Nowhere))
    {
      this.visibility, this.zip, this.precise, this.published, this.source := visibility, zip, None, None, Nowhere;
      new;
      var source := RepublishRow(zips);
    }

    /** All three location columns, a `None` writing NULL. */
    method SetLocation(precise: Option<Point>, published: Option<Point>, source: Source)
      modifies this
      ensures Value() == old(Value()).(precise := precise, published := published, source := source)
    {
      this.precise, this.published, this.source := precise, published, source;
    }

    method RepublishRow(zips: Centroids) returns (r: Source)
      modifies this
      ensures Value() == Republished(zips, old(Value())) && r == source
    {
      if visibility == Public && precise.Some? {
        SetLocation(precise, precise, Exact);
        return Exact;
      }
      if zip.Some? && zip.value in zips {
        SetLocation(precise, Some(zips[zip.value]), ZipCentroid);
        return ZipCentroid;
      }
      SetLocation(precise, None, Nowhere);
      r := Nowhere;
    }

    method ApplyGeocode(point: Point, zips: Centroids) returns (r: Source)
      modifies this
      ensures Value() == Apply(zips, old(Value()), Geocode(point)) && r == source
      ensures precise == Some(point) && FollowsRule(zips, Value())
    {
      precise := Some(point);
      r := RepublishRow(zips);
    }

    method ChangeVisibility(v: Visibility, zips: Centroids)
      modifies this
      ensures Value() == Apply(zips, old(Value()), SetVisibility(v))
      ensures visibility == v && FollowsRule(zips, Value())
    {
      visibility := v;
      var source := RepublishRow(zips);
    }

    /** Only a postal code that moved relocates an existing listing. */
    method Refresh(z: Option<Zip>, zips: Centroids)
      modifies this
      ensures Value() == Apply(zips, old(Value()), Import(z))
      ensures zip == z && (if zip != old(zip) then FollowsRule(zips, Value()) else Value() == old(Value()))
    {
      if zip != z {
        zip := z;
        var source := RepublishRow(zips);
      }
    }
  }

  function Republished(zips: Centroids, l: Listing): Listing {
    if l.visibility.Public? && l.precise.Some? then l.(published := l.precise, source := Exact)
    else if l.zip.Some? && l.zip.value in zips then l.(published := Some(zips[l.zip.value]), source := ZipCentroid)
    else l.(published := None, source := Nowhere)
  }

  function Apply(zips: Centroids, l: Listing, step: Step): Listing {
    match step
    case Import(zip) => if l.zip == zip then l else Republished(zips, l.(zip := zip))
    case Geocode(point) => Republished(zips, l.(precise := Some(point)))
    case SetVisibility(v) => Republished(zips, l.(visibility := v))
    case Republish => Republished(zips, l)
  }

  function After(zips: Centroids, l: Listing, steps: seq<Step>): Listing {
    if steps == [] then l else Apply(zips, After(zips, l, steps[..|steps| - 1]), steps[|steps| - 1])
  }

  /** The rule leaves no choice: what is published is a function of the visibility,
    * the precise point and the centroid, and of nothing else. */
  lemma RuleDecides(zips: Centroids, l: Listing, m: Listing)
    requires FollowsRule(zips, l) && FollowsRule(zips, m)
    requires l.visibility == m.visibility && l.precise == m.precise && Centroid(zips, l.zip) == Centroid(zips, m.zip)
    ensures l.published == m.published && l.source == m.source
  {
  }

  /** Republishing obeys the rule, changes nothing twice, and only ever touches the
    * two published columns. */
  lemma RepublishFacts(zips: Centroids, l: Listing)
    ensures FollowsRule(zips, Republished(zips, l))
    ensures Republished(zips, Republished(zips, l)) == Republished(zips, l)
    ensures Republished(zips, l) == l <==> FollowsRule(zips, l)
    ensures Republished(zips, l).precise == l.precise
  {
  }

  /** From creation on, after any run, the published point is what the rule says. */
  lemma {:induction false} AlwaysFollowsRule(zips: Centroids, l: Listing, steps: seq<Step>)
    requires FollowsRule(zips, l)
    ensures FollowsRule(zips, After(zips, l, steps))
    decreases |steps|
  {
    if steps != [] { AlwaysFollowsRule(zips, l, steps[..|steps| - 1]); }
  }

  /** A geocoded point is only ever replaced by a newer one. */
  lemma {:induction false} PreciseNeverLost(zips: Centroids, l: Listing, steps: seq<Step>)
    requires l.precise.Some?
    ensures After(zips, l, steps).precise.Some?
    ensures (forall i :: 0 <= i < |steps| ==> !steps[i].Geocode?) ==> After(zips, l, steps).precise == l.precise
    decreases |steps|
  {
    if steps != [] { PreciseNeverLost(zips, l, steps[..|steps| - 1]); }
  }

  // ------------------------------------------------- what the history says of it

  /** The visibility last asked for; `start` if none was. */
  function LastAsked(start: Visibility, steps: seq<Step>): Visibility {
    if steps == [] then start
    else if steps[|steps| - 1].SetVisibility? then steps[|steps| - 1].visibility
    else LastAsked(start, steps[..|steps| - 1])
  }

  /** The point last geocoded. */
  function LastPlaced(start: Option<Point>, steps: seq<Step>): Option<Point> {
    if steps == [] then start
    else if steps[|steps| - 1].Geocode? then Some(steps[|steps| - 1].point)
    else LastPlaced(start, steps[..|steps| - 1])
  }

  /** The postal code last imported. */
  function LastZip(start: Option<Zip>, steps: seq<Step>): Option<Zip> {
    if steps == [] then start
    else if steps[|steps| - 1].Import? then steps[|steps| - 1].zip
    else LastZip(start, steps[..|steps| - 1])
  }

  /** Each input of the rule is what was last said about it: by the owner, the geocoder
    * and the licence. */
  lemma {:induction false} KeepsWhatWasSaid(zips: Centroids, l: Listing, steps: seq<Step>)
    ensures After(zips, l, steps).visibility == LastAsked(l.visibility, steps)
    ensures After(zips, l, steps).precise == LastPlaced(l.precise, steps)
    ensures After(zips, l, steps).zip == LastZip(l.zip, steps)
    decreases |steps|
  {
    if steps != [] { KeepsWhatWasSaid(zips, l, steps[..|steps| - 1]); }
  }

  /** So what is published can be read off the history alone: the point last geocoded
    * if the last request was to show it, and otherwise the centroid of the postal code
    * last imported. */
  lemma PublishedByHistory(zips: Centroids, l: Listing, steps: seq<Step>)
    requires FollowsRule(zips, l)
    ensures var placed, centroid := LastPlaced(l.precise, steps), Centroid(zips, LastZip(l.zip, steps));
      var exact := LastAsked(l.visibility, steps).Public? && placed.Some?;
      && After(zips, l, steps).published == (if exact then placed else centroid)
      && After(zips, l, steps).source == if exact then Exact else if centroid.Some? then ZipCentroid else Nowhere
  {
    AlwaysFollowsRule(zips, l, steps);
    KeepsWhatWasSaid(zips, l, steps);
  }

  /** Two runs that differ only in what the geocoder answered. */
  ghost predicate SameButGeocodes(a: seq<Step>, b: seq<Step>) {
    |a| == |b| && forall i :: 0 <= i < |a| ==> a[i] == b[i] || (a[i].Geocode? && b[i].Geocode?)
  }

  /** Protected to begin with, and nobody asks for anything else. */
  predicate AsksProtected(start: Visibility, steps: seq<Step>) {
    start.Protected? && forall i :: 0 <= i < |steps| && steps[i].SetVisibility? ==> steps[i].visibility.Protected?
  }

  predicate LooksTheSame(l: Listing, m: Listing) { l == m.(precise := l.precise) }

  /** For as long as the owner asks for protection, nothing published about a listing
    * depends on where it really is. */
  lemma {:induction false} ProtectedPointDoesNotShow(zips: Centroids, l: Listing, m: Listing, a: seq<Step>,
                                                     b: seq<Step>)
    requires LooksTheSame(l, m) && SameButGeocodes(a, b) && AsksProtected(l.visibility, a)
    ensures LooksTheSame(After(zips, l, a), After(zips, m, b))
    decreases |a|
  {
    if a != [] {
      var n := |a| - 1;
      ProtectedPointDoesNotShow(zips, l, m, a[..n], b[..n]);
      StillAsked(l.visibility, a[..n]);
      KeepsWhatWasSaid(zips, l, a[..n]);
    }
  }

  lemma {:induction false} StillAsked(start: Visibility, steps: seq<Step>)
    requires AsksProtected(start, steps)
    ensures LastAsked(start, steps).Protected?
    decreases |steps|
  {
    if steps != [] { StillAsked(start, steps[..|steps| - 1]); }
  }

  lemma {:induction false} SameRequests(l: Listing, a: seq<Step>, b: seq<Step>)
    requires SameButGeocodes(a, b)
    ensures LastAsked(l.visibility, a) == LastAsked(l.visibility, b) && LastZip(l.zip, a) == LastZip(l.zip, b)
    decreases |a|
  {
    if a != [] { SameRequests(l, a[..|a| - 1], b[..|b| - 1]); }
  }

  /** And it is enough to ask now: whatever was public before, two runs that differ in
    * where the listing is publish the same once protection was the last request. */
  lemma ProtectedFromThatMoment(zips: Centroids, l: Listing, m: Listing, a: seq<Step>, b: seq<Step>)
    requires FollowsRule(zips, l) && FollowsRule(zips, m) && l.visibility == m.visibility && l.zip == m.zip
    requires SameButGeocodes(a, b) && LastAsked(l.visibility, a).Protected?
    ensures After(zips, l, a).published == After(zips, m, b).published
    ensures After(zips, l, a).source == After(zips, m, b).source
  {
    PublishedByHistory(zips, l, a);
    PublishedByHistory(zips, m, b);
    SameRequests(l, a, b);
  }
}
