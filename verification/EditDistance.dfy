/** Edit distance between names: the two-row loop, the distance it computes, and
  * what that distance means. */
module EditDistance {

  function Min(a: int, b: int): int { if a <= b then a else b }

  /** The recurrence, on the last characters. */
  function Distance(a: string, b: string): (d: nat)
    decreases |a| + |b|
  {
    if a == [] then |b|
    else if b == [] then |a|
    else
      var x, y := a[..|a| - 1], b[..|b| - 1];
      Min(Min(Distance(x, b) + 1, Distance(a, y) + 1),
          Distance(x, y) + if a[|a| - 1] == b[|b| - 1] then 0 else 1)
  }

  // -------------------------------------------------------------- edit scripts

  /** `Change(c, c)` keeps a character and is free. */
  datatype Edit = Delete(c: char) | Insert(d: char) | Change(from: char, to: char)

  type Script = seq<Edit>

  function EditCost(e: Edit): nat { if e.Change? && e.from == e.to then 0 else 1 }

  function Cost(s: Script): nat {
    if s == [] then 0 else Cost(s[..|s| - 1]) + EditCost(s[|s| - 1])
  }

  function Reads(e: Edit): string {
    match e
    case Delete(c) => [c]
    case Insert(_) => []
    case Change(c, _) => [c]
  }

  function Writes(e: Edit): string {
    match e
    case Delete(_) => []
    case Insert(c) => [c]
    case Change(_, c) => [c]
  }

  /** What a script reads. */
  function Source(s: Script): string {
    if s == [] then [] else Source(s[..|s| - 1]) + Reads(s[|s| - 1])
  }

  /** What a script writes. */
  function Target(s: Script): string {
    if s == [] then [] else Target(s[..|s| - 1]) + Writes(s[|s| - 1])
  }

  predicate Rewrites(s: Script, a: string, b: string) { Source(s) == a && Target(s) == b }

  /** A script that costs exactly the distance. */
  lemma {:induction false} Cheapest(a: string, b: string) returns (s: Script)
    ensures Rewrites(s, a, b) && Cost(s) == Distance(a, b)
    decreases |a| + |b|
  {
    if a == [] && b == [] {
      s := [];
    } else if a == [] {
      var t := Cheapest(a, b[..|b| - 1]);
      s := t + [Insert(b[|b| - 1])];
      LastChar(b);
    } else if b == [] {
      var t := Cheapest(a[..|a| - 1], b);
      s := t + [Delete(a[|a| - 1])];
      LastChar(a);
    } else {
      var t, e := LastEdit(a, b);
      s := t + [e];
      Finished(t, e, a, b);
    }
  }

  lemma Finished(t: Script, e: Edit, a: string, b: string)
    requires a != [] && b != []
    requires var x, y, c, d := a[..|a| - 1], b[..|b| - 1], a[|a| - 1], b[|b| - 1];
            || (e == Delete(c) && Rewrites(t, x, b))
            || (e == Insert(d) && Rewrites(t, a, y))
            || (e == Change(c, d) && Rewrites(t, x, y))
    ensures Rewrites(t + [e], a, b) && Cost(t + [e]) == Cost(t) + EditCost(e)
  {
    LastChar(a);
    LastChar(b);
    match e
    case Delete(_) =>
    case Insert(_) =>
    case Change(_, _) =>
  }

  lemma LastChar(a: string)
    requires a != []
    ensures a == a[..|a| - 1] + [a[|a| - 1]]
  {
  }

  lemma {:induction false} LastEdit(a: string, b: string) returns (t: Script, e: Edit)
    requires a != [] && b != []
    ensures Cost(t) + EditCost(e) == Distance(a, b)
    ensures var x, y, c, d := a[..|a| - 1], b[..|b| - 1], a[|a| - 1], b[|b| - 1];
            || (e == Delete(c) && Rewrites(t, x, b))
            || (e == Insert(d) && Rewrites(t, a, y))
            || (e == Change(c, d) && Rewrites(t, x, y))
    decreases |a| + |b|, 0
  {
    var x, y, c, d := a[..|a| - 1], b[..|b| - 1], a[|a| - 1], b[|b| - 1];
    if Distance(x, b) + 1 == Distance(a, b) {
      t := Cheapest(x, b);
      e := Delete(c);
    } else if Distance(a, y) + 1 == Distance(a, b) {
      t := Cheapest(a, y);
      e := Insert(d);
    } else {
      t := Cheapest(x, y);
      e := Change(c, d);
    }
  }

  /** No script is cheaper than the distance. */
  lemma {:induction false} DistanceIsLeast(s: Script)
    ensures Distance(Source(s), Target(s)) <= Cost(s)
    decreases |s|
  {
    if s != [] {
      var t, e := s[..|s| - 1], s[|s| - 1];
      DistanceIsLeast(t);
      assert s == t + [e];
      OneEditMore(Source(t), Target(t), Source(s), Target(s), e);
    }
  }

  lemma OneEditMore(x: string, y: string, a: string, b: string, e: Edit)
    requires a == x + Reads(e) && b == y + Writes(e)
    ensures Distance(a, b) <= Distance(x, y) + EditCost(e)
  {
    match e
    case Delete(c) =>
      assert b == y && a[..|a| - 1] == x;
    case Insert(c) =>
      assert a == x && b[..|b| - 1] == y;
    case Change(c, d) =>
      assert a[..|a| - 1] == x && b[..|b| - 1] == y;
  }

  /** The distance is the cost of the cheapest script, and one attains it. */
  lemma DistanceIsCheapest(a: string, b: string)
    ensures exists s :: Rewrites(s, a, b) && Cost(s) == Distance(a, b)
    ensures forall s :: Rewrites(s, a, b) ==> Distance(a, b) <= Cost(s)
  {
    var cheapest := Cheapest(a, b);
    forall s | Rewrites(s, a, b) ensures Distance(a, b) <= Cost(s) { DistanceIsLeast(s); }
  }

  // ------------------------------------------------------------------- a metric

  lemma {:induction false} Symmetric(a: string, b: string)
    ensures Distance(a, b) == Distance(b, a)
    decreases |a| + |b|
  {
    if a != [] && b != [] {
      Symmetric(a[..|a| - 1], b);
      Symmetric(a, b[..|b| - 1]);
      Symmetric(a[..|a| - 1], b[..|b| - 1]);
    }
  }

  lemma {:induction false} Bounds(a: string, b: string)
    ensures |a| - |b| <= Distance(a, b) && |b| - |a| <= Distance(a, b)
    ensures Distance(a, b) <= if |a| >= |b| then |a| else |b|
    decreases |a| + |b|
  {
    if a != [] && b != [] {
      Bounds(a[..|a| - 1], b);
      Bounds(a, b[..|b| - 1]);
      Bounds(a[..|a| - 1], b[..|b| - 1]);
    }
  }

  lemma {:induction false} ZeroIff(a: string, b: string)
    ensures Distance(a, b) == 0 <==> a == b
    decreases |a| + |b|
  {
    if a != [] && b != [] {
      ZeroIff(a[..|a| - 1], b[..|b| - 1]);
      assert a == a[..|a| - 1] + [a[|a| - 1]] && b == b[..|b| - 1] + [b[|b| - 1]];
    }
  }

  /** Two scripts in a row, as one. */
  function Composed(s: Script, t: Script): Script
    requires Target(s) == Source(t)
    decreases |s| + |t|
  {
    if s == [] then t
    else if t == [] then s
    else
      var s', e, t', f := s[..|s| - 1], s[|s| - 1], t[..|t| - 1], t[|t| - 1];
      if e.Delete? then Composed(s', t) + [e]
      else if f.Insert? then Composed(s, t') + [f]
      else
        LastMeets(s, t);
        Composed(s', t') + Met(e, f)
  }

  /** When both scripts touch the middle string last, they touch the same character. */
  lemma LastMeets(s: Script, t: Script)
    requires s != [] && t != [] && Target(s) == Source(t)
    requires !s[|s| - 1].Delete? && !t[|t| - 1].Insert?
    ensures Target(s[..|s| - 1]) == Source(t[..|t| - 1])
    ensures Writes(s[|s| - 1]) == Reads(t[|t| - 1])
  {
    SameLast(Target(s[..|s| - 1]), Writes(s[|s| - 1]), Source(t[..|t| - 1]), Reads(t[|t| - 1]));
  }

  lemma SameLast(x: string, c: string, y: string, d: string)
    requires |c| == |d| == 1 && x + c == y + d
    ensures x == y && c == d
  {
    assert x == (x + c)[..|x|] && y == (y + d)[..|y|];
    assert c == (x + c)[|x|..] && d == (y + d)[|y|..];
  }

  lemma {:induction false} ComposedIsRight(s: Script, t: Script)
    requires Target(s) == Source(t)
    ensures Rewrites(Composed(s, t), Source(s), Target(t))
    ensures Cost(Composed(s, t)) <= Cost(s) + Cost(t)
    decreases |s| + |t|
  {
    if s != [] && t != [] {
      var s', e, t', f := s[..|s| - 1], s[|s| - 1], t[..|t| - 1], t[|t| - 1];
      if e.Delete? {
        ComposedIsRight(s', t);
      } else if f.Insert? {
        ComposedIsRight(s, t');
      } else {
        LastMeets(s, t);
        ComposedIsRight(s', t');
        MeetingEdits(Composed(s', t'), e, f);
      }
    }
  }

  /** What two edits of one middle character amount to. */
  function Met(e: Edit, f: Edit): Script
    requires !e.Delete? && !f.Insert?
  {
    if e.Insert? then (if f.Delete? then [] else [Insert(f.to)])
    else if f.Delete? then [Delete(e.from)] else [Change(e.from, f.to)]
  }

  lemma MeetingEdits(u: Script, e: Edit, f: Edit)
    requires !e.Delete? && !f.Insert? && Writes(e) == Reads(f)
    ensures Source(u + Met(e, f)) == Source(u) + Reads(e) && Target(u + Met(e, f)) == Target(u) + Writes(f)
    ensures Cost(u + Met(e, f)) <= Cost(u) + EditCost(e) + EditCost(f)
  {
    if e.Insert? && f.Delete? {
      assert u + [] == u && Source(u) + [] == Source(u) && Target(u) + [] == Target(u);
    } else if e.Insert? {
    } else if f.Delete? {
    } else {
      assert e.to == Writes(e)[0] == Reads(f)[0] == f.from;
    }
  }

  lemma {:induction false} TriangleInequality(a: string, b: string, c: string)
    ensures Distance(a, c) <= Distance(a, b) + Distance(b, c)
  {
    var s := Cheapest(a, b);
    var t := Cheapest(b, c);
    ComposedIsRight(s, t);
    DistanceIsLeast(Composed(s, t));
  }

  // ------------------------------------------------------------- the two rows

  /** The distance of two prefixes. */
  function At(a: string, b: string, i: nat, j: nat): nat
    requires i <= |a| && j <= |b|
  {
    Distance(a[..i], b[..j])
  }

  /** The matrix row for the first `i` characters of `a`, up to column `n`. */
  predicate IsRow(row: seq<nat>, a: string, b: string, i: nat, n: nat)
    requires i <= |a| && n <= |b|
  {
    |row| == n + 1 && forall j :: 0 <= j <= n ==> row[j] == At(a, b, i, j)
  }

  /** One cell, from the three already known. */
  lemma Cell(a: string, b: string, i: nat, j: nat)
    requires 1 <= i <= |a| && 1 <= j <= |b|
    ensures At(a, b, i, j)
            == Min(Min(At(a, b, i - 1, j) + 1, At(a, b, i, j - 1) + 1),
                   At(a, b, i - 1, j - 1) + if a[i - 1] == b[j - 1] then 0 else 1)
  {
    assert a[..i][..i - 1] == a[..i - 1] && b[..j][..j - 1] == b[..j - 1];
  }

  lemma Edges(a: string, b: string)
    ensures forall j :: 0 <= j <= |b| ==> At(a, b, 0, j) == j
    ensures forall i :: 0 <= i <= |a| ==> At(a, b, i, 0) == i
    ensures At(a, b, |a|, |b|) == Distance(a, b)
  {
    assert a[..0] == [] && b[..0] == [] && a[..|a|] == a && b[..|b|] == b;
  }

  /** The next row of the matrix from the one above it. */
  method NextRow(a: string, b: string, i: nat, previous: seq<nat>) returns (current: seq<nat>)
    requires 1 <= i <= |a| && IsRow(previous, a, b, i - 1, |b|)
    ensures IsRow(current, a, b, i, |b|)
  {
    Edges(a, b);
    current := [i];
    var j := 1;
    while j <= |b|
      invariant 1 <= j <= |b| + 1
      invariant IsRow(current, a, b, i, j - 1)
    {
      Cell(a, b, i, j);
      current := current + [Min(Min(previous[j] + 1, current[j - 1] + 1),
                                previous[j - 1] + if a[i - 1] == b[j - 1] then 0 else 1)];
      j := j + 1;
    }
  }

  /** Only two rows are kept, and the last cell is the distance. */
  method Levenshtein(a: string, b: string) returns (d: nat)
    ensures d == Distance(a, b)
  {
    if a == b { ZeroIff(a, b); return 0; }
    if a == [] { return |b|; }
    if b == [] { return |a|; }
    var previous: seq<nat> := seq(|b| + 1, j requires 0 <= j => j);
    Edges(a, b);
    var i := 1;
    while i <= |a|
      invariant 1 <= i <= |a| + 1
      invariant IsRow(previous, a, b, i - 1, |b|)
    {
      previous := NextRow(a, b, i, previous);
      i := i + 1;
    }
    d := previous[|previous| - 1];
  }
}
