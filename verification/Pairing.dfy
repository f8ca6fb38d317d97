/** Which contractor each returned place belongs to: every pair is scored, the
  * scored list is sorted best first, and pairs are taken greedily. */
module Pairing {
  import opened Prelude
  import Matching

  type Place = nat
  type Contractor = nat

  datatype Candidate = Candidate(score: real, place: Place, contractor: Contractor)

  predicate NonNegative(s: seq<Candidate>) { forall c :: c in s ==> c.score >= 0.0 }

  /** No place twice, no contractor twice. */
  predicate OneToOne(s: seq<Candidate>) {
    forall i, j :: 0 <= i < j < |s| ==> s[i].place != s[j].place && s[i].contractor != s[j].contractor
  }

  // -------------------------------------------------------------------- scoring

  /** Exactly the candidates of every place with every contractor. */
  ghost predicate Complete(scored: seq<Candidate>, places: seq<Place>, batch: seq<Contractor>,
                           score: (Place, Contractor) -> real)
  {
    && (forall c :: c in scored ==>
          c.place in places && c.contractor in batch && c.score == score(c.place, c.contractor))
    && (forall p, k :: p in places && k in batch ==> Candidate(score(p, k), p, k) in scored)
  }

  method ScoreAll(places: seq<Place>, batch: seq<Contractor>, score: (Place, Contractor) -> real)
      returns (scored: seq<Candidate>)
    ensures Complete(scored, places, batch, score)
  {
    scored := [];
    for i := 0 to |places|
      invariant Complete(scored, places[..i], batch, score)
    {
      ghost var was := scored;
      for j := 0 to |batch|
        invariant forall c :: c in was ==> c in scored
        invariant forall c :: c in scored ==>
                    || c in was
                    || (c.place == places[i] && c.contractor in batch && c.score == score(c.place, c.contractor))
        invariant forall k :: k in batch[..j] ==> Candidate(score(places[i], k), places[i], k) in scored
      {
        scored := scored + [Candidate(score(places[i], batch[j]), places[i], batch[j])];
        assert batch[..j + 1] == batch[..j] + [batch[j]];
      }
      assert batch[..|batch|] == batch;
      assert places[..i + 1] == places[..i] + [places[i]];
    }
    assert places[..|places|] == places;
  }

  // -------------------------------------------------------------------- sorting

  predicate BestFirst(s: seq<Candidate>) {
    forall i, j :: 0 <= i < j < |s| ==> s[i].score >= s[j].score
  }

  function InsertStable(c: Candidate, s: seq<Candidate>): seq<Candidate> {
    if s == [] || s[0].score <= c.score then [c] + s else [s[0]] + InsertStable(c, s[1..])
  }

  /** Best first, equal scores in their original order. */
  function SortStable(s: seq<Candidate>): seq<Candidate> {
    if s == [] then [] else InsertStable(s[0], SortStable(s[1..]))
  }

  lemma {:induction false} InsertMember(c: Candidate, s: seq<Candidate>, x: Candidate)
    ensures x in InsertStable(c, s) <==> x == c || x in s
    decreases |s|
  {
    if s != [] && s[0].score > c.score {
      InsertMember(c, s[1..], x);
      assert x in s <==> x == s[0] || x in s[1..];
    }
  }

  lemma {:induction false} InsertBestFirst(c: Candidate, s: seq<Candidate>)
    requires BestFirst(s)
    ensures BestFirst(InsertStable(c, s))
    decreases |s|
  {
    if s != [] && s[0].score > c.score {
      var rest := InsertStable(c, s[1..]);
      InsertBestFirst(c, s[1..]);
      forall i | 0 <= i < |rest| ensures s[0].score >= rest[i].score {
        InsertMember(c, s[1..], rest[i]);
      }
    }
  }

  /** Sorting keeps the candidates and orders them. */
  lemma {:induction false} SortIsSorted(s: seq<Candidate>)
    ensures BestFirst(SortStable(s))
    ensures forall x :: x in SortStable(s) <==> x in s
    decreases |s|
  {
    if s != [] {
      var rest := SortStable(s[1..]);
      SortIsSorted(s[1..]);
      InsertBestFirst(s[0], rest);
      forall x ensures x in SortStable(s) <==> x in s {
        InsertMember(s[0], rest, x);
        assert x in s <==> x == s[0] || x in s[1..];
      }
    }
  }

  function WithScore(s: seq<Candidate>, v: real): seq<Candidate> {
    if s == [] then [] else (if s[0].score == v then [s[0]] else []) + WithScore(s[1..], v)
  }

  lemma {:induction false} InsertIsStable(c: Candidate, s: seq<Candidate>, v: real)
    requires BestFirst(s)
    ensures WithScore(InsertStable(c, s), v) == (if c.score == v then [c] else []) + WithScore(s, v)
    decreases |s|
  {
    if s == [] || s[0].score <= c.score {
    } else {
      InsertIsStable(c, s[1..], v);
    }
  }

  /** The sort keeps the order of candidates that score the same. */
  lemma {:induction false} SortIsStable(s: seq<Candidate>, v: real)
    ensures WithScore(SortStable(s), v) == WithScore(s, v)
    decreases |s|
  {
    if s != [] {
      SortIsStable(s[1..], v);
      SortIsSorted(s[1..]);
      InsertIsStable(s[0], SortStable(s[1..]), v);
    }
  }

  // --------------------------------------------------------------------- greedy

  predicate Clashes(a: Candidate, b: Candidate) { a.place == b.place || a.contractor == b.contractor }

  /** Every candidate lost, if it lost, to a clashing pair at least as good. */
  ghost predicate Justified(pairing: seq<Candidate>, scored: seq<Candidate>) {
    forall c {:trigger LostFairly(pairing, c)} :: c in scored ==> LostFairly(pairing, c)
  }

  ghost predicate LostFairly(pairing: seq<Candidate>, c: Candidate) {
    exists w :: w in pairing && Clashes(w, c) && w.score >= c.score
  }

  ghost function PlacesOf(s: seq<Candidate>): set<Place> { set c | c in s :: c.place }

  ghost function ContractorsOf(s: seq<Candidate>): set<Contractor> { set c | c in s :: c.contractor }

  lemma Take(pairing: seq<Candidate>, seen: seq<Candidate>, c: Candidate)
    requires OneToOne(pairing) && Justified(pairing, seen)
    requires c.place !in PlacesOf(pairing) && c.contractor !in ContractorsOf(pairing)
    ensures OneToOne(pairing + [c]) && Justified(pairing + [c], seen + [c])
  {
    var after := pairing + [c];
    forall i | 0 <= i < |pairing| ensures pairing[i].place != c.place && pairing[i].contractor != c.contractor {
      assert pairing[i] in pairing;
    }
    assert after[|pairing|] == c && Clashes(c, c);
    assert forall w :: w in after <==> w in pairing || w == c;
    forall d | d in seen + [c] ensures LostFairly(after, d) {
      if d in seen {
        assert LostFairly(pairing, d);
        var w :| w in pairing && Clashes(w, d) && w.score >= d.score;
        assert w in after;
      }
    }
  }

  lemma Pass(pairing: seq<Candidate>, seen: seq<Candidate>, c: Candidate)
    requires Justified(pairing, seen) && (forall w :: w in pairing ==> w in seen)
    requires BestFirst(seen + [c])
    requires c.place in PlacesOf(pairing) || c.contractor in ContractorsOf(pairing)
    ensures Justified(pairing, seen + [c])
  {
    var w :| w in pairing && Clashes(w, c);
    var i :| 0 <= i < |seen| && seen[i] == w;
    assert (seen + [c])[i] == w && (seen + [c])[|seen|] == c;
    assert LostFairly(pairing, c);
  }

  /** The rule: a candidate is taken unless its place or contractor already is. */
  ghost function Greedy(s: seq<Candidate>): seq<Candidate> {
    if s == [] then [] else
      var taken, c := Greedy(s[..|s| - 1]), s[|s| - 1];
      if c.place in PlacesOf(taken) || c.contractor in ContractorsOf(taken) then taken else taken + [c]
  }

  lemma {:induction false} GreedyIsJustified(s: seq<Candidate>)
    requires BestFirst(s)
    ensures OneToOne(Greedy(s)) && Justified(Greedy(s), s)
    ensures forall c :: c in Greedy(s) ==> c in s
    decreases |s|
  {
    if s != [] {
      var t, c := s[..|s| - 1], s[|s| - 1];
      GreedyIsJustified(t);
      assert s == t + [c];
      if c.place in PlacesOf(Greedy(t)) || c.contractor in ContractorsOf(Greedy(t)) {
        Pass(Greedy(t), t, c);
      } else {
        Take(Greedy(t), t, c);
      }
    }
  }

  lemma SetsGrow(pairing: seq<Candidate>, c: Candidate)
    ensures PlacesOf(pairing + [c]) == PlacesOf(pairing) + {c.place}
    ensures ContractorsOf(pairing + [c]) == ContractorsOf(pairing) + {c.contractor}
  {
    assert (pairing + [c])[|pairing|] == c;
    assert forall w :: w in pairing + [c] <==> w in pairing || w == c;
  }

  method TakeGreedily(scored: seq<Candidate>) returns (pairing: seq<Candidate>)
    ensures pairing == Greedy(scored)
  {
    pairing := [];
    var takenPlaces: set<Place>, takenContractors: set<Contractor> := {}, {};
    for n := 0 to |scored|
      invariant pairing == Greedy(scored[..n])
      invariant takenPlaces == PlacesOf(pairing) && takenContractors == ContractorsOf(pairing)
    {
      var c := scored[n];
      assert scored[..n + 1][..n] == scored[..n];
      if c.place in takenPlaces || c.contractor in takenContractors {
        continue;
      }
      SetsGrow(pairing, c);
      takenPlaces := takenPlaces + {c.place};
      takenContractors := takenContractors + {c.contractor};
      pairing := pairing + [c];
    }
    assert scored[..|scored|] == scored;
  }

  method PairPlaces(places: seq<Place>, batch: seq<Contractor>, score: (Place, Contractor) -> real)
      returns (pairing: seq<Candidate>, scored: seq<Candidate>)
    ensures Complete(scored, places, batch, score) && pairing == Greedy(SortStable(scored))
    ensures OneToOne(pairing) && Justified(pairing, scored)
    ensures forall c :: c in pairing ==> c in scored
  {
    scored := ScoreAll(places, batch, score);
    var sorted := SortStable(scored);
    SortIsSorted(scored);
    pairing := TakeGreedily(sorted);
    GreedyIsJustified(sorted);
    forall c | c in scored ensures LostFairly(pairing, c) { assert c in sorted; }
  }

  // ------------------------------------------------------------- main results

  /** No pair is left that both sides would strictly prefer: whatever its score,
    * one of its two sides is already paired at least that well. */
  lemma NoBlockingPair(pairing: seq<Candidate>, scored: seq<Candidate>, places: seq<Place>, batch: seq<Contractor>,
                       score: (Place, Contractor) -> real, p: Place, k: Contractor)
    requires Complete(scored, places, batch, score) && Justified(pairing, scored)
    requires p in places && k in batch
    ensures exists w :: w in pairing && (w.place == p || w.contractor == k) && w.score >= score(p, k)
  {
    assert Candidate(score(p, k), p, k) in scored;
    assert LostFairly(pairing, Candidate(score(p, k), p, k));
  }

  lemma {:induction false} KeysOf(s: seq<Candidate>)
    requires OneToOne(s)
    ensures |PlacesOf(s)| == |s| && |ContractorsOf(s)| == |s|
    decreases |s|
  {
    if s != [] {
      var t, c := s[..|s| - 1], s[|s| - 1];
      KeysOf(t);
      assert s == t + [c];
      LastIsNew(t, c);
      SetsGrow(t, c);
    }
  }

  lemma LastIsNew(t: seq<Candidate>, c: Candidate)
    requires OneToOne(t + [c])
    ensures c.place !in PlacesOf(t) && c.contractor !in ContractorsOf(t)
  {
    forall x | x in t ensures x.place != c.place && x.contractor != c.contractor {
      var i :| 0 <= i < |t| && t[i] == x;
      assert (t + [c])[i] == x && (t + [c])[|t|] == c;
    }
  }

  /** As many pairs as there could be. */
  lemma PairsAsManyAsPossible(pairing: seq<Candidate>, scored: seq<Candidate>, places: seq<Place>,
                              batch: seq<Contractor>, score: (Place, Contractor) -> real)
    requires Complete(scored, places, batch, score) && Justified(pairing, scored)
    requires OneToOne(pairing) && forall c :: c in pairing ==> c in scored
    requires Distinct(places) && Distinct(batch)
    ensures |pairing| == if |places| <= |batch| then |places| else |batch|
  {
    var ps, ks := SetOf(places), SetOf(batch);
    assert PlacesOf(pairing) <= ps && ContractorsOf(pairing) <= ks;
    KeysOf(pairing);
    SetOfDistinct(places);
    SetOfDistinct(batch);
    SubsetSize(PlacesOf(pairing), ps);
    SubsetSize(ContractorsOf(pairing), ks);
    if |pairing| < |places| && |pairing| < |batch| {
      SomethingLeft(PlacesOf(pairing), ps);
      SomethingLeft(ContractorsOf(pairing), ks);
      var p :| p in ps && p !in PlacesOf(pairing);
      var k :| k in ks && k !in ContractorsOf(pairing);
      NoBlockingPair(pairing, scored, places, batch, score, p, k);
      assert false;
    }
  }

  // ------------------------------------------------- within half of any assignment

  datatype Weighted = Weighted(key: nat, weight: real)

  function Total(s: seq<Candidate>): real { if s == [] then 0.0 else s[0].score + Total(s[1..]) }

  function Sum(ws: seq<Weighted>): real { if ws == [] then 0.0 else ws[0].weight + Sum(ws[1..]) }

  predicate NoDebt(ws: seq<Weighted>) { forall i :: 0 <= i < |ws| ==> ws[i].weight >= 0.0 }

  /** What a key already earns. */
  function Gain(ws: seq<Weighted>, key: nat): real {
    if ws == [] then 0.0 else (if ws[0].key == key then ws[0].weight else 0.0) + Gain(ws[1..], key)
  }

  function Gains(ws: seq<Weighted>, keys: seq<nat>): real {
    if keys == [] then 0.0 else Gain(ws, keys[0]) + Gains(ws, keys[1..])
  }

  lemma {:induction false} GainAtLeast(ws: seq<Weighted>, i: nat)
    requires NoDebt(ws) && i < |ws|
    ensures Gain(ws, ws[i].key) >= ws[i].weight
    decreases |ws|
  {
    GainNonNegative(ws[1..], ws[i].key);
    if i > 0 { GainAtLeast(ws[1..], i - 1); }
  }

  lemma {:induction false} GainNonNegative(ws: seq<Weighted>, key: nat)
    requires NoDebt(ws)
    ensures Gain(ws, key) >= 0.0
    decreases |ws|
  {
    if ws != [] { GainNonNegative(ws[1..], key); }
  }

  /** Distinct keys cannot earn more than there is. */
  lemma {:induction false} GainsAtMost(ws: seq<Weighted>, keys: seq<nat>)
    requires NoDebt(ws) && Distinct(keys)
    ensures Gains(ws, keys) <= Sum(ws)
    decreases |ws|
  {
    if ws == [] {
      NoGains(keys);
    } else {
      GainsAtMost(ws[1..], keys);
      GainsSplit(ws, keys);
      OnceAtMost(ws[0], keys);
    }
  }

  lemma {:induction false} NoGains(keys: seq<nat>)
    ensures Gains([], keys) == 0.0
  {
    if keys != [] { NoGains(keys[1..]); }
  }

  lemma {:induction false} GainsSplit(ws: seq<Weighted>, keys: seq<nat>)
    requires ws != []
    ensures Gains(ws, keys) == Gains([ws[0]], keys) + Gains(ws[1..], keys)
    decreases |keys|
  {
    if keys != [] {
      GainsSplit(ws, keys[1..]);
      GainOfOne(ws[0], keys[0]);
    }
  }

  lemma {:induction false} OnceAtMost(w: Weighted, keys: seq<nat>)
    requires w.weight >= 0.0 && Distinct(keys)
    ensures Gains([w], keys) <= w.weight
    ensures w.key !in keys ==> Gains([w], keys) == 0.0
    decreases |keys|
  {
    if keys != [] {
      GainOfOne(w, keys[0]);
      assert keys[0] !in keys[1..];
      OnceAtMost(w, keys[1..]);
    }
  }

  lemma GainOfOne(w: Weighted, key: nat)
    ensures Gain([w], key) == if w.key == key then w.weight else 0.0
  {
    assert [w][1..] == [];
  }

  function ByPlace(s: seq<Candidate>): (ws: seq<Weighted>)
    ensures |ws| == |s| && forall i :: 0 <= i < |s| ==> ws[i] == Weighted(s[i].place, s[i].score)
  {
    seq(|s|, i requires 0 <= i < |s| => Weighted(s[i].place, s[i].score))
  }

  function ByContractor(s: seq<Candidate>): (ws: seq<Weighted>)
    ensures |ws| == |s| && forall i :: 0 <= i < |s| ==> ws[i] == Weighted(s[i].contractor, s[i].score)
  {
    seq(|s|, i requires 0 <= i < |s| => Weighted(s[i].contractor, s[i].score))
  }

  lemma {:induction false} SumIsTotal(ws: seq<Weighted>, s: seq<Candidate>)
    requires |ws| == |s| && forall i :: 0 <= i < |s| ==> ws[i].weight == s[i].score
    ensures Sum(ws) == Total(s)
    decreases |s|
  {
    if s != [] { SumIsTotal(ws[1..], s[1..]); }
  }

  function Keys(ws: seq<Weighted>): (ks: seq<nat>)
    ensures |ks| == |ws| && forall i :: 0 <= i < |ws| ==> ks[i] == ws[i].key
  {
    seq(|ws|, i requires 0 <= i < |ws| => ws[i].key)
  }

  /** Each pair of the other assignment is paid for by its place or its contractor. */
  lemma {:induction false} Charged(byPlace: seq<Weighted>, byContractor: seq<Weighted>, other: seq<Candidate>)
    requires forall c :: c in other ==> c.score <= Gain(byPlace, c.place) + Gain(byContractor, c.contractor)
    ensures Total(other) <= Gains(byPlace, Keys(ByPlace(other))) + Gains(byContractor, Keys(ByContractor(other)))
    decreases |other|
  {
    if other != [] {
      assert other[0] in other;
      Charged(byPlace, byContractor, other[1..]);
      assert Keys(ByPlace(other))[1..] == Keys(ByPlace(other[1..]));
      assert Keys(ByContractor(other))[1..] == Keys(ByContractor(other[1..]));
    }
  }

  lemma PaidFor(pairing: seq<Candidate>, wp: seq<Weighted>, wk: seq<Weighted>, w: Candidate, c: Candidate)
    requires wp == ByPlace(pairing) && wk == ByContractor(pairing) && NoDebt(wp) && NoDebt(wk)
    requires w in pairing && Clashes(w, c) && w.score >= c.score
    ensures c.score <= Gain(wp, c.place) + Gain(wk, c.contractor)
  {
    var i :| 0 <= i < |pairing| && pairing[i] == w;
    GainAtLeast(wp, i);
    GainAtLeast(wk, i);
    GainNonNegative(wp, c.place);
    GainNonNegative(wk, c.contractor);
  }

  /** The greedy total is at least half that of any one-to-one assignment. */
  lemma AtLeastHalfOfAny(pairing: seq<Candidate>, scored: seq<Candidate>, other: seq<Candidate>)
    requires Justified(pairing, scored) && NonNegative(scored)
    requires forall c :: c in pairing ==> c in scored
    requires OneToOne(other) && forall c :: c in other ==> c in scored
    ensures Total(other) <= 2.0 * Total(pairing)
  {
    var wp, wk := ByPlace(pairing), ByContractor(pairing);
    forall i | 0 <= i < |pairing| ensures wp[i].weight >= 0.0 && wk[i].weight >= 0.0 { assert pairing[i] in pairing; }
    forall c | c in other ensures c.score <= Gain(wp, c.place) + Gain(wk, c.contractor) {
      assert LostFairly(pairing, c);
      var w :| w in pairing && Clashes(w, c) && w.score >= c.score;
      PaidFor(pairing, wp, wk, w, c);
    }
    Charged(wp, wk, other);
    GainsAtMost(wp, Keys(ByPlace(other)));
    GainsAtMost(wk, Keys(ByContractor(other)));
    SumIsTotal(wp, pairing);
    SumIsTotal(wk, pairing);
  }

  /** The scores the matcher gives are never negative, so this is about them all. */
  lemma AtLeastHalfByEvidence(pairing: seq<Candidate>, scored: seq<Candidate>, other: seq<Candidate>,
                              places: seq<Place>, batch: seq<Contractor>,
                              evidence: (Place, Contractor) -> Matching.Evidence)
    requires Complete(scored, places, batch, (p: Place, k: Contractor) => Matching.Total(evidence(p, k)))
    requires forall p: Place, k: Contractor :: 0.0 <= evidence(p, k).name <= 1.0
    requires Justified(pairing, scored) && forall c :: c in pairing ==> c in scored
    requires OneToOne(other) && forall c :: c in other ==> c in scored
    ensures Total(other) <= 2.0 * Total(pairing)
  {
    forall c | c in scored ensures c.score >= 0.0 { Matching.TotalRange(evidence(c.place, c.contractor)); }
    AtLeastHalfOfAny(pairing, scored, other);
  }
}
