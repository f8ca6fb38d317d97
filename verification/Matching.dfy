/** How alike two business names are, and whether a place is accepted.
  *
  * Similarities are real numbers in 0..1, where the matcher computes with floats;
  * they are rounded only where it rounds them itself. */
module Matching {
  import opened Prelude
  import opened EditDistance
  import opened Words

  function MaxReal(a: real, b: real): real { if a >= b then a else b }

  /** One minus the edit distance over the longer length; two empty names score 0. */
  function Ratio(a: string, b: string): real {
    if a == [] && b == [] then 0.0
    else 1.0 - Distance(a, b) as real / Longest(a, b) as real
  }

  function Longest(a: string, b: string): (n: nat)
    ensures n == 0 <==> a == [] && b == []
  {
    if |a| >= |b| then |a| else |b|
  }

  lemma RatioRange(a: string, b: string)
    ensures 0.0 <= Ratio(a, b) <= 1.0
    ensures Ratio(a, b) == Ratio(b, a)
    ensures Ratio(a, b) == 1.0 <==> a == b && a != []
  {
    Bounds(a, b);
    Symmetric(a, b);
    ZeroIff(a, b);
    if Longest(a, b) > 0 { Fraction(Distance(a, b), Longest(a, b)); }
  }

  lemma Fraction(n: nat, d: nat)
    requires 0 < d && n <= d
    ensures 0.0 <= n as real / d as real <= 1.0
    ensures n as real / d as real == 0.0 <==> n == 0
  {
    var q := n as real / d as real;
    assert q * d as real == n as real;
  }

  lemma Quotient(x: real, y: real, n: real)
    requires n > 0.0 && x * n == y
    ensures x == y / n
  {
  }

  lemma Complement(q: real, n: real)
    ensures (1.0 - q) * n == n - q * n
  {
  }

  lemma OneMinus(n: real, d: real)
    requires n > 0.0
    ensures 1.0 - d / n == (n - d) / n && (1.0 - d / n) * n == n - d
  {
    var q := d / n;
    assert q * n == d;
    Complement(q, n);
    Quotient(1.0 - q, n - d, n);
  }

  /** The ratio is the part of the longer name that no edit touches. */
  lemma RatioIs(a: string, b: string, longest: nat)
    requires (longest == |a| || longest == |b|) && longest >= |a| && longest >= |b| && longest > 0
    ensures Ratio(a, b) == (longest as real - Distance(a, b) as real) / longest as real
  {
    OneMinus(longest as real, Distance(a, b) as real);
  }

  /** What is written after a name is all that sets it apart. */
  lemma {:induction false} DistanceToLonger(a: string, more: string)
    ensures Distance(a, a + more) == |more|
    decreases |more|
  {
    Bounds(a, a + more);
    if more == [] {
      assert a + more == a;
      ZeroIff(a, a);
    } else if a != [] {
      assert (a + more)[..|a + more| - 1] == a + more[..|more| - 1];
      DistanceToLonger(a, more[..|more| - 1]);
    }
  }

  lemma RatioToLonger(a: string, more: string)
    requires a != []
    ensures Ratio(a, a + more) == |a| as real / |a + more| as real
  {
    DistanceToLonger(a, more);
    var n, d := |a + more| as real, |more| as real;
    assert |a| as real == n - d;
    OneMinus(n, d);
  }

  // -------------------------------------------------------------------- tokens

  predicate IsSpace(c: char) { c == ' ' || c == '\t' || c == '\n' || c == '\r' }

  lemma SpacesAre(c: char)
    ensures IsSpace(c) <==> c in " \t\n\r"
  {
  }

  predicate IsWord(w: string) { w != [] && forall c :: c in w ==> !IsSpace(c) }

  predicate AllWords(words: seq<string>) { forall i :: 0 <= i < |words| ==> IsWord(words[i]) }

  /** Maximal runs without whitespace. */
  function Split(s: string, current: string): (words: seq<string>)
    requires forall c :: c in current ==> !IsSpace(c)
    ensures AllWords(words)
    decreases |s|
  {
    var done := if current == [] then [] else [current];
    if s == [] then done
    else if IsSpace(s[0]) then done + Split(s[1..], [])
    else Split(s[1..], current + [s[0]])
  }

  function TokenSet(s: string): (tokens: set<string>)
    ensures forall w :: w in tokens ==> IsWord(w)
  {
    set w | w in Split(s, [])
  }

  /** Splitting takes up at a word's end where it left off at its start. */
  lemma {:induction false} SplitOfWord(word: string, rest: string, current: string)
    requires forall c :: c in word + current ==> !IsSpace(c)
    ensures forall c :: c in current + word ==> !IsSpace(c)
    ensures Split(word + rest, current) == Split(rest, current + word)
    decreases |word|
  {
    if word == [] {
      assert word + rest == rest && current + word == current;
    } else {
      assert word[0] in word + current && forall c :: c in word[1..] ==> c in word;
      assert (word + rest)[1..] == word[1..] + rest;
      assert (current + [word[0]]) + word[1..] == current + word;
      SplitOfWord(word[1..], rest, current + [word[0]]);
    }
  }

  /** Words with single spaces between them are read back, all of them and in order. */
  lemma {:induction false} SplitOfSpaced(words: seq<string>)
    requires AllWords(words)
    ensures Split(Spaced(words), []) == words
    decreases |words|
  {
    if words != [] {
      var w, rest := words[0], words[1..];
      assert [] + w == w && words == [w] + rest;
      if rest == [] {
        SplitOfWord(w, [], []);
        assert w + [] == w;
      } else {
        SplitOfSpaced(rest);
        SplitOfWord(w, " " + Spaced(rest), []);
        Regroup(w, " ", Spaced(rest));
        assert (" " + Spaced(rest))[1..] == Spaced(rest);
      }
    }
  }

  /** The words of a normalised name, as a set. */
  lemma TokenSetOfSpaced(words: seq<string>)
    requires AllWords(words)
    ensures TokenSet(Spaced(words)) == Elements(words)
  {
    SplitOfSpaced(words);
  }

  /** Words separated by single spaces. */
  function Spaced(words: seq<string>): string { Join(words, ' ') }

  function Strip(s: string): string { Trimmed(s, IsSpace) }

  // ------------------------------------------------------------ sorted(set(...))

  /** Dictionary order. */
  predicate Precedes(a: string, b: string) {
    if a == [] then true
    else if b == [] then false
    else a[0] < b[0] || (a[0] == b[0] && Precedes(a[1..], b[1..]))
  }

  lemma {:induction false} PrecedesTotal(a: string, b: string)
    ensures Precedes(a, b) || Precedes(b, a)
  {
    if a != [] && b != [] && a[0] == b[0] { PrecedesTotal(a[1..], b[1..]); }
  }

  lemma {:induction false} PrecedesTransitive(a: string, b: string, c: string)
    requires Precedes(a, b) && Precedes(b, c)
    ensures Precedes(a, c)
  {
    if a != [] && a[0] == b[0] == c[0] { PrecedesTransitive(a[1..], b[1..], c[1..]); }
  }

  /** Where two words first differ, and which then comes first. */
  ghost predicate Before(a: string, b: string, k: nat) {
    k < |a| && k < |b| && a[..k] == b[..k] && a[k] < b[k]
  }

  lemma {:induction false} PrecedesIff(a: string, b: string)
    ensures Precedes(a, b) <==> a <= b || exists k :: Before(a, b, k)
    decreases |a|
  {
    if a != [] && b != [] && a[0] == b[0] {
      PrecedesIff(a[1..], b[1..]);
      assert a <= b <==> a[1..] <= b[1..];
      forall k: nat | k + 1 < |a| && k + 1 < |b| ensures Before(a[1..], b[1..], k) <==> Before(a, b, k + 1) {
        assert a[..k + 1] == [a[0]] + a[1..][..k] && b[..k + 1] == [b[0]] + b[1..][..k];
        assert a[1..][..k] == a[..k + 1][1..] && b[1..][..k] == b[..k + 1][1..];
      }
      if k: nat :| Before(a, b, k) { assert k > 0 && Before(a[1..], b[1..], k - 1); }
      if k: nat :| Before(a[1..], b[1..], k) { assert Before(a, b, k + 1); }
    } else if a != [] && b != [] {
      if a[0] < b[0] { assert Before(a, b, 0); }
      if k: nat :| Before(a, b, k) { assert k > 0 ==> a[..k][0] == b[..k][0]; }
    }
  }

  ghost predicate IsLeast(words: set<string>, m: string) {
    m in words && forall w :: w in words ==> Precedes(m, w)
  }

  lemma LeastExists(words: set<string>) returns (m: string)
    requires words != {}
    ensures IsLeast(words, m)
    decreases |words|
  {
    var x :| x in words;
    PrecedesTotal(x, x);
    if words == {x} {
      m := x;
    } else {
      assert words == (words - {x}) + {x} && x !in words - {x};
      m := LeastExists(words - {x});
      PrecedesTotal(x, m);
      if Precedes(x, m) {
        forall w | w in words ensures Precedes(x, w) {
          if w != x { PrecedesTransitive(x, m, w); }
        }
        m := x;
      }
    }
  }

  ghost function Least(words: set<string>): (m: string)
    requires words != {}
    ensures IsLeast(words, m)
  {
    assert exists m :: IsLeast(words, m) by { var m := LeastExists(words); }
    var m :| IsLeast(words, m);
    m
  }

  ghost function SortedWords(words: set<string>): (s: seq<string>)
    decreases |words|
  {
    if words == {} then [] else var m := Least(words); [m] + SortedWords(words - {m})
  }

  ghost function Elements(s: seq<string>): set<string> { set w | w in s }

  lemma {:induction false} SortedWordsElements(words: set<string>)
    ensures Elements(SortedWords(words)) == words
    decreases |words|
  {
    if words != {} {
      var m := Least(words);
      SortedWordsElements(words - {m});
      var rest := SortedWords(words - {m});
      forall w ensures w in [m] + rest <==> w in words {
        assert w in rest <==> w in Elements(rest);
      }
    }
  }

  lemma {:induction false} SortedWordsAreSorted(words: set<string>)
    ensures forall i, j :: 0 <= i < j < |SortedWords(words)| ==> Precedes(SortedWords(words)[i], SortedWords(words)[j])
    ensures |SortedWords(words)| == |words|
    decreases |words|
  {
    if words != {} {
      var m := Least(words);
      SortedWordsAreSorted(words - {m});
      SortedWordsElements(words - {m});
      var rest := SortedWords(words - {m});
      forall j | 0 <= j < |rest| ensures Precedes(m, rest[j]) { assert rest[j] in Elements(rest); }
    }
  }

  lemma SortedWordsAreWords(words: set<string>)
    requires forall w :: w in words ==> IsWord(w)
    ensures AllWords(SortedWords(words)) && (SortedWords(words) == [] <==> words == {})
  {
    SortedWordsElements(words);
    var s := SortedWords(words);
    forall i | 0 <= i < |s| ensures IsWord(s[i]) { assert s[i] in Elements(s); }
  }

  // ----------------------------------------------------------- joining is lossless

  lemma {:induction false} JoinEnds(words: seq<string>)
    requires words != [] && AllWords(words)
    ensures Spaced(words) != [] && !IsSpace(Spaced(words)[0]) && !IsSpace(Spaced(words)[|Spaced(words)| - 1])
    decreases |words|
  {
    assert words[0][0] in words[0];
    if |words| == 1 {
      assert words[0][|words[0]| - 1] in words[0];
    } else {
      JoinEnds(words[1..]);
    }
  }

  // --------------------------------------------------------------- token overlap

  /** Shared words, then the words of one side only: "{shared} {only}".strip(). */
  ghost function Combined(shared: set<string>, only: set<string>): string {
    Strip(Spaced(SortedWords(shared)) + " " + Spaced(SortedWords(only)))
  }

  ghost function TokenSetRatio(a: string, b: string): real {
    var ta, tb := TokenSet(a), TokenSet(b);
    if ta == {} || tb == {} then 0.0
    else
      var shared := Spaced(SortedWords(ta * tb));
      var combinedA, combinedB := Combined(ta * tb, ta - tb), Combined(ta * tb, tb - ta);
      if shared == [] then Ratio(combinedA, combinedB)
      else MaxReal(MaxReal(Ratio(shared, combinedA), Ratio(shared, combinedB)), Ratio(combinedA, combinedB))
  }

  lemma StripKeeps(s: string)
    requires s != [] && !IsSpace(s[0]) && !IsSpace(s[|s| - 1])
    ensures Strip(s) == s && Strip(s + " ") == s && Strip(" " + s) == s
  {
    assert (s + " ")[..|s + " "| - 1] == s;
    assert (" " + s)[1..] == s;
  }

  /** Stripping leaves exactly the two word lists, joined. */
  lemma CombinedIsJoin(shared: set<string>, only: set<string>)
    requires forall w :: w in shared + only ==> IsWord(w)
    ensures Combined(shared, only) == Spaced(SortedWords(shared) + SortedWords(only))
  {
    var u, v := SortedWords(shared), SortedWords(only);
    SortedWordsAreWords(shared);
    SortedWordsAreWords(only);
    if u == [] && v == [] {
      assert u + v == [] && Spaced(u) + " " + Spaced(v) == " " && " "[1..] == "";
    } else if u == [] {
      assert u + v == v && Spaced(u) + " " + Spaced(v) == " " + Spaced(v);
      JoinEnds(v);
      StripKeeps(Spaced(v));
    } else if v == [] {
      assert u + v == u && Spaced(u) + " " + Spaced(v) == Spaced(u) + " ";
      JoinEnds(u);
      StripKeeps(Spaced(u));
    } else {
      JoinAppend(u, v, ' ');
      JoinEnds(u + v);
      StripKeeps(Spaced(u + v));
    }
  }

  lemma JoinedWords(shared: set<string>, only: set<string>)
    requires forall w :: w in shared + only ==> IsWord(w)
    ensures AllWords(SortedWords(shared)) && AllWords(SortedWords(shared) + SortedWords(only))
    ensures Spaced(SortedWords(shared)) == [] <==> shared == {}
    ensures SortedWords(only) == [] <==> only == {}
  {
    SortedWordsAreWords(shared);
    SortedWordsAreWords(only);
    if shared != {} { JoinEnds(SortedWords(shared)); }
  }

  /** The shared words alone match one full name exactly when that name has no
    * word of its own. */
  lemma SharedIsCombinedIff(shared: set<string>, only: set<string>)
    requires forall w :: w in shared + only ==> IsWord(w)
    ensures Spaced(SortedWords(shared)) == Combined(shared, only) <==> only == {}
  {
    var u, v := SortedWords(shared), SortedWords(only);
    JoinedWords(shared, only);
    CombinedIsJoin(shared, only);
    if v == [] { assert u + v == u; }
    if Spaced(u) == Spaced(u + v) {
      JoinInjective(u, u + v, ' ');
      assert |u + v| == |u| + |v|;
    }
  }

  /** Two names with different words never combine to the same text. */
  lemma CombinedEqualIff(shared: set<string>, onlyA: set<string>, onlyB: set<string>)
    requires forall w :: w in shared + onlyA + onlyB ==> IsWord(w)
    ensures Combined(shared, onlyA) == Combined(shared, onlyB) <==> onlyA == onlyB
  {
    CombinedIsJoin(shared, onlyA);
    CombinedIsJoin(shared, onlyB);
    if Combined(shared, onlyA) == Combined(shared, onlyB) {
      var u, va, vb := SortedWords(shared), SortedWords(onlyA), SortedWords(onlyB);
      JoinedWords(shared, onlyA);
      JoinedWords(shared, onlyB);
      JoinInjective(u + va, u + vb, ' ');
      assert va == (u + va)[|u|..] && vb == (u + vb)[|u|..];
      SortedWordsElements(onlyA);
      SortedWordsElements(onlyB);
    }
  }

  /** Word order and extra words are tolerated completely, and nothing else is:
    * the score is 1 exactly when one non-empty word set contains the other. */
  lemma TokenSetRatioOneIff(a: string, b: string)
    ensures TokenSetRatio(a, b) == 1.0 <==>
              TokenSet(a) != {} && TokenSet(b) != {} && (TokenSet(a) <= TokenSet(b) || TokenSet(b) <= TokenSet(a))
    ensures 0.0 <= TokenSetRatio(a, b) <= 1.0
  {
    var ta, tb := TokenSet(a), TokenSet(b);
    if ta != {} && tb != {} {
      var both, onlyA, onlyB := ta * tb, ta - tb, tb - ta;
      var shared, ca, cb := Spaced(SortedWords(both)), Combined(both, onlyA), Combined(both, onlyB);
      JoinedWords(both, onlyA);
      SharedIsCombinedIff(both, onlyA);
      SharedIsCombinedIff(both, onlyB);
      CombinedEqualIff(both, onlyA, onlyB);
      RatioRange(shared, ca);
      RatioRange(shared, cb);
      RatioRange(ca, cb);
      ContainmentCases(ta, tb);
    }
  }

  lemma ContainmentCases(ta: set<string>, tb: set<string>)
    requires ta != {} && tb != {}
    ensures ta - tb == {} <==> ta <= tb
    ensures tb - ta == {} <==> tb <= ta
    ensures ta * tb == {} ==> !(ta <= tb) && !(tb <= ta)
    ensures ta - tb == tb - ta ==> ta <= tb && ta * tb != {}
  {
    forall w | w in ta ensures w in tb || w in ta - tb {}
    forall w | w in tb ensures w in ta || w in tb - ta {}
    var x :| x in ta;
    var y :| y in tb;
    if ta <= tb { assert x in ta * tb; }
    if tb <= ta { assert y in ta * tb; }
    assert (ta - tb) * (tb - ta) == {};
  }

  lemma SharedComesFirst(shared: set<string>, only: set<string>) returns (more: string)
    requires shared != {} && forall w :: w in shared + only ==> IsWord(w)
    ensures Spaced(SortedWords(shared)) != [] && Combined(shared, only) == Spaced(SortedWords(shared)) + more
  {
    var u, v := SortedWords(shared), SortedWords(only);
    JoinedWords(shared, only);
    CombinedIsJoin(shared, only);
    if v == [] { more := []; assert u + v == u; } else { more := [' '] + Spaced(v); JoinAppend(u, v, ' '); }
    assert v == [] ==> Spaced(u) + [] == Spaced(u);
    if v != [] { Regroup(Spaced(u), [' '], Spaced(v)); }
  }

  /** The best of three: the part of each name that is shared words, and how alike the
    * two are with those put first. Names without a common word have only the last. */
  lemma TokenSetRatioIs(a: string, b: string)
    ensures var both, onlyA, onlyB := TokenSet(a) * TokenSet(b), TokenSet(a) - TokenSet(b), TokenSet(b) - TokenSet(a);
      var shared, wholeA, wholeB := SortedWords(both), SortedWords(both) + SortedWords(onlyA),
                                    SortedWords(both) + SortedWords(onlyB);
      TokenSetRatio(a, b) ==
      if TokenSet(a) == {} || TokenSet(b) == {} then 0.0
      else if both == {} then Ratio(Spaced(wholeA), Spaced(wholeB))
      else if |Spaced(wholeA)| == 0 || |Spaced(wholeB)| == 0 then 0.0
      else MaxReal(MaxReal(|Spaced(shared)| as real / |Spaced(wholeA)| as real,
                           |Spaced(shared)| as real / |Spaced(wholeB)| as real),
                   Ratio(Spaced(wholeA), Spaced(wholeB)))
  {
    var ta, tb := TokenSet(a), TokenSet(b);
    if ta != {} && tb != {} {
      CombinedIsJoin(ta * tb, ta - tb);
      CombinedIsJoin(ta * tb, tb - ta);
      JoinedWords(ta * tb, ta - tb);
      if ta * tb != {} {
        var moreA := SharedComesFirst(ta * tb, ta - tb);
        var moreB := SharedComesFirst(ta * tb, tb - ta);
        RatioToLonger(Spaced(SortedWords(ta * tb)), moreA);
        RatioToLonger(Spaced(SortedWords(ta * tb)), moreB);
      }
    }
  }

  lemma TokenSetRatioSymmetric(a: string, b: string)
    ensures TokenSetRatio(a, b) == TokenSetRatio(b, a)
  {
    var ta, tb := TokenSet(a), TokenSet(b);
    assert ta * tb == tb * ta;
    RatioRange(Combined(ta * tb, ta - tb), Combined(ta * tb, tb - ta));
  }

  /** The better of the two measures, on names already normalised. */
  ghost function NameSimilarity(a: string, b: string): real {
    if a == [] || b == [] then 0.0 else MaxReal(Ratio(a, b), TokenSetRatio(a, b))
  }

  /** A name scores 1 only for the same text or the same words up to extras. */
  lemma NameSimilarityOneIff(a: string, b: string)
    ensures 0.0 <= NameSimilarity(a, b) <= 1.0
    ensures NameSimilarity(a, b) == NameSimilarity(b, a)
    ensures NameSimilarity(a, b) == 1.0 <==>
              a != [] && b != [] && (a == b || TokenSetRatio(a, b) == 1.0)
  {
    RatioRange(a, b);
    TokenSetRatioOneIff(a, b);
    TokenSetRatioSymmetric(a, b);
  }

  // ----------------------------------------------------------------- classifier

  datatype Status = Rejected | NeedsReview | Confirmed

  datatype Evidence = Evidence(name: real, city: bool, state: bool, category: bool)

  /** The nearest whole number, ties to even. */
  function Nearest(z: real): int {
    var below := z.Floor;
    var part := z - below as real;
    if part < 0.5 || (part == 0.5 && below % 2 == 0) then below else below + 1
  }

  /** To four decimals. */
  function Round4(x: real): real { Nearest(x * 10000.0) as real / 10000.0 }

  function Weight(b: bool, w: real): real { if b then w else 0.0 }

  function Blend(e: Evidence): real {
    e.name * 0.4 + Weight(e.city, 0.3) + Weight(e.state, 0.2) + Weight(e.category, 0.1)
  }

  function Total(e: Evidence): real { Round4(Blend(e)) }

  function Classify(e: Evidence): Status {
    if !e.state then Rejected
    else if e.name < 0.35 then Rejected
    else if Total(e) >= 0.75 then Confirmed
    else if Total(e) >= 0.50 then NeedsReview
    else Rejected
  }

  function Rank(s: Status): nat { if s.Rejected? then 0 else if s.NeedsReview? then 1 else 2 }

  lemma NearestIs(z: real)
    ensures z - 0.5 <= Nearest(z) as real <= z + 0.5
    ensures Nearest(z) as real == z - 0.5 || Nearest(z) as real == z + 0.5 ==> Nearest(z) % 2 == 0
  {
  }

  lemma NearestMonotone(y: real, z: real)
    requires y <= z
    ensures Nearest(y) <= Nearest(z)
  {
    assert y.Floor <= z.Floor;
  }

  /** The nearest ten-thousandth, and of two that are as near the even one. */
  lemma RoundNear(x: real) returns (n: int)
    ensures Round4(x) == n as real / 10000.0 && x - 0.00005 <= Round4(x) <= x + 0.00005
    ensures Round4(x) == x - 0.00005 || Round4(x) == x + 0.00005 ==> n % 2 == 0
  {
    n := Nearest(x * 10000.0);
    NearestIs(x * 10000.0);
  }

  lemma RoundMonotone(x: real, y: real)
    requires x <= y
    ensures Round4(x) <= Round4(y)
  {
    NearestMonotone(x * 10000.0, y * 10000.0);
  }

  lemma TotalRange(e: Evidence)
    requires 0.0 <= e.name <= 1.0
    ensures 0.0 <= Total(e) <= 1.0
  {
    RoundMonotone(0.0, Blend(e));
    RoundMonotone(Blend(e), 1.0);
    assert Round4(0.0) == 0.0 && Round4(1.0) == 1.0;
  }

  predicate AtLeast(e: Evidence, f: Evidence) {
    e.name >= f.name && (f.city ==> e.city) && (f.state ==> e.state) && (f.category ==> e.category)
  }

  /** More evidence never lowers the verdict. */
  lemma ClassifyMonotone(e: Evidence, f: Evidence)
    requires AtLeast(e, f)
    ensures Total(e) >= Total(f) && Rank(Classify(e)) >= Rank(Classify(f))
  {
    RoundMonotone(Blend(f), Blend(e));
  }

  /** Moving by an even whole number moves the nearest one as far. */
  lemma NearestShift(z: real, k: int)
    requires k % 2 == 0
    ensures Nearest(z + k as real) == Nearest(z) + k
  {
    assert (z + k as real).Floor == z.Floor + k;
  }

  lemma RoundShift(x: real, y: real, k: int)
    requires k % 2 == 0 && y * 10000.0 == x * 10000.0 + k as real
    ensures Round4(y) == Round4(x) + k as real / 10000.0
  {
    NearestShift(x * 10000.0, k);
  }

  lemma BlendMoves(e: Evidence)
    ensures Blend(e.(city := true)) == Blend(e.(city := false)) + 0.3
    ensures Blend(e.(state := true)) == Blend(e.(state := false)) + 0.2
    ensures Blend(e.(category := true)) == Blend(e.(category := false)) + 0.1
  {
  }

  lemma TotalMoves(e: Evidence, f: Evidence, k: int)
    requires k % 2 == 0 && Blend(f) == Blend(e) + k as real / 10000.0
    ensures Total(f) == Total(e) + k as real / 10000.0
  {
    RoundShift(Blend(e), Blend(f), k);
  }

  /** What each piece of evidence is worth, to the last digit: three tenths for the city,
    * two for the state and one for the category. */
  lemma EvidenceIsWorth(e: Evidence)
    ensures Total(e.(city := true)) == Total(e.(city := false)) + 0.3
    ensures Total(e.(state := true)) == Total(e.(state := false)) + 0.2
    ensures Total(e.(category := true)) == Total(e.(category := false)) + 0.1
  {
    BlendMoves(e);
    TotalMoves(e.(city := false), e.(city := true), 3000);
    TotalMoves(e.(state := false), e.(state := true), 2000);
    TotalMoves(e.(category := false), e.(category := true), 1000);
  }

  /** And four tenths of the similarity for the name. */
  lemma NameIsWorth(name: real)
    ensures Total(Evidence(name, false, false, false)) == Round4(0.4 * name)
  {
  }

  /** The verdict on the evidence alone. In the wrong state, or below the name floor,
    * nothing helps. In the right city a place is accepted, for review or at once by how
    * like the names are; elsewhere in the state it takes a likeness of about a half with
    * a plausible category and three quarters without, and is never confirmed. The
    * bounds are where the rounded total reaches its threshold. */
  lemma VerdictIs(e: Evidence)
    requires 0.0 <= e.name <= 1.0
    ensures Classify(e)
            == if !e.state || e.name < 0.35 then Rejected
               else if e.city then
                 if e.name >= (if e.category then 0.374875 else 0.624875) then Confirmed else NeedsReview
               else
                 if e.name >= (if e.category then 0.499875 else 0.749875) then NeedsReview else Rejected
  {
    ReachesThreshold(Blend(e));
  }

  lemma ReachesThreshold(x: real)
    ensures Round4(x) >= 0.75 <==> x >= 0.74995
    ensures Round4(x) >= 0.5 <==> x >= 0.49995
  {
    var n := RoundNear(x);
    if x >= 0.74995 { RoundMonotone(0.74995, x); }
    if x >= 0.49995 { RoundMonotone(0.49995, x); }
  }

  /** What a verdict guarantees. Reviews are attached only in the right state and
    * above the name floor, whatever the total; a confirmation needs the city too,
    * because the other three cannot reach 0.75 without it. */
  lemma VerdictMeans(e: Evidence)
    requires 0.0 <= e.name <= 1.0
    ensures !Classify(e).Rejected? ==> e.state && e.name >= 0.35 && (e.city || e.name >= 0.4998)
    ensures Classify(e).Confirmed? ==> e.state && e.city && e.name >= 0.3748
    ensures Classify(e).Confirmed? && !e.category ==> e.name >= 0.6248
    ensures e.state && e.city && e.category && e.name >= 0.375 ==> Classify(e).Confirmed?
  {
    VerdictIs(e);
  }
}
