/** Words joined by a separator that none of them contains, and text trimmed at
  * both ends. */
module Words {
  import opened Prelude

  function Join(words: seq<string>, sep: char): string {
    if words == [] then [] else if |words| == 1 then words[0] else words[0] + [sep] + Join(words[1..], sep)
  }

  /** Non-empty, and free of the separator. */
  predicate Separable(words: seq<string>, sep: char) {
    forall i :: 0 <= i < |words| ==> words[i] != [] && sep !in words[i]
  }

  /** Up to the first separator. */
  function FirstWord(s: string, sep: char): string {
    if s == [] || s[0] == sep then [] else [s[0]] + FirstWord(s[1..], sep)
  }

  lemma {:induction false} FirstWordOf(w: string, rest: string, sep: char)
    requires sep !in w && (rest == [] || rest[0] == sep)
    ensures FirstWord(w + rest, sep) == w
    decreases |w|
  {
    if w == [] {
      assert w + rest == rest;
    } else {
      assert (w + rest)[1..] == w[1..] + rest;
      assert w[0] in w && forall c :: c in w[1..] ==> c in w;
      FirstWordOf(w[1..], rest, sep);
      assert w == [w[0]] + w[1..];
    }
  }

  lemma JoinFirst(words: seq<string>, sep: char)
    requires words != [] && Separable(words, sep)
    ensures Join(words, sep) != [] && FirstWord(Join(words, sep), sep) == words[0]
  {
    if |words| == 1 {
      FirstWordOf(words[0], [], sep);
      assert words[0] + [] == words[0];
    } else {
      FirstWordOf(words[0], [sep] + Join(words[1..], sep), sep);
      assert words[0] + ([sep] + Join(words[1..], sep)) == words[0] + [sep] + Join(words[1..], sep);
    }
  }

  /** Without what is blank at either end. */
  function Trimmed(s: string, blank: char -> bool): string
    decreases |s|
  {
    if s == [] then []
    else if blank(s[0]) then Trimmed(s[1..], blank)
    else if blank(s[|s| - 1]) then Trimmed(s[..|s| - 1], blank)
    else s
  }

  /** Different word lists never join to the same text. */
  lemma {:induction false} JoinInjective(u: seq<string>, v: seq<string>, sep: char)
    requires Separable(u, sep) && Separable(v, sep) && Join(u, sep) == Join(v, sep)
    ensures u == v
    decreases |u|
  {
    if u == [] {
      if v != [] { JoinFirst(v, sep); }
    } else if v == [] {
      JoinFirst(u, sep);
    } else {
      JoinFirst(u, sep);
      JoinFirst(v, sep);
      assert u[0] == v[0];
      JoinTail(u, sep);
      JoinTail(v, sep);
      if |u| > 1 { JoinInjective(u[1..], v[1..], sep); }
      assert u == [u[0]] + u[1..] && v == [v[0]] + v[1..];
    }
  }

  lemma JoinTail(words: seq<string>, sep: char)
    requires words != []
    ensures |words| == 1 <==> |Join(words, sep)| == |words[0]|
    ensures |words| > 1 ==>
              |Join(words, sep)| > |words[0]| && Join(words, sep)[|words[0]| + 1..] == Join(words[1..], sep)
  {
  }

  lemma {:induction false} JoinAppend(u: seq<string>, v: seq<string>, sep: char)
    requires u != [] && v != []
    ensures Join(u + v, sep) == Join(u, sep) + [sep] + Join(v, sep)
    decreases |u|
  {
    assert (u + v)[1..] == u[1..] + v;
    if |u| > 1 {
      JoinAppend(u[1..], v, sep);
      Regroup(u[0] + [sep], Join(u[1..], sep), [sep] + Join(v, sep));
      Regroup(Join(u[1..], sep), [sep], Join(v, sep));
      Regroup(Join(u, sep), [sep], Join(v, sep));
    } else {
      assert u[1..] + v == v;
    }
  }
}
