/** Text that crosses a boundary: the JSON and HTML escapers, the slug, and the
  * search cursor. */
module TextCodecs {
  import opened Prelude
  import opened Words

  // ---------------------------------------------------------------- JSON strings

  const HEX: string := "0123456789abcdef"

  function JsonChar(c: char): string {
    if c == '"' then "\\\""
    else if c == '\\' then "\\\\"
    else if c == '\n' then "\\n"
    else if c == '\r' then "\\r"
    else if c == '\t' then "\\t"
    else if c as int < 0x20 then "\\u00" + [HEX[c as int / 16], HEX[c as int % 16]]
    else [c]
  }

  function JsonBody(s: string): string { if s == [] then [] else JsonBody(s[..|s| - 1]) + JsonChar(s[|s| - 1]) }

  lemma JsonBodyNext(s: string, i: nat)
    requires i < |s|
    ensures JsonBody(s[..i + 1]) == JsonBody(s[..i]) + JsonChar(s[i])
  {
    assert s[..i + 1][..i] == s[..i];
  }

  method JsonString(value: string) returns (out: string)
    ensures out == "\"" + JsonBody(value) + "\""
  {
    out := "\"";
    for i := 0 to |value|
      invariant out == "\"" + JsonBody(value[..i])
    {
      JsonBodyNext(value, i);
      Regroup("\"", JsonBody(value[..i]), JsonChar(value[i]));
      out := out + JsonChar(value[i]);
    }
    assert value[..|value|] == value;
    out := out + "\"";
  }

  function HexValue(c: char): Option<nat> {
    if '0' <= c <= '9' then Some(c as int - '0' as int)
    else if 'a' <= c <= 'f' then Some(c as int - 'a' as int + 10)
    else if 'A' <= c <= 'F' then Some(c as int - 'A' as int + 10)
    else None
  }

  function HexCode(s: string): Option<nat> {
    if |s| < 4 then None
    else
      var a, b, c, d := HexValue(s[0]), HexValue(s[1]), HexValue(s[2]), HexValue(s[3]);
      if a.None? || b.None? || c.None? || d.None? then None
      else Some(a.value * 4096 + b.value * 256 + c.value * 16 + d.value)
  }

  /** The character a two-character escape stands for (RFC 8259, section 7). */
  function ShortEscape(c: char): Option<char> {
    if c == '"' || c == '\\' || c == '/' then Some(c)
    else if c == 'b' then Some(8 as char)
    else if c == 'f' then Some(12 as char)
    else if c == 'n' then Some('\n')
    else if c == 'r' then Some('\r')
    else if c == 't' then Some('\t')
    else None
  }

  /** Reads the rest of a string up to its closing quote, which must come last; a
    * bare control character, an unknown escape or a surrogate is malformed. */
  function JsonRest(s: string): Option<string>
    decreases |s|
  {
    if s == [] then None
    else if s[0] == '"' then (if |s| == 1 then Some([]) else None)
    else if s[0] == '\\' then
      if |s| < 2 then None
      else if s[1] == 'u' then
        var code := HexCode(s[2..]);
        if code.None? || 0xD800 <= code.value < 0xE000 then None else Prepended(code.value as char, JsonRest(s[6..]))
      else
        var c := ShortEscape(s[1]);
        if c.None? then None else Prepended(c.value, JsonRest(s[2..]))
    else if s[0] as int < 0x20 then None
    else Prepended(s[0], JsonRest(s[1..]))
  }

  function Prepended(c: char, rest: Option<string>): Option<string> {
    if rest.Some? then Some([c] + rest.value) else None
  }

  function JsonDecode(s: string): Option<string> { if s == [] || s[0] != '"' then None else JsonRest(s[1..]) }

  /** One escaped character is read back as itself, whatever follows. */
  lemma JsonCharBack(c: char, rest: string)
    ensures JsonRest(JsonChar(c) + rest) == Prepended(c, JsonRest(rest))
  {
    var s := JsonChar(c) + rest;
    if c == '"' || c == '\\' || c == '\n' || c == '\r' || c == '\t' {
      assert s[2..] == rest;
    } else if c as int < 0x20 {
      HexBack(c as int);
      assert s[6..] == rest && s[2..][..4] == "00" + [HEX[c as int / 16], HEX[c as int % 16]];
      assert s[2..][0] == '0' && s[2..][1] == '0' && s[2..][2] == HEX[c as int / 16] && s[2..][3] == HEX[c as int % 16];
    } else {
      assert s[1..] == rest;
    }
  }

  lemma HexBack(n: nat)
    requires n < 0x20
    ensures HexValue(HEX[n / 16]) == Some(n / 16) && HexValue(HEX[n % 16]) == Some(n % 16)
  {
  }

  lemma {:induction false} JsonBodyBack(s: string, rest: string, value: string)
    requires JsonRest(rest) == Some(value)
    ensures JsonRest(JsonBody(s) + rest) == Some(s + value)
    decreases |s|
  {
    if s == [] {
      assert JsonBody(s) + rest == rest && s + value == value;
    } else {
      var t, c := s[..|s| - 1], s[|s| - 1];
      JsonCharBack(c, rest);
      JsonBodyBack(t, JsonChar(c) + rest, [c] + value);
      Regroup(JsonBody(t), JsonChar(c), rest);
      Regroup(t, [c], value);
      assert s == t + [c];
    }
  }

  /** The envelope's strings are well formed and say exactly what was put in. */
  lemma JsonRoundTrip(s: string)
    ensures JsonDecode("\"" + JsonBody(s) + "\"") == Some(s)
  {
    JsonBodyBack(s, "\"", []);
    assert s + [] == s;
    Regroup("\"", JsonBody(s), "\"");
  }

  // ---------------------------------------------------------------- HTML markup

  function HtmlChar(c: char): string {
    if c == '&' then "&amp;"
    else if c == '<' then "&lt;"
    else if c == '>' then "&gt;"
    else if c == '"' then "&quot;"
    else if c == '\'' then "&#39;"
    else [c]
  }

  function HtmlText(s: string): string { if s == [] then [] else HtmlText(s[..|s| - 1]) + HtmlChar(s[|s| - 1]) }

  method Escape(value: string) returns (out: string)
    ensures out == HtmlText(value)
  {
    out := "";
    for i := 0 to |value|
      invariant out == HtmlText(value[..i])
    {
      assert value[..i + 1][..i] == value[..i];
      out := out + HtmlChar(value[i]);
    }
    assert value[..|value|] == value;
  }

  /** A browser's reading of text that uses only these five entities: anything raw
    * that could open a tag, end an attribute or start another entity is refused. */
  function HtmlRead(s: string): Option<string>
    decreases |s|
  {
    if s == [] then Some([])
    else if s[0] == '<' || s[0] == '>' || s[0] == '"' || s[0] == '\'' then None
    else if s[0] != '&' then Prepended(s[0], HtmlRead(s[1..]))
    else if "&amp;" <= s then Prepended('&', HtmlRead(s[5..]))
    else if "&lt;" <= s then Prepended('<', HtmlRead(s[4..]))
    else if "&gt;" <= s then Prepended('>', HtmlRead(s[4..]))
    else if "&quot;" <= s then Prepended('"', HtmlRead(s[6..]))
    else if "&#39;" <= s then Prepended('\'', HtmlRead(s[5..]))
    else None
  }

  lemma HtmlCharBack(c: char, rest: string)
    ensures HtmlRead(HtmlChar(c) + rest) == Prepended(c, HtmlRead(rest))
  {
    var s := HtmlChar(c) + rest;
    if c == '&' { assert "&amp;" <= s && s[5..] == rest; }
    else if c == '<' { assert "&lt;" <= s && s[1] == 'l' && s[4..] == rest; }
    else if c == '>' { assert "&gt;" <= s && s[1] == 'g' && s[4..] == rest; }
    else if c == '"' { assert "&quot;" <= s && s[1] == 'q' && s[6..] == rest; }
    else if c == '\'' { assert "&#39;" <= s && s[1] == '#' && s[5..] == rest; }
    else { assert s[1..] == rest; }
  }

  lemma {:induction false} HtmlTextBack(s: string, rest: string, value: string)
    requires HtmlRead(rest) == Some(value)
    ensures HtmlRead(HtmlText(s) + rest) == Some(s + value)
    decreases |s|
  {
    if s == [] {
      assert HtmlText(s) + rest == rest && s + value == value;
    } else {
      var t, c := s[..|s| - 1], s[|s| - 1];
      HtmlCharBack(c, rest);
      HtmlTextBack(t, HtmlChar(c) + rest, [c] + value);
      Regroup(HtmlText(t), HtmlChar(c), rest);
      Regroup(t, [c], value);
      assert s == t + [c];
    }
  }

  /** Nothing a person typed can act as markup, and it is read back unchanged. */
  lemma HtmlRoundTrip(s: string)
    ensures HtmlRead(HtmlText(s)) == Some(s)
  {
    HtmlTextBack(s, [], []);
    assert HtmlText(s) + [] == HtmlText(s) && s + [] == s;
  }

  // ---------------------------------------------------------------------- slugs

  predicate IsLowerOrDigit(c: char) { 'a' <= c <= 'z' || '0' <= c <= '9' }

  predicate IsAlnum(c: char) { IsLowerOrDigit(c) || 'A' <= c <= 'Z' }

  predicate NoAlnum(s: string) { forall i :: 0 <= i < |s| ==> !IsAlnum(s[i]) }

  function Lower(c: char): char { if 'A' <= c <= 'Z' then (c as int + 32) as char else c }

  const LOWERS: string := "abcdefghijklmnopqrstuvwxyz"
  const CAPITALS: string := "ABCDEFGHIJKLMNOPQRSTUVWXYZ"
  const DIGITS: string := "0123456789"

  lemma SmallLetters(c: char)
    ensures 'a' <= c <= 'z' <==> c in LOWERS
  {
    if 'a' <= c <= 'z' { assert LOWERS[c as int - 'a' as int] == c; }
  }

  lemma CapitalLetters(c: char)
    ensures 'A' <= c <= 'Z' <==> c in CAPITALS
  {
    if 'A' <= c <= 'Z' { assert CAPITALS[c as int - 'A' as int] == c; }
  }

  /** The letters and digits of ASCII, and no others. */
  lemma LettersAndDigits(c: char)
    ensures IsLowerOrDigit(c) <==> c in LOWERS || c in DIGITS
    ensures IsAlnum(c) <==> c in LOWERS || c in DIGITS || c in CAPITALS
  {
    SmallLetters(c);
    CapitalLetters(c);
    if '0' <= c <= '9' { assert DIGITS[c as int - '0' as int] == c; }
  }

  /** Each capital becomes its small letter, and nothing else changes. */
  lemma SmallLetterOf(c: char)
    ensures forall i :: 0 <= i < 26 ==> Lower(CAPITALS[i]) == LOWERS[i]
    ensures c !in CAPITALS ==> Lower(c) == c
  {
    CapitalLetters(c);
  }

  predicate IsSlugWord(w: string) { w != [] && forall i :: 0 <= i < |w| ==> IsLowerOrDigit(w[i]) }

  predicate SlugWords(ws: seq<string>) { forall i :: 0 <= i < |ws| ==> IsSlugWord(ws[i]) }

  function Dashed(ws: seq<string>): string { Join(ws, '-') }

  /** The lowercased runs of letters and digits; `open` says that the last one may
    * still grow. */
  datatype Runs = Runs(words: seq<string>, open: bool)

  /** The runs after one more letter, already lowercased. */
  function GrownBy(r: Runs, d: char): seq<string> {
    if r.open && r.words != [] then r.words[..|r.words| - 1] + [r.words[|r.words| - 1] + [d]] else r.words + [[d]]
  }

  /** One more character. */
  function RunsNext(r: Runs, c: char): Runs {
    if IsAlnum(c) then Runs(GrownBy(r, Lower(c)), true) else Runs(r.words, false)
  }

  function RunsOf(s: string): Runs {
    if s == [] then Runs([], false) else RunsNext(RunsOf(s[..|s| - 1]), s[|s| - 1])
  }

  lemma {:induction false} RunsAreWords(s: string)
    ensures SlugWords(RunsOf(s).words) && (RunsOf(s).open ==> RunsOf(s).words != [])
    decreases |s|
  {
    if s != [] {
      RunsAreWords(s[..|s| - 1]);
    }
  }

  lemma DashedAppend(ws: seq<string>, w: string)
    ensures Dashed(ws + [w]) == if ws == [] then w else Dashed(ws) + "-" + w
  {
    if ws == [] { assert ws + [w] == [w]; } else { JoinAppend(ws, [w], '-'); }
  }

  lemma DashedGrows(ws: seq<string>, c: char)
    requires ws != []
    ensures Dashed(ws[..|ws| - 1] + [ws[|ws| - 1] + [c]]) == Dashed(ws) + [c]
  {
    var before, last := ws[..|ws| - 1], ws[|ws| - 1];
    assert ws == before + [last];
    DashedAppend(before, last);
    DashedAppend(before, last + [c]);
  }

  /** The loop builds the runs joined by single dashes. */
  method Slugify(value: string) returns (slug: string)
    ensures slug == Dashed(RunsOf(value).words)
  {
    slug := "";
    var pendingSeparator := false;
    for i := 0 to |value|
      invariant slug == Dashed(RunsOf(value[..i]).words)
      invariant RunsOf(value[..i]).open ==> !pendingSeparator
      invariant RunsOf(value[..i]).words != [] && !RunsOf(value[..i]).open ==> pendingSeparator
    {
      assert value[..i + 1][..i] == value[..i];
      var ch := value[i];
      ghost var r := RunsOf(value[..i]);
      RunsAreWords(value[..i]);
      if IsAlnum(ch) {
        if r.open { DashedGrows(r.words, Lower(ch)); } else { DashedAppend(r.words, [Lower(ch)]); }
        if pendingSeparator && slug != [] { slug := slug + "-"; }
        pendingSeparator := false;
        slug := slug + [Lower(ch)];
      } else {
        pendingSeparator := true;
      }
    }
    assert value[..|value|] == value;
  }

  function Slug(s: string): string { Dashed(RunsOf(s).words) }

  /** The database's grammar: words of lower-case letters and digits, one dash
    * between each two. */
  ghost predicate InGrammar(s: string) { exists ws :: ws != [] && SlugWords(ws) && s == Dashed(ws) }

  lemma SlugInGrammar(s: string)
    ensures Slug(s) == [] || InGrammar(Slug(s))
    ensures Slug(s) == [] <==> NoAlnum(s)
  {
    RunsAreWords(s);
    NoRunsIff(s);
  }

  lemma {:induction false} NoRunsIff(s: string)
    ensures RunsOf(s).words == [] <==> NoAlnum(s)
    decreases |s|
  {
    if s != [] { NoRunsIff(s[..|s| - 1]); }
  }

  lemma LaterLetter(s: string, ws: seq<string>, v: string, c: char)
    requires IsLowerOrDigit(c) && RunsOf(s + v) == Runs(ws + [v], true)
    ensures RunsOf(s + (v + [c])) == Runs(ws + [v + [c]], true)
  {
    Regroup(s, v, [c]);
    WordGrows(ws, v, c);
  }

  /** Reading one more word of a slug adds exactly that run. */
  lemma {:induction false} RunsOfWord(s: string, w: string)
    requires IsSlugWord(w) && !RunsOf(s).open
    ensures RunsOf(s + w) == Runs(RunsOf(s).words + [w], true)
    decreases |w|
  {
    var v, c := w[..|w| - 1], w[|w| - 1];
    assert w == v + [c];
    if v == [] {
      assert w == [c];
    } else {
      RunsOfWord(s, v);
      LaterLetter(s, RunsOf(s).words, v, c);
    }
  }

  lemma WordGrows(ws: seq<string>, v: string, c: char)
    requires IsLowerOrDigit(c)
    ensures RunsNext(Runs(ws + [v], true), c) == Runs(ws + [v + [c]], true)
  {
    assert (ws + [v])[..|ws|] == ws;
  }

  lemma {:induction false} RunsOfDashed(ws: seq<string>)
    requires SlugWords(ws) && ws != []
    ensures RunsOf(Dashed(ws)) == Runs(ws, true)
    decreases |ws|
  {
    var before, w := ws[..|ws| - 1], ws[|ws| - 1];
    assert ws == before + [w] && IsSlugWord(w);
    if before == [] {
      RunsOfWord([], w);
      assert [] + w == w && [] + [w] == ws;
    } else {
      RunsOfDashed(before);
      DashedAppend(before, w);
      RunsOfWord(Dashed(before) + "-", w);
    }
  }

  /** A slug is its own slug. */
  lemma SlugIsIdempotent(s: string)
    ensures Slug(Slug(s)) == Slug(s)
  {
    RunsAreWords(s);
    if RunsOf(s).words != [] { RunsOfDashed(RunsOf(s).words); }
  }

  /** The letters and digits of a string, lowercased, in order. */
  function Letters(s: string): string {
    if s == [] then [] else
      Letters(s[..|s| - 1]) + if IsAlnum(s[|s| - 1]) then [Lower(s[|s| - 1])] else []
  }

  lemma LettersNext(s: string, c: char)
    ensures Letters(s + [c]) == Letters(s) + if IsAlnum(c) then [Lower(c)] else []
  {
    assert (s + [c])[..|s|] == s;
  }

  lemma LettersThenDash(x: string, d: char)
    requires IsLowerOrDigit(d)
    ensures Letters(x + [d]) == Letters(x) + [d] && Letters(x + "-" + [d]) == Letters(x) + [d]
  {
    LettersNext(x, d);
    LettersNext(x, '-');
    LettersNext(x + "-", d);
  }

  lemma DashedNext(r: Runs, d: char)
    requires r.open ==> r.words != []
    ensures var x := Dashed(r.words); var next := Dashed(GrownBy(r, d));
      next == x + [d] || next == x + "-" + [d]
  {
    if r.open { DashedGrows(r.words, d); } else { DashedAppend(r.words, [d]); }
    assert r.words == [] ==> Dashed(r.words) + [d] == [d];
  }

  /** A slug loses and reorders no letter or digit, and adds none. */
  lemma {:induction false} SlugKeepsLetters(s: string)
    ensures Letters(Slug(s)) == Letters(s)
    decreases |s|
  {
    if s != [] {
      var before, c := s[..|s| - 1], s[|s| - 1];
      SlugKeepsLetters(before);
      RunsAreWords(before);
      if IsAlnum(c) {
        DashedNext(RunsOf(before), Lower(c));
        LettersThenDash(Slug(before), Lower(c));
      }
    }
  }

  lemma NextAfter(a: seq<string>, r: Runs, c: char)
    requires r.open ==> r.words != []
    ensures RunsNext(Runs(a + r.words, r.open), c) == Runs(a + RunsNext(r, c).words, RunsNext(r, c).open)
  {
    if r.open {
      var last := |r.words| - 1;
      assert (a + r.words)[..|a| + last] == a + r.words[..last];
      Regroup(a, r.words[..last], [r.words[last] + [Lower(c)]]);
    } else {
      Regroup(a, r.words, [[Lower(c)]]);
    }
  }

  /** After a character that is no letter or digit, a new run starts. */
  lemma {:induction false} RunsAppend(u: string, v: string)
    requires !RunsOf(u).open
    ensures RunsOf(u + v) == Runs(RunsOf(u).words + RunsOf(v).words, RunsOf(v).open)
    decreases |v|
  {
    if v == [] {
      assert u + v == u;
    } else {
      var before, c := v[..|v| - 1], v[|v| - 1];
      RunsAppend(u, before);
      RunsAreWords(before);
      NextAfter(RunsOf(u).words, RunsOf(before), c);
      assert u + v == (u + before) + [c];
    }
  }

  lemma {:induction false} RunsClose(u: string, m: string)
    requires m != [] && NoAlnum(m)
    ensures RunsOf(u + m) == Runs(RunsOf(u).words, false)
    decreases |m|
  {
    var before, c := m[..|m| - 1], m[|m| - 1];
    assert u + m == (u + before) + [c];
    if before == [] { assert u + before == u; } else { RunsClose(u, before); }
  }

  /** However many characters that are no letter or digit stand between two parts, a
    * single dash stands there in the slug; and none at its ends. */
  lemma SlugInParts(u: string, m: string, v: string)
    requires m != [] && NoAlnum(m)
    ensures Slug(u + m + v) == if Slug(u) == [] then Slug(v) else if Slug(v) == [] then Slug(u)
                               else Slug(u) + "-" + Slug(v)
  {
    RunsClose(u, m);
    RunsAppend(u + m, v);
    SlugEmptyIff(u);
    SlugEmptyIff(v);
    var a, b := RunsOf(u).words, RunsOf(v).words;
    if a == [] { assert a + b == b; } else if b == [] { assert a + b == a; } else { JoinAppend(a, b, '-'); }
  }

  lemma SlugEmptyIff(s: string)
    ensures Slug(s) == [] <==> RunsOf(s).words == []
  {
    SlugInGrammar(s);
    NoRunsIff(s);
  }

  /** With nothing between them the letters and digits stay one word, lowercased. */
  lemma {:induction false} SlugOfWord(s: string)
    requires s != [] && forall i :: 0 <= i < |s| ==> IsAlnum(s[i])
    ensures RunsOf(s) == Runs([Letters(s)], true) && Slug(s) == Letters(s)
    decreases |s|
  {
    var before, c := s[..|s| - 1], s[|s| - 1];
    if before != [] {
      SlugOfWord(before);
      assert GrownBy(RunsOf(before), Lower(c)) == [Letters(before) + [Lower(c)]];
    } else {
      assert Letters(s) == [Lower(c)] && RunsOf(s).words == [[Lower(c)]];
    }
  }

  // --------------------------------------------------------------------- cursors

  const NUL: char := 0 as char

  /** An id, by the five groups of its text; a number is whatever `Notation` prints. */
  datatype Uuid = Uuid(a: nat, b: nat, c: nat, d: nat, e: nat)

  datatype Cursor<N> = Cursor(id: Uuid, sortKey: Option<N>, name: string)

  /** How finite numbers are printed and parsed; not modelled further. */
  datatype Notation<!N> = Notation(show: N -> string, parse: string -> Option<N>)

  ghost predicate Exact<N(!new)>(n: Notation<N>) {
    forall x :: n.parse(n.show(x)) == Some(x) && n.show(x) != [] && NUL !in n.show(x)
  }

  function Power16(w: nat): nat { if w == 0 then 1 else 16 * Power16(w - 1) }

  predicate IsUuid(u: Uuid) {
    u.a < Power16(8) && u.b < Power16(4) && u.c < Power16(4) && u.d < Power16(4) && u.e < Power16(12)
  }

  function HexOf(n: nat, width: nat): (s: string)
    ensures |s| == width
  {
    if width == 0 then [] else HexOf(n / 16, width - 1) + [HEX[n % 16]]
  }

  function ReadHex(s: string): Option<nat> {
    if s == [] then Some(0)
    else
      var high, low := ReadHex(s[..|s| - 1]), HexValue(s[|s| - 1]);
      if high.Some? && low.Some? then Some(16 * high.value + low.value) else None
  }

  lemma {:induction false} HexOfBack(n: nat, width: nat)
    requires n < Power16(width)
    ensures ReadHex(HexOf(n, width)) == Some(n)
    decreases width
  {
    if width > 0 {
      HexOfBack(n / 16, width - 1);
      assert HexOf(n, width)[..width - 1] == HexOf(n / 16, width - 1);
    }
  }

  lemma {:induction false} HexOfPrintable(n: nat, width: nat)
    ensures NUL !in HexOf(n, width)
    decreases width
  {
    if width > 0 {
      HexOfPrintable(n / 16, width - 1);
    }
  }

  function UuidText(u: Uuid): string {
    HexOf(u.a, 8) + "-" + (HexOf(u.b, 4) + "-" + (HexOf(u.c, 4) + "-" + (HexOf(u.d, 4) + "-" + HexOf(u.e, 12))))
  }

  /** Fixed places for the dashes, and hexadecimal digits everywhere else. */
  function ReadUuid(s: string): Option<Uuid> {
    if |s| != 36 || s[8] != '-' || s[13] != '-' || s[18] != '-' || s[23] != '-' then None
    else
      var a, b, c, d, e := ReadHex(s[..8]), ReadHex(s[9..13]), ReadHex(s[14..18]), ReadHex(s[19..23]), ReadHex(s[24..]);
      if a.Some? && b.Some? && c.Some? && d.Some? && e.Some?
      then Some(Uuid(a.value, b.value, c.value, d.value, e.value)) else None
  }

  lemma GroupsOf(a: string, b: string, c: string, d: string, e: string)
    requires |a| == 8 && |b| == |c| == |d| == 4 && |e| == 12
    ensures var s := a + "-" + (b + "-" + (c + "-" + (d + "-" + e)));
      && |s| == 36 && s[8] == s[13] == s[18] == s[23] == '-'
      && s[..8] == a && s[9..13] == b && s[14..18] == c && s[19..23] == d && s[24..] == e
  {
  }

  lemma UuidBack(u: Uuid)
    requires IsUuid(u)
    ensures ReadUuid(UuidText(u)) == Some(u) && NUL !in UuidText(u)
  {
    GroupsOf(HexOf(u.a, 8), HexOf(u.b, 4), HexOf(u.c, 4), HexOf(u.d, 4), HexOf(u.e, 12));
    HexOfBack(u.a, 8);
    HexOfBack(u.b, 4);
    HexOfBack(u.c, 4);
    HexOfBack(u.d, 4);
    HexOfBack(u.e, 12);
    UuidPrintable(u);
  }

  lemma UuidPrintable(u: Uuid)
    ensures NUL !in UuidText(u)
  {
    HexOfPrintable(u.a, 8);
    HexOfPrintable(u.b, 4);
    HexOfPrintable(u.c, 4);
    HexOfPrintable(u.d, 4);
    HexOfPrintable(u.e, 12);
  }

  function KeyText<N>(key: Option<N>, n: Notation<N>): string { if key.Some? then n.show(key.value) else [] }

  function CursorText<N>(c: Cursor<N>, n: Notation<N>): string {
    UuidText(c.id) + [NUL] + (KeyText(c.sortKey, n) + [NUL] + c.name)
  }

  function SplitOnce(s: string): Option<(string, string)> {
    if s == [] then None
    else if s[0] == NUL then Some(([], s[1..]))
    else
      var rest := SplitOnce(s[1..]);
      if rest.Some? then Some(([s[0]] + rest.value.0, rest.value.1)) else None
  }

  /** Two splits from the left; then the id and, unless it is empty, the number. */
  function ReadCursor<N>(s: string, n: Notation<N>): Option<Cursor<N>> {
    var first := SplitOnce(s);
    if first.None? then None
    else
      var second := SplitOnce(first.value.1);
      if second.None? then None
      else
        var key := second.value.0;
        var number := if key == [] then None else n.parse(key);
        if key != [] && number.None? then None
        else
          var id := ReadUuid(first.value.0);
          if id.None? then None else Some(Cursor(id.value, number, second.value.1))
  }

  lemma {:induction false} SplitBack(a: string, b: string)
    requires NUL !in a
    ensures SplitOnce(a + [NUL] + b) == Some((a, b))
    decreases |a|
  {
    var s := a + [NUL] + b;
    if a == [] {
      assert s == [NUL] + b && s[1..] == b;
    } else {
      assert s[1..] == a[1..] + [NUL] + b && s[0] == a[0];
      assert a[0] in a && forall c :: c in a[1..] ==> c in a;
      SplitBack(a[1..], b);
      assert a == [a[0]] + a[1..];
    }
  }

  /** A cursor decodes to itself whatever the name contains. */
  lemma CursorRoundTrip<N(!new)>(c: Cursor<N>, n: Notation<N>)
    requires IsUuid(c.id) && Exact(n)
    ensures ReadCursor(CursorText(c, n), n) == Some(c)
  {
    var key := KeyText(c.sortKey, n);
    UuidBack(c.id);
    SplitBack(UuidText(c.id), key + [NUL] + c.name);
    SplitBack(key, c.name);
  }
}
