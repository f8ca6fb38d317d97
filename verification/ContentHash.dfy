/** The text the importer digests to decide whether a licence record changed:
  * fifteen fields, each followed by a NUL. The digest itself is not modelled. */
module ContentHash {
  import opened Prelude
  import opened TextCodecs
  import opened Words

  datatype Status = Active | Expired | Suspended | Inactive | Unknown

  /** Dates are the ten-character texts they are printed as. */
  datatype Record = Record(businessName: string, businessType: Option<string>, status: Status, statusRaw: string,
                           issueDate: Option<string>, expirationDate: Option<string>,
                           classifications: seq<string>, bondCents: Option<nat>,
                           workersComp: Option<string>, address: Option<string>, city: Option<string>,
                           state: Option<string>, postalCode: Option<string>, county: Option<string>,
                           phone: Option<string>)

  function StatusText(s: Status): string {
    match s
    case Active => "active"
    case Expired => "expired"
    case Suspended => "suspended"
    case Inactive => "inactive"
    case Unknown => "unknown"
  }

  function Digit(n: nat): char
    requires n < 10
  {
    (n + '0' as int) as char
  }

  function Decimal(n: nat): string {
    if n < 10 then [Digit(n)] else Decimal(n / 10) + [Digit(n % 10)]
  }

  function OrEmpty(s: Option<string>): string { if s.Some? then s.value else [] }

  function Fields(r: Record): (fs: seq<string>)
    ensures |fs| == 15
  {
    [r.businessName, OrEmpty(r.businessType), StatusText(r.status), r.statusRaw,
     OrEmpty(r.issueDate), OrEmpty(r.expirationDate), Join(r.classifications, ','),
     if r.bondCents.Some? then Decimal(r.bondCents.value) else [],
     OrEmpty(r.workersComp), OrEmpty(r.address), OrEmpty(r.city), OrEmpty(r.state),
     OrEmpty(r.postalCode), OrEmpty(r.county), OrEmpty(r.phone)]
  }

  /** What is fed to the hasher. */
  function Digested(fields: seq<string>): string {
    if fields == [] then [] else fields[0] + [NUL] + Digested(fields[1..])
  }

  /** The loop over the fields, as the hasher sees it. */
  method FeedHasher(r: Record) returns (fed: string)
    ensures fed == Digested(Fields(r))
  {
    fed := "";
    var fields := Fields(r);
    for i := 0 to |fields|
      invariant fed + Digested(fields[i..]) == Digested(fields)
    {
      assert fields[i..][1..] == fields[i + 1..];
      Regroup(fed, fields[i] + [NUL], Digested(fields[i + 1..]));
      fed := fed + (fields[i] + [NUL]);
    }
    assert fields[|fields|..] == [] && fed + [] == fed;
  }

  predicate NoNul(fields: seq<string>) { forall i :: 0 <= i < |fields| ==> NUL !in fields[i] }

  /** The separator keeps fields apart: ("ab", "c") and ("a", "bc") differ. */
  lemma {:induction false} DigestedInjective(a: seq<string>, b: seq<string>)
    requires |a| == |b| && NoNul(a) && NoNul(b) && Digested(a) == Digested(b)
    ensures a == b
    decreases |a|
  {
    if a != [] {
      SplitBack(a[0], Digested(a[1..]));
      SplitBack(b[0], Digested(b[1..]));
      DigestedInjective(a[1..], b[1..]);
      assert a == [a[0]] + a[1..] && b == [b[0]] + b[1..];
    }
  }

  /** What building a record guarantees: a field that is there is not empty, and a
    * classification has no comma in it. */
  predicate Built(r: Record) {
    && NotBlank(r.businessType) && NotBlank(r.issueDate) && NotBlank(r.expirationDate)
    && NotBlank(r.workersComp) && NotBlank(r.address) && NotBlank(r.city) && NotBlank(r.state)
    && NotBlank(r.postalCode) && NotBlank(r.county) && NotBlank(r.phone)
    && Separable(r.classifications, ',')
  }

  predicate NotBlank(s: Option<string>) { s.Some? ==> s.value != [] }

  lemma {:induction false} DecimalInjective(m: nat, n: nat)
    requires Decimal(m) == Decimal(n)
    ensures m == n
    decreases m
  {
    DecimalNonEmpty(m / 10);
    DecimalNonEmpty(n / 10);
    if m >= 10 && n >= 10 {
      var a, b := Decimal(m / 10), Decimal(n / 10);
      assert Decimal(m)[..|a|] == a && Decimal(n)[..|b|] == b && |a| == |b|;
      assert Decimal(m)[|a|] == Digit(m % 10) && Decimal(n)[|b|] == Digit(n % 10);
      DecimalInjective(m / 10, n / 10);
    } else if m < 10 && n < 10 {
      assert Decimal(m)[0] == Digit(m) && Decimal(n)[0] == Digit(n);
    }
  }

  lemma {:induction false} DecimalNonEmpty(n: nat)
    ensures Decimal(n) != []
  {
  }

  /** Equal digested text means equal records: no change to a built record goes
    * unseen, as far as the text that is hashed goes. */
  lemma NoChangeUnseen(r: Record, q: Record)
    requires Built(r) && Built(q) && NoNul(Fields(r)) && NoNul(Fields(q))
    requires Digested(Fields(r)) == Digested(Fields(q))
    ensures r == q
  {
    DigestedInjective(Fields(r), Fields(q));
    SameFields(r, q, Fields(r), Fields(q));
  }

  lemma SameFields(r: Record, q: Record, f: seq<string>, g: seq<string>)
    requires Built(r) && Built(q) && f == Fields(r) && g == Fields(q) && f == g
    ensures r == q
  {
    assert forall i :: 0 <= i < 15 ==> f[i] == g[i];
    JoinInjective(r.classifications, q.classifications, ',');
    SameBond(r.bondCents, q.bondCents);
  }

  lemma SameBond(a: Option<nat>, b: Option<nat>)
    requires (if a.Some? then Decimal(a.value) else []) == (if b.Some? then Decimal(b.value) else [])
    ensures a == b
  {
    if a.Some? { DecimalNonEmpty(a.value); }
    if b.Some? { DecimalNonEmpty(b.value); }
    if a.Some? && b.Some? { DecimalInjective(a.value, b.value); }
  }

  // -------------------------------------------------------------- building a record

  /** The cells of a row by column; `None` where the file has no such column. */
  datatype Cells = Cells(licence: Option<string>, businessName: Option<string>, businessType: Option<string>,
                         status: Option<string>, issueDate: Option<string>, expirationDate: Option<string>,
                         classifications: Option<string>, bond: Option<string>, workersComp: Option<string>,
                         address: Option<string>, city: Option<string>, state: Option<string>,
                         postalCode: Option<string>, county: Option<string>, phone: Option<string>)

  /** The parsers taken as given: white space, dates printed back, and money. */
  datatype Parsers = Parsers(blank: char -> bool, date: string -> Option<string>, cents: string -> Option<nat>)

  ghost predicate Sensible(ps: Parsers) { forall s :: NotBlank(ps.date(s)) }

  /** A cell that is missing or blank is no value. */
  function Get(cell: Option<string>, blank: char -> bool): (r: Option<string>)
    ensures NotBlank(r)
  {
    if cell.None? || Trimmed(cell.value, blank) == [] then None else Some(Trimmed(cell.value, blank))
  }

  function UpperChar(c: char): char { if 'a' <= c <= 'z' then (c as int - 32) as char else c }

  /** Each small letter of ASCII becomes its capital, and nothing else changes. */
  lemma CapitalsAre(c: char)
    ensures forall i :: 0 <= i < 26 ==> UpperChar(LOWERS[i]) == CAPITALS[i]
    ensures c !in LOWERS ==> UpperChar(c) == c
  {
    SmallLetters(c);
  }

  function Upper(s: string): (r: string)
    ensures |r| == |s| && forall i :: 0 <= i < |s| ==> r[i] == UpperChar(s[i])
  {
    if s == [] then [] else Upper(s[..|s| - 1]) + [UpperChar(s[|s| - 1])]
  }

  predicate IsSeparator(c: char) { c == ',' || c == ';' || c == '/' || c == ' ' || c == '|' }

  /** The pieces between separators, some perhaps empty. */
  function Pieces(s: string): (r: seq<string>)
    ensures r != []
  {
    if s == [] then [[]]
    else
      var before := Pieces(s[..|s| - 1]);
      if IsSeparator(s[|s| - 1]) then before + [[]]
      else before[..|before| - 1] + [before[|before| - 1] + [s[|s| - 1]]]
  }

  function Codes(pieces: seq<string>, blank: char -> bool): seq<string> {
    if pieces == [] then []
    else
      var piece := Trimmed(pieces[|pieces| - 1], blank);
      Codes(pieces[..|pieces| - 1], blank) + if piece == [] then [] else [Upper(piece)]
  }

  predicate NoSeparator(s: string) { forall i :: 0 <= i < |s| ==> !IsSeparator(s[i]) }

  lemma {:induction false} PiecesHaveNone(s: string)
    ensures forall i :: 0 <= i < |Pieces(s)| ==> NoSeparator(Pieces(s)[i])
    decreases |s|
  {
    if s != [] { PiecesHaveNone(s[..|s| - 1]); }
  }

  lemma {:induction false} TrimmedHasNone(s: string, blank: char -> bool)
    requires NoSeparator(s)
    ensures NoSeparator(Trimmed(s, blank))
    decreases |s|
  {
    if s != [] {
      if blank(s[0]) { TrimmedHasNone(s[1..], blank); }
      else if blank(s[|s| - 1]) { TrimmedHasNone(s[..|s| - 1], blank); }
    }
  }

  lemma {:induction false} CodesAreSeparable(pieces: seq<string>, blank: char -> bool)
    requires forall i :: 0 <= i < |pieces| ==> NoSeparator(pieces[i])
    ensures Separable(Codes(pieces, blank), ',')
    decreases |pieces|
  {
    if pieces != [] {
      CodesAreSeparable(pieces[..|pieces| - 1], blank);
      TrimmedHasNone(pieces[|pieces| - 1], blank);
    }
  }

  /** Letters and digits of both cases taken as they come, does `s` hold `word`? */
  function Holds(s: string, word: string): bool {
    word <= s || (s != [] && Holds(s[1..], word))
  }

  /** The specific and the negative before the positive. */
  function StatusOf(raw: string): Status {
    var upper := Upper(raw);
    if Holds(upper, "INACTIVE") then Inactive
    else if Holds(upper, "SUSP") then Suspended
    else if Holds(upper, "EXPIR") then Expired
    else if Holds(upper, "CLEAR") || Holds(upper, "ACTIVE") then Active
    else Unknown
  }

  function OnlyDigits(s: string): string {
    if s == [] then [] else OnlyDigits(s[..|s| - 1]) + if '0' <= s[|s| - 1] <= '9' then [s[|s| - 1]] else []
  }

  function PostalCode(s: string): Option<string> {
    var digits := OnlyDigits(s);
    if |digits| >= 5 then Some(digits[..5]) else None
  }

  function Take2(s: string): string { if |s| <= 2 then s else s[..2] }

  function Then<T>(cell: Option<string>, parse: string -> Option<T>): Option<T> {
    if cell.Some? then parse(cell.value) else None
  }

  /** A row without a licence number, a name or a status is rejected. */
  function BuildRecord(c: Cells, ps: Parsers): Option<Record> {
    var name, status := Get(c.businessName, ps.blank), Get(c.status, ps.blank);
    if Get(c.licence, ps.blank).None? || name.None? || status.None? then None
    else
      var classes, state := Get(c.classifications, ps.blank), Get(c.state, ps.blank);
      Some(Record(name.value, Get(c.businessType, ps.blank), StatusOf(status.value), status.value,
                  Then(Get(c.issueDate, ps.blank), ps.date), Then(Get(c.expirationDate, ps.blank), ps.date),
                  if classes.Some? then Codes(Pieces(classes.value), ps.blank) else [],
                  Then(Get(c.bond, ps.blank), ps.cents), Get(c.workersComp, ps.blank), Get(c.address, ps.blank),
                  Get(c.city, ps.blank), if state.Some? then Some(Take2(Upper(state.value))) else None,
                  Then(Get(c.postalCode, ps.blank), PostalCode), Get(c.county, ps.blank), Get(c.phone, ps.blank)))
  }

  /** What building guarantees, whatever the row holds. */
  lemma BuildingBuilds(c: Cells, ps: Parsers)
    requires Sensible(ps) && BuildRecord(c, ps).Some?
    ensures Built(BuildRecord(c, ps).value)
  {
    var classes := Get(c.classifications, ps.blank);
    if classes.Some? {
      PiecesHaveNone(classes.value);
      CodesAreSeparable(Pieces(classes.value), ps.blank);
    }
  }

  /** So exactly the changes to a row of the file that change its record are seen. */
  lemma NoRowChangeUnseen(c: Cells, d: Cells, ps: Parsers)
    requires Sensible(ps) && BuildRecord(c, ps).Some? && BuildRecord(d, ps).Some?
    requires NoNul(Fields(BuildRecord(c, ps).value)) && NoNul(Fields(BuildRecord(d, ps).value))
    ensures Digested(Fields(BuildRecord(c, ps).value)) == Digested(Fields(BuildRecord(d, ps).value)) <==>
              BuildRecord(c, ps) == BuildRecord(d, ps)
  {
    BuildingBuilds(c, ps);
    BuildingBuilds(d, ps);
    if Digested(Fields(BuildRecord(c, ps).value)) == Digested(Fields(BuildRecord(d, ps).value)) {
      NoChangeUnseen(BuildRecord(c, ps).value, BuildRecord(d, ps).value);
    }
  }

  // ------------------------------------------------------- what each field is made from

  /** Every field is made from its own column. Where the text is taken over as it is,
    * the fields of two rows agree exactly if their cells say the same. */
  lemma OneColumnOneField(c: Cells, d: Cells, ps: Parsers)
    requires BuildRecord(c, ps).Some? && BuildRecord(d, ps).Some?
    ensures var r, q := BuildRecord(c, ps).value, BuildRecord(d, ps).value;
      && (r.businessName == q.businessName <==> Get(c.businessName, ps.blank) == Get(d.businessName, ps.blank))
      && (r.statusRaw == q.statusRaw <==> Get(c.status, ps.blank) == Get(d.status, ps.blank))
      && (r.businessType == q.businessType <==> Get(c.businessType, ps.blank) == Get(d.businessType, ps.blank))
      && (r.workersComp == q.workersComp <==> Get(c.workersComp, ps.blank) == Get(d.workersComp, ps.blank))
      && (r.address == q.address <==> Get(c.address, ps.blank) == Get(d.address, ps.blank))
      && (r.city == q.city <==> Get(c.city, ps.blank) == Get(d.city, ps.blank))
      && (r.county == q.county <==> Get(c.county, ps.blank) == Get(d.county, ps.blank))
      && (r.phone == q.phone <==> Get(c.phone, ps.blank) == Get(d.phone, ps.blank))
      && (c.status == d.status ==> r.status == q.status)
      && (c.issueDate == d.issueDate ==> r.issueDate == q.issueDate)
      && (c.expirationDate == d.expirationDate ==> r.expirationDate == q.expirationDate)
      && (c.classifications == d.classifications ==> r.classifications == q.classifications)
      && (c.bond == d.bond ==> r.bondCents == q.bondCents)
      && (c.state == d.state ==> r.state == q.state)
      && (c.postalCode == d.postalCode ==> r.postalCode == q.postalCode)
  {
  }

  /** The fields that are parsed, from the text of their cells; none without a cell. */
  lemma ParsedFieldsAre(c: Cells, ps: Parsers, text: string)
    requires BuildRecord(c, ps).Some?
    ensures var r := BuildRecord(c, ps).value;
      && (Get(c.status, ps.blank) == Some(text) ==> r.status == StatusOf(text))
      && (Get(c.issueDate, ps.blank) == Some(text) ==> r.issueDate == ps.date(text))
      && (Get(c.expirationDate, ps.blank) == Some(text) ==> r.expirationDate == ps.date(text))
      && (Get(c.bond, ps.blank) == Some(text) ==> r.bondCents == ps.cents(text))
      && (Get(c.postalCode, ps.blank) == Some(text) ==> r.postalCode == PostalCode(text))
      && (Get(c.state, ps.blank) == Some(text) ==>
            && r.state.Some? && |r.state.value| == (if |text| < 2 then |text| else 2)
            && forall i :: 0 <= i < |r.state.value| ==> r.state.value[i] == UpperChar(text[i]))
      && (Get(c.issueDate, ps.blank) == None ==> r.issueDate == None)
      && (Get(c.expirationDate, ps.blank) == None ==> r.expirationDate == None)
      && (Get(c.bond, ps.blank) == None ==> r.bondCents == None)
      && (Get(c.postalCode, ps.blank) == None ==> r.postalCode == None)
      && (Get(c.state, ps.blank) == None ==> r.state == None)
      && (Get(c.classifications, ps.blank) == None ==> r.classifications == [])
  {
  }

  /** A cell with nothing blank at its ends. */
  predicate Plain(s: string, blank: char -> bool) { s != [] && !blank(s[0]) && !blank(s[|s| - 1]) }

  predicate AllBlank(s: string, blank: char -> bool) { forall i :: 0 <= i < |s| ==> blank(s[i]) }

  /** A cell is read without the blanks around it, and nothing else is lost. */
  lemma {:induction false} GetIs(before: string, s: string, after: string, blank: char -> bool)
    requires AllBlank(before, blank) && AllBlank(after, blank) && (s == [] || Plain(s, blank))
    ensures Get(Some(before + s + after), blank) == if s == [] then None else Some(s)
    decreases |before| + |after|
  {
    var cell := before + s + after;
    if before != [] {
      assert cell[1..] == before[1..] + s + after;
      GetIs(before[1..], s, after, blank);
    } else if after != [] {
      assert cell[..|cell| - 1] == before + s + after[..|after| - 1];
      GetIs(before, s, after[..|after| - 1], blank);
      if s == [] { TrimmedBlank(cell, blank); }
    } else {
      assert cell == s;
    }
  }

  lemma {:induction false} TrimmedBlank(s: string, blank: char -> bool)
    requires AllBlank(s, blank)
    ensures Trimmed(s, blank) == []
    decreases |s|
  {
    if s != [] { TrimmedBlank(s[1..], blank); }
  }

  /** Is `word` found in `s`? */
  ghost predicate Within(s: string, word: string) { exists u, v :: s == u + word + v }

  lemma {:induction false} HoldsIff(s: string, word: string)
    ensures Holds(s, word) <==> Within(s, word)
    decreases |s|
  {
    if word <= s {
      assert s == [] + word + s[|word|..];
    } else if s != [] {
      HoldsIff(s[1..], word);
      if Within(s[1..], word) {
        var u, v :| s[1..] == u + word + v;
        assert s == ([s[0]] + u) + word + v;
      }
      if Within(s, word) {
        var u, v :| s == u + word + v;
        assert u == [] ==> u + word + v == word + v;
        assert s[1..] == u[1..] + word + v;
      }
    }
  }

  /** The status, by what the text says in letters of either case: a licence is active
    * only if nothing speaks against it. */
  lemma StatusIs(raw: string)
    ensures var u := Upper(raw);
      && (StatusOf(raw) == Inactive <==> Within(u, "INACTIVE"))
      && (StatusOf(raw) == Suspended <==> Within(u, "SUSP") && !Within(u, "INACTIVE"))
      && (StatusOf(raw) == Expired <==> Within(u, "EXPIR") && !Within(u, "INACTIVE") && !Within(u, "SUSP"))
      && (StatusOf(raw) == Active <==> (Within(u, "CLEAR") || Within(u, "ACTIVE"))
                                       && !Within(u, "INACTIVE") && !Within(u, "SUSP") && !Within(u, "EXPIR"))
  {
    HoldsIff(Upper(raw), "INACTIVE");
    HoldsIff(Upper(raw), "SUSP");
    HoldsIff(Upper(raw), "EXPIR");
    HoldsIff(Upper(raw), "CLEAR");
    HoldsIff(Upper(raw), "ACTIVE");
  }

  lemma {:induction false} AllDigits(s: string)
    requires forall i :: 0 <= i < |s| ==> '0' <= s[i] <= '9'
    ensures OnlyDigits(s) == s
    decreases |s|
  {
    if s != [] { AllDigits(s[..|s| - 1]); }
  }

  lemma {:induction false} DigitsOnward(zip: string, rest: string)
    requires forall i :: 0 <= i < |zip| ==> '0' <= zip[i] <= '9'
    ensures zip <= OnlyDigits(zip + rest)
    decreases |zip| + |rest|
  {
    if rest != [] {
      DigitsOnward(zip, rest[..|rest| - 1]);
      assert (zip + rest)[..|zip + rest| - 1] == zip + rest[..|rest| - 1];
    } else {
      AllDigits(zip);
      assert zip + [] == zip;
    }
  }

  /** Five digits are the postal code whatever follows them, as in ZIP+4. */
  lemma PostalCodeIs(zip: string, rest: string)
    requires |zip| == 5 && forall i :: 0 <= i < 5 ==> '0' <= zip[i] <= '9'
    ensures PostalCode(zip + rest) == Some(zip)
  {
    DigitsOnward(zip, rest);
    assert OnlyDigits(zip + rest)[..5] == zip;
  }

  lemma {:induction false} OnlyDigitsAre(s: string)
    ensures forall i :: 0 <= i < |OnlyDigits(s)| ==> '0' <= OnlyDigits(s)[i] <= '9'
    decreases |s|
  {
    if s != [] { OnlyDigitsAre(s[..|s| - 1]); }
  }

  /** A postal code is never anything but five digits. */
  lemma PostalCodeHasFive(s: string)
    ensures PostalCode(s).Some? ==>
              |PostalCode(s).value| == 5 && forall i :: 0 <= i < 5 ==> '0' <= PostalCode(s).value[i] <= '9'
    ensures PostalCode(s).None? <==> |OnlyDigits(s)| < 5
  {
    OnlyDigitsAre(s);
  }

  lemma {:induction false} PiecesOfWord(s: string, w: string)
    requires NoSeparator(w)
    ensures var p := Pieces(s); Pieces(s + w) == p[..|p| - 1] + [p[|p| - 1] + w]
    decreases |w|
  {
    var p := Pieces(s);
    if w == [] {
      assert s + w == s && p[|p| - 1] + w == p[|p| - 1];
    } else {
      var v, c := w[..|w| - 1], w[|w| - 1];
      PiecesOfWord(s, v);
      Regroup(s, v, [c]);
      Regroup(p[|p| - 1], v, [c]);
      assert w == v + [c];
    }
  }

  /** A list split at its separators gives back its words. */
  lemma {:induction false} PiecesOfJoin(words: seq<string>, sep: char)
    requires words != [] && IsSeparator(sep) && forall i :: 0 <= i < |words| ==> NoSeparator(words[i])
    ensures Pieces(Join(words, sep)) == words
    decreases |words|
  {
    var before, w := words[..|words| - 1], words[|words| - 1];
    assert words == before + [w];
    if before == [] {
      PiecesOfWord([], w);
      assert [] + w == w;
    } else {
      PiecesOfJoin(before, sep);
      JoinAppend(before, [w], sep);
      PiecesOfWord(Join(before, sep) + [sep], w);
      assert [] + w == w;
    }
  }

  function InUpper(words: seq<string>): seq<string> {
    seq(|words|, i requires 0 <= i < |words| => Upper(words[i]))
  }

  lemma {:induction false} CodesOfWords(words: seq<string>, blank: char -> bool)
    requires forall i :: 0 <= i < |words| ==> Plain(words[i], blank)
    ensures Codes(words, blank) == InUpper(words)
    decreases |words|
  {
    if words != [] {
      var before, last := words[..|words| - 1], words[|words| - 1];
      CodesOfWords(before, blank);
      assert Trimmed(last, blank) == last;
      assert InUpper(words) == InUpper(before) + [Upper(last)];
    }
  }

  /** A cell that lists codes gives exactly those codes, in order and in capitals,
    * whichever of the five separators it uses. */
  lemma ClassificationsAre(c: Cells, ps: Parsers, words: seq<string>, sep: char)
    requires BuildRecord(c, ps).Some? && Get(c.classifications, ps.blank) == Some(Join(words, sep))
    requires words != [] && sep in ",;/ |"
    requires forall i :: 0 <= i < |words| ==> NoSeparator(words[i]) && Plain(words[i], ps.blank)
    ensures BuildRecord(c, ps).value.classifications == InUpper(words)
  {
    PiecesOfJoin(words, sep);
    CodesOfWords(words, ps.blank);
  }
}
