/** Release versions: YYYY.MM.DD.N, read leniently (a bare date is sequence 0) and written strictly. */
module CalVer {
  import opened Wrappers

  datatype Date = Date(year: nat, month: nat, day: nat)

  datatype Version = Version(date: Date, sequence: nat)

  predicate IsLeap(year: nat) { year % 4 == 0 && (year % 100 != 0 || year % 400 == 0) }

  function DaysIn(year: nat, month: nat): nat {
    if month == 2 then (if IsLeap(year) then 29 else 28)
    else if month in {4, 6, 9, 11} then 30 else 31
  }

  /** What the date constructor accepts. */
  predicate IsDate(d: Date) {
    1 <= d.year <= 9999 && 1 <= d.month <= 12 && 1 <= d.day <= DaysIn(d.year, d.month)
  }

  // ----- decimal digits ------------------------------------------------------------------

  predicate IsDigit(c: char) { '0' <= c <= '9' }

  predicate AllDigits(s: string) { forall i :: 0 <= i < |s| ==> IsDigit(s[i]) }

  function DigitChar(n: nat): char
    requires n < 10
  {
    '0' + n as char
  }

  function Number(s: string): nat
    requires AllDigits(s)
  {
    if s == "" then 0 else 10 * Number(s[..|s| - 1]) + (s[|s| - 1] as int - '0' as int)
  }

  /** Exactly width digits, zero padded. */
  function Pad(n: nat, width: nat): string {
    if width == 0 then "" else Pad(n / 10, width - 1) + [DigitChar(n % 10)]
  }

  /** No leading zeros. */
  function Decimal(n: nat): string {
    if n < 10 then [DigitChar(n)] else Decimal(n / 10) + [DigitChar(n % 10)]
  }

  function Pow10(k: nat): nat { if k == 0 then 1 else 10 * Pow10(k - 1) }

  lemma {:induction false} NumberOfPad(n: nat, width: nat)
    requires n < Pow10(width)
    ensures |Pad(n, width)| == width && AllDigits(Pad(n, width)) && Number(Pad(n, width)) == n
  {
    if width > 0 {
      NumberOfPad(n / 10, width - 1);
      var s := Pad(n, width);
      assert s[..|s| - 1] == Pad(n / 10, width - 1);
    }
  }

  lemma {:induction false} PadOfNumber(s: string)
    requires AllDigits(s)
    ensures Pad(Number(s), |s|) == s && Number(s) < Pow10(|s|)
  {
    if s != "" {
      var init := s[..|s| - 1];
      PadOfNumber(init);
      assert s == init + [s[|s| - 1]];
      var digit := s[|s| - 1] as int - '0' as int;
      assert Number(s) / 10 == Number(init) && Number(s) % 10 == digit;
      assert DigitChar(digit) == s[|s| - 1];
    }
  }

  lemma {:induction false} NumberOfDecimal(n: nat)
    ensures AllDigits(Decimal(n)) && Number(Decimal(n)) == n && Decimal(n) != ""
    ensures n > 0 ==> Decimal(n)[0] != '0'
  {
    var s := Decimal(n);
    if n >= 10 {
      NumberOfDecimal(n / 10);
      assert s[..|s| - 1] == Decimal(n / 10);
    } else {
      assert s[..0] == "";
    }
  }

  lemma {:induction false} DecimalOfNumber(s: string)
    requires AllDigits(s) && s != "" && s[0] != '0'
    ensures Decimal(Number(s)) == s && Number(s) > 0
  {
    var init := s[..|s| - 1];
    assert s == init + [s[|s| - 1]];
    if init != "" {
      DecimalOfNumber(init);
    }
  }

  lemma DecimalIsPad(n: nat)
    requires 1000 <= n <= 9999
    ensures Decimal(n) == Pad(n, 4)
  {
    assert Decimal(n / 1000) == Pad(n / 1000, 1);
    assert n / 100 / 10 == n / 1000 && n / 10 / 10 == n / 100;
    assert Decimal(n / 100) == Pad(n / 100, 2);
    assert Decimal(n / 10) == Pad(n / 10, 3);
  }

  /** Reading digit by digit, most significant first. */
  lemma NumberAppend(s: string, c: char)
    requires AllDigits(s) && '0' <= c <= '9'
    ensures Number("") == 0 && AllDigits(s + [c]) && Number(s + [c]) == 10 * Number(s) + (c as int - 48)
  {
    var t := s + [c];
    assert t[..|t| - 1] == s;
  }

  /** The calendar: 29 February exists in 2024 and 2000, not in 2023 or 1900; thirty days hath September. */
  lemma CalendarDays()
    ensures IsDate(Date(2024, 2, 29)) && IsDate(Date(2000, 2, 29))
    ensures !IsDate(Date(2023, 2, 29)) && !IsDate(Date(1900, 2, 29)) && !IsDate(Date(2024, 2, 30))
    ensures forall m :: IsDate(Date(2023, m, 31)) <==> m in {1, 3, 5, 7, 8, 10, 12}
    ensures forall m :: IsDate(Date(2023, m, 30)) <==> 1 <= m <= 12 && m != 2
    ensures forall y, m, d :: IsDate(Date(y, m, d)) ==> 1 <= y <= 9999 && 1 <= m <= 12 && 1 <= d <= 31
    ensures forall y, m, d :: 1 <= y <= 9999 && 1 <= m <= 12 && 1 <= d <= 28 ==> IsDate(Date(y, m, d))
  {
  }

  // ----- parsing and printing ---------------------------------------------------------------

  /** The regular expression: four, two and two digits, then nothing or a number without leading zero. */
  predicate Matches(v: string) {
    && |v| >= 10
    && AllDigits(v[..4]) && v[4] == '.' && AllDigits(v[5..7]) && v[7] == '.' && AllDigits(v[8..10])
    && (|v| == 10 || (|v| >= 12 && v[10] == '.' && v[11] != '0' && AllDigits(v[11..])))
  }

  /** parse_calver, None where it raises ValueError. */
  function Parse(v: string): Option<Version> {
    if !Matches(v) then None
    else
      var date := Date(Number(v[..4]), Number(v[5..7]), Number(v[8..10]));
      if !IsDate(date) then None
      else Some(Version(date, if |v| == 10 then 0 else Number(v[11..])))
  }

  function DatePart(d: Date): string { Pad(d.year, 4) + "." + Pad(d.month, 2) + "." + Pad(d.day, 2) }

  /** The one string a version can be read from. */
  function Canonical(x: Version): string {
    DatePart(x.date) + if x.sequence == 0 then "" else "." + Decimal(x.sequence)
  }

  lemma DatePartShape(d: Date)
    requires IsDate(d)
    ensures var s := DatePart(d);
      && |s| == 10 && s[4] == '.' && s[7] == '.'
      && s[..4] == Pad(d.year, 4) && s[5..7] == Pad(d.month, 2) && s[8..10] == Pad(d.day, 2)
      && AllDigits(s[..4]) && AllDigits(s[5..7]) && AllDigits(s[8..10])
      && Number(s[..4]) == d.year && Number(s[5..7]) == d.month && Number(s[8..10]) == d.day
  {
    assert Pow10(2) == 100 && Pow10(3) == 1000 && Pow10(4) == 10000;
    NumberOfPad(d.year, 4);
    NumberOfPad(d.month, 2);
    NumberOfPad(d.day, 2);
    var s := DatePart(d);
    assert s[..4] == Pad(d.year, 4) && s[5..7] == Pad(d.month, 2) && s[8..10] == Pad(d.day, 2);
  }

  lemma FieldsOfExtension(s: string, rest: string)
    requires |s| == 10
    ensures var v := s + rest;
      v[..4] == s[..4] && v[5..7] == s[5..7] && v[8..10] == s[8..10] && v[10..] == rest && (|rest| > 0 ==> v[11..] == rest[1..])
  {
  }

  lemma CanonicalMatches(x: Version)
    requires IsDate(x.date)
    ensures var v := Canonical(x);
      && Matches(v) && v[..4] == Pad(x.date.year, 4) && v[5..7] == Pad(x.date.month, 2) && v[8..10] == Pad(x.date.day, 2)
      && (if x.sequence == 0 then |v| == 10 else |v| > 10 && v[11..] == Decimal(x.sequence))
  {
    DatePartShape(x.date);
    NumberOfDecimal(x.sequence);
    hide Pad, Decimal, Number, IsDate, DatePart;
    var s := DatePart(x.date);
    var rest := if x.sequence == 0 then "" else "." + Decimal(x.sequence);
    assert Canonical(x) == s + rest;
    FieldsOfExtension(s, rest);
  }

  /** Printing then parsing is the identity on versions. */
  lemma ParseOfCanonical(x: Version)
    requires IsDate(x.date)
    ensures Parse(Canonical(x)) == Some(x)
  {
    CanonicalMatches(x);
    DatePartShape(x.date);
    NumberOfDecimal(x.sequence);
  }

  /** Parsing then printing is the identity on valid strings, so parsing is injective. */
  lemma CanonicalOfParse(v: string)
    requires Parse(v).Some?
    ensures Canonical(Parse(v).value) == v
  {
    PadOfNumber(v[..4]);
    PadOfNumber(v[5..7]);
    PadOfNumber(v[8..10]);
    var x := Parse(v).value;
    assert v[..10] == v[..4] + "." + v[5..7] + "." + v[8..10];
    assert DatePart(x.date) == v[..10];
    if |v| > 10 {
      DecimalOfNumber(v[11..]);
      assert v == v[..10] + "." + v[11..];
    } else {
      assert v == v[..10];
    }
  }

  lemma ParseIsInjective(v: string, w: string)
    requires Parse(v).Some? && Parse(v) == Parse(w)
    ensures v == w
  {
    CanonicalOfParse(v);
    CanonicalOfParse(w);
  }

  // ----- the next version ----------------------------------------------------------------------

  /** A tag without its prefix, when it has one. */
  function Bare(tag: string, prefix: string): string {
    if prefix != "" && prefix <= tag then tag[|prefix|..] else tag
  }

  /** The sequence a tag claims on that day; tags that do not parse or are of another day claim none. */
  function DaySequence(tag: string, prefix: string, date: Date): Option<nat> {
    match Parse(Bare(tag, prefix))
    case None => None
    case Some(x) => if x.date == date then Some(x.sequence) else None
  }

  /** n is one more than the largest sequence of that day, or 1 on a new day. */
  predicate IsNext(existing: seq<string>, date: Date, prefix: string, n: nat) {
    && n >= 1
    && (forall tag :: tag in existing ==> DaySequence(tag, prefix, date).GetOr(0) < n)
    && (n > 1 ==> exists tag :: tag in existing && DaySequence(tag, prefix, date) == Some(n - 1))
  }

  /** What next_calver prints: %Y is not padded, so it has four digits from the year 1000 on. */
  function Printed(date: Date, n: nat): string {
    Decimal(date.year) + "." + Pad(date.month, 2) + "." + Pad(date.day, 2) + "." + Decimal(n)
  }

  lemma PrintedIsCanonical(date: Date, n: nat)
    requires IsDate(date) && date.year >= 1000 && n >= 1
    ensures Printed(date, n) == Canonical(Version(date, n)) && Parse(Printed(date, n)) == Some(Version(date, n))
  {
    DecimalIsPad(date.year);
    ParseOfCanonical(Version(date, n));
    assert Printed(date, n) == DatePart(date) + ("." + Decimal(n));
  }

  /** next_calver: collect the day's sequences, skipping whatever does not parse. */
  method NextCalver(existing: seq<string>, date: Date, prefix: string) returns (next: string)
    requires IsDate(date)
    ensures exists n: nat ::
      && IsNext(existing, date, prefix, n) && next == Printed(date, n)
      && Parse(next) == if date.year >= 1000 then Some(Version(date, n)) else None
  {
    var sequences: seq<nat> := [];
    for i := 0 to |existing|
      invariant forall tag :: tag in existing[..i] && DaySequence(tag, prefix, date).Some? ==>
        DaySequence(tag, prefix, date).value in sequences
      invariant forall s :: s in sequences ==>
        exists tag :: tag in existing[..i] && DaySequence(tag, prefix, date) == Some(s)
    {
      assert existing[..i + 1] == existing[..i] + [existing[i]];
      var parsed := Parse(Bare(existing[i], prefix));
      if parsed.Some? && parsed.value.date == date {
        assert DaySequence(existing[i], prefix, date) == Some(parsed.value.sequence);
        sequences := sequences + [parsed.value.sequence];
      }
    }
    assert existing[..|existing|] == existing;
    var largest: nat := 0;
    for i := 0 to |sequences|
      invariant forall j :: 0 <= j < i ==> sequences[j] <= largest
      invariant largest == 0 || largest in sequences
    {
      if sequences[i] > largest {
        largest := sequences[i];
      }
    }
    next := Printed(date, largest + 1);
    if date.year >= 1000 {
      PrintedIsCanonical(date, largest + 1);
    } else {
      SuffixIsNoVersion(date, largest + 1, 0);
      assert next[0..] == next;
    }
    assert IsNext(existing, date, prefix, largest + 1);
  }

  /** The sequence is determined by the tags, so next_calver's answer is too. */
  lemma NextIsUnique(existing: seq<string>, date: Date, prefix: string, m: nat, n: nat)
    requires IsNext(existing, date, prefix, m) && IsNext(existing, date, prefix, n)
    ensures m == n
  {
  }

  /** No proper suffix of a printed version is a version, nor is the whole of one with a short year. */
  lemma SuffixIsNoVersion(date: Date, n: nat, k: nat)
    requires IsDate(date) && n >= 1 && k <= |Printed(date, n)| && (k >= 1 || date.year < 1000)
    ensures Parse(Printed(date, n)[k..]).None?
  {
    var year, month, day, sequence := Decimal(date.year), Pad(date.month, 2), Pad(date.day, 2), Decimal(n);
    assert Printed(date, n) == year + "." + month + "." + day + "." + sequence;
    assert 1 <= |year| <= 4 && (date.year < 1000 ==> |year| < 4) by { YearDigits(date.year); }
    assert |month| == 2 && |day| == 2 by { PadWidth(date.month, 2); PadWidth(date.day, 2); }
    assert AllDigits(sequence) by { NumberOfDecimal(n); }
    hide Parse, Printed, Decimal, Pad, IsDate, AllDigits;
    DotsDecide(year, month, day, sequence, k);
  }

  lemma PadWidth(n: nat, width: nat)
    ensures |Pad(n, width)| == width
  {
  }

  lemma YearDigits(n: nat)
    requires n <= 9999
    ensures |Decimal(n)| == if n < 10 then 1 else if n < 100 then 2 else if n < 1000 then 3 else 4
  {
    if n >= 10 {
      YearDigits(n / 10);
    }
  }

  /** With dots only at y, y + 3 and y + 6 no suffix has four digits, a dot, two digits and a dot. */
  lemma DotsDecide(year: string, month: string, day: string, sequence: string, k: nat)
    requires 1 <= |year| <= 4 && |month| == 2 && |day| == 2 && AllDigits(sequence) && (k >= 1 || |year| < 4)
    requires k <= |year + "." + month + "." + day + "." + sequence|
    ensures Parse((year + "." + month + "." + day + "." + sequence)[k..]).None?
  {
    var v, y := year + "." + month + "." + day + "." + sequence, |year|;
    assert v[y] == '.' && v[y + 3] == '.' && v[y + 6] == '.';
    assert forall i :: y + 6 < i < |v| ==> v[i] == sequence[i - y - 7];
    var w := v[k..];
    assert forall i :: 0 <= i < |w| ==> w[i] == v[k + i];
    assert |w| >= 4 ==> forall i :: 0 <= i < 4 ==> w[..4][i] == w[i];
    assert !IsDigit('.');
  }

  lemma TagClaims(x: Version, date: Date, prefix: string)
    requires IsDate(x.date)
    ensures DaySequence(prefix + Canonical(x), prefix, date) == if x.date == date then Some(x.sequence) else None
  {
    var tag := prefix + Canonical(x);
    ParseOfCanonical(x);
    hide Parse, Canonical;
    assert Bare(tag, prefix) == Canonical(x);
  }

  function Tags(versions: seq<Version>, prefix: string): (tags: seq<string>)
    ensures |tags| == |versions|
  {
    seq(|versions|, i requires 0 <= i < |versions| => prefix + Canonical(versions[i]))
  }

  /** Among well-formed tags: one more than the largest sequence of that day, other days do not count, 1 on a new day. */
  lemma NextAmongTagsIff(versions: seq<Version>, date: Date, prefix: string, n: nat)
    requires forall v :: v in versions ==> IsDate(v.date)
    ensures IsNext(Tags(versions, prefix), date, prefix, n) <==>
      && n >= 1
      && (forall v :: v in versions && v.date == date ==> v.sequence < n)
      && (n > 1 ==> Version(date, n - 1) in versions)
  {
    hide DaySequence, Tags, IsDate;
    var tags := Tags(versions, prefix);
    if IsNext(tags, date, prefix, n) {
      forall v | v in versions && v.date == date ensures v.sequence < n {
        var i := IndexOf(versions, v);
        TagOf(versions, date, prefix, i);
      }
      if n > 1 {
        var tag :| tag in tags && DaySequence(tag, prefix, date) == Some(n - 1);
        var i :| 0 <= i < |tags| && tags[i] == tag;
        TagOf(versions, date, prefix, i);
        assert versions[i] == Version(date, n - 1);
      }
    }
    if n >= 1 && (forall v :: v in versions && v.date == date ==> v.sequence < n)
      && (n > 1 ==> Version(date, n - 1) in versions) {
      forall tag | tag in tags ensures DaySequence(tag, prefix, date).GetOr(0) < n {
        var i :| 0 <= i < |tags| && tags[i] == tag;
        TagOf(versions, date, prefix, i);
        assert versions[i] in versions;
      }
      if n > 1 {
        var i := IndexOf(versions, Version(date, n - 1));
        TagOf(versions, date, prefix, i);
        assert tags[i] in tags;
      }
    }
  }

  lemma IndexOf(versions: seq<Version>, v: Version) returns (i: nat)
    requires v in versions
    ensures i < |versions| && versions[i] == v
  {
    i :| 0 <= i < |versions| && versions[i] == v;
  }

  lemma TagOf(versions: seq<Version>, date: Date, prefix: string, i: nat)
    requires i < |versions| && IsDate(versions[i].date)
    ensures var tags := Tags(versions, prefix);
      && i < |tags| && tags[i] in tags
      && DaySequence(tags[i], prefix, date) == if versions[i].date == date then Some(versions[i].sequence) else None
  {
    TagClaims(versions[i], date, prefix);
  }

  lemma PrefixedTagIsNew(existing: seq<string>, date: Date, prefix: string, n: nat)
    requires IsDate(date) && date.year >= 1000 && IsNext(existing, date, prefix, n)
    ensures prefix + Printed(date, n) !in existing
  {
    var tag := prefix + Printed(date, n);
    PrintedIsCanonical(date, n);
    assert Bare(tag, prefix) == Printed(date, n);
  }

  /** A lone tag that parses as nothing claims nothing, so the day starts at 1. */
  lemma UnreadableTagIsSkipped(tag: string, date: Date, prefix: string)
    requires Parse(Bare(tag, prefix)).None?
    ensures IsNext([tag], date, prefix, 1)
  {
    hide Parse, Bare;
    var existing := [tag];
    assert DaySequence(tag, prefix, date) == None;
  }

  /** The tag about to be created, prefix and version, is new for every list of tags exactly from the year 1000 on. */
  lemma PrefixedTagIsNewIff(date: Date, prefix: string)
    requires IsDate(date)
    ensures (forall existing, n :: IsNext(existing, date, prefix, n) ==> prefix + Printed(date, n) !in existing)
      <==> date.year >= 1000
  {
    if date.year >= 1000 {
      forall existing, n | IsNext(existing, date, prefix, n) ensures prefix + Printed(date, n) !in existing {
        PrefixedTagIsNew(existing, date, prefix, n);
      }
    } else {
      var tag := prefix + Printed(date, 1);
      SuffixIsNoVersion(date, 1, 0);
      assert Printed(date, 1)[0..] == Printed(date, 1);
      assert Bare(tag, prefix) == Printed(date, 1);
      UnreadableTagIsSkipped(tag, date, prefix);
      var existing := [tag];
      assert IsNext(existing, date, prefix, 1) && tag in existing;
    }
  }

  /** A prefix that some version of that day itself starts with, such as "2". */
  predicate Ambiguous(prefix: string, date: Date, n: nat) { prefix != "" && prefix <= Printed(date, n) }

  lemma UnambiguousIsNew(existing: seq<string>, date: Date, prefix: string, n: nat)
    requires IsDate(date) && date.year >= 1000 && IsNext(existing, date, prefix, n) && !Ambiguous(prefix, date, n)
    ensures Printed(date, n) !in existing
  {
    PrintedIsCanonical(date, n);
    hide Parse, Printed, Canonical;
    assert Bare(Printed(date, n), prefix) == Printed(date, n);
  }

  /** Two tags of the day: the prefixed one counts, the bare one is cut by its own prefix and does not. */
  lemma AmbiguousClashes(date: Date, prefix: string, n: nat)
    requires IsDate(date) && date.year >= 1000 && n >= 1 && Ambiguous(prefix, date, n)
    ensures exists existing :: IsNext(existing, date, prefix, n) && Printed(date, n) in existing
  {
    var earlier := prefix + Canonical(Version(date, n - 1));
    var clash := Printed(date, n);
    ParseOfCanonical(Version(date, n - 1));
    SuffixIsNoVersion(date, n, |prefix|);
    hide Parse, Printed, Canonical, IsDate;
    assert Bare(earlier, prefix) == Canonical(Version(date, n - 1));
    assert DaySequence(earlier, prefix, date) == Some(n - 1);
    assert DaySequence(clash, prefix, date) == None;
    hide DaySequence;
    var existing := [earlier, clash];
    assert earlier in existing && clash in existing;
    assert IsNext(existing, date, prefix, n);
  }

  /**
   * The bare version is new for every list of tags, malformed ones included,
   * exactly when its year has four digits and the prefix is not itself the
   * start of a version of that day.
   */
  lemma BareVersionIsNewIff(date: Date, prefix: string)
    requires IsDate(date)
    ensures (forall existing, n :: IsNext(existing, date, prefix, n) ==> Printed(date, n) !in existing)
      <==> date.year >= 1000 && !(exists n :: n >= 1 && Ambiguous(prefix, date, n))
  {
    if date.year < 1000 {
      ShortYearClashes(date, prefix);
    } else {
      hide Ambiguous, Printed, DaySequence, IsDate;
      forall existing, n | IsNext(existing, date, prefix, n) && !Ambiguous(prefix, date, n)
        ensures Printed(date, n) !in existing
      {
        UnambiguousIsNew(existing, date, prefix, n);
      }
      if exists n :: n >= 1 && Ambiguous(prefix, date, n) {
        var n :| n >= 1 && Ambiguous(prefix, date, n);
        AmbiguousClashes(date, prefix, n);
      }
    }
  }

  lemma ShortYearClashes(date: Date, prefix: string)
    requires IsDate(date) && date.year < 1000
    ensures exists existing, n :: IsNext(existing, date, prefix, n) && Printed(date, n) in existing
  {
    var tag := Printed(date, 1);
    SuffixIsNoVersion(date, 1, 0);
    assert tag[0..] == tag;
    if prefix != "" && prefix <= tag {
      SuffixIsNoVersion(date, 1, |prefix|);
    }
    UnreadableTagIsSkipped(tag, date, prefix);
    var existing := [tag];
    assert IsNext(existing, date, prefix, 1) && tag in existing;
  }
}
