/** `encoding.FormatTime` and `ParseTime`: RFC 3339 text in UTC, and what its order means. */
module Timestamps {
  import opened Prelude
  import opened Digits

  /** An instant by its UTC calendar fields; years have four digits. */
  datatype Fields = Fields(year: nat, month: nat, day: nat, hour: nat, minute: nat, second: nat, nanos: nat)
  {
    predicate Valid() {
      year < 10000 && 1 <= month <= 12 && 1 <= day <= 31
      && hour < 24 && minute < 60 && second < 60 && nanos < 1_000_000_000
    }
  }

  type Instant = f: Fields | f.Valid() witness Fields(1970, 1, 1, 0, 0, 0, 0)

  predicate EarlierMonth(a: Instant, b: Instant) {
    a.year < b.year || (a.year == b.year && a.month < b.month)
  }

  predicate EarlierDay(a: Instant, b: Instant) {
    EarlierMonth(a, b) || (a.year == b.year && a.month == b.month && a.day < b.day)
  }

  predicate SameDay(a: Instant, b: Instant) {
    a.year == b.year && a.month == b.month && a.day == b.day
  }

  predicate EarlierMinute(a: Instant, b: Instant) {
    EarlierDay(a, b) || (SameDay(a, b) && (a.hour < b.hour || (a.hour == b.hour && a.minute < b.minute)))
  }

  /** `a` lies in an earlier whole second than `b`. */
  predicate EarlierSecond(a: Instant, b: Instant) {
    EarlierMinute(a, b) || (SameDay(a, b) && a.hour == b.hour && a.minute == b.minute && a.second < b.second)
  }

  predicate SameSecond(a: Instant, b: Instant) {
    a.(nanos := 0) == b.(nanos := 0)
  }

  /** Chronological order. */
  predicate Before(a: Instant, b: Instant) {
    EarlierSecond(a, b) || (SameSecond(a, b) && a.nanos < b.nanos)
  }

  function Date(t: Instant): (s: string)
    ensures |s| == 10
  {
    YearMonth(t) + "-" + Padded2(t.day)
  }

  function YearMonth(t: Instant): (s: string)
    ensures |s| == 7
  {
    Padded4(t.year) + "-" + Padded2(t.month)
  }

  /** Date, `T`, hours and minutes. */
  function MinuteText(t: Instant): (s: string)
    ensures |s| == 16
  {
    (Date(t) + "T" + Padded2(t.hour)) + ":" + Padded2(t.minute)
  }

  /** The 19 characters down to the second. */
  function SecondText(t: Instant): (s: string)
    ensures |s| == 19
  {
    MinuteText(t) + ":" + Padded2(t.second)
  }

  function Padded2(n: nat): (s: string)
    requires n < 100
    ensures |s| == 2 && AllDigits(s)
  {
    assert Pow10(2) == 100;
    Padded(2, n)
  }

  function Padded4(n: nat): (s: string)
    requires n < 10000
    ensures |s| == 4 && AllDigits(s)
  {
    assert Pow10(4) == 10000;
    Padded(4, n)
  }

  function StripZeros(s: string): (r: string)
    ensures |r| <= |s| && r == s[..|r|]
    ensures r != "" ==> r[|r| - 1] != '0'
  {
    if s != "" && s[|s| - 1] == '0' then StripZeros(s[..|s| - 1]) else s
  }

  /** The fraction digits the format keeps: nine, less the trailing zeros. */
  function Fraction(t: Instant): (s: string)
    ensures |s| <= 9 && AllDigits(s)
  {
    assert Pow10(9) == 1_000_000_000;
    StripZeros(Padded(9, t.nanos))
  }

  function FractionText(fraction: string): string {
    (if fraction == "" then "" else "." + fraction) + "Z"
  }

  function FormatTime(t: Instant): string {
    SecondText(t) + FractionText(Fraction(t))
  }

  function Number(s: string): Option<nat> {
    if AllDigits(s) then Some(ValueOf(s)) else None
  }

  /** `ParseTime` on UTC text with at most nine fraction digits. */
  function ParseTime(s: string): Option<Instant> {
    if |s| < 20 || s[4] != '-' || s[7] != '-' || s[10] != 'T' || s[13] != ':' || s[16] != ':' || s[|s| - 1] != 'Z' then None
    else
      var fraction := s[19..|s| - 1];
      if fraction != "" && (fraction[0] != '.' || !(2 <= |fraction| <= 10)) then None
      else
        var digits := if fraction == "" then "" else fraction[1..];
        var year, month, day := Number(s[..4]), Number(s[5..7]), Number(s[8..10]);
        var hour, minute, second := Number(s[11..13]), Number(s[14..16]), Number(s[17..19]);
        if year.Some? && month.Some? && day.Some? && hour.Some? && minute.Some? && second.Some? && AllDigits(digits) then
          var f := Fields(year.value, month.value, day.value, hour.value, minute.value, second.value,
                          ValueOf(digits) * Pow10(9 - |digits|));
          if f.Valid() then Some(f) else None
        else None
  }

  lemma {:induction false} ValueOfStripped(s: string)
    requires AllDigits(s)
    ensures ValueOf(StripZeros(s)) * Pow10(|s| - |StripZeros(s)|) == ValueOf(s)
  {
    if s != "" && s[|s| - 1] == '0' {
      var shorter := s[..|s| - 1];
      ValueOfStripped(shorter);
      var n := |shorter| - |StripZeros(shorter)|;
      assert Pow10(n + 1) == 10 * Pow10(n);
      assert ValueOf(s) == ValueOf(shorter) * 10;
      assert StripZeros(s) == StripZeros(shorter);
      hide ValueOf, Pow10, StripZeros;
      TimesTen(ValueOf(StripZeros(shorter)), Pow10(n));
    } else {
      assert Pow10(0) == 1;
    }
  }

  lemma TimesTen(a: nat, p: nat)
    ensures a * (10 * p) == a * p * 10
  {
  }

  lemma Number2(n: nat)
    requires n < 100
    ensures Number(Padded2(n)) == Some(n)
  {
    assert Pow10(2) == 100;
    ValueOfPadded(2, n);
  }

  lemma Number4(n: nat)
    requires n < 10000
    ensures Number(Padded4(n)) == Some(n)
  {
    assert Pow10(4) == 10000;
    ValueOfPadded(4, n);
  }

  lemma FractionValue(t: Instant)
    ensures ValueOf(Fraction(t)) * Pow10(9 - |Fraction(t)|) == t.nanos
  {
    assert Pow10(9) == 1_000_000_000;
    ValueOfPadded(9, t.nanos);
    ValueOfStripped(Padded(9, t.nanos));
  }

  /** Where each part of the text stands. */
  lemma Layout(t: Instant, s: string)
    requires s == FormatTime(t)
    ensures |s| >= 20 && s[4] == s[7] == '-' && s[10] == 'T' && s[13] == s[16] == ':' && s[|s| - 1] == 'Z'
    ensures s[..4] == Padded4(t.year) && s[5..7] == Padded2(t.month) && s[8..10] == Padded2(t.day)
    ensures s[11..13] == Padded2(t.hour) && s[14..16] == Padded2(t.minute) && s[17..19] == Padded2(t.second)
    ensures s[19..|s| - 1] == if Fraction(t) == "" then "" else "." + Fraction(t)
  {
    assert s[17..19] == Padded2(t.second) && s[..16] == MinuteText(t);
    assert s[14..16] == Padded2(t.minute) && s[11..13] == Padded2(t.hour) && s[..10] == Date(t);
    assert s[8..10] == Padded2(t.day) && s[..7] == YearMonth(t);
    assert s[5..7] == Padded2(t.month) && s[..4] == Padded4(t.year);
  }

  /** A sample: single digits are padded, trailing zeros of the fraction are not written. */
  lemma FormatSample()
    ensures FormatTime(Fields(2026, 5, 21, 9, 3, 7, 120_000_000)) == "2026-05-21T09:03:07.12Z"
  {
    SampleParts();
    hide Padded2, Padded4, Fraction;
    var t: Instant := Fields(2026, 5, 21, 9, 3, 7, 120_000_000);
    assert Date(t) == "2026-05-21";
    assert SecondText(t) == "2026-05-21T09:03:07";
  }

  lemma SampleParts()
    ensures Padded4(2026) == "2026" && Padded2(5) == "05" && Padded2(21) == "21"
    ensures Padded2(9) == "09" && Padded2(3) == "03" && Padded2(7) == "07"
    ensures Fraction(Fields(2026, 5, 21, 9, 3, 7, 120_000_000)) == "12"
  {
    SamplePowers();
    SampleNumbers();
    SampleDigits();
    SampleStripped();
    hide Padded, StripZeros, Pow10;
  }

  lemma SamplePowers()
    ensures Pow10(2) == 100 && Pow10(4) == 10_000 && Pow10(9) == 1_000_000_000
  {
  }

  lemma SampleNumbers()
    requires Pow10(2) == 100 && Pow10(4) == 10_000
    ensures Padded(4, 2026) == "2026" && Padded(2, 5) == "05" && Padded(2, 21) == "21"
    ensures Padded(2, 9) == "09" && Padded(2, 3) == "03" && Padded(2, 7) == "07"
  {
    assert Pow10(1) == 10 && Pow10(3) == 1000;
    assert Padded(1, 2) == "2" && Padded(2, 20) == "20" && Padded(3, 202) == "202";
    assert Padded(1, 0) == "0";
  }

  lemma SampleDigits()
    requires Pow10(9) == 1_000_000_000
    ensures Padded(9, 120_000_000) == "120000000"
  {
    assert Pow10(1) == 10;
    assert Pow10(2) == 100;
    assert Pow10(3) == 1000;
    assert Pow10(4) == 10000;
    assert Pow10(5) == 100000;
    assert Pow10(6) == 1000000;
    assert Pow10(7) == 10000000;
    assert Pow10(8) == 100000000;
    assert Pow10(9) == 1000000000;
    assert Padded(1, 1) == "1";
    assert Padded(2, 12) == "12";
    assert Padded(3, 120) == "120";
    assert Padded(4, 1200) == "1200";
    assert Padded(5, 12000) == "12000";
    assert Padded(6, 120000) == "120000";
    assert Padded(7, 1200000) == "1200000";
    assert Padded(8, 12000000) == "12000000";
    assert Padded(9, 120000000) == "120000000";
  }

  lemma SampleStripped()
    ensures StripZeros("120000000") == "12"
  {
    assert StripZeros("12") == "12";
    assert "120"[..2] == "12" && StripZeros("120") == "12";
    assert "1200"[..3] == "120" && StripZeros("1200") == "12";
    assert "12000"[..4] == "1200" && StripZeros("12000") == "12";
    assert "120000"[..5] == "12000" && StripZeros("120000") == "12";
    assert "1200000"[..6] == "120000" && StripZeros("1200000") == "12";
    assert "12000000"[..7] == "1200000" && StripZeros("12000000") == "12";
    assert "120000000"[..8] == "12000000" && StripZeros("120000000") == "12";
  }

  /** What the ledger stores reads back as the same instant. */
  lemma ParseOfFormat(t: Instant)
    ensures ParseTime(FormatTime(t)) == Some(t)
  {
    Layout(t, FormatTime(t));
    Number4(t.year);
    Number2(t.month);
    Number2(t.day);
    Number2(t.hour);
    Number2(t.minute);
    Number2(t.second);
    FractionValue(t);
    hide FormatTime, Fraction, Padded2, Padded4, Number, ValueOf, Pow10;
  }

  /** The content of a timestamp column, by what `ParseTime` makes of it. */
  datatype TimeText = Stamp(at: Instant) | NotATime(raw: string)

  function ReadTime(t: TimeText): Option<Instant> {
    match t
    case Stamp(at) => Some(at)
    case NotATime(_) => None
  }

  /** The characters a timestamp column holds, which ORDER BY compares. */
  function Characters(t: TimeText): string {
    match t
    case Stamp(at) => FormatTime(at)
    case NotATime(raw) => raw
  }

  /** A stamped column parses to its instant, and no two instants share their characters. */
  lemma StampsAreTheirCharacters(a: Instant, b: Instant)
    ensures ParseTime(Characters(Stamp(a))) == ReadTime(Stamp(a))
    ensures Characters(Stamp(a)) == Characters(Stamp(b)) <==> a == b
  {
    ParseOfFormat(a);
    ParseOfFormat(b);
  }

  /** Later text: what `ORDER BY created_at DESC` lists first. */
  predicate Newer(a: TimeText, b: TimeText) {
    Less(Characters(b), Characters(a))
  }

  /** One more two-digit field: what stands before it decides first, then the field. */
  lemma FieldOrder(p: string, q: string, m: nat, n: nat, separator: string)
    requires |p| == |q| && m < 100 && n < 100
    ensures
      var a, b := p + separator + Padded2(m), q + separator + Padded2(n);
      && (Less(a, b) <==> Less(p, q) || (p == q && m < n))
      && (a == b <==> p == q && m == n)
  {
    var x, y := separator + Padded2(m), separator + Padded2(n);
    assert Pow10(2) == 100;
    PaddedOrder(2, m, n);
    LessBehindPrefix(separator, Padded2(m), Padded2(n));
    assert x[|separator|..] == Padded2(m) && y[|separator|..] == Padded2(n);
    assert p + x == p + separator + Padded2(m) && q + y == q + separator + Padded2(n);
    assert (p + x)[..|p|] == p && (q + y)[..|q|] == q && (p + x)[|p|..] == x && (q + y)[|q|..] == y;
    if p == q {
      LessBehindPrefix(p, x, y);
      LessIsIrreflexive(p);
    } else {
      LessByPrefix(p, q, x, y);
    }
  }

  lemma DateOrder(a: Instant, b: Instant)
    ensures Less(Date(a), Date(b)) <==> EarlierDay(a, b)
    ensures Date(a) == Date(b) <==> SameDay(a, b)
  {
    assert Pow10(4) == 10000;
    PaddedOrder(4, a.year, b.year);
    FieldOrder(Padded4(a.year), Padded4(b.year), a.month, b.month, "-");
    FieldOrder(YearMonth(a), YearMonth(b), a.day, b.day, "-");
  }

  lemma MinuteOrder(a: Instant, b: Instant)
    ensures Less(MinuteText(a), MinuteText(b)) <==> EarlierMinute(a, b)
    ensures MinuteText(a) == MinuteText(b) <==> SameDay(a, b) && a.hour == b.hour && a.minute == b.minute
  {
    DateOrder(a, b);
    FieldOrder(Date(a), Date(b), a.hour, b.hour, "T");
    FieldOrder(Date(a) + "T" + Padded2(a.hour), Date(b) + "T" + Padded2(b.hour), a.minute, b.minute, ":");
  }

  lemma SecondOrder(a: Instant, b: Instant)
    ensures Less(SecondText(a), SecondText(b)) <==> EarlierSecond(a, b)
    ensures SecondText(a) == SecondText(b) <==> SameSecond(a, b)
  {
    MinuteOrder(a, b);
    FieldOrder(MinuteText(a), MinuteText(b), a.second, b.second, ":");
  }

  predicate ProperPrefix(s: string, t: string) {
    |s| < |t| && s == t[..|s|]
  }

  lemma StrippingIsInjective(s: string, t: string)
    requires |s| == |t| && StripZeros(s) == StripZeros(t)
    ensures s == t
  {
    StrippedTail(s);
    StrippedTail(t);
    var n := |StripZeros(s)|;
    assert s[..n] == t[..n];
    assert s[n..] == t[n..];
    assert s == s[..n] + s[n..] && t == t[..n] + t[n..];
  }

  lemma ContinuedFractionIsLater(s: string, t: string)
    requires |s| == |t| && AllDigits(s) && AllDigits(t)
    requires ProperPrefix(StripZeros(s), StripZeros(t))
    ensures Less(s, t)
  {
    StrippedTail(s);
    ZerosBelow(s, t, |StripZeros(s)|, |StripZeros(t)| - 1);
  }

  lemma ZerosBelow(s: string, t: string, n: nat, k: nat)
    requires |s| == |t| && AllDigits(t) && n <= k < |t| && t[k] != '0' && s[..n] == t[..n]
    requires forall i :: n <= i < |s| ==> s[i] == '0'
    ensures Less(s, t)
  {
    ZerosAreLeast(s[n..], t[n..], k - n);
    LessBehindPrefix(s[..n], s[n..], t[n..]);
    assert s == s[..n] + s[n..] && t == s[..n] + t[n..];
  }

  lemma DivergingFractionsKeepOrder(s: string, t: string)
    requires |s| == |t| && StripZeros(s) != StripZeros(t)
    requires !ProperPrefix(StripZeros(s), StripZeros(t)) && !ProperPrefix(StripZeros(t), StripZeros(s))
    ensures Less(StripZeros(s) + "Z", StripZeros(t) + "Z") <==> Less(s, t)
  {
    var a, b := StripZeros(s), StripZeros(t);
    var n := if |a| < |b| then |a| else |b|;
    assert a[..n] == s[..n] && b[..n] == t[..n];
    assert (a + "Z")[..n] == a[..n] && (b + "Z")[..n] == b[..n];
    LessByPrefixAt(a + "Z", b + "Z", n);
    LessByPrefixAt(s, t, n);
  }

  lemma {:induction false} StrippedTail(s: string)
    ensures forall i :: |StripZeros(s)| <= i < |s| ==> s[i] == '0'
  {
    if s != "" && s[|s| - 1] == '0' {
      StrippedTail(s[..|s| - 1]);
    }
  }

  lemma {:induction false} ZerosAreLeast(zeros: string, digits: string, k: nat)
    requires |zeros| == |digits| && AllDigits(digits)
    requires forall i :: 0 <= i < |zeros| ==> zeros[i] == '0'
    requires k < |digits| && digits[k] != '0'
    ensures Less(zeros, digits)
  {
    if k > 0 && digits[0] == '0' {
      ZerosAreLeast(zeros[1..], digits[1..], k - 1);
    }
  }

  /** Inside one second a fraction that continues another one sorts below it: a digit or point is below `Z`. */
  lemma LongerFractionSortsFirst(a: string, b: string)
    requires AllDigits(b) && ProperPrefix(a, b)
    ensures Less(FractionText(b), FractionText(a))
  {
    if a != "" {
      var rest := b[|a|..] + "Z";
      assert FractionText(b) == ("." + a) + rest && FractionText(a) == ("." + a) + "Z";
      LessBehindPrefix("." + a, rest, "Z");
    }
  }

  lemma FractionOrder(a: Instant, b: Instant)
    requires a.nanos != b.nanos
    ensures (Less(FractionText(Fraction(a)), FractionText(Fraction(b))) <==> a.nanos < b.nanos)
        <==> !ProperPrefix(Fraction(a), Fraction(b)) && !ProperPrefix(Fraction(b), Fraction(a))
  {
    assert Pow10(9) == 1_000_000_000;
    var s, t := Padded(9, a.nanos), Padded(9, b.nanos);
    var f, g := Fraction(a), Fraction(b);
    PaddedOrder(9, a.nanos, b.nanos);
    PaddedOrder(9, b.nanos, a.nanos);
    if ProperPrefix(f, g) {
      ContinuedFractionIsLater(s, t);
      LongerFractionSortsFirst(f, g);
      LessIsAsymmetric(FractionText(g), FractionText(f));
    } else if ProperPrefix(g, f) {
      ContinuedFractionIsLater(t, s);
      LongerFractionSortsFirst(g, f);
    } else {
      if f == g {
        StrippingIsInjective(s, t);
      }
      DivergingFractionsKeepOrder(s, t);
      assert f != "" && g != "";
      assert FractionText(f) == "." + (f + "Z") && FractionText(g) == "." + (g + "Z");
      LessBehindPrefix(".", f + "Z", g + "Z");
    }
  }

  /**
   * `ORDER BY created_at` compares text. The text order of two timestamps is their time order exactly
   * when their seconds differ, they are equal, or neither stripped fraction properly continues the other.
   */
  lemma TextOrderIsTimeOrderIff(a: Instant, b: Instant)
    ensures (Less(FormatTime(a), FormatTime(b)) <==> Before(a, b))
        <==> (!SameSecond(a, b) || a == b
              || (!ProperPrefix(Fraction(a), Fraction(b)) && !ProperPrefix(Fraction(b), Fraction(a))))
  {
    SecondOrder(a, b);
    var x, y := FractionText(Fraction(a)), FractionText(Fraction(b));
    if !SameSecond(a, b) {
      LessByPrefix(SecondText(a), SecondText(b), x, y);
    } else {
      LessBehindPrefix(SecondText(a), x, y);
      LessIsIrreflexive(SecondText(a));
      if a == b {
        LessIsIrreflexive(x);
      } else {
        assert a.nanos != b.nanos;
        FractionOrder(a, b);
      }
    }
  }

  /** Fractions of one width, as section 5.1 of RFC 3339 asks for, always sort chronologically. */
  lemma EqualWidthsSortChronologically(a: Instant, b: Instant)
    requires |Fraction(a)| == |Fraction(b)|
    ensures Less(FormatTime(a), FormatTime(b)) <==> Before(a, b)
  {
    TextOrderIsTimeOrderIff(a, b);
  }

  /** Whatever the fractions, descending text never goes back to a later second. */
  lemma TextOrderKeepsSeconds(a: Instant, b: Instant)
    requires !Less(FormatTime(a), FormatTime(b))
    ensures !EarlierSecond(a, b)
  {
    SecondOrder(a, b);
    if EarlierSecond(a, b) {
      assert SecondText(a) != SecondText(b) by { LessIsIrreflexive(SecondText(a)); }
      LessByPrefix(SecondText(a), SecondText(b), FractionText(Fraction(a)), FractionText(Fraction(b)));
    }
  }

  /** The order can fail: half a second into a second sorts before that second's start. */
  lemma TextOrderCanFail()
    ensures Before(Fields(2026, 5, 21, 0, 0, 0, 0), Fields(2026, 5, 21, 0, 0, 0, 500_000_000))
    ensures Less(FormatTime(Fields(2026, 5, 21, 0, 0, 0, 500_000_000)), FormatTime(Fields(2026, 5, 21, 0, 0, 0, 0)))
  {
    var a: Instant := Fields(2026, 5, 21, 0, 0, 0, 0);
    var b: Instant := Fields(2026, 5, 21, 0, 0, 0, 500_000_000);
    ZeroFraction(a);
    ZeroFraction(b);
    LongerFractionSortsFirst(Fraction(a), Fraction(b));
    LessBehindPrefix(SecondText(a), FractionText(Fraction(b)), FractionText(Fraction(a)));
    assert SecondText(a) == SecondText(b);
    assert Before(a, b) && Less(FormatTime(b), FormatTime(a));
  }

  lemma ZeroFraction(t: Instant)
    ensures Fraction(t) == "" <==> t.nanos == 0
  {
    FractionValue(t);
    if Fraction(t) != "" {
      NonzeroValue(Fraction(t), 9 - |Fraction(t)|);
    }
  }

  lemma NonzeroValue(s: string, shift: nat)
    requires AllDigits(s) && s != "" && s[|s| - 1] != '0'
    ensures ValueOf(s) * Pow10(shift) > 0
  {
    assert ValueOf(s) >= s[|s| - 1] as int - '0' as int > 0;
  }
}
