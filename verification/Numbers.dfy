/** `encoding.FormatNumber`: training parameters as JSON number literals. */
module Numbers {
  import opened Prelude
  import opened Digits
  import opened Domain

  /** Shortest decimal form, as `strconv.FormatInt(n, 10)` prints a non-negative number. */
  function Decimal(n: nat): (s: string)
    ensures |s| > 0 && AllDigits(s)
  {
    if n < 10 then [Digit(n)] else Decimal(n / 10) + [Digit(n % 10)]
  }

  function FormatInt(i: int): string {
    if i < 0 then "-" + Decimal(-i) else Decimal(i)
  }

  /** Reads an optionally signed digit string. */
  function ParseInt(s: string): Option<int> {
    if s != "" && s[0] == '-' then
      if |s| > 1 && AllDigits(s[1..]) then Some(0 - ValueOf(s[1..]) as int) else None
    else if s != "" && AllDigits(s) then Some(ValueOf(s) as int)
    else None
  }

  /** The integer part of the `number` grammar of RFC 8259, section 6: no leading zero, no plus sign. */
  predicate IsJsonInteger(s: string) {
    var digits := if s != "" && s[0] == '-' then s[1..] else s;
    digits != "" && AllDigits(digits) && (digits[0] == '0' ==> |digits| == 1)
  }

  /** The digits a text starts with. */
  function LeadingDigits(s: string): (n: nat)
    ensures n <= |s| && AllDigits(s[..n])
  {
    if s == "" || !IsDigit(s[0]) then 0
    else
      var n := 1 + LeadingDigits(s[1..]);
      assert s[..n] == [s[0]] + s[1..][..n - 1];
      n
  }

  predicate IsExponentOrNothing(s: string) {
    s == ""
    || ((s[0] == 'e' || s[0] == 'E')
        && var digits := if |s| > 1 && (s[1] == '+' || s[1] == '-') then s[2..] else s[1..];
           digits != "" && AllDigits(digits))
  }

  predicate IsFractionOrNothing(s: string) {
    if s != "" && s[0] == '.' then LeadingDigits(s[1..]) > 0 && IsExponentOrNothing(s[1 + LeadingDigits(s[1..])..])
    else IsExponentOrNothing(s)
  }

  /** The whole `number` grammar of RFC 8259, section 6: sign, integer part, fraction, exponent. */
  predicate IsJsonNumber(s: string) {
    var rest := if s != "" && s[0] == '-' then s[1..] else s;
    var n := LeadingDigits(rest);
    n > 0 && (rest[0] == '0' ==> n == 1) && IsFractionOrNothing(rest[n..])
  }

  lemma {:induction false} OnlyDigitsLead(s: string)
    requires AllDigits(s)
    ensures LeadingDigits(s) == |s|
  {
    if s != "" {
      assert AllDigits(s[1..]);
      OnlyDigitsLead(s[1..]);
    }
  }

  lemma JsonIntegersAreJsonNumbers(s: string)
    requires IsJsonInteger(s)
    ensures IsJsonNumber(s)
  {
    OnlyDigitsLead(if s[0] == '-' then s[1..] else s);
  }

  function FormatNumber(v: Value): Option<string> {
    match v
    case JsonNumber(literal) => Some(literal)
    case Int(i) => Some(FormatInt(i))
    case Int32(i) => Some(FormatInt(i))
    case Int64(i) => Some(FormatInt(i))
    case Float32(shortest) => Some(shortest)
    case Float64(shortest) => Some(shortest)
    case _ => None
  }

  lemma {:induction false} DecimalMeaning(n: nat)
    ensures ValueOf(Decimal(n)) == n
    ensures Decimal(n)[0] == '0' <==> n == 0
    ensures n < 10 ==> |Decimal(n)| == 1
  {
    if n < 10 {
      assert Decimal(n)[..0] == "";
    } else {
      DecimalMeaning(n / 10);
      assert Decimal(n)[..|Decimal(n)| - 1] == Decimal(n / 10);
    }
  }

  /** Every integer prints as a JSON number and reads back unchanged; no two integers share a literal. */
  lemma FormatIntRoundTrip(i: int)
    ensures IsJsonInteger(FormatInt(i))
    ensures ParseInt(FormatInt(i)) == Some(i)
  {
    DecimalMeaning(if i < 0 then -i else i);
    if i < 0 {
      assert FormatInt(i)[1..] == Decimal(-i);
    }
  }

  /** A literal that was stored once is stored unchanged for ever after: literals are fixed points. */
  lemma FormatNumberIsIdempotent(v: Value)
    requires FormatNumber(v).Some?
    ensures FormatNumber(JsonNumber(FormatNumber(v).value)) == FormatNumber(v)
  {
  }

  /** The literal a value brings along; integers have none. */
  function OwnLiteral(v: Value): Option<string> {
    match v
    case JsonNumber(literal) => Some(literal)
    case Float32(shortest) => Some(shortest)
    case Float64(shortest) => Some(shortest)
    case _ => None
  }

  /** The text of a parameter is a JSON number if and only if the literal it brings along is one, if any. */
  lemma FormattedIsJsonIff(v: Value)
    requires FormatNumber(v).Some?
    ensures IsJsonNumber(FormatNumber(v).value) <==> (OwnLiteral(v).Some? ==> IsJsonNumber(OwnLiteral(v).value))
  {
    if OwnLiteral(v).None? {
      var i := match v case Int(i) => i as int case Int32(i) => i as int case Int64(i) => i as int;
      FormatIntRoundTrip(i);
      JsonIntegersAreJsonNumbers(FormatInt(i));
    }
  }

  /** The dynamic types `FormatNumber` takes. */
  predicate IsNumber(v: Value) {
    v.JsonNumber? || v.Int? || v.Int32? || v.Int64? || v.Float32? || v.Float64?
  }

  function IntegerOf(v: Value): Option<int> {
    match v
    case Int(i) => Some(i)
    case Int32(i) => Some(i)
    case Int64(i) => Some(i)
    case _ => None
  }

  /** A JSON integer without superfluous sign or zeros that denotes `i`; there is only one. */
  predicate Denotes(text: string, i: int) {
    IsJsonInteger(text) && ParseInt(text) == Some(i) && (text[0] == '-' <==> i < 0)
  }

  /** What the text of a number has to be, whatever function makes it. */
  predicate IsTextOf(text: string, v: Value) {
    && IsNumber(v)
    && (OwnLiteral(v).Some? ==> text == OwnLiteral(v).value)
    && (IntegerOf(v).Some? ==> Denotes(text, IntegerOf(v).value))
  }

  /** Exactly the numbers are formatted: an integer as its own numeral, any other as the literal it brings along. */
  lemma FormatNumberMeaning(v: Value)
    ensures FormatNumber(v).Some? <==> IsNumber(v)
    ensures IsNumber(v) ==> IsTextOf(FormatNumber(v).value, v)
  {
    if IntegerOf(v).Some? {
      FormatIntRoundTrip(IntegerOf(v).value);
      assert Decimal(0) == "0";
    }
  }

  /** Different integers have different texts, of whatever width they are. */
  lemma TextTellsIntegersApart(text: string, v: Value, w: Value)
    requires IsTextOf(text, v) && IsTextOf(text, w) && IntegerOf(v).Some? && IntegerOf(w).Some?
    ensures IntegerOf(v) == IntegerOf(w)
  {
  }
}
