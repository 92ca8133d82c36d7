/** RFC 9562 identifiers as 16 bytes, and their canonical 36-character text. */
module Uuid {
  import opened Prelude

  type Byte = x: int | 0 <= x < 256

  type Id = s: seq<Byte> | |s| == 16 witness [0, 0, 0, 0, 0, 0, 0, 0, 0, 0, 0, 0, 0, 0, 0, 0]

  const Nil: Id := [0, 0, 0, 0, 0, 0, 0, 0, 0, 0, 0, 0, 0, 0, 0, 0]

  function HexDigit(d: int): (c: char)
    requires 0 <= d < 16
  {
    if d < 10 then ('0' as int + d) as char else ('a' as int + d - 10) as char
  }

  function HexValue(c: char): (d: int)
    ensures -1 <= d < 16
  {
    if '0' <= c <= '9' then c as int - '0' as int
    else if 'a' <= c <= 'f' then c as int - 'a' as int + 10
    else if 'A' <= c <= 'F' then c as int - 'A' as int + 10
    else -1
  }

  function Hex(bytes: seq<Byte>): (text: string)
    ensures |text| == 2 * |bytes|
  {
    if bytes == [] then ""
    else [HexDigit(bytes[0] / 16), HexDigit(bytes[0] % 16)] + Hex(bytes[1..])
  }

  function Unhex(text: string): Option<seq<Byte>> {
    if text == "" then Some([])
    else if |text| == 1 || HexValue(text[0]) < 0 || HexValue(text[1]) < 0 then None
    else
      match Unhex(text[2..])
      case None => None
      case Some(rest) => Some([HexValue(text[0]) * 16 + HexValue(text[1])] + rest)
  }

  /** The text `uuid.UUID.String` prints. */
  function Print(id: Id): (text: string)
    ensures |text| == 36
  {
    Hex(id[0..4]) + "-" + Hex(id[4..6]) + "-" + Hex(id[6..8]) + "-" + Hex(id[8..10]) + "-" + Hex(id[10..16])
  }

  /** `uuid.Parse` on the canonical form. */
  function Scan(text: string): Option<Id> {
    if |text| != 36 || text[8] != '-' || text[13] != '-' || text[18] != '-' || text[23] != '-' then None
    else
      match Unhex(text[0..8] + text[9..13] + text[14..18] + text[19..23] + text[24..36])
      case Some(bytes) => if |bytes| == 16 then Some(bytes) else None
      case None => None
  }

  lemma {:induction false} UnhexOfHex(bytes: seq<Byte>)
    ensures Unhex(Hex(bytes)) == Some(bytes)
  {
    if bytes != [] {
      UnhexOfHex(bytes[1..]);
      var text := Hex(bytes);
      assert text[2..] == Hex(bytes[1..]);
      assert bytes == [bytes[0]] + bytes[1..];
    }
  }

  lemma {:induction false} HexOfConcat(a: seq<Byte>, b: seq<Byte>)
    ensures Hex(a + b) == Hex(a) + Hex(b)
  {
    if a == [] {
      assert a + b == b;
    } else {
      assert (a + b)[1..] == a[1..] + b;
      HexOfConcat(a[1..], b);
    }
  }

  lemma Groups(a: string, b: string, c: string, d: string, e: string)
    requires |a| == 8 && |b| == |c| == |d| == 4 && |e| == 12
    ensures
      var text := a + "-" + b + "-" + c + "-" + d + "-" + e;
      && |text| == 36 && text[8] == text[13] == text[18] == text[23] == '-'
      && text[0..8] == a && text[9..13] == b && text[14..18] == c && text[19..23] == d && text[24..36] == e
  {
  }

  /** Printed identifiers scan back. */
  lemma ScanOfPrint(id: Id)
    ensures Scan(Print(id)) == Some(id)
  {
    var a, b, c, d, e := id[0..4], id[4..6], id[6..8], id[8..10], id[10..16];
    Groups(Hex(a), Hex(b), Hex(c), Hex(d), Hex(e));
    assert id == a + b + c + d + e;
    HexOfConcat(a, b);
    HexOfConcat(a + b, c);
    HexOfConcat(a + b + c, d);
    HexOfConcat(a + b + c + d, e);
    UnhexOfHex(id);
  }

  lemma PrintIsInjective(a: Id, b: Id)
    requires Print(a) == Print(b)
    ensures a == b
  {
    ScanOfPrint(a);
    ScanOfPrint(b);
  }

  /** The content of an identifier column, by what `uuid.Parse` makes of it. */
  datatype Text = Canonical(id: Id) | Malformed(raw: string)

  function String(id: Id): Text { Canonical(id) }

  function Parse(t: Text): Option<Id> {
    match t
    case Canonical(id) => Some(id)
    case Malformed(_) => None
  }

  /** The characters a column holds. */
  function Characters(t: Text): string {
    match t
    case Canonical(id) => Print(id)
    case Malformed(raw) => raw
  }

  predicate WellFormed(t: Text) {
    t.Malformed? ==> Scan(t.raw).None?
  }

  /** Columns are equal exactly when their characters are, and scanning the characters is parsing the column. */
  lemma ColumnsAreTheirCharacters(a: Text, b: Text)
    requires WellFormed(a) && WellFormed(b)
    ensures Scan(Characters(a)) == Parse(a)
    ensures Characters(a) == Characters(b) <==> a == b
  {
    if a.Canonical? { ScanOfPrint(a.id); }
    if b.Canonical? { ScanOfPrint(b.id); }
  }
}
