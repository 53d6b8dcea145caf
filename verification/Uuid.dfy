/** UUID text and the file names built from it. */
module Uuid {
  import opened Bytes

  const HEX := "0123456789abcdef"

  predicate IsHex(c: char) {
    '0' <= c <= '9' || 'a' <= c <= 'f' || 'A' <= c <= 'F'
  }

  predicate DashAt(i: int) {
    i == 8 || i == 13 || i == 18 || i == 23
  }

  /** The canonical 8-4-4-4-12 form. */
  predicate Canonical(s: string) {
    |s| == 36 && ShapeUpTo(s)
  }

  predicate ShapeUpTo(s: string) {
    forall i :: 0 <= i < |s| ==> if DashAt(i) then s[i] == '-' else IsHex(s[i])
  }

  /** Dashes written before the digits of byte i. */
  function Dashes(i: int): int {
    if i < 4 then 0 else if i < 6 then 1 else if i < 8 then 2 else if i < 10 then 3 else 4
  }

  /** Where the two digits of byte i stand. */
  function At(i: int): int {
    2 * i + Dashes(i)
  }

  /** The random bytes with the version and variant bits set. */
  function Stamp(random: seq<byte>): (b: seq<byte>)
    requires |random| == 16
    ensures |b| == 16 && forall i :: 0 <= i < 16 && i != 6 && i != 8 ==> b[i] == random[i]
    ensures b[6] / 16 == 4 && b[6] % 16 == random[6] % 16 && b[8] / 64 == 2 && b[8] % 64 == random[8] % 64
  {
    random[6 := random[6] % 16 + 0x40][8 := random[8] % 64 + 0x80]
  }

  function Digit(n: int): (c: char)
    requires 0 <= n < 16
    ensures IsHex(c) && c as int == if n < 10 then '0' as int + n else 'a' as int + (n - 10)
  {
    HEX[n]
  }

  /** The text shows the first n stamped bytes as two lower-case digits each. */
  predicate ShowsUpTo(text: string, b: seq<byte>, n: int)
    requires 0 <= n <= 16 && |b| == 16
  {
    && |text| == (if n == 0 then 0 else At(n - 1) + 2)
    && forall i :: 0 <= i < n ==> text[At(i)] == Digit(b[i] / 16) && text[At(i) + 1] == Digit(b[i] % 16)
  }

  predicate Shows(text: string, b: seq<byte>) {
    |b| == 16 && ShowsUpTo(text, b, 16)
  }

  /** uuid.New on the bytes drawn from the random source. */
  method New(random: seq<byte>) returns (text: string)
    requires |random| == 16
    ensures Canonical(text) && Shows(text, Stamp(random))
    ensures text[14] == '4' && text[19] in "89ab"
  {
    var b := Stamp(random);
    text := "";
    for i := 0 to 16
      invariant ShapeUpTo(text) && ShowsUpTo(text, b, i)
    {
      var dash := if i == 4 || i == 6 || i == 8 || i == 10 then "-" else "";
      ByteAppended(text, b, i, dash);
      text := text + dash;
      text := text + [HEX[b[i] / 16], HEX[b[i] % 16]];
    }
    VersionShown(text, b);
  }

  lemma ByteAppended(text: string, b: seq<byte>, i: int, dash: string)
    requires |b| == 16 && 0 <= i < 16 && ShapeUpTo(text) && ShowsUpTo(text, b, i)
    requires dash == if i == 4 || i == 6 || i == 8 || i == 10 then "-" else ""
    ensures var n := text + dash + [Digit(b[i] / 16), Digit(b[i] % 16)]; ShapeUpTo(n) && ShowsUpTo(n, b, i + 1)
  {
    var n := text + dash + [Digit(b[i] / 16), Digit(b[i] % 16)];
    assert |text + dash| == At(i);
    forall k | 0 <= k < i + 1 ensures n[At(k)] == Digit(b[k] / 16) && n[At(k) + 1] == Digit(b[k] % 16) {
      if k < i { assert At(k) + 1 < |text|; }
    }
  }

  /** Version 4 and the variant bits are visible in the text. */
  lemma VersionShown(text: string, b: seq<byte>)
    requires Shows(text, b) && 0x40 <= b[6] < 0x50 && 0x80 <= b[8] < 0xC0
    ensures text[14] == '4' && text[19] in "89ab"
  {
    assert text[At(6)] == Digit(b[6] / 16) && text[At(8)] == Digit(b[8] / 16);
    assert b[6] / 16 == 4 && 8 <= b[8] / 16 < 12;
    assert Digit(4) == '4' && Digit(8) == "89ab"[0] && Digit(9) == "89ab"[1] && Digit(10) == "89ab"[2]
        && Digit(11) == "89ab"[3];
  }

  /** IsValid: the scan accepts exactly the canonical form. */
  method IsValid(s: string) returns (ok: bool)
    ensures ok <==> Canonical(s)
    ensures ok <==> |s| == 36 && forall i :: 0 <= i < 36 ==>
      if i in {8, 13, 18, 23} then s[i] == '-' else '0' <= s[i] <= '9' || 'a' <= s[i] <= 'f' || 'A' <= s[i] <= 'F'
  {
    if |s| != 36 {
      return false;
    }
    for i := 0 to |s|
      invariant ShapeUpTo(s[..i])
    {
      var c := s[i];
      if i == 8 || i == 13 || i == 18 || i == 23 {
        if c != '-' {
          return false;
        }
      } else {
        var isHex := ('0' <= c <= '9') || ('a' <= c <= 'f') || ('A' <= c <= 'F');
        if !isHex {
          return false;
        }
      }
    }
    assert s[..|s|] == s;
    return true;
  }

  lemma HexInjective(x: int, y: int)
    requires 0 <= x < 16 && 0 <= y < 16 && Digit(x) == Digit(y)
    ensures x == y
  {
  }

  /** Different stamped bytes give different text: nothing random is lost in the form. */
  lemma TextDetermines(text: string, a: seq<byte>, b: seq<byte>)
    requires Shows(text, a) && Shows(text, b)
    ensures a == b
  {
    forall i | 0 <= i < 16 ensures a[i] == b[i] {
      HexInjective(a[i] / 16, b[i] / 16);
      HexInjective(a[i] % 16, b[i] % 16);
    }
  }

  const TMP := "tmp-"

  /** A temporary file: the prefix the orphan sweep looks for. */
  predicate TmpName(name: string) {
    TMP <= name
  }

  function TmpFor(uuid: string): string {
    TMP + uuid
  }

  function FinalFor(uuid: string, extension: string): string {
    uuid + "." + extension
  }

  /** A stored file: a UUID and an extension. */
  predicate FinalName(name: string) {
    |name| > 37 && Canonical(name[..36]) && name[36] == '.'
  }

  /** The two kinds of generated names never meet: a final name starts with a hexadecimal digit. */
  lemma NamesApart(uuid: string, extension: string)
    requires Canonical(uuid) && extension != ""
    ensures FinalName(FinalFor(uuid, extension)) && !TmpName(FinalFor(uuid, extension))
    ensures TmpName(TmpFor(uuid))
  {
    assert FinalFor(uuid, extension)[..36] == uuid;
    FinalIsNotTmp(FinalFor(uuid, extension));
  }

  lemma FinalIsNotTmp(name: string)
    requires FinalName(name)
    ensures !TmpName(name)
  {
    assert IsHex(name[..36][0]) && name[..36][0] == name[0];
    assert TMP[0] == 't' && !IsHex('t');
    assert name[0] != TMP[0];
  }
}
