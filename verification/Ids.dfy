/** Record identifiers: canonical lowercase version 4 UUIDs (section 5.4 of RFC 9562). */
module Ids {
  import opened Text

  type byte = x: int | 0 <= x < 256

  predicate IsLowerHex(c: char) { '0' <= c <= '9' || 'a' <= c <= 'f' }

  predicate DashAt(i: int) { i == 8 || i == 13 || i == 18 || i == 23 }

  /** The character class the identifier grammar allows at position `i`. */
  predicate Allowed(i: int, c: char) {
    if DashAt(i) then c == '-'
    else if i == 14 then c == '4'
    else if i == 19 then c in "89ab"
    else IsLowerHex(c)
  }

  ghost predicate Canonical(id: string) {
    |id| == 36 && forall i | 0 <= i < 36 :: Allowed(i, id[i])
  }

  lemma CanonicalIsTight(id: string)
    ensures Canonical(id) ==> Tight(id)
  {
    assert Canonical(id) ==> Allowed(0, id[0]) && Allowed(35, id[35]);
  }

  method ValidateCanonicalRecordID(id: string) returns (ok: bool)
    ensures ok <==> Canonical(id)
  {
    CanonicalIsTight(id);
    if id == "" { return false; }
    if Trim(id) != id { return false; }
    if |id| != 36 { return false; }
    for i := 0 to |id|
      invariant forall j | 0 <= j < i :: Allowed(j, id[j])
    {
      if !Allowed(i, id[i]) { return false; }
    }
    return true;
  }

  function HexDigit(n: int): (c: char)
    requires 0 <= n < 16
    ensures IsLowerHex(c)
    ensures 8 <= n < 12 ==> c in "89ab"
    ensures n == 4 ==> c == '4'
  {
    "0123456789abcdef"[n]
  }

  lemma HexDigitInjective(m: int, n: int)
    requires 0 <= m < 16 && 0 <= n < 16 && HexDigit(m) == HexDigit(n)
    ensures m == n
  {}

  /** The number a hexadecimal digit stands for, in either case. */
  function HexValue(c: char): int {
    if '0' <= c <= '9' then c as int - '0' as int
    else if 'a' <= c <= 'f' then c as int - 'a' as int + 10
    else if 'A' <= c <= 'F' then c as int - 'A' as int + 10
    else -1
  }

  /** Half-byte `k` of `b`, high half first. */
  function Nibble(b: seq<byte>, k: int): (n: int)
    requires 0 <= k < 2 * |b|
    ensures 0 <= n < 16
  {
    if k % 2 == 0 then b[k / 2] / 16 else b[k / 2] % 16
  }

  /** `hex.EncodeToString`. */
  function HexText(b: seq<byte>): (s: string)
    ensures |s| == 2 * |b| && forall k | 0 <= k < |s| :: IsLowerHex(s[k])
  {
    seq(2 * |b|, k requires 0 <= k < 2 * |b| => HexDigit(Nibble(b, k)))
  }

  /** The version and variant bits are forced; the other 122 bits are the random ones. */
  function Masked(b: seq<byte>): (m: seq<byte>)
    requires |b| == 16
    ensures |m| == 16
  {
    b[6 := 0x40 + b[6] % 16][8 := 0x80 + b[8] % 64]
  }

  /** Which half-byte stands at position `i` of the text form. */
  function NibbleIndex(i: int): int {
    if i < 8 then i else if i < 13 then i - 1 else if i < 18 then i - 2 else if i < 23 then i - 3 else i - 4
  }

  function PositionOf(k: int): int {
    if k < 8 then k else if k < 12 then k + 1 else if k < 16 then k + 2 else if k < 20 then k + 3 else k + 4
  }

  function Format(b: seq<byte>): (id: string)
    requires |b| == 16
    ensures |id| == 36
  {
    seq(36, i requires 0 <= i < 36 => if DashAt(i) then '-' else HexDigit(Nibble(b, NibbleIndex(i))))
  }

  /** `hex.Encode(buf[at..], b)`. */
  method HexEncode(buf: array<char>, at: nat, b: seq<byte>)
    requires at + 2 * |b| <= buf.Length
    modifies buf
    ensures forall k | 0 <= k < 2 * |b| :: buf[at + k] == HexDigit(Nibble(b, k))
    ensures forall i | 0 <= i < buf.Length && !(at <= i < at + 2 * |b|) :: buf[i] == old(buf[i])
  {
    for j := 0 to |b|
      invariant forall k | 0 <= k < 2 * j :: buf[at + k] == HexDigit(Nibble(b, k))
      invariant forall i | 0 <= i < buf.Length && !(at <= i < at + 2 * j) :: buf[i] == old(buf[i])
    {
      buf[at + 2 * j] := HexDigit(b[j] / 16);
      buf[at + 2 * j + 1] := HexDigit(b[j] % 16);
    }
  }

  lemma NibbleOfSlice(b: seq<byte>, lo: nat, hi: nat, k: int)
    requires lo <= hi <= |b| && 0 <= k < 2 * (hi - lo)
    ensures Nibble(b[lo..hi], k) == Nibble(b, 2 * lo + k)
  {
    assert (2 * lo + k) / 2 == lo + k / 2 && (2 * lo + k) % 2 == k % 2;
  }

  /** Encoding the five byte groups one by one hits the same half-bytes. */
  lemma SegmentsAgree(b: seq<byte>, i: int)
    requires |b| == 16 && 0 <= i < 36
    ensures i < 8 ==> Nibble(b, NibbleIndex(i)) == Nibble(b[0..4], i)
    ensures 9 <= i < 13 ==> Nibble(b, NibbleIndex(i)) == Nibble(b[4..6], i - 9)
    ensures 14 <= i < 18 ==> Nibble(b, NibbleIndex(i)) == Nibble(b[6..8], i - 14)
    ensures 19 <= i < 23 ==> Nibble(b, NibbleIndex(i)) == Nibble(b[8..10], i - 19)
    ensures 24 <= i ==> Nibble(b, NibbleIndex(i)) == Nibble(b[10..16], i - 24)
  {
    hide Nibble;
    if i < 8 {
      NibbleOfSlice(b, 0, 4, i);
    } else if 9 <= i < 13 {
      NibbleOfSlice(b, 4, 6, i - 9);
    } else if 14 <= i < 18 {
      NibbleOfSlice(b, 6, 8, i - 14);
    } else if 19 <= i < 23 {
      NibbleOfSlice(b, 8, 10, i - 19);
    } else if 24 <= i {
      NibbleOfSlice(b, 10, 16, i - 24);
    }
  }

  method NewUUIDv4(random: seq<byte>) returns (id: string)
    requires |random| == 16
    ensures id == Format(Masked(random))
  {
    var b := random;
    b := b[6 := 0x40 + b[6] % 16];
    b := b[8 := 0x80 + b[8] % 64];
    var buf := new char[36];
    HexEncode(buf, 0, b[0..4]);
    buf[8] := '-';
    HexEncode(buf, 9, b[4..6]);
    buf[13] := '-';
    HexEncode(buf, 14, b[6..8]);
    buf[18] := '-';
    HexEncode(buf, 19, b[8..10]);
    buf[23] := '-';
    HexEncode(buf, 24, b[10..16]);
    id := buf[..];
    forall i | 0 <= i < 36 ensures id[i] == Format(b)[i] {
      SegmentsAgree(b, i);
    }
  }

  /** Whatever the random source yields, the identifier passes validation. */
  lemma NewIdsAreCanonical(random: seq<byte>)
    requires |random| == 16
    ensures Canonical(Format(Masked(random)))
  {
    var m := Masked(random);
    assert Nibble(m, NibbleIndex(14)) == 4 && 8 <= Nibble(m, NibbleIndex(19)) < 12;
    forall i | 0 <= i < 36 ensures Allowed(i, Format(m)[i]) {}
  }

  lemma FormatInjective(a: seq<byte>, b: seq<byte>)
    requires |a| == 16 && |b| == 16 && Format(a) == Format(b)
    ensures a == b
  {
    forall k | 0 <= k < 32 ensures Nibble(a, k) == Nibble(b, k) {
      var i := PositionOf(k);
      assert !DashAt(i) && NibbleIndex(i) == k;
      assert Format(a)[i] == Format(b)[i];
      HexDigitInjective(Nibble(a, k), Nibble(b, k));
    }
    forall j | 0 <= j < 16 ensures a[j] == b[j] {
      assert Nibble(a, 2 * j) == Nibble(b, 2 * j) && Nibble(a, 2 * j + 1) == Nibble(b, 2 * j + 1);
    }
  }

  /** The 122 random bits of a draw. */
  predicate SameRandomBits(a: seq<byte>, b: seq<byte>)
    requires |a| == 16 && |b| == 16
  {
    && (forall i | 0 <= i < 16 && i != 6 && i != 8 :: a[i] == b[i])
    && a[6] % 16 == b[6] % 16 && a[8] % 64 == b[8] % 64
  }

  /** Two draws give the same identifier exactly when they agree on all 122 random bits. */
  lemma CollisionIffSameRandomBits(a: seq<byte>, b: seq<byte>)
    requires |a| == 16 && |b| == 16
    ensures Format(Masked(a)) == Format(Masked(b)) <==> SameRandomBits(a, b)
  {
    if Format(Masked(a)) == Format(Masked(b)) {
      FormatInjective(Masked(a), Masked(b));
      assert Masked(a)[6] == Masked(b)[6] && Masked(a)[8] == Masked(b)[8];
      forall i | 0 <= i < 16 && i != 6 && i != 8 ensures a[i] == b[i] {
        assert Masked(a)[i] == Masked(b)[i];
      }
    }
    if SameRandomBits(a, b) {
      assert Masked(a) == Masked(b);
    }
  }

  /** The bytes a text stands for. */
  function BytesOf(id: string): (b: seq<byte>)
    requires |id| == 36 && forall k | 0 <= k < 32 :: 0 <= HexValue(id[PositionOf(k)]) < 16
    ensures |b| == 16
  {
    seq(16, j requires 0 <= j < 16 => 16 * HexValue(id[PositionOf(2 * j)]) + HexValue(id[PositionOf(2 * j + 1)]))
  }

  lemma LowerHexHasValue(c: char)
    requires IsLowerHex(c)
    ensures 0 <= HexValue(c) < 16 && HexDigit(HexValue(c)) == c
  {}

  lemma CanonicalDigits(id: string, k: int)
    requires Canonical(id) && 0 <= k < 32
    ensures 0 <= PositionOf(k) < 36 && IsLowerHex(id[PositionOf(k)]) && 0 <= HexValue(id[PositionOf(k)]) < 16
    ensures k == 12 ==> HexValue(id[PositionOf(k)]) == 4
    ensures k == 16 ==> 8 <= HexValue(id[PositionOf(k)]) < 12
  {
    assert Allowed(PositionOf(k), id[PositionOf(k)]);
  }

  lemma NibblesOf(id: string, k: int)
    requires Canonical(id) && 0 <= k < 32
    requires forall j | 0 <= j < 32 :: 0 <= HexValue(id[PositionOf(j)]) < 16
    ensures Nibble(BytesOf(id), k) == HexValue(id[PositionOf(k)])
  {
    hide HexValue, Canonical;
  }

  /** The canonical texts are exactly the identifiers that can be drawn. */
  lemma CanonicalIffDrawn(id: string)
    ensures Canonical(id) <==> exists random: seq<byte> :: |random| == 16 && id == Format(Masked(random))
  {
    if Canonical(id) {
      hide HexValue, Canonical;
      forall k | 0 <= k < 32 ensures 0 <= HexValue(id[PositionOf(k)]) < 16 { CanonicalDigits(id, k); }
      var b := BytesOf(id);
      CanonicalDigits(id, 12);
      CanonicalDigits(id, 16);
      assert Masked(b) == b;
      forall i | 0 <= i < 36 ensures Format(b)[i] == id[i] { DrawnAt(id, i); }
      assert id == Format(Masked(b));
    }
    if random: seq<byte> :| |random| == 16 && id == Format(Masked(random)) { NewIdsAreCanonical(random); }
  }

  lemma DrawnAt(id: string, i: int)
    requires Canonical(id) && 0 <= i < 36
    requires forall k | 0 <= k < 32 :: 0 <= HexValue(id[PositionOf(k)]) < 16
    ensures Format(BytesOf(id))[i] == id[i]
  {
    assert Allowed(i, id[i]);
    if !DashAt(i) {
      var k := NibbleIndex(i);
      assert PositionOf(k) == i;
      CanonicalDigits(id, k);
      NibblesOf(id, k);
      LowerHexHasValue(id[i]);
    }
  }

  // ---- names made from identifiers ----

  const PUBLISH_PREFIX := ".publish-"
  const STAGE_PREFIX := ".stage-"

  function PublishTempName(id: string, suffix: string): (name: string)
    ensures HasPrefix(name, PUBLISH_PREFIX)
  {
    PUBLISH_PREFIX + id + "-" + suffix
  }

  function StageName(id: string, suffix: string): (name: string)
    ensures HasPrefix(name, STAGE_PREFIX)
  {
    STAGE_PREFIX + id + "-" + suffix
  }

  /** Two scratch names are the same only if record, suffix and kind are. */
  lemma ScratchNamesDiffer(a: string, s: string, b: string, t: string)
    requires Canonical(a) && Canonical(b)
    ensures PublishTempName(a, s) == PublishTempName(b, t) <==> a == b && s == t
    ensures StageName(a, s) == StageName(b, t) <==> a == b && s == t
    ensures StageName(a, s) != PublishTempName(b, t)
    ensures StageName(a, s) == ".stage-" + a + "-" + s && PublishTempName(a, s) == ".publish-" + a + "-" + s
  {
    assert PublishTempName(a, s)[9..45] == a && PublishTempName(b, t)[9..45] == b;
    assert PublishTempName(a, s)[46..] == s && PublishTempName(b, t)[46..] == t;
    assert StageName(a, s)[7..43] == a && StageName(b, t)[7..43] == b;
    assert StageName(a, s)[44..] == s && StageName(b, t)[44..] == t;
    assert StageName(a, s)[1] == 's' && PublishTempName(b, t)[1] == 'p';
  }

  /** The start-up sweep, which goes by prefix, can never hit a record's directory. */
  lemma CanonicalIsNoScratchName(id: string)
    requires Canonical(id)
    ensures !HasPrefix(id, PUBLISH_PREFIX) && !HasPrefix(id, STAGE_PREFIX)
    ensures Tight(id) && id != ""
  {
    CanonicalIsTight(id);
    assert Allowed(0, id[0]);
    assert PUBLISH_PREFIX[0] == '.' && STAGE_PREFIX[0] == '.';
    assert id[..9][0] == id[0] && id[..7][0] == id[0];
  }
}
