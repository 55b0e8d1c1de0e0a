/** Base64 bodies: the line-wrapped printer of the SES provider and the decoder of the SMTP parser. */
module Base64Mime {
  import opened Options
  import opened Text
  import opened Ids
  import opened Payload
  import opened Durations

  const CR: byte := 13
  const LF: byte := 10
  const PAD: byte := 61

  /** The standard alphabet (section 4 of RFC 4648), as ASCII codes. */
  function Symbol(i: sextet): (c: byte)
    ensures c != CR && c != LF && c != PAD
  {
    if i < 26 then 65 + i else if i < 52 then 71 + i else if i < 62 then i - 4 else if i == 62 then 43 else 47
  }

  predicate IsSymbol(c: byte) {
    65 <= c <= 90 || 97 <= c <= 122 || 48 <= c <= 57 || c == 43 || c == 47
  }

  function Index(c: byte): (i: sextet)
    requires IsSymbol(c)
    ensures Symbol(i) == c
  {
    if 65 <= c <= 90 then c - 65
    else if 97 <= c <= 122 then c - 71
    else if 48 <= c <= 57 then c + 4
    else if c == 43 then 62 else 63
  }

  lemma IndexOfSymbol(i: sextet)
    ensures IsSymbol(Symbol(i)) && Index(Symbol(i)) == i
  {}

  const ALPHABET := "ABCDEFGHIJKLMNOPQRSTUVWXYZ" + "abcdefghijklmnopqrstuvwxyz" + "0123456789+/"

  /** The alphabet is the one of table 1 there. */
  lemma SymbolIsStandard(i: sextet)
    ensures |ALPHABET| == 64 && Symbol(i) as char == ALPHABET[i]
  {
    if i < 26 {
      assert ALPHABET[i] == "ABCDEFGHIJKLMNOPQRSTUVWXYZ"[i];
    } else if i < 52 {
      assert ALPHABET[i] == "abcdefghijklmnopqrstuvwxyz"[i - 26];
    } else {
      assert ALPHABET[i] == "0123456789+/"[i - 52];
    }
  }

  type sextet = i: int | 0 <= i < 64

  // Three bytes as four sextets, and back.
  function First(a: byte): sextet { a / 4 }
  function Second(a: byte, b: byte): sextet { a % 4 * 16 + b / 16 }
  function Third(b: byte, c: byte): sextet { b % 16 * 4 + c / 64 }
  function Fourth(c: byte): sextet { c % 64 }
  function Byte0(i: sextet, j: sextet): byte { i * 4 + j / 16 }
  function Byte1(j: sextet, k: sextet): byte { j % 16 * 16 + k / 4 }
  function Byte2(k: sextet, l: sextet): byte { k % 4 * 64 + l }

  lemma BytesReadBack(a: byte, b: byte, c: byte)
    ensures Byte0(First(a), Second(a, b)) == a
    ensures Byte1(Second(a, b), Third(b, c)) == b
    ensures Byte2(Third(b, c), Fourth(c)) == c
  {}

  lemma SextetsReadBack(i: sextet, j: sextet, k: sextet, l: sextet)
    ensures First(Byte0(i, j)) == i
    ensures Second(Byte0(i, j), Byte1(j, k)) == j
    ensures Third(Byte1(j, k), Byte2(k, l)) == k
    ensures Fourth(Byte2(k, l)) == l
    ensures Second(Byte0(i, j), 0) == j / 16 * 16
    ensures Third(Byte1(j, k), 0) == k / 4 * 4
  {}

  /** `base64.StdEncoding.EncodeToString`. */
  function Encode(data: seq<byte>): (s: seq<byte>) {
    if |data| == 0 then []
    else if |data| == 1 then [Symbol(First(data[0])), Symbol(Second(data[0], 0)), PAD, PAD]
    else if |data| == 2 then [Symbol(First(data[0])), Symbol(Second(data[0], data[1])), Symbol(Third(data[1], 0)), PAD]
    else
      [Symbol(First(data[0])), Symbol(Second(data[0], data[1])), Symbol(Third(data[1], data[2])),
       Symbol(Fourth(data[2]))]
      + Encode(data[3..])
  }

  // ---- what the encoding is, position by position ----

  /** The byte without its last `k` bits. */
  function Shifted(b: byte, k: nat): byte { if k == 0 then b else Shifted(b, k - 1) / 2 }

  /** Bit `j` of a byte, most significant bit first. */
  function BitOf(b: byte, j: nat): (r: int)
    requires j < 8
    ensures 0 <= r <= 1
  {
    Shifted(b, 7 - j) % 2
  }

  function ByteAt(data: seq<byte>, i: nat): byte { if i < |data| then data[i] else 0 }

  /** Bit `j` of the data; zero past its end. */
  function Bit(data: seq<byte>, j: nat): (r: int)
    ensures 0 <= r <= 1
  {
    BitOf(ByteAt(data, j / 8), j % 8)
  }

  /** The six bits from `j` on, as a number. */
  function SixBits(data: seq<byte>, j: nat): sextet {
    32 * Bit(data, j) + 16 * Bit(data, j + 1) + 8 * Bit(data, j + 2) + 4 * Bit(data, j + 3) + 2 * Bit(data, j + 4)
    + Bit(data, j + 5)
  }

  /** All that is left of a byte after `k` shifts, from the bits that are left. */
  lemma BitsLeft(b: byte, k: nat)
    requires k < 8
    ensures Shifted(b, k) == 2 * Shifted(b, k + 1) + BitOf(b, 7 - k)
  {}

  lemma BytesAsBits(b: byte)
    ensures b == 128 * BitOf(b, 0) + 64 * BitOf(b, 1) + 32 * BitOf(b, 2) + 16 * BitOf(b, 3)
                 + 8 * BitOf(b, 4) + 4 * BitOf(b, 5) + 2 * BitOf(b, 6) + BitOf(b, 7)
  {
    hide BitOf;
    BitsLeft(b, 0);
    BitsLeft(b, 1);
    BitsLeft(b, 2);
    BitsLeft(b, 3);
    BitsLeft(b, 4);
    BitsLeft(b, 5);
    BitsLeft(b, 6);
    BitsLeft(b, 7);
    ShiftedOut(b);
  }

  lemma ShiftedOut(b: byte)
    ensures Shifted(b, 8) == 0 && Shifted(b, 0) == b
  {
    assert Shifted(b, 2) == Shifted(b, 1) / 2 < 64;
    assert Shifted(b, 4) == Shifted(b, 3) / 2 < 16;
    assert Shifted(b, 6) == Shifted(b, 5) / 2 < 4;
  }

  /** A number below 256 cut in two: above and below two, four or six bits. */
  lemma CutByte(b: byte)
    ensures var b0, b1, b2, b3 := BitOf(b, 0), BitOf(b, 1), BitOf(b, 2), BitOf(b, 3);
            var b4, b5, b6, b7 := BitOf(b, 4), BitOf(b, 5), BitOf(b, 6), BitOf(b, 7);
            && b / 4 == 32 * b0 + 16 * b1 + 8 * b2 + 4 * b3 + 2 * b4 + b5 && b % 4 == 2 * b6 + b7
            && b / 16 == 8 * b0 + 4 * b1 + 2 * b2 + b3 && b % 16 == 8 * b4 + 4 * b5 + 2 * b6 + b7
            && b / 64 == 2 * b0 + b1 && b % 64 == 32 * b2 + 16 * b3 + 8 * b4 + 4 * b5 + 2 * b6 + b7
  {
    hide BitOf;
    BytesAsBits(b);
    var high := 8 * BitOf(b, 0) + 4 * BitOf(b, 1) + 2 * BitOf(b, 2) + BitOf(b, 3);
    CutAt(b, 4, 4 * high + 2 * BitOf(b, 4) + BitOf(b, 5));
    CutAt(b, 16, high);
    CutAt(b, 64, 2 * BitOf(b, 0) + BitOf(b, 1));
  }

  lemma CutAt(b: nat, d: nat, q: nat)
    requires d == 4 || d == 16 || d == 64
    requires q * d <= b < q * d + d
    ensures b / d == q && b % d == b - q * d
  {}

  lemma FirstBits(data: seq<byte>)
    ensures SixBits(data, 0) == First(ByteAt(data, 0))
    ensures SixBits(data, 6) == Second(ByteAt(data, 0), ByteAt(data, 1))
    ensures SixBits(data, 12) == Third(ByteAt(data, 1), ByteAt(data, 2))
    ensures SixBits(data, 18) == Fourth(ByteAt(data, 2))
  {
    var a, b, c := ByteAt(data, 0), ByteAt(data, 1), ByteAt(data, 2);
    BitsOfFirst(data);
    hide BitOf, ByteAt, Bit;
    CutByte(a);
    CutByte(b);
    CutByte(c);
  }

  lemma BitsOfFirst(data: seq<byte>)
    ensures forall j: nat | j < 8 :: Bit(data, j) == BitOf(ByteAt(data, 0), j)
    ensures forall j: nat | 8 <= j < 16 :: Bit(data, j) == BitOf(ByteAt(data, 1), j - 8)
    ensures forall j: nat | 16 <= j < 24 :: Bit(data, j) == BitOf(ByteAt(data, 2), j - 16)
  {
    hide BitOf, ByteAt;
  }

  lemma LaterBits(data: seq<byte>, j: nat)
    requires |data| >= 3
    ensures SixBits(data, j + 24) == SixBits(data[3..], j)
  {
    hide BitOf;
    LaterBit(data, j);
    LaterBit(data, j + 1);
    LaterBit(data, j + 2);
    LaterBit(data, j + 3);
    LaterBit(data, j + 4);
    LaterBit(data, j + 5);
  }

  lemma LaterBit(data: seq<byte>, j: nat)
    requires |data| >= 3
    ensures Bit(data, j + 24) == Bit(data[3..], j)
  {
    hide BitOf;
  }

  lemma {:induction false} SymbolsAt(data: seq<byte>, k: nat)
    ensures |Encode(data)| == 4 * ((|data| + 2) / 3)
    ensures k < |Encode(data)| ==>
              Encode(data)[k] == if 6 * k < 8 * |data| then Symbol(SixBits(data, 6 * k)) else PAD
    decreases |data|
  {
    hide First, Second, Third, Fourth, Symbol, SixBits;
    FirstBits(data);
    if |data| >= 3 {
      var rest := data[3..];
      SymbolsAt(rest, if k >= 4 then k - 4 else 0);
      assert Encode(data) == Encode(data)[..4] + Encode(rest);
      if k >= 4 { LaterBits(data, 6 * (k - 4)); }
    }
  }

  /**
   Character `k` stands for bits `6k` to `6k + 5` as long as there is data, and is padding from there to the next
   multiple of four.
   */
  lemma EncodeAt(data: seq<byte>, k: nat)
    ensures |Encode(data)| == 4 * ((|data| + 2) / 3)
    ensures k < |Encode(data)| ==>
              Encode(data)[k] as char == if 6 * k < 8 * |data| then ALPHABET[SixBits(data, 6 * k)] else '='
  {
    hide Encode, SixBits, Symbol;
    SymbolsAt(data, k);
    SymbolIsStandard(SixBits(data, 6 * k));
  }

  /** `base64.StdEncoding.Decode` on text without line breaks; spare bits of the last symbol are ignored. */
  function Decode(s: seq<byte>): (r: Option<seq<byte>>) {
    if s == [] then Some([])
    else if |s| < 4 || !IsSymbol(s[0]) || !IsSymbol(s[1]) then None
    else
      var i, j := Index(s[0]), Index(s[1]);
      if IsSymbol(s[2]) && IsSymbol(s[3]) then
        var k, l := Index(s[2]), Index(s[3]);
        match Decode(s[4..])
        case None => None
        case Some(rest) => Some([Byte0(i, j), Byte1(j, k), Byte2(k, l)] + rest)
      else if |s| == 4 && IsSymbol(s[2]) && s[3] == PAD then Some([Byte0(i, j), Byte1(j, Index(s[2]))])
      else if |s| == 4 && s[2] == PAD && s[3] == PAD then Some([Byte0(i, j)])
      else None
  }

  function Without(s: seq<byte>, x: byte): (r: seq<byte>)
    ensures x !in r
    ensures forall y | y in r :: y in s
  {
    if s == [] then [] else if s[0] == x then Without(s[1..], x) else [s[0]] + Without(s[1..], x)
  }

  /** `decodeTransferEncoding`; quoted-printable text is decoded by the given library function. */
  function DecodeTransferEncoding(encoding: string, data: seq<byte>,
                                  quotedPrintable: seq<byte> -> Option<seq<byte>>): Option<seq<byte>> {
    var kind := Lower(Trim(encoding));
    if kind == "base64" then Decode(Without(Without(data, LF), CR))
    else if kind == "quoted-printable" then quotedPrintable(data)
    else Some(data)
  }

  const LINE_LENGTH := 76

  /** The lines of a body, without their line breaks. */
  function Lines(s: seq<byte>): (lines: seq<seq<byte>>)
    ensures |lines| >= 1
    ensures forall i | 0 <= i < |lines| :: |lines[i]| <= LINE_LENGTH
    ensures forall i | 0 <= i < |lines| - 1 :: |lines[i]| == LINE_LENGTH
    ensures forall i | 0 <= i < |lines| :: forall b | b in lines[i] :: b in s
  {
    if |s| <= LINE_LENGTH then [s] else [s[..LINE_LENGTH]] + Lines(s[LINE_LENGTH..])
  }

  function Terminated(lines: seq<seq<byte>>): seq<byte> {
    if lines == [] then [] else lines[0] + [CR, LF] + Terminated(lines[1..])
  }

  /** `writeBase64MIME`: the encoding in lines of at most 76 characters (section 6.8 of RFC 2045). */
  method WriteBase64MIME(data: seq<byte>) returns (out: seq<byte>)
    ensures out == Terminated(Lines(Encode(data)))
  {
    var encoded := Encode(data);
    out := [];
    while |encoded| > LINE_LENGTH
      invariant out + Terminated(Lines(encoded)) == Terminated(Lines(Encode(data)))
      decreases |encoded|
    {
      var rest := encoded[LINE_LENGTH..];
      assert Lines(encoded)[1..] == Lines(rest);
      assert out + (encoded[..LINE_LENGTH] + [CR, LF] + Terminated(Lines(rest)))
          == (out + encoded[..LINE_LENGTH] + [CR, LF]) + Terminated(Lines(rest));
      out := out + encoded[..LINE_LENGTH] + [CR, LF];
      encoded := rest;
    }
    assert Lines(encoded)[1..] == [] && Terminated(Lines(encoded)) == encoded + [CR, LF] + [];
    out := out + encoded + [CR, LF];
  }

  /** Character `k` of the text comes after two characters for each full line before it. */
  lemma {:induction false} PrintedAt(s: seq<byte>, k: nat)
    ensures |Terminated(Lines(s))| == |s| + 2 * (if s == [] then 1 else (|s| + 75) / 76)
    ensures k < |s| ==> Terminated(Lines(s))[k + 2 * (k / 76)] == s[k]
    decreases |s|
  {
    FirstLine(s);
    if |s| > LINE_LENGTH {
      hide Terminated, Lines;
      PrintedAt(s[LINE_LENGTH..], if k >= 76 then k - 76 else 0);
    }
  }

  /** Every line, the last one included, ends in CR LF. */
  lemma {:induction false} LineEndsAt(s: seq<byte>, k: nat)
    requires k == 0 || 76 * k < |s|
    ensures var out, end := Terminated(Lines(s)), Min(76 * (k + 1), |s|) + 2 * k;
            |out| > end + 1 && out[end] as char == '\r' && out[end + 1] as char == '\n'
    decreases |s|
  {
    hide Terminated, Lines;
    FirstLine(s);
    if k > 0 {
      var rest := s[LINE_LENGTH..];
      LineEndsAt(rest, k - 1);
      LineShift(|s|, k);
      var out, tail, end := Terminated(Lines(s)), Terminated(Lines(rest)), Min(76 * (k + 1), |s|) + 2 * k;
      assert out == (s[..LINE_LENGTH] + [CR, LF]) + tail;
      assert out[end] == tail[end - 78] && out[end + 1] == tail[end - 77];
    }
  }

  lemma LineShift(n: nat, k: nat)
    requires k > 0 && n > 76
    ensures Min(76 * (k + 1), n) + 2 * k == Min(76 * k, n - 76) + 2 * (k - 1) + 78
  {}

  lemma FirstLine(s: seq<byte>)
    ensures |s| <= LINE_LENGTH ==> Terminated(Lines(s)) == s + [CR, LF]
    ensures |s| > LINE_LENGTH ==>
              Terminated(Lines(s)) == s[..LINE_LENGTH] + [CR, LF] + Terminated(Lines(s[LINE_LENGTH..]))
  {
    var lines := Lines(s);
    assert |s| > LINE_LENGTH ==> lines[1..] == Lines(s[LINE_LENGTH..]);
    assert |s| <= LINE_LENGTH ==> lines[1..] == [];
  }

  lemma {:induction false} WithoutConcat(a: seq<byte>, b: seq<byte>, x: byte)
    ensures Without(a + b, x) == Without(a, x) + Without(b, x)
  {
    if a == [] {
      assert a + b == b;
    } else {
      assert (a + b)[1..] == a[1..] + b;
      WithoutConcat(a[1..], b, x);
    }
  }

  lemma {:induction false} WithoutAbsent(s: seq<byte>, x: byte)
    requires x !in s
    ensures Without(s, x) == s
  {
    if s != [] { WithoutAbsent(s[1..], x); }
  }

  lemma WithoutBreak()
    ensures Without([CR, LF], LF) == [CR] && Without([CR], CR) == []
  {
    assert [CR, LF][1..] == [LF] && [LF][1..] == [] && [CR][1..] == [];
    assert Without([LF], LF) == Without([], LF) == [];
    assert Without([CR, LF], LF) == [CR] + Without([LF], LF);
    assert Without([CR], CR) == Without([], CR) == [];
  }

  /** Stripping the line breaks undoes the wrapping. */
  lemma {:induction false} Unwrap(s: seq<byte>)
    requires CR !in s && LF !in s
    ensures Without(Without(Terminated(Lines(s)), LF), CR) == s
    decreases |s|
  {
    if |s| <= LINE_LENGTH {
      assert Lines(s)[1..] == [] && Terminated(Lines(s)) == s + [CR, LF];
      WithoutConcat(s, [CR, LF], LF);
      WithoutAbsent(s, LF);
      WithoutBreak();
      WithoutConcat(s, [CR], CR);
      WithoutAbsent(s, CR);
    } else {
      var head, rest := s[..LINE_LENGTH], s[LINE_LENGTH..];
      Unwrap(rest);
      var tail := Terminated(Lines(rest));
      assert Lines(s)[1..] == Lines(rest) && Terminated(Lines(s)) == (head + [CR, LF]) + tail;
      UnwrapLine(head, tail);
      assert s == head + rest;
    }
  }

  lemma UnwrapLine(head: seq<byte>, tail: seq<byte>)
    requires CR !in head && LF !in head
    ensures Without(Without((head + [CR, LF]) + tail, LF), CR) == head + Without(Without(tail, LF), CR)
  {
    hide Without;
    WithoutConcat(head + [CR, LF], tail, LF);
    WithoutConcat(head, [CR, LF], LF);
    WithoutAbsent(head, LF);
    WithoutBreak();
    WithoutConcat(head + [CR], Without(tail, LF), CR);
    WithoutConcat(head, [CR], CR);
    WithoutAbsent(head, CR);
  }

  lemma {:induction false} EncodeHasNoBreaks(data: seq<byte>)
    ensures CR !in Encode(data) && LF !in Encode(data)
    decreases |data|
  {
    if |data| > 2 { EncodeHasNoBreaks(data[3..]); }
  }

  lemma {:induction false} DecodeEncode(data: seq<byte>)
    ensures Decode(Encode(data)) == Some(data)
    decreases |data|
  {
    hide First, Second, Third, Fourth, Byte0, Byte1, Byte2, Symbol, Index;
    if data != [] {
      var a := data[0];
      var b := if |data| > 1 then data[1] else 0;
      var c := if |data| > 2 then data[2] else 0;
      BytesReadBack(a, b, c);
      IndexOfSymbol(First(a));
      IndexOfSymbol(Second(a, b));
      IndexOfSymbol(Third(b, c));
      IndexOfSymbol(Fourth(c));
      assert !IsSymbol(PAD);
      if |data| > 2 {
        DecodeEncode(data[3..]);
        assert Encode(data)[4..] == Encode(data[3..]);
        assert data == [a, b, c] + data[3..];
      } else if |data| == 2 {
        assert data == [a, b];
      } else {
        assert data == [a];
      }
    }
  }

  /** Lines of 76 characters, the last one possibly shorter, and no line break inside. */
  predicate WellWrapped(lines: seq<seq<byte>>) {
    && (forall i | 0 <= i < |lines| :: |lines[i]| <= LINE_LENGTH && CR !in lines[i] && LF !in lines[i])
    && (forall i | 0 <= i < |lines| - 1 :: |lines[i]| == LINE_LENGTH)
  }

  /** What SES writes, the SMTP parser reads back: every byte string, at every length. */
  lemma MimeRoundTrip(data: seq<byte>, encoding: string, quotedPrintable: seq<byte> -> Option<seq<byte>>)
    requires Lower(Trim(encoding)) == "base64"
    ensures WellWrapped(Lines(Encode(data)))
    ensures DecodeTransferEncoding(encoding, Terminated(Lines(Encode(data))), quotedPrintable) == Some(data)
  {
    EncodeHasNoBreaks(data);
    Unwrap(Encode(data));
    DecodeEncode(data);
  }

  /** Bodies sent as they are come back as they are. */
  lemma IdentityEncodings(data: seq<byte>, encoding: string, quotedPrintable: seq<byte> -> Option<seq<byte>>)
    requires Lower(Trim(encoding)) in {"", "7bit", "8bit", "binary"}
    ensures DecodeTransferEncoding(encoding, data, quotedPrintable) == Some(data)
  {
    assert |"base64"| == 6 && "binary"[1] != "base64"[1] && |"quoted-printable"| == 16;
  }

  /** The bits of the last symbol that stand for no byte are zero. */
  predicate SpareBitsZero(s: seq<byte>)
    requires |s| >= 4
  {
    var q := s[|s| - 4..];
    && (q[3] == PAD && q[2] == PAD && IsSymbol(q[1]) ==> Index(q[1]) % 16 == 0)
    && (q[3] == PAD && IsSymbol(q[2]) ==> Index(q[2]) % 4 == 0)
  }

  /** The text with the spare bits of its last symbol cleared. */
  function Cleared(s: seq<byte>): seq<byte> {
    var n := |s|;
    if n < 4 || s[n - 1] != PAD then s
    else if IsSymbol(s[n - 2]) then s[n - 2 := Symbol(Index(s[n - 2]) / 4 * 4)]
    else if IsSymbol(s[n - 3]) then s[n - 3 := Symbol(Index(s[n - 3]) / 16 * 16)]
    else s
  }

  lemma LastQuantum(q: seq<byte>)
    requires |q| == 4 && Decode(q).Some? && q[3] == PAD
    ensures Encode(Decode(q).value) == Cleared(q)
  {
    hide First, Second, Third, Fourth, Byte0, Byte1, Byte2, Symbol, Index;
    assert !IsSymbol(PAD);
    var i, j := Index(q[0]), Index(q[1]);
    var k := if IsSymbol(q[2]) then Index(q[2]) else 0;
    SextetsReadBack(i, j, k, 0);
    var e := Encode(Decode(q).value);
    if IsSymbol(q[2]) {
      assert e == [q[0], q[1], Symbol(Third(Byte1(j, k), 0)), PAD];
    } else {
      assert e == [q[0], Symbol(Second(Byte0(i, j), 0)), PAD, PAD];
    }
  }

  lemma NothingEncoded()
    ensures Encode([]) == []
  {}

  /** Four symbols without padding carry no spare bits. */
  lemma {:induction false} FullQuantum(s: seq<byte>)
    requires s != [] && Decode(s).Some? && s[3] != PAD
    ensures |s| >= 4 && Decode(s[4..]).Some? && Encode(Decode(s).value) == s[..4] + Encode(Decode(s[4..]).value)
  {
    hide First, Second, Third, Fourth, Byte0, Byte1, Byte2, Symbol, Index;
    assert !IsSymbol(PAD);
    SextetsReadBack(Index(s[0]), Index(s[1]), Index(s[2]), Index(s[3]));
    assert Decode(s).value[3..] == Decode(s[4..]).value;
  }

  /** What the printer would write for the result of a text is that text with its spare bits cleared. */
  lemma {:induction false} ReencodeClears(s: seq<byte>)
    requires Decode(s).Some?
    ensures |s| % 4 == 0 && Encode(Decode(s).value) == Cleared(s)
    decreases |s|
  {
    hide First, Second, Third, Fourth, Byte0, Byte1, Byte2, Symbol, Index, Encode;
    assert !IsSymbol(PAD);
    if s == [] {
      NothingEncoded();
    } else if s[3] == PAD {
      LastQuantum(s);
    } else {
      FullQuantum(s);
      var rest := s[4..];
      ReencodeClears(rest);
      assert s == s[..4] + rest;
      assert rest == [] ==> s[|s| - 1] != PAD;
      assert Cleared(s) == s[..4] + Cleared(rest);
    }
  }

  /** Symbols in groups of four, the last group with up to two characters of padding at its end. */
  ghost predicate WellFormed(s: seq<byte>) {
    && |s| % 4 == 0
    && forall k | 0 <= k < |s| ::
         || IsSymbol(s[k])
         || (k >= |s| - 2 && s[k] as char == '=' && s[|s| - 1] as char == '=')
  }

  /** The parser takes exactly the well-formed texts. */
  lemma {:induction false} DecodesIff(s: seq<byte>)
    ensures Decode(s).Some? <==> WellFormed(s)
    decreases |s|
  {
    assert !IsSymbol(PAD);
    if |s| >= 4 {
      var rest := s[4..];
      DecodesIff(rest);
      assert |s| > 4 ==> (WellFormed(s) <==> (forall k | 0 <= k < 4 :: IsSymbol(s[k])) && WellFormed(rest)) by {
        assert forall k | 0 <= k < |rest| :: rest[k] == s[k + 4];
        if WellFormed(rest) && |s| > 4 && forall k | 0 <= k < 4 :: IsSymbol(s[k]) {
          forall k | 4 <= k < |s|
            ensures IsSymbol(s[k]) || (k >= |s| - 2 && s[k] as char == '=' && s[|s| - 1] as char == '=')
          {
            assert s[k] == rest[k - 4];
          }
        }
      }
    }
  }

  /** A text the parser accepts is what the printer would write for the result, exactly when its spare bits are zero. */
  lemma ReencodeIffSpareBitsZero(s: seq<byte>)
    requires s != [] && Decode(s).Some?
    ensures |s| % 4 == 0 && |s| >= 4
    ensures Encode(Decode(s).value) == s <==> SpareBitsZero(s)
  {
    hide Symbol, Index, Encode, Decode;
    assert !IsSymbol(PAD);
    ReencodeClears(s);
    DecodesIff(s);
    var n := |s|;
    assert s[n - 4..][1] == s[n - 3] && s[n - 4..][2] == s[n - 2] && s[n - 4..][3] == s[n - 1];
    if IsSymbol(s[n - 2]) { IndexOfSymbol(Index(s[n - 2]) / 4 * 4); }
    if IsSymbol(s[n - 3]) { IndexOfSymbol(Index(s[n - 3]) / 16 * 16); }
    assert IsSymbol(s[n - 2]) || s[n - 2] == PAD;
    if s[n - 1] == PAD && IsSymbol(s[n - 2]) {
      assert Cleared(s) == s <==> Cleared(s)[n - 2] == s[n - 2];
    } else if s[n - 1] == PAD && IsSymbol(s[n - 3]) {
      assert Cleared(s) == s <==> Cleared(s)[n - 3] == s[n - 3];
    }
  }

  /** The symbols are the characters of the alphabet. */
  lemma SymbolsAreTheAlphabet(c: byte)
    ensures IsSymbol(c) <==> c as char in ALPHABET
  {
    if IsSymbol(c) { SymbolIsStandard(Index(c)); }
    if c as char in ALPHABET {
      var i :| 0 <= i < |ALPHABET| && ALPHABET[i] == c as char;
      SymbolIsStandard(i);
      IndexOfSymbol(i);
    }
  }

  /** And it need not be: "YR==" and "YQ==" both decode to "a". */
  lemma SpareBitsAreIgnored()
    ensures Decode([89, 82, PAD, PAD]) == Decode([89, 81, PAD, PAD]) == Some([97])
    ensures Encode([97]) == [89, 81, PAD, PAD]
  {
    assert Index(89) == 24 && Index(82) == 17 && Index(81) == 16;
  }
}
