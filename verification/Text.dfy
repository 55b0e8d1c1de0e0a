module Options {
  datatype Option<+T> = None | Some(value: T)
}

/** Text helpers of the Go standard library that the spool relies on. */
module Text {

  /** White space as `strings.TrimSpace` understands it (Unicode White_Space). */
  predicate IsSpace(c: char) {
    var n := c as int;
    || 9 <= n <= 13 || n == 0x20 || n == 0x85 || n == 0xA0 || n == 0x1680
    || 0x2000 <= n <= 0x200A || n == 0x2028 || n == 0x2029 || n == 0x202F || n == 0x205F || n == 0x3000
  }

  /** The 25 characters with that property. */
  lemma SpaceIff(c: char)
    ensures IsSpace(c) <==>
              c as int in
              {0x9, 0xA, 0xB, 0xC, 0xD, 0x20, 0x85, 0xA0, 0x1680, 0x2000, 0x2001, 0x2002, 0x2003, 0x2004, 0x2005,
               0x2006, 0x2007, 0x2008, 0x2009, 0x200A, 0x2028, 0x2029, 0x202F, 0x205F, 0x3000}
  {}

  /** No white space at either end. */
  predicate Tight(s: string) {
    s == [] || (!IsSpace(s[0]) && !IsSpace(s[|s| - 1]))
  }

  function Trim(s: string): (r: string)
    ensures Tight(r)
    ensures Tight(s) ==> r == s
  {
    if s == [] then s
    else if IsSpace(s[0]) then Trim(s[1..])
    else if IsSpace(s[|s| - 1]) then Trim(s[..|s| - 1])
    else s
  }

  /** What is cut off is white space only: `s` is blanks, then `Trim(s)`, then blanks. */
  lemma {:induction false} TrimCuts(s: string) returns (i: nat, j: nat)
    ensures i <= j <= |s| && s[i..j] == Trim(s)
    ensures forall k | 0 <= k < |s| && !(i <= k < j) :: IsSpace(s[k])
  {
    if s == [] {
      i, j := 0, 0;
    } else if IsSpace(s[0]) {
      i, j := TrimCuts(s[1..]);
      i, j := i + 1, j + 1;
      assert s[i..j] == s[1..][i - 1..j - 1];
      assert forall k | 1 <= k < |s| :: s[k] == s[1..][k - 1];
    } else if IsSpace(s[|s| - 1]) {
      i, j := TrimCuts(s[..|s| - 1]);
      assert s[i..j] == s[..|s| - 1][i..j];
      assert forall k | 0 <= k < |s| - 1 :: s[k] == s[..|s| - 1][k];
    } else {
      i, j := 0, |s|;
    }
  }

  predicate HasPrefix(s: string, p: string) {
    |p| <= |s| && s[..|p|] == p
  }

  predicate IsDigit(c: char) { '0' <= c <= '9' }

  function DigitChar(d: nat): (c: char)
    requires d < 10
    ensures IsDigit(c)
  {
    '0' + d as char
  }

  /** `%d` of a non-negative integer. */
  function Decimal(n: nat): (s: string)
    ensures |s| > 0 && forall i | 0 <= i < |s| :: IsDigit(s[i])
  {
    if n < 10 then [DigitChar(n)] else Decimal(n / 10) + [DigitChar(n % 10)]
  }

  function Value(s: string): (n: nat)
    requires forall i | 0 <= i < |s| :: IsDigit(s[i])
  {
    if s == [] then 0 else assert IsDigit(s[|s| - 1]); 10 * Value(s[..|s| - 1]) + (s[|s| - 1] as int - '0' as int)
  }

  lemma {:induction false} ValueOfDecimal(n: nat)
    ensures Value(Decimal(n)) == n
  {
    var s := Decimal(n);
    if n < 10 {
      assert s[..|s| - 1] == [];
    } else {
      ValueOfDecimal(n / 10);
      assert s[..|s| - 1] == Decimal(n / 10);
    }
  }

  /** And it is the shortest such text: no leading zero but in "0" itself. */
  lemma {:induction false} DecimalIsShortest(n: nat)
    ensures n > 0 ==> Decimal(n)[0] != '0'
    ensures Decimal(0) == "0"
  {
    if n >= 10 { DecimalIsShortest(n / 10); }
  }

  lemma DecimalInjective(m: nat, n: nat)
    requires Decimal(m) == Decimal(n)
    ensures m == n
  {
    ValueOfDecimal(m);
    ValueOfDecimal(n);
  }
}
