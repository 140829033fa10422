/** Text renderings the services produce and read back: lowercase hexadecimal
    (Python's `hex()`, `format(n, "02x")`, `bytes.hex()` and `bytes.fromhex()`),
    decimal numbers, newline-terminated lines, and byte-wise string order. */
module Text {
  import opened Util

  newtype byte = x: int | 0 <= x < 256

  predicate IsLowerHexChar(c: char)
  {
    '0' <= c <= '9' || 'a' <= c <= 'f'
  }

  predicate IsLowerHex(s: string)
  {
    forall i :: 0 <= i < |s| ==> IsLowerHexChar(s[i])
  }

  /** Value of a hexadecimal digit of either case; `None` for any other character. */
  function DigitValue(c: char): (v: Option<nat>)
    ensures v.Some? ==> v.value < 16
    ensures IsLowerHexChar(c) ==> v.Some?
  {
    if '0' <= c <= '9' then Some(c as int - '0' as int)
    else if 'a' <= c <= 'f' then Some(c as int - 'a' as int + 10)
    else if 'A' <= c <= 'F' then Some(c as int - 'A' as int + 10)
    else None
  }

  /** The lowercase digit for `d`. */
  function HexChar(d: nat): (c: char)
    requires d < 16
    ensures IsLowerHexChar(c)
    ensures DigitValue(c) == Some(d)
  {
    if d < 10 then ('0' as int + d) as char else ('a' as int + (d - 10)) as char
  }

  /** The number a string of lowercase hex digits denotes, most significant first. */
  function HexValue(s: string): nat
    requires IsLowerHex(s)
  {
    if s == [] then 0
    else HexValue(s[..|s| - 1]) * 16 + DigitValue(s[|s| - 1]).value
  }

  /** Minimal lowercase hex digits of `n` (`"0"` for zero). */
  function HexDigits(n: nat): (s: string)
    ensures |s| >= 1 && IsLowerHex(s)
    decreases n
  {
    if n < 16 then [HexChar(n)] else HexDigits(n / 16) + [HexChar(n % 16)]
  }

  lemma {:induction false} HexDigitsValue(n: nat)
    ensures HexValue(HexDigits(n)) == n
    decreases n
  {
    if n >= 16 {
      HexDigitsValue(n / 16);
      var s := HexDigits(n);
      assert s[..|s| - 1] == HexDigits(n / 16);
    }
  }

  /** No zero padding: only zero itself is written with a leading `0`. */
  lemma {:induction false} HexDigitsMinimal(n: nat)
    ensures HexDigits(n)[0] == '0' <==> n == 0
    decreases n
  {
    if n >= 16 {
      HexDigitsMinimal(n / 16);
    }
  }

  /** Python's `hex(n)` for a non-negative `n`. */
  function PyHex(n: nat): string
  {
    "0x" + HexDigits(n)
  }

  /** `hex(n)` is `0x`, then digits that denote `n`, with no padding. */
  lemma PyHexShape(n: nat)
    ensures |PyHex(n)| >= 3 && PyHex(n)[..2] == "0x"
    ensures IsLowerHex(PyHex(n)[2..]) && HexValue(PyHex(n)[2..]) == n
    ensures PyHex(n)[2] == '0' <==> n == 0
    ensures n == 0 ==> PyHex(n) == "0x0"
  {
    assert PyHex(n)[2..] == HexDigits(n);
    HexDigitsValue(n);
    HexDigitsMinimal(n);
  }

  /** Python's `f"{n:02x}"` for `n < 256`: exactly two lowercase digits. */
  function Hex2(n: nat): string
    requires n < 256
  {
    [HexChar(n / 16), HexChar(n % 16)]
  }

  lemma Hex2Value(n: nat)
    requires n < 256
    ensures |Hex2(n)| == 2 && IsLowerHex(Hex2(n))
    ensures HexValue(Hex2(n)) == n
  {
    var s := Hex2(n);
    assert s[..1] == [HexChar(n / 16)];
    assert s[..1][..0] == [];
    assert HexValue(s[..1]) == n / 16;
    assert HexValue(s) == (n / 16) * 16 + n % 16;
  }

  /** Two-digit padding differs from `hex()` only for values below 16. */
  lemma Hex2VersusPyHex(n: nat)
    requires n < 256
    ensures n >= 16 ==> PyHex(n) == "0x" + Hex2(n)
    ensures n < 16 ==> Hex2(n) == "0" + HexDigits(n)
  {
  }

  /** Decimal digits of `n`, as Python's `str()` writes them. */
  function DecimalNat(n: nat): (s: string)
    ensures |s| >= 1
    ensures forall i :: 0 <= i < |s| ==> '0' <= s[i] <= '9'
    decreases n
  {
    if n < 10 then [('0' as int + n) as char]
    else DecimalNat(n / 10) + [('0' as int + n % 10) as char]
  }

  /** Python's `str(i)` for any integer. */
  function Decimal(i: int): string
  {
    if i < 0 then "-" + DecimalNat(-i) else DecimalNat(i)
  }

  function DecimalValue(s: string): nat
    requires forall i :: 0 <= i < |s| ==> '0' <= s[i] <= '9'
  {
    if s == [] then 0
    else DecimalValue(s[..|s| - 1]) * 10 + (s[|s| - 1] as int - '0' as int)
  }

  lemma {:induction false} DecimalRoundTrip(n: nat)
    ensures DecimalValue(DecimalNat(n)) == n
    decreases n
  {
    if n >= 10 {
      DecimalRoundTrip(n / 10);
      var s := DecimalNat(n);
      assert s[..|s| - 1] == DecimalNat(n / 10);
    }
  }

  /** Python's `bytes.hex()`: two lowercase digits per byte. */
  function BytesHex(b: seq<byte>): (s: string)
    ensures |s| == 2 * |b| && IsLowerHex(s)
  {
    if b == [] then "" else Hex2(b[0] as nat) + BytesHex(b[1..])
  }

  /** The characters CPython's `Py_ISSPACE` accepts. */
  predicate IsAsciiSpace(c: char)
  {
    c == ' ' || c == '\t' || c == '\n' || c == '\r' || c as int == 11 || c as int == 12
  }

  /** Python's `bytes.fromhex(s)`: pairs of hex digits of either case, with
      whitespace allowed between pairs; `None` where Python raises `ValueError`. */
  function FromHex(s: string): Option<seq<byte>>
    decreases |s|
  {
    if s == [] then Some([])
    else if IsAsciiSpace(s[0]) then FromHex(s[1..])
    else if |s| >= 2 && DigitValue(s[0]).Some? && DigitValue(s[1]).Some? then
      match FromHex(s[2..])
      case None => None
      case Some(rest) => Some([(DigitValue(s[0]).value * 16 + DigitValue(s[1]).value) as byte] + rest)
    else None
  }

  /** `bytes.fromhex(b.hex()) == b`. */
  lemma {:induction false} FromHexBytesHex(b: seq<byte>)
    ensures FromHex(BytesHex(b)) == Some(b)
  {
    if b != [] {
      var s := BytesHex(b);
      var n := b[0] as nat;
      assert s[..2] == Hex2(n);
      assert s[2..] == BytesHex(b[1..]);
      FromHexBytesHex(b[1..]);
      assert n / 16 * 16 + n % 16 == n;
      assert [b[0]] + b[1..] == b;
    }
  }

  lemma HexCharDigit(c: char)
    requires IsLowerHexChar(c)
    ensures HexChar(DigitValue(c).value) == c
  {
  }

  /** Two lowercase digits read as a byte are written back as themselves. */
  lemma HexPair(c0: char, c1: char)
    requires IsLowerHexChar(c0) && IsLowerHexChar(c1)
    ensures var v := (DigitValue(c0).value * 16 + DigitValue(c1).value) as byte;
            Hex2(v as nat) == [c0, c1]
  {
    var hi := DigitValue(c0).value;
    var lo := DigitValue(c1).value;
    var v := (hi * 16 + lo) as byte;
    assert v as nat / 16 == hi && v as nat % 16 == lo;
    HexCharDigit(c0);
    HexCharDigit(c1);
  }

  /** `bytes.fromhex(s).hex() == s` for an even number of lowercase digits,
      the form `secrets.token_hex` and `bytes.hex()` produce. */
  lemma {:induction false} FromHexLowerHex(s: string)
    requires IsLowerHex(s) && |s| % 2 == 0
    ensures FromHex(s).Some? && BytesHex(FromHex(s).value) == s
    decreases |s|
  {
    if s != [] {
      assert IsLowerHexChar(s[0]) && IsLowerHexChar(s[1]);
      assert IsLowerHex(s[2..]) by {
        forall i | 0 <= i < |s[2..]| ensures IsLowerHexChar(s[2..][i]) {
          assert s[2..][i] == s[i + 2];
        }
      }
      FromHexLowerHex(s[2..]);
      FromHexPairStep(s);
    }
  }

  /** One pair of digits in front of a string that reads back as itself. */
  lemma FromHexPairStep(s: string)
    requires |s| >= 2 && IsLowerHexChar(s[0]) && IsLowerHexChar(s[1])
    requires FromHex(s[2..]).Some? && BytesHex(FromHex(s[2..]).value) == s[2..]
    ensures FromHex(s).Some? && BytesHex(FromHex(s).value) == s
  {
    var v := (DigitValue(s[0]).value * 16 + DigitValue(s[1]).value) as byte;
    var rest := FromHex(s[2..]).value;
    assert FromHex(s) == Some([v] + rest);
    BytesHexCons(v, rest);
    HexPair(s[0], s[1]);
    SplitTwo(s);
  }

  lemma SplitTwo(s: string)
    requires |s| >= 2
    ensures [s[0], s[1]] + s[2..] == s
  {
  }

  lemma BytesHexCons(v: byte, rest: seq<byte>)
    ensures BytesHex([v] + rest) == Hex2(v as nat) + BytesHex(rest)
  {
    assert ([v] + rest)[1..] == rest;
  }

  /** Lines each followed by `"\n"`, concatenated (the text a series of
      `cfg += line + "\n"` builds). */
  function JoinLines(ls: seq<string>): string
  {
    if ls == [] then "" else ls[0] + "\n" + JoinLines(ls[1..])
  }

  /** The text of a non-empty list of lines starts with its first line. */
  lemma JoinLinesFirst(ls: seq<string>)
    requires ls != []
    ensures var h := ls[0] + "\n"; |h| <= |JoinLines(ls)| && JoinLines(ls)[..|h|] == h
  {
    assert JoinLines(ls) == (ls[0] + "\n") + JoinLines(ls[1..]);
  }

  lemma {:induction false} JoinLinesAppend(ls: seq<string>, l: string)
    ensures JoinLines(ls + [l]) == JoinLines(ls) + l + "\n"
  {
    if ls != [] {
      assert (ls + [l])[1..] == ls[1..] + [l];
      JoinLinesAppend(ls[1..], l);
    } else {
      assert ls + [l] == [l];
    }
  }

  lemma {:induction false} JoinLinesConcat(a: seq<string>, b: seq<string>)
    ensures JoinLines(a + b) == JoinLines(a) + JoinLines(b)
  {
    if a != [] {
      assert (a + b)[1..] == a[1..] + b;
      JoinLinesConcat(a[1..], b);
    } else {
      assert a + b == b;
    }
  }

  /** A prefix of the lines gives a prefix of the text. */
  lemma JoinLinesPrefix(a: seq<string>, b: seq<string>)
    requires a <= b
    ensures JoinLines(a) <= JoinLines(b)
  {
    assert b == a + b[|a|..];
    JoinLinesConcat(a, b[|a|..]);
    PrefixAppend(JoinLines(a), JoinLines(a), JoinLines(b[|a|..]));
  }

  /** Length of the first line of `s` (up to the first `"\n"` or the end). */
  function LineLength(s: string): (k: nat)
    ensures k <= |s|
    ensures forall i :: 0 <= i < k ==> s[i] != '\n'
    ensures k < |s| ==> s[k] == '\n'
  {
    if s == [] || s[0] == '\n' then 0 else 1 + LineLength(s[1..])
  }

  /** The lines of `s`, as reading it line by line finds them. */
  function SplitLines(s: string): seq<string>
    decreases |s|
  {
    if s == [] then []
    else
      var k := LineLength(s);
      if k == |s| then [s] else [s[..k]] + SplitLines(s[k + 1..])
  }

  /** Lines without a newline of their own are read back exactly as written. */
  lemma {:induction false} SplitJoinLines(ls: seq<string>)
    requires forall i :: 0 <= i < |ls| ==> '\n' !in ls[i]
    ensures SplitLines(JoinLines(ls)) == ls
  {
    if ls != [] {
      var l := ls[0];
      var rest := JoinLines(ls[1..]);
      var s := JoinLines(ls);
      assert s == l + "\n" + rest;
      var k := LineLength(s);
      assert k == |l| by {
        assert forall i :: 0 <= i < |l| ==> s[i] == l[i];
        assert s[|l|] == '\n';
      }
      assert s[..k] == l;
      assert s[k + 1..] == rest;
      SplitJoinLines(ls[1..]);
    }
  }

  /** Code-point order of strings, a shorter prefix first (the order of a
      byte-wise collation). */
  predicate StrLe(a: string, b: string)
  {
    a == [] || (b != [] && (a[0] < b[0] || (a[0] == b[0] && StrLe(a[1..], b[1..]))))
  }

  lemma {:induction false} StrLeTotal(a: string, b: string)
    ensures StrLe(a, b) || StrLe(b, a)
  {
    if a != [] && b != [] && a[0] == b[0] {
      StrLeTotal(a[1..], b[1..]);
    }
  }

  lemma {:induction false} StrLeTransitive(a: string, b: string, c: string)
    requires StrLe(a, b) && StrLe(b, c)
    ensures StrLe(a, c)
  {
    if a != [] && b != [] && c != [] && a[0] == b[0] && b[0] == c[0] {
      StrLeTransitive(a[1..], b[1..], c[1..]);
    }
  }
}
