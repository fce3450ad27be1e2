/** The base 64 encoding of section 4 of RFC 4648 (Go's `base64.StdEncoding`: the
    standard alphabet, with `=` padding), used for the PLAIN payload at xmpp.go:180-182.
    A Go string is a sequence of bytes; here each char of a `string` stands for one byte. */
module Base64 {
  import opened Errors

  /** Every char is a byte value: the shape of a Go `string`. */
  predicate IsOctets(s: string)
  {
    forall i | 0 <= i < |s| :: s[i] as int < 256
  }

  /** Table 1 of RFC 4648: value `v` is written as this char. */
  function Digit(v: nat): (c: char)
    requires v < 64
  {
    if v < 26 then ('A' as int + v) as char
    else if v < 52 then ('a' as int + (v - 26)) as char
    else if v < 62 then ('0' as int + (v - 52)) as char
    else if v == 62 then '+'
    else '/'
  }

  /** The value of an alphabet char, or -1 for any other char. */
  function ValueOf(c: char): (v: int)
    ensures -1 <= v < 64
    ensures v >= 0 ==> Digit(v) == c
  {
    if 'A' <= c <= 'Z' then c as int - 'A' as int
    else if 'a' <= c <= 'z' then c as int - 'a' as int + 26
    else if '0' <= c <= '9' then c as int - '0' as int + 52
    else if c == '+' then 62
    else if c == '/' then 63
    else -1
  }

  lemma ValueOfDigit(v: nat)
    requires v < 64
    ensures ValueOf(Digit(v)) == v
  {
  }

  predicate IsAlphabet(c: char)
  {
    ValueOf(c) >= 0
  }

  /** Three bytes become four digits. */
  function Quantum(a: int, b: int, c: int): (r: string)
    requires 0 <= a < 256 && 0 <= b < 256 && 0 <= c < 256
  {
    [Digit(a / 4), Digit(a % 4 * 16 + b / 16), Digit(b % 16 * 4 + c / 64), Digit(c % 64)]
  }

  /** Two final bytes become three digits and one `=`. */
  function Quantum2(a: int, b: int): (r: string)
    requires 0 <= a < 256 && 0 <= b < 256
  {
    [Digit(a / 4), Digit(a % 4 * 16 + b / 16), Digit(b % 16 * 4), '=']
  }

  /** One final byte becomes two digits and two `=`. */
  function Quantum1(a: int): (r: string)
    requires 0 <= a < 256
  {
    [Digit(a / 4), Digit(a % 4 * 16), '=', '=']
  }

  /** `base64.StdEncoding.Encode`. */
  function Encode(s: string): (r: string)
    requires IsOctets(s)
    decreases |s|
  {
    if |s| == 0 then ""
    else if |s| == 1 then Quantum1(s[0] as int)
    else if |s| == 2 then Quantum2(s[0] as int, s[1] as int)
    else Quantum(s[0] as int, s[1] as int, s[2] as int) + Encode(s[3..])
  }

  /** `base64.StdEncoding.EncodedLen`: four chars for every started group of three bytes. */
  function EncodedLen(n: nat): nat
  {
    (n + 2) / 3 * 4
  }

  /** The encoding fills exactly `EncodedLen` bytes, the size of the buffer made at xmpp.go:181. */
  lemma {:induction false} EncodeLength(s: string)
    requires IsOctets(s)
    ensures |Encode(s)| == EncodedLen(|s|)
  {
    if |s| > 2 {
      EncodeLength(s[3..]);
      EncodedLenStep(|s|);
    }
  }

  lemma EncodedLenStep(n: nat)
    requires n >= 3
    ensures EncodedLen(n) == EncodedLen(n - 3) + 4
  {
    assert (n + 2) / 3 == (n - 3 + 2) / 3 + 1;
  }

  /** Alphabet chars, with `=` allowed only in the last two places. */
  predicate IsPadded(r: string)
  {
    forall i | 0 <= i < |r| :: IsAlphabet(r[i]) || (r[i] == '=' && i >= |r| - 2)
  }

  /** The output is made of alphabet chars followed by at most two `=`. */
  lemma {:induction false} EncodeAlphabet(s: string)
    requires IsOctets(s)
    ensures IsPadded(Encode(s))
  {
    var r := Encode(s);
    if |s| == 1 {
      ValueOfDigit(s[0] as int / 4);
      ValueOfDigit(s[0] as int % 4 * 16);
    } else if |s| == 2 {
      ValueOfDigit(s[0] as int / 4);
      ValueOfDigit(s[0] as int % 4 * 16 + s[1] as int / 16);
      ValueOfDigit(s[1] as int % 16 * 4);
    } else if |s| > 2 {
      var a, b, c := s[0] as int, s[1] as int, s[2] as int;
      ValueOfDigit(a / 4);
      ValueOfDigit(a % 4 * 16 + b / 16);
      ValueOfDigit(b % 16 * 4 + c / 64);
      ValueOfDigit(c % 64);
      EncodeAlphabet(s[3..]);
      var q, rest := Quantum(a, b, c), Encode(s[3..]);
      assert r == q + rest;
      forall i | 0 <= i < |r|
        ensures IsAlphabet(r[i]) || (r[i] == '=' && i >= |r| - 2)
      {
        if i >= 4 {
          assert r[i] == rest[i - 4];
          assert IsAlphabet(rest[i - 4]) || (rest[i - 4] == '=' && i - 4 >= |rest| - 2);
        } else {
          assert r[i] == q[i];
        }
      }
    }
  }

  /** The three bytes behind four alphabet values. */
  function Bytes3(v0: int, v1: int, v2: int, v3: int): string
    requires 0 <= v0 < 64 && 0 <= v1 < 64 && 0 <= v2 < 64 && 0 <= v3 < 64
  {
    [(v0 * 4 + v1 / 16) as char, (v1 % 16 * 16 + v2 / 4) as char, (v2 % 4 * 64 + v3) as char]
  }

  /** Reads the encoding back; `None` for text that is not a padded encoding.
      The partner of `Encode`, which the client itself never calls. */
  function Decode(r: string): (s: Option<string>)
    decreases |r|
  {
    if |r| == 0 then Some("")
    else if |r| < 4 then None
    else
      var v0, v1, v2, v3 := ValueOf(r[0]), ValueOf(r[1]), ValueOf(r[2]), ValueOf(r[3]);
      if v0 < 0 || v1 < 0 then None
      else if |r| == 4 && r[2] == '=' && r[3] == '=' then
        Some([(v0 * 4 + v1 / 16) as char])
      else if v2 < 0 then None
      else if |r| == 4 && r[3] == '=' then
        Some([(v0 * 4 + v1 / 16) as char, (v1 % 16 * 16 + v2 / 4) as char])
      else if v3 < 0 then None
      else
        match Decode(r[4..])
        case None => None
        case Some(rest) => Some(Bytes3(v0, v1, v2, v3) + rest)
  }

  /** The arithmetic of one group: the four values of `Quantum` give the three bytes back. */
  lemma Bytes3Quantum(a: int, b: int, c: int)
    requires 0 <= a < 256 && 0 <= b < 256 && 0 <= c < 256
    ensures Bytes3(a / 4, a % 4 * 16 + b / 16, b % 16 * 4 + c / 64, c % 64) == [a as char, b as char, c as char]
  {
    var v1, v2 := a % 4 * 16 + b / 16, b % 16 * 4 + c / 64;
    assert v1 / 16 == a % 4 && v1 % 16 == b / 16;
    assert v2 / 4 == b % 16 && v2 % 4 == c / 64;
  }

  /** Reading a full group and then the rest. */
  lemma DecodeQuantum(a: int, b: int, c: int, rest: string)
    requires 0 <= a < 256 && 0 <= b < 256 && 0 <= c < 256
    ensures Decode(Quantum(a, b, c) + rest) ==
      match Decode(rest)
      case None => None
      case Some(t) => Some([a as char, b as char, c as char] + t)
  {
    var v0, v1, v2, v3 := a / 4, a % 4 * 16 + b / 16, b % 16 * 4 + c / 64, c % 64;
    ValueOfDigit(v0);
    ValueOfDigit(v1);
    ValueOfDigit(v2);
    ValueOfDigit(v3);
    var r := Quantum(a, b, c) + rest;
    assert r[..4] == Quantum(a, b, c) && r[4..] == rest;
    Bytes3Quantum(a, b, c);
  }

  /** A final single byte comes back from its two digits and two `=`. */
  lemma DecodeQuantum1(a: int)
    requires 0 <= a < 256
    ensures Decode(Quantum1(a)) == Some([a as char])
  {
    ValueOfDigit(a / 4);
    ValueOfDigit(a % 4 * 16);
    assert a / 4 * 4 + (a % 4 * 16) / 16 == a;
  }

  /** Two final bytes come back from their three digits and one `=`. */
  lemma DecodeQuantum2(a: int, b: int)
    requires 0 <= a < 256 && 0 <= b < 256
    ensures Decode(Quantum2(a, b)) == Some([a as char, b as char])
  {
    var v1 := a % 4 * 16 + b / 16;
    ValueOfDigit(a / 4);
    ValueOfDigit(v1);
    ValueOfDigit(b % 16 * 4);
    assert v1 / 16 == a % 4 && v1 % 16 == b / 16;
  }

  /** Decoding undoes encoding. */
  lemma {:induction false} DecodeEncode(s: string)
    requires IsOctets(s)
    ensures Decode(Encode(s)) == Some(s)
  {
    if |s| == 1 {
      DecodeQuantum1(s[0] as int);
      assert [s[0] as int as char] == s;
    } else if |s| == 2 {
      DecodeQuantum2(s[0] as int, s[1] as int);
      assert [s[0] as int as char, s[1] as int as char] == s;
    } else if |s| > 2 {
      var a, b, c := s[0] as int, s[1] as int, s[2] as int;
      DecodeEncode(s[3..]);
      DecodeQuantum(a, b, c, Encode(s[3..]));
      assert [a as char, b as char, c as char] + s[3..] == s;
    }
  }
}
