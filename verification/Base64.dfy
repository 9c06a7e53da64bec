/** The base 64 encoding of section 4 of RFC 4648, over byte strings. */
module Base64 {
  import opened Prelude

  function Digit(n: nat): char
    requires n < 64
  {
    if n < 26 then ('A' as int + n) as char
    else if n < 52 then ('a' as int + n - 26) as char
    else if n < 62 then ('0' as int + n - 52) as char
    else if n == 62 then '+' else '/'
  }

  function Value(c: char): Option<nat> {
    if 'A' <= c <= 'Z' then Some(c as int - 'A' as int)
    else if 'a' <= c <= 'z' then Some(c as int - 'a' as int + 26)
    else if '0' <= c <= '9' then Some(c as int - '0' as int + 52)
    else if c == '+' then Some(62)
    else if c == '/' then Some(63)
    else None
  }

  /** Three bytes as four 6-bit digits. */
  function Digits(a: nat, b: nat, c: nat): string
    requires a < 256 && b < 256 && c < 256
  {
    [Digit(a / 4), Digit(a % 4 * 16 + b / 16), Digit(b % 16 * 4 + c / 64), Digit(c % 64)]
  }

  function Encode(s: ByteString): string
    decreases |s|
  {
    if s == "" then ""
    else if |s| == 1 then Digits(s[0] as int, 0, 0)[..2] + "=="
    else if |s| == 2 then Digits(s[0] as int, s[1] as int, 0)[..3] + "="
    else Digits(s[0] as int, s[1] as int, s[2] as int) + Encode(s[3..])
  }

  /** The three bytes of four digits; padding counts as the digit zero. */
  function Three(p: nat, q: nat, r: nat, t: nat): string
    requires p < 64 && q < 64 && r < 64 && t < 64
  {
    [(p * 4 + q / 16) as char, (q % 16 * 16 + r / 4) as char, (r % 4 * 64 + t) as char]
  }

  function Group(s: string): Option<string>
    requires |s| >= 4
  {
    var p, q := Value(s[0]), Value(s[1]);
    var r := if s[2] == '=' && s[3] == '=' then Some(0) else Value(s[2]);
    var t := if s[3] == '=' then Some(0) else Value(s[3]);
    if p.Some? && q.Some? && r.Some? && t.Some? then Some(Three(p.value, q.value, r.value, t.value)) else None
  }

  /** Strict decoding: only the alphabet, padded to whole groups, padding only at the end. */
  function Decode(s: string): Option<string>
    decreases |s|
  {
    if s == "" then Some("")
    else if |s| < 4 then None
    else match Group(s)
         case None => None
         case Some(bytes) =>
           if s[3] == '=' then
             if |s| != 4 then None else if s[2] == '=' then Some(bytes[..1]) else Some(bytes[..2])
           else match Decode(s[4..])
                case None => None
                case Some(rest) => Some(bytes + rest)
  }

  lemma DigitValue(n: nat)
    requires n < 64
    ensures Value(Digit(n)) == Some(n) && Digit(n) != '='
  {
  }

  lemma ByteDigits(a: nat, b: nat, c: nat)
    requires a < 256 && b < 256 && c < 256
    ensures a / 4 < 64 && a % 4 * 16 + b / 16 < 64 && b % 16 * 4 + c / 64 < 64
    ensures a / 4 * 4 + (a % 4 * 16 + b / 16) / 16 == a
    ensures (a % 4 * 16 + b / 16) % 16 * 16 + (b % 16 * 4 + c / 64) / 4 == b
    ensures (b % 16 * 4 + c / 64) % 4 * 64 + c % 64 == c
  {
  }

  lemma GroupOfDigits(a: nat, b: nat, c: nat, rest: string)
    requires a < 256 && b < 256 && c < 256
    ensures Group(Digits(a, b, c) + rest) == Some([a as char, b as char, c as char]) && Digits(a, b, c)[3] != '=' && Digits(a, b, c)[2] != '='
    ensures c == 0 ==> Group(Digits(a, b, c)[..3] + "=") == Some([a as char, b as char, c as char])
    ensures c == 0 && b == 0 ==> Group(Digits(a, b, c)[..2] + "==") == Some([a as char, b as char, c as char])
  {
    ByteDigits(a, b, c);
    DigitValue(a / 4);
    DigitValue(a % 4 * 16 + b / 16);
    DigitValue(b % 16 * 4 + c / 64);
    DigitValue(c % 64);
  }

  lemma RoundTripOne(a: char)
    requires a as int < 256
    ensures Decode(Encode([a])) == Some([a])
  {
    GroupOfDigits(a as int, 0, 0, "");
    assert [a, 0 as char, 0 as char][..1] == [a];
  }

  lemma RoundTripTwo(a: char, b: char)
    requires a as int < 256 && b as int < 256
    ensures Decode(Encode([a, b])) == Some([a, b])
  {
    GroupOfDigits(a as int, b as int, 0, "");
    assert [a, b, 0 as char][..2] == [a, b];
  }

  lemma RoundTripMore(a: char, b: char, c: char, rest: string)
    requires a as int < 256 && b as int < 256 && c as int < 256 && Decode(rest).Some?
    ensures Decode(Digits(a as int, b as int, c as int) + rest) == Some([a, b, c] + Decode(rest).value)
  {
    GroupOfDigits(a as int, b as int, c as int, rest);
    assert (Digits(a as int, b as int, c as int) + rest)[4..] == rest;
  }

  /** Decoding undoes encoding, for every byte string. */
  lemma {:induction false} RoundTrip(s: ByteString)
    ensures Decode(Encode(s)) == Some(s)
    decreases |s|
  {
    if |s| == 1 {
      RoundTripOne(s[0]);
      assert s == [s[0]];
    } else if |s| == 2 {
      RoundTripTwo(s[0], s[1]);
      assert s == [s[0], s[1]];
    } else if |s| > 2 {
      RoundTrip(s[3..]);
      RoundTripMore(s[0], s[1], s[2], Encode(s[3..]));
      assert [s[0], s[1], s[2]] + s[3..] == s;
    }
  }

  /** The number of groups for a number of bytes. */
  function Thirds(n: nat): (k: nat)
    ensures k == (n + 2) / 3
  {
    if n == 0 then 0 else if n <= 3 then 1 else 1 + Thirds(n - 3)
  }

  lemma {:induction false} EncodedLength(s: ByteString)
    ensures |Encode(s)| == 4 * Thirds(|s|)
    decreases |s|
  {
    if |s| > 2 {
      EncodedLength(s[3..]);
    }
  }
}
