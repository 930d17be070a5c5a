/**
 * The standard base64 encoding with padding: section 4 of RFC 4648, as encoding/base64's StdEncoding reads and writes
 * it.
 */
module Base64 {
  import opened Wrappers
  import opened Bytes

  type sextet = x: int | 0 <= x < 64

  /** Table 1 of RFC 4648. */
  function CharOf(v: sextet): char {
    if v < 26 then (v + 'A' as int) as char
    else if v < 52 then (v - 26 + 'a' as int) as char
    else if v < 62 then (v - 52 + '0' as int) as char
    else if v == 62 then '+' else '/'
  }

  predicate IsBase64Char(c: char) {
    'A' <= c <= 'Z' || 'a' <= c <= 'z' || '0' <= c <= '9' || c == '+' || c == '/'
  }

  function IndexOf(c: char): sextet
    requires IsBase64Char(c)
  {
    if 'A' <= c <= 'Z' then c as int - 'A' as int
    else if 'a' <= c <= 'z' then c as int - 'a' as int + 26
    else if '0' <= c <= '9' then c as int - '0' as int + 52
    else if c == '+' then 62 else 63
  }

  lemma AlphabetRoundTrip(v: sextet)
    ensures IsBase64Char(CharOf(v)) && IndexOf(CharOf(v)) == v
  {
  }

  /** The letters stand in the order of that table. */
  lemma AlphabetInOrder(v: sextet)
    ensures CharOf(0) == 'A' && CharOf(26) == 'a' && CharOf(52) == '0' && CharOf(62) == '+' && CharOf(63) == '/'
    ensures v < 25 || 26 <= v < 51 || 52 <= v < 61 ==> CharOf(v + 1) as int == CharOf(v) as int + 1
  {
  }

  function Group3(x: byte, y: byte, z: byte): string {
    [CharOf(x / 4), CharOf(x % 4 * 16 + y / 16), CharOf(y % 16 * 4 + z / 64), CharOf(z % 64)]
  }

  function Group2(x: byte, y: byte): string {
    [CharOf(x / 4), CharOf(x % 4 * 16 + y / 16), CharOf(y % 16 * 4), '=']
  }

  function Group1(x: byte): string {
    [CharOf(x / 4), CharOf(x % 4 * 16), '=', '=']
  }

  /** Each group of three bytes as four characters; a shorter final group is padded. */
  function Encode(bs: Blob): string {
    if bs == [] then ""
    else if |bs| == 1 then Group1(bs[0])
    else if |bs| == 2 then Group2(bs[0], bs[1])
    else Group3(bs[0], bs[1], bs[2]) + Encode(bs[3..])
  }

  function Byte0(a: sextet, b: sextet): byte {
    a * 4 + b / 16
  }

  function Byte1(b: sextet, c: sextet): byte {
    b % 16 * 16 + c / 4
  }

  function Byte2(c: sextet, d: sextet): byte {
    c % 4 * 64 + d
  }

  /** Whole groups of four; padding only closes the last group. Unused bits of a padded group are not looked at. */
  function Decode(s: string): Option<Blob> {
    if s == "" then Some([])
    else if |s| < 4 || !IsBase64Char(s[0]) || !IsBase64Char(s[1]) then None
    else
      var a, b := IndexOf(s[0]), IndexOf(s[1]);
      if s[2..] == "==" then Some([Byte0(a, b)])
      else if !IsBase64Char(s[2]) then None
      else
        var c := IndexOf(s[2]);
        if s[3..] == "=" then Some([Byte0(a, b), Byte1(b, c)])
        else if !IsBase64Char(s[3]) then None
        else
          var rest := Decode(s[4..]);
          if rest.None? then None
          else Some([Byte0(a, b), Byte1(b, c), Byte2(c, IndexOf(s[3]))] + rest.value)
  }

  lemma Regroup(x: byte, y: byte, z: byte)
    ensures Byte0(x / 4, x % 4 * 16 + y / 16) == x
    ensures Byte1(x % 4 * 16 + y / 16, y % 16 * 4 + z / 64) == y
    ensures Byte2(y % 16 * 4 + z / 64, z % 64) == z
  {
  }

  lemma Group3Chars(x: byte, y: byte, z: byte)
    ensures var s := Group3(x, y, z);
            && (forall i :: 0 <= i < 4 ==> IsBase64Char(s[i]))
            && IndexOf(s[0]) == x / 4 && IndexOf(s[1]) == x % 4 * 16 + y / 16
            && IndexOf(s[2]) == y % 16 * 4 + z / 64 && IndexOf(s[3]) == z % 64
  {
    AlphabetRoundTrip(x / 4);
    AlphabetRoundTrip(x % 4 * 16 + y / 16);
    AlphabetRoundTrip(y % 16 * 4 + z / 64);
    AlphabetRoundTrip(z % 64);
  }

  lemma DecodeWhole(s: string)
    requires |s| >= 4 && forall i :: 0 <= i < 4 ==> IsBase64Char(s[i])
    ensures Decode(s).Some? <==> Decode(s[4..]).Some?
    ensures Decode(s).Some? ==>
              Decode(s).value == [Byte0(IndexOf(s[0]), IndexOf(s[1])), Byte1(IndexOf(s[1]), IndexOf(s[2])),
                                  Byte2(IndexOf(s[2]), IndexOf(s[3]))] + Decode(s[4..]).value
  {
    assert s[2..][0] == s[2] && s[3..][0] == s[3];
  }

  lemma DecodeGroup2(x: byte, y: byte)
    ensures Decode(Group2(x, y)) == Some([x, y])
    ensures forall i :: 0 <= i < 3 ==> IsBase64Char(Group2(x, y)[i])
  {
    var s := Group2(x, y);
    AlphabetRoundTrip(x / 4);
    AlphabetRoundTrip(x % 4 * 16 + y / 16);
    AlphabetRoundTrip(y % 16 * 4);
    assert s[2..][0] == s[2] && s[3..] == "=";
    Regroup(x, y, 0);
  }

  lemma DecodeGroup1(x: byte)
    ensures Decode(Group1(x)) == Some([x])
    ensures forall i :: 0 <= i < 2 ==> IsBase64Char(Group1(x)[i])
  {
    AlphabetRoundTrip(x / 4);
    AlphabetRoundTrip(x % 4 * 16);
    assert Group1(x)[2..] == "==";
    Regroup(x, 0, 0);
  }

  /** A whole group in front of a text puts its three bytes in front of what the text decodes to. */
  lemma GroupDecodes(x: byte, y: byte, z: byte, rest: string)
    ensures Decode(Group3(x, y, z) + rest)
         == if Decode(rest).None? then None else Some([x, y, z] + Decode(rest).value)
  {
    var s := Group3(x, y, z) + rest;
    Group3Chars(x, y, z);
    Regroup(x, y, z);
    assert s[4..] == rest && forall i :: 0 <= i < 4 ==> s[i] == Group3(x, y, z)[i];
    DecodeWhole(s);
  }

  /** Four characters are the digits, in base 64, of the number whose digits in base 256 are the three bytes. */
  lemma GroupIsNumber(x: byte, y: byte, z: byte)
    ensures var s := Group3(x, y, z);
            && (forall i :: 0 <= i < 4 ==> IsBase64Char(s[i]))
            && 262_144 * IndexOf(s[0]) + 4_096 * IndexOf(s[1]) + 64 * IndexOf(s[2]) + IndexOf(s[3])
            == 65_536 * x + 256 * y + z
  {
    Group3Chars(x, y, z);
  }

  /** The test vectors of section 10 of RFC 4648 for "f", "fo" and "foobar". */
  lemma TestVectors()
    ensures Encode([102]) == "Zg==" && Encode([102, 111]) == "Zm8="
    ensures Encode([102, 111, 111, 98, 97, 114]) == "Zm9vYmFy"
  {
    var bar := [98, 97, 114];
    assert ([102, 111, 111, 98, 97, 114])[3..] == bar && bar[3..] == [];
  }

  /** Decoding what was encoded gives the bytes back. */
  lemma {:induction false} EncodeDecodes(bs: Blob)
    ensures Decode(Encode(bs)) == Some(bs)
  {
    if bs == [] {
    } else if |bs| == 1 {
      DecodeGroup1(bs[0]);
      assert bs == [bs[0]];
    } else if |bs| == 2 {
      DecodeGroup2(bs[0], bs[1]);
      assert bs == [bs[0], bs[1]];
    } else {
      EncodeDecodes(bs[3..]);
      LongDecodes(bs, bs[3..], Encode(bs[3..]));
    }
  }

  lemma LongDecodes(bs: Blob, rest: Blob, text: string)
    requires 3 <= |bs| && rest == bs[3..] && Decode(text) == Some(rest)
    ensures Decode(Group3(bs[0], bs[1], bs[2]) + text) == Some(bs)
  {
    GroupDecodes(bs[0], bs[1], bs[2], text);
    assert bs == [bs[0], bs[1], bs[2]] + rest;
  }

  predicate InAlphabet(s: string) {
    forall i :: 0 <= i < |s| ==> IsBase64Char(s[i]) || s[i] == '='
  }

  lemma AlphabetConcat(s: string, t: string)
    requires InAlphabet(s) && InAlphabet(t)
    ensures InAlphabet(s + t)
  {
  }

  lemma GroupShape(x: byte, y: byte, z: byte, rest: string)
    requires InAlphabet(rest)
    ensures |Group3(x, y, z) + rest| == |rest| + 4 && InAlphabet(Group3(x, y, z) + rest)
  {
    Group3Chars(x, y, z);
    AlphabetConcat(Group3(x, y, z), rest);
  }

  lemma OneMoreGroup(n: nat)
    requires 3 <= n
    ensures (n - 3 + 2) / 3 * 4 + 4 == (n + 2) / 3 * 4
  {
  }

  /** Encoding uses only the alphabet and padding, four characters per started group of three bytes. */
  lemma {:induction false} EncodedShape(bs: Blob)
    ensures |Encode(bs)| == (|bs| + 2) / 3 * 4 && InAlphabet(Encode(bs))
  {
    if bs == [] {
    } else if |bs| == 1 {
      DecodeGroup1(bs[0]);
    } else if |bs| == 2 {
      DecodeGroup2(bs[0], bs[1]);
    } else {
      EncodedShape(bs[3..]);
      GroupShape(bs[0], bs[1], bs[2], Encode(bs[3..]));
      OneMoreGroup(|bs|);
    }
  }

  /** The leftover bits of the last padded group are zero, as every encoder must produce it (RFC 4648 section 3.5). */
  predicate Canonical(s: string) {
    |s| >= 4 ==>
      if |s| > 4 then Canonical(s[4..])
      else
        && (s[2] == '=' && IsBase64Char(s[1]) ==> IndexOf(s[1]) % 16 == 0)
        && (s[2] != '=' && s[3] == '=' && IsBase64Char(s[2]) ==> IndexOf(s[2]) % 4 == 0)
  }

  lemma Ungroup(a: sextet, b: sextet, c: sextet, d: sextet)
    ensures Byte0(a, b) / 4 == a
    ensures Byte0(a, b) % 4 * 16 + Byte1(b, c) / 16 == b
    ensures Byte1(b, c) % 16 * 4 + Byte2(c, d) / 64 == c
    ensures Byte2(c, d) % 64 == d
    ensures b % 16 == 0 ==> Byte0(a, b) % 4 * 16 == b
    ensures c % 4 == 0 ==> Byte1(b, c) % 16 * 4 == c
  {
  }

  lemma IndexRoundTrip(c: char)
    requires IsBase64Char(c)
    ensures CharOf(IndexOf(c)) == c
  {
  }

  lemma RegroupChars(s: string)
    requires |s| == 4 && forall i :: 0 <= i < 4 ==> IsBase64Char(s[i])
    ensures var a, b, c, d := IndexOf(s[0]), IndexOf(s[1]), IndexOf(s[2]), IndexOf(s[3]);
            Group3(Byte0(a, b), Byte1(b, c), Byte2(c, d)) == s
  {
    IndexRoundTrip(s[0]);
    IndexRoundTrip(s[1]);
    IndexRoundTrip(s[2]);
    IndexRoundTrip(s[3]);
    Ungroup(IndexOf(s[0]), IndexOf(s[1]), IndexOf(s[2]), IndexOf(s[3]));
  }

  lemma WholeGroup(s: string)
    requires |s| >= 4 && forall i :: 0 <= i < 4 ==> IsBase64Char(s[i])
    requires Decode(s).Some?
    ensures Decode(s[4..]).Some?
    ensures Encode(Decode(s).value) == s[..4] + Encode(Decode(s[4..]).value)
    ensures Canonical(s) <==> Canonical(s[4..])
  {
    DecodeWhole(s);
    RegroupChars(s[..4]);
    var bs, rest := Decode(s).value, Decode(s[4..]).value;
    assert |bs| >= 3 && bs[3..] == rest;
    if |s| == 4 {
      assert s[4..] == "";
    }
  }

  lemma WholeStart(s: string)
    requires Decode(s).Some? && s != "" && s[2..] != "==" && s[3..] != "="
    ensures |s| >= 4 && forall i :: 0 <= i < 4 ==> IsBase64Char(s[i])
  {
  }

  lemma PaddedGroup(s: string)
    requires Decode(s).Some? && s != "" && (s[2..] == "==" || s[3..] == "=")
    ensures Encode(Decode(s).value) == s <==> Canonical(s)
  {
    var a, b := IndexOf(s[0]), IndexOf(s[1]);
    IndexRoundTrip(s[0]);
    IndexRoundTrip(s[1]);
    if s[2..] == "==" {
      Ungroup(a, b, 0, 0);
      assert s[2] == '=' && s[3] == '=' && |s| == 4 by { assert s[2..][0] == '=' && s[2..][1] == '='; }
      AlphabetRoundTrip(Byte0(a, b) % 4 * 16);
    } else {
      assert s[3] == '=' && |s| == 4 by { assert s[3..][0] == '='; }
      assert IsBase64Char(s[2]);
      var c := IndexOf(s[2]);
      IndexRoundTrip(s[2]);
      Ungroup(a, b, c, 0);
      AlphabetRoundTrip(Byte1(b, c) % 16 * 4);
    }
  }

  /** Text that decodes is the encoding of its bytes exactly when it is canonical; the reader accepts more than that. */
  lemma {:induction false} DecodeEncodes(s: string)
    requires Decode(s).Some?
    ensures Encode(Decode(s).value) == s <==> Canonical(s)
  {
    if s == "" {
    } else if s[2..] == "==" || s[3..] == "=" {
      PaddedGroup(s);
    } else {
      WholeStart(s);
      WholeGroup(s);
      DecodeEncodes(s[4..]);
      assert s == s[..4] + s[4..];
    }
  }
}
