/** Key addresses: a hex-encoded public key at the domain "yggmail". */
module Addresses {
  import opened Base
  import opened Tables

  const DOMAIN := "yggmail"
  const KEY_SIZE := 32

  // --------------------------------------------------------------------- hex

  function HexVal(c: char): Option<int> {
    if '0' <= c <= '9' then Some(c as int - '0' as int)
    else if 'a' <= c <= 'f' then Some(c as int - 'a' as int + 10)
    else if 'A' <= c <= 'F' then Some(c as int - 'A' as int + 10)
    else None
  }

  function HexDigit(n: int): char
    requires 0 <= n < 16
  {
    if n < 10 then '0' + n as char else 'a' + (n - 10) as char
  }

  function HexByte(b: byte): (s: string)
    ensures |s| == 2
  {
    [HexDigit(b as int / 16), HexDigit(b as int % 16)]
  }

  /** Go's `hex.EncodeToString`. */
  function HexEncode(bs: Bytes): (s: string)
    ensures |s| == 2 * |bs|
  {
    if bs == [] then "" else HexByte(bs[0]) + HexEncode(bs[1..])
  }

  /** Go's `hex.DecodeString`: either case, an even number of digits. */
  function HexDecode(s: string): (r: Option<Bytes>)
    ensures r.Some? ==> |s| == 2 * |r.value|
  {
    if s == "" then Some([])
    else if |s| == 1 then None
    else
      var hi, lo := HexVal(s[0]), HexVal(s[1]);
      var rest := HexDecode(s[2..]);
      if hi.None? || lo.None? || rest.None? then None
      else Some([(hi.value * 16 + lo.value) as byte] + rest.value)
  }

  // ----------------------------------------------------------------- parsing

  /** Go's `strings.LastIndex(s, "@")`. */
  function LastAt(s: string): (i: int)
    ensures -1 <= i < |s|
    ensures i >= 0 ==> s[i] == '@'
    ensures forall j :: i < j < |s| ==> s[j] != '@'
  {
    if s == "" then -1 else if s[|s| - 1] == '@' then |s| - 1 else LastAt(s[..|s| - 1])
  }

  /** Copying into a fresh buffer of key size: zero padding or truncation. */
  function Fit(bs: Bytes): (k: Bytes)
    ensures |k| == KEY_SIZE
  {
    if |bs| >= KEY_SIZE then bs[..KEY_SIZE] else bs + seq(KEY_SIZE - |bs|, _ => 0 as byte)
  }

  /** Without an '@' the domain test sees the whole text, and the slice before it panics. */
  function ParseAddress(email: string): (r: Reply<Bytes>)
    ensures r.Ok? ==> |r.value| == KEY_SIZE
  {
    var at := LastAt(email);
    if at == 0 then Err(Refused)
    else if email[at + 1..] != DOMAIN then Err(Refused)
    else if at < 0 then Err(Crash)
    else
      var pk := HexDecode(email[..at]);
      if pk.None? then Err(Refused) else Ok(Fit(pk.value))
  }

  function Address(local_: string): string {
    local_ + "@" + DOMAIN
  }

  // -------------------------------------------------------------- hex lemmas

  lemma {:induction false} DecodeEncode(bs: Bytes)
    ensures HexDecode(HexEncode(bs)) == Some(bs)
  {
    if bs != [] {
      DecodeEncode(bs[1..]);
      DecodeByte(bs[0], HexEncode(bs[1..]));
      assert [bs[0]] + bs[1..] == bs;
    }
  }

  lemma DecodeByte(b: byte, rest: string)
    requires HexDecode(rest).Some?
    ensures HexDecode(HexByte(b) + rest) == Some([b] + HexDecode(rest).value)
  {
    var s := HexByte(b) + rest;
    assert s[2..] == rest && s[0] == HexByte(b)[0] && s[1] == HexByte(b)[1];
    ValOfByte(b);
  }

  lemma ValOfByte(b: byte)
    ensures var s := HexByte(b);
      && HexVal(s[0]).Some? && HexVal(s[1]).Some?
      && HexVal(s[0]).value * 16 + HexVal(s[1]).value == b as int
  {
    ValOfDigit(b as int / 16);
    ValOfDigit(b as int % 16);
  }

  lemma ValOfDigit(n: int)
    requires 0 <= n < 16
    ensures HexVal(HexDigit(n)) == Some(n)
  {
  }

  function LowerChar(c: char): char {
    if 'A' <= c <= 'F' then HexDigit(c as int - 'A' as int + 10) else c
  }

  function Lower(s: string): (r: string)
    ensures |r| == |s|
  {
    seq(|s|, i requires 0 <= i < |s| => LowerChar(s[i]))
  }

  predicate IsHex(s: string) {
    forall i :: 0 <= i < |s| ==> HexVal(s[i]).Some?
  }

  predicate IsLowerHex(s: string) {
    forall i :: 0 <= i < |s| ==> '0' <= s[i] <= '9' || 'a' <= s[i] <= 'f'
  }

  lemma {:induction false} DecodeIff(s: string)
    ensures HexDecode(s).Some? <==> |s| % 2 == 0 && IsHex(s)
    decreases |s|
  {
    if |s| >= 2 {
      DecodeIff(s[2..]);
      assert IsHex(s) <==> HexVal(s[0]).Some? && HexVal(s[1]).Some? && IsHex(s[2..]) by {
        assert forall i :: 2 <= i < |s| ==> s[i] == s[2..][i - 2];
      }
    }
  }

  lemma DigitOfVal(c: char)
    requires HexVal(c).Some?
    ensures 0 <= HexVal(c).value < 16 && HexDigit(HexVal(c).value) == LowerChar(c)
  {
  }

  const DIGITS := "0123456789abcdef"
  const UPPER_DIGITS := "0123456789ABCDEF"

  /** A hex digit's value is its place among the sixteen, in either case; nothing else is a digit. */
  lemma DigitsInPlace(n: int)
    requires 0 <= n < 16
    ensures HexDigit(n) == DIGITS[n]
    ensures forall c :: HexVal(c) == Some(n) <==> c == DIGITS[n] || c == UPPER_DIGITS[n]
  {
  }

  lemma OtherCharacters(c: char)
    ensures HexVal(c).None? <==> c !in DIGITS && c !in UPPER_DIGITS
  {
  }

  /** Byte n stands at the n-th pair of digits, its upper half first. */
  lemma {:induction false} EncodePlaces(bs: Bytes, n: nat)
    requires n < |bs|
    ensures HexEncode(bs)[2 * n] == DIGITS[bs[n] as int / 16] && HexEncode(bs)[2 * n + 1] == DIGITS[bs[n] as int % 16]
  {
    if n == 0 {
      DigitsInPlace(bs[0] as int / 16);
      DigitsInPlace(bs[0] as int % 16);
    } else {
      EncodePlaces(bs[1..], n - 1);
      assert HexEncode(bs)[2 * n] == HexEncode(bs[1..])[2 * (n - 1)];
      assert HexEncode(bs)[2 * n + 1] == HexEncode(bs[1..])[2 * (n - 1) + 1];
    }
  }

  /** Decoding and encoding again lowers the case and changes nothing else. */
  lemma {:induction false} EncodeDecode(s: string)
    requires HexDecode(s).Some?
    ensures HexEncode(HexDecode(s).value) == Lower(s)
    decreases |s|
  {
    if s != "" {
      var bs := HexDecode(s).value;
      EncodeDecode(s[2..]);
      assert bs[1..] == HexDecode(s[2..]).value;
      ByteOfDigits(s[0], s[1]);
      assert HexByte(bs[0]) == [LowerChar(s[0]), LowerChar(s[1])];
      assert Lower(s) == [LowerChar(s[0]), LowerChar(s[1])] + Lower(s[2..]);
    }
  }

  lemma ByteOfDigits(hi: char, lo: char)
    requires HexVal(hi).Some? && HexVal(lo).Some?
    ensures 0 <= HexVal(hi).value * 16 + HexVal(lo).value < 256
    ensures HexByte((HexVal(hi).value * 16 + HexVal(lo).value) as byte) == [LowerChar(hi), LowerChar(lo)]
  {
    DigitOfVal(hi);
    DigitOfVal(lo);
  }

  lemma {:induction false} EncodeConcat(a: Bytes, b: Bytes)
    ensures HexEncode(a + b) == HexEncode(a) + HexEncode(b)
  {
    if a == [] {
      assert a + b == b;
    } else {
      EncodeConcat(a[1..], b);
      var tail := a[1..] + b;
      assert a + b == [a[0]] + tail;
      EncodeStep(a[0], tail);
      EncodeStep(a[0], a[1..]);
      assert [a[0]] + a[1..] == a;
      Associates(HexByte(a[0]), HexEncode(a[1..]), HexEncode(b));
    }
  }

  lemma EncodeStep(b: byte, bs: Bytes)
    ensures HexEncode([b] + bs) == HexByte(b) + HexEncode(bs)
  {
    assert ([b] + bs)[1..] == bs;
  }

  lemma {:induction false} EncodeIsLowerHex(bs: Bytes)
    ensures IsLowerHex(HexEncode(bs))
  {
    if bs != [] {
      EncodeIsLowerHex(bs[1..]);
      var rest := HexEncode(bs[1..]);
      forall i | 0 <= i < |HexEncode(bs)|
        ensures '0' <= HexEncode(bs)[i] <= '9' || 'a' <= HexEncode(bs)[i] <= 'f'
      {
        if i >= 2 {
          assert HexEncode(bs)[i] == rest[i - 2];
        }
      }
    }
  }

  lemma EncodeInjective(a: Bytes, b: Bytes)
    requires HexEncode(a) == HexEncode(b)
    ensures a == b
  {
    DecodeEncode(a);
    DecodeEncode(b);
  }

  function Zeros(n: nat): Bytes {
    seq(n, _ => 0 as byte)
  }

  function ZeroDigits(n: nat): string {
    seq(n, _ => '0')
  }

  lemma {:induction false} EncodeZeros(n: nat)
    ensures HexEncode(Zeros(n)) == ZeroDigits(2 * n)
  {
    if n > 0 {
      EncodeZeros(n - 1);
      assert Zeros(n)[1..] == Zeros(n - 1);
      assert ZeroDigits(2 * n) == ['0', '0'] + ZeroDigits(2 * (n - 1));
    }
  }

  // --------------------------------------------------------- canonical form

  /** The canonical local part: lower case, padded with zeros or cut to 64 digits. */
  function Canonical(local_: string): string {
    (Lower(local_) + ZeroDigits(64))[..64]
  }

  lemma EncodeFit(bs: Bytes)
    ensures HexEncode(Fit(bs)) == (HexEncode(bs) + ZeroDigits(64))[..64]
  {
    if |bs| >= KEY_SIZE {
      EncodeConcat(bs[..KEY_SIZE], bs[KEY_SIZE..]);
      assert bs == bs[..KEY_SIZE] + bs[KEY_SIZE..];
    } else {
      var n := KEY_SIZE - |bs|;
      assert Fit(bs) == bs + Zeros(n);
      EncodeConcat(bs, Zeros(n));
      EncodeZeros(n);
      assert ZeroDigits(64)[..2 * n] == ZeroDigits(2 * n);
    }
  }

  lemma LastAtOfAddress(local_: string)
    ensures LastAt(Address(local_)) == |local_|
  {
    var e := Address(local_);
    assert e[|local_|] == '@';
    assert forall j :: |local_| < j < |e| ==> e[j] == DOMAIN[j - |local_| - 1];
    assert forall j :: 0 <= j < |DOMAIN| ==> DOMAIN[j] != '@';
  }

  /** What parses: a non-empty, even run of hex digits at the domain; and to what. */
  lemma ParseOfAddress(local_: string)
    ensures ParseAddress(Address(local_)).Ok? <==> local_ != "" && |local_| % 2 == 0 && IsHex(local_)
    ensures ParseAddress(Address(local_)).Ok? ==>
      HexEncode(ParseAddress(Address(local_)).value) == Canonical(local_)
  {
    LastAtOfAddress(local_);
    var e := Address(local_);
    assert e[|local_| + 1..] == DOMAIN && e[..|local_|] == local_;
    DecodeIff(local_);
    if ParseAddress(e).Ok? {
      EncodeDecode(local_);
      EncodeFit(HexDecode(local_).value);
    }
  }

  /** Every text that parses is such an address. */
  lemma ParsesOnlyAddresses(email: string)
    requires ParseAddress(email).Ok?
    ensures email == Address(email[..LastAt(email)])
  {
    var at := LastAt(email);
    assert email == email[..at] + [email[at]] + email[at + 1..];
  }

  /** The only text ParseAddress crashes on is the bare domain. */
  lemma ParseCrashesIff(email: string)
    ensures ParseAddress(email) == Err(Crash) <==> email == DOMAIN
  {
    if email == DOMAIN {
      assert LastAt(email) == -1;
    } else if LastAt(email) == -1 {
      assert email[0..] == email;
    }
  }

  /** A key's own address parses back to the key. */
  lemma ParseOwnAddress(key: Bytes)
    requires |key| == KEY_SIZE
    ensures ParseAddress(Address(HexEncode(key))) == Ok(key)
  {
    LastAtOfAddress(HexEncode(key));
    var e := Address(HexEncode(key));
    assert e[|HexEncode(key)| + 1..] == DOMAIN && e[..|HexEncode(key)|] == HexEncode(key);
    DecodeEncode(key);
    assert Fit(key) == key;
  }

  /**
   Canonicalisation: whatever parses, re-encoding the key gives 64 lower-case hex
   digits, its local part in canonical form, which parse to the same key again.
   */
  lemma Canonicalisation(email: string)
    requires ParseAddress(email).Ok?
    ensures var key := ParseAddress(email).value;
      && |HexEncode(key)| == 64 && IsLowerHex(HexEncode(key))
      && HexEncode(key) == Canonical(email[..LastAt(email)])
      && ParseAddress(Address(HexEncode(key))) == Ok(key)
  {
    var key := ParseAddress(email).value;
    ParsesOnlyAddresses(email);
    ParseOfAddress(email[..LastAt(email)]);
    EncodeIsLowerHex(key);
    ParseOwnAddress(key);
  }

  /** Two addresses name the same key exactly when their canonical forms agree. */
  lemma SameKeyIff(a: string, b: string)
    requires ParseAddress(Address(a)).Ok? && ParseAddress(Address(b)).Ok?
    ensures ParseAddress(Address(a)) == ParseAddress(Address(b)) <==> Canonical(a) == Canonical(b)
  {
    ParseOfAddress(a);
    ParseOfAddress(b);
    if Canonical(a) == Canonical(b) {
      EncodeInjective(ParseAddress(Address(a)).value, ParseAddress(Address(b)).value);
    }
  }
}
