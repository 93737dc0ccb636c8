/**
 keyvault/keyvault.go over an abstract AEAD. Decrypt must undo two encoders, raw and base64,
 and the older "iv:tag:ct" hex format, telling the three apart by their first byte and alphabet.
 */
module KeyVault {
  import opened Prelude
  import opened Text

  const TINK_PREFIX: Byte := 1

  // The primitives. `seal` and `open` are the Tink AEAD, whose nonce is drawn per call; `gcmOpen`
  // is AES-GCM with a given tag size over ciphertext and tag in one buffer.
  datatype Aead = Aead(
    seal: (Bytes, Bytes) -> Bytes,
    open: Bytes -> Option<Bytes>,
    gcmSeal: (Bytes, Bytes, nat) -> (Bytes, Bytes),
    gcmOpen: (nat, Bytes, Bytes) -> Option<Bytes>)

  // Opening undoes sealing, Tink output starts with the prefix byte. GCM is used with a 12-byte iv
  // and a tag size that the library allows.
  ghost predicate Lawful(a: Aead) {
    (forall p, nonce :: a.seal(p, nonce) != [] && a.seal(p, nonce)[0] == TINK_PREFIX
      && a.open(a.seal(p, nonce)) == Some(p)) &&
    (forall iv: Bytes, p, size | |iv| == 12 && 12 <= size <= 16 ::
       |a.gcmSeal(iv, p, size).1| == size
           && a.gcmOpen(size, iv, a.gcmSeal(iv, p, size).0 + a.gcmSeal(iv, p, size).1) == Some(p))
  }

  // The law can be met: sealing that only tags, and a tag of zeros.
  lemma SomeAeadIsLawful() returns (a: Aead)
    ensures Lawful(a)
  {
    a := Aead(
      (p: Bytes, nonce: Bytes) => [TINK_PREFIX] + p,
      (c: Bytes) => if c != [] then Some(c[1..]) else None,
      (iv: Bytes, p: Bytes, size: nat) => (p, seq(size, i => 0)),
      (size: nat, iv: Bytes, c: Bytes) => if size <= |c| then Some(c[..|c| - size]) else None);
    forall p: Bytes, nonce: Bytes
      ensures a.open(a.seal(p, nonce)) == Some(p)
    {
      assert ([TINK_PREFIX] + p)[1..] == p;
    }
    forall iv: Bytes, p: Bytes, size: nat | |iv| == 12 && 12 <= size <= 16
      ensures a.gcmOpen(size, iv, a.gcmSeal(iv, p, size).0 + a.gcmSeal(iv, p, size).1) == Some(p)
    {
      var zeros: Bytes := seq(size, i => 0);
      assert (p + zeros)[..|p|] == p;
    }
  }

  // A disabled encryptor has no AEAD.
  type Encryptor = Option<Aead>

  // ----- hex (section 8 of RFC 4648) -----

  function LowerHexDigit(v: int): Byte
    requires 0 <= v < 16
  {
    if v < 10 then 48 + v else 87 + v
  }

  function FromHexDigit(c: Byte): Option<int> {
    if 48 <= c <= 57 then Some(c - 48)
    else if 97 <= c <= 102 then Some(c - 87)
    else if 65 <= c <= 70 then Some(c - 55)
    else None
  }

  function HexEncode(b: Bytes): (r: Bytes)
    ensures |r| == 2 * |b|
  {
    if b == [] then [] else [LowerHexDigit(b[0] / 16), LowerHexDigit(b[0] % 16)] + HexEncode(b[1..])
  }

  // hex.DecodeString
  function HexDecode(s: Bytes): Option<Bytes> {
    if s == [] then Some([])
    else if |s| == 1 then None
    else
      var hi, lo, rest := FromHexDigit(s[0]), FromHexDigit(s[1]), HexDecode(s[2..]);
      if hi.Some? && lo.Some? && rest.Some? then Some([16 * hi.value + lo.value] + rest.value) else None
  }

  lemma {:induction false} HexRoundTrip(b: Bytes)
    ensures HexDecode(HexEncode(b)) == Some(b)
  {
    if b != [] {
      HexRoundTrip(b[1..]);
      assert HexEncode(b)[2..] == HexEncode(b[1..]);
      assert [b[0]] + b[1..] == b;
    }
  }

  const COLON: Byte := 58

  // A hex text holds neither a colon nor the prefix byte.
  lemma {:induction false} HexAlphabet(s: Bytes)
    requires HexDecode(s).Some?
    ensures COLON !in s && TINK_PREFIX !in s
  {
    if s != [] {
      HexAlphabet(s[2..]);
      assert s == [s[0], s[1]] + s[2..];
    }
  }

  // ----- base64 (section 4 of RFC 4648) -----

  const PAD: Byte := 61

  function Char64(v: int): Byte
    requires 0 <= v < 64
  {
    if v < 26 then 65 + v else if v < 52 then 71 + v else if v < 62 then v - 4 else if v == 62 then 43 else 47
  }

  function FromChar64(c: Byte): (v: Option<int>)
    ensures v.Some? ==> 0 <= v.value < 64
  {
    if 65 <= c <= 90 then Some(c - 65)
    else if 97 <= c <= 122 then Some(c - 71)
    else if 48 <= c <= 57 then Some(c + 4)
    else if c == 43 then Some(62)
    else if c == 47 then Some(63)
    else None
  }

  function Base64Encode(b: Bytes): Bytes
    decreases |b|
  {
    if b == [] then []
    else if |b| == 1 then [Char64(b[0] / 4), Char64(b[0] % 4 * 16), PAD, PAD]
    else if |b| == 2 then
      [Char64(b[0] / 4), Char64(b[0] % 4 * 16 + b[1] / 16), Char64(b[1] % 16 * 4), PAD]
    else
      [Char64(b[0] / 4), Char64(b[0] % 4 * 16 + b[1] / 16), Char64(b[1] % 16 * 4 + b[2] / 64), Char64(b[2] % 64)] +
      Base64Encode(b[3..])
  }

  // The three bytes that four six-bit groups make up.
  function Three(v: int, w: int, x: int, y: int): Bytes
    requires 0 <= v < 64 && 0 <= w < 64 && 0 <= x < 64 && 0 <= y < 64
  {
    [v * 4 + w / 16, w % 16 * 16 + x / 4, x % 4 * 64 + y]
  }

  // StdEncoding.DecodeString without line breaks: padding only at the end, spare bits not checked.
  function Base64Decode(s: Bytes): Option<Bytes>
    decreases |s|
  {
    if s == [] then Some([])
    else if |s| < 4 then None
    else
      var v, w, x, y := FromChar64(s[0]), FromChar64(s[1]), FromChar64(s[2]), FromChar64(s[3]);
      if v.None? || w.None? then None
      else if s[2] == PAD && s[3] == PAD && |s| == 4 then Some([v.value * 4 + w.value / 16])
      else if x.None? then None
      else if s[3] == PAD && |s| == 4 then
        Some([v.value * 4 + w.value / 16, w.value % 16 * 16 + x.value / 4])
      else if y.None? then None
      else
        var rest := Base64Decode(s[4..]);
        if rest.None? then None
        else Some(Three(v.value, w.value, x.value, y.value) + rest.value)
  }

  lemma Char64RoundTrip(v: int)
    requires 0 <= v < 64
    ensures FromChar64(Char64(v)) == Some(v) && Char64(v) != PAD
  {
  }

  // Three bytes are the four six-bit groups they are cut into.
  lemma Regrouped(x: Byte, y: Byte, z: Byte)
    ensures x / 4 * 4 + (x % 4 * 16 + y / 16) / 16 == x
    ensures (x % 4 * 16 + y / 16) % 16 * 16 + (y % 16 * 4 + z / 64) / 4 == y
    ensures (y % 16 * 4 + z / 64) % 4 * 64 + z % 64 == z
  {
  }

  lemma DecodeQuad(q: Bytes, rest: Bytes, v: int, w: int, x: int, y: int)
    requires |q| == 4 && FromChar64(q[0]) == Some(v) && FromChar64(q[1]) == Some(w)
    requires FromChar64(q[2]) == Some(x) && FromChar64(q[3]) == Some(y)
    requires q[3] != PAD && Base64Decode(rest).Some?
    ensures 0 <= v < 64 && 0 <= w < 64 && 0 <= x < 64 && 0 <= y < 64
    ensures Base64Decode(q + rest) == Some(Three(v, w, x, y) + Base64Decode(rest).value)
  {
    hide FromChar64, Three;
    assert (q + rest)[4..] == rest;
  }

  // Four characters are decoded to the three bytes they were made of, or fewer.
  lemma FullQuad(x: Byte, y: Byte, z: Byte, rest: Bytes)
    requires Base64Decode(rest).Some?
    ensures Base64Decode([Char64(x / 4), Char64(x % 4 * 16 + y / 16), Char64(y % 16 * 4 + z / 64),
        Char64(z % 64)] + rest)
         == Some([x, y, z] + Base64Decode(rest).value)
  {
    hide Char64, FromChar64, Base64Decode;
    Regrouped(x, y, z);
    Char64RoundTrip(x / 4);
    Char64RoundTrip(x % 4 * 16 + y / 16);
    Char64RoundTrip(y % 16 * 4 + z / 64);
    Char64RoundTrip(z % 64);
    var q := [Char64(x / 4), Char64(x % 4 * 16 + y / 16), Char64(y % 16 * 4 + z / 64), Char64(z % 64)];
    DecodeQuad(q, rest, x / 4, x % 4 * 16 + y / 16, y % 16 * 4 + z / 64, z % 64);
  }

  lemma PaddedQuad(x: Byte, y: Byte)
    ensures Base64Decode([Char64(x / 4), Char64(x % 4 * 16), PAD, PAD]) == Some([x])
    ensures Base64Decode([Char64(x / 4), Char64(x % 4 * 16 + y / 16), Char64(y % 16 * 4), PAD]) == Some([x, y])
  {
    hide Char64, FromChar64;
    Regrouped(x, 0, 0);
    Regrouped(x, y, 0);
    Char64RoundTrip(x / 4);
    Char64RoundTrip(x % 4 * 16);
    Char64RoundTrip(x % 4 * 16 + y / 16);
    Char64RoundTrip(y % 16 * 4);
  }

  lemma {:induction false} Base64RoundTrip(b: Bytes)
    ensures Base64Decode(Base64Encode(b)) == Some(b)
    decreases |b|
  {
    hide Char64, Base64Decode;
    if |b| >= 3 {
      Base64RoundTrip(b[3..]);
      FullQuad(b[0], b[1], b[2], Base64Encode(b[3..]));
      assert [b[0], b[1], b[2]] + b[3..] == b;
    } else if |b| == 2 {
      PaddedQuad(b[0], b[1]);
      assert b == [b[0], b[1]];
    } else if |b| == 1 {
      PaddedQuad(b[0], 0);
      assert b == [b[0]];
    } else {
      DecodeNothing();
    }
  }

  lemma DecodeNothing()
    ensures Base64Decode([]) == Some([])
  {
  }

  predicate Legal64(c: Byte) {
    65 <= c <= 90 || 97 <= c <= 122 || 48 <= c <= 57 || c == 43 || c == 47 || c == 61
  }

  // isLikelyBase64
  predicate LikelyBase64(b: Bytes) {
    |b| != 0 && |b| % 4 == 0 && forall i | 0 <= i < |b| :: Legal64(b[i])
  }

  // The loop of isLikelyBase64.
  method IsLikelyBase64(b: Bytes) returns (likely: bool)
    ensures likely == LikelyBase64(b)
  {
    if |b| == 0 || |b| % 4 != 0 {
      return false;
    }
    for i := 0 to |b|
      invariant forall j | 0 <= j < i :: Legal64(b[j])
    {
      var c := b[i];
      if !((c >= 65 && c <= 90) || (c >= 97 && c <= 122) || (c >= 48 && c <= 57) || c == 43 || c == 47 || c == 61) {
        return false;
      }
    }
    likely := true;
  }

  lemma Char64Legal(v: int)
    requires 0 <= v < 64
    ensures Legal64(Char64(v))
  {
  }

  lemma {:induction false} Base64Alphabet(b: Bytes)
    ensures |Base64Encode(b)| % 4 == 0 && (b != [] ==> Base64Encode(b) != [])
    ensures forall c | c in Base64Encode(b) :: Legal64(c)
    decreases |b|
  {
    hide Char64;
    forall v | 0 <= v < 64
      ensures Legal64(Char64(v))
    {
      Char64Legal(v);
    }
    hide Legal64;
    assert Legal64(PAD);
    if |b| > 3 {
      Base64Alphabet(b[3..]);
    }
  }

  lemma Base64Likely(b: Bytes)
    requires b != []
    ensures LikelyBase64(Base64Encode(b)) && TINK_PREFIX !in Base64Encode(b)
  {
    Base64Alphabet(b);
    forall i | 0 <= i < |Base64Encode(b)|
      ensures Legal64(Base64Encode(b)[i])
    {
      assert Base64Encode(b)[i] in Base64Encode(b);
    }
  }

  // ----- the encryptor -----

  function Encrypt(e: Encryptor, plaintext: Bytes, nonce: Bytes): Bytes {
    if e.None? then plaintext else e.value.seal(plaintext, nonce)
  }

  function EncryptString(e: Encryptor, plaintext: Bytes, nonce: Bytes): Bytes {
    if e.None? then plaintext else Base64Encode(Encrypt(e, plaintext, nonce))
  }

  // What the old writer stored.
  function LegacyText(iv: Bytes, tag: Bytes, ct: Bytes): Bytes {
    Join([HexEncode(iv), HexEncode(tag), HexEncode(ct)], COLON)
  }

  function DecryptLegacy(a: Aead, data: Bytes): Option<Bytes> {
    var parts := Split(data, COLON);
    if |parts| != 3 then None
    else
      var iv, tag, ct := HexDecode(parts[0]), HexDecode(parts[1]), HexDecode(parts[2]);
      if iv.None? || tag.None? || ct.None? then None
      else a.gcmOpen(|tag.value|, iv.value, ct.value + tag.value)
  }

  datatype Format = Raw | Base64 | Legacy

  // The encoding for which Decrypt takes its input.
  function Detected(c: Bytes): Format {
    if c != [] && c[0] == TINK_PREFIX then Raw
    else if LikelyBase64(c) && Base64Decode(c).Some? then Base64
    else Legacy
  }

  // Base64 is undone first, if that is what the input looks like.
  function Unwrapped(c: Bytes): Bytes {
    if Detected(c).Base64? then Base64Decode(c).value else c
  }

  function Decrypt(e: Encryptor, ciphertext: Bytes): Option<Bytes> {
    if e.None? then Some(ciphertext)
    else
      var c := Unwrapped(ciphertext);
      if Detected(c).Raw? && e.value.open(c).Some? then e.value.open(c)
      else DecryptLegacy(e.value, c)
  }

  // ----- the three formats -----

  // Decrypt undoes Encrypt ...
  lemma DecryptsRaw(e: Encryptor, p: Bytes, nonce: Bytes)
    requires e.Some? ==> Lawful(e.value)
    ensures Decrypt(e, Encrypt(e, p, nonce)) == Some(p)
  {
    if e.Some? {
      assert e.value.open(e.value.seal(p, nonce)) == Some(p);
    }
  }

  // ... and EncryptString ...
  lemma DecryptsText(e: Encryptor, p: Bytes, nonce: Bytes)
    requires e.Some? ==> Lawful(e.value)
    ensures Decrypt(e, EncryptString(e, p, nonce)) == Some(p)
  {
    if e.Some? {
      var c := e.value.seal(p, nonce);
      assert c != [] && c[0] == TINK_PREFIX && e.value.open(c) == Some(p);
      Base64RoundTrip(c);
      Base64Likely(c);
      assert Base64Encode(c)[0] in Base64Encode(c);
      assert Unwrapped(Base64Encode(c)) == c;
    }
  }

  // ... and reads what the old writer stored, in either case of hex digits.
  lemma DecryptsLegacy(a: Aead, p: Bytes, iv: Bytes, size: nat, ivHex: Bytes, tagHex: Bytes, ctHex: Bytes)
    requires Lawful(a) && |iv| == 12 && 12 <= size <= 16
    requires HexDecode(ivHex) == Some(iv)
    requires HexDecode(tagHex) == Some(a.gcmSeal(iv, p, size).1) && HexDecode(ctHex) == Some(a.gcmSeal(iv, p, size).0)
    ensures Decrypt(Some(a), Join([ivHex, tagHex, ctHex], COLON)) == Some(p)
  {
    var parts := [ivHex, tagHex, ctHex];
    var text := Join(parts, COLON);
    HexAlphabet(ivHex);
    HexAlphabet(tagHex);
    HexAlphabet(ctHex);
    SplitJoin(parts, COLON);
    LegacyIsNoBase64(ivHex, tagHex, ctHex);
    assert Unwrapped(text) == text;
    assert text[0] == ivHex[0] && ivHex[0] in ivHex;
  }

  lemma LegacyIsNoBase64(ivHex: Bytes, tagHex: Bytes, ctHex: Bytes)
    ensures !LikelyBase64(Join([ivHex, tagHex, ctHex], COLON))
    ensures Join([ivHex, tagHex, ctHex], COLON) != []
    ensures Join([ivHex, tagHex, ctHex], COLON)[0] == if ivHex == [] then COLON else ivHex[0]
  {
    var parts := [ivHex, tagHex, ctHex];
    assert parts[1..] == [tagHex, ctHex] && parts[1..][1..] == [ctHex];
    assert Join(parts[1..], COLON) == tagHex + [COLON] + ctHex;
    assert Join(parts, COLON) == ivHex + [COLON] + (tagHex + [COLON] + ctHex);
    assert Join(parts, COLON)[|ivHex|] == COLON;
  }

  lemma DecryptsOldWriter(a: Aead, p: Bytes, iv: Bytes, size: nat)
    requires Lawful(a) && |iv| == 12 && 12 <= size <= 16
    ensures Decrypt(Some(a), LegacyText(iv, a.gcmSeal(iv, p, size).1, a.gcmSeal(iv, p, size).0)) == Some(p)
  {
    HexRoundTrip(iv);
    HexRoundTrip(a.gcmSeal(iv, p, size).1);
    HexRoundTrip(a.gcmSeal(iv, p, size).0);
    DecryptsLegacy(a, p, iv, size, HexEncode(iv), HexEncode(a.gcmSeal(iv, p, size).1),
      HexEncode(a.gcmSeal(iv, p, size).0));
  }

  // No encoding is ever taken for another.
  lemma NeverMistaken(a: Aead, p: Bytes, nonce: Bytes, iv: Bytes, tag: Bytes, ct: Bytes)
    requires Lawful(a)
    ensures Detected(a.seal(p, nonce)) == Raw
    ensures Detected(Base64Encode(a.seal(p, nonce))) == Base64
    ensures Detected(LegacyText(iv, tag, ct)) == Legacy
  {
    var c := a.seal(p, nonce);
    assert c != [] && c[0] == TINK_PREFIX;
    Base64Likely(c);
    Base64RoundTrip(c);
    assert Base64Encode(c)[0] in Base64Encode(c);
    LegacyIsNoBase64(HexEncode(iv), HexEncode(tag), HexEncode(ct));
    HexRoundTrip(iv);
    HexAlphabet(HexEncode(iv));
    assert iv != [] ==> HexEncode(iv)[0] in HexEncode(iv);
  }

  // ----- what Decrypt opens, and that it opens nothing else -----

  // c is the hex digit, in either case, of v.
  predicate Nibble(c: Byte, v: int) {
    (0 <= v < 10 && c == 48 + v) || (10 <= v < 16 && (c == 87 + v || c == 55 + v))
  }

  // s is the hex text of b.
  predicate HexOf(s: Bytes, b: Bytes) {
    |s| == 2 * |b| && forall i | 0 <= i < |b| :: Nibble(s[2 * i], b[i] / 16) && Nibble(s[2 * i + 1], b[i] % 16)
  }

  lemma FromHexDigitIff(c: Byte, v: int)
    ensures FromHexDigit(c) == Some(v) <==> Nibble(c, v)
  {
  }

  lemma HexOfTail(s: Bytes, b: Bytes)
    requires |s| >= 2 && b != []
    ensures HexOf(s, b) <==> Nibble(s[0], b[0] / 16) && Nibble(s[1], b[0] % 16) && HexOf(s[2..], b[1..])
  {
    hide Nibble;
    if HexOf(s, b) {
      forall i | 0 <= i < |b[1..]|
        ensures Nibble(s[2..][2 * i], b[1..][i] / 16) && Nibble(s[2..][2 * i + 1], b[1..][i] % 16)
      {
        assert b[1..][i] == b[i + 1] && s[2..][2 * i] == s[2 * (i + 1)] && s[2..][2 * i + 1] == s[2 * (i + 1) + 1];
      }
    } else if |s| == 2 * |b| && Nibble(s[0], b[0] / 16) && Nibble(s[1], b[0] % 16) {
      var i :| 0 <= i < |b| && !(Nibble(s[2 * i], b[i] / 16) && Nibble(s[2 * i + 1], b[i] % 16));
      assert b[1..][i - 1] == b[i] && s[2..][2 * (i - 1)] == s[2 * i] && s[2..][2 * (i - 1) + 1] == s[2 * i + 1];
    }
  }

  // Only hex text is decoded, and to what it stands for.
  lemma {:induction false} HexDecodesIff(s: Bytes, b: Bytes)
    ensures HexDecode(s) == Some(b) <==> HexOf(s, b)
    decreases |s|
  {
    hide Nibble, FromHexDigit, HexOf;
    if |s| < 2 || b == [] {
      HexShort(s, b);
    } else {
      HexDecodesIff(s[2..], b[1..]);
      HexOfTail(s, b);
      FromHexDigitIff(s[0], b[0] / 16);
      FromHexDigitIff(s[1], b[0] % 16);
      HexHead(s, b);
    }
  }

  lemma HexShort(s: Bytes, b: Bytes)
    requires |s| < 2 || b == []
    ensures HexDecode(s) == Some(b) <==> HexOf(s, b)
  {
  }

  lemma HexHead(s: Bytes, b: Bytes)
    requires |s| >= 2 && b != []
    ensures HexDecode(s) == Some(b) <==>
            FromHexDigit(s[0]) == Some(b[0] / 16) && FromHexDigit(s[1]) == Some(b[0] % 16) &&
            HexDecode(s[2..]) == Some(b[1..])
  {
    FromHexDigitRange(s[0]);
    FromHexDigitRange(s[1]);
    hide FromHexDigit;
    assert b == [b[0]] + b[1..] && b[0] == 16 * (b[0] / 16) + b[0] % 16;
    if HexDecode(s) == Some(b) {
      var hi, lo := FromHexDigit(s[0]).value, FromHexDigit(s[1]).value;
      assert b[0] == 16 * hi + lo && b[0] / 16 == hi && b[0] % 16 == lo;
    }
  }

  lemma FromHexDigitRange(c: Byte)
    ensures FromHexDigit(c).Some? ==> 0 <= FromHexDigit(c).value < 16
  {
  }

  // d is the hex texts of an iv, a tag and a ciphertext with colons between, and they open to p.
  ghost predicate OpensAsHex(a: Aead, d: Bytes, p: Bytes) {
    exists ivHex: Bytes, tagHex: Bytes, ctHex: Bytes, iv: Bytes, tag: Bytes, ct: Bytes ::
      HexOf(ivHex, iv) && HexOf(tagHex, tag) && HexOf(ctHex, ct) &&
      d == ivHex + [COLON] + tagHex + [COLON] + ctHex && a.gcmOpen(|tag|, iv, ct + tag) == Some(p)
  }

  lemma LegacyParts(x: Bytes, y: Bytes, z: Bytes)
    ensures Join([x, y, z], COLON) == x + [COLON] + y + [COLON] + z
  {
    var parts := [x, y, z];
    assert parts[1..] == [y, z] && parts[1..][1..] == [z];
    assert Join(parts[1..], COLON) == y + [COLON] + z;
    assert x + [COLON] + (y + [COLON] + z) == x + [COLON] + y + [COLON] + z;
  }

  lemma LegacyOpensIff(a: Aead, d: Bytes, p: Bytes)
    ensures DecryptLegacy(a, d) == Some(p) <==> OpensAsHex(a, d, p)
  {
    hide HexOf, HexDecode, Split, Join;
    if DecryptLegacy(a, d) == Some(p) {
      var parts := Split(d, COLON);
      var iv, tag, ct := HexDecode(parts[0]).value, HexDecode(parts[1]).value, HexDecode(parts[2]).value;
      JoinSplit(d, COLON);
      assert parts == [parts[0], parts[1], parts[2]];
      LegacyParts(parts[0], parts[1], parts[2]);
      HexDecodesIff(parts[0], iv);
      HexDecodesIff(parts[1], tag);
      HexDecodesIff(parts[2], ct);
    } else if OpensAsHex(a, d, p) {
      var x: Bytes, y: Bytes, z: Bytes, iv: Bytes, tag: Bytes, ct: Bytes :|
        HexOf(x, iv) && HexOf(y, tag) && HexOf(z, ct) &&
        d == x + [COLON] + y + [COLON] + z && a.gcmOpen(|tag|, iv, ct + tag) == Some(p);
      HexDecodesIff(x, iv);
      HexDecodesIff(y, tag);
      HexDecodesIff(z, ct);
      HexAlphabet(x);
      HexAlphabet(y);
      HexAlphabet(z);
      LegacyParts(x, y, z);
      SplitJoin([x, y, z], COLON);
    }
  }

  // Decrypt answers p exactly when the input, base64 being undone where it looks like that, is Tink
  // output that opens to p or the old format that does. Everything else is an error.
  lemma DecryptsIff(a: Aead, c: Bytes, p: Bytes)
    ensures var d := if c != [] && c[0] != 1 && LikelyBase64(c) && Base64Decode(c).Some? then Base64Decode(c).value
                     else c;
      Decrypt(Some(a), c) == Some(p) <==>
      (d != [] && d[0] == 1 && a.open(d) == Some(p)) || OpensAsHex(a, d, p)
  {
    assert !LikelyBase64([]);
    hide LikelyBase64, Base64Decode, DecryptLegacy, OpensAsHex;
    var d := Unwrapped(c);
    LegacyOpensIff(a, d, p);
    if d != [] && d[0] == 1 {
      NoHexAtPrefix(a, d, p);
    }
  }

  // The old format never begins with the prefix byte.
  lemma NoHexAtPrefix(a: Aead, d: Bytes, p: Bytes)
    requires d != [] && d[0] == TINK_PREFIX
    ensures !OpensAsHex(a, d, p) && DecryptLegacy(a, d) != Some(p)
  {
    LegacyOpensIff(a, d, p);
    forall x: Bytes, y: Bytes, z: Bytes, iv: Bytes | d == x + [COLON] + y + [COLON] + z
      ensures !HexOf(x, iv)
    {
      assert x != [] ==> d[0] == x[0] && x[0] in x;
      HexDecodesIff(x, iv);
      if HexDecode(x) == Some(iv) {
        HexAlphabet(x);
      }
    }
  }
}
