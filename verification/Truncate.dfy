/**
 TruncateToolResult of middleware/truncate.go: a result over the limit is cut back to a rune
 boundary and told how much was dropped. On valid UTF-8 (section 3 of RFC 3629) what is kept is
 the encoding of the longest prefix of runes that fits.
 */
module Truncate {
  import opened Prelude

  // A Unicode scalar value.
  type Rune = r: int | 0 <= r < 0x110000 && !(0xD800 <= r < 0xE000)

  // ----- UTF-8 -----

  function EncodeRune(r: Rune): (e: Bytes)
    ensures 1 <= |e| <= 4
  {
    if r < 0x80 then [r]
    else if r < 0x800 then [0xC0 + r / 64, 0x80 + r % 64]
    else if r < 0x10000 then [0xE0 + r / 4096, 0x80 + r / 64 % 64, 0x80 + r % 64]
    else [0xF0 + r / 262144, 0x80 + r / 4096 % 64, 0x80 + r / 64 % 64, 0x80 + r % 64]
  }

  function Encode(rs: seq<Rune>): Bytes {
    if rs == [] then [] else Encode(rs[..|rs|-1]) + EncodeRune(rs[|rs|-1])
  }

  // utf8.RuneStart
  predicate RuneStart(b: Byte) {
    !(0x80 <= b < 0xC0)
  }

  predicate Continues(b: Byte) {
    0x80 <= b < 0xC0
  }

  // The range that the second byte must be in, by the first byte.
  predicate SecondFits(b: Byte, c: Byte) {
    if b == 0xE0 then 0xA0 <= c < 0xC0
    else if b == 0xED then 0x80 <= c < 0xA0
    else if b == 0xF0 then 0x90 <= c < 0xC0
    else if b == 0xF4 then 0x80 <= c < 0x90
    else Continues(c)
  }

  // The size that utf8.DecodeRuneInString reports at the start of a non-empty text: an invalid or
  // cut-off sequence counts as one byte.
  function RuneSize(s: Bytes): (n: nat)
    requires s != []
    ensures 1 <= n <= 4 && n <= |s|
  {
    var b := s[0];
    if b < 0xC2 || b > 0xF4 then 1
    else if b < 0xE0 then if |s| >= 2 && Continues(s[1]) then 2 else 1
    else if b < 0xF0 then if |s| >= 3 && SecondFits(b, s[1]) && Continues(s[2]) then 3 else 1
    else if |s| >= 4 && SecondFits(b, s[1]) && Continues(s[2]) && Continues(s[3]) then 4 else 1
  }

  // The code point that a row of one to four bytes stands for.
  function RuneValue(e: Bytes): int
    requires 1 <= |e| <= 4
  {
    var w: int := e[0];
    if |e| == 1 then w
    else
      var x: int := e[1];
      if |e| == 2 then (w - 0xC0) * 64 + x - 0x80
      else
        var y: int := e[2];
        if |e| == 3 then (w - 0xE0) * 4096 + (x - 0x80) * 64 + y - 0x80
        else
          var z: int := e[3];
          (w - 0xF0) * 262144 + (x - 0x80) * 4096 + (y - 0x80) * 64 + z - 0x80
  }

  // A number is made up of its six-bit groups.
  lemma SixBits(r: nat)
    ensures r == r / 64 * 64 + r % 64 == r / 4096 * 4096 + r / 64 % 64 * 64 + r % 64
    ensures r == r / 262144 * 262144 + r / 4096 % 64 * 4096 + r / 64 % 64 * 64 + r % 64
  {
    var q := r / 64;
    assert r / 4096 == q / 64;
    var p := q / 64;
    assert r / 262144 == p / 64;
    assert q == p * 64 + q % 64 && p == p / 64 * 64 + p % 64;
  }

  // Encoding loses nothing.
  lemma RuneValueIs(r: Rune)
    ensures RuneValue(EncodeRune(r)) == r
  {
    SixBits(r);
  }

  // Decoding sees the size that encoding produced, and only a first byte starts a rune.
  lemma RuneDecodes(r: Rune, rest: Bytes)
    ensures RuneSize(EncodeRune(r) + rest) == |EncodeRune(r)|
    ensures RuneStart(EncodeRune(r)[0])
    ensures forall i | 1 <= i < |EncodeRune(r)| :: !RuneStart(EncodeRune(r)[i])
  {
  }

  function Start(rs: seq<Rune>, j: nat): nat
    requires j <= |rs|
  {
    |Encode(rs[..j])|
  }

  // The encoding of one rune in its place.
  lemma {:induction false} Slice(rs: seq<Rune>, j: nat)
    requires j < |rs|
    ensures Start(rs, j + 1) == Start(rs, j) + |EncodeRune(rs[j])| <= |Encode(rs)|
    ensures Encode(rs)[..Start(rs, j)] == Encode(rs[..j])
    ensures Encode(rs)[Start(rs, j)..Start(rs, j + 1)] == EncodeRune(rs[j])
  {
    hide EncodeRune;
    var init := rs[..|rs|-1];
    assert rs[..j + 1][..j] == rs[..j];
    if j < |init| {
      Slice(init, j);
      assert init[..j] == rs[..j] && init[..j + 1] == rs[..j + 1];
    } else {
      assert rs[..j + 1] == rs;
    }
  }

  lemma {:induction false} RuneHolding(rs: seq<Rune>, i: nat) returns (j: nat)
    requires i < |Encode(rs)|
    ensures j < |rs| && Start(rs, j) <= i < Start(rs, j + 1)
  {
    var init := rs[..|rs|-1];
    if i < |Encode(init)| {
      j := RuneHolding(init, i);
      assert init[..j] == rs[..j] && init[..j + 1] == rs[..j + 1];
    } else {
      j := |rs| - 1;
      assert rs[..j] == init && rs[..j + 1] == rs;
    }
  }

  // Every byte belongs to one rune, and it starts a rune exactly when it is that rune's first.
  lemma RuneAt(rs: seq<Rune>, i: nat) returns (j: nat)
    requires i < |Encode(rs)|
    ensures j < |rs| && Start(rs, j) <= i < Start(rs, j + 1) <= |Encode(rs)|
    ensures RuneStart(Encode(rs)[i]) <==> i == Start(rs, j)
    ensures i == Start(rs, j) ==> i + RuneSize(Encode(rs)[i..]) == Start(rs, j + 1)
  {
    hide RuneSize, EncodeRune, RuneStart, Encode;
    j := RuneHolding(rs, i);
    Slice(rs, j);
    var s, p := Encode(rs), Start(rs, j);
    var rest := s[Start(rs, j + 1)..];
    RuneDecodes(rs[j], rest);
    assert s[i] == s[p..Start(rs, j + 1)][i - p];
    if i == p {
      assert s[i..] == EncodeRune(rs[j]) + rest;
    }
  }

  // How many runes fit into max bytes.
  function Fitting(rs: seq<Rune>, max: nat): (k: nat)
    ensures k <= |rs| && Start(rs, k) <= max
  {
    if |Encode(rs)| <= max then assert rs[..|rs|] == rs; |rs|
    else
      var k := Fitting(rs[..|rs|-1], max);
      assert rs[..|rs|-1][..k] == rs[..k]; k
  }

  // One more would not.
  lemma {:induction false} FittingIsMost(rs: seq<Rune>, max: nat)
    requires max < |Encode(rs)|
    ensures var k := Fitting(rs, max); k < |rs| && Start(rs, k + 1) > max
  {
    var init := rs[..|rs|-1];
    var k := Fitting(rs, max);
    assert k == Fitting(init, max);
    if max < |Encode(init)| {
      FittingIsMost(init, max);
      assert init[..k + 1] == rs[..k + 1];
    } else {
      assert rs[..k + 1] == rs;
    }
  }

  // ----- the cut -----

  // The loop of TruncateToolResult from byte i downwards.
  function Search(s: Bytes, max: nat, i: int): (cutoff: nat)
    requires i < max <= |s|
    ensures max - 3 <= cutoff <= max
    decreases i + 1
  {
    if i < 0 || i < max - 3 then max
    else if RuneStart(s[i]) && i + RuneSize(s[i..]) > max then i
    else Search(s, max, i - 1)
  }

  lemma {:induction false} SearchInside(rs: seq<Rune>, max: nat, i: nat, k: nat)
    requires i < max <= |Encode(rs)| && k < |rs| && Start(rs, k) <= i && max < Start(rs, k + 1)
    ensures Search(Encode(rs), max, i) == Start(rs, k)
    decreases i
  {
    hide Encode, EncodeRune, RuneStart, RuneSize;
    var j := RuneAt(rs, i);
    Slice(rs, k);
    SameRune(rs, i, j, k);
    if i > Start(rs, k) {
      SearchInside(rs, max, i - 1, k);
    }
  }

  lemma {:induction false} Increasing(rs: seq<Rune>, j: nat, k: nat)
    requires j <= k <= |rs|
    ensures Start(rs, j) <= Start(rs, k)
  {
    if j < k {
      Slice(rs, k - 1);
      Increasing(rs, j, k - 1);
    }
  }

  lemma SameRune(rs: seq<Rune>, i: nat, j: nat, k: nat)
    requires j < |rs| && k < |rs| && Start(rs, j) <= i < Start(rs, j + 1) && Start(rs, k) <= i < Start(rs, k + 1)
    ensures j == k
  {
    if j < k {
      Increasing(rs, j + 1, k);
    } else if k < j {
      Increasing(rs, k + 1, j);
    }
  }

  lemma {:induction false} SearchOnBoundary(rs: seq<Rune>, max: nat, i: int, k: nat)
    requires i < max <= |Encode(rs)| && k <= |rs| && Start(rs, k) == max
    ensures Search(Encode(rs), max, i) == max
    decreases i + 1
  {
    if i >= 0 {
      var j := RuneAt(rs, i);
      if j >= k {
        Increasing(rs, k, j);
      } else {
        Increasing(rs, j + 1, k);
      }
      SearchOnBoundary(rs, max, i - 1, k);
    }
  }

  // On valid UTF-8 the cut falls behind the last rune that fits.
  lemma CutAtRune(rs: seq<Rune>, max: nat)
    requires 0 < max < |Encode(rs)|
    ensures Search(Encode(rs), max, max - 1) == Start(rs, Fitting(rs, max))
    ensures Encode(rs)[..Start(rs, Fitting(rs, max))] == Encode(rs[..Fitting(rs, max)])
  {
    hide Encode, EncodeRune, Search;
    var k := Fitting(rs, max);
    FittingIsMost(rs, max);
    Slice(rs, k);
    if Start(rs, k) == max {
      SearchOnBoundary(rs, max, max - 1, k);
    } else {
      SearchInside(rs, max, max - 1, k);
    }
  }

  // Whatever runes a text consists of.
  lemma KeepsRunes(s: Bytes, max: nat)
    requires 0 < max < |s|
    ensures forall rs | s == Encode(rs) :: s[..Search(s, max, max - 1)] == Encode(rs[..Fitting(rs, max)])
  {
    forall rs | s == Encode(rs)
      ensures s[..Search(s, max, max - 1)] == Encode(rs[..Fitting(rs, max)])
    {
      CutAtRune(rs, max);
    }
  }

  // ----- the notice -----

  function Decimal(n: nat): Bytes {
    if n < 10 then [48 + n] else Decimal(n / 10) + [48 + n % 10]
  }

  function Ascii(s: string): Bytes {
    seq(|s|, i requires 0 <= i < |s| => s[i] as int % 256)
  }

  function Notice(omitted: nat, total: nat): Bytes {
    Ascii("\n\n[Content truncated: ") + Decimal(omitted) +
    Ascii(" characters omitted to prevent context overflow. Original length: ") + Decimal(total) + Ascii(" characters]")
  }

  // The value of a row of decimal digits.
  function ValueOf(digits: Bytes): int {
    if digits == [] then 0
    else
      var last: int := digits[|digits|-1];
      10 * ValueOf(digits[..|digits|-1]) + last - 48
  }

  // The decimal numeral of n, without leading zeros.
  predicate Numeral(digits: Bytes, n: nat) {
    && digits != [] && (forall c | c in digits :: 48 <= c <= 57) && ValueOf(digits) == n
    && (digits[0] == 48 ==> |digits| == 1)
  }

  lemma {:induction false} DecimalIs(n: nat)
    ensures Numeral(Decimal(n), n) && (n > 0 ==> Decimal(n)[0] != 48)
  {
    if n >= 10 {
      DecimalIs(n / 10);
      assert Decimal(n)[..|Decimal(n)|-1] == Decimal(n / 10);
    } else {
      assert [48 + n][..0] == [];
    }
  }

  predicate Spells(b: Bytes, s: string) {
    |b| == |s| && forall i | 0 <= i < |s| :: b[i] == s[i] as int % 256
  }

  // The notice says how much is missing and how much there was.
  ghost predicate Says(notice: Bytes, omitted: nat, total: nat) {
    exists a: Bytes, missing: Bytes, b: Bytes, whole: Bytes, c: Bytes ::
      notice == a + missing + b + whole + c && Numeral(missing, omitted) && Numeral(whole, total) &&
      Spells(a, "\n\n[Content truncated: ") &&
      Spells(b, " characters omitted to prevent context overflow. Original length: ") && Spells(c, " characters]")
  }

  lemma NoticeSays(omitted: nat, total: nat)
    ensures Says(Notice(omitted, total), omitted, total)
  {
    DecimalIs(omitted);
    DecimalIs(total);
    hide Decimal, Numeral;
    var a, c := Ascii("\n\n[Content truncated: "), Ascii(" characters]");
    var b := Ascii(" characters omitted to prevent context overflow. Original length: ");
    assert Notice(omitted, total) == a + Decimal(omitted) + b + Decimal(total) + c;
  }

  const DEFAULT_TOOL_RESULT_MAX_LENGTH := 25000

  // Short results are untouched. Of a long one at most three bytes fewer than the limit are kept,
  // and kept and reported bytes add up. If it is UTF-8, so is what is kept: the longest prefix of
  // its runes that the limit admits.
  method TruncateToolResult(content: Bytes, maxLength: int) returns (r: Bytes, ghost kept: nat)
    ensures var max := if maxLength <= 0 then 25000 else maxLength;
      if |content| <= max then r == content
      else
        && max - 3 <= kept <= max && kept <= |r| && r[..kept] == content[..kept]
        && Says(r[kept..], |content| - kept, |content|)
        && forall rs | content == Encode(rs) :: content[..kept] == Encode(rs[..Fitting(rs, max)])
  {
    hide Notice, Encode, Fitting, Start, RuneSize, RuneStart, Says;
    var max := maxLength;
    if max <= 0 {
      max := DEFAULT_TOOL_RESULT_MAX_LENGTH;
    }
    kept := |content|;
    if |content| == 0 || |content| <= max {
      return content, kept;
    }
    var cutoff, i := max, max - 1;
    while i >= 0 && i >= max - 3
      invariant -1 <= i < max && cutoff == max
      invariant Search(content, max, max - 1) == Search(content, max, i)
    {
      if RuneStart(content[i]) {
        var size := RuneSize(content[i..]);
        if i + size > cutoff {
          cutoff := i;
          break;
        }
      }
      i := i - 1;
    }
    kept := cutoff;
    KeepsRunes(content, max);
    NoticeSays(|content| - cutoff, |content|);
    r := content[..cutoff] + Notice(|content| - cutoff, |content|);
  }
}
