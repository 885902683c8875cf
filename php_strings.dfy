/** PHP strings are byte strings. This module gives the few PHP string
    primitives the backend core relies on (`trim`, `strtolower`,
    `str_contains`, the `?:` truthiness test) over sequences of bytes, and a
    UTF-8 encoder that turns the source's Spanish literals into the bytes PHP
    holds for them. */
module PhpStrings {

  type byte = x: int | 0 <= x < 256
  type Bytes = seq<byte>

  /** The UTF-8 encoding of one Unicode scalar value. */
  function EncodeChar(c: char): (r: Bytes)
    ensures 1 <= |r| <= 4
    ensures (c as int < 0x80) <==> |r| == 1
    ensures |r| == 1 ==> r[0] == c as int
  {
    var n := c as int;
    if n < 0x80 then [n]
    else if n < 0x800 then [0xC0 + n / 64, 0x80 + n % 64]
    else if n < 0x10000 then [0xE0 + n / 4096, 0x80 + (n / 64) % 64, 0x80 + n % 64]
    else [0xF0 + n / 262144, 0x80 + (n / 4096) % 64, 0x80 + (n / 64) % 64, 0x80 + n % 64]
  }

  /** The UTF-8 bytes of a string literal, as PHP stores it from a UTF-8
      source file. */
  function Utf8(s: string): (r: Bytes)
    ensures |r| >= |s|
  {
    if s == [] then [] else EncodeChar(s[0]) + Utf8(s[1..])
  }

  /** UTF-8 encodes a concatenation part by part. */
  lemma {:induction false} Utf8Append(a: string, b: string)
    ensures Utf8(a + b) == Utf8(a) + Utf8(b)
    decreases |a|
  {
    if a == [] {
      assert a + b == b;
    } else {
      assert (a + b)[1..] == a[1..] + b;
      Utf8Append(a[1..], b);
    }
  }

  /** On ASCII text, UTF-8 is one byte per character, the code itself. */
  lemma {:induction false} AsciiUtf8(s: string)
    requires forall i :: 0 <= i < |s| ==> s[i] as int < 0x80
    ensures |Utf8(s)| == |s|
    ensures forall i :: 0 <= i < |s| ==> Utf8(s)[i] == s[i] as int
  {
    if s != [] {
      AsciiUtf8(s[1..]);
      assert Utf8(s) == EncodeChar(s[0]) + Utf8(s[1..]);
      forall i | 1 <= i < |s| ensures Utf8(s)[i] == s[i] as int {
        assert Utf8(s)[i] == Utf8(s[1..])[i - 1];
      }
    }
  }

  /** `trim` with its default character list: space, tab, newline,
      carriage return, NUL and vertical tab. */
  predicate IsTrimByte(b: byte) {
    b == 32 || b == 9 || b == 10 || b == 13 || b == 0 || b == 11
  }

  /** Number of leading bytes `trim` removes. */
  function LeadingTrim(s: Bytes): (k: nat)
    ensures k <= |s|
    ensures forall i :: 0 <= i < k ==> IsTrimByte(s[i])
    ensures k < |s| ==> !IsTrimByte(s[k])
  {
    if s == [] || !IsTrimByte(s[0]) then 0 else 1 + LeadingTrim(s[1..])
  }

  /** Length of `s` once its trailing trim bytes are removed. */
  function TrailingTrimEnd(s: Bytes): (k: nat)
    ensures k <= |s|
    ensures forall i :: k <= i < |s| ==> IsTrimByte(s[i])
    ensures k > 0 ==> !IsTrimByte(s[k - 1])
  {
    if s == [] || !IsTrimByte(s[|s| - 1]) then |s| else TrailingTrimEnd(s[..|s| - 1])
  }

  /** PHP `trim($s)`: the longest infix of `s` that neither starts nor ends
      with a trim byte, obtained by cutting trim bytes from both ends. */
  function Trim(s: Bytes): (r: Bytes)
    ensures LeadingTrim(s) + |r| <= |s|
    ensures r == s[LeadingTrim(s)..LeadingTrim(s) + |r|]
    ensures r == [] <==> forall i :: 0 <= i < |s| ==> IsTrimByte(s[i])
    ensures r != [] ==> !IsTrimByte(r[0]) && !IsTrimByte(r[|r| - 1])
    ensures forall i :: LeadingTrim(s) + |r| <= i < |s| ==> IsTrimByte(s[i])
  {
    var a := LeadingTrim(s);
    var t := s[a..];
    var e := TrailingTrimEnd(t);
    assert e > 0 ==> !IsTrimByte(t[0]);
    t[..e]
  }

  /** A string `trim` leaves alone is one that neither starts nor ends with a
      trim byte. */
  lemma TrimFixpoint(s: Bytes)
    requires s != [] ==> !IsTrimByte(s[0]) && !IsTrimByte(s[|s| - 1])
    ensures Trim(s) == s
  {
  }

  /** PHP's truthiness of a string (`if ($s)`, `$s ?: $default`): only the
      empty string and "0" are falsy. */
  predicate Falsy(s: Bytes) {
    s == [] || s == [48]
  }

  /** The same test on text that PHP holds as UTF-8. */
  predicate FalsyText(s: string) {
    s == "" || s == "0"
  }

  /** A text is falsy exactly when its UTF-8 bytes are. */
  lemma FalsyTextUtf8(s: string)
    ensures FalsyText(s) <==> Falsy(Utf8(s))
  {
    if |s| >= 2 {
      assert Utf8(s) == EncodeChar(s[0]) + Utf8(s[1..]);
      assert |Utf8(s[1..])| >= 1;
    } else if |s| == 1 {
      assert s[1..] == [];
      assert Utf8(s) == EncodeChar(s[0]);
      if s == "0" {
        assert EncodeChar(s[0]) == [48];
      }
    }
  }

  /** ASCII lower-casing of one byte, as PHP 8 `strtolower` does. */
  function LowerByte(b: byte): (r: byte)
    ensures 65 <= b <= 90 ==> r == b + 32
    ensures !(65 <= b <= 90) ==> r == b
  {
    if 65 <= b <= 90 then b + 32 else b
  }

  /** PHP `strtolower`: byte-wise, only `A`..`Z` change. */
  function Lower(s: Bytes): (r: Bytes)
    ensures |r| == |s|
    ensures forall i :: 0 <= i < |s| ==> r[i] == LowerByte(s[i])
  {
    seq(|s|, i requires 0 <= i < |s| => LowerByte(s[i]))
  }

  /** PHP `str_contains($haystack, $needle)`. */
  function Contains(haystack: Bytes, needle: Bytes): (r: bool)
    ensures r ==> |needle| <= |haystack|
    ensures needle == [] ==> r
    decreases |haystack|
  {
    needle <= haystack || (haystack != [] && Contains(haystack[1..], needle))
  }

  /** The needle occurs in the haystack at offset `k`. */
  ghost predicate OccursAt(haystack: Bytes, needle: Bytes, k: int) {
    0 <= k && k + |needle| <= |haystack| && haystack[k..k + |needle|] == needle
  }

  /** `Contains` holds only when the needle occurs at some offset. */
  lemma {:induction false} ContainsOccurs(haystack: Bytes, needle: Bytes)
    requires Contains(haystack, needle)
    ensures exists k :: OccursAt(haystack, needle, k)
    decreases |haystack|
  {
    if needle <= haystack {
      assert OccursAt(haystack, needle, 0);
    } else {
      ContainsOccurs(haystack[1..], needle);
      var k :| OccursAt(haystack[1..], needle, k);
      assert haystack[1..][k..k + |needle|] == haystack[k + 1..k + 1 + |needle|];
      assert OccursAt(haystack, needle, k + 1);
    }
  }

  /** `Contains` holds when the needle occurs at some offset; with
      `ContainsOccurs`, exactly then. */
  lemma {:induction false} ContainsAt(haystack: Bytes, needle: Bytes, k: nat)
    requires k + |needle| <= |haystack|
    requires haystack[k..k + |needle|] == needle
    ensures Contains(haystack, needle)
    decreases k
  {
    if k == 0 {
      assert needle <= haystack;
    } else {
      assert haystack[1..][k - 1..k - 1 + |needle|] == haystack[k..k + |needle|];
      ContainsAt(haystack[1..], needle, k - 1);
    }
  }
}
