/**
 * String primitives the two programs rely on: whitespace trimming as
 * JavaScript's `String.prototype.trim` and Swift's
 * `trimmingCharacters(in: .whitespacesAndNewlines)` define it, JavaScript's
 * `slice`, the splice performed by `setRangeText` (section 4.10.20 of the
 * WHATWG HTML Standard, "APIs for the text control selections"), and the
 * decimal rendering of a status code inside a template string.
 */
module Text {

  /** The two whitespace sets: ECMAScript WhiteSpace + LineTerminator, and
      Unicode's White_Space property used by Foundation. */
  datatype Charset = Js | Swift

  predicate IsSpace(cs: Charset, c: char) {
    || ('\t' <= c <= '\r')
    || c == ' ' || c == '\U{00A0}' || c == '\U{1680}'
    || ('\U{2000}' <= c <= '\U{200A}')
    || c == '\U{2028}' || c == '\U{2029}' || c == '\U{202F}' || c == '\U{205F}' || c == '\U{3000}'
    || (cs.Js? && c == '\U{FEFF}')
    || (cs.Swift? && c == '\U{0085}')
  }

  /** Every character is whitespace (the empty string included). */
  ghost predicate IsBlank(cs: Charset, s: string) {
    forall i :: 0 <= i < |s| ==> IsSpace(cs, s[i])
  }

  /** Drops leading whitespace: the result is the suffix that starts at the
      first non-space character. */
  function TrimStart(cs: Charset, s: string): (r: string)
    ensures |r| <= |s| && r == s[|s| - |r|..]
    ensures r == [] || !IsSpace(cs, r[0])
    ensures forall i :: 0 <= i < |s| - |r| ==> IsSpace(cs, s[i])
  {
    if s != [] && IsSpace(cs, s[0]) then TrimStart(cs, s[1..]) else s
  }

  /** Drops trailing whitespace: the result is the prefix that ends at the
      last non-space character. */
  function TrimEnd(cs: Charset, s: string): (r: string)
    ensures |r| <= |s| && r == s[..|r|]
    ensures r == [] || !IsSpace(cs, r[|r| - 1])
    ensures forall i :: |r| <= i < |s| ==> IsSpace(cs, s[i])
  {
    if s != [] && IsSpace(cs, s[|s| - 1]) then TrimEnd(cs, s[..|s| - 1]) else s
  }

  function Trim(cs: Charset, s: string): string {
    TrimEnd(cs, TrimStart(cs, s))
  }

  /** `!s.trim()` in JavaScript and `trimmed.isEmpty` in Swift both mean that
      the string consists of whitespace only. */
  lemma {:induction false} TrimEmptyIffBlank(cs: Charset, s: string)
    ensures Trim(cs, s) == [] <==> IsBlank(cs, s)
  {
    var t := TrimStart(cs, s);
    var k := |s| - |t|;
    if Trim(cs, s) == [] {
      forall i | 0 <= i < |s| ensures IsSpace(cs, s[i]) {
        if i >= k {
          assert s[i] == t[i - k];
        }
      }
    } else {
      assert t != [];
      assert !IsSpace(cs, s[k]) by { assert s[k] == t[0]; }
    }
  }

  /** Whether every character is whitespace, one character at a time: the
      test `!s.trim()` performs. */
  predicate AllSpace(cs: Charset, s: string) {
    s == [] || (IsSpace(cs, s[0]) && AllSpace(cs, s[1..]))
  }

  /** The character-by-character test means the string consists of
      whitespace. */
  lemma {:induction false} AllSpaceIffBlank(cs: Charset, s: string)
    ensures AllSpace(cs, s) <==> IsBlank(cs, s)
    decreases |s|
  {
    if s != [] {
      AllSpaceIffBlank(cs, s[1..]);
      if IsSpace(cs, s[0]) && IsBlank(cs, s[1..]) {
        forall i | 0 <= i < |s| ensures IsSpace(cs, s[i]) {
          if i > 0 { assert s[i] == s[1..][i - 1]; }
        }
      }
      if IsBlank(cs, s) {
        forall i | 0 <= i < |s| - 1 ensures IsSpace(cs, s[1..][i]) {
          assert s[1..][i] == s[i + 1];
        }
      }
    }
  }

  /** The character-by-character test agrees with trimming: a string trims
      to nothing exactly when every character is whitespace. */
  lemma AllSpaceIffTrimEmpty(cs: Charset, s: string)
    ensures AllSpace(cs, s) <==> Trim(cs, s) == []
  {
    AllSpaceIffBlank(cs, s);
    TrimEmptyIffBlank(cs, s);
  }

  /** Trimming keeps a contiguous piece of the input, with no whitespace at
      either end. */
  lemma TrimIsInnerSlice(cs: Charset, s: string)
    ensures exists i, j :: 0 <= i <= j <= |s| && Trim(cs, s) == s[i..j]
    ensures Trim(cs, s) == [] || (!IsSpace(cs, Trim(cs, s)[0]) && !IsSpace(cs, Trim(cs, s)[|Trim(cs, s)| - 1]))
  {
    var t := TrimStart(cs, s);
    var r := TrimEnd(cs, t);
    var i := |s| - |t|;
    assert t == s[i..] && r == t[..|r|];
    assert r == s[i..i + |r|] by {
      forall k | 0 <= k < |r|
        ensures r[k] == s[i + k]
      {
        assert r[k] == t[k];
      }
    }
    if r != [] {
      assert r[0] == t[0];
    }
  }

  function Min(a: int, b: int): int {
    if a <= b then a else b
  }

  /** JavaScript's `value.slice(start, end)` for non-negative offsets: both
      offsets are clamped to the length, and a reversed pair gives "". */
  function Slice(s: string, start: nat, end: nat): (r: string)
    ensures start <= end <= |s| ==> r == s[start..end]
    ensures end <= start ==> r == []
    ensures |r| <= |s|
  {
    var a := Min(start, |s|);
    var b := Min(end, |s|);
    if a < b then s[a..b] else []
  }

  /** `setRangeText(text, start, end)`: offsets past the end are clamped to
      the length, and the clamped range is replaced by `text`. Callers
      guarantee `start <= end` (the DOM throws `IndexSizeError` otherwise). */
  function SpliceRange(value: string, text: string, start: nat, end: nat): (r: string)
    requires start <= end
    ensures |r| == |value| - (Min(end, |value|) - Min(start, |value|)) + |text|
    ensures r[..Min(start, |value|)] == value[..Min(start, |value|)]
    ensures r[Min(start, |value|)..Min(start, |value|) + |text|] == text
    ensures r[Min(start, |value|) + |text|..] == value[Min(end, |value|)..]
  {
    var s := Min(start, |value|);
    var e := Min(end, |value|);
    value[..s] + text + value[e..]
  }

  /** Where the caret lands after the splice when the selection mode is
      `'end'`: just after the inserted text. */
  function CaretAfterSplice(value: string, text: string, start: nat): nat
  {
    Min(start, |value|) + |text|
  }

  /** Writing back the very text that was sliced out of a range leaves the
      value as it was. */
  lemma SliceSpliceRoundTrip(value: string, start: nat, end: nat)
    requires start <= end <= |value|
    ensures SpliceRange(value, Slice(value, start, end), start, end) == value
  {
    assert value[..start] + value[start..end] + value[end..] == value;
  }

  /** After a splice, reading the affected range back gives the inserted
      text, and the text outside the range is untouched; offsets past the
      end are clamped first, so a stale range behaves as its clamped
      counterpart. */
  lemma SpliceThenSlice(value: string, text: string, start: nat, end: nat)
    requires start <= end
    ensures var a := Min(start, |value|);
      && Slice(SpliceRange(value, text, start, end), a, a + |text|) == text
      && SpliceRange(value, text, start, end)[..a] == value[..a]
      && SpliceRange(value, text, start, end)[a + |text|..] == value[Min(end, |value|)..]
  {
  }

  // ---- decimal rendering of a non-negative integer (`${n}`, `\(n)`) ----

  function DigitChar(d: nat): (c: char)
    requires d < 10
    ensures '0' <= c <= '9'
  {
    ['0', '1', '2', '3', '4', '5', '6', '7', '8', '9'][d]
  }

  function DigitValue(c: char): nat
    requires '0' <= c <= '9'
  {
    (c as int - '0' as int) as nat
  }

  /** The decimal numeral a template string produces for `n`. */
  function NatToDecimal(n: nat): (r: string)
    ensures |r| >= 1
    ensures forall i :: 0 <= i < |r| ==> '0' <= r[i] <= '9'
    ensures |r| > 1 ==> r[0] != '0'
    decreases n
  {
    if n < 10 then [DigitChar(n)] else NatToDecimal(n / 10) + [DigitChar(n % 10)]
  }

  /** The number a string of decimal digits denotes. */
  function DecimalValue(s: string): nat
    requires forall i :: 0 <= i < |s| ==> '0' <= s[i] <= '9'
  {
    if s == [] then 0 else 10 * DecimalValue(s[..|s| - 1]) + DigitValue(s[|s| - 1])
  }

  /** The rendering is faithful: reading the numeral back gives `n`. */
  lemma {:induction false} DecimalRoundTrip(n: nat)
    ensures DecimalValue(NatToDecimal(n)) == n
    decreases n
  {
    var r := NatToDecimal(n);
    if n < 10 {
      assert DigitValue(DigitChar(n)) == n;
    } else {
      DecimalRoundTrip(n / 10);
      assert r[..|r| - 1] == NatToDecimal(n / 10);
      assert DigitValue(DigitChar(n % 10)) == n % 10;
    }
  }
}
