/** String helpers shared by the validators, the queue's task ids, the search
    builder and the time formatter: case folding into ASCII, whitespace
    stripping, the last-dot split of a file name, decimal rendering of
    natural numbers and joining with a separator. */
module Text {
  import opened Common

  /** `c.lower()` where the result can be ASCII: the ASCII capitals and the
      KELVIN SIGN, which lowers to `k`.  Every other character is kept (the
      remaining Unicode case mappings are not modelled). */
  function LowerChar(c: char): (d: char)
    ensures 'A' <= c <= 'Z' ==> d as int == c as int + 32
    ensures c == KelvinSign ==> d == 'k'
    ensures !('A' <= c <= 'Z') && c != KelvinSign ==> d == c
  {
    if 'A' <= c <= 'Z' then (c as int + 32) as char
    else if c == KelvinSign then 'k'
    else c
  }

  const KelvinSign: char := '\U{212A}'

  function Lower(s: string): (r: string)
    ensures |r| == |s|
    ensures forall i :: 0 <= i < |s| ==> r[i] == LowerChar(s[i])
  {
    if s == [] then [] else [LowerChar(s[0])] + Lower(s[1..])
  }

  /** No upper-case ASCII letter is left. */
  lemma LowerNoUpper(s: string)
    ensures forall i :: 0 <= i < |Lower(s)| ==> !('A' <= Lower(s)[i] <= 'Z')
  {
  }

  /** Lowering twice is lowering once. */
  lemma LowerIdempotent(s: string)
    ensures Lower(Lower(s)) == Lower(s)
  {
    assert forall i :: 0 <= i < |s| ==> LowerChar(LowerChar(s[i])) == LowerChar(s[i]);
  }

  /** The characters `str.isspace()` accepts, which `str.strip()` removes:
      the ASCII separators and controls TAB to CR and FS to US, the space,
      and the Unicode line and space separators. */
  predicate IsSpace(c: char)
  {
    || '\t' <= c <= '\r'
    || '\U{1C}' <= c <= ' '
    || c == '\U{85}' || c == '\U{A0}' || c == '\U{1680}'
    || '\U{2000}' <= c <= '\U{200A}'
    || c == '\U{2028}' || c == '\U{2029}' || c == '\U{202F}' || c == '\U{205F}' || c == '\U{3000}'
  }

  /** The first position at or after `i` that holds no whitespace (or the
      end of `s`). */
  function SkipLeft(s: string, i: nat): (k: nat)
    requires i <= |s|
    ensures i <= k <= |s|
    ensures forall j :: i <= j < k ==> IsSpace(s[j])
    ensures k < |s| ==> !IsSpace(s[k])
    decreases |s| - i
  {
    if i < |s| && IsSpace(s[i]) then SkipLeft(s, i + 1) else i
  }

  /** The position just after the last character before `j` that is not
      whitespace, not going below `lo`. */
  function SkipRight(s: string, lo: nat, j: nat): (k: nat)
    requires lo <= j <= |s|
    ensures lo <= k <= j
    ensures forall m :: k <= m < j ==> IsSpace(s[m])
    ensures k > lo ==> !IsSpace(s[k - 1])
  {
    if j > lo && IsSpace(s[j - 1]) then SkipRight(s, lo, j - 1) else j
  }

  /** `s.strip()`: the whitespace on both ends removed. */
  function Strip(s: string): string
  {
    var a := SkipLeft(s, 0);
    s[a..SkipRight(s, a, |s|)]
  }

  /** The stripped string is a slice of the input with only whitespace cut
      on either side. */
  lemma StripSlice(s: string)
    ensures exists a, b :: (0 <= a <= b <= |s| && Strip(s) == s[a..b]
      && (forall i :: 0 <= i < a ==> IsSpace(s[i]))
      && (forall i :: b <= i < |s| ==> IsSpace(s[i])))
  {
    var a := SkipLeft(s, 0);
    var b := SkipRight(s, a, |s|);
    assert Strip(s) == s[a..b];
  }

  /** The stripped string is empty exactly when the input is all whitespace,
      and otherwise starts and ends with a non-space character. */
  lemma StripEnds(s: string)
    ensures Strip(s) == [] <==> forall i :: 0 <= i < |s| ==> IsSpace(s[i])
    ensures Strip(s) != [] ==> !IsSpace(Strip(s)[0]) && !IsSpace(Strip(s)[|Strip(s)| - 1])
  {
    var a := SkipLeft(s, 0);
    var b := SkipRight(s, a, |s|);
    assert Strip(s) == s[a..b];
    if a < b {
      assert Strip(s)[0] == s[a] && Strip(s)[|Strip(s)| - 1] == s[b - 1];
    }
  }

  /** The stripped string is empty exactly when the input is all whitespace;
      otherwise it is a slice of the input that starts and ends with a
      non-space character, with only whitespace cut on either side. */
  lemma StripProperties(s: string)
    ensures Strip(s) == [] <==> forall i :: 0 <= i < |s| ==> IsSpace(s[i])
    ensures Strip(s) != [] ==> !IsSpace(Strip(s)[0]) && !IsSpace(Strip(s)[|Strip(s)| - 1])
    ensures exists a, b :: (0 <= a <= b <= |s| && Strip(s) == s[a..b]
      && (forall i :: 0 <= i < a ==> IsSpace(s[i]))
      && (forall i :: b <= i < |s| ==> IsSpace(s[i])))
  {
    StripSlice(s);
    StripEnds(s);
  }

  /** Stripping is idempotent. */
  lemma StripIdempotent(s: string)
    ensures Strip(Strip(s)) == Strip(s)
  {
    var r := Strip(s);
    StripEnds(s);
    if r != [] {
      assert SkipLeft(r, 0) == 0;
      assert SkipRight(r, 0, |r|) == |r|;
    }
    assert r[0..|r|] == r;
  }

  /** The position of the last `c` in `s`, if there is one. */
  function LastIndex(s: string, c: char): (r: Option<nat>)
    ensures r.None? <==> c !in s
    ensures r.Some? ==> r.value < |s| && s[r.value] == c && c !in s[r.value + 1..]
  {
    if s == [] then None
    else if s[|s| - 1] == c then Some(|s| - 1)
    else
      var r := LastIndex(s[..|s| - 1], c);
      assert r.Some? ==> s[r.value + 1..] == s[..|s| - 1][r.value + 1..] + [s[|s| - 1]];
      r
  }

  /** `s.rsplit(c, 1)[1]` when `c in s`: the text after the last `c`,
      which itself holds no `c`. */
  function AfterLast(s: string, c: char): (r: Option<string>)
    ensures r.None? <==> c !in s
    ensures r.Some? ==> c !in r.value && exists i :: 0 <= i < |s| && s[i] == c && r.value == s[i + 1..]
  {
    match LastIndex(s, c) {
      case None => None
      case Some(i) => Some(s[i + 1..])
    }
  }

  /** The text after the last `c` of `stem + [c] + tail` is `tail` when
      `tail` holds no `c`, whatever the stem holds. */
  lemma AfterLastOf(stem: string, c: char, tail: string)
    requires c !in tail
    ensures AfterLast(stem + [c] + tail, c) == Some(tail)
  {
    var s := stem + [c] + tail;
    var i := LastIndex(s, c).value;
    assert s[|stem|] == c;
    assert s[|stem| + 1..] == tail;
    assert forall j :: |stem| < j < |s| ==> s[j] == tail[j - |stem| - 1];
  }

  /** The extension of a file name: the text after its last dot. */
  function Extension(s: string): Option<string>
  {
    AfterLast(s, '.')
  }

  /** A name built as `stem.ext` has extension `ext` when `ext` holds no dot;
      lowering keeps a text free of dots. */
  lemma ExtensionOf(stem: string, ext: string)
    requires '.' !in ext
    ensures '.' !in Lower(ext)
    ensures Extension(stem + "." + Lower(ext)) == Some(Lower(ext))
  {
    assert '.' !in Lower(ext) by {
      assert forall i :: 0 <= i < |ext| ==> Lower(ext)[i] == LowerChar(ext[i]);
    }
    AfterLastOf(stem, '.', Lower(ext));
    assert stem + "." + Lower(ext) == stem + ['.'] + Lower(ext);
  }

  /** `allowed_file`: the name has a dot and its lowered extension is one
      of `allowed`. */
  predicate HasAllowedExtension(filename: string, allowed: set<string>)
  {
    match Extension(filename) {
      case None => false
      case Some(ext) => Lower(ext) in allowed
    }
  }

  /** A name without a dot is never allowed, and the extension that decides
      is the text after the last dot, compared in lower case, whatever dots
      come before it. */
  lemma AllowedExtensionOf(stem: string, ext: string, allowed: set<string>)
    requires '.' !in ext
    ensures HasAllowedExtension(stem + "." + ext, allowed) <==> Lower(ext) in allowed
  {
    AfterLastOf(stem, '.', ext);
  }

  lemma AllowedNeedsDot(filename: string, allowed: set<string>)
    requires '.' !in filename
    ensures !HasAllowedExtension(filename, allowed)
  {
  }

  /** The decimal digit of `d`. */
  function DigitChar(d: nat): (c: char)
    requires d < 10
    ensures '0' <= c <= '9'
  {
    ('0' as int + d) as char
  }

  /** `str(n)` for a natural number: decimal, no leading zero. */
  function NatToString(n: nat): (s: string)
    ensures s != [] && forall i :: 0 <= i < |s| ==> '0' <= s[i] <= '9'
    ensures |s| > 1 ==> s[0] != '0'
    ensures n < 10 ==> |s| == 1
    ensures 10 <= n < 100 ==> |s| == 2
    decreases n
  {
    if n < 10 then [DigitChar(n)] else NatToString(n / 10) + [DigitChar(n % 10)]
  }

  /** The value of a string of decimal digits. */
  function ParseNat(s: string): nat
    requires forall i :: 0 <= i < |s| ==> '0' <= s[i] <= '9'
  {
    if s == [] then 0 else 10 * ParseNat(s[..|s| - 1]) + (s[|s| - 1] as int - '0' as int)
  }

  /** Rendering is read back exactly, so distinct numbers give distinct strings. */
  lemma {:induction false} NatToStringRoundTrip(n: nat)
    ensures ParseNat(NatToString(n)) == n
    decreases n
  {
    if n >= 10 {
      NatToStringRoundTrip(n / 10);
      var s := NatToString(n);
      assert s[..|s| - 1] == NatToString(n / 10);
    }
  }

  lemma NatToStringInjective(m: nat, n: nat)
    ensures NatToString(m) == NatToString(n) ==> m == n
  {
    NatToStringRoundTrip(m);
    NatToStringRoundTrip(n);
  }

  /** `f"{n:02d}"` for a natural number: at least two digits, zero-padded. */
  function Pad2(n: nat): (s: string)
    ensures n < 100 ==> |s| == 2
    ensures |s| >= 2 && forall i :: 0 <= i < |s| ==> '0' <= s[i] <= '9'
  {
    if n < 10 then "0" + NatToString(n) else NatToString(n)
  }

  /** The padded rendering still reads back as the number. */
  lemma Pad2RoundTrip(n: nat)
    ensures ParseNat(Pad2(n)) == n
  {
    NatToStringRoundTrip(n);
    if n < 10 {
      var s := Pad2(n);
      assert s[..|s| - 1] == "0";
      assert "0"[..0] == [];
    }
  }

  /** `sep.join(parts)`. */
  function Join(parts: seq<string>, sep: string): string
  {
    if parts == [] then ""
    else if |parts| == 1 then parts[0]
    else Join(parts[..|parts| - 1], sep) + sep + parts[|parts| - 1]
  }

  /** `s.replace(a, b)` for single characters. */
  function ReplaceChar(s: string, a: char, b: char): (r: string)
    ensures |r| == |s|
    ensures forall i :: 0 <= i < |s| ==> r[i] == (if s[i] == a then b else s[i])
  {
    seq(|s|, i requires 0 <= i < |s| => if s[i] == a then b else s[i])
  }

  /** The number of occurrences of `c` in `s`. */
  function Count(s: string, c: char): nat
  {
    if s == [] then 0 else Count(s[..|s| - 1], c) + (if s[|s| - 1] == c then 1 else 0)
  }

  lemma {:induction false} CountConcat(a: string, b: string, c: char)
    ensures Count(a + b, c) == Count(a, c) + Count(b, c)
  {
    if b != [] {
      assert (a + b)[..|a + b| - 1] == a + b[..|b| - 1];
      CountConcat(a, b[..|b| - 1], c);
    } else {
      assert a + b == a;
    }
  }

  lemma {:induction false} CountNone(s: string, c: char)
    requires c !in s
    ensures Count(s, c) == 0
  {
    if s != [] {
      CountNone(s[..|s| - 1], c);
    }
  }
}
