/** `format_time` of utils.py: a duration in seconds rendered as
    `HH:MM:SS`.  Python's `//` and `%` on floats floor, so the hours are
    `floor(s / 3600)` and the remainders are never negative. */
module Utils {
  import opened Text

  /** Python's `x // d` for a positive divisor. */
  function FloorDiv(x: real, d: real): (q: int)
    requires d > 0.0
    ensures q as real * d <= x < (q + 1) as real * d
  {
    FloorBounds(x, d);
    (x / d).Floor
  }

  lemma FloorBounds(x: real, d: real)
    requires d > 0.0
    ensures (x / d).Floor as real * d <= x < ((x / d).Floor + 1) as real * d
  {
    var y := x / d;
    var q := y.Floor;
    assert q as real <= y < q as real + 1.0;
    assert y * d == x;
    ScaleLe(q as real, y, d);
    assert (q + 1) as real == q as real + 1.0;
    ScaleLt(y, (q + 1) as real, d);
    assert x < (q + 1) as real * d;
  }

  /** Python's `x % d` for a positive divisor: in `[0, d)`. */
  function FloorMod(x: real, d: real): (r: real)
    requires d > 0.0
    ensures 0.0 <= r < d
    ensures r == x - FloorDiv(x, d) as real * d
  {
    x - FloorDiv(x, d) as real * d
  }

  /** The three integer fields of `format_time`. */
  datatype Clock = Clock(hours: int, minutes: int, secs: int)

  function Fields(seconds: real): (c: Clock)
    ensures 0 <= c.minutes < 60 && 0 <= c.secs < 60
    ensures c.hours as real * 3600.0 <= seconds < (c.hours + 1) as real * 3600.0
    ensures seconds >= 0.0 ==> c.hours >= 0
  {
    var hours := FloorDiv(seconds, 3600.0);
    var minutes := FloorDiv(FloorMod(seconds, 3600.0), 60.0);
    // `int()` of a value in [0, 60) truncates, which is its floor.
    var secs := FloorMod(seconds, 60.0).Floor;
    Clock(hours, minutes, secs)
  }

  /** `f"{n:02d}"`: zero-padded to two digits, a negative number keeps its sign. */
  function Format2(n: int): (s: string)
    ensures 0 <= n < 100 ==> |s| == 2
  {
    if n < 0 then "-" + NatToString(-n) else Pad2(n)
  }

  function FormatTime(seconds: real): string
  {
    var c := Fields(seconds);
    Format2(c.hours) + ":" + Format2(c.minutes) + ":" + Format2(c.secs)
  }

  /** On whole numbers the float operators agree with the integer ones. */
  lemma FloorDivInt(n: int, d: int)
    requires d > 0
    ensures FloorDiv(n as real, d as real) == n / d
    ensures FloorMod(n as real, d as real) == (n % d) as real
  {
    var q, r := n / d, n % d;
    assert n == q * d + r;
    IntProduct(q, d);
    IntProduct(q + 1, d);
    assert q as real * d as real <= n as real < (q + 1) as real * d as real;
    FloorUnique(n as real, d as real, FloorDiv(n as real, d as real), q);
  }

  lemma IntProduct(a: int, b: int)
    ensures (a * b) as real == a as real * b as real
  {
  }

  /** For whole seconds the fields are the Euclidean quotient and remainders,
      and they add back up to the duration. */
  lemma WholeSeconds(n: int)
    ensures Fields(n as real) == Clock(n / 3600, (n % 3600) / 60, n % 60)
    ensures 3600 * Fields(n as real).hours + 60 * Fields(n as real).minutes + Fields(n as real).secs == n
  {
    WholeFields(n);
    Recombine(n);
  }

  lemma WholeFields(n: int)
    ensures Fields(n as real) == Clock(n / 3600, (n % 3600) / 60, n % 60)
  {
    FloorDivInt(n, 3600);
    FloorDivInt(n % 3600, 60);
    FloorDivInt(n, 60);
    assert ((n % 60) as real).Floor == n % 60;
  }

  /** Hours, minutes and seconds add back up to the duration. */
  lemma Recombine(n: int)
    ensures 3600 * (n / 3600) + 60 * ((n % 3600) / 60) + n % 60 == n
  {
    var q, r := n / 3600, n % 3600;
    var m, s := r / 60, r % 60;
    assert n == 3600 * q + r;
    assert r == 60 * m + s && 0 <= s < 60;
    assert n == 60 * (60 * q + m) + s;
    assert n % 60 == s;
  }

  lemma FloorUnique(x: real, d: real, a: int, b: int)
    requires d > 0.0
    requires a as real * d <= x < (a + 1) as real * d
    requires b as real * d <= x < (b + 1) as real * d
    ensures a == b
  {
    CancelLt(a as real, (b + 1) as real, d);
    CancelLt(b as real, (a + 1) as real, d);
  }

  lemma ScaleLe(a: real, b: real, d: real)
    requires d > 0.0 && a <= b
    ensures a * d <= b * d
  {
  }

  lemma ScaleLt(a: real, b: real, d: real)
    requires d > 0.0 && a < b
    ensures a * d < b * d
  {
  }

  lemma CancelLt(a: real, b: real, d: real)
    requires d > 0.0 && a * d < b * d
    ensures a < b
  {
  }

  /** `HH:MM:SS`: two digits, a colon, two digits, a colon, two digits. */
  predicate TimeShape(s: string)
  {
    |s| == 8 && s[2] == ':' && s[5] == ':'
    && (forall i :: 0 <= i < 8 && i != 2 && i != 5 ==> '0' <= s[i] <= '9')
  }

  /** Reads `HH:MM:SS` (each field two digits) back into seconds. */
  function ParseTime(s: string): int
  {
    if TimeShape(s) then 3600 * ParseNat(s[..2]) + 60 * ParseNat(s[3..5]) + ParseNat(s[6..])
    else -1
  }

  /** Below 100 hours the text has exactly eight characters and reads back
      as the duration: the format loses nothing for whole seconds. */
  lemma FormatTimeRoundTrip(n: int)
    requires 0 <= n < 360000
    ensures |FormatTime(n as real)| == 8
    ensures ParseTime(FormatTime(n as real)) == n
  {
    WholeSeconds(n);
    var c := Fields(n as real);
    Pad2RoundTrip(c.hours);
    Pad2RoundTrip(c.minutes);
    Pad2RoundTrip(c.secs);
    ParseFields(Pad2(c.hours), Pad2(c.minutes), Pad2(c.secs));
  }

  /** Three two-digit fields joined by colons read back field by field. */
  lemma ParseFields(hs: string, ms: string, ss: string)
    requires |hs| == 2 && |ms| == 2 && |ss| == 2
    requires forall i :: 0 <= i < 2 ==> '0' <= hs[i] <= '9' && '0' <= ms[i] <= '9' && '0' <= ss[i] <= '9'
    ensures |hs + ":" + ms + ":" + ss| == 8
    ensures ParseTime(hs + ":" + ms + ":" + ss) == 3600 * ParseNat(hs) + 60 * ParseNat(ms) + ParseNat(ss)
  {
    var s := hs + ":" + ms + ":" + ss;
    JoinedShape(hs, ms, ss);
    assert s[..2] == hs && s[3..5] == ms && s[6..] == ss;
  }

  lemma JoinedShape(hs: string, ms: string, ss: string)
    requires |hs| == 2 && |ms| == 2 && |ss| == 2
    requires forall i :: 0 <= i < 2 ==> '0' <= hs[i] <= '9' && '0' <= ms[i] <= '9' && '0' <= ss[i] <= '9'
    ensures TimeShape(hs + ":" + ms + ":" + ss)
  {
    var s := hs + ":" + ms + ":" + ss;
    forall i | 0 <= i < 8 && i != 2 && i != 5
      ensures '0' <= s[i] <= '9'
    {
      if i < 2 {
        assert s[i] == hs[i];
      } else if i < 5 {
        assert s[i] == ms[i - 3];
      } else {
        assert s[i] == ss[i - 6];
      }
    }
  }
}
