/** Small string routines the scanners rely on: the byte scans of their inner
    loops, the newline count that drives the line counter, and the pieces of
    Go's `strings` and `fmt` packages they call (`strings.Index`,
    `strings.TrimRight`, `%d`, `%c`).

    Output strings are byte strings: each character of a printed line stands
    for the byte with the same code.
 */
module Text {
  import opened CharClass

  /** First index at or after `k` holding byte `c`, or `|s|` if there is none:
      the position where a `for j < n && s[j] != c { j++ }` scan stops. */
  function Find(s: seq<Byte>, k: nat, c: Byte): (e: nat)
    requires k <= |s|
    ensures k <= e <= |s|
    ensures forall m :: k <= m < e ==> s[m] != c
    ensures e < |s| ==> s[e] == c
    decreases |s| - k
  {
    if k == |s| || s[k] == c then k else Find(s, k + 1, c)
  }

  /** End of the longest run of bytes satisfying `p` that starts at `k`
      (maximal munch): every byte of `s[k..e]` satisfies `p`, the next does not. */
  function RunEnd(s: seq<Byte>, k: nat, p: Byte -> bool): (e: nat)
    requires k <= |s|
    ensures k <= e <= |s|
    ensures forall m :: k <= m < e ==> p(s[m])
    ensures e < |s| ==> !p(s[e])
    decreases |s| - k
  {
    if k < |s| && p(s[k]) then RunEnd(s, k + 1, p) else k
  }

  /** `Find` stops at `e` when no byte of `s[k..e]` is `c` and `e` is the end or holds `c`. */
  lemma {:induction false} FindAt(s: seq<Byte>, k: nat, e: nat, c: Byte)
    requires k <= e <= |s|
    requires forall m :: k <= m < e ==> s[m] != c
    requires e == |s| || s[e] == c
    ensures Find(s, k, c) == e
    decreases e - k
  {
    if k < e {
      FindAt(s, k + 1, e, c);
    }
  }

  /** `RunEnd` stops at `e` when all of `s[k..e]` satisfies `p` and `e` is the end or does not. */
  lemma {:induction false} RunEndAt(s: seq<Byte>, k: nat, e: nat, p: Byte -> bool)
    requires k <= e <= |s|
    requires forall m :: k <= m < e ==> p(s[m])
    requires e == |s| || !p(s[e])
    ensures RunEnd(s, k, p) == e
    decreases e - k
  {
    if k < e {
      RunEndAt(s, k + 1, e, p);
    }
  }

  /** Number of newline bytes in `s`. */
  function Newlines(s: seq<Byte>): (n: nat) {
    multiset(s)['\n']
  }

  /** A slice around the byte at `d`. */
  lemma SliceAround(s: seq<Byte>, i: nat, d: nat, e: nat)
    requires i <= d < e <= |s|
    ensures s[i..e] == s[i..d] + [s[d]] + s[d + 1..e]
  {
  }

  /** The newlines of a slice are those of its two halves. */
  lemma NewlinesSplit(s: seq<Byte>, i: nat, j: nat, k: nat)
    requires i <= j <= k <= |s|
    ensures Newlines(s[i..k]) == Newlines(s[i..j]) + Newlines(s[j..k])
  {
    assert s[i..k] == s[i..j] + s[j..k];
  }

  /** A slice without a newline byte adds nothing to the line counter. */
  lemma NoNewlines(s: seq<Byte>, i: nat, j: nat)
    requires i <= j <= |s|
    requires forall m :: i <= m < j ==> s[m] != '\n'
    ensures Newlines(s[i..j]) == 0
  {
    assert '\n' !in s[i..j];
  }

  /** Extending a slice by one byte adds one exactly when that byte is a newline. */
  lemma NewlinesExtend(s: seq<Byte>, i: nat, j: nat)
    requires i <= j < |s|
    ensures Newlines(s[i..j + 1]) == Newlines(s[i..j]) + (if s[j] == '\n' then 1 else 0)
  {
    assert s[i..j + 1] == s[i..j] + [s[j]];
  }

  /** `strings.Index(s, string(c))` for a single byte: the first index of `c`, or -1. */
  function IndexOf(s: string, c: char): (d: int)
    ensures -1 <= d < |s|
    ensures d == -1 <==> c !in s
    ensures d >= 0 ==> s[d] == c && c !in s[..d]
  {
    if |s| == 0 then -1
    else if s[0] == c then 0
    else
      var r := IndexOf(s[1..], c);
      assert s[1..][..(if r < 0 then 0 else r)] == s[1..1 + (if r < 0 then 0 else r)];
      if r == -1 then -1 else r + 1
  }

  /** `strings.TrimRight(s, string(c))` for a single byte: `s` without its
      trailing run of `c`. */
  function TrimRight(s: string, c: char): (r: string)
    ensures |r| <= |s| && r == s[..|r|]
    ensures forall m :: |r| <= m < |s| ==> s[m] == c
    ensures r == [] || r[|r| - 1] != c
  {
    if |s| > 0 && s[|s| - 1] == c then TrimRight(s[..|s| - 1], c) else s
  }

  /** A string of decimal digits. */
  predicate AllDigits(s: string) {
    forall k :: 0 <= k < |s| ==> '0' <= s[k] <= '9'
  }

  /** The value of a decimal numeral. */
  function DecimalValue(s: string): (v: nat)
    requires AllDigits(s)
  {
    if s == [] then 0 else 10 * DecimalValue(s[..|s| - 1]) + (s[|s| - 1] as int - '0' as int)
  }

  /** `%d` of a natural number: its decimal numeral, without leading zeros. */
  function Decimal(n: nat): (r: string)
    ensures |r| > 0 && AllDigits(r)
    ensures r[0] == '0' ==> r == "0"
  {
    if n < 10 then ["0123456789"[n]] else Decimal(n / 10) + ["0123456789"[n % 10]]
  }

  /** `%d` of an integer, with a minus sign when it is negative. */
  function IntText(n: int): (t: string) {
    if n < 0 then "-" + Decimal(-n) else Decimal(n)
  }

  /** Reading `Decimal(n)` back as a numeral yields `n`. */
  lemma {:induction false} DecimalRoundTrip(n: nat)
    ensures DecimalValue(Decimal(n)) == n
  {
    var r := Decimal(n);
    if n >= 10 {
      DecimalRoundTrip(n / 10);
      assert r[..|r| - 1] == Decimal(n / 10);
    }
  }

  /** `%c` of a byte: the UTF-8 encoding of the code point with the byte's
      value, one byte below 0x80 and two bytes from 0x80 on. */
  function RuneText(c: Byte): (r: string)
    ensures forall k :: 0 <= k < |r| ==> r[k] as int < 256
    ensures c as int < 0x80 ==> r == [c]
    ensures c as int >= 0x80 ==> |r| == 2 && 0xC2 <= r[0] as int <= 0xC3 && 0x80 <= r[1] as int < 0xC0
  {
    var k := c as int;
    if k < 0x80 then [c] else [(0xC0 + k / 64) as char, (0x80 + k % 64) as char]
  }

  /** Decoding of a one- or two-byte UTF-8 sequence. */
  function DecodeRune(r: string): (code: int) {
    if |r| == 1 then r[0] as int
    else if |r| == 2 then (r[0] as int - 0xC0) * 64 + (r[1] as int - 0x80)
    else -1
  }

  /** `%c` loses nothing: decoding its output gives the byte back. */
  lemma RuneRoundTrip(c: Byte)
    ensures DecodeRune(RuneText(c)) == c as int
  {
    var k := c as int;
    if k >= 0x80 {
      assert (k / 64) * 64 + k % 64 == k;
    }
  }
}
