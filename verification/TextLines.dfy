/** Splitting text into lines and fields, and decimal numbers, as the Rust standard library does it. */
module TextLines {
  import opened Wrappers
  import opened Text

  /** The first line, what is behind its line feed, and whether there was one. */
  function FirstLine(s: string): (r: (string, string, bool))
    ensures |s| > 0 ==> |r.1| < |s|
  {
    if s == "" then ("", "", false)
    else if s[0] == '\n' then ("", s[1..], true)
    else var (line, rest, ended) := FirstLine(s[1..]); ([s[0]] + line, rest, ended)
  }

  function WithoutCarriageReturn(line: string): string {
    if |line| > 0 && line[|line| - 1] == '\r' then line[..|line| - 1] else line
  }

  /**
   * Lines end with a line feed or with a carriage return and a line feed. What is behind the last line feed is a line
   * if it is not empty, and keeps a carriage return it ends with.
   */
  function Lines(s: string): seq<string>
    decreases |s|
  {
    if s == "" then []
    else
      var (line, rest, ended) := FirstLine(s);
      [if ended then WithoutCarriageReturn(line) else line] + Lines(rest)
  }

  /** The parts before and after the first occurrence of `c`. */
  function SplitOnce(s: string, c: char): Option<(string, string)> {
    if s == "" then None
    else if s[0] == c then Some(("", s[1..]))
    else match SplitOnce(s[1..], c)
         case None => None
         case Some((before, after)) => Some(([s[0]] + before, after))
  }

  predicate OccursAt(s: string, pattern: string, i: int) {
    0 <= i && i + |pattern| <= |s| && s[i..i + |pattern|] == pattern
  }

  /** The last place at or before `i` where the pattern occurs. */
  function LastOccurrence(s: string, pattern: string, i: int): (r: Option<nat>)
    requires i <= |s|
    ensures r.Some? ==> r.value <= i && OccursAt(s, pattern, r.value)
    ensures forall k :: (if r.Some? then r.value else -1) < k <= i ==> !OccursAt(s, pattern, k)
    decreases i + 1
  {
    if i < 0 then None else if OccursAt(s, pattern, i) then Some(i) else LastOccurrence(s, pattern, i - 1)
  }

  /** The parts before and after the last occurrence of the pattern. */
  function SplitLast(s: string, pattern: string): Option<(string, string)> {
    match LastOccurrence(s, pattern, |s|)
    case None => None
    case Some(i) => Some((s[..i], s[i + |pattern|..]))
  }

  lemma {:induction false} FirstLineOf(line: string, rest: string)
    requires '\n' !in line
    ensures FirstLine(line + "\n" + rest) == (line, rest, true)
  {
    var text := line + "\n" + rest;
    if line == "" {
      assert text == "\n" + rest;
    } else {
      assert text[0] == line[0] && text[1..] == line[1..] + "\n" + rest;
      FirstLineOf(line[1..], rest);
      assert line == [line[0]] + line[1..];
    }
  }

  lemma {:induction false} SplitOnceOf(before: string, after: string, c: char)
    requires c !in before
    ensures SplitOnce(before + [c] + after, c) == Some((before, after))
  {
    var text := before + [c] + after;
    if before == "" {
      assert text == [c] + after;
    } else {
      assert text[0] == before[0] && text[1..] == before[1..] + [c] + after;
      SplitOnceOf(before[1..], after, c);
      assert before == [before[0]] + before[1..];
    }
  }

  /** A pattern that ends in a character the tail does not have splits the text right before the tail. */
  lemma SplitLastOf(before: string, pattern: string, after: string)
    requires |pattern| > 0 && pattern[|pattern| - 1] !in after
    ensures SplitLast(before + pattern + after, pattern) == Some((before, after))
  {
    var text := before + pattern + after;
    var n := |pattern|;
    assert text[|before|..|before| + n] == pattern;
    assert OccursAt(text, pattern, |before|);
    forall k | |before| < k <= |text| - n
      ensures !OccursAt(text, pattern, k)
    {
      assert text[k..k + n][n - 1] == text[k + n - 1] == after[k - |before| - 1];
    }
    assert text[..|before|] == before && text[|before| + |pattern|..] == after;
  }

  // ---- decimal numbers ----

  function Digit(d: nat): char
    requires d < 10
  {
    '0' + d as char
  }

  function Decimal(n: nat): (s: string)
    ensures |s| > 0 && forall i :: 0 <= i < |s| ==> IsDigit(s[i])
  {
    if n < 10 then [Digit(n)] else Decimal(n / 10) + [Digit(n % 10)]
  }

  function DigitsValue(s: string): nat
    requires forall i :: 0 <= i < |s| ==> IsDigit(s[i])
  {
    if s == "" then 0
    else
      var last := s[|s| - 1];
      assert IsDigit(last);
      DigitsValue(s[..|s| - 1]) * 10 + (last as nat - '0' as nat)
  }

  /** An optional plus sign, then digits; a value that does not fit is refused. */
  function ParseUnsigned(s: string, max: nat): Option<nat> {
    var digits := if |s| > 0 && s[0] == '+' then s[1..] else s;
    if digits != "" && (forall i :: 0 <= i < |digits| ==> IsDigit(digits[i])) && DigitsValue(digits) <= max then
      Some(DigitsValue(digits))
    else None
  }

  lemma {:induction false} DigitsValueOfDecimal(n: nat)
    ensures DigitsValue(Decimal(n)) == n
  {
    var s := Decimal(n);
    if n >= 10 {
      assert s[..|s| - 1] == Decimal(n / 10);
      DigitsValueOfDecimal(n / 10);
    } else {
      assert s[..|s| - 1] == "";
    }
  }

  lemma ParseUnsignedOfDecimal(n: nat, max: nat)
    requires n <= max
    ensures ParseUnsigned(Decimal(n), max) == Some(n)
  {
    DigitsValueOfDecimal(n);
    assert IsDigit(Decimal(n)[0]);
  }

  /** The number without its last `k` digits. */
  function Tens(n: nat, k: nat): nat {
    if k == 0 then n else Tens(n / 10, k - 1)
  }

  /** A number is printed as its decimal digits, the units last, without leading zeros. */
  lemma {:induction false} DecimalDigit(n: nat, k: nat)
    requires k < |Decimal(n)|
    ensures Decimal(n)[|Decimal(n)| - 1 - k] as int == 48 + Tens(n, k) % 10
    ensures n > 0 ==> Decimal(n)[0] as int != 48
  {
    if n >= 10 {
      DecimalDigit(n / 10, if k > 0 then k - 1 else 0);
    }
  }

  function Power10(k: nat): nat {
    if k == 0 then 1 else 10 * Power10(k - 1)
  }

  lemma {:induction false} DecimalLength(n: nat, k: nat)
    requires k > 0 && n < Power10(k)
    ensures |Decimal(n)| <= k
  {
    if n >= 10 {
      assert k > 1 by {
        assert Power10(1) == 10;
      }
      DecimalLength(n / 10, k - 1);
    }
  }
}
