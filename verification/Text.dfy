/** Character classes and the text forms that several components accept. A string stands for its UTF-8 bytes. */
module Text {

  predicate IsDigit(c: char) {
    '0' <= c <= '9'
  }

  predicate IsLower(c: char) {
    'a' <= c <= 'z'
  }

  predicate IsUpper(c: char) {
    'A' <= c <= 'Z'
  }

  predicate IsHex(c: char) {
    IsDigit(c) || 'a' <= c <= 'f' || 'A' <= c <= 'F'
  }

  /** Lower-case hexadecimal of exactly the given length. */
  predicate IsLowerHex(s: string, length: nat) {
    |s| == length && forall i :: 0 <= i < |s| ==> IsDigit(s[i]) || 'a' <= s[i] <= 'f'
  }

  /** The 36 characters of the hyphenated form, starting at `from`. */
  predicate IsHyphenatedAt(s: string, from: nat)
    requires from + 36 <= |s|
  {
    forall i :: from <= i < from + 36 ==>
      if i - from == 8 || i - from == 13 || i - from == 18 || i - from == 23 then s[i] == '-' else IsHex(s[i])
  }

  /** The four text forms a UUID parser accepts: simple, hyphenated, braced and URN. */
  predicate IsUuid(s: string) {
    || (|s| == 32 && forall i :: 0 <= i < 32 ==> IsHex(s[i]))
    || (|s| == 36 && IsHyphenatedAt(s, 0))
    || (|s| == 38 && s[0] == '{' && s[37] == '}' && IsHyphenatedAt(s, 1))
    || (|s| == 45 && "urn:uuid:" <= s && IsHyphenatedAt(s, 9))
  }

  predicate IsVersionChar(c: char) {
    IsDigit(c) || IsLower(c) || IsUpper(c) || c == '.' || c == '+' || c == ':' || c == '~' || c == '_' || c == '-'
  }

  predicate ValidVersion(s: string) {
    0 < |s| <= 128 && forall i :: 0 <= i < |s| ==> IsVersionChar(s[i])
  }

  // ---- what these forms are, said differently ----

  /** Groups of 8, 4, 4, 4 and 12 digits. */
  function Hyphenated(h: string): string
    requires |h| == 32
  {
    h[..8] + "-" + h[8..12] + "-" + h[12..16] + "-" + h[16..20] + "-" + h[20..]
  }

  function DigitsOf(t: string): string
    requires |t| == 36
  {
    t[..8] + t[9..13] + t[14..18] + t[19..23] + t[24..]
  }

  lemma HyphenatedDigits(t: string)
    requires |t| == 36
    ensures IsHyphenatedAt(t, 0) <==>
            Hyphenated(DigitsOf(t)) == t && forall i :: 0 <= i < 32 ==> IsHex(DigitsOf(t)[i])
  {
    var h := DigitsOf(t);
    var u := Hyphenated(h);
    assert forall i :: 0 <= i < 36 && i != 8 && i != 13 && i != 18 && i != 23 ==> u[i] == t[i];
    assert u[8] == u[13] == u[18] == u[23] == '-';
    if IsHyphenatedAt(t, 0) {
      assert u == t;
    }
  }

  /** The ASCII codes of the digits, A to F and a to f. */
  predicate IsHexCode(code: int) {
    48 <= code <= 57 || 65 <= code <= 70 || 97 <= code <= 102
  }

  /** The text forms of a UUID: its 32 digits alone, or grouped by hyphens, in braces or behind the URN prefix. */
  predicate IsFormOf(s: string, h: string) {
    && |h| == 32 && (forall i :: 0 <= i < 32 ==> IsHexCode(h[i] as int))
    && (s == h || s == Hyphenated(h) || s == "{" + Hyphenated(h) + "}" || s == "urn:uuid:" + Hyphenated(h))
  }

  lemma HyphenatedShifted(s: string, from: nat)
    requires from + 36 <= |s|
    ensures IsHyphenatedAt(s, from) <==> IsHyphenatedAt(s[from..from + 36], 0)
  {
    var t := s[from..from + 36];
    assert forall i :: from <= i < from + 36 ==> s[i] == t[i - from];
    assert forall i :: 0 <= i < 36 ==> t[i] == s[i + from];
  }

  /** A digit-by-digit check accepts exactly the forms of some 32 hexadecimal digits. */
  lemma UuidForms(s: string)
    ensures IsUuid(s) <==> exists h :: IsFormOf(s, h)
  {
    if IsUuid(s) {
      var h := UuidDigits(s);
    } else if exists h :: IsFormOf(s, h) {
      var h :| IsFormOf(s, h);
      FormIsUuid(s, h);
      assert false;
    }
  }

  lemma UuidDigits(s: string) returns (h: string)
    requires IsUuid(s)
    ensures IsFormOf(s, h)
  {
    if |s| == 32 {
      h := s;
    } else {
      var from := if |s| == 36 then 0 else if |s| == 38 then 1 else 9;
      var t := s[from..from + 36];
      HyphenatedShifted(s, from);
      HyphenatedDigits(t);
      h := DigitsOf(t);
      assert s == s[..from] + t + s[from + 36..];
    }
  }

  lemma HyphenatedBack(h: string)
    requires |h| == 32
    ensures |Hyphenated(h)| == 36 && DigitsOf(Hyphenated(h)) == h
  {
    var t := Hyphenated(h);
    assert t[..8] == h[..8] && t[9..13] == h[8..12] && t[14..18] == h[12..16] && t[19..23] == h[16..20];
    assert t[24..] == h[20..];
  }

  lemma FormIsUuid(s: string, h: string)
    requires IsFormOf(s, h)
    ensures IsUuid(s)
  {
    if s != h {
      var t := Hyphenated(h);
      HyphenatedBack(h);
      HyphenatedDigits(t);
      var from := if |s| == 36 then 0 else if |s| == 38 then 1 else 9;
      assert s[from..from + 36] == t;
      HyphenatedShifted(s, from);
    }
  }

  /** A version is 1 to 128 letters, digits and signs of ASCII, the signs being a full stop, + : ~ _ and a hyphen. */
  lemma VersionCodes(s: string)
    ensures ValidVersion(s) <==>
            && 0 < |s| <= 128
            && forall i :: 0 <= i < |s| ==>
                 || 48 <= s[i] as int <= 57 || 65 <= s[i] as int <= 90 || 97 <= s[i] as int <= 122
                 || s[i] as int == 46 || s[i] as int == 43 || s[i] as int == 58 || s[i] as int == 126
                 || s[i] as int == 95 || s[i] as int == 45
  {
  }
}
