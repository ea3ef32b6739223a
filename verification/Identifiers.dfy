/**
 * The identifier recognisers. Entitlements read a key or feature id in one pass that tracks whether the current
 * segment has a character; job contracts check positions and forbidden pairs. Both accept the same grammar.
 */
module Identifiers {
  import opened Text
  import opened TextLines

  const MAX_ID_CHARS := 100

  predicate IsAlnum(c: char) {
    IsLower(c) || IsDigit(c)
  }

  predicate IsSeparator(c: char, underscore: bool) {
    c == '.' || c == '-' || (underscore && c == '_')
  }

  // ---- the grammar: runs of letters and digits with single separators between them ----

  predicate IsRun(s: string) {
    s != "" && forall i :: 0 <= i < |s| ==> IsAlnum(s[i])
  }

  /** A run, and for each further run the separator before it. */
  datatype Parse = Parse(first: string, rest: seq<(char, string)>)

  predicate WellFormed(p: Parse, underscore: bool) {
    IsRun(p.first) && forall k :: 0 <= k < |p.rest| ==> IsSeparator(p.rest[k].0, underscore) && IsRun(p.rest[k].1)
  }

  function TextOf(p: Parse): string
    decreases |p.rest|
  {
    if p.rest == [] then p.first
    else
      var last := p.rest[|p.rest| - 1];
      TextOf(p.(rest := p.rest[..|p.rest| - 1])) + [last.0] + last.1
  }

  ghost predicate InGrammar(s: string, underscore: bool) {
    exists p :: WellFormed(p, underscore) && TextOf(p) == s
  }

  // ---- the same, position by position ----

  predicate Alternates(s: string, underscore: bool) {
    && s != "" && IsAlnum(s[0]) && IsAlnum(s[|s| - 1])
    && (forall i :: 0 <= i < |s| ==> IsAlnum(s[i]) || IsSeparator(s[i], underscore))
    && (forall i :: 0 < i < |s| ==> IsAlnum(s[i - 1]) || IsAlnum(s[i]))
  }

  lemma {:induction false} ParsedAlternates(p: Parse, underscore: bool)
    requires WellFormed(p, underscore)
    ensures Alternates(TextOf(p), underscore)
    decreases |p.rest|
  {
    if p.rest != [] {
      var shorter := p.(rest := p.rest[..|p.rest| - 1]);
      var last := p.rest[|p.rest| - 1];
      ParsedAlternates(shorter, underscore);
      var s, t := TextOf(shorter), TextOf(p);
      assert t == s + [last.0] + last.1;
      assert t[|t| - 1] == last.1[|last.1| - 1];
    }
  }

  /** A letter or digit lengthens the last run. */
  lemma LongerLastRun(p: Parse, c: char, underscore: bool) returns (q: Parse)
    requires WellFormed(p, underscore) && IsAlnum(c)
    ensures WellFormed(q, underscore) && TextOf(q) == TextOf(p) + [c]
  {
    if p.rest == [] {
      q := Parse(p.first + [c], []);
    } else {
      var m := |p.rest| - 1;
      var last := p.rest[m];
      q := p.(rest := p.rest[..m] + [(last.0, last.1 + [c])]);
      assert q.rest[..m] == p.rest[..m];
      assert TextOf(q) == TextOf(p.(rest := p.rest[..m])) + [last.0] + (last.1 + [c]);
    }
  }

  lemma OneMoreRun(p: Parse, separator: char, c: char, underscore: bool) returns (q: Parse)
    requires WellFormed(p, underscore) && IsSeparator(separator, underscore) && IsAlnum(c)
    ensures WellFormed(q, underscore) && TextOf(q) == TextOf(p) + [separator] + [c]
  {
    q := p.(rest := p.rest + [(separator, [c])]);
    assert q.rest[..|q.rest| - 1] == p.rest;
  }

  lemma {:induction false} AlternatingParses(s: string, underscore: bool) returns (p: Parse)
    requires Alternates(s, underscore)
    ensures WellFormed(p, underscore) && TextOf(p) == s
    decreases |s|
  {
    var n := |s|;
    if n == 1 {
      p := Parse(s, []);
    } else if IsAlnum(s[n - 2]) {
      var shorter := AlternatingParses(s[..n - 1], underscore);
      p := LongerLastRun(shorter, s[n - 1], underscore);
      assert s == s[..n - 1] + [s[n - 1]];
    } else {
      assert IsAlnum(s[n - 3]);
      var shorter := AlternatingParses(s[..n - 2], underscore);
      p := OneMoreRun(shorter, s[n - 2], s[n - 1], underscore);
      assert s == s[..n - 2] + [s[n - 2]] + [s[n - 1]];
    }
  }

  lemma GrammarIsAlternation(s: string, underscore: bool)
    ensures InGrammar(s, underscore) <==> Alternates(s, underscore)
  {
    if Alternates(s, underscore) {
      var p := AlternatingParses(s, underscore);
    }
    if InGrammar(s, underscore) {
      var p :| WellFormed(p, underscore) && TextOf(p) == s;
      ParsedAlternates(p, underscore);
    }
  }

  /**
   * The grammar in ASCII codes: digits and lower-case letters at both ends and, between them, also a full stop, a
   * hyphen or, where allowed, an underscore, never two of these in a row.
   */
  lemma GrammarInCodes(s: string, underscore: bool)
    ensures InGrammar(s, underscore) <==>
            && s != "" && (48 <= s[0] as int <= 57 || 97 <= s[0] as int <= 122)
            && (48 <= s[|s| - 1] as int <= 57 || 97 <= s[|s| - 1] as int <= 122)
            && forall i :: 0 <= i < |s| && !(48 <= s[i] as int <= 57 || 97 <= s[i] as int <= 122) ==>
                 && (s[i] as int == 46 || s[i] as int == 45 || (underscore && s[i] as int == 95))
                 && (i > 0 ==> 48 <= s[i - 1] as int <= 57 || 97 <= s[i - 1] as int <= 122)
  {
    GrammarIsAlternation(s, underscore);
    forall i | 0 <= i < |s|
      ensures IsAlnum(s[i]) <==> 48 <= s[i] as int <= 57 || 97 <= s[i] as int <= 122
      ensures IsSeparator(s[i], underscore) <==>
              s[i] as int == 46 || s[i] as int == 45 || (underscore && s[i] as int == 95)
    {
    }
  }

  /** The one-pass recogniser accepts exactly the grammar, up to the length limit. */
  method ValidSegments(value: string, maxChars: nat, underscore: bool) returns (valid: bool)
    ensures valid <==> |value| <= maxChars && InGrammar(value, underscore)
  {
    GrammarIsAlternation(value, underscore);
    if value == "" || |value| > maxChars {
      return false;
    }
    var segmentHasCharacter := false;
    for i := 0 to |value|
      invariant forall j :: 0 <= j < i ==> IsAlnum(value[j]) || IsSeparator(value[j], underscore)
      invariant forall j :: 0 < j < i ==> IsAlnum(value[j - 1]) || IsAlnum(value[j])
      invariant i > 0 ==> IsAlnum(value[0])
      invariant segmentHasCharacter <==> i > 0 && IsAlnum(value[i - 1])
    {
      if IsAlnum(value[i]) {
        segmentHasCharacter := true;
      } else if IsSeparator(value[i], underscore) && segmentHasCharacter {
        segmentHasCharacter := false;
      } else {
        return false;
      }
    }
    valid := segmentHasCharacter;
  }

  predicate Contains(s: string, pattern: string) {
    exists i :: 0 <= i <= |s| && OccursAt(s, pattern, i)
  }

  /** The recogniser of the job contracts: allowed bytes by position, and no two separators in a row. */
  predicate ValidByPositions(value: string) {
    && 0 < |value| <= MAX_ID_CHARS
    && (forall i :: 0 <= i < |value| ==>
          IsAlnum(value[i]) || ((value[i] == '.' || value[i] == '-') && 0 < i && i + 1 < |value|))
    && !Contains(value, "..") && !Contains(value, "--") && !Contains(value, ".-") && !Contains(value, "-.")
  }

  lemma PairOccurs(s: string, i: nat)
    requires i + 1 < |s|
    ensures Contains(s, [s[i], s[i + 1]])
  {
    assert s[i..i + 2] == [s[i], s[i + 1]];
    assert OccursAt(s, [s[i], s[i + 1]], i);
  }

  /** Forbidding the four pairs is forbidding adjacent separators. */
  lemma PairsForbidden(s: string)
    requires forall i :: 0 <= i < |s| ==> IsAlnum(s[i]) || IsSeparator(s[i], false)
    ensures !Contains(s, "..") && !Contains(s, "--") && !Contains(s, ".-") && !Contains(s, "-.")
       <==> forall i :: 0 < i < |s| ==> IsAlnum(s[i - 1]) || IsAlnum(s[i])
  {
    if forall i :: 0 < i < |s| ==> IsAlnum(s[i - 1]) || IsAlnum(s[i]) {
      forall a, b, i | OccursAt(s, [a, b], i)
        ensures IsAlnum(a) || IsAlnum(b)
      {
        assert s[i..i + 2][0] == s[i] && s[i..i + 2][1] == s[i + 1];
        assert IsAlnum(s[i + 1 - 1]) || IsAlnum(s[i + 1]);
      }
    } else {
      var i :| 0 < i < |s| && !IsAlnum(s[i - 1]) && !IsAlnum(s[i]);
      PairOccurs(s, i - 1);
    }
  }

  /** On every string the two recognisers agree: both accept the grammar without underscores, up to 100 characters. */
  lemma RecognisersAgree(value: string)
    ensures ValidByPositions(value) <==> |value| <= 100 && InGrammar(value, false)
  {
    GrammarIsAlternation(value, false);
    if forall i :: 0 <= i < |value| ==> IsAlnum(value[i]) || IsSeparator(value[i], false) {
      PairsForbidden(value);
    }
  }
}
