/** Fitting a summary into the limits of a delivered result by keeping the longest run of whole claims. */
module DeliveryPrefix {
  import opened Wrappers
  import opened Text

  const MAX_TEXT_BYTES := 1024 * 1024
  const MAX_ARTIFACT_BYTES := 2 * 1024 * 1024
  const MAX_WARNINGS := 256
  const MAX_USIZE := 0xFFFF_FFFF_FFFF_FFFF
  const MAX_ISIZE := 0x7FFF_FFFF_FFFF_FFFF

  const TRUNCATED := "SUMMARY_TRUNCATED_FOR_DELIVERY"
  const TRUNCATED_MESSAGE :=
    "The delivered Connect result contains the largest whole-claim prefix that fits the v1 byte limits"

  /** A text that can be held in memory. */
  type Line = s: string | |s| <= MAX_ISIZE

  datatype Warning = Warning(code: string, message: string)

  datatype Delivery = Delivery(text: string, warnings: seq<Warning>)

  datatype BuildError = InvalidSummary

  /** The size of the serialized content for a text and its warnings; what else goes into it is fixed. */
  type SizeOf = (string, seq<Warning>) -> nat

  /** One more warning never makes the content smaller. */
  ghost predicate GrowsWithWarnings(size: SizeOf) {
    forall text, ws, w :: size(text, ws) <= size(text, ws + [w])
  }

  predicate ValidWarning(w: Warning) {
    && 0 < |w.code| <= 100
    && (forall i :: 0 <= i < |w.code| ==> IsUpper(w.code[i]) || IsDigit(w.code[i]) || w.code[i] == '_')
    && 0 < |w.message| <= 1000
  }

  predicate Fits(text: string, warnings: seq<Warning>, size: SizeOf) {
    && 0 < |text| <= MAX_TEXT_BYTES
    && |warnings| <= MAX_WARNINGS && (forall i :: 0 <= i < |warnings| ==> ValidWarning(warnings[i]))
    && 0 < size(text, warnings) <= MAX_ARTIFACT_BYTES
  }

  function Build(text: string, warnings: seq<Warning>, size: SizeOf): Result<Delivery, BuildError> {
    if Fits(text, warnings, size) then Ok(Delivery(text, warnings)) else Err(InvalidSummary)
  }

  /** The claims separated by blank lines. */
  function Join(lines: seq<Line>): string {
    if |lines| == 0 then ""
    else if |lines| == 1 then lines[0]
    else Join(lines[..|lines| - 1]) + "\n\n" + lines[|lines| - 1]
  }

  predicate HasNotice(warnings: seq<Warning>) {
    exists i :: 0 <= i < |warnings| && warnings[i].code == TRUNCATED
  }

  function Noticed(warnings: seq<Warning>): seq<Warning> {
    if HasNotice(warnings) then warnings else warnings + [Warning(TRUNCATED, TRUNCATED_MESSAGE)]
  }

  function Notices(warnings: seq<Warning>): nat {
    if warnings == [] then 0
    else (if warnings[|warnings| - 1].code == TRUNCATED then 1 else 0) + Notices(warnings[..|warnings| - 1])
  }

  /** The lines are the claims that the summary's text consists of. */
  predicate AreClaims(lines: seq<Line>, text: string) {
    lines != [] && (forall i :: 0 <= i < |lines| ==> lines[i] != "") && Join(lines) == text
  }

  function CheckedAdd(a: nat, b: nat): Option<nat> {
    if a + b <= MAX_USIZE then Some(a + b) else None
  }

  /** Joining puts a blank line between a claim and those behind it. */
  lemma {:induction false} JoinFromFront(lines: seq<Line>)
    ensures lines == [] ==> Join(lines) == ""
    ensures |lines| == 1 ==> Join(lines) == lines[0]
    ensures |lines| > 1 ==> Join(lines) == lines[0] + "\n\n" + Join(lines[1..])
    decreases |lines|
  {
    if |lines| > 1 {
      var front := lines[..|lines| - 1];
      JoinFromFront(front);
      assert lines[1..][..|lines| - 2] == front[1..];
    }
  }

  /** The limits of a delivered result, in figures. */
  lemma FitsInFigures(text: string, warnings: seq<Warning>, size: SizeOf)
    ensures Fits(text, warnings, size) <==>
            && 1 <= |text| <= 1_048_576 && |warnings| <= 256 && 1 <= size(text, warnings) <= 2_097_152
            && forall i :: 0 <= i < |warnings| ==>
                 && 1 <= |warnings[i].code| <= 100 && 1 <= |warnings[i].message| <= 1_000
                 && forall k :: 0 <= k < |warnings[i].code| ==>
                      var code := warnings[i].code[k] as int; 65 <= code <= 90 || 48 <= code <= 57 || code == 95
  {
    forall w: Warning, k | 0 <= k < |w.code|
      ensures IsUpper(w.code[k]) || IsDigit(w.code[k]) || w.code[k] == '_' <==>
              var code := w.code[k] as int; 65 <= code <= 90 || 48 <= code <= 57 || code == 95
    {
    }
  }

  /** The warnings of a truncated result: the notice is there, whether it was before or is added at the end. */
  lemma NoticedByCode(warnings: seq<Warning>)
    ensures (exists w :: w in warnings && w.code == "SUMMARY_TRUNCATED_FOR_DELIVERY") ==> Noticed(warnings) == warnings
    ensures (forall w :: w in warnings ==> w.code != "SUMMARY_TRUNCATED_FOR_DELIVERY") ==>
              |Noticed(warnings)| == |warnings| + 1 && Noticed(warnings)[..|warnings|] == warnings
              && Noticed(warnings)[|warnings|].code == "SUMMARY_TRUNCATED_FOR_DELIVERY"
  {
  }

  lemma PrefixLength(lines: seq<Line>, k: nat)
    requires k < |lines|
    ensures |Join(lines[..k + 1])| == |Join(lines[..k])| + (if k > 0 then 2 else 0) + |lines[k]|
  {
    assert lines[..k + 1][..k] == lines[..k];
  }

  lemma {:induction false} LongerPrefixIsLonger(lines: seq<Line>, j: nat, k: nat)
    requires j <= k <= |lines|
    ensures |Join(lines[..j])| <= |Join(lines[..k])|
  {
    if j < k {
      PrefixLength(lines, k - 1);
      LongerPrefixIsLonger(lines, j, k - 1);
    }
  }

  /** A notice is added at most once, and only where there was none. */
  lemma {:induction false} NoticeOnce(warnings: seq<Warning>)
    ensures HasNotice(warnings) <==> Notices(warnings) > 0
    ensures Notices(Noticed(warnings)) == if HasNotice(warnings) then Notices(warnings) else 1
  {
    if warnings != [] {
      var rest := warnings[..|warnings| - 1];
      NoticeOnce(rest);
      assert HasNotice(warnings) <==> HasNotice(rest) || warnings[|warnings| - 1].code == TRUNCATED;
    }
    if !HasNotice(warnings) {
      var noticed := Noticed(warnings);
      assert noticed[..|noticed| - 1] == warnings;
    }
  }

  /** What does not fit with the warnings it has does not fit with the notice either. */
  lemma NoticeDoesNotHelp(text: string, warnings: seq<Warning>, size: SizeOf)
    requires GrowsWithWarnings(size) && Fits(text, Noticed(warnings), size) && size(text, warnings) > 0
    ensures Fits(text, warnings, size)
  {
    var noticed := Noticed(warnings);
    assert forall i :: 0 <= i < |warnings| ==> warnings[i] == noticed[i];
  }

  /** How many whole claims fit the text limit. The byte count cannot overflow, as no claim is longer than memory. */
  method CountFitting(lines: seq<Line>) returns (count: nat)
    ensures count <= |lines|
    ensures count > 0 ==> |Join(lines[..count])| <= MAX_TEXT_BYTES
    ensures forall k :: count < k <= |lines| ==> |Join(lines[..k])| > MAX_TEXT_BYTES
  {
    var bytes := 0;
    count := 0;
    while count < |lines|
      invariant count <= |lines| && bytes == |Join(lines[..count])| <= MAX_TEXT_BYTES
    {
      PrefixLength(lines, count);
      var separated := CheckedAdd(bytes, if count > 0 then 2 else 0);
      assert separated.Some?;
      var projected := CheckedAdd(separated.value, |lines[count]|);
      assert projected.Some?;
      if projected.value > MAX_TEXT_BYTES {
        forall k | count < k <= |lines| ensures |Join(lines[..k])| > MAX_TEXT_BYTES {
          LongerPrefixIsLonger(lines, count + 1, k);
        }
        return;
      }
      bytes := projected.value;
      count := count + 1;
    }
  }

  /**
   * Delivers the whole summary if it fits, and otherwise the most whole claims that fit together with a notice; it
   * fails only if not even the first claim does, or if the lines are not the summary's claims.
   */
  method FromClaimLines(lines: seq<Line>, text: string, warnings: seq<Warning>, size: SizeOf)
    returns (delivered: Result<(Delivery, nat), BuildError>)
    ensures !AreClaims(lines, text) ==> delivered.Err?
    ensures lines == [] || "" in lines || text != Join(lines) ==> delivered.Err?
    ensures delivered.Ok? ==>
              var d := delivered.value.0;
              && 1 <= |d.text| <= 1_048_576 && |d.warnings| <= 256 && 1 <= size(d.text, d.warnings) <= 2_097_152
    ensures AreClaims(lines, text) && Fits(text, warnings, size) ==>
              delivered == Ok((Delivery(text, warnings), |lines|))
    ensures AreClaims(lines, text) && !Fits(text, warnings, size) && delivered.Ok? ==>
              var k := delivered.value.1;
              && 1 <= k <= |lines| && delivered.value.0 == Delivery(Join(lines[..k]), Noticed(warnings))
              && Fits(Join(lines[..k]), Noticed(warnings), size)
              && (forall j :: k < j <= |lines| ==> !Fits(Join(lines[..j]), Noticed(warnings), size))
              && (GrowsWithWarnings(size) && size(text, warnings) > 0 ==> k < |lines|)
    ensures AreClaims(lines, text) && delivered.Err? ==>
              && !Fits(text, warnings, size)
              && forall j :: 1 <= j <= |lines| ==> !Fits(Join(lines[..j]), Noticed(warnings), size)
  {
    if |lines| == 0 || (exists i :: 0 <= i < |lines| && lines[i] == "") || Join(lines) != text {
      return Err(InvalidSummary);
    }
    var whole := Build(text, warnings, size);
    if whole.Ok? {
      return Ok((whole.value, |lines|));
    }
    var noticed := Noticed(warnings);
    var count := CountFitting(lines);
    while count > 0
      invariant 0 <= count <= |lines|
      invariant forall j :: count < j <= |lines| ==> !Fits(Join(lines[..j]), noticed, size)
    {
      var prefix := Join(lines[..count]);
      var result := Build(prefix, noticed, size);
      if result.Ok? {
        if GrowsWithWarnings(size) && size(text, warnings) > 0 && count == |lines| {
          assert lines[..count] == lines;
          NoticeDoesNotHelp(text, warnings, size);
        }
        return Ok((result.value, count));
      }
      count := count - 1;
    }
    delivered := Err(InvalidSummary);
  }
}
