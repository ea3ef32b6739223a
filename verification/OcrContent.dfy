/**
 * What is sent to an OCR provider and what comes back: the saved request and its checks, and the judgement of a status
 * report. Digests, JSON, base64 and the reading of PDF files are functions of a `Codec`.
 */
module OcrContent {
  import opened Wrappers

  type Bytes = string

  const MAX_INPUT_BYTES := 32 * 1024 * 1024
  const MAX_PDF_BYTES := 2 * 1024 * 1024
  const MAX_TEXT_BYTES := 256 * 1024
  const CAPABILITY_ID := "document.ocr"
  const PDF_MEDIA_TYPE := "application/pdf"
  const OCR_PDF_MEDIA_TYPE := "application/vnd.local-connect.ocr-pdf"
  const TEXT_MEDIA_TYPE := "text/plain"
  const APP_ID := "document-summarizer"
  const PROVIDER_APP_ID := "document-ocr"
  const MAX_PAGES := 100

  datatype InputArtifact = InputArtifact(artifactId: string, mediaType: string, byteSize: nat, sha256: string,
                                         displayName: string, sourceAppId: string)

  datatype JobRequest = JobRequest(protocol: nat, jobId: string, capabilityId: string, capabilityVersion: string,
                                   inputs: seq<InputArtifact>, parameters: map<string, string>)

  /** What is stored when the handoff is prepared, and never changes. */
  datatype Saved = Saved(jobId: string, requestJson: string, requestSha256: string,
                         source: Bytes, sourceSize: nat, sourceSha256: string, sourceArtifactId: string,
                         sourceDisplayName: string, providerAppId: string, providerInstanceId: string,
                         childRunId: string)

  datatype OutputArtifact = OutputArtifact(artifactId: string, mediaType: string, byteSize: nat, sha256: string,
                                           payload: string)

  datatype JobState = JobAccepted | JobProcessing | JobDone | JobFailed

  datatype JobStatus = JobStatus(protocol: nat, jobId: string, capabilityId: string, capabilityVersion: string,
                                 appId: string, instanceId: string, inputs: seq<InputArtifact>, state: JobState,
                                 outputs: Option<seq<OutputArtifact>>, hasError: bool)

  datatype Outputs = Outputs(pdfId: string, pdf: Bytes, textId: string, text: Bytes)

  /** `paired(source, pdf, text)`: the text is that of the tagged PDF and has the pages of the source. */
  datatype Codec = Codec(digest: Bytes -> string, parse: string -> Option<JobRequest>, write: JobRequest -> string,
                         decode: string -> Option<Bytes>, encode: Bytes -> string, pages: Bytes -> Option<nat>,
                         paired: (Bytes, Bytes, Bytes) -> bool)

  function CapabilityVersion(protocol: nat): Option<string> {
    if protocol == 2 then Some("1.0") else if protocol == 3 then Some("1.1") else None
  }

  // ---- the request ----

  predicate RequestFits(s: Saved, r: JobRequest) {
    && CapabilityVersion(r.protocol) == Some(r.capabilityVersion)
    && r.jobId == s.jobId && r.capabilityId == CAPABILITY_ID && r.parameters == map[]
    && r.inputs == [InputArtifact(s.sourceArtifactId, PDF_MEDIA_TYPE, s.sourceSize, s.sourceSha256,
                                  s.sourceDisplayName, APP_ID)]
  }

  /** The request to send: the stored one, if it and the stored source are what was prepared. */
  function SavedRequest(s: Saved, c: Codec): Option<JobRequest> {
    if |s.source| == 0 || |s.source| > MAX_INPUT_BYTES || |s.source| != s.sourceSize
       || c.digest(s.source) != s.sourceSha256 || c.digest(s.requestJson) != s.requestSha256 then None
    else
      match c.parse(s.requestJson)
      case None => None
      case Some(r) => if RequestFits(s, r) then Some(r) else None
  }

  /** The request describes exactly the bytes that go with it: its one input has their size and digest. */
  lemma SavedRequestDescribesSource(s: Saved, c: Codec)
    requires SavedRequest(s, c).Some?
    ensures var r := SavedRequest(s, c).value;
            && c.parse(s.requestJson) == Some(r) && r.jobId == s.jobId && r.capabilityId == CAPABILITY_ID
            && |r.inputs| == 1 && r.inputs[0].byteSize == |s.source| && r.inputs[0].sha256 == c.digest(s.source)
            && r.inputs[0].artifactId == s.sourceArtifactId
  {
  }

  /** The names drawn for a handoff when it is prepared. */
  datatype Names = Names(artifactId: string, jobId: string, childRunId: string)

  datatype Provider = Provider(appId: string, instanceId: string, protocol: nat)

  function NewRequest(source: Bytes, contentHash: string, filename: string, n: Names, p: Provider): JobRequest
    requires CapabilityVersion(p.protocol).Some?
  {
    JobRequest(p.protocol, n.jobId, CAPABILITY_ID, CapabilityVersion(p.protocol).value,
               [InputArtifact(n.artifactId, PDF_MEDIA_TYPE, |source|, contentHash, filename, APP_ID)], map[])
  }

  /** What is stored about the document a handoff is for, and the state of the run it belongs to. */
  datatype Document = Document(byteSize: nat, contentHash: string, filename: string,
                               isParsed: bool, isNative: bool, requiresOcr: bool)

  /** The source is still the document that was ingested, and a PDF that a provider takes. */
  predicate SourceIntact(source: Bytes, d: Document, c: Codec) {
    && 0 < |source| <= MAX_INPUT_BYTES && |source| == d.byteSize && c.digest(source) == d.contentHash
    && c.pages(source).Some? && 1 <= c.pages(source).value <= MAX_PAGES
  }

  /** A scanned document that was parsed as it is, and the provider for it. */
  predicate Admissible(d: Document, p: Provider) {
    d.isParsed && d.isNative && d.requiresOcr && p.appId == PROVIDER_APP_ID
  }

  /** What preparing a handoff stores. */
  function Prepare(source: Bytes, d: Document, n: Names, p: Provider, c: Codec): Option<Saved>
    requires CapabilityVersion(p.protocol).Some?
  {
    if !SourceIntact(source, d, c) || !Admissible(d, p) then None
    else
      var json := c.write(NewRequest(source, d.contentHash, d.filename, n, p));
      Some(Saved(n.jobId, json, c.digest(json), source, |source|, d.contentHash, n.artifactId, d.filename,
                 p.appId, p.instanceId, n.childRunId))
  }

  /** A handoff as it was prepared passes the check made before sending, and sends the request it was prepared with. */
  lemma PreparedRequestIsSaved(source: Bytes, d: Document, n: Names, p: Provider, c: Codec)
    requires CapabilityVersion(p.protocol).Some? && forall r :: c.parse(c.write(r)) == Some(r)
    requires Prepare(source, d, n, p, c).Some?
    ensures SavedRequest(Prepare(source, d, n, p, c).value, c) ==
            Some(NewRequest(source, d.contentHash, d.filename, n, p))
    ensures Serves(p, Prepare(source, d, n, p, c).value, c)
  {
    var r := NewRequest(source, d.contentHash, d.filename, n, p);
    assert c.parse(c.write(r)) == Some(r);
  }

  /** The protocol of the stored request. */
  function SavedProtocol(s: Saved, c: Codec): Option<nat> {
    match c.parse(s.requestJson)
    case None => None
    case Some(r) => if CapabilityVersion(r.protocol).Some? then Some(r.protocol) else None
  }

  /** The provider is the one the handoff was prepared for. */
  predicate Serves(p: Provider, s: Saved, c: Codec) {
    p.appId == s.providerAppId && p.instanceId == s.providerInstanceId && SavedProtocol(s, c) == Some(p.protocol)
  }

  // ---- the report ----

  datatype Report = Foreign | Working | Broken | Ready(outputs: Outputs) | Malformed

  predicate IdentityFits(s: Saved, c: Codec, status: JobStatus) {
    && c.parse(s.requestJson).Some? && CapabilityVersion(status.protocol) == Some(status.capabilityVersion)
    && status.protocol == c.parse(s.requestJson).value.protocol
    && status.jobId == s.jobId && status.capabilityId == CAPABILITY_ID
    && status.appId == s.providerAppId && status.instanceId == s.providerInstanceId
    && |status.inputs| == 1 && status.inputs[0].artifactId == s.sourceArtifactId
    && status.inputs[0].mediaType == PDF_MEDIA_TYPE && status.inputs[0].byteSize == s.sourceSize
    && status.inputs[0].sha256 == s.sourceSha256
  }

  /** A result comes exactly with a finished job, an error exactly with a failed one. */
  predicate ShapeFits(status: JobStatus) {
    (status.outputs.Some? <==> status.state.JobDone?) && (status.hasError <==> status.state.JobFailed?)
  }

  function Matching(outputs: seq<OutputArtifact>, mediaType: string): seq<OutputArtifact> {
    if outputs == [] then []
    else (if outputs[0].mediaType == mediaType then [outputs[0]] else []) + Matching(outputs[1..], mediaType)
  }

  function OneOutput(outputs: seq<OutputArtifact>, mediaType: string): Option<OutputArtifact> {
    var found := Matching(outputs, mediaType);
    if |found| == 1 then Some(found[0]) else None
  }

  function DecodeOutput(o: OutputArtifact, limit: nat, c: Codec): Option<Bytes> {
    match c.decode(o.payload)
    case None => None
    case Some(bytes) =>
      if c.encode(bytes) != o.payload || |bytes| == 0 || |bytes| > limit || |bytes| != o.byteSize
         || c.digest(bytes) != o.sha256 then None
      else Some(bytes)
  }

  function CompletedOutputs(s: Saved, outputs: seq<OutputArtifact>, c: Codec): Option<Outputs> {
    var pdf := OneOutput(outputs, OCR_PDF_MEDIA_TYPE);
    var text := OneOutput(outputs, TEXT_MEDIA_TYPE);
    if |outputs| != 2 || pdf.None? || text.None? || pdf.value.artifactId == text.value.artifactId
       || pdf.value.artifactId == s.sourceArtifactId || text.value.artifactId == s.sourceArtifactId then None
    else
      var pdfBytes := DecodeOutput(pdf.value, MAX_PDF_BYTES, c);
      var textBytes := DecodeOutput(text.value, MAX_TEXT_BYTES, c);
      if pdfBytes.None? || textBytes.None? || !c.paired(s.source, pdfBytes.value, textBytes.value) then None
      else Some(Outputs(pdf.value.artifactId, pdfBytes.value, text.value.artifactId, textBytes.value))
  }

  function Judge(s: Saved, c: Codec, status: JobStatus): Report {
    if !IdentityFits(s, c, status) || !ShapeFits(status) then Foreign
    else
      match status.state
      case JobAccepted => Working
      case JobProcessing => Working
      case JobFailed => Broken
      case JobDone =>
        match CompletedOutputs(s, status.outputs.value, c)
        case None => Malformed
        case Some(outputs) => Ready(outputs)
  }

  /** Outputs that may be kept for this handoff. */
  predicate Acceptable(s: Saved, c: Codec, o: Outputs) {
    && 0 < |o.pdf| <= MAX_PDF_BYTES && 0 < |o.text| <= MAX_TEXT_BYTES && c.paired(s.source, o.pdf, o.text)
    && o.pdfId != o.textId && o.pdfId != s.sourceArtifactId && o.textId != s.sourceArtifactId
  }

  /** The artifact declares these bytes, and they are what it encodes. */
  predicate Holds(a: OutputArtifact, mediaType: string, id: string, bytes: Bytes, c: Codec) {
    && a.mediaType == mediaType && a.artifactId == id
    && c.decode(a.payload) == Some(bytes) && c.encode(bytes) == a.payload
    && a.byteSize == |bytes| && a.sha256 == c.digest(bytes)
  }

  /** Two artifacts, in either order: one holds the PDF, the other the text. */
  predicate Delivers(outputs: seq<OutputArtifact>, o: Outputs, c: Codec) {
    && |outputs| == 2
    && exists i :: 0 <= i < 2 && Holds(outputs[i], OCR_PDF_MEDIA_TYPE, o.pdfId, o.pdf, c)
                   && Holds(outputs[1 - i], TEXT_MEDIA_TYPE, o.textId, o.text, c)
  }

  /** Selecting one of two outputs by media type finds the one that alone is of this type. */
  lemma OneOfTwo(outputs: seq<OutputArtifact>, mediaType: string)
    requires |outputs| == 2
    ensures OneOutput(outputs, mediaType) ==
            if (outputs[0].mediaType == mediaType) == (outputs[1].mediaType == mediaType) then None
            else if outputs[0].mediaType == mediaType then Some(outputs[0])
            else Some(outputs[1])
  {
    assert outputs[1..] == [outputs[1]] && outputs[1..][1..] == [];
    assert Matching([outputs[1]], mediaType) == if outputs[1].mediaType == mediaType then [outputs[1]] else [];
    assert Matching(outputs, mediaType) ==
           (if outputs[0].mediaType == mediaType then [outputs[0]] else []) + Matching([outputs[1]], mediaType);
  }

  /** The checks on finished outputs accept exactly the pairs that are delivered and may be kept. */
  lemma CompletedIffDelivered(s: Saved, outputs: seq<OutputArtifact>, o: Outputs, c: Codec)
    ensures CompletedOutputs(s, outputs, c) == Some(o) <==> Delivers(outputs, o, c) && Acceptable(s, c, o)
  {
    if |outputs| == 2 {
      OneOfTwo(outputs, OCR_PDF_MEDIA_TYPE);
      OneOfTwo(outputs, TEXT_MEDIA_TYPE);
      if CompletedOutputs(s, outputs, c) == Some(o) {
        var i := if outputs[0].mediaType == OCR_PDF_MEDIA_TYPE then 0 else 1;
        assert Holds(outputs[i], OCR_PDF_MEDIA_TYPE, o.pdfId, o.pdf, c);
        assert Holds(outputs[1 - i], TEXT_MEDIA_TYPE, o.textId, o.text, c);
      }
    }
  }

  /**
   * A report yields outputs exactly if it is on this very job, from its provider, says that it is done, and delivers
   * outputs that may be kept, in whichever order; and then it yields those.
   */
  lemma ReadyIffDelivered(s: Saved, c: Codec, status: JobStatus, o: Outputs)
    ensures Judge(s, c, status) == Ready(o) <==>
            && IdentityFits(s, c, status) && status.state.JobDone? && !status.hasError
            && status.outputs.Some? && Delivers(status.outputs.value, o, c) && Acceptable(s, c, o)
  {
    if status.outputs.Some? {
      CompletedIffDelivered(s, status.outputs.value, o, c);
    }
  }

  // ---- the judgement, by what the report says ----

  /** The report names the request that was saved: protocol, job, capability, provider, and the one input. */
  predicate Echoes(status: JobStatus, s: Saved, r: JobRequest) {
    && status.protocol == r.protocol && status.jobId == r.jobId
    && status.capabilityId == r.capabilityId && status.capabilityVersion == r.capabilityVersion
    && status.appId == s.providerAppId && status.instanceId == s.providerInstanceId
    && |status.inputs| == 1 && |r.inputs| == 1 && status.inputs[0].artifactId == r.inputs[0].artifactId
    && status.inputs[0].mediaType == r.inputs[0].mediaType && status.inputs[0].byteSize == r.inputs[0].byteSize
    && status.inputs[0].sha256 == r.inputs[0].sha256
  }

  /** A report is on this job exactly if it echoes the request that was sent. */
  lemma IdentityIffEcho(s: Saved, c: Codec, status: JobStatus)
    requires SavedRequest(s, c).Some?
    ensures IdentityFits(s, c, status) <==> Echoes(status, s, SavedRequest(s, c).value)
    ensures IdentityFits(s, c, status) <==>
            && status.protocol == SavedRequest(s, c).value.protocol && status.jobId == s.jobId
            && status.capabilityId == "document.ocr"
            && status.capabilityVersion == (if status.protocol == 2 then "1.0" else "1.1")
            && status.appId == s.providerAppId && status.instanceId == s.providerInstanceId
            && |status.inputs| == 1 && status.inputs[0].artifactId == s.sourceArtifactId
            && status.inputs[0].mediaType == "application/pdf" && status.inputs[0].byteSize == |s.source|
            && status.inputs[0].sha256 == c.digest(s.source)
  {
  }

  /**
   * A report on this job lets it go on while accepted or processing, fails it with the provider's error if it failed,
   * and otherwise depends on what is delivered; a report on another job, or one whose parts contradict each other, is
   * never taken for any of these.
   */
  lemma JudgeByState(s: Saved, c: Codec, status: JobStatus)
    requires SavedRequest(s, c).Some?
    ensures var onJob := Echoes(status, s, SavedRequest(s, c).value);
            var judged := Judge(s, c, status);
            && (judged.Working? <==>
                onJob && (status.state.JobAccepted? || status.state.JobProcessing?)
                && status.outputs.None? && !status.hasError)
            && (judged.Broken? <==> onJob && status.state.JobFailed? && status.outputs.None? && status.hasError)
            && (judged.Ready? || judged.Malformed? <==>
                onJob && status.state.JobDone? && status.outputs.Some? && !status.hasError)
            && (judged.Malformed? <==>
                onJob && status.state.JobDone? && status.outputs.Some? && !status.hasError
                && forall o :: !(Delivers(status.outputs.value, o, c) && Acceptable(s, c, o)))
  {
    IdentityIffEcho(s, c, status);
    forall o
      ensures Judge(s, c, status) == Ready(o) <==>
              && IdentityFits(s, c, status) && status.state.JobDone? && !status.hasError
              && status.outputs.Some? && Delivers(status.outputs.value, o, c) && Acceptable(s, c, o)
    {
      ReadyIffDelivered(s, c, status, o);
    }
  }

  // ---- texts and limits in full ----

  /** What is sent when a handoff is prepared, and for which documents it is. */
  lemma RequestInFull(source: Bytes, d: Document, n: Names, p: Provider, c: Codec)
    requires CapabilityVersion(p.protocol).Some?
    ensures Prepare(source, d, n, p, c).Some? <==>
            && 1 <= |source| <= 33_554_432 && |source| == d.byteSize && c.digest(source) == d.contentHash
            && c.pages(source).Some? && 1 <= c.pages(source).value <= 100
            && d.isParsed && d.isNative && d.requiresOcr && p.appId == "document-ocr"
    ensures Prepare(source, d, n, p, c).Some? ==>
              var s := Prepare(source, d, n, p, c).value;
              && s.jobId == n.jobId && s.childRunId == n.childRunId && s.source == source
              && s.providerAppId == p.appId && s.providerInstanceId == p.instanceId
              && s.requestSha256 == c.digest(s.requestJson)
              && s.requestJson ==
                 c.write(JobRequest(p.protocol, n.jobId, "document.ocr", if p.protocol == 2 then "1.0" else "1.1",
                                    [InputArtifact(n.artifactId, "application/pdf", |source|, c.digest(source),
                                                   d.filename, "document-summarizer")],
                                    map[]))
    ensures p.protocol == 2 || p.protocol == 3
  {
  }

  /** Which stored requests are sent: intact ones that are what preparing writes, whatever protocol they are for. */
  lemma SavedInFull(s: Saved, c: Codec, r: JobRequest)
    ensures SavedRequest(s, c) == Some(r) <==>
            && 1 <= |s.source| <= 33_554_432 && |s.source| == s.sourceSize && c.digest(s.source) == s.sourceSha256
            && c.digest(s.requestJson) == s.requestSha256 && c.parse(s.requestJson) == Some(r)
            && (r.protocol == 2 || r.protocol == 3)
            && r == JobRequest(r.protocol, s.jobId, "document.ocr", if r.protocol == 2 then "1.0" else "1.1",
                               [InputArtifact(s.sourceArtifactId, "application/pdf", |s.source|, c.digest(s.source),
                                              s.sourceDisplayName, "document-summarizer")],
                               map[])
  {
  }

  /** What is kept: one tagged PDF of up to 2 MiB and one text of up to 256 KiB that belong to the source. */
  lemma DeliveryInFull(s: Saved, outputs: seq<OutputArtifact>, o: Outputs, c: Codec)
    ensures Delivers(outputs, o, c) && Acceptable(s, c, o) <==>
            && |outputs| == 2 && c.paired(s.source, o.pdf, o.text)
            && 1 <= |o.pdf| <= 2_097_152 && 1 <= |o.text| <= 262_144
            && |{o.pdfId, o.textId, s.sourceArtifactId}| == 3
            && exists i :: 0 <= i < 2
                 && outputs[i] == OutputArtifact(o.pdfId, "application/vnd.local-connect.ocr-pdf", |o.pdf|,
                                                 c.digest(o.pdf), c.encode(o.pdf))
                 && outputs[1 - i] == OutputArtifact(o.textId, "text/plain", |o.text|, c.digest(o.text),
                                                     c.encode(o.text))
                 && c.decode(c.encode(o.pdf)) == Some(o.pdf) && c.decode(c.encode(o.text)) == Some(o.text)
  {
    ThreeDistinct(o.pdfId, o.textId, s.sourceArtifactId);
  }

  lemma ThreeDistinct(a: string, b: string, c: string)
    ensures |{a, b, c}| == 3 <==> a != b && a != c && b != c
  {
    if a != b && a != c && b != c {
      assert {a, b, c} - {a} == {b, c} && {b, c} - {b} == {c};
    } else if a == b {
      assert {a, b, c} == {b, c};
    } else if a == c {
      assert {a, b, c} == {b, c};
    } else {
      assert {a, b, c} == {a, b};
    }
  }
}
