/**
 * The quiesce intent as a file: `key=value` lines followed by the digest of those lines. The digest is a parameter;
 * all that is used of it is that it prints as 64 lower-case hexadecimal digits.
 */
module QuiesceRecord {
  import opened Integers
  import opened Wrappers
  import opened Text
  import opened TextLines
  import opened PackageTypes

  const MAX_RECORD_BYTES := 256 * 1024
  const PACKAGE_ID := "document-summarizer"
  const DIGEST_KEY := "sha256="

  type Field = (string, string)

  ghost predicate IsDigest(sha: string -> string) {
    forall s :: IsLowerHex(sha(s), 64)
  }

  function KindText(kind: Kind): string {
    match kind
    case Upgrade => "upgrade"
    case Remove => "remove"
    case Purge => "purge"
    case Reinstall => "reinstall"
  }

  function PhaseText(phase: BootstrapPhase): string {
    match phase
    case Quarantining => "quarantining"
    case Quiesced => "quiesced"
    case Adopted => "adopted"
  }

  predicate Encodable(i: QuiesceIntent) {
    && IsUuid(i.generation) && !i.kind.Reinstall? && ValidVersion(i.sourceVersion) && ValidVersion(i.targetVersion)
    && (i.bootstrap.Some? ==>
          && i.kind.Upgrade? && i.bootstrap.value.legacyDevice != 0 && i.bootstrap.value.legacyInode != 0
          && IsLowerHex(i.bootstrap.value.legacySha256, 64))
  }

  function Fields(i: QuiesceIntent): seq<Field> {
    match i.bootstrap
    case None =>
      [("format_version", "1"), ("package_id", PACKAGE_ID), ("artifact_scope", "shared-debian"),
       ("generation", i.generation), ("kind", KindText(i.kind)), ("source_version", i.sourceVersion),
       ("target_version", i.targetVersion)]
    case Some(b) =>
      [("format_version", "2"), ("package_id", PACKAGE_ID), ("artifact_scope", "shared-debian"),
       ("generation", i.generation), ("kind", KindText(i.kind)), ("phase", PhaseText(b.phase)),
       ("source_version", i.sourceVersion), ("target_version", i.targetVersion),
       ("legacy_device", Decimal(b.legacyDevice)), ("legacy_inode", Decimal(b.legacyInode)),
       ("legacy_sha256", b.legacySha256)]
  }

  function Payload(fields: seq<Field>): string {
    if fields == [] then "" else fields[0].0 + "=" + fields[0].1 + "\n" + Payload(fields[1..])
  }

  function Encode(i: QuiesceIntent, sha: string -> string): Result<string, PackageError> {
    if !Encodable(i) then Err(Conflict)
    else
      var payload := Payload(Fields(i));
      Ok(payload + DIGEST_KEY + sha(payload) + "\n")
  }

  // ---- reading ----

  /** The checked payload of the file: everything before the last digest key. */
  function CheckedPayload(text: string, sha: string -> string): Result<string, PackageError> {
    if |text| == 0 || |text| > MAX_RECORD_BYTES then Err(Conflict)
    else
      match SplitLast(text, DIGEST_KEY)
      case None => Err(Conflict)
      case Some((payload, digestLine)) =>
        if |digestLine| == 0 || digestLine[|digestLine| - 1] != '\n' then Err(Conflict)
        else
          var digest := digestLine[..|digestLine| - 1];
          if IsLowerHex(digest, 64) && sha(payload) == digest then Ok(payload) else Err(Conflict)
  }

  /** The values by key; a line without `=` or a key that comes twice is refused. */
  function Collect(lines: seq<string>, values: map<string, string>): Result<map<string, string>, PackageError> {
    if lines == [] then Ok(values)
    else
      match SplitOnce(lines[0], '=')
      case None => Err(Conflict)
      case Some((key, value)) =>
        if key in values then Err(Conflict) else Collect(lines[1..], values[key := value])
  }

  function Get(values: map<string, string>, key: string): Option<string> {
    if key in values then Some(values[key]) else None
  }

  function ReadKind(values: map<string, string>): Option<Kind> {
    match Get(values, "kind")
    case None => None
    case Some(text) => if text == "upgrade" then Some(Upgrade) else if text == "remove" then Some(Remove) else None
  }

  function ReadPhase(values: map<string, string>): Option<BootstrapPhase> {
    match Get(values, "phase")
    case None => None
    case Some(text) =>
      if text == "quarantining" then Some(Quarantining) else if text == "quiesced" then Some(Quiesced)
      else if text == "adopted" then Some(Adopted) else None
  }

  function ReadNumber(values: map<string, string>, key: string): Option<nat> {
    match Get(values, key)
    case None => None
    case Some(text) => ParseUnsigned(text, MAX_U64)
  }

  function ReadBootstrap(values: map<string, string>): Option<Bootstrap> {
    var phase := ReadPhase(values);
    var device := ReadNumber(values, "legacy_device");
    var inode := ReadNumber(values, "legacy_inode");
    var digest := Get(values, "legacy_sha256");
    if phase.Some? && device.Some? && inode.Some? && digest.Some?
       && device.value <= MAX_U64 && inode.value <= MAX_U64 then
      Some(Bootstrap(phase.value, device.value, inode.value, digest.value))
    else None
  }

  /** The format version decides whether there must be a bootstrap, and how many lines there must be. */
  function ReadShape(values: map<string, string>, kind: Kind): Result<Option<Bootstrap>, PackageError> {
    if Get(values, "format_version") == Some("1") && |values| == 7 then Ok(None)
    else if Get(values, "format_version") == Some("2") && |values| == 11 && kind.Upgrade? then
      var bootstrap := ReadBootstrap(values);
      if bootstrap.None? then Err(Conflict) else Ok(bootstrap)
    else Err(Conflict)
  }

  function Interpret(values: map<string, string>): Result<QuiesceIntent, PackageError> {
    var generation := Get(values, "generation");
    var kind := ReadKind(values);
    var source := Get(values, "source_version");
    var target := Get(values, "target_version");
    if Get(values, "package_id") != Some(PACKAGE_ID) || Get(values, "artifact_scope") != Some("shared-debian")
       || generation.None? || !IsUuid(generation.value) || kind.None? || source.None? || target.None?
       || !ValidVersion(source.value) || !ValidVersion(target.value) then Err(Conflict)
    else
      var bootstrap :- ReadShape(values, kind.value);
      Ok(QuiesceIntent(generation.value, kind.value, source.value, target.value, bootstrap))
  }

  /** Reads an intent, and accepts it only if it would be written back as exactly the same bytes. */
  function Decode(text: string, sha: string -> string): Result<QuiesceIntent, PackageError> {
    var payload :- CheckedPayload(text, sha);
    var values :- Collect(Lines(payload), map[]);
    var intent :- Interpret(values);
    if Encode(intent, sha) == Ok(text) then Ok(intent) else Err(Conflict)
  }

  /** The reader, whose loop fills the map line by line. */
  method ReadQuiesceIntent(text: string, sha: string -> string) returns (intent: Result<QuiesceIntent, PackageError>)
    ensures intent == Decode(text, sha)
  {
    var payload := CheckedPayload(text, sha);
    if payload.Err? {
      return Err(payload.error);
    }
    var lines := Lines(payload.value);
    var values: map<string, string> := map[];
    for k := 0 to |lines|
      invariant Collect(lines, map[]) == Collect(lines[k..], values)
    {
      var field := SplitOnce(lines[k], '=');
      if field.None? {
        return Err(Conflict);
      }
      var (key, value) := field.value;
      if key in values {
        return Err(Conflict);
      }
      values := values[key := value];
      assert lines[k..][1..] == lines[k + 1..];
    }
    intent := Interpret(values);
    if intent.Ok? && Encode(intent.value, sha) != Ok(text) {
      intent := Err(Conflict);
    }
  }

  // ---- what has been written can be read ----

  predicate PlainKey(key: string) {
    '=' !in key && '\n' !in key
  }

  predicate PlainValue(value: string) {
    '\n' !in value && '\r' !in value
  }

  predicate Plain(fields: seq<Field>) {
    forall k :: 0 <= k < |fields| ==> PlainKey(fields[k].0) && PlainValue(fields[k].1)
  }

  predicate DistinctKeys(fields: seq<Field>) {
    forall j, k :: 0 <= j < k < |fields| ==> fields[j].0 != fields[k].0
  }

  function LinesOf(fields: seq<Field>): seq<string> {
    seq(|fields|, k requires 0 <= k < |fields| => fields[k].0 + "=" + fields[k].1)
  }

  lemma {:induction false} LinesOfPayload(fields: seq<Field>)
    requires Plain(fields)
    ensures Lines(Payload(fields)) == LinesOf(fields)
  {
    if fields != [] {
      var line := fields[0].0 + "=" + fields[0].1;
      var rest := Payload(fields[1..]);
      assert Payload(fields) == line + "\n" + rest;
      FirstLineOf(line, rest);
      if fields[0].1 == "" {
        assert line[|line| - 1] == '=';
      } else {
        assert line[|line| - 1] == fields[0].1[|fields[0].1| - 1];
      }
      LinesOfPayload(fields[1..]);
      assert LinesOf(fields) == [line] + LinesOf(fields[1..]);
    }
  }

  /** The values collected from distinct plain fields are those fields. */
  lemma {:induction false} CollectFields(fields: seq<Field>, values: map<string, string>)
    requires Plain(fields) && DistinctKeys(fields) && forall k :: 0 <= k < |fields| ==> fields[k].0 !in values
    ensures Collect(LinesOf(fields), values).Ok?
    ensures var all := Collect(LinesOf(fields), values).value;
            && |all| == |values| + |fields|
            && (forall k :: 0 <= k < |fields| ==> Get(all, fields[k].0) == Some(fields[k].1))
            && (forall key :: key in values ==> Get(all, key) == Some(values[key]))
  {
    if fields != [] {
      var (key, value) := fields[0];
      SplitOnceOf(key, value, '=');
      assert LinesOf(fields)[0] == key + "=" + value;
      assert LinesOf(fields)[1..] == LinesOf(fields[1..]);
      CollectFields(fields[1..], values[key := value]);
    }
  }

  lemma UuidIsPlain(s: string)
    requires IsUuid(s)
    ensures PlainValue(s) && |s| <= 45
  {
  }

  lemma DecimalIsPlain(n: nat)
    ensures PlainValue(Decimal(n))
  {
    assert forall i :: 0 <= i < |Decimal(n)| ==> IsDigit(Decimal(n)[i]);
  }

  lemma VersionIsPlain(s: string)
    requires ValidVersion(s)
    ensures PlainValue(s)
  {
  }

  lemma BootstrapValuesArePlain(b: Bootstrap)
    requires IsLowerHex(b.legacySha256, 64)
    ensures PlainValue(PhaseText(b.phase)) && PlainValue(b.legacySha256)
    ensures PlainValue(Decimal(b.legacyDevice)) && PlainValue(Decimal(b.legacyInode))
  {
    DecimalIsPlain(b.legacyDevice);
    DecimalIsPlain(b.legacyInode);
  }

  lemma PlainIntentKeys(i: QuiesceIntent, k: nat)
    requires i.bootstrap.None? && k < |Fields(i)|
    ensures PlainKey(Fields(i)[k].0)
  {
  }

  lemma BootstrapIntentKeys(i: QuiesceIntent, k: nat)
    requires i.bootstrap.Some? && k < |Fields(i)|
    ensures PlainKey(Fields(i)[k].0)
  {
  }

  lemma PlainIntentValues(i: QuiesceIntent, k: nat)
    requires Encodable(i) && i.bootstrap.None? && k < |Fields(i)|
    ensures PlainValue(Fields(i)[k].1)
  {
    UuidIsPlain(i.generation);
    VersionIsPlain(i.sourceVersion);
    VersionIsPlain(i.targetVersion);
  }

  lemma BootstrapIntentValues(i: QuiesceIntent, k: nat)
    requires Encodable(i) && i.bootstrap.Some? && k < |Fields(i)|
    ensures PlainValue(Fields(i)[k].1)
  {
    UuidIsPlain(i.generation);
    VersionIsPlain(i.sourceVersion);
    VersionIsPlain(i.targetVersion);
    BootstrapValuesArePlain(i.bootstrap.value);
  }

  lemma FieldsArePlain(i: QuiesceIntent)
    requires Encodable(i)
    ensures Plain(Fields(i))
  {
    forall k | 0 <= k < |Fields(i)|
      ensures PlainKey(Fields(i)[k].0) && PlainValue(Fields(i)[k].1)
    {
      if i.bootstrap.Some? {
        BootstrapIntentKeys(i, k);
        BootstrapIntentValues(i, k);
      } else {
        PlainIntentKeys(i, k);
        PlainIntentValues(i, k);
      }
    }
  }

  lemma KeysAreDistinct(i: QuiesceIntent)
    ensures DistinctKeys(Fields(i))
  {
    var fields := Fields(i);
    forall j, k | 0 <= j < k < |fields|
      ensures fields[j].0 != fields[k].0
    {
      var a, b := fields[j].0, fields[k].0;
      assert |a| != |b| || a[0] != b[0] || a[7] != b[7];
    }
  }

  /** The digest line is found, however many other keys end in the same letters. */
  lemma PayloadOfEncoded(i: QuiesceIntent, sha: string -> string)
    requires IsDigest(sha) && Encodable(i)
    ensures Encode(i, sha).Ok?
    ensures |Encode(i, sha).value| <= MAX_RECORD_BYTES ==>
              CheckedPayload(Encode(i, sha).value, sha) == Ok(Payload(Fields(i)))
  {
    var payload := Payload(Fields(i));
    var text := Encode(i, sha).value;
    var line := sha(payload) + "\n";
    assert text == payload + DIGEST_KEY + line;
    assert IsLowerHex(sha(payload), 64);
    SplitLastOf(payload, DIGEST_KEY, line);
    assert line[..|line| - 1] == sha(payload);
  }

  predicate FieldsFit(fields: seq<Field>) {
    forall k :: 0 <= k < |fields| ==> |fields[k].0| + |fields[k].1| <= 150
  }

  lemma {:induction false} PayloadLength(fields: seq<Field>)
    requires FieldsFit(fields)
    ensures |Payload(fields)| <= 152 * |fields|
  {
    if fields != [] {
      PayloadLength(fields[1..]);
    }
  }

  lemma NumberFits(n: U64)
    ensures |Decimal(n)| <= 20
  {
    assert Power10(4) == 10_000;
    assert Power10(8) == Power10(4) * 10_000;
    assert Power10(12) == Power10(8) * 10_000;
    assert Power10(16) == Power10(12) * 10_000;
    assert Power10(20) == Power10(16) * 10_000;
    DecimalLength(n, 20);
  }

  lemma FieldsAreShort(i: QuiesceIntent)
    requires Encodable(i)
    ensures FieldsFit(Fields(i))
  {
    UuidIsPlain(i.generation);
    if i.bootstrap.Some? {
      NumberFits(i.bootstrap.value.legacyDevice);
      NumberFits(i.bootstrap.value.legacyInode);
    }
  }

  lemma EncodedFits(i: QuiesceIntent, sha: string -> string)
    requires IsDigest(sha) && Encodable(i)
    ensures |Encode(i, sha).value| <= MAX_RECORD_BYTES
  {
    FieldsAreShort(i);
    PayloadLength(Fields(i));
    assert IsLowerHex(sha(Payload(Fields(i))), 64);
  }

  /** The map holds exactly the fields of the intent. */
  ghost predicate Holds(values: map<string, string>, i: QuiesceIntent) {
    && |values| == |Fields(i)|
    && forall k :: 0 <= k < |Fields(i)| ==> Get(values, Fields(i)[k].0) == Some(Fields(i)[k].1)
  }

  predicate Readable(i: QuiesceIntent) {
    i.kind.Upgrade? || i.kind.Remove?
  }

  /** The file of an encodable intent collects to that intent's fields. */
  lemma EncodedHolds(i: QuiesceIntent, sha: string -> string) returns (values: map<string, string>)
    requires IsDigest(sha) && Encodable(i)
    ensures CheckedPayload(Encode(i, sha).value, sha).Ok?
    ensures Collect(Lines(CheckedPayload(Encode(i, sha).value, sha).value), map[]) == Ok(values) && Holds(values, i)
  {
    EncodedFits(i, sha);
    PayloadOfEncoded(i, sha);
    FieldsArePlain(i);
    KeysAreDistinct(i);
    LinesOfPayload(Fields(i));
    CollectFields(Fields(i), map[]);
    values := Collect(LinesOf(Fields(i)), map[]).value;
  }

  lemma PlainIntentInterprets(i: QuiesceIntent, values: map<string, string>)
    requires Encodable(i) && i.bootstrap.None? && Holds(values, i)
    ensures Interpret(values) == if Readable(i) then Ok(i) else Err(Conflict)
  {
    var f := Fields(i);
    assert f[0].0 == "format_version" && f[1].0 == "package_id" && f[2].0 == "artifact_scope" && f[3].0 == "generation";
    assert f[4].0 == "kind" && f[5].0 == "source_version" && f[6].0 == "target_version";
  }

  lemma BootstrapInterprets(i: QuiesceIntent, values: map<string, string>)
    requires Encodable(i) && i.bootstrap.Some? && Holds(values, i)
    ensures ReadBootstrap(values) == i.bootstrap
  {
    var f := Fields(i);
    assert f[5].0 == "phase" && f[8].0 == "legacy_device" && f[9].0 == "legacy_inode" && f[10].0 == "legacy_sha256";
    ParseUnsignedOfDecimal(i.bootstrap.value.legacyDevice, MAX_U64);
    ParseUnsignedOfDecimal(i.bootstrap.value.legacyInode, MAX_U64);
  }

  lemma BootstrapIntentInterprets(i: QuiesceIntent, values: map<string, string>)
    requires Encodable(i) && i.bootstrap.Some? && Holds(values, i)
    ensures Interpret(values) == Ok(i)
  {
    BootstrapInterprets(i, values);
    var f := Fields(i);
    assert f[0].0 == "format_version" && f[1].0 == "package_id" && f[2].0 == "artifact_scope" && f[3].0 == "generation";
    assert f[4].0 == "kind" && f[6].0 == "source_version" && f[7].0 == "target_version";
  }

  /** An encoded intent is read back as itself, with or without a bootstrap, exactly if it upgrades or removes. */
  lemma RoundTrip(i: QuiesceIntent, sha: string -> string)
    requires IsDigest(sha) && Encodable(i)
    ensures Decode(Encode(i, sha).value, sha) == if Readable(i) then Ok(i) else Err(Conflict)
  {
    var values := EncodedHolds(i, sha);
    if i.bootstrap.Some? {
      BootstrapIntentInterprets(i, values);
    } else {
      PlainIntentInterprets(i, values);
    }
  }

  /** The reader accepts exactly the files that the writer writes for upgrades and removals. */
  lemma DecodeExactlyEncoded(text: string, i: QuiesceIntent, sha: string -> string)
    requires IsDigest(sha)
    ensures Decode(text, sha) == Ok(i) <==> Encode(i, sha) == Ok(text) && Readable(i)
  {
    if Encode(i, sha) == Ok(text) {
      RoundTrip(i, sha);
    }
  }

  /** Distinct intents have distinct files, readable or not. */
  lemma EncodeInjective(i: QuiesceIntent, j: QuiesceIntent, sha: string -> string)
    requires IsDigest(sha) && Encodable(i) && Encodable(j) && Encode(i, sha) == Encode(j, sha)
    ensures i == j
  {
    RoundTrip(i, sha);
    RoundTrip(j, sha);
    if !Readable(i) {
      var values := EncodedHolds(i, sha);
      var same := EncodedHolds(j, sha);
      var f, g := Fields(i), Fields(j);
      assert f[3].0 == g[3].0 == "generation" && f[4].0 == g[4].0 == "kind";
      assert f[5].0 == g[5].0 == "source_version" && f[6].0 == g[6].0 == "target_version";
    }
  }

  // ---- the layout of the file ----

  function Unlines(lines: seq<string>): string {
    if lines == [] then "" else lines[0] + "\n" + Unlines(lines[1..])
  }

  lemma {:induction false} PayloadIsUnlines(fields: seq<Field>)
    ensures Payload(fields) == Unlines(LinesOf(fields))
  {
    if fields != [] {
      PayloadIsUnlines(fields[1..]);
      assert LinesOf(fields)[1..] == LinesOf(fields[1..]);
    }
  }

  lemma FixedLines()
    ensures "format_version" + "=" + "1" == "format_version=1"
    ensures "format_version" + "=" + "2" == "format_version=2"
    ensures "package_id" + "=" + PACKAGE_ID == "package_id=document-summarizer"
    ensures "artifact_scope" + "=" + "shared-debian" == "artifact_scope=shared-debian"
  {
  }

  lemma Labels()
    ensures "generation" + "=" == "generation="
    ensures "source_version" + "=" == "source_version="
    ensures "target_version" + "=" == "target_version="
    ensures "legacy_device" + "=" == "legacy_device="
    ensures "legacy_inode" + "=" == "legacy_inode="
    ensures "legacy_sha256" + "=" == "legacy_sha256="
  {
  }

  lemma KindLines()
    ensures "kind" + "=" + KindText(Upgrade) == "kind=upgrade"
    ensures "kind" + "=" + KindText(Remove) == "kind=remove"
    ensures "kind" + "=" + KindText(Purge) == "kind=purge"
  {
  }

  lemma PhaseLines()
    ensures "phase" + "=" + PhaseText(Quarantining) == "phase=quarantining"
    ensures "phase" + "=" + PhaseText(Quiesced) == "phase=quiesced"
    ensures "phase" + "=" + PhaseText(Adopted) == "phase=adopted"
  {
  }

  /** The file is these lines, each ended by a line feed, and behind them the line with their digest. */
  predicate IsFileOf(text: string, lines: seq<string>, sha: string -> string) {
    text == Unlines(lines) + "sha256=" + sha(Unlines(lines)) + "\n"
  }

  /** An intent without a bootstrap is written as seven lines, in this order, each with its own value. */
  lemma PlainLayout(i: QuiesceIntent, sha: string -> string)
    requires Encodable(i) && i.bootstrap.None?
    ensures Encode(i, sha).Ok?
    ensures IsFileOf(Encode(i, sha).value,
                     ["format_version=1", "package_id=document-summarizer", "artifact_scope=shared-debian",
                      "generation=" + i.generation,
                      if i.kind.Upgrade? then "kind=upgrade"
                      else if i.kind.Remove? then "kind=remove" else "kind=purge",
                      "source_version=" + i.sourceVersion, "target_version=" + i.targetVersion], sha)
  {
    FixedLines();
    Labels();
    KindLines();
    PayloadIsUnlines(Fields(i));
    assert LinesOf(Fields(i)) ==
           ["format_version=1", "package_id=document-summarizer", "artifact_scope=shared-debian",
            "generation=" + i.generation,
            if i.kind.Upgrade? then "kind=upgrade" else if i.kind.Remove? then "kind=remove" else "kind=purge",
            "source_version=" + i.sourceVersion, "target_version=" + i.targetVersion];
  }

  /** One with a bootstrap as eleven. */
  lemma BootstrapLayout(i: QuiesceIntent, sha: string -> string)
    requires Encodable(i) && i.bootstrap.Some?
    ensures Encode(i, sha).Ok?
    ensures var b := i.bootstrap.value;
            IsFileOf(Encode(i, sha).value,
                     ["format_version=2", "package_id=document-summarizer", "artifact_scope=shared-debian",
                      "generation=" + i.generation, "kind=upgrade",
                      if b.phase.Quarantining? then "phase=quarantining"
                      else if b.phase.Quiesced? then "phase=quiesced" else "phase=adopted",
                      "source_version=" + i.sourceVersion, "target_version=" + i.targetVersion,
                      "legacy_device=" + Decimal(b.legacyDevice), "legacy_inode=" + Decimal(b.legacyInode),
                      "legacy_sha256=" + b.legacySha256], sha)
  {
    FixedLines();
    Labels();
    KindLines();
    PhaseLines();
    PayloadIsUnlines(Fields(i));
    var b := i.bootstrap.value;
    assert LinesOf(Fields(i)) ==
           ["format_version=2", "package_id=document-summarizer", "artifact_scope=shared-debian",
            "generation=" + i.generation, "kind=upgrade",
            if b.phase.Quarantining? then "phase=quarantining"
            else if b.phase.Quiesced? then "phase=quiesced" else "phase=adopted",
            "source_version=" + i.sourceVersion, "target_version=" + i.targetVersion,
            "legacy_device=" + Decimal(b.legacyDevice), "legacy_inode=" + Decimal(b.legacyInode),
            "legacy_sha256=" + b.legacySha256];
  }

  /** The reader takes a file of seven lines for exactly the intent that they spell. */
  lemma PlainFileRead(text: string, i: QuiesceIntent, sha: string -> string)
    requires IsDigest(sha) && i.bootstrap.None?
    ensures Decode(text, sha) == Ok(i) <==>
            && (i.kind.Upgrade? || i.kind.Remove?)
            && IsUuid(i.generation) && ValidVersion(i.sourceVersion) && ValidVersion(i.targetVersion)
            && IsFileOf(text,
                        ["format_version=1", "package_id=document-summarizer", "artifact_scope=shared-debian",
                         "generation=" + i.generation, if i.kind.Upgrade? then "kind=upgrade" else "kind=remove",
                         "source_version=" + i.sourceVersion, "target_version=" + i.targetVersion], sha)
  {
    DecodeExactlyEncoded(text, i, sha);
    if Encodable(i) {
      PlainLayout(i, sha);
    }
  }

  /** The reader takes a file of eleven lines for exactly the bootstrap intent that they spell. */
  lemma BootstrapFileRead(text: string, i: QuiesceIntent, sha: string -> string)
    requires IsDigest(sha) && i.bootstrap.Some?
    ensures var b := i.bootstrap.value;
            Decode(text, sha) == Ok(i) <==>
            && i.kind.Upgrade? && b.legacyDevice > 0 && b.legacyInode > 0
            && |b.legacySha256| == 64 && (forall k :: 0 <= k < 64 ==>
                                            '0' <= b.legacySha256[k] <= '9' || 'a' <= b.legacySha256[k] <= 'f')
            && IsUuid(i.generation) && ValidVersion(i.sourceVersion) && ValidVersion(i.targetVersion)
            && IsFileOf(text,
                        ["format_version=2", "package_id=document-summarizer", "artifact_scope=shared-debian",
                         "generation=" + i.generation, "kind=upgrade",
                         if b.phase.Quarantining? then "phase=quarantining"
                         else if b.phase.Quiesced? then "phase=quiesced" else "phase=adopted",
                         "source_version=" + i.sourceVersion, "target_version=" + i.targetVersion,
                         "legacy_device=" + Decimal(b.legacyDevice), "legacy_inode=" + Decimal(b.legacyInode),
                         "legacy_sha256=" + b.legacySha256], sha)
  {
    DecodeExactlyEncoded(text, i, sha);
    if Encodable(i) {
      BootstrapLayout(i, sha);
    }
  }
}
