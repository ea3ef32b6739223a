/** The launch record and the environment file rendered from it, which the manager hands to the provider it starts. */
module LaunchEnvironment {
  import opened Faults
  import opened Wrappers
  import opened Text

  datatype LaunchError = Storage | InvalidRecord

  datatype LaunchIdentity = LaunchIdentity(path: string, device: nat, inode: nat)

  datatype LaunchRecord = LaunchRecord(generation: string, uid: nat, configHome: string, dataHome: string,
                                       runtime: LaunchIdentity, control: LaunchIdentity, appData: LaunchIdentity)

  // ---- quoting ----

  predicate Quotable(s: string) {
    '\n' !in s && '\r' !in s && '\0' !in s
  }

  /** Every occurrence of one character becomes a string, in one pass from the left. */
  function Replace(s: string, c: char, into: string): string {
    if s == "" then "" else (if s[0] == c then into else [s[0]]) + Replace(s[1..], c, into)
  }

  /** Puts a backslash before every backslash and then before every quotation mark; line breaks cannot be quoted. */
  function EnvironmentQuote(s: string): Result<string, LaunchError> {
    if !Quotable(s) then Err(Storage) else Ok(Replace(Replace(s, '\\', "\\\\"), '"', "\\\""))
  }

  /** The escape it amounts to: a backslash goes before every backslash and every quotation mark. */
  function Escape(s: string): string {
    if s == "" then ""
    else (if s[0] == '\\' || s[0] == '"' then ['\\', s[0]] else [s[0]]) + Escape(s[1..])
  }

  lemma {:induction false} ReplaceConcat(s: string, t: string, c: char, into: string)
    ensures Replace(s + t, c, into) == Replace(s, c, into) + Replace(t, c, into)
  {
    if s == "" {
      assert s + t == t;
    } else {
      assert (s + t)[0] == s[0] && (s + t)[1..] == s[1..] + t;
      ReplaceConcat(s[1..], t, c, into);
    }
  }

  /** The second replacement never touches what the first one put in. */
  lemma {:induction false} QuoteIsEscape(s: string)
    ensures Quotable(s) ==> EnvironmentQuote(s) == Ok(Escape(s))
    ensures Replace(Replace(s, '\\', "\\\\"), '"', "\\\"") == Escape(s)
  {
    if s != "" {
      QuoteIsEscape(s[1..]);
      var head := if s[0] == '\\' then "\\\\" else [s[0]];
      ReplaceConcat(head, Replace(s[1..], '\\', "\\\\"), '"', "\\\"");
      assert head[1..] == if s[0] == '\\' then "\\" else "";
      assert Replace(head, '"', "\\\"") == if s[0] == '"' then "\\\"" else head;
    }
  }

  /** Reads an escaped value up to its closing quotation mark. */
  function ReadQuoted(s: string): (r: Option<(string, string)>) {
    if s == "" then None
    else if s[0] == '"' then Some(("", s[1..]))
    else if s[0] == '\\' then
      if |s| < 2 then None
      else match ReadQuoted(s[2..])
           case None => None
           case Some((value, rest)) => Some(([s[1]] + value, rest))
    else match ReadQuoted(s[1..])
         case None => None
         case Some((value, rest)) => Some(([s[0]] + value, rest))
  }

  lemma {:induction false} ReadQuotedInvertsEscape(s: string, rest: string)
    ensures ReadQuoted(Escape(s) + "\"" + rest) == Some((s, rest))
  {
    var text := Escape(s) + "\"" + rest;
    if s == "" {
      assert text == "\"" + rest;
    } else {
      var tail := Escape(s[1..]) + "\"" + rest;
      ReadQuotedInvertsEscape(s[1..], rest);
      assert s == [s[0]] + s[1..];
      if s[0] == '\\' || s[0] == '"' {
        assert text == ['\\', s[0]] + tail && text[2..] == tail;
      } else {
        assert text == [s[0]] + tail && text[1..] == tail;
      }
    }
  }

  // ---- rendering ----

  const CONFIG := "XDG_CONFIG_HOME=\""
  const DATA := "\nXDG_DATA_HOME=\""
  const RUNTIME := "\nXDG_RUNTIME_DIR=\""
  const GENERATION := "\nDOC_SUM_CONNECT_LAUNCH_GENERATION=\""
  const END := "\"\n"

  function Render(r: LaunchRecord): Result<string, LaunchError> {
    var config :- EnvironmentQuote(r.configHome);
    var data :- EnvironmentQuote(r.dataHome);
    var runtime :- EnvironmentQuote(r.runtime.path);
    Ok(CONFIG + config + "\"" + DATA + data + "\"" + RUNTIME + runtime + "\"" + GENERATION + r.generation + END)
  }

  datatype Launch = Launch(configHome: string, dataHome: string, runtimePath: string, generation: string)

  function LaunchOf(r: LaunchRecord): Launch {
    Launch(r.configHome, r.dataHome, r.runtime.path, r.generation)
  }

  function AfterLabel(text: string, name: string): Option<string> {
    if name <= text then Some(text[|name|..]) else None
  }

  /** A quoted value behind its name, and what follows. */
  function ReadField(text: string, name: string): Option<(string, string)> {
    match AfterLabel(text, name)
    case None => None
    case Some(rest) => ReadQuoted(rest)
  }

  function ReadGeneration(text: string): Option<string> {
    match AfterLabel(text, GENERATION)
    case None => None
    case Some(rest) => if |rest| >= |END| && rest[|rest| - |END|..] == END then Some(rest[..|rest| - |END|]) else None
  }

  /** A reader of rendered files; the provider's environment is what it returns. */
  function ReadLaunch(text: string): Option<Launch> {
    match ReadField(text, CONFIG)
    case None => None
    case Some((config, afterConfig)) =>
      match ReadField(afterConfig, DATA)
      case None => None
      case Some((data, afterData)) =>
        match ReadField(afterData, RUNTIME)
        case None => None
        case Some((runtime, afterRuntime)) =>
          match ReadGeneration(afterRuntime)
          case None => None
          case Some(generation) => Some(Launch(config, data, runtime, generation))
  }

  lemma ReadFieldInverts(name: string, value: string, rest: string)
    ensures ReadField(name + Escape(value) + "\"" + rest, name) == Some((value, rest))
  {
    var text := name + Escape(value) + "\"" + rest;
    assert text[|name|..] == Escape(value) + "\"" + rest;
    ReadQuotedInvertsEscape(value, rest);
  }

  lemma ReadGenerationInverts(generation: string)
    ensures ReadGeneration(GENERATION + generation + END) == Some(generation)
  {
    var rest := generation + END;
    assert GENERATION + generation + END == GENERATION + rest;
    assert (GENERATION + rest)[|GENERATION|..] == rest;
    assert rest[|rest| - |END|..] == END && rest[..|rest| - |END|] == generation;
  }

  lemma RenderedText(r: LaunchRecord)
    ensures Render(r).Ok? <==> Quotable(r.configHome) && Quotable(r.dataHome) && Quotable(r.runtime.path)
    ensures Render(r).Ok? ==>
              Render(r).value ==
                CONFIG + Escape(r.configHome) + "\"" + (DATA + Escape(r.dataHome) + "\""
                + (RUNTIME + Escape(r.runtime.path) + "\"" + (GENERATION + r.generation + END)))
  {
    if Render(r).Ok? {
      QuoteIsEscape(r.configHome);
      QuoteIsEscape(r.dataHome);
      QuoteIsEscape(r.runtime.path);
    }
  }

  /** Escaping goes character by character: a backslash (92) before a backslash or a quotation mark (34). */
  lemma {:induction false} EscapeConcat(s: string, t: string)
    ensures Escape(s + t) == Escape(s) + Escape(t)
    ensures forall c: char :: Escape([c]) == if c as int == 92 || c as int == 34 then [92 as char, c] else [c]
  {
    if s == "" {
      assert s + t == t;
    } else {
      assert (s + t)[0] == s[0] && (s + t)[1..] == s[1..] + t;
      EscapeConcat(s[1..], t);
    }
  }

  /** The file is four lines, each a name and a quoted value; it exists unless a path has a line break or a NUL. */
  lemma RenderedLines(r: LaunchRecord)
    ensures Render(r).Ok? <==>
            forall c: char :: c in r.configHome || c in r.dataHome || c in r.runtime.path ==>
              c as int != 10 && c as int != 13 && c as int != 0
    ensures Render(r).Ok? ==>
              Render(r).value ==
                "XDG_CONFIG_HOME=\"" + Escape(r.configHome) + "\"" + ("\nXDG_DATA_HOME=\"" + Escape(r.dataHome) + "\""
                + ("\nXDG_RUNTIME_DIR=\"" + Escape(r.runtime.path) + "\""
                + ("\nDOC_SUM_CONNECT_LAUNCH_GENERATION=\"" + r.generation + "\"\n")))
  {
    RenderedText(r);
  }

  /** Rendering succeeds exactly when the three paths have no line break or NUL, and then the file can be read back. */
  lemma RenderReadsBack(r: LaunchRecord)
    ensures Render(r).Ok? <==> Quotable(r.configHome) && Quotable(r.dataHome) && Quotable(r.runtime.path)
    ensures Render(r).Ok? ==> ReadLaunch(Render(r).value) == Some(LaunchOf(r))
  {
    RenderedText(r);
    var generation := GENERATION + r.generation + END;
    var runtime := RUNTIME + Escape(r.runtime.path) + "\"" + generation;
    var data := DATA + Escape(r.dataHome) + "\"" + runtime;
    ReadFieldInverts(CONFIG, r.configHome, data);
    ReadFieldInverts(DATA, r.dataHome, runtime);
    ReadFieldInverts(RUNTIME, r.runtime.path, generation);
    ReadGenerationInverts(r.generation);
  }

  /** Two records render to the same file exactly when they launch the same provider in the same place. */
  lemma RenderInjective(r: LaunchRecord, q: LaunchRecord)
    requires Render(r).Ok? && Render(q).Ok?
    ensures Render(r) == Render(q) <==> LaunchOf(r) == LaunchOf(q)
  {
    RenderReadsBack(r);
    RenderReadsBack(q);
  }

  // ---- the two files ----

  datatype Files = Files(record: Option<LaunchRecord>, environment: string)

  /** What the process finds around itself. */
  datatype Context = Context(generation: string, uid: nat, configHome: string, dataHome: string,
                             runtime: LaunchIdentity, control: LaunchIdentity, appData: LaunchIdentity)

  predicate Validated(f: Files, c: Context) {
    && f.record.Some?
    && var r := f.record.value;
    && r.generation == c.generation && IsUuid(r.generation) && r.uid == c.uid
    && r.configHome == c.configHome && r.dataHome == c.dataHome && r.runtime.path == c.runtime.path
    && r.control == c.control && r.appData == c.appData
    && Render(r) == Ok(f.environment)
  }

  function RecordFor(c: Context): LaunchRecord {
    LaunchRecord(c.generation, c.uid, c.configHome, c.dataHome, c.runtime, c.control, c.appData)
  }

  class LaunchStore {
    var files: Files
    const faulty: bool

    constructor (files: Files, faulty: bool)
      ensures this.files == files && this.faulty == faulty
    {
      this.files, this.faulty := files, faulty;
    }

    method WriteRecord(r: LaunchRecord) returns (o: Outcome<LaunchError>)
      modifies this
      ensures files == old(files).(record := Some(r)) || (o.Fail? && files == old(files))
      ensures !faulty ==> o.Pass?
    {
      var before := Fault(faulty);
      if before {
        return Fail(Storage);
      }
      files := files.(record := Some(r));
      var after := Fault(faulty);
      o := if after then Fail(Storage) else Pass;
    }

    method WriteEnvironment(text: string) returns (o: Outcome<LaunchError>)
      modifies this
      ensures files == old(files).(environment := text) || (o.Fail? && files == old(files))
      ensures !faulty ==> o.Pass?
    {
      var before := Fault(faulty);
      if before {
        return Fail(Storage);
      }
      files := files.(environment := text);
      var after := Fault(faulty);
      o := if after then Fail(Storage) else Pass;
    }

    /**
     * Writes the record, then the environment. A pair that was accepted before is accepted after any interruption;
     * a pair accepted only since then is the new one in full.
     */
    method PersistLaunch(c: Context) returns (o: Outcome<LaunchError>)
      modifies this
      ensures o.Pass? ==> Validated(files, c) && files.record == Some(RecordFor(c))
      ensures !IsUuid(c.generation) ==> o.Fail? && files == old(files)
      ensures !faulty ==> (o.Pass? <==> IsUuid(c.generation) && Render(RecordFor(c)).Ok?)
      ensures Validated(old(files), c) ==> Validated(files, c)
      ensures Validated(files, c) && files != old(files) ==>
                files.record == Some(RecordFor(c)) && Render(RecordFor(c)) == Ok(files.environment)
      ensures o.Pass? ==>
                && files.record == Some(LaunchRecord(c.generation, c.uid, c.configHome, c.dataHome, c.runtime,
                                                     c.control, c.appData))
                && Render(files.record.value) == Ok(files.environment)
    {
      if !IsUuid(c.generation) {
        return Fail(InvalidRecord);
      }
      if Validated(files, c) {
        RenderReadsBack(files.record.value);
        RenderReadsBack(RecordFor(c));
        RenderInjective(files.record.value, RecordFor(c));
      }
      :- WriteRecord(RecordFor(c));
      var rendered := Render(RecordFor(c));
      if rendered.Err? {
        return Fail(rendered.error);
      }
      o := WriteEnvironment(rendered.value);
    }

    /** Another process may replace the files at any time. */
    method Interference()
      modifies this
      ensures !faulty ==> files == old(files)
    {
      if faulty {
        files := *;
      }
    }

    /**
     * Follows a runtime directory that was recreated under the same path: only the recorded device and inode change,
     * and the environment file is still the rendering of the record.
     */
    method RenewRuntime(c: Context, sessionProven: bool) returns (o: Outcome<LaunchError>)
      modifies this
      ensures o.Pass? ==> Validated(files, c) && files.record.value.runtime == c.runtime
      ensures !faulty ==>
                (o.Pass? <==>
                 && Validated(old(files), c)
                 && (old(files).record.value.runtime == c.runtime || sessionProven))
      ensures !faulty ==> files == old(files) || files == old(files).(record := Some(RecordFor(c)))
      ensures !faulty && o.Pass? ==> files.record == Some(old(files).record.value.(runtime := c.runtime))
      ensures o.Pass? ==>
                && files.record == Some(LaunchRecord(c.generation, c.uid, c.configHome, c.dataHome, c.runtime,
                                                     c.control, c.appData))
                && Render(files.record.value) == Ok(files.environment)
      ensures !faulty && IsUuid(c.generation) && old(files).record.Some?
              && old(files).record.value.(runtime := c.runtime) ==
                 LaunchRecord(c.generation, c.uid, c.configHome, c.dataHome, c.runtime, c.control, c.appData)
              && old(files).record.value.runtime.path == c.runtime.path
              && Render(old(files).record.value) == Ok(old(files).environment) ==>
                (o.Pass? <==> old(files).record.value.runtime == c.runtime || sessionProven)
    {
      if !Validated(files, c) {
        return Fail(InvalidRecord);
      }
      if files.record.value.runtime == c.runtime {
        return Pass;
      }
      Interference();
      if !Validated(files, c) {
        return Fail(InvalidRecord);
      }
      var r := files.record.value;
      if r.runtime == c.runtime {
        return Pass;
      }
      if !sessionProven {
        return Fail(InvalidRecord);
      }
      Interference();
      if !Validated(files, c) || files.record != Some(r) {
        return Fail(InvalidRecord);
      }
      o := WriteRecord(r.(runtime := c.runtime));
    }
  }
}
