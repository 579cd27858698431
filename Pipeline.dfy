/** The request handler shared by the standalone server and the notebook: stage the upload as
    a temporary file, run speech-to-text, the language model and text-to-speech strictly in
    that order, stop at the first empty or missing result, remove the temporary file on
    success, and answer every failure with one generic 500. */
module Pipeline {
  import opened Wrappers
  import opened Strings
  import opened Storage

  /** The multipart upload: the client's file name and the bytes sent. */
  datatype Upload = Upload(filename: string, content: seq<byte>)

  /** The hosted services, as the wrappers around them present them: each takes its input and
      an API key and yields a result or `None` (the wrappers turn every client error into
      `None`). Speech-to-text reads the staged file; text-to-speech yields the audio stream. */
  datatype Providers = Providers(
    transcribe: (seq<byte>, string) -> Option<string>,
    complete: (string, string) -> Option<string>,
    synthesize: (string, string) -> Option<seq<byte>>)

  /** The API keys each stage is called with; `None` where the key lookup raises. */
  datatype Credentials = Credentials(stt: Option<string>, llm: Option<string>, tts: Option<string>)

  /** One call to a hosted service, as it leaves the process. */
  datatype Call =
    | Transcribe(path: string, key: string)
    | Complete(prompt: string, key: string)
    | Synthesize(text: string, key: string, outPath: string)
  {
    /** Position of the stage in the pipeline. */
    function Stage(): nat
    {
      match this
      case Transcribe(_, _) => 0
      case Complete(_, _) => 1
      case Synthesize(_, _, _) => 2
    }
  }

  /** What the body of the handler's `try` block can raise. */
  datatype Exception =
    | HttpException(status: nat, detail: string)
    | OsError(path: string)
    | KeyError

  /** What the caller of `POST /process_audio` receives. */
  datatype Response = AudioUrl(url: string) | ErrorReply(status: nat, detail: string)

  const TRANSCRIBE_FAILED := "Failed to transcribe audio."
  const COMPLETE_FAILED := "Failed to get response from LLM."
  const SYNTHESIZE_FAILED := "Failed to generate speech."
  const GENERIC_DETAIL := "An internal server error occurred."

  function TempPath(filename: string): string
  {
    "temp_" + filename
  }

  /** Python truthiness of a `str` or `None`. */
  predicate Truthy(o: Option<string>)
  {
    o.Some? && o.value != ""
  }

  /** The outcome of the `try` block: what it returned or raised, the files afterwards and the
      service calls it made, in order. */
  datatype Trace = Trace(result: Result<string, Exception>, files: Files, calls: seq<Call>)

  /** The `try` block of the handler, for an upload whose reply is to be written to `outPath`. */
  function Stages(files: Files, dirs: set<string>, upload: Upload, outPath: string,
                  creds: Credentials, p: Providers): (t: Trace)

    // at most one call per stage, in the order speech-to-text, language model, text-to-speech
    ensures forall i :: 0 <= i < |t.calls| ==> t.calls[i].Stage() == i
    // speech-to-text is given the staged file, and the staged file holds the upload
    ensures |t.calls| > 0 ==> t.calls[0].Transcribe? && t.calls[0].path == TempPath(upload.filename)
    ensures (Writable(dirs, TempPath(upload.filename)) && TempPath(upload.filename) in t.files)
              ==> t.files[TempPath(upload.filename)] == upload.content
    // the transcript is the whole prompt, the reply is the whole text to speak
    ensures |t.calls| > 1 ==> t.calls[1].Complete? && Some(t.calls[1].prompt) == p.transcribe(upload.content, t.calls[0].key)
    ensures |t.calls| > 2 ==> t.calls[2].Synthesize? && Some(t.calls[2].text) == p.complete(t.calls[1].prompt, t.calls[1].key)
    ensures |t.calls| > 2 ==> t.calls[2].outPath == outPath
    // the reply path is returned only after all three stages ran; the staged file is gone then
    ensures t.result.Ok? ==> t.result.value == outPath && |t.calls| == 3
                              && TempPath(upload.filename) !in t.files
    ensures t.result.Ok? && outPath != TempPath(upload.filename) ==> outPath in t.files
    // on every failure after staging, the staged file is left behind
    ensures (t.result.Err? && Writable(dirs, TempPath(upload.filename)))
              ==> TempPath(upload.filename) in t.files
    // no other file changes
    ensures forall path :: path in t.files && path != TempPath(upload.filename) && path != outPath
              ==> path in files && t.files[path] == files[path]
    ensures forall path :: path in files && path != TempPath(upload.filename) && path != outPath
              ==> path in t.files
  {
    var temp := TempPath(upload.filename);
    if !Writable(dirs, temp) then Trace(Err(OsError(temp)), files, [])
    else
      var staged := files[temp := upload.content];
      if creds.stt.None? then Trace(Err(KeyError), staged, [])
      else
        var transcript := p.transcribe(staged[temp], creds.stt.value);
        var c1 := [Transcribe(temp, creds.stt.value)];
        if !Truthy(transcript) then Trace(Err(HttpException(500, TRANSCRIBE_FAILED)), staged, c1)
        else if creds.llm.None? then Trace(Err(KeyError), staged, c1)
        else
          var reply := p.complete(transcript.value, creds.llm.value);
          var c2 := c1 + [Complete(transcript.value, creds.llm.value)];
          if !Truthy(reply) then Trace(Err(HttpException(500, COMPLETE_FAILED)), staged, c2)
          else if creds.tts.None? then Trace(Err(KeyError), staged, c2)
          else
            // text-to-speech: the request goes out first, the file is opened only once the
            // stream has been accepted, and the wrapper then returns the path it was given
            var audio := p.synthesize(reply.value, creds.tts.value);
            var c3 := c2 + [Synthesize(reply.value, creds.tts.value, outPath)];
            if audio.None? then Trace(Err(HttpException(500, SYNTHESIZE_FAILED)), staged, c3)
            else if !Writable(dirs, outPath) then Trace(Err(OsError(outPath)), staged, c3)
            else Trace(Ok(outPath), staged[outPath := audio.value] - {temp}, c3)
  }

  /** The `except Exception` clause: whatever was raised, including the stage's own
      HTTPException, the caller sees the same 500. */
  function Collapse(result: Result<string, Exception>): (r: Response)
    ensures r.AudioUrl? <==> result.Ok?
    ensures r.AudioUrl? ==> r.url == result.value
    ensures r.ErrorReply? ==> r == ErrorReply(500, GENERIC_DETAIL)
  {
    match result
    case Ok(path) => AudioUrl(path)
    case Err(_) => ErrorReply(500, GENERIC_DETAIL)
  }

  /** The process running a handler: its environment, its filesystem, and the calls it has made
      to the hosted services. */
  class Host {
    var env: map<string, string>
    var files: Files
    var dirs: set<string>
    var log: seq<Call>

    constructor (env: map<string, string>, files: Files, dirs: set<string>)
      ensures this.env == env && this.files == files && this.dirs == dirs && log == []
    {
      this.env := env;
      this.files := files;
      this.dirs := dirs;
      log := [];
    }

    /** The `try` block, step by step. */
    method RunStages(upload: Upload, outPath: string, creds: Credentials, p: Providers)
      returns (result: Result<string, Exception>)
      modifies this`files, this`log
      ensures var t := Stages(old(files), dirs, upload, outPath, creds, p);
              result == t.result && files == t.files && log == old(log) + t.calls
    {
      var temp := TempPath(upload.filename);
      if !Writable(dirs, temp) {
        return Err(OsError(temp));
      }
      files := files[temp := upload.content];

      if creds.stt.None? {
        return Err(KeyError);
      }
      var transcript := p.transcribe(files[temp], creds.stt.value);
      log := log + [Transcribe(temp, creds.stt.value)];
      if !Truthy(transcript) {
        return Err(HttpException(500, TRANSCRIBE_FAILED));
      }

      if creds.llm.None? {
        return Err(KeyError);
      }
      var reply := p.complete(transcript.value, creds.llm.value);
      log := log + [Complete(transcript.value, creds.llm.value)];
      if !Truthy(reply) {
        return Err(HttpException(500, COMPLETE_FAILED));
      }

      if creds.tts.None? {
        return Err(KeyError);
      }
      var audio := p.synthesize(reply.value, creds.tts.value);
      log := log + [Synthesize(reply.value, creds.tts.value, outPath)];
      if audio.None? {
        return Err(HttpException(500, SYNTHESIZE_FAILED));
      }
      if !Writable(dirs, outPath) {
        return Err(OsError(outPath));
      }
      files := files[outPath := audio.value];

      files := files - {temp};
      return Ok(outPath);
    }

    /** The whole handler: the `try` block and its `except` clause. */
    method Handle(upload: Upload, outPath: string, creds: Credentials, p: Providers)
      returns (r: Response)
      modifies this`files, this`log
      ensures var t := Stages(old(files), dirs, upload, outPath, creds, p);
              r == Collapse(t.result) && files == t.files && log == old(log) + t.calls
    {
      var result := RunStages(upload, outPath, creds, p);
      r := Collapse(result);
    }
  }

  /** An empty or missing transcript ends the request: no language-model or speech call, the
      generic 500, and the staged upload stays on disk. */
  lemma TranscriptionFailureStops(files: Files, dirs: set<string>, upload: Upload, outPath: string,
                                  creds: Credentials, p: Providers)
    requires Writable(dirs, TempPath(upload.filename)) && creds.stt.Some?
    requires !Truthy(p.transcribe(upload.content, creds.stt.value))
    ensures var t := Stages(files, dirs, upload, outPath, creds, p);
            && t.calls == [Transcribe(TempPath(upload.filename), creds.stt.value)]
            && Collapse(t.result) == ErrorReply(500, GENERIC_DETAIL)
            && t.files == files[TempPath(upload.filename) := upload.content]
  {
  }

  /** An empty or missing reply from the language model ends the request before any speech
      call; the staged upload stays on disk. */
  lemma CompletionFailureStops(files: Files, dirs: set<string>, upload: Upload, outPath: string,
                               creds: Credentials, p: Providers)
    requires Writable(dirs, TempPath(upload.filename)) && creds.stt.Some? && creds.llm.Some?
    requires var transcript := p.transcribe(upload.content, creds.stt.value);
             Truthy(transcript) && !Truthy(p.complete(transcript.value, creds.llm.value))
    ensures var t := Stages(files, dirs, upload, outPath, creds, p);
            && |t.calls| == 2 && t.calls[1].Complete?
            && Collapse(t.result) == ErrorReply(500, GENERIC_DETAIL)
            && t.files == files[TempPath(upload.filename) := upload.content]
  {
  }

  /** When speech synthesis yields nothing, no URL is returned and the staged upload stays. */
  lemma SynthesisFailureReturnsNoUrl(files: Files, dirs: set<string>, upload: Upload,
                                     outPath: string, creds: Credentials, p: Providers)
    requires Writable(dirs, TempPath(upload.filename))
    requires creds.stt.Some? && creds.llm.Some? && creds.tts.Some?
    requires var transcript := p.transcribe(upload.content, creds.stt.value);
             && Truthy(transcript)
             && var reply := p.complete(transcript.value, creds.llm.value);
             && Truthy(reply)
             && p.synthesize(reply.value, creds.tts.value).None?
    ensures var t := Stages(files, dirs, upload, outPath, creds, p);
            && |t.calls| == 3
            && Collapse(t.result) == ErrorReply(500, GENERIC_DETAIL)
            && t.files == files[TempPath(upload.filename) := upload.content]
  {
  }

  /** When every stage delivers, the three calls go out exactly once each, in order, with the
      transcript as the prompt and the reply as the text; the reply path is returned, the audio
      is stored there and the staged upload is removed. */
  lemma SuccessfulRequest(files: Files, dirs: set<string>, upload: Upload, outPath: string,
                          creds: Credentials, p: Providers)
    requires Writable(dirs, TempPath(upload.filename)) && Writable(dirs, outPath)
    requires creds.stt.Some? && creds.llm.Some? && creds.tts.Some?
    requires var transcript := p.transcribe(upload.content, creds.stt.value);
             && Truthy(transcript)
             && var reply := p.complete(transcript.value, creds.llm.value);
             && Truthy(reply)
             && p.synthesize(reply.value, creds.tts.value).Some?
    ensures var transcript := p.transcribe(upload.content, creds.stt.value).value;
            var reply := p.complete(transcript, creds.llm.value).value;
            var audio := p.synthesize(reply, creds.tts.value).value;
            var temp := TempPath(upload.filename);
            var t := Stages(files, dirs, upload, outPath, creds, p);
            && t.calls == [Transcribe(temp, creds.stt.value), Complete(transcript, creds.llm.value),
                           Synthesize(reply, creds.tts.value, outPath)]
            && Collapse(t.result) == AudioUrl(outPath)
            && t.files == files[temp := upload.content][outPath := audio] - {temp}
  {
  }

  /** Once staged, the temporary file is gone exactly when the request succeeded. */
  lemma TempRemovedOnlyOnSuccess(files: Files, dirs: set<string>, upload: Upload, outPath: string,
                                 creds: Credentials, p: Providers)
    requires Writable(dirs, TempPath(upload.filename))
    ensures var t := Stages(files, dirs, upload, outPath, creds, p);
            TempPath(upload.filename) !in t.files <==> t.result.Ok?
  {
  }

  /** Every failure, whichever stage raised it and with whatever detail, reaches the caller as
      the same response. */
  lemma FailuresIndistinguishable(e1: Exception, e2: Exception)
    ensures Collapse(Err(e1)) == Collapse(Err(e2)) == ErrorReply(500, GENERIC_DETAIL)
  {
  }

  /** The staged file is named after the raw upload name, so a name containing '/' stages into
      a sub-directory of the working directory; unless that directory exists, staging raises
      before any service is called, whatever the reply path. */
  lemma {:induction false} NestedUploadNameFailsAtStaging(files: Files, dirs: set<string>,
                                                          upload: Upload, outPath: string,
                                                          creds: Credentials, p: Providers,
                                                          dir: string, base: string)
    requires upload.filename == dir + "/" + base && '/' !in base
    requires "temp_" + dir !in dirs
    ensures var t := Stages(files, dirs, upload, outPath, creds, p);
            t.result == Err(OsError(TempPath(upload.filename))) && t.calls == [] && t.files == files
  {
    var temp := TempPath(upload.filename);
    assert temp == ("temp_" + dir) + "/" + base;
    LastSegmentAfterSeparator("temp_" + dir, '/', base);
    assert ParentDir(temp) == "temp_" + dir;
  }

  /** A returned reply path inside the artifact directory can be fetched back through the
      lookup endpoint, and yields the audio the speech service produced. */
  lemma {:induction false} ReplyIsRetrievable(files: Files, dirs: set<string>, upload: Upload,
                                              name: string, creds: Credentials, p: Providers)
    requires Stages(files, dirs, upload, ArtifactPath(name), creds, p).result.Ok?
    ensures var t := Stages(files, dirs, upload, ArtifactPath(name), creds, p);
            && GetAudioFile(t.files, dirs, name).FileBody?
            && Some(GetAudioFile(t.files, dirs, name).content)
               == p.synthesize(t.calls[2].text, t.calls[2].key)
  {
    var temp := TempPath(upload.filename);
    assert temp[0] == 't' && ArtifactPath(name)[0] == 'g';
  }
}
