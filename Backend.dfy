/** The standalone FastAPI server: its start-up key check and its `POST /process_audio`
    handler, which names the reply after the raw upload name. */
module Backend {
  import opened Wrappers
  import opened Strings
  import opened Storage
  import opened Pipeline

  /** The three API keys, read once at import time. */
  datatype Keys = Keys(assemblyAi: string, groq: string, murf: string)

  const STARTUP_ERROR := "One or more API keys are not set. Please set ASSEMBLYAI_API_KEY, GROQ_API_KEY, and MURF_API_KEY environment variables."

  /** `os.environ.get(name)` followed by Python's truthiness test. */
  predicate IsSet(env: map<string, string>, name: string)
  {
    name in env && env[name] != ""
  }

  /** Start-up: the module raises unless all three keys are set and non-empty. */
  function StartupKeys(env: map<string, string>): (r: Result<Keys, string>)
    ensures r.Ok? <==> (IsSet(env, "ASSEMBLYAI_API_KEY") && IsSet(env, "GROQ_API_KEY")
                        && IsSet(env, "MURF_API_KEY"))
    ensures r.Ok? ==> r.value == Keys(env["ASSEMBLYAI_API_KEY"], env["GROQ_API_KEY"], env["MURF_API_KEY"])
    ensures r.Ok? ==> r.value.assemblyAi != "" && r.value.groq != "" && r.value.murf != ""
    ensures r.Err? ==> r.error == STARTUP_ERROR
  {
    var assemblyAi := Get(env, "ASSEMBLYAI_API_KEY");
    var groq := Get(env, "GROQ_API_KEY");
    var murf := Get(env, "MURF_API_KEY");
    if Truthy(assemblyAi) && Truthy(groq) && Truthy(murf) then
      Ok(Keys(assemblyAi.value, groq.value, murf.value))
    else
      Err(STARTUP_ERROR)
  }

  /** Where the reply to an upload is written: the upload name is used as it is. */
  function OutputPath(filename: string): string
  {
    ArtifactPath("response_" + filename + ".mp3")
  }

  function KeyCredentials(keys: Keys): Credentials
  {
    Credentials(Some(keys.assemblyAi), Some(keys.groq), Some(keys.murf))
  }

  /** `POST /process_audio`. */
  method ProcessAudio(h: Host, keys: Keys, p: Providers, upload: Upload) returns (r: Response)
    modifies h`files, h`log
    ensures var t := Stages(old(h.files), h.dirs, upload, OutputPath(upload.filename),
                            KeyCredentials(keys), p);
            r == Collapse(t.result) && h.files == t.files && h.log == old(h.log) + t.calls
    ensures r.AudioUrl? ==> r.url == "generated_audio/response_" + upload.filename + ".mp3"
    ensures r.ErrorReply? ==> r == ErrorReply(500, GENERIC_DETAIL)
  {
    assert OutputPath(upload.filename) == "generated_audio/response_" + upload.filename + ".mp3";
    r := h.Handle(upload, OutputPath(upload.filename), KeyCredentials(keys), p);
  }

  /** The reply path never coincides with the staged upload, so a successful request keeps the
      reply it wrote and can serve it back under `response_<name>.mp3`. */
  lemma ReplyServedBack(files: Files, dirs: set<string>, keys: Keys, p: Providers, upload: Upload)
    requires Stages(files, dirs, upload, OutputPath(upload.filename), KeyCredentials(keys), p).result.Ok?
    ensures var t := Stages(files, dirs, upload, OutputPath(upload.filename), KeyCredentials(keys), p);
            && Collapse(t.result) == AudioUrl(OutputPath(upload.filename))
            && GetAudioFile(t.files, dirs, "response_" + upload.filename + ".mp3").FileBody?
  {
    ReplyIsRetrievable(files, dirs, upload, "response_" + upload.filename + ".mp3", KeyCredentials(keys), p);
  }

  /** The reply to an upload named `dir/base` would live in `generated_audio/response_dir`. */
  lemma {:induction false} NestedReplyDirectory(dir: string, base: string)
    requires '/' !in base
    ensures ParentDir(OutputPath(dir + "/" + base)) == "generated_audio/response_" + dir
  {
    var parent := "generated_audio/response_" + dir;
    assert OutputPath(dir + "/" + base) == parent + "/" + (base + ".mp3");
    LastSegmentAfterSeparator(parent, '/', base + ".mp3");
  }

  /** An upload name containing '/' names a reply inside a sub-directory of the artifact
      directory; unless that directory exists the request never succeeds (writing the reply
      raises, after the speech service has been called). */
  lemma {:induction false} NestedUploadNameNeverSucceeds(files: Files, dirs: set<string>,
                                                         keys: Keys, p: Providers, dir: string,
                                                         base: string, upload: Upload)
    requires upload.filename == dir + "/" + base && '/' !in base
    requires "generated_audio/response_" + dir !in dirs
    ensures Stages(files, dirs, upload, OutputPath(upload.filename), KeyCredentials(keys), p).result.Err?
  {
    NestedReplyDirectory(dir, base);
    assert !Writable(dirs, OutputPath(upload.filename));
  }
}
