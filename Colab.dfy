/** The notebook variant: API keys come from the notebook's secrets with placeholder
    fallbacks, stage keys are read from the environment at call time, and the reply is named
    after the base name of the upload. */
module Colab {
  import opened Wrappers
  import opened Strings
  import opened Storage
  import opened Pipeline

  /** A secret as the notebook's secret store hands it back: a string, or some other value. */
  datatype Secret = Text(s: string) | NonText

  /** The keys to load, each with its placeholder, in the order the loop visits them. */
  const API_KEYS: seq<(string, string)> := [
    ("ASSEMBLYAI_API_KEY", "YOUR_ASSEMBLYAI_API_KEY"),
    ("GROQ_API_KEY", "YOUR_GROQ_API_KEY"),
    ("MURF_API_KEY", "YOUR_MURF_AI_KEY")
  ]

  /** `secret_value and isinstance(secret_value, str)`. */
  predicate Usable(secret: Option<Secret>)
  {
    secret.Some? && secret.value.Text? && secret.value.s != ""
  }

  /** The value a key ends up with: the secret when it is a non-empty string, else the
      fallback. */
  function ResolveSecret(secret: Option<Secret>, fallback: string): (v: string)
    ensures Usable(secret) ==> v == secret.value.s
    ensures !Usable(secret) ==> v == fallback
    ensures fallback != "" ==> v != ""
  {
    if Usable(secret) then secret.value.s else fallback
  }

  /** The environment after the loop has handled the first `n` keys. */
  function Loaded(env: map<string, string>, secrets: map<string, Secret>, n: nat): map<string, string>
    requires n <= |API_KEYS|
  {
    if n == 0 then env
    else
      var (name, placeholder) := API_KEYS[n - 1];
      Loaded(env, secrets, n - 1)[name := ResolveSecret(Get(secrets, name), placeholder)]
  }

  /** The key-loading loop, which writes into the process environment. */
  method LoadApiKeys(h: Host, secrets: map<string, Secret>)
    modifies h`env
    ensures h.env == Loaded(old(h.env), secrets, |API_KEYS|)
  {
    for i := 0 to |API_KEYS|
      invariant h.env == Loaded(old(h.env), secrets, i)
    {
      var (name, placeholder) := API_KEYS[i];
      var secretValue := Get(secrets, name);
      if Usable(secretValue) {
        h.env := h.env[name := secretValue.value.s];
      } else {
        h.env := h.env[name := placeholder];
      }
    }
  }

  /** After loading, each of the three keys holds its secret when that secret is a non-empty
      string and its placeholder otherwise; every other variable is as it was. */
  lemma {:induction false} LoadedKeys(env: map<string, string>, secrets: map<string, Secret>)
    ensures var e := Loaded(env, secrets, |API_KEYS|);
            && (forall i :: 0 <= i < |API_KEYS| ==>
                  && API_KEYS[i].0 in e
                  && var secret := Get(secrets, API_KEYS[i].0);
                     e[API_KEYS[i].0] == if Usable(secret) then secret.value.s else API_KEYS[i].1)
            && e.Keys == env.Keys + {"ASSEMBLYAI_API_KEY", "GROQ_API_KEY", "MURF_API_KEY"}
            && (forall k :: k in env && k !in {"ASSEMBLYAI_API_KEY", "GROQ_API_KEY", "MURF_API_KEY"}
                  ==> e[k] == env[k])
  {
    var v := seq(|API_KEYS|, i requires 0 <= i < |API_KEYS| =>
                 ResolveSecret(Get(secrets, API_KEYS[i].0), API_KEYS[i].1));
    assert Loaded(env, secrets, 1) == env["ASSEMBLYAI_API_KEY" := v[0]];
    assert Loaded(env, secrets, 2) == env["ASSEMBLYAI_API_KEY" := v[0]]["GROQ_API_KEY" := v[1]];
    assert Loaded(env, secrets, 3)
        == env["ASSEMBLYAI_API_KEY" := v[0]]["GROQ_API_KEY" := v[1]]["MURF_API_KEY" := v[2]];
  }

  /** The ngrok token falls back to its placeholder the same way; it is never empty. */
  function NgrokToken(secrets: map<string, Secret>): (token: string)
    ensures token != ""
    ensures Usable(Get(secrets, "NGROK_AUTHTOKEN")) ==> token == secrets["NGROK_AUTHTOKEN"].s
    ensures !Usable(Get(secrets, "NGROK_AUTHTOKEN")) ==> token == "YOUR_NGROK_AUTHTOKEN"
  {
    ResolveSecret(Get(secrets, "NGROK_AUTHTOKEN"), "YOUR_NGROK_AUTHTOKEN")
  }

  /** `os.environ[name]` for each stage; a missing name raises `KeyError`. */
  function EnvCredentials(env: map<string, string>): Credentials
  {
    Credentials(Get(env, "ASSEMBLYAI_API_KEY"), Get(env, "GROQ_API_KEY"), Get(env, "MURF_API_KEY"))
  }

  /** Once the keys are loaded no stage can fail on a missing key. */
  lemma KeysPresentAfterLoading(env: map<string, string>, secrets: map<string, Secret>)
    ensures var c := EnvCredentials(Loaded(env, secrets, |API_KEYS|));
            c.stt.Some? && c.llm.Some? && c.tts.Some?
  {
    LoadedKeys(env, secrets);
  }

  /** `os.path.basename`: the text after the last '/'. */
  function Basename(path: string): string
  {
    LastSegment(path, '/')
  }

  /** Where the reply is written: directory parts of the upload name are dropped. */
  function OutputPath(filename: string): string
  {
    ArtifactPath("response_" + Basename(filename) + ".mp3")
  }

  /** The reply always lands directly in the artifact directory, so it can be written whenever
      that directory exists and no directory already has the reply's name. */
  lemma {:induction false} ReplyPathWritable(dirs: set<string>, filename: string)
    requires ARTIFACT_DIR in dirs && OutputPath(filename) !in dirs
    ensures ParentDir(OutputPath(filename)) == ARTIFACT_DIR
    ensures Writable(dirs, OutputPath(filename))
  {
    var name := "response_" + Basename(filename) + ".mp3";
    LastSegmentSpec(filename, '/');
    assert '/' !in name;
    LastSegmentAfterSeparator(ARTIFACT_DIR, '/', name);
    assert ParentDir(OutputPath(filename)) == ARTIFACT_DIR;
  }

  /** `POST /process_audio` in the notebook. */
  method ProcessAudioEndpoint(h: Host, p: Providers, upload: Upload) returns (r: Response)
    modifies h`files, h`log
    ensures var t := Stages(old(h.files), h.dirs, upload, OutputPath(upload.filename),
                            EnvCredentials(h.env), p);
            r == Collapse(t.result) && h.files == t.files && h.log == old(h.log) + t.calls
    ensures r.AudioUrl? ==> r.url == "generated_audio/response_" + Basename(upload.filename) + ".mp3"
    ensures r.AudioUrl? ==> '/' !in Basename(upload.filename)
    ensures r.ErrorReply? ==> r == ErrorReply(500, GENERIC_DETAIL)
  {
    LastSegmentSpec(upload.filename, '/');
    assert OutputPath(upload.filename) == "generated_audio/response_" + Basename(upload.filename) + ".mp3";
    r := h.Handle(upload, OutputPath(upload.filename), EnvCredentials(h.env), p);
  }
}
