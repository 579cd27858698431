/** The browser page: which files it accepts, which parts of the page it shows, the three
    progress indicators, and how it builds the request and reply URLs from the backend URL the
    user typed. */
module Frontend {
  import opened Wrappers
  import opened Strings
  import Pipeline

  /** A picked or dropped file: its name, the MIME type the browser reports (possibly empty)
      and its size in bytes. */
  datatype AudioFile = AudioFile(name: string, mimeType: string, size: nat)

  /** The values the script gives to `style.display`: 'none', 'block' and 'flex'. */
  datatype Display = Hidden | Block | Flex

  /** The three sections of which at most one is shown at a time. */
  datatype Section = LoadingSection | ResponseSection | ErrorSection

  const VALID_TYPES: seq<string> :=
    ["audio/wav", "audio/mpeg", "audio/mp3", "audio/m4a", "audio/x-m4a", "audio/mp4"]
  const VALID_EXTENSIONS: seq<string> := ["wav", "mp3", "m4a"]

  const INVALID_TYPE_MESSAGE := "Invalid file type. Please upload a WAV, MP3 or M4A file."
  const MISSING_URL_MESSAGE := "Please enter the backend URL."
  const FALLBACK_MESSAGE := "Failed to process audio. Please check the backend is running and try again."

  const ACTIVE := "active"
  const COMPLETED := "completed"

  /** `name.toLowerCase().split('.').pop()`. */
  function Extension(name: string): string
  {
    LastSegment(Lower(name), '.')
  }

  /** The type check of the file handler: a listed MIME type, or a listed extension. */
  predicate IsAccepted(f: AudioFile)
  {
    f.mimeType in VALID_TYPES || Extension(f.name) in VALID_EXTENSIONS
  }

  lemma LowerKeepsDots(s: string)
    ensures '.' in Lower(s) <==> '.' in s
  {
  }

  /** A name with no dot is matched whole, lower-cased. */
  lemma {:induction false} ExtensionOfDotlessName(name: string)
    requires '.' !in name
    ensures Extension(name) == Lower(name)
  {
    LowerKeepsDots(name);
    LastSegmentOfSeparatorFree(Lower(name), '.');
  }

  /** Otherwise only the text after the last dot counts, lower-cased. */
  lemma {:induction false} ExtensionAfterLastDot(stem: string, ext: string)
    requires '.' !in ext
    ensures Extension(stem + "." + ext) == Lower(ext)
  {
    LowerAppend(stem + ".", ext);
    LowerAppend(stem, ".");
    assert Lower(".") == ".";
    LowerKeepsDots(ext);
    LastSegmentAfterSeparator(Lower(stem), '.', Lower(ext));
  }

  /** The acceptance rule in terms of the name as typed: a file named `stem.ext` is accepted
      exactly when its MIME type is listed or `ext`, lower-cased, is wav, mp3 or m4a. */
  lemma AcceptedByTypeOrExtension(stem: string, ext: string, mimeType: string, size: nat)
    requires '.' !in ext
    ensures IsAccepted(AudioFile(stem + "." + ext, mimeType, size))
            <==> mimeType in VALID_TYPES || Lower(ext) in ["wav", "mp3", "m4a"]
  {
    ExtensionAfterLastDot(stem, ext);
  }

  /** Position of a step in the progress bar: 0 to 2 for the stages, 3 for 'done'. */
  function StepOrdinal(step: string): Option<nat>
  {
    if step == "stt" then Some(0)
    else if step == "llm" then Some(1)
    else if step == "tts" then Some(2)
    else if step == "done" then Some(3)
    else None
  }

  /** The classes the step update adds to the speech-to-text, language-model and
      text-to-speech indicators, in that order: indicators before the current step are
      completed, the current one is active, later ones get nothing, and 'done' completes all
      three; an unknown step adds nothing. */
  function StepMarks(step: string): (m: seq<set<string>>)
    ensures |m| == 3
    ensures forall j :: 0 <= j < 3 ==>
              m[j] == match StepOrdinal(step)
                      case None => {}
                      case Some(k) => if j < k then {COMPLETED} else if j == k then {ACTIVE} else {}
  {
    if step == "stt" then [{ACTIVE}, {}, {}]
    else if step == "llm" then [{COMPLETED}, {ACTIVE}, {}]
    else if step == "tts" then [{COMPLETED}, {COMPLETED}, {ACTIVE}]
    else if step == "done" then [{COMPLETED}, {COMPLETED}, {COMPLETED}]
    else [{}, {}, {}]
  }

  /** The class list of indicator `j` after the step update. */
  function ClassesAfter(before: set<string>, step: string, j: nat): set<string>
    requires j < 3
  {
    before - {ACTIVE, COMPLETED} + StepMarks(step)[j]
  }

  /** No indicator is ever both active and completed, and classes other than those two are
      left alone. */
  lemma IndicatorStatesExclusive(before: set<string>, step: string, j: nat)
    requires j < 3
    ensures !(ACTIVE in ClassesAfter(before, step, j) && COMPLETED in ClassesAfter(before, step, j))
    ensures forall c :: c != ACTIVE && c != COMPLETED ==> (c in ClassesAfter(before, step, j) <==> c in before)
  {
  }

  /** Each update clears what the previous one marked, so the indicators show only the latest
      step, whichever steps came before (the timers' 'llm' and 'tts' updates included). */
  lemma LastStepWins(before: set<string>, earlier: string, later: string, j: nat)
    requires j < 3
    ensures ClassesAfter(ClassesAfter(before, earlier, j), later, j) == ClassesAfter(before, later, j)
  {
  }

  /** The status line for a step; unknown steps leave it as it is. */
  function LoadingMessage(step: string): Option<string>
  {
    if step == "stt" then Some("Transcribing your audio...")
    else if step == "llm" then Some("Generating AI response...")
    else if step == "tts" then Some("Creating audio response...")
    else if step == "done" then Some("Complete!")
    else None
  }

  /** The backend URL without one trailing '/', followed by '/' and `path`. */
  function JoinUrl(base: string, path: string): (url: string)
    ensures url == base + path || url == base + "/" + path
    ensures url == base + path <==> base != [] && base[|base| - 1] == '/'
  {
    StripTrailingSlash(base) + "/" + path
  }

  /** The number a string of decimal digits denotes. */
  function DigitsValue(s: string): nat
    requires forall i :: 0 <= i < |s| ==> '0' <= s[i] <= '9'
  {
    if s == [] then 0 else DigitsValue(s[..|s| - 1]) * 10 + (s[|s| - 1] as int - '0' as int)
  }

  /** Decimal digits of a status code, as a template literal prints them: the digits denote
      `n`, and there is no leading zero. */
  function Decimal(n: nat): (s: string)
    ensures s != []
    ensures forall i :: 0 <= i < |s| ==> '0' <= s[i] <= '9'
    ensures DigitsValue(s) == n
    ensures s[0] == '0' ==> s == "0"
  {
    var digit := ['0', '1', '2', '3', '4', '5', '6', '7', '8', '9'];
    if n < 10 then [digit[n]] else Decimal(n / 10) + [digit[n % 10]]
  }

  /** How the processing request ended, as the page sees it. */
  datatype Reply =
    | Delivered(audioUrl: string)                  // a 2xx answer whose JSON carries the URL
    | Rejected(status: nat, detail: Option<string>) // a non-2xx answer, with the JSON detail if any
    | Thrown(message: string)                       // the request or JSON decoding threw

  /** The text shown for a failed request: the backend's detail, else the status code; a
      thrown error's own message, else the fixed fallback. */
  function FailureMessage(reply: Reply): (msg: string)
    requires !reply.Delivered?
    ensures msg != ""
    ensures reply.Rejected? && reply.detail.Some? && reply.detail.value != ""
            ==> msg == reply.detail.value
    ensures reply.Rejected? && (reply.detail.None? || reply.detail.value == "")
            ==> msg == "Server error: " + Decimal(reply.status)
    ensures reply.Thrown? ==> msg == if reply.message != "" then reply.message else FALLBACK_MESSAGE
  {
    var thrown := match reply
      case Rejected(status, detail) =>
        if detail.Some? && detail.value != "" then detail.value else "Server error: " + Decimal(status)
      case Thrown(message) => message;
    if thrown != "" then thrown else FALLBACK_MESSAGE
  }

  /** What the page receives from the backend's own answers. */
  function FromBackend(r: Pipeline.Response): Reply
  {
    match r
    case AudioUrl(url) => Delivered(url)
    case ErrorReply(status, detail) => Rejected(status, Some(detail))
  }

  /** Whatever stage failed on the server, the page shows the same generic detail. */
  lemma BackendFailureShownGenerically(e: Pipeline.Exception)
    ensures FailureMessage(FromBackend(Pipeline.Collapse(Err(e)))) == Pipeline.GENERIC_DETAIL
  {
  }

  /** One progress indicator and its class list. */
  class Indicator {
    var classes: set<string>

    constructor (classes: set<string>)
      ensures this.classes == classes
    {
      this.classes := classes;
    }
  }

  /** The page's mutable state: the selected file and the properties of the elements the
      script changes. */
  class Page {
    var selectedFile: Option<AudioFile>
    var fileInputValue: string
    var fileNameText: string
    var previewDisplay: Display
    var uploadZoneDisplay: Display
    var uploadSectionDisplay: Display
    var processDisabled: bool
    var loadingDisplay: Display
    var responseDisplay: Display
    var errorDisplay: Display
    var errorText: string
    var loadingText: string
    var audioSource: string
    const sttStep: Indicator
    const llmStep: Indicator
    const ttsStep: Indicator

    /** The three indicators are distinct elements. */
    ghost predicate Valid()
    {
      sttStep != llmStep && sttStep != ttsStep && llmStep != ttsStep
    }

    /** The indicators' class lists are those the update for `step` makes from the given ones. */
    ghost predicate IndicatorsAfter(step: string, stt: set<string>, llm: set<string>, tts: set<string>)
      reads sttStep, llmStep, ttsStep
    {
      && sttStep.classes == ClassesAfter(stt, step, 0)
      && llmStep.classes == ClassesAfter(llm, step, 1)
      && ttsStep.classes == ClassesAfter(tts, step, 2)
    }

    /** Among the loading, response and error sections exactly `s` is displayed (none when
        `s` is `None`). */
    ghost predicate Showing(s: Option<Section>)
      reads this
    {
      && loadingDisplay == (if s == Some(LoadingSection) then Block else Hidden)
      && responseDisplay == (if s == Some(ResponseSection) then Block else Hidden)
      && errorDisplay == (if s == Some(ErrorSection) then Block else Hidden)
    }

    /** Script start: nothing is selected; the other properties come from the page markup,
        which is not part of this model. */
    constructor (sttStep: Indicator, llmStep: Indicator, ttsStep: Indicator)
      requires sttStep != llmStep && sttStep != ttsStep && llmStep != ttsStep
      ensures Valid() && selectedFile == None
      ensures this.sttStep == sttStep && this.llmStep == llmStep && this.ttsStep == ttsStep
    {
      this.sttStep := sttStep;
      this.llmStep := llmStep;
      this.ttsStep := ttsStep;
      selectedFile := None;
    }

    method ShowSection(s: Option<Section>)
      modifies this`loadingDisplay, this`responseDisplay, this`errorDisplay
      ensures Showing(s)
    {
      loadingDisplay := Hidden;
      responseDisplay := Hidden;
      errorDisplay := Hidden;
      match s {
        case Some(LoadingSection) => loadingDisplay := Block;
        case Some(ResponseSection) => responseDisplay := Block;
        case Some(ErrorSection) => errorDisplay := Block;
        case None =>
      }
    }

    method ResetUpload()
      modifies this`selectedFile, this`fileInputValue, this`previewDisplay, this`uploadZoneDisplay
      modifies this`processDisabled, this`loadingDisplay, this`responseDisplay, this`errorDisplay
      ensures selectedFile == None && fileInputValue == ""
      ensures previewDisplay == Hidden && uploadZoneDisplay == Block && processDisabled
      ensures Showing(None)
    {
      selectedFile := None;
      fileInputValue := "";
      previewDisplay := Hidden;
      uploadZoneDisplay := Block;
      processDisabled := true;
      ShowSection(None);
    }

    method ShowError(message: string)
      modifies this`errorText, this`loadingDisplay, this`responseDisplay, this`errorDisplay
      ensures errorText == message && Showing(Some(ErrorSection))
    {
      errorText := message;
      ShowSection(Some(ErrorSection));
    }

    method HandleFileSelect(file: Option<AudioFile>)
      modifies this`selectedFile, this`fileNameText, this`previewDisplay, this`uploadZoneDisplay
      modifies this`processDisabled, this`errorText
      modifies this`loadingDisplay, this`responseDisplay, this`errorDisplay
      ensures file.None? ==> unchanged(this)
      // a rejected file changes neither the selection nor the button, and shows only the error
      ensures file.Some? && !IsAccepted(file.value) ==>
                && selectedFile == old(selectedFile) && processDisabled == old(processDisabled)
                && fileNameText == old(fileNameText) && previewDisplay == old(previewDisplay)
                && uploadZoneDisplay == old(uploadZoneDisplay)
                && errorText == INVALID_TYPE_MESSAGE && Showing(Some(ErrorSection))
      // an accepted file is selected, previewed in place of the drop zone, and enables the button
      ensures file.Some? && IsAccepted(file.value) ==>
                && selectedFile == file && fileNameText == file.value.name
                && previewDisplay == Flex && uploadZoneDisplay == Hidden && !processDisabled
                && errorText == old(errorText) && loadingDisplay == old(loadingDisplay)
                && responseDisplay == old(responseDisplay) && errorDisplay == old(errorDisplay)
    {
      if file.None? {
        return;
      }
      var f := file.value;
      if !(f.mimeType in VALID_TYPES) && !(Extension(f.name) in VALID_EXTENSIONS) {
        ShowError(INVALID_TYPE_MESSAGE);
        return;
      }
      selectedFile := file;
      fileNameText := f.name;
      previewDisplay := Flex;
      uploadZoneDisplay := Hidden;
      processDisabled := false;
    }

    method UpdateStep(step: string)
      requires Valid()
      modifies sttStep`classes, llmStep`classes, ttsStep`classes, this`loadingText
      ensures IndicatorsAfter(step, old(sttStep.classes), old(llmStep.classes), old(ttsStep.classes))
      ensures loadingText == if LoadingMessage(step).Some? then LoadingMessage(step).value
                             else old(loadingText)
    {
      var steps := [sttStep, llmStep, ttsStep];
      for i := 0 to |steps|
        invariant forall j :: 0 <= j < i ==> steps[j].classes == old(steps[j].classes) - {ACTIVE, COMPLETED}
        invariant forall j :: i <= j < |steps| ==> steps[j].classes == old(steps[j].classes)
        invariant loadingText == old(loadingText)
      {
        steps[i].classes := steps[i].classes - {ACTIVE, COMPLETED};
      }
      assert steps[0] == sttStep && steps[1] == llmStep && steps[2] == ttsStep;

      if step == "stt" {
        sttStep.classes := sttStep.classes + {ACTIVE};
        loadingText := "Transcribing your audio...";
      } else if step == "llm" {
        sttStep.classes := sttStep.classes + {COMPLETED};
        llmStep.classes := llmStep.classes + {ACTIVE};
        loadingText := "Generating AI response...";
      } else if step == "tts" {
        sttStep.classes := sttStep.classes + {COMPLETED};
        llmStep.classes := llmStep.classes + {COMPLETED};
        ttsStep.classes := ttsStep.classes + {ACTIVE};
        loadingText := "Creating audio response...";
      } else if step == "done" {
        sttStep.classes := sttStep.classes + {COMPLETED};
        llmStep.classes := llmStep.classes + {COMPLETED};
        ttsStep.classes := ttsStep.classes + {COMPLETED};
        loadingText := "Complete!";
      }
    }

    /** The synchronous start of the processing handler: its two guards, the switch to the
        loading view, and the URL the upload is posted to (`None` when no request is made). */
    method StartProcessing(urlInput: string) returns (request: Option<string>)
      requires Valid()
      modifies this`errorText, this`loadingDisplay, this`responseDisplay, this`errorDisplay
      modifies this`uploadSectionDisplay, this`loadingText
      modifies sttStep`classes, llmStep`classes, ttsStep`classes
      ensures request.Some? <==> selectedFile.Some? && Trim(urlInput) != ""
      ensures selectedFile.None? ==> unchanged(this) && unchanged(sttStep, llmStep, ttsStep)
      ensures selectedFile.Some? && Trim(urlInput) == "" ==>
                && errorText == MISSING_URL_MESSAGE && Showing(Some(ErrorSection))
                && uploadSectionDisplay == old(uploadSectionDisplay)
                && loadingText == old(loadingText) && unchanged(sttStep, llmStep, ttsStep)
      ensures request.Some? ==>
                && request.value == JoinUrl(Trim(urlInput), "process_audio")
                && uploadSectionDisplay == Hidden && Showing(Some(LoadingSection))
                && errorText == old(errorText)
                && IndicatorsAfter("stt", old(sttStep.classes), old(llmStep.classes), old(ttsStep.classes))
                && loadingText == "Transcribing your audio..."
    {
      if selectedFile.None? {
        return None;
      }
      var backendUrl := Trim(urlInput);
      ghost var stt, llm, tts := sttStep.classes, llmStep.classes, ttsStep.classes;
      if backendUrl == "" {
        ShowError(MISSING_URL_MESSAGE);
        return None;
      }
      uploadSectionDisplay := Hidden;
      ShowSection(Some(LoadingSection));
      UpdateStep("stt");
      assert IndicatorsAfter("stt", stt, llm, tts);
      request := Some(JoinUrl(backendUrl, "process_audio"));
    }

    /** The end of the processing handler once the request has settled, given the trimmed
        backend URL. */
    method FinishProcessing(backendUrl: string, reply: Reply)
      requires Valid()
      modifies this`audioSource, this`errorText, this`uploadSectionDisplay, this`loadingText
      modifies this`loadingDisplay, this`responseDisplay, this`errorDisplay
      modifies sttStep`classes, llmStep`classes, ttsStep`classes
      ensures reply.Delivered? ==>
                && audioSource == JoinUrl(backendUrl, reply.audioUrl)
                && Showing(Some(ResponseSection))
                && IndicatorsAfter("done", old(sttStep.classes), old(llmStep.classes), old(ttsStep.classes))
                && loadingText == "Complete!"
                && errorText == old(errorText) && uploadSectionDisplay == old(uploadSectionDisplay)
      ensures !reply.Delivered? ==>
                && errorText == FailureMessage(reply) && Showing(Some(ErrorSection))
                && uploadSectionDisplay == Block
                && audioSource == old(audioSource) && loadingText == old(loadingText)
                && unchanged(sttStep, llmStep, ttsStep)
    {
      if reply.Delivered? {
        UpdateStep("done");
        audioSource := JoinUrl(backendUrl, reply.audioUrl);
        ShowSection(Some(ResponseSection));
      } else {
        ShowError(FailureMessage(reply));
        uploadSectionDisplay := Block;
      }
    }

    /** The "new recording" button: the upload form comes back empty. */
    method NewRecording()
      modifies this`uploadSectionDisplay, this`selectedFile, this`fileInputValue
      modifies this`previewDisplay, this`uploadZoneDisplay, this`processDisabled
      modifies this`loadingDisplay, this`responseDisplay, this`errorDisplay
      ensures uploadSectionDisplay == Block && selectedFile == None && fileInputValue == ""
      ensures previewDisplay == Hidden && uploadZoneDisplay == Block && processDisabled
      ensures Showing(None)
    {
      uploadSectionDisplay := Block;
      ResetUpload();
    }

    /** The "retry" button: the upload form comes back with the selection kept, so the same
        file can be processed again. */
    method Retry()
      modifies this`uploadSectionDisplay, this`loadingDisplay, this`responseDisplay, this`errorDisplay
      ensures uploadSectionDisplay == Block && Showing(None)
      ensures selectedFile == old(selectedFile) && processDisabled == old(processDisabled)
    {
      uploadSectionDisplay := Block;
      ShowSection(None);
    }
  }
}
