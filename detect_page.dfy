/** The detection page (src/pages/Detect.tsx): four pieces of state, the image hand-over from the
    upload widget, and `analyzeImage`, whose `await` is modelled as two events: the request going
    out (`StartAnalysis`) and its outcome arriving (`CompleteAnalysis`). The backend's reply is
    opaque to the page: it is stored as it comes, of type `J`. */
module DetectPage {
  import opened Records
  import ImageUpload

  /** How one request to the backend ended. */
  datatype Outcome<J> =
    | Succeeded(result: Option<J>)  // ok status and a JSON body; None when that body is a falsy JSON value
    | NotOk                          // a non-ok status: "Backend returned an error" is thrown
    | Failed                         // the fetch was rejected or the body was not JSON

  function SuccessToast(): Toast {
    Toast("Analysis Complete", "Detection finished successfully!", false)
  }

  function FailureToast(): Toast {
    Toast("Analysis Failed", "Something went wrong. Try again.", true)
  }

  class Detect<J> {
    var selectedFile: Option<File>
    var imagePreview: string
    var isAnalyzing: bool
    /** The stored reply; `None` stands for every falsy value `analysisData` can hold. */
    var analysisData: Option<J>

    /** Files of the requests sent and not yet completed. */
    ghost var inFlight: multiset<File>

    /** "Analyzing" is shown only while a request is out; a preview, a request or a result exists
        only once a file has been selected. */
    ghost predicate Valid()
      reads this
    {
      (isAnalyzing ==> |inFlight| > 0) &&
      (imagePreview != "" ==> selectedFile.Some?) &&
      (|inFlight| > 0 ==> selectedFile.Some?) &&
      (analysisData.Some? ==> selectedFile.Some?)
    }

    /** At most one request is out, and exactly while "Analyzing" is shown. */
    ghost predicate SingleFlight()
      reads this
    {
      |inFlight| <= 1 && (isAnalyzing <==> |inFlight| == 1)
    }

    constructor ()
      ensures Valid() && SingleFlight()
      ensures selectedFile == None && imagePreview == "" && !isAnalyzing && analysisData == None
      ensures inFlight == multiset{}
    {
      selectedFile := None;
      imagePreview := "";
      isAnalyzing := false;
      analysisData := None;
      inFlight := multiset{};
    }

    /** `handleImageSelect` (Detect.tsx:20-24): the file and preview are stored and any earlier
        result is dropped. A request already out is not cancelled. */
    method HandleImageSelect(file: File, preview: string)
      requires Valid()
      modifies this
      ensures Valid()
      ensures selectedFile == Some(file) && imagePreview == preview && analysisData == None
      ensures isAnalyzing == old(isAnalyzing) && inFlight == old(inFlight)
      ensures old(SingleFlight()) ==> SingleFlight()
      // A fresh preview brings the Analyze button back and hides the earlier results.
      ensures preview != "" ==> AnalyzeButtonShown() && !ResultsShown()
    {
      selectedFile := Some(file);
      imagePreview := preview;
      analysisData := None;
    }

    /** The part of `analyzeImage` before its `await` (Detect.tsx:26-39). Without a selected file
        nothing happens. Otherwise the selected file is sent and "Analyzing" is set; a request
        already out does not prevent another. */
    method StartAnalysis() returns (sent: Option<File>)
      requires Valid()
      modifies this
      ensures Valid()
      ensures sent == old(selectedFile)
      ensures old(selectedFile).None? ==> isAnalyzing == old(isAnalyzing) && inFlight == old(inFlight)
      ensures old(selectedFile).Some? ==> isAnalyzing && inFlight == old(inFlight) + multiset{old(selectedFile).value}
      ensures selectedFile == old(selectedFile) && imagePreview == old(imagePreview)
      ensures analysisData == old(analysisData)
    {
      sent := selectedFile;
      if selectedFile.None? {
        return;
      }
      isAnalyzing := true;
      inFlight := inFlight + multiset{selectedFile.value};
    }

    /** The part of `analyzeImage` after its `await` (Detect.tsx:41-61): only a successful reply is
        stored, and "Analyzing" ends whatever the outcome. */
    method CompleteAnalysis(file: File, outcome: Outcome<J>) returns (toast: Toast)
      requires Valid()
      requires file in inFlight
      modifies this
      ensures Valid()
      ensures !isAnalyzing
      ensures inFlight == old(inFlight) - multiset{file}
      ensures analysisData == if outcome.Succeeded? then outcome.result else old(analysisData)
      ensures toast == if outcome.Succeeded? then SuccessToast() else FailureToast()
      ensures selectedFile == old(selectedFile) && imagePreview == old(imagePreview)
      ensures old(SingleFlight()) ==> SingleFlight()
      // A stored result replaces the button by the results panel.
      ensures outcome.Succeeded? && outcome.result.Some? ==> ResultsShown() && !AnalyzeButtonShown()
      // After a failure the button that was shown can be pressed again: the manual retry.
      ensures !outcome.Succeeded? && old(AnalyzeButtonShown()) ==> AnalyzeButtonEnabled()
    {
      match outcome {
        case Succeeded(result) =>
          analysisData := result;
          toast := SuccessToast();
        case _ =>
          toast := FailureToast();
      }
      isAnalyzing := false;
      inFlight := inFlight - multiset{file};
    }

    /** The Analyze button (Detect.tsx:91-102): shown over a preview while there is no result. */
    function AnalyzeButtonShown(): bool
      reads this
    {
      imagePreview != "" && analysisData.None?
    }

    /** The button can be pressed when shown and not disabled by a running analysis (Detect.tsx:96). */
    function AnalyzeButtonEnabled(): bool
      reads this
    {
      AnalyzeButtonShown() && !isAnalyzing
    }

    function AnalyzeButtonText(): (text: string)
      reads this
      ensures text == "Analyzing..." <==> isAnalyzing
    {
      if isAnalyzing then "Analyzing..." else "Analyze Image"
    }

    /** The results panel (Detect.tsx:104-107): shown exactly when there is a result. */
    function ResultsShown(): bool
      reads this
    {
      analysisData.Some?
    }

    /** Pressing the enabled Analyze button. Because the button is disabled while a request is out,
        pressing it keeps single flight; nothing in `analyzeImage` itself does. */
    method PressAnalyze() returns (sent: Option<File>)
      requires Valid() && SingleFlight()
      requires AnalyzeButtonEnabled()
      modifies this
      ensures Valid() && SingleFlight()
      ensures |inFlight| == 1 && isAnalyzing
      ensures sent == old(selectedFile) && imagePreview == old(imagePreview) && analysisData == old(analysisData)
      // The request out is the one just sent, for the file still selected.
      ensures selectedFile == old(selectedFile) && sent.Some? && inFlight == multiset{sent.value}
    {
      sent := StartAnalysis();
    }
  }

  /** The Analyze button and the results panel are never on screen together. */
  lemma ButtonAndResultsExclusive<J>(page: Detect<J>)
    ensures !(page.AnalyzeButtonShown() && page.ResultsShown())
  {
  }

  /** The upload widget is rendered with `onImageSelect={handleImageSelect}` (Detect.tsx:85-88):
      a finished read lands in both the widget and the page, and drops the page's earlier result. */
  method DeliverSelection<J>(upload: ImageUpload.Uploader, page: Detect<J>, file: File, dataUrl: string)
    requires upload.Valid() && page.Valid()
    requires file in upload.reading
    modifies upload, page
    ensures upload.Valid() && page.Valid()
    ensures upload.preview == Some(dataUrl)
    ensures page.selectedFile == Some(file) && page.imagePreview == dataUrl && page.analysisData == None
    ensures page.isAnalyzing == old(page.isAnalyzing) && page.inFlight == old(page.inFlight)
    ensures upload.reading == old(upload.reading) - multiset{file} && upload.isAnalyzing == old(upload.isAnalyzing)
    ensures upload.isDragging == old(upload.isDragging) && upload.inputValue == old(upload.inputValue)
  {
    var f, p := upload.ReadComplete(file, dataUrl);
    page.HandleImageSelect(f, p);
  }

  /** The widget is rendered with `isAnalyzing={isAnalyzing}` (Detect.tsx:87): once the page has
      sent a request, the widget offers neither clearing nor picking. */
  method PressAnalyzeAndRender<J>(upload: ImageUpload.Uploader, page: Detect<J>) returns (sent: Option<File>)
    requires upload.Valid() && page.Valid() && page.SingleFlight()
    requires page.AnalyzeButtonEnabled()
    modifies upload, page
    ensures upload.Valid() && page.Valid() && page.SingleFlight()
    ensures page.isAnalyzing && upload.isAnalyzing
    ensures !upload.ClearButtonShown() && !upload.PickerEnabled()
    ensures upload.preview == old(upload.preview)
    ensures sent == old(page.selectedFile) && sent.Some? && page.inFlight == multiset{sent.value}
    ensures page.selectedFile == old(page.selectedFile) && page.imagePreview == old(page.imagePreview)
    ensures page.analysisData == old(page.analysisData)
    ensures upload.isDragging == old(upload.isDragging) && upload.inputValue == old(upload.inputValue)
    ensures upload.reading == old(upload.reading)
  {
    sent := page.PressAnalyze();
    upload.SetAnalyzing(page.isAnalyzing);
  }

  /** The reply is never matched to the file it was sent for. The drop zone is not guarded while
      an analysis runs (ImageUpload.tsx:75), and `setAnalysisData(result)` (Detect.tsx:46) does not
      check which file is selected. So: press Analyze for one file, drop another while waiting,
      let its read finish, then let the first reply arrive. The page shows the first file's
      analysis over the second file's preview, and the second file's Analyze button is hidden. */
  method StaleReplyOverNewImage<J>(upload: ImageUpload.Uploader, page: Detect<J>, b: File, dataUrl: string, r: J)
    returns (sent: Option<File>)
    requires upload.Valid() && page.Valid() && page.SingleFlight()
    requires page.AnalyzeButtonEnabled()
    requires ImageUpload.IsImage(b) && page.selectedFile != Some(b)
    modifies upload, page
    ensures sent == old(page.selectedFile) && sent.Some? && sent.value != b
    ensures page.ResultsShown() && !page.AnalyzeButtonShown()
    ensures page.analysisData == Some(r) && page.selectedFile == Some(b) && page.imagePreview == dataUrl
    ensures !page.isAnalyzing && page.inFlight == multiset{}
  {
    sent := PressAnalyzeAndRender(upload, page);
    var refused := upload.HandleDrop([b]);
    DeliverSelection(upload, page, b, dataUrl);
    var toast := page.CompleteAnalysis(sent.value, Succeeded(Some(r)));
  }
}
