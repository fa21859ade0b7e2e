/** The upload widget (src/components/ImageUpload.tsx): a drop zone and a file picker that accept
    only images, read the chosen file into a data URL, show it as a preview and hand it to the
    page. The `FileReader` is modelled by its two ends: `HandleFile` starts a read and
    `ReadComplete` is the `onload` event that delivers the data URL. */
module ImageUpload {
  import opened Records

  const ImagePrefix: string := "image/"

  /** `file.type.startsWith('image/')`. */
  predicate IsImage(f: File) {
    |ImagePrefix| <= |f.mimeType| && f.mimeType[..|ImagePrefix|] == ImagePrefix
  }

  function InvalidTypeToast(): Toast {
    Toast("Invalid file type", "Please upload an image file", true)
  }

  /** The drop zone's three looks: dragging wins over having a preview. */
  datatype ZoneLook = Dragging | WithPreview | Empty

  class Uploader {
    /** The `preview` state: the data URL shown, or `null`. */
    var preview: Option<string>
    /** The `isDragging` state. */
    var isDragging: bool
    /** `fileInputRef.current.value`: what the browser holds as the picked file. */
    var inputValue: string
    /** The `isAnalyzing` prop, as the parent last rendered it. */
    var isAnalyzing: bool

    /** Files whose `FileReader` has been started and has not yet fired `onload`. */
    ghost var reading: multiset<File>
    /** The file whose data URL is the preview. */
    ghost var previewFile: Option<File>

    /** Only image files are ever read, and the preview always shows one of them. */
    ghost predicate Valid()
      reads this
    {
      (forall f :: f in reading ==> IsImage(f)) &&
      (preview.Some? ==> previewFile.Some? && IsImage(previewFile.value))
    }

    constructor (analyzing: bool)
      ensures Valid()
      ensures preview == None && !isDragging && inputValue == "" && isAnalyzing == analyzing
      ensures reading == multiset{}
    {
      preview := None;
      isDragging := false;
      inputValue := "";
      isAnalyzing := analyzing;
      reading := multiset{};
      previewFile := None;
    }

    /** The parent re-renders with a new `isAnalyzing` prop. */
    method SetAnalyzing(analyzing: bool)
      requires Valid()
      modifies this
      ensures Valid()
      ensures isAnalyzing == analyzing
      ensures preview == old(preview) && isDragging == old(isDragging) && inputValue == old(inputValue)
      ensures reading == old(reading) && previewFile == old(previewFile)
    {
      isAnalyzing := analyzing;
    }

    /** `handleFile` (ImageUpload.tsx:17-34): a non-image is refused with a destructive toast and
        nothing else happens; an image starts a read. */
    method HandleFile(file: File) returns (toast: Option<Toast>)
      requires Valid()
      modifies this
      ensures Valid()
      ensures toast.Some? <==> !IsImage(file)
      ensures toast.Some? ==> toast.value == InvalidTypeToast() && toast.value.destructive
      ensures reading == if IsImage(file) then old(reading) + multiset{file} else old(reading)
      ensures preview == old(preview) && previewFile == old(previewFile)
      ensures isDragging == old(isDragging) && inputValue == old(inputValue) && isAnalyzing == old(isAnalyzing)
    {
      if !IsImage(file) {
        toast := Some(InvalidTypeToast());
        return;
      }
      toast := None;
      reading := reading + multiset{file};
    }

    /** The reader's `onload` (ImageUpload.tsx:28-32): the data URL becomes the preview and is
        handed, with the same file, to `onImageSelect` once; the result is that call's arguments. */
    method ReadComplete(file: File, dataUrl: string) returns (selected: File, selectedPreview: string)
      requires Valid()
      requires file in reading
      modifies this
      ensures Valid()
      ensures preview == Some(dataUrl) && previewFile == Some(file)
      ensures selected == file && selectedPreview == dataUrl
      ensures reading == old(reading) - multiset{file}
      ensures isDragging == old(isDragging) && inputValue == old(inputValue) && isAnalyzing == old(isAnalyzing)
      // A (non-empty) data URL replaces the picker by the preview, whose clear button waits
      // for the analysis to end.
      ensures dataUrl != "" ==> !PickerEnabled() && (ClearButtonShown() <==> !isAnalyzing)
    {
      preview := Some(dataUrl);
      previewFile := Some(file);
      reading := reading - multiset{file};
      selected, selectedPreview := file, dataUrl;
    }

    /** `handleDrop` (ImageUpload.tsx:36-42): dragging ends, and only the first dropped file is
        handled. It does not look at `isAnalyzing`. */
    method HandleDrop(files: seq<File>) returns (toast: Option<Toast>)
      requires Valid()
      modifies this
      ensures Valid()
      ensures !isDragging
      ensures files == [] ==> toast.None? && reading == old(reading)
      ensures files != [] ==> (toast.Some? <==> !IsImage(files[0]))
      ensures files != [] && !IsImage(files[0]) ==> toast == Some(InvalidTypeToast())
      ensures files != [] ==>
        reading == if IsImage(files[0]) then old(reading) + multiset{files[0]} else old(reading)
      ensures preview == old(preview) && previewFile == old(previewFile)
      ensures inputValue == old(inputValue) && isAnalyzing == old(isAnalyzing)
    {
      isDragging := false;
      toast := None;
      if files != [] {
        toast := HandleFile(files[0]);
      }
    }

    /** `handleFileInput` (ImageUpload.tsx:44-47): the picker's change event, which arrives with the
        input's new value; only the first picked file is handled. */
    method HandleFileInput(value: string, files: seq<File>) returns (toast: Option<Toast>)
      requires Valid()
      modifies this
      ensures Valid()
      ensures inputValue == value
      ensures files == [] ==> toast.None? && reading == old(reading)
      ensures files != [] ==> (toast.Some? <==> !IsImage(files[0]))
      ensures files != [] && !IsImage(files[0]) ==> toast == Some(InvalidTypeToast())
      ensures files != [] ==>
        reading == if IsImage(files[0]) then old(reading) + multiset{files[0]} else old(reading)
      ensures preview == old(preview) && previewFile == old(previewFile)
      ensures isDragging == old(isDragging) && isAnalyzing == old(isAnalyzing)
    {
      inputValue := value;
      toast := None;
      if files != [] {
        toast := HandleFile(files[0]);
      }
    }

    /** `onDragOver` (ImageUpload.tsx:70-73). */
    method DragOver()
      requires Valid()
      modifies this
      ensures Valid()
      ensures isDragging
      ensures preview == old(preview) && inputValue == old(inputValue) && isAnalyzing == old(isAnalyzing)
      ensures reading == old(reading) && previewFile == old(previewFile)
    {
      isDragging := true;
    }

    /** `onDragLeave` (ImageUpload.tsx:74). */
    method DragLeave()
      requires Valid()
      modifies this
      ensures Valid()
      ensures !isDragging
      ensures preview == old(preview) && inputValue == old(inputValue) && isAnalyzing == old(isAnalyzing)
      ensures reading == old(reading) && previewFile == old(previewFile)
    {
      isDragging := false;
    }

    /** `clearImage` (ImageUpload.tsx:49-54): the preview goes and the input is emptied; the
        parent is not told, and reads already started still complete. */
    method ClearImage()
      requires Valid()
      modifies this
      ensures Valid()
      ensures preview == None && inputValue == ""
      ensures isDragging == old(isDragging) && isAnalyzing == old(isAnalyzing) && reading == old(reading)
      // The picker comes back, usable unless an analysis runs.
      ensures !ClearButtonShown() && (PickerEnabled() <==> !isAnalyzing)
    {
      preview := None;
      previewFile := None;
      inputValue := "";
    }

    /** The clear button (ImageUpload.tsx:84-93): shown only over a preview, and never while an
        analysis runs. */
    function ClearButtonShown(): bool
      reads this
    {
      Truthy(preview) && !isAnalyzing
    }

    /** The "Select File" button and the file input (ImageUpload.tsx:108-122): they exist only
        while there is no preview, and are disabled while an analysis runs. */
    function PickerEnabled(): bool
      reads this
    {
      !Truthy(preview) && !isAnalyzing
    }

    /** The drop zone's look (ImageUpload.tsx:63-69). */
    function Look(): (look: ZoneLook)
      reads this
      ensures look == Dragging <==> isDragging
      ensures look == WithPreview <==> !isDragging && Truthy(preview)
    {
      if isDragging then Dragging else if Truthy(preview) then WithPreview else Empty
    }
  }
}
