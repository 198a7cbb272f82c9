/**
 * The wizard's upload step (src/components/smart-article/SmartArticleStep2.tsx):
 * the size and format checks on a chosen or dropped file, the drag state, and
 * the extraction and validation that decide whether the wizard moves on.
 */
module SmartArticleStep2 {
  import opened Wrappers
  import opened DocumentParser
  import opened SmartArticleCreation

  /** 10 MB. */
  const MaxFileSize: nat := 10 * 1024 * 1024

  const ValidTypes: seq<string> := [
    "application/pdf",
    "application/vnd.openxmlformats-officedocument.wordprocessingml.document",
    "application/msword",
    "text/plain"
  ]

  const DefaultProcessingError := "Não foi possível processar o arquivo"

  /** How `handleFileSelect` ends: the file is taken, or one of the two toasts is shown. */
  datatype FileCheck = Accepted | TooLarge | InvalidFormat

  /** The checks of `handleFileSelect`, size first. */
  function CheckFile(f: FileInfo): (c: FileCheck)
    ensures c == Accepted <==> f.size <= MaxFileSize && f.mimeType in ValidTypes
    ensures f.size > MaxFileSize ==> c == TooLarge
    ensures c == InvalidFormat <==> f.size <= MaxFileSize && f.mimeType !in ValidTypes
  {
    if f.size > MaxFileSize then TooLarge
    else if f.mimeType !in ValidTypes then InvalidFormat
    else Accepted
  }

  /** A file of exactly 10 MB passes the size check; one byte more does not. */
  lemma SizeLimitIsInclusive(name: string, mimeType: string)
    ensures CheckFile(FileInfo(name, 10485760, mimeType)) != TooLarge
    ensures CheckFile(FileInfo(name, 10485761, mimeType)) == TooLarge
  {
  }

  /** Every format the upload step accepts is one `parseDocument` has a parser for. */
  lemma AcceptedFilesHaveParsers(f: FileInfo)
    requires CheckFile(f) == Accepted
    ensures ParserFor(f.mimeType).Some?
  {
    ParserDispatch(f.mimeType);
  }

  /** `parseDocument`'s outcome for a supported file: the text, or a thrown error's message. */
  datatype Extraction = Extracted(text: string) | ExtractionFailed(message: string)

  /** `errors.join(sep)`. */
  function Join(parts: seq<string>, sep: string): (r: string)
    ensures |parts| == 1 ==> r == parts[0]
    ensures parts == [] ==> r == []
  {
    if parts == [] then []
    else if |parts| == 1 then parts[0]
    else parts[0] + sep + Join(parts[1..], sep)
  }

  /** How `handleProceed` ends. */
  datatype ProceedResult =
    | NoFile
    | Invalid(description: string)
    | Failed(description: string)
    | Proceeded(text: string, warnings: seq<Warning>)

  class UploadStep {
    var isDragging: bool
    var isProcessing: bool

    constructor ()
      ensures !isDragging && !isProcessing
    {
      isDragging := false;
      isProcessing := false;
    }

    /** `handleFileSelect`: the wizard's file changes only when both checks pass. */
    method HandleFileSelect(wizard: Wizard, f: FileInfo) returns (c: FileCheck)
      modifies wizard
      ensures c == CheckFile(f)
      ensures wizard.file == if c == Accepted then Some(f) else old(wizard.file)
      ensures wizard.currentStep == old(wizard.currentStep) && wizard.extractedText == old(wizard.extractedText)
      ensures wizard.title == old(wizard.title) && wizard.premise == old(wizard.premise) && wizard.area == old(wizard.area)
      ensures wizard.aiTips == old(wizard.aiTips) && wizard.tipsCompleted == old(wizard.tipsCompleted)
    {
      if f.size > MaxFileSize {
        return TooLarge;
      }
      if f.mimeType !in ValidTypes {
        return InvalidFormat;
      }
      wizard.SetFile(Some(f));
      c := Accepted;
    }

    /** `handleDrop`: ends the drag and considers the first dropped file only. */
    method HandleDrop(wizard: Wizard, files: seq<FileInfo>) returns (c: Option<FileCheck>)
      modifies this, wizard
      ensures !isDragging && isProcessing == old(isProcessing)
      ensures c == if files == [] then None else Some(CheckFile(files[0]))
      ensures wizard.file == if files != [] && CheckFile(files[0]) == Accepted then Some(files[0]) else old(wizard.file)
      ensures wizard.currentStep == old(wizard.currentStep) && wizard.extractedText == old(wizard.extractedText)
      ensures wizard.title == old(wizard.title) && wizard.premise == old(wizard.premise) && wizard.area == old(wizard.area)
      ensures wizard.aiTips == old(wizard.aiTips) && wizard.tipsCompleted == old(wizard.tipsCompleted)
    {
      isDragging := false;
      c := None;
      if files != [] {
        var check := HandleFileSelect(wizard, files[0]);
        c := Some(check);
      }
    }

    /** `handleDragOver`. */
    method HandleDragOver()
      modifies this
      ensures isDragging && isProcessing == old(isProcessing)
    {
      isDragging := true;
    }

    /** `handleDragLeave`. */
    method HandleDragLeave()
      modifies this
      ensures !isDragging && isProcessing == old(isProcessing)
    {
      isDragging := false;
    }

    /**
     * `handleProceed`: extracts the text (the parser's outcome is a
     * parameter), validates it and moves the wizard on only when the text is
     * valid. Every other ending lowers `isProcessing` again; moving on leaves
     * it raised, since the step is left.
     */
    method HandleProceed(wizard: Wizard, extraction: Extraction) returns (result: ProceedResult)
      requires wizard.Valid() && wizard.currentStep == 2
      modifies this, wizard
      ensures isDragging == old(isDragging)
      ensures old(wizard.file).None? ==> result == NoFile && isProcessing == old(isProcessing)
      ensures result.Proceeded? <==>
        old(wizard.file).Some? && ParserFor(old(wizard.file).value.mimeType).Some?
        && extraction.Extracted? && extraction.text != []
      ensures result.Proceeded? ==>
        result.text == extraction.text && isProcessing
        && wizard.Valid() && wizard.currentStep == 3 && wizard.extractedText == extraction.text
        && result.warnings == Selected(CheckOrder, FindingsOf(extraction.text))
        && (TooShort in result.warnings <==> |extraction.text| < 1000)
        && |result.warnings| <= 4
      ensures !result.Proceeded? ==> wizard.currentStep == 2 && wizard.extractedText == old(wizard.extractedText)
      ensures old(wizard.file).Some? && !result.Proceeded? ==> !isProcessing
      ensures result.Invalid? ==> result.description == EmptyError
      ensures result.Failed? ==>
        if ParserFor(old(wizard.file).value.mimeType).None? then result.description == UnsupportedFormat
        else extraction.ExtractionFailed?
             && result.description == if extraction.message != [] then extraction.message else DefaultProcessingError
      ensures wizard.file == old(wizard.file) && wizard.aiTips == old(wizard.aiTips)
      ensures wizard.title == old(wizard.title) && wizard.premise == old(wizard.premise) && wizard.area == old(wizard.area)
      ensures wizard.tipsCompleted == old(wizard.tipsCompleted)
    {
      if wizard.file.None? {
        return NoFile;
      }
      var file := wizard.file.value;
      isProcessing := true;

      var extractedText: string;
      if ParserFor(file.mimeType).None? {
        isProcessing := false;
        return Failed(UnsupportedFormat);
      }
      match extraction {
        case ExtractionFailed(message) =>
          isProcessing := false;
          return Failed(if message != [] then message else DefaultProcessingError);
        case Extracted(text) =>
          extractedText := text;
      }

      var validation := ValidateDocument(extractedText);
      ValidationWarnings(extractedText);
      if !validation.isValid {
        isProcessing := false;
        return Invalid(Join(validation.errors, ". "));
      }
      wizard.Step2Next(extractedText);
      result := Proceeded(extractedText, validation.warnings);
    }
  }
}
