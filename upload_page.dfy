/**
 * The photographer's upload page: the drag state, the file list that drops and selections
 * append to, and the processing step that sums the service's per-photo face counts.
 */
module UploadPage {
  import opened Types
  import Seqs
  import Text

  /** A chosen file, by name and MIME type. */
  datatype UploadFile = UploadFile(name: string, mimeType: string)

  /** The service's result for one photo: its face count and its detections. */
  datatype ProcessedPhoto = ProcessedPhoto(totalFaces: nat, detections: seq<string>)

  /** What the processing call did. */
  datatype ProcessOutcome = Processed(results: seq<ProcessedPhoto>) | ProcessThrew

  /** The summary shown after processing: from the service, or the fallback after a failure. */
  datatype Report =
    | AiReport(totalPhotos: nat, facesDetected: nat, qualityScore: nat, aiResults: seq<ProcessedPhoto>, eventId: string)
    | FallbackReport(totalPhotos: nat, qualityScore: nat, error: string)

  const QualityScore := 94
  const FallbackMessage := "Erro na IA, usando dados simulados"
  /** The last value the progress animation shows before the service call. */
  const AnimationEnd := 50

  predicate IsImage(f: UploadFile)
  {
    Text.StartsWith(f.mimeType, "image/")
  }

  /** The dropped files that are kept: the images, in drop order. */
  function DroppedImages(dropped: seq<UploadFile>): seq<UploadFile>
  {
    Seqs.Filter(dropped, IsImage)
  }

  /** A dropped file is kept exactly when it is an image, and the kept files keep their order. */
  lemma DroppedImagesExact(dropped: seq<UploadFile>, f: UploadFile)
    ensures f in DroppedImages(dropped) <==> f in dropped && IsImage(f)
    ensures Seqs.IsSubsequence(DroppedImages(dropped), dropped)
  {
    Seqs.FilterMembers(dropped, IsImage, f);
    Seqs.FilterIsSubsequence(dropped, IsImage);
  }

  /** `totalFaces`: the sum of the per-photo face counts. */
  function TotalFaces(results: seq<ProcessedPhoto>): nat
  {
    if results == [] then 0 else TotalFaces(results[..|results| - 1]) + results[|results| - 1].totalFaces
  }

  /** `totalDetections`: the sum of the per-photo detection counts (computed, then not shown). */
  function TotalDetections(results: seq<ProcessedPhoto>): nat
  {
    if results == [] then 0 else TotalDetections(results[..|results| - 1]) + |results[|results| - 1].detections|
  }

  lemma {:induction false} TotalsAppend(a: seq<ProcessedPhoto>, b: seq<ProcessedPhoto>)
    ensures TotalFaces(a + b) == TotalFaces(a) + TotalFaces(b)
    ensures TotalDetections(a + b) == TotalDetections(a) + TotalDetections(b)
  {
    if b == [] {
      assert a + b == a;
    } else {
      TotalsAppend(a, b[..|b| - 1]);
      assert (a + b)[..|a + b| - 1] == a + b[..|b| - 1];
      assert (a + b)[|a + b| - 1] == b[|b| - 1];
    }
  }

  /** A photo's faces are part of the total. */
  lemma {:induction false} TotalFacesBound(results: seq<ProcessedPhoto>, k: nat)
    requires k < |results|
    ensures results[k].totalFaces <= TotalFaces(results)
  {
    if k < |results| - 1 {
      TotalFacesBound(results[..|results| - 1], k);
    }
  }

  class Upload {
    var dragActive: bool
    var files: seq<UploadFile>
    var uploadProgress: nat
    var isProcessing: bool
    var processingResults: Option<Report>

    constructor ()
      ensures !dragActive && files == [] && uploadProgress == 0 && !isProcessing && processingResults.None?
    {
      dragActive := false;
      files := [];
      uploadProgress := 0;
      isProcessing := false;
      processingResults := None;
    }

    /** `handleDrag`: enter and over activate, leave deactivates, other events change nothing. */
    method HandleDrag(eventType: string)
      modifies this`dragActive
      ensures eventType == "dragenter" || eventType == "dragover" ==> dragActive
      ensures eventType == "dragleave" ==> !dragActive
      ensures eventType !in {"dragenter", "dragover", "dragleave"} ==> dragActive == old(dragActive)
    {
      if eventType == "dragenter" || eventType == "dragover" {
        dragActive := true;
      } else if eventType == "dragleave" {
        dragActive := false;
      }
    }

    /** `handleDrop`: the drag ends and the dropped images are appended. */
    method HandleDrop(dropped: seq<UploadFile>)
      modifies this`dragActive, this`files
      ensures !dragActive
      ensures files == old(files) + DroppedImages(dropped)
    {
      dragActive := false;
      files := files + DroppedImages(dropped);
    }

    /** `handleFileSelect`: every selected file is appended, unfiltered. */
    method HandleFileSelect(selected: Option<seq<UploadFile>>)
      modifies this`files
      ensures selected.Some? ==> files == old(files) + selected.value
      ensures selected.None? ==> files == old(files)
    {
      if selected.Some? {
        files := files + selected.value;
      }
    }

    /**
     * `processUpload` with the generated event id: nothing for an empty list; otherwise the
     * service's totals on success and the fallback report on failure, with processing over.
     */
    method ProcessUpload(eventId: string, outcome: ProcessOutcome)
      modifies this`isProcessing, this`uploadProgress, this`processingResults
      ensures old(files) == [] ==>
        isProcessing == old(isProcessing) && uploadProgress == old(uploadProgress)
        && processingResults == old(processingResults)
      ensures files != [] ==> !isProcessing
      ensures files != [] && outcome.Processed? ==>
        && uploadProgress == 100
        && processingResults == Some(AiReport(|files|, TotalFaces(outcome.results), QualityScore, outcome.results, eventId))
      ensures files != [] && outcome.ProcessThrew? ==>
        uploadProgress == AnimationEnd && processingResults == Some(FallbackReport(|files|, QualityScore, FallbackMessage))
    {
      if files == [] {
        return;
      }
      isProcessing := true;
      uploadProgress := 0;
      uploadProgress := AnimationEnd;
      match outcome {
        case Processed(results) =>
          uploadProgress := 100;
          var totalFaces := TotalFaces(results);
          processingResults := Some(AiReport(|files|, totalFaces, QualityScore, results, eventId));
        case ProcessThrew =>
          processingResults := Some(FallbackReport(|files|, QualityScore, FallbackMessage));
      }
      isProcessing := false;
    }
  }
}
