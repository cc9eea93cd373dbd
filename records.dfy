/**
 * The persisted records the job runner and the document endpoints update in place:
 * a beautification job, a document and its page rows. The fields are the ones
 * backend/app/services/background_tasks.py and backend/app/api/v1/documents.py assign.
 */
module Records {
  import opened Wrappers

  /** `Job.status`: "queued", "running", "completed" or "error". */
  datatype JobStatus = Queued | Running | Completed | Error

  /** The value of a job's fields at one commit. Times are abstract clock readings. */
  datatype JobSnap = JobSnap(status: JobStatus, progress: int, message: string,
                             startedAt: Option<int>, finishedAt: Option<int>)

  class Job {
    var documentId: int
    var status: JobStatus
    var progress: int
    var message: string
    var startedAt: Option<int>
    var finishedAt: Option<int>

    /** A new job as the beautify endpoint creates it: queued, progress 0, message "Queued". */
    constructor (documentId: int)
      ensures this.documentId == documentId
      ensures status == Queued && progress == 0 && message == "Queued"
      ensures startedAt == None && finishedAt == None
    {
      this.documentId := documentId;
      status := Queued;
      progress := 0;
      message := "Queued";
      startedAt := None;
      finishedAt := None;
    }

    function Snap(): JobSnap
      reads this
    {
      JobSnap(status, progress, message, startedAt, finishedAt)
    }
  }

  /** One page row; the optional texts are the nullable columns. */
  datatype PageRow = PageRow(number: int, imagePath: string, ocrText: Option<string>,
                             latexContent: Option<string>, beautifiedText: Option<string>)

  class Document {
    var id: int
    var filename: Option<string>
    var status: string
    var filePath: string
    var pages: seq<PageRow>

    /** A freshly uploaded document: status "uploaded" and no pages. */
    constructor (id: int, filename: Option<string>, filePath: string)
      ensures this.id == id && this.filename == filename && this.filePath == filePath
      ensures status == "uploaded" && pages == []
    {
      this.id := id;
      this.filename := filename;
      this.filePath := filePath;
      status := "uploaded";
      pages := [];
    }
  }
}
