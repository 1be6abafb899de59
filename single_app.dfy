/** The single-download server: one global progress record, reset by every
    download request, updated by the engine's progress hook and by the
    download worker, and returned as it is by every poll. */
module SingleApp {
  import opened Wrappers
  import opened Progress
  import opened DownloadForm

  /** The progress hook's update of the global record: only a
      `'downloading'` or a `'finished'` report changes anything. */
  function Apply(r: Record, ev: Event, parse: Parser): (n: Record)
    ensures n.error == r.error && n.title == r.title
    ensures ev.Progressing? ==>
      n.status == r.status &&
      n.percentage == parse(PercentText(ev.percentStr)).GetOr(0.0)
    ensures ev.Finished? ==> n.status == Downloaded && n.percentage == 100.0
    ensures ev.Failed? || ev.OtherPhase? ==> n == r
  {
    match ev
    case Progressing(percentStr) =>
      (match parse(PercentText(percentStr))
       case Some(v) => r.(percentage := v)
       case None => r.(percentage := 0.0))
    case Finished => r.(status := Downloaded, percentage := 100.0)
    case _ => r
  }

  /** What the worker is given: the link as submitted, the output template
      and the engine's format selector. */
  datatype Job = Job(url: string, outputPath: string, selector: string)

  datatype StartReply = Started(job: Job) | Rejected(message: string)

  /** The one output path every download writes, whatever its session. */
  function OutputPath(format: string): string {
    "downloads/output." + format
  }

  /** The engine's format selector; `height` is the resolution with every
      `p` removed. */
  function Selector(format: string, height: string): (s: string)
    ensures format == "mp4" ==> s == "bestvideo[height<=" + height + "]+bestaudio/best[height<=" + height + "]"
    ensures format != "mp4" ==> s == "bestaudio"
  {
    if format == "mp4" then "bestvideo[height<=" + height + "]+bestaudio/best[height<=" + height + "]"
    else "bestaudio"
  }

  /** The answer to a download request. */
  function Plan(form: Form): (reply: StartReply)
    ensures reply.Started? <==> UrlGiven(form)
    ensures reply.Rejected? ==> reply.message == "No URL provided"
    ensures reply.Started? ==>
      reply.job.url == form.url.value &&
      reply.job.outputPath == OutputPath(FormatOf(form)) &&
      reply.job.selector == Selector(FormatOf(form), HeightOf(form))
  {
    if !UrlGiven(form) then Rejected("No URL provided")
    else
      var format := FormatOf(form);
      Started(Job(form.url.value, OutputPath(format), Selector(format, HeightOf(form))))
  }

  datatype FileReply = FileNotFound(message: string) | Attachment(path: string)

  /** A retrieval: the output file of the requested format, or a 404. */
  function Retrieve(format: Option<string>, onDisk: string -> bool): (reply: FileReply)
    ensures reply.FileNotFound? <==> !onDisk(OutputPath(format.GetOr("mp4")))
    ensures reply.FileNotFound? ==> reply.message == "File not found"
    ensures reply.Attachment? ==> reply.path == OutputPath(format.GetOr("mp4"))
  {
    var path := OutputPath(format.GetOr("mp4"));
    if !onDisk(path) then FileNotFound("File not found") else Attachment(path)
  }

  /** Any two accepted requests for the same format share one output file. */
  lemma OutputShared(form1: Form, form2: Form)
    requires Plan(form1).Started? && Plan(form2).Started?
    requires form1.format.GetOr("mp4") == form2.format.GetOr("mp4")
    ensures Plan(form1).job.outputPath == Plan(form2).job.outputPath
  {
  }

  /** The retrieval endpoint reads the file the worker wrote. */
  lemma RetrieveFindsJobFile(form: Form, onDisk: string -> bool)
    requires Plan(form).Started?
    ensures Retrieve(form.format, onDisk).FileNotFound? <==> !onDisk(Plan(form).job.outputPath)
  {
  }

  /** One step of the server, as seen by the global record. */
  datatype Op =
    | Request(form: Form)
    | Report(ev: Event, parse: Parser)
    | Complete(title: Option<string>)
    | Crash(message: string)

  /** The effect of one operation: only a request or a worker outcome can
      change the error or the title, and every request resets the record. */
  function Step(r: Record, op: Op): (n: Record)
    ensures n.error != r.error ==> op.Crash? || op.Request?
    ensures n.title != r.title ==> op.Complete? || op.Request?
    ensures n.status == Error ==> op.Crash? || r.status == Error
    ensures op.Request? ==> n == Blank
  {
    match op
    case Request(_) => Blank
    case Report(ev, parse) => Apply(r, ev, parse)
    case Complete(title) => r.(title := title.GetOr("Downloaded File"), status := Downloaded)
    case Crash(message) => r.(error := message, status := Error)
  }

  /** A sequence of operations, one after the other. */
  function Exec(r: Record, ops: seq<Op>): Record
    decreases |ops|
  {
    if ops == [] then r else Exec(Step(r, ops[0]), ops[1..])
  }

  /** Progress reports alone never touch the error or the title, and never
      produce the `Error` status. */
  lemma {:induction false} ReportsKeepErrorAndTitle(r: Record, ops: seq<Op>)
    requires forall i :: 0 <= i < |ops| ==> ops[i].Report?
    ensures Exec(r, ops).error == r.error
    ensures Exec(r, ops).title == r.title
    ensures r.status != Error ==> Exec(r, ops).status != Error
    decreases |ops|
  {
    if ops != [] {
      assert ops[0].Report?;
      ReportsKeepErrorAndTitle(Step(r, ops[0]), ops[1..]);
    }
  }

  /** With parsers that yield values between 0 and 100, the percentage
      stays between 0 and 100, whatever happens. */
  lemma {:induction false} ExecKeepsRange(r: Record, ops: seq<Op>)
    requires forall i :: 0 <= i < |ops| && ops[i].Report? ==> BoundedParser(ops[i].parse)
    requires InRange(r.percentage)
    ensures InRange(Exec(r, ops).percentage)
    decreases |ops|
  {
    if ops != [] {
      if ops[0].Report? && ops[0].ev.Progressing? {
        var parse := ops[0].parse;
        assert BoundedParser(parse);
        var t := PercentText(ops[0].ev.percentStr);
        assert parse(t).Some? ==> InRange(parse(t).value);
      }
      ExecKeepsRange(Step(r, ops[0]), ops[1..]);
    }
  }

  /** A successful worker reports `Downloaded` whatever percentage the hook
      last wrote: the record can read `Downloaded` below 100. */
  lemma FinishKeepsPercentage(r: Record, title: Option<string>)
    ensures Step(r, Complete(title)).status == Downloaded
    ensures Step(r, Complete(title)).percentage == r.percentage
  {
  }

  /** The server: the global progress record. */
  class Server {
    var progress: Record

    constructor()
      ensures progress == Blank
    {
      progress := Blank;
    }

    /** `/download`: the record is reset first, so also when the request is
        rejected for want of a link. */
    method Start(form: Form) returns (reply: StartReply)
      modifies this
      ensures progress == Step(old(progress), Request(form))
      ensures progress == Blank
      ensures reply == Plan(form)
    {
      progress := Blank;
      var format := FormatOf(form);
      var height := HeightOf(form);
      if !UrlGiven(form) {
        return Rejected("No URL provided");
      }
      var outputFile := OutputPath(format);
      var selector: string;
      if format == "mp4" {
        selector := "bestvideo[height<=" + height + "]+bestaudio/best[height<=" + height + "]";
      } else {
        selector := "bestaudio";
      }
      reply := Started(Job(form.url.value, outputFile, selector));
    }

    /** The progress hook. */
    method Hook(ev: Event, parse: Parser)
      modifies this
      ensures progress == Step(old(progress), Report(ev, parse))
      ensures progress == Apply(old(progress), ev, parse)
    {
      match ev {
        case Progressing(percentStr) =>
          var p := parse(PercentText(percentStr));
          if p.Some? {
            progress := progress.(percentage := p.value);
          } else {
            progress := progress.(percentage := 0.0);
          }
        case Finished =>
          progress := progress.(status := Downloaded);
          progress := progress.(percentage := 100.0);
        case _ =>
      }
    }

    /** The worker after the engine returned. */
    method Finish(title: Option<string>)
      modifies this
      ensures progress == Step(old(progress), Complete(title))
      ensures progress == old(progress).(title := title.GetOr("Downloaded File"), status := Downloaded)
    {
      progress := progress.(title := title.GetOr("Downloaded File"));
      progress := progress.(status := Downloaded);
    }

    /** The worker after the engine raised. */
    method Fail(message: string)
      modifies this
      ensures progress == Step(old(progress), Crash(message))
      ensures progress == old(progress).(error := message, status := Error)
    {
      progress := progress.(error := message);
      progress := progress.(status := Error);
    }

    /** `/progress` */
    method Poll() returns (r: Record)
      ensures r == progress
    {
      r := progress;
    }

    /** `/download_file`; the file system's answer to "does this path exist"
        is passed in. */
    method DownloadFile(format: Option<string>, onDisk: string -> bool) returns (reply: FileReply)
      ensures reply == Retrieve(format, onDisk)
    {
      var filePath := OutputPath(format.GetOr("mp4"));
      if !onDisk(filePath) {
        return FileNotFound("File not found");
      }
      reply := Attachment(filePath);
    }
  }
}
