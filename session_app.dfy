/** The multi-session server: a table of progress records keyed by session
    id, filled when a download is accepted, updated by the engine's progress
    hook and by the download worker, read by progress polls and emptied of a
    session by the clean-up that follows retrieval of its file. */
module SessionApp {
  import opened Wrappers
  import opened Progress
  import opened DownloadForm
  import YoutubeUrl
  import SafeTitle

  type Store = map<string, Record>

  /** The record an accepted download starts with. */
  const Initial := Record(0.0, Initializing, "", "")

  /** `progress_store.get(id, {...blank...})` */
  function Get(store: Store, id: string): Record {
    if id in store then store[id] else Blank
  }

  /** The progress hook's update of one record. */
  function Apply(r: Record, ev: Event, parse: Parser): (n: Record)
    ensures n.title == r.title
    ensures ev.Progressing? ==>
      n.error == r.error &&
      (match parse(PercentText(ev.percentStr))
       case Some(v) => n.percentage == v && n.status == Downloading
       case None => n.percentage == 0.0 && n.status == r.status)
    ensures ev.Finished? ==> n.percentage == 100.0 && n.status == Downloaded && n.error == r.error
    ensures ev.Failed? ==> n.error == "Download failed" && n.status == Error && n.percentage == r.percentage
    ensures ev.OtherPhase? ==> n == r
  {
    match ev
    case Progressing(percentStr) =>
      (match parse(PercentText(percentStr))
       case Some(v) => r.(percentage := v, status := Downloading)
       case None => r.(percentage := 0.0))
    case Finished => r.(percentage := 100.0, status := Downloaded)
    case Failed => r.(error := "Download failed", status := Error)
    case OtherPhase => r
  }

  /** What the worker of an accepted download is given: the cleaned link,
      the output template and the engine's format selector (`None` where the
      option is left unset). */
  datatype Job = Job(url: string, outputPath: string, selector: Option<string>)

  datatype StartReply =
    | Started(sessionId: string, job: Job)
    | Rejected(message: string, sessionId: string)

  /** Where the worker writes a session's file. */
  function OutputPath(id: string, format: string): string {
    "downloads/" + id + "." + format
  }

  /** The engine's format selector for a requested format and height. */
  function Selector(format: string, height: string): (s: Option<string>)
    ensures format == "mp4" ==> s == Some("bestvideo[height<=" + height + "]+bestaudio/best")
    ensures format == "mp3" ==> s == Some("bestaudio[ext=m4a]")
    ensures format != "mp4" && format != "mp3" ==> s.None?
  {
    if format == "mp4" then Some("bestvideo[height<=" + height + "]+bestaudio/best")
    else if format == "mp3" then Some("bestaudio[ext=m4a]")
    else None
  }

  /** The answer to a download request given the session id it was assigned. */
  function Plan(id: string, form: Form): (reply: StartReply)
    ensures reply.sessionId == id
    ensures reply.Started? <==> UrlGiven(form)
    ensures reply.Rejected? ==> reply.message == "No URL provided"
    ensures reply.Started? ==>
      reply.job.url == YoutubeUrl.CleanYoutubeUrl(form.url.value) &&
      reply.job.outputPath == OutputPath(id, FormatOf(form)) &&
      reply.job.selector == Selector(FormatOf(form), HeightOf(form))
  {
    if !UrlGiven(form) then Rejected("No URL provided", id)
    else Started(id, Job(YoutubeUrl.CleanYoutubeUrl(form.url.value),
                         OutputPath(id, FormatOf(form)),
                         Selector(FormatOf(form), HeightOf(form))))
  }

  datatype ProgressReply = Snapshot(record: Record) | BadSession(message: string)

  /** A progress poll: the record of a known session, a client error otherwise. */
  function Poll(store: Store, sid: Option<string>): (reply: ProgressReply)
    ensures reply.Snapshot? <==> sid.Some? && sid.value in store
    ensures reply.Snapshot? ==> reply.record == store[sid.value]
    ensures reply.BadSession? ==> reply.message == "Invalid or missing session ID"
  {
    if sid.Some? && sid.value in store then Snapshot(store[sid.value])
    else BadSession("Invalid or missing session ID")
  }

  /** The session id as it is formatted into a path: a missing one reads `None`. */
  function IdText(sid: Option<string>): string {
    sid.GetOr("None")
  }

  function FilePath(sid: Option<string>, format: string): string {
    "downloads/" + IdText(sid) + "." + format
  }

  /** The title of a known session, `'Downloaded_File'` for any other id. */
  function TitleOf(store: Store, sid: Option<string>): string {
    if sid.Some? && sid.value in store then store[sid.value].title else "Downloaded_File"
  }

  datatype FileReply = FileNotFound(message: string) | Attachment(path: string, downloadName: string)

  /** A retrieval: the session's file under a download name built from the
      sanitised title, or a 404 when the file does not exist. */
  function Retrieve(store: Store, sid: Option<string>, format: Option<string>, onDisk: string -> bool): (reply: FileReply)
    ensures reply.FileNotFound? <==> !onDisk(FilePath(sid, format.GetOr("mp4")))
    ensures reply.FileNotFound? ==> reply.message == "File not found"
    ensures reply.Attachment? ==>
      reply.path == FilePath(sid, format.GetOr("mp4")) &&
      reply.downloadName == SafeTitle.Sanitize(TitleOf(store, sid)) + "." + format.GetOr("mp4")
  {
    var path := FilePath(sid, format.GetOr("mp4"));
    if !onDisk(path) then FileNotFound("File not found")
    else Attachment(path, SafeTitle.Sanitize(TitleOf(store, sid)) + "." + format.GetOr("mp4"))
  }

  /** The title a finished worker records: the engine's, or `'Downloaded File'`. */
  function FinishedTitle(title: Option<string>): string {
    title.GetOr("Downloaded File")
  }

  /** What the server holds between requests: the table, and the session
      ids of the clean-ups that served retrievals have queued and that have
      not run yet (a missing id is queued as `None`). */
  datatype ServerState = ServerState(store: Store, pending: multiset<Option<string>>)

  /** One step of the server. A retrieval is `Fetch`, `served` telling
      whether the file was there; only a served one queues a clean-up. A
      clean-up `Evict` runs only if it was queued. */
  datatype Op =
    | Request(id: string, form: Form)
    | Report(id: string, ev: Event, parse: Parser)
    | Complete(id: string, title: Option<string>)
    | Crash(id: string, message: string)
    | Fetch(sid: Option<string>, served: bool)
    | Evict(sid: Option<string>)

  /** The session whose entry an operation may write (for `Evict`, the one
      it removes); retrievals write none. */
  predicate Concerns(op: Op, k: string) {
    match op
    case Request(id, _) => id == k
    case Report(id, _, _) => id == k
    case Complete(id, _) => id == k
    case Crash(id, _) => id == k
    case Fetch(_, _) => false
    case Evict(sid) => sid == Some(k)
  }

  /** The effect of one operation: it leaves every session it does not
      concern as it was, and only a served retrieval queues a clean-up. */
  function Step(s: ServerState, op: Op): (r: ServerState)
    ensures forall k :: !Concerns(op, k) ==>
      (k in r.store <==> k in s.store) && (k in s.store ==> r.store[k] == s.store[k])
    ensures r.pending == (
      if op.Fetch? && op.served then s.pending + multiset{op.sid}
      else if op.Evict? && op.sid in s.pending then s.pending - multiset{op.sid}
      else s.pending)
    ensures op.Evict? && op.sid !in s.pending ==> r == s
  {
    match op
    case Request(id, form) =>
      if UrlGiven(form) then s.(store := s.store[id := Initial]) else s
    case Report(id, ev, parse) =>
      s.(store := s.store[id := Apply(Get(s.store, id), ev, parse)])
    case Complete(id, title) =>
      if id in s.store then s.(store := s.store[id := s.store[id].(title := FinishedTitle(title))]) else s
    case Crash(id, message) =>
      if id in s.store then s.(store := s.store[id := s.store[id].(error := message, status := Error)]) else s
    case Fetch(sid, served) =>
      if served then s.(pending := s.pending + multiset{sid}) else s
    case Evict(sid) =>
      if sid !in s.pending then s
      else ServerState(if sid.Some? then s.store - {sid.value} else s.store, s.pending - multiset{sid})
  }

  /** A sequence of operations, one after the other. */
  function Exec(s: ServerState, ops: seq<Op>): ServerState
    decreases |ops|
  {
    if ops == [] then s else Exec(Step(s, ops[0]), ops[1..])
  }

  /** Sessions do not interfere: operations about other sessions leave a
      session's presence and record as they were. */
  lemma {:induction false} ExecIsolation(s: ServerState, ops: seq<Op>, k: string)
    requires forall i :: 0 <= i < |ops| ==> !Concerns(ops[i], k)
    ensures k in Exec(s, ops).store <==> k in s.store
    ensures k in s.store ==> Exec(s, ops).store[k] == s.store[k]
    decreases |ops|
  {
    if ops != [] {
      assert !Concerns(ops[0], k);
      ExecIsolation(Step(s, ops[0]), ops[1..], k);
    }
  }

  /** A poll for a session no operation touched answers as before. */
  lemma PollIsolation(s: ServerState, ops: seq<Op>, k: string)
    requires forall i :: 0 <= i < |ops| ==> !Concerns(ops[i], k)
    ensures Poll(Exec(s, ops).store, Some(k)) == Poll(s.store, Some(k))
  {
    ExecIsolation(s, ops, k);
  }

  /** A session is evicted only by a clean-up that a served retrieval of
      it queued: with none queued and none served, it stays in the table,
      however many retrievals answer 404 meanwhile. */
  lemma {:induction false} UnservedNeverEvicted(s: ServerState, ops: seq<Op>, k: string)
    requires k in s.store && Some(k) !in s.pending
    requires forall i :: 0 <= i < |ops| ==> !(ops[i].Fetch? && ops[i].sid == Some(k) && ops[i].served)
    ensures k in Exec(s, ops).store
    decreases |ops|
  {
    if ops != [] {
      var next := Step(s, ops[0]);
      assert !(ops[0].Fetch? && ops[0].sid == Some(k) && ops[0].served);
      assert Some(k) !in next.pending;
      assert k in next.store;
      UnservedNeverEvicted(next, ops[1..], k);
    }
  }

  predicate AllInRange(store: Store) {
    forall k :: k in store ==> InRange(store[k].percentage)
  }

  /** With parsers that yield values between 0 and 100, every record's
      percentage stays between 0 and 100, whatever happens. */
  lemma {:induction false} ExecKeepsRange(s: ServerState, ops: seq<Op>)
    requires forall i :: 0 <= i < |ops| && ops[i].Report? ==> BoundedParser(ops[i].parse)
    requires AllInRange(s.store)
    ensures AllInRange(Exec(s, ops).store)
    decreases |ops|
  {
    if ops != [] {
      var next := Step(s, ops[0]);
      if ops[0].Report? {
        var id, ev, parse := ops[0].id, ops[0].ev, ops[0].parse;
        assert BoundedParser(parse);
        assert InRange(Get(s.store, id).percentage);
        if ev.Progressing? {
          var t := PercentText(ev.percentStr);
          assert parse(t).Some? ==> InRange(parse(t).value);
        }
        assert InRange(next.store[id].percentage);
      }
      assert AllInRange(next.store);
      ExecKeepsRange(next, ops[1..]);
    }
  }

  /** Distinct sessions write distinct files for the same format. */
  lemma OutputPathInjective(id1: string, id2: string, format: string)
    requires OutputPath(id1, format) == OutputPath(id2, format)
    ensures id1 == id2
  {
    var p1, p2 := OutputPath(id1, format), OutputPath(id2, format);
    assert |id1| == |id2|;
    forall i | 0 <= i < |id1|
      ensures id1[i] == id2[i]
    {
      assert p1[10 + i] == id1[i];
      assert p2[10 + i] == id2[i];
    }
  }

  /** The retrieval endpoint looks for the file at the path the worker wrote to. */
  lemma RetrieveFindsJobFile(id: string, form: Form, store: Store, onDisk: string -> bool)
    requires Plan(id, form).Started?
    ensures Retrieve(store, Some(id), form.format, onDisk).FileNotFound?
      <==> !onDisk(Plan(id, form).job.outputPath)
  {
  }

  /** The download name carries no forbidden character before its extension. */
  lemma DownloadNameSafe(store: Store, sid: Option<string>, format: Option<string>, onDisk: string -> bool)
    requires Retrieve(store, sid, format, onDisk).Attachment?
    ensures SafeTitle.Clean(Retrieve(store, sid, format, onDisk).downloadName[..|SafeTitle.Sanitize(TitleOf(store, sid))|])
  {
    var s := SafeTitle.Sanitize(TitleOf(store, sid));
    assert Retrieve(store, sid, format, onDisk).downloadName[..|s|] == s;
  }

  /** Retrieval does not look at the record: a file that exists is served
      whatever the session's status, even for a session still initialising. */
  lemma RetrieveIgnoresStatus(store: Store, id: string, format: Option<string>, onDisk: string -> bool)
    requires onDisk(FilePath(Some(id), format.GetOr("mp4")))
    ensures Retrieve(store, Some(id), format, onDisk).Attachment?
    ensures Retrieve(store[id := Initial], Some(id), format, onDisk).Attachment?
  {
  }

  /** Eviction is not final: a later progress report for the evicted id
      creates its record again, from the blank record. */
  lemma {:induction false} ReportRecreatesEvicted(s: ServerState, k: string, ev: Event, parse: Parser)
    requires Some(k) in s.pending
    ensures k !in Step(s, Evict(Some(k))).store
    ensures Poll(Step(Step(s, Evict(Some(k))), Report(k, ev, parse)).store, Some(k)) == Snapshot(Apply(Blank, ev, parse))
  {
    var gone := Step(s, Evict(Some(k)));
    assert Get(gone.store, k) == Blank;
  }

  /** A poll right after an accepted request sees the fresh record. */
  lemma PollAfterRequest(s: ServerState, id: string, form: Form)
    requires UrlGiven(form)
    ensures Poll(Step(s, Request(id, form)).store, Some(id)) == Snapshot(Initial)
  {
  }

  /** After the queued clean-up of a session has run, polls for it are
      client errors. */
  lemma PollAfterEvict(s: ServerState, id: string)
    requires Some(id) in s.pending
    ensures Poll(Step(s, Evict(Some(id))).store, Some(id)).BadSession?
  {
  }

  /** A session is not frozen once downloaded: a `'downloading'` report
      that follows `'finished'` (the engine fetches video and audio one after
      the other) moves it from `Downloaded` back to `Downloading`. */
  lemma StatusCanRegress(r: Record, parse: Parser, text: string)
    requires parse(PercentText(Some(text))).Some?
    ensures Apply(r, Finished, parse).status == Downloaded
    ensures Apply(Apply(r, Finished, parse), Progressing(Some(text)), parse).status == Downloading
  {
  }

  /** `Downloaded` does not pin the percentage at 100: an unparsable report
      afterwards sets it to 0 and keeps the status. */
  lemma DownloadedAtZero(r: Record, parse: Parser, text: string)
    requires parse(PercentText(Some(text))).None?
    ensures Apply(Apply(r, Finished, parse), Progressing(Some(text)), parse).status == Downloaded
    ensures Apply(Apply(r, Finished, parse), Progressing(Some(text)), parse).percentage == 0.0
  {
  }

  /** The server: the table of progress records and the queued clean-ups. */
  class Server {
    var store: Store
    var pending: multiset<Option<string>>

    function Current(): ServerState
      reads this
    {
      ServerState(store, pending)
    }

    constructor()
      ensures store == map[] && pending == multiset{}
    {
      store := map[];
      pending := multiset{};
    }

    /** `/download`, with the session id it assigns passed in. A request
        without a link is answered 400 and leaves the table alone; any other
        gets exactly one new entry, the fresh record. */
    method Accept(id: string, form: Form) returns (reply: StartReply)
      modifies this
      ensures reply == Plan(id, form)
      ensures Current() == Step(old(Current()), Request(id, form))
      ensures reply.Started? ==> store == old(store)[id := Initial]
      ensures reply.Rejected? ==> store == old(store)
    {
      var format := FormatOf(form);
      var height := HeightOf(form);
      if !UrlGiven(form) {
        reply := Rejected("No URL provided", id);
        return;
      }
      var cleaned := YoutubeUrl.CleanYoutubeUrl(form.url.value);
      var outputPath := OutputPath(id, format);
      store := store[id := Initial];
      var selector: Option<string> := None;
      if format == "mp4" {
        selector := Some("bestvideo[height<=" + height + "]+bestaudio/best");
      } else if format == "mp3" {
        selector := Some("bestaudio[ext=m4a]");
      }
      reply := Started(id, Job(cleaned, outputPath, selector));
    }

    /** The progress hook of session `id`: only that session's entry is
        written, and one is created from the blank record if it is missing. */
    method Hook(id: string, ev: Event, parse: Parser)
      modifies this
      ensures Current() == Step(old(Current()), Report(id, ev, parse))
      ensures store == old(store)[id := Apply(Get(old(store), id), ev, parse)]
    {
      var progress := Get(store, id);
      match ev {
        case Progressing(percentStr) =>
          var p := parse(PercentText(percentStr));
          if p.Some? {
            progress := progress.(percentage := p.value);
            progress := progress.(status := Downloading);
          } else {
            progress := progress.(percentage := 0.0);
          }
        case Finished =>
          progress := progress.(percentage := 100.0);
          progress := progress.(status := Downloaded);
        case Failed =>
          progress := progress.(error := "Download failed");
          progress := progress.(status := Error);
        case OtherPhase =>
      }
      store := store[id := progress];
    }

    /** The worker after the engine returned: the title is recorded and the
        status is left as the hook set it. A session evicted meanwhile makes
        the worker fail without touching the table. */
    method Finish(id: string, title: Option<string>)
      modifies this
      ensures Current() == Step(old(Current()), Complete(id, title))
      ensures id in old(store) ==> store == old(store)[id := old(store)[id].(title := FinishedTitle(title))]
      ensures id !in old(store) ==> store == old(store)
    {
      if id in store {
        store := store[id := store[id].(title := FinishedTitle(title))];
      }
    }

    /** The worker after the engine raised: the message and the `Error`
        status are recorded, for a session that is still in the table. */
    method Fail(id: string, message: string)
      modifies this
      ensures Current() == Step(old(Current()), Crash(id, message))
      ensures id in old(store) ==> store == old(store)[id := old(store)[id].(error := message, status := Error)]
      ensures id !in old(store) ==> store == old(store)
    {
      if id in store {
        var progress := store[id];
        progress := progress.(error := message);
        progress := progress.(status := Error);
        store := store[id := progress];
      }
    }

    /** `/progress` */
    method Lookup(sid: Option<string>) returns (reply: ProgressReply)
      ensures reply == Poll(store, sid)
    {
      if sid.Some? && sid.value in store {
        reply := Snapshot(store[sid.value]);
      } else {
        reply := BadSession("Invalid or missing session ID");
      }
    }

    /** `/download_file`; the file system's answer to "does this path exist"
        is passed in. A served file queues the clean-up of its session; a
        404 queues nothing. */
    method DownloadFile(sid: Option<string>, format: Option<string>, onDisk: string -> bool) returns (reply: FileReply)
      modifies this
      ensures reply == Retrieve(old(store), sid, format, onDisk)
      ensures Current() == Step(old(Current()), Fetch(sid, reply.Attachment?))
      ensures store == old(store)
      ensures pending == if reply.Attachment? then old(pending) + multiset{sid} else old(pending)
    {
      var formatType := format.GetOr("mp4");
      var filePath := FilePath(sid, formatType);
      if !onDisk(filePath) {
        return FileNotFound("File not found");
      }
      var safeTitle := SafeTitle.Sanitize(TitleOf(store, sid));
      reply := Attachment(filePath, safeTitle + "." + formatType);
      pending := pending + multiset{sid};
    }

    /** A clean-up that a served retrieval queued, once its delay is over:
        the session is evicted (the file deletion is not part of this model).
        Evicting an id that is no longer in the table changes nothing. */
    method Cleanup(sid: Option<string>)
      requires sid in pending
      modifies this
      ensures Current() == Step(old(Current()), Evict(sid))
      ensures sid.Some? ==> store == old(store) - {sid.value}
      ensures sid.None? ==> store == old(store)
      ensures pending == old(pending) - multiset{sid}
    {
      if sid.Some? {
        store := store - {sid.value};
      }
      pending := pending - multiset{sid};
    }
  }
}
