/**
 * The upload half of ingest.py: one attempt per selected file (upload, poll,
 * attach), the loop over the sorted selection with its two counters, and
 * `main`'s exit status.
 *
 * The server is given as data: the knowledge-base listing and create replies,
 * and for every path what opening the file and each request about it yield.
 */
module Ingest {
  import opened Values
  import opened Strings
  import opened Paths
  import opened FileTree
  import opened Extensions
  import opened Selection
  import opened Http
  import opened Knowledge
  import opened Polling

  /** What happens to one file: whether it can be opened, and the replies to its upload, status and attach requests. */
  datatype FileServer = FileServer(readable: bool, upload: Reply, status: nat -> StatusReply, attach: Reply)

  /** A file ends attached to the knowledge base (whatever polling said) or counted as failed with the exception. */
  datatype Outcome = Attached(fileId: Json, processed: bool) | Errored(error: Raised)

  /** One file's outcome and the requests sent for it. */
  datatype Attempt = Attempt(outcome: Outcome, calls: seq<Call>)

  /** `upload_file`'s result: `r.json()["id"]` after `raise_for_status`. */
  function UploadedId(upload: Reply): Result<Json>
  {
    match CheckedJson(upload)
    case Err(e) => Err(e)
    case Ok(data) => Subscript(data, "id")
  }

  /** `n` status requests for the same file. */
  function StatusCalls(base: string, fileId: Json, n: nat): (r: seq<Call>)
    ensures |r| == n && forall j :: 0 <= j < n ==> r[j] == ProcessStatus(base, fileId)
  {
    seq(n, _ => ProcessStatus(base, fileId))
  }

  /**
   * The body of the `try` for one file. Opening the file fails before any
   * request; otherwise the file is uploaded, polled, and then attached even
   * when polling returned False; any exception ends the attempt as a failure.
   */
  function FileAttempt(base: string, kbId: Json, path: Path, fs: FileServer): Attempt
  {
    if !fs.readable then Attempt(Errored(CannotOpen), [])
    else
      var upload := [UploadFile(base, path)];
      match UploadedId(fs.upload)
      case Err(e) => Attempt(Errored(e), upload)
      case Ok(fileId) =>
        var polled := PollFrom(fs.status, 0);
        var polls := upload + StatusCalls(base, fileId, polled.checks);
        match polled.processed
        case Err(e) => Attempt(Errored(e), polls)
        case Ok(processed) =>
          var all := polls + [AddFile(base, kbId, fileId)];
          match RaiseForStatus(fs.attach)
          case Err(e) => Attempt(Errored(e), all)
          case Ok(_) => Attempt(Attached(fileId, processed), all)
  }

  method IngestFile(base: string, kbId: Json, path: Path, fs: FileServer) returns (outcome: Outcome, calls: seq<Call>)
    ensures Attempt(outcome, calls) == FileAttempt(base, kbId, path, fs)
  {
    if !fs.readable {
      return Errored(CannotOpen), [];
    }
    calls := [UploadFile(base, path)];
    var fileId := UploadedId(fs.upload);
    if fileId.Err? {
      return Errored(fileId.error), calls;
    }
    var processed, checks := WaitForProcessing(fs.status);
    calls := calls + StatusCalls(base, fileId.value, checks);
    if processed.Err? {
      return Errored(processed.error), calls;
    }
    calls := calls + [AddFile(base, kbId, fileId.value)];
    var added := RaiseForStatus(fs.attach);
    if added.Err? {
      return Errored(added.error), calls;
    }
    outcome := Attached(fileId.value, processed.value);
  }

  /** The requests sent for the files, one attempt after the other. */
  function BatchCalls(base: string, kbId: Json, files: seq<Path>, server: Path -> FileServer): seq<Call>
  {
    if files == [] then []
    else
      var last := files[|files| - 1];
      BatchCalls(base, kbId, files[..|files| - 1], server) + FileAttempt(base, kbId, last, server(last)).calls
  }

  /** The outcomes of the files' attempts, in file order. */
  function Outcomes(base: string, kbId: Json, files: seq<Path>, server: Path -> FileServer): (r: seq<Outcome>)
    ensures |r| == |files|
  {
    if files == [] then []
    else
      var last := files[|files| - 1];
      Outcomes(base, kbId, files[..|files| - 1], server) + [FileAttempt(base, kbId, last, server(last)).outcome]
  }

  lemma {:induction false} OutcomesAt(base: string, kbId: Json, files: seq<Path>, server: Path -> FileServer)
    ensures forall i :: 0 <= i < |files| ==>
              Outcomes(base, kbId, files, server)[i] == FileAttempt(base, kbId, files[i], server(files[i])).outcome
  {
    if files != [] {
      var init := files[..|files| - 1];
      OutcomesAt(base, kbId, init, server);
      assert forall i :: 0 <= i < |init| ==> init[i] == files[i];
    }
  }

  /** How many outcomes are attachments. */
  function CountAttached(outcomes: seq<Outcome>): (n: nat)
    ensures n <= |outcomes|
  {
    if outcomes == [] then 0
    else CountAttached(outcomes[..|outcomes| - 1]) + (if outcomes[|outcomes| - 1].Attached? then 1 else 0)
  }

  lemma BatchCallsStep(base: string, kbId: Json, files: seq<Path>, server: Path -> FileServer, i: nat)
    requires i < |files|
    ensures BatchCalls(base, kbId, files[..i + 1], server)
              == BatchCalls(base, kbId, files[..i], server) + FileAttempt(base, kbId, files[i], server(files[i])).calls
  {
    assert files[..i + 1][..i] == files[..i];
  }

  lemma OutcomesStep(base: string, kbId: Json, files: seq<Path>, server: Path -> FileServer, i: nat)
    requires i < |files|
    ensures Outcomes(base, kbId, files[..i + 1], server)
              == Outcomes(base, kbId, files[..i], server) + [FileAttempt(base, kbId, files[i], server(files[i])).outcome]
  {
    assert files[..i + 1][..i] == files[..i];
  }

  lemma CountAttachedStep(outcomes: seq<Outcome>, outcome: Outcome)
    ensures CountAttached(outcomes + [outcome]) == CountAttached(outcomes) + (if outcome.Attached? then 1 else 0)
  {
    assert (outcomes + [outcome])[..|outcomes|] == outcomes;
  }

  /** `for i, path in enumerate(files, 1)`: every file is attempted in order and counted once. */
  method IngestFiles(base: string, kbId: Json, files: seq<Path>, server: Path -> FileServer)
    returns (outcomes: seq<Outcome>, succeeded: nat, failed: nat, calls: seq<Call>)
    ensures |outcomes| == |files|
    ensures forall i :: 0 <= i < |files| ==> outcomes[i] == FileAttempt(base, kbId, files[i], server(files[i])).outcome
    ensures calls == BatchCalls(base, kbId, files, server)
    ensures succeeded == CountAttached(outcomes) && succeeded + failed == |files|
  {
    outcomes, succeeded, failed, calls := [], 0, 0, [];
    var i := 0;
    while i < |files|
      invariant 0 <= i <= |files| && |outcomes| == i
      invariant outcomes == Outcomes(base, kbId, files[..i], server)
      invariant calls == BatchCalls(base, kbId, files[..i], server)
      invariant succeeded == CountAttached(outcomes) && succeeded + failed == i
    {
      var path := files[i];
      var outcome, sent := IngestFile(base, kbId, path, server(path));
      BatchCallsStep(base, kbId, files, server, i);
      OutcomesStep(base, kbId, files, server, i);
      CountAttachedStep(outcomes, outcome);
      if outcome.Attached? {
        succeeded := succeeded + 1;
      } else {
        failed := failed + 1;
      }
      outcomes := outcomes + [outcome];
      calls := calls + sent;
      i := i + 1;
    }
    assert files[..i] == files;
    OutcomesAt(base, kbId, files, server);
  }

  /** Python's `a or b` on an optional string argument: the argument unless it is absent or empty. */
  function OrElse(a: Option<string>, b: string): (r: string)
    ensures a.Some? && a.value != "" ==> r == a.value
    ensures a.None? || a.value == "" ==> r == b
  {
    if a.Some? && a.value != "" then a.value else b
  }

  /** The command line after argparse: `folder` is None when the path is not a directory. */
  datatype Options = Options(
    folder: Option<seq<Node>>, folderName: string, url: string, collection: Option<string>,
    apiKey: Option<string>, ext: Option<string>, dryRun: bool)

  /** The server's replies: the knowledge-base listing and creation, and each file's replies. */
  datatype Server = Server(listing: Reply, creation: Reply, files: Path -> FileServer)

  /** The process exit status, the files listed, and the requests sent. */
  datatype Exit = Exit(code: int, listed: seq<Path>, calls: seq<Call>)

  /** Every file of the selection ends attached. */
  ghost predicate AllAttached(base: string, kbId: Json, files: seq<Path>, server: Path -> FileServer)
  {
    forall i :: 0 <= i < |files| ==> FileAttempt(base, kbId, files[i], server(files[i])).outcome.Attached?
  }

  /** The part of `main` after the dry-run return: resolve the knowledge base, then attempt every file. */
  ghost function IngestionOutcome(base: string, collectionName: string, files: seq<Path>, server: Server): Exit
  {
    var res := Resolve(base, collectionName, server.listing, server.creation);
    match res.kbId
    case Err(_) => Exit(1, files, res.calls)
    case Ok(kbId) =>
      Exit(if AllAttached(base, kbId, files, server.files) then 0 else 1,
           files, res.calls + BatchCalls(base, kbId, files, server.files))
  }

  /** What `main` does with the parsed options, the OPENWEBUI_API_KEY value ("" when unset) and the server. */
  ghost function MainOutcome(opts: Options, envKey: string, server: Server): Exit
  {
    if opts.folder.None? then Exit(1, [], [])
    else if OrElse(opts.apiKey, envKey) == "" && !opts.dryRun then Exit(1, [], [])
    else
      var files := CollectFiles(opts.folder.value, MergeExtensions(opts.ext));
      if files == [] then Exit(1, [], [])
      else if opts.dryRun then Exit(0, files, [])
      else IngestionOutcome(TrimTrailing(opts.url, '/'), OrElse(opts.collection, opts.folderName), files, server)
  }

  /** The batch counts every file as succeeded exactly when every outcome is an attachment. */
  lemma {:induction false} AllCountedIffAllAttached(outcomes: seq<Outcome>)
    ensures CountAttached(outcomes) == |outcomes| <==> forall i :: 0 <= i < |outcomes| ==> outcomes[i].Attached?
  {
    if outcomes != [] {
      var init := outcomes[..|outcomes| - 1];
      AllCountedIffAllAttached(init);
      assert forall i :: 0 <= i < |init| ==> init[i] == outcomes[i];
    }
  }

  /** Resolve the knowledge base (an exception there ends the run with status 1), then ingest the files. */
  method UploadAll(base: string, collectionName: string, files: seq<Path>, server: Server)
    returns (code: int, calls: seq<Call>)
    ensures Exit(code, files, calls) == IngestionOutcome(base, collectionName, files, server)
  {
    var kbId;
    kbId, calls := GetOrCreateKnowledge(base, collectionName, server.listing, server.creation);
    if kbId.Err? {
      return 1, calls;
    }
    var outcomes, succeeded, failed, sent := IngestFiles(base, kbId.value, files, server.files);
    calls := calls + sent;
    AllCountedIffAllAttached(outcomes);
    code := if failed > 0 then 1 else 0;
  }

  /**
   * `main`: exit 1 when the folder is not a directory, when no key is given
   * outside a dry run, or when nothing is selected (dry run included); a dry
   * run lists the files and sends nothing; otherwise upload.
   */
  method Run(opts: Options, envKey: string, server: Server) returns (code: int, listed: seq<Path>, calls: seq<Call>)
    ensures Exit(code, listed, calls) == MainOutcome(opts, envKey, server)
  {
    if opts.folder.None? {
      return 1, [], [];
    }
    var apiKey := OrElse(opts.apiKey, envKey);
    if apiKey == "" && !opts.dryRun {
      return 1, [], [];
    }
    var collectionName := OrElse(opts.collection, opts.folderName);
    var extensions := MergeExtensions(opts.ext);
    var files := CollectFiles(opts.folder.value, extensions);
    if files == [] {
      return 1, [], [];
    }
    listed := files;
    if opts.dryRun {
      return 0, listed, [];
    }
    var base := TrimTrailing(opts.url, '/');
    code, calls := UploadAll(base, collectionName, files, server);
  }
}

/** What the upload half of ingest.py promises about one file, the batch, and the exit status. */
module IngestFacts {
  import opened Values
  import opened Strings
  import opened Paths
  import opened Extensions
  import opened Selection
  import opened Http
  import opened Knowledge
  import opened Polling
  import opened Ingest

  /**
   * A file is attached exactly when it opens, its upload yields an id, polling
   * does not raise and the attach request succeeds; it is attached with the
   * upload's id even when polling returned False (failed or timed out).
   */
  lemma AttachedExactlyWhen(base: string, kbId: Json, path: Path, fs: FileServer)
    ensures var a := FileAttempt(base, kbId, path, fs);
            var polled := PollFrom(fs.status, 0);
            && (a.outcome.Attached? <==>
                  fs.readable && UploadedId(fs.upload).Ok? && polled.processed.Ok? && RaiseForStatus(fs.attach).Ok?)
            && (a.outcome.Attached? ==> a.outcome == Attached(UploadedId(fs.upload).value, polled.processed.value))
  {
  }

  /**
   * The requests for one readable file: its upload, then between one and
   * POLL_TIMEOUT / POLL_INTERVAL status requests, then the attach request
   * unless polling raised. An upload that fails sends nothing more.
   */
  lemma AttemptRequests(base: string, kbId: Json, path: Path, fs: FileServer)
    requires fs.readable
    ensures var a := FileAttempt(base, kbId, path, fs);
            && |a.calls| >= 1 && a.calls[0] == UploadFile(base, path)
            && (UploadedId(fs.upload).Err? ==>
                  a == Attempt(Errored(UploadedId(fs.upload).error), [UploadFile(base, path)]))
            && (UploadedId(fs.upload).Ok? ==>
                  var id := UploadedId(fs.upload).value;
                  var polled := PollFrom(fs.status, 0);
                  var n := polled.checks;
                  && 1 <= n <= PollTimeout / PollInterval
                  && |a.calls| == n + 1 + (if polled.processed.Ok? then 1 else 0)
                  && (forall j :: 1 <= j <= n ==> a.calls[j] == ProcessStatus(base, id))
                  && (polled.processed.Ok? ==> a.calls[n + 1] == AddFile(base, kbId, id)))
  {
    WaitSettles(fs.status);
  }

  /** The paths of the upload requests, in the order they were sent. */
  function UploadedPaths(calls: seq<Call>): (r: seq<Path>)
    ensures |r| <= |calls|
    ensures forall p :: p in r <==> exists j :: 0 <= j < |calls| && calls[j].UploadFile? && calls[j].path == p
  {
    if calls == [] then []
    else (if calls[0].UploadFile? then [calls[0].path] else []) + UploadedPaths(calls[1..])
  }

  /** The files that open, in selection order. */
  function Openable(files: seq<Path>, server: Path -> FileServer): (r: seq<Path>)
    ensures |r| <= |files|
    ensures forall p :: p in r <==> p in files && server(p).readable
  {
    if files == [] then []
    else
      var last := files[|files| - 1];
      Openable(files[..|files| - 1], server) + (if server(last).readable then [last] else [])
  }

  lemma {:induction false} UploadedPathsConcat(a: seq<Call>, b: seq<Call>)
    ensures UploadedPaths(a + b) == UploadedPaths(a) + UploadedPaths(b)
  {
    if a != [] {
      assert (a + b)[1..] == a[1..] + b;
      UploadedPathsConcat(a[1..], b);
    } else {
      assert a + b == b;
    }
  }

  lemma {:induction false} NoUploadsInStatusCalls(base: string, fileId: Json, n: nat)
    ensures UploadedPaths(StatusCalls(base, fileId, n)) == []
  {
    if n > 0 {
      var s := StatusCalls(base, fileId, n);
      assert s == [s[0]] + StatusCalls(base, fileId, n - 1);
      NoUploadsInStatusCalls(base, fileId, n - 1);
    }
  }

  /** One attempt uploads its own file, once, exactly when the file opens. */
  lemma AttemptUploadsOnce(base: string, kbId: Json, path: Path, fs: FileServer)
    ensures UploadedPaths(FileAttempt(base, kbId, path, fs).calls) == if fs.readable then [path] else []
  {
    if fs.readable && UploadedId(fs.upload).Ok? {
      var id := UploadedId(fs.upload).value;
      var polled := PollFrom(fs.status, 0);
      var polls := StatusCalls(base, id, polled.checks);
      NoUploadsInStatusCalls(base, id, polled.checks);
      UploadedPathsConcat([UploadFile(base, path)], polls);
      UploadedPathsConcat([UploadFile(base, path)] + polls, [AddFile(base, kbId, id)]);
    }
  }

  /** The batch uploads every file that opens, each once, in the sorted order of the selection. */
  lemma {:induction false} UploadsFollowFileOrder(base: string, kbId: Json, files: seq<Path>, server: Path -> FileServer)
    ensures UploadedPaths(BatchCalls(base, kbId, files, server)) == Openable(files, server)
  {
    if files != [] {
      var init := files[..|files| - 1];
      var last := files[|files| - 1];
      UploadsFollowFileOrder(base, kbId, init, server);
      UploadedPathsConcat(BatchCalls(base, kbId, init, server), FileAttempt(base, kbId, last, server(last)).calls);
      AttemptUploadsOnce(base, kbId, last, server(last));
    }
  }

  /**
   * `main` exits 0 exactly when the folder is a directory, a key is given (or
   * it is a dry run), some file is selected, and, outside a dry run, the
   * knowledge base resolves and every file is attached. A dry run sends no
   * request, and no request is ever sent without a key.
   */
  lemma ExitStatus(opts: Options, envKey: string, server: Server)
    ensures var x := MainOutcome(opts, envKey, server);
            var key := OrElse(opts.apiKey, envKey);
            && (x.code == 0 || x.code == 1)
            && (x.code == 0 <==>
                  && opts.folder.Some?
                  && (key != "" || opts.dryRun)
                  && CollectFiles(opts.folder.value, MergeExtensions(opts.ext)) != []
                  && (opts.dryRun ||
                        var base := TrimTrailing(opts.url, '/');
                        var res := Resolve(base, OrElse(opts.collection, opts.folderName), server.listing, server.creation);
                        res.kbId.Ok? && AllAttached(base, res.kbId.value, x.listed, server.files)))
            && (opts.dryRun ==> x.calls == [])
            && (x.calls != [] ==> key != "")
            && (x.listed != [] ==> x.listed == CollectFiles(opts.folder.value, MergeExtensions(opts.ext)))
  {
  }
}
