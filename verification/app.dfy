/**
 * The batch orchestrator (app.py): pick the PDF files of a batch folder,
 * upload each one, submit a document-automation job for it, wait for the
 * job, extract the blueprint fields of its output and append one record per
 * document with fields to a JSON result file in the batch folder.
 *
 * The outside world is given as inputs: whether the folder exists and its
 * listing, the timestamp, the account id, the object store with the jobs'
 * outputs, and per file whether the upload succeeded, what the submission
 * returned and the status responses its job would give. The local result
 * files are a class whose map of decoded JSON documents is updated in place.
 */
module App {
  import opened PyJson
  import opened Strings
  import opened BdaClient
  import opened ResultProcessor

  const AWS_REGION := "us-east-1"
  const BUCKET_NAME := "lufng-bedrock-data-automation"
  const INPUT_PATH := "BDA/Input/ruter_invoices"
  const OUTPUT_PATH := "BDA/Output/ruter_invoices"
  const PROJECT_ID := "a0fbb83f9473"
  const BLUEPRINT_NAME := "ruter_invoice_blueprint"
  const BLUEPRINT_FIELDS: seq<string> := ["invoice_amount", "purchase_date", "ticket_number"]

  // ---------------------------------------------------------------------
  // The PDF filter
  // ---------------------------------------------------------------------

  /** One entry of the folder listing: its name and whether it is a regular file. */
  datatype Entry = Entry(name: string, isFile: bool)

  /** A regular file whose lower-cased name ends in `.pdf`. */
  predicate IsPdf(e: Entry)
  {
    e.isFile && EndsWith(Lower(e.name), ".pdf")
  }

  /** The list comprehension over the listing: the PDF files, in listing order. */
  function PdfFiles(listing: seq<Entry>): (files: seq<string>)
    ensures |files| <= |listing|
  {
    if listing == [] then []
    else (if IsPdf(listing[0]) then [listing[0].name] else []) + PdfFiles(listing[1..])
  }

  /** A name is kept exactly when some entry with that name is a PDF file. */
  lemma {:induction false} PdfFilesMember(listing: seq<Entry>, name: string)
    ensures name in PdfFiles(listing)
            <==> exists i | 0 <= i < |listing| :: IsPdf(listing[i]) && listing[i].name == name
  {
    if listing != [] {
      PdfFilesMember(listing[1..], name);
      if name in PdfFiles(listing[1..]) {
        var i :| 1 <= i + 1 < |listing| && IsPdf(listing[1..][i]) && listing[1..][i].name == name;
        assert IsPdf(listing[i + 1]) && listing[i + 1].name == name;
      }
      if exists i | 0 <= i < |listing| :: IsPdf(listing[i]) && listing[i].name == name {
        var i :| 0 <= i < |listing| && IsPdf(listing[i]) && listing[i].name == name;
        if i > 0 {
          assert listing[1..][i - 1] == listing[i];
        }
      }
    }
  }

  /** The filter keeps listing order: filtering a concatenation concatenates
      the filtered parts. */
  lemma {:induction false} PdfFilesAppend(a: seq<Entry>, b: seq<Entry>)
    ensures PdfFiles(a + b) == PdfFiles(a) + PdfFiles(b)
  {
    if a == [] {
      assert a + b == b;
    } else {
      assert (a + b)[0] == a[0];
      assert (a + b)[1..] == a[1..] + b;
      PdfFilesAppend(a[1..], b);
    }
  }

  /** An upper-case extension is still a PDF. */
  lemma UpperCasePdf()
    ensures IsPdf(Entry("a.PDF", true))
  {
    var lower := Lower("a.PDF");
    assert lower[|lower| - 4..] == ".pdf";
  }

  /** Another extension is not. */
  lemma TextFileIsNotPdf()
    ensures !IsPdf(Entry("b.txt", true))
  {
    var lower := Lower("b.txt");
    assert lower[|lower| - 3] == 't';
  }

  /** The extension test ignores case, and directories are never kept. */
  lemma PdfFilesExample()
    ensures PdfFiles([Entry("a.PDF", true), Entry("b.txt", true), Entry("c.pdf", false)]) == ["a.PDF"]
  {
    var e0, e1, e2 := Entry("a.PDF", true), Entry("b.txt", true), Entry("c.pdf", false);
    UpperCasePdf();
    TextFileIsNotPdf();
    var listing := [e0, e1, e2];
    assert listing[1..] == [e1, e2];
    assert listing[1..][1..] == [e2];
    assert PdfFiles([e2]) == [] by {
      assert [e2][1..] == [];
    }
    assert PdfFiles([e1, e2]) == [];
  }

  // ---------------------------------------------------------------------
  // Paths, keys, URIs and ARNs
  // ---------------------------------------------------------------------

  /** The local batch folder. */
  function InputFolder(batchName: string): string
  {
    "input/" + batchName
  }

  /** `os.path.join(a, b)`: an absolute `b` replaces `a`; otherwise one `/`
      is put between them unless `a` is empty or already ends in `/`. */
  function PathJoin(a: string, b: string): string
  {
    if b != [] && b[0] == '/' then b
    else if a == [] || a[|a| - 1] == '/' then a + b
    else a + "/" + b
  }

  /** The name of the run's result file. */
  function ResultFileName(timestamp: string): string
  {
    "result_" + timestamp + ".json"
  }

  /** The result file of the run, inside the batch folder. */
  function ResultPath(batchName: string, timestamp: string): string
  {
    PathJoin(InputFolder(batchName), ResultFileName(timestamp))
  }

  /** The result file sits directly in the batch folder: its path is the
      folder, then the file name, with exactly one `/` between them. */
  lemma ResultPathInBatchFolder(batchName: string, timestamp: string)
    requires batchName != [] && '/' !in batchName && '/' !in timestamp
    ensures ResultPath(batchName, timestamp) == InputFolder(batchName) + "/" + ResultFileName(timestamp)
    ensures Split(ResultPath(batchName, timestamp), '/') == ["input", batchName, ResultFileName(timestamp)]
  {
    var name := ResultFileName(timestamp);
    assert name[0] == 'r';
    assert InputFolder(batchName)[|InputFolder(batchName)| - 1] == batchName[|batchName| - 1];
    assert batchName[|batchName| - 1] in batchName;
    assert '/' !in name by {
      assert name == "result_" + timestamp + ".json";
      assert '/' !in "result_" && '/' !in ".json";
    }
    assert ResultPath(batchName, timestamp) == "input" + ['/'] + (batchName + ['/'] + name);
    SplitWithoutSep(name, '/');
    SplitCons(batchName, '/', name);
    SplitCons("input", '/', batchName + ['/'] + name);
  }

  /** The object key of an uploaded file. */
  function S3Key(batchName: string, filename: string): string
  {
    INPUT_PATH + "/" + batchName + "/" + filename
  }

  /** An object URI in the project bucket. */
  function BucketUri(key: string): string
  {
    "s3://" + BUCKET_NAME + "/" + key
  }

  /** Where the job reads the document. */
  function InputUri(batchName: string, filename: string): string
  {
    BucketUri(S3Key(batchName, filename))
  }

  /** Where every job writes its output. */
  function OutputUri(): string
  {
    BucketUri(OUTPUT_PATH)
  }

  /** The automation project, resolved once per run. */
  function ProjectArn(account: string): string
  {
    BedrockArn(AWS_REGION, account, "data-automation-project/" + PROJECT_ID)
  }

  /** The input prefix, spelled out piece by piece. */
  lemma InputPathPieces()
    ensures INPUT_PATH == "BDA" + ['/'] + ("Input" + ['/'] + "ruter_invoices")
  {
  }

  /** The object key, spelled out piece by piece. */
  lemma S3KeySpelled(batchName: string, filename: string)
    ensures S3Key(batchName, filename)
            == "BDA" + ['/'] + ("Input" + ['/'] + ("ruter_invoices" + ['/'] + (batchName + ['/'] + filename)))
  {
    InputPathPieces();
  }

  /** The object key is the input prefix, the batch name and the file name,
      each piece read back on `/`. */
  lemma S3KeyPieces(batchName: string, filename: string)
    requires '/' !in batchName && '/' !in filename
    ensures Split(S3Key(batchName, filename), '/')
            == ["BDA", "Input", "ruter_invoices", batchName, filename]
  {
    S3KeySpelled(batchName, filename);
    var s3 := batchName + ['/'] + filename;
    var s2 := "ruter_invoices" + ['/'] + s3;
    var s1 := "Input" + ['/'] + s2;
    SplitWithoutSep(filename, '/');
    SplitCons(batchName, '/', filename);
    SplitCons("ruter_invoices", '/', s3);
    SplitCons("Input", '/', s2);
    SplitCons("BDA", '/', s1);
  }

  /** The bucket name has no `/`. */
  lemma BucketNameHasNoSlash()
    ensures '/' !in BUCKET_NAME
  {
    var a, b := "lufng-bedrock-", "data-automation";
    assert '/' !in a && '/' !in b;
    assert BUCKET_NAME == a + b;
  }

  /** Fetching from a URI built for a key reads that key of the project bucket. */
  lemma BucketUriLocates(key: string)
    ensures SplitS3Uri(BucketUri(key)) == Ok((BUCKET_NAME, key))
  {
    BucketNameHasNoSlash();
    SplitS3UriOfBucketKey(BUCKET_NAME, key);
  }

  /** The input URI of a file designates the object the file was uploaded to,
      and the output URI designates the output prefix. */
  lemma UrisLocate(batchName: string, filename: string)
    ensures SplitS3Uri(InputUri(batchName, filename)) == Ok((BUCKET_NAME, S3Key(batchName, filename)))
    ensures SplitS3Uri(OutputUri()) == Ok((BUCKET_NAME, OUTPUT_PATH))
  {
    BucketUriLocates(S3Key(batchName, filename));
    BucketUriLocates(OUTPUT_PATH);
  }

  /** Read back on `:`, the project ARN yields the region, the account and
      the project resource. */
  lemma ProjectArnFields(account: string)
    requires ':' !in account
    ensures Split(ProjectArn(account), ':')
            == ["arn", "aws", "bedrock", AWS_REGION, account, "data-automation-project/" + PROJECT_ID]
  {
    var a, b := "data-automation-project/", PROJECT_ID;
    assert ':' !in a && ':' !in b;
    assert ':' !in AWS_REGION;
    BedrockArnFields(AWS_REGION, account, a + b);
  }

  // ---------------------------------------------------------------------
  // The result file
  // ---------------------------------------------------------------------

  /** The record appended for a document. */
  function ResultRecord(filename: string, data: map<string, Json>): Json
  {
    JObj(map[
      "filename" := JStr(filename),
      "purchase_date" := GetOrNull(data, "purchase_date"),
      "invoice_amount" := GetOrNull(data, "invoice_amount"),
      "ticket_number" := GetOrNull(data, "ticket_number"),
      "submitted" := JBool(false)
    ])
  }

  /** The records of a result file: its array, or none when it is absent
      (or, were it to occur, not an array). */
  function ResultsAt(files: map<string, Json>, path: string): seq<Json>
  {
    if path in files && files[path].JArr? then files[path].items else []
  }

  /** `append_result_to_batch` as a specification: load the array (or start
      from an empty one), add the record at the end and write the whole
      array back. A file that holds something other than an array has no
      `.append`. */
  function AfterAppend(files: map<string, Json>, path: string, record: Json): Result<map<string, Json>>
  {
    var results := if path in files then files[path] else JArr([]);
    if !results.JArr? then Err(AttributeError)
    else Ok(files[path := JArr(results.items + [record])])
  }

  /** Appending to an absent file or to an array succeeds: the array grows
      by exactly the record at its end, the earlier records are unchanged
      and no other file changes. */
  lemma AppendGrowsByOne(files: map<string, Json>, path: string, record: Json)
    requires path !in files || files[path].JArr?
    ensures AfterAppend(files, path, record).Ok?
    ensures var after := AfterAppend(files, path, record).value;
            && path in after && after[path].JArr?
            && ResultsAt(after, path) == ResultsAt(files, path) + [record]
            && |ResultsAt(after, path)| == |ResultsAt(files, path)| + 1
            && (forall other | other != path :: (other in after <==> other in files))
            && (forall other | other != path && other in files :: after[other] == files[other])
  {
  }

  /** Appending to a file that holds something other than an array fails
      and writes nothing. */
  lemma AppendToNonArray(files: map<string, Json>, path: string, record: Json)
    requires path in files && !files[path].JArr?
    ensures AfterAppend(files, path, record) == Err(AttributeError)
  {
  }

  /** The local result files, as decoded JSON documents by path. */
  class ResultFiles {
    var files: map<string, Json>

    constructor(initial: map<string, Json>)
      ensures files == initial
    {
      files := initial;
    }

    /** `append_result_to_batch`: read, append, rewrite. */
    method AppendResultToBatch(path: string, record: Json) returns (r: Result<()>)
      modifies this
      ensures r.Ok? <==> AfterAppend(old(files), path, record).Ok?
      ensures r.Ok? ==> files == AfterAppend(old(files), path, record).value
      ensures r.Err? ==> r.error == AttributeError && files == old(files)
    {
      var results: Json;
      if path in files {
        results := files[path];
      } else {
        results := JArr([]);
      }
      if !results.JArr? {
        return Err(AttributeError);
      }
      var items := results.items + [record];
      files := files[path := JArr(items)];
      r := Ok(());
    }
  }

  // ---------------------------------------------------------------------
  // One document
  // ---------------------------------------------------------------------

  /** What the outside world does for one file: whether its upload
      succeeds, what the job submission returns (or raises), and the status
      responses its job gives to successive polls. */
  datatype FileEnv = FileEnv(uploaded: bool, invoked: Result<Json>, statuses: seq<Json>)

  /** How the body of the `try` ends for one document: an exception, a
      terminal status other than Success, Success with the extracted
      fields, or a job whose status never leaves Created/InProgress. */
  datatype Job = Raised(error: Error) | NotSuccess(status: Json) | Succeeded(data: map<string, Json>) | Waiting

  /** The part of the `try` after the poll: check the status, read the job
      metadata URI and extract the blueprint fields. */
  function Finished(store: Store, response: Json): Job
  {
    match Subscript(response, "status")
    case Err(e) => Raised(e)
    case Ok(status) =>
      if status != JStr("Success") then NotSuccess(status)
      else match Path(response, ["outputConfiguration", "s3Uri"])
        case Err(e) => Raised(e)
        case Ok(uri) =>
          match BdaResults(store, uri, BLUEPRINT_NAME, BLUEPRINT_FIELDS)
          case Err(e) => Raised(e)
          case Ok(data) => Succeeded(data)
  }

  /** The body of the `try`: submit, poll until the job leaves
      Created/InProgress, then `Finished`. */
  function JobOutcome(store: Store, env: FileEnv): Job
  {
    match env.invoked
    case Err(e) => Raised(e)
    case Ok(response) =>
      match Subscript(response, "invocationArn")
      case Err(e) => Raised(e)
      case Ok(_) =>
        match FirstTerminal(env.statuses)
        case StillWaiting => Waiting
        case Failed(e, _) => Raised(e)
        case Done(status, _) => Finished(store, status)
  }

  /** The configured specs, as a set. */
  lemma BlueprintFieldSet()
    ensures FieldSet(BLUEPRINT_FIELDS) == {"invoice_amount", "purchase_date", "ticket_number"}
  {
    assert BLUEPRINT_FIELDS[..3] == BLUEPRINT_FIELDS;
  }

  /** A job that succeeded with fields carries exactly the blueprint fields. */
  lemma SucceededFields(store: Store, response: Json)
    requires Finished(store, response).Succeeded? && Finished(store, response).data != map[]
    ensures Finished(store, response).data.Keys == {"invoice_amount", "purchase_date", "ticket_number"}
  {
    var uri := Path(response, ["outputConfiguration", "s3Uri"]).value;
    assert BdaResults(store, uri, BLUEPRINT_NAME, BLUEPRINT_FIELDS) == Ok(Finished(store, response).data);
    BdaResultsShape(store, uri, BLUEPRINT_NAME, BLUEPRINT_FIELDS);
    BlueprintFieldSet();
  }

  /** The record of a document holds its file name, `submitted` false and,
      under each of the three record keys, the extracted value, or null
      when the field map lacks it. */
  lemma RecordFields(filename: string, data: map<string, Json>)
    ensures var record := ResultRecord(filename, data);
            && record.JObj?
            && record.fields.Keys == {"filename", "purchase_date", "invoice_amount", "ticket_number", "submitted"}
            && Subscript(record, "filename") == Ok(JStr(filename))
            && Subscript(record, "submitted") == Ok(JBool(false))
            && (forall f | f in BLUEPRINT_FIELDS ::
                  Subscript(record, f) == Ok(if f in data then data[f] else JNull))
  {
  }

  /** A job that succeeded with fields yields a record holding the
      extracted values themselves, never a null put in for a missing key. */
  lemma SucceededRecord(store: Store, env: FileEnv, filename: string)
    requires JobOutcome(store, env).Succeeded? && JobOutcome(store, env).data != map[]
    ensures var data := JobOutcome(store, env).data;
            forall f | f in BLUEPRINT_FIELDS :: f in data && Subscript(ResultRecord(filename, data), f) == Ok(data[f])
  {
    var status := FirstTerminal(env.statuses).response;
    assert JobOutcome(store, env) == Finished(store, status);
    SucceededFields(store, status);
    RecordFields(filename, JobOutcome(store, env).data);
  }

  /** A job that succeeded reached the `Success` status, and it yields
      fields (so the document gets a record) exactly when some segment of
      the job matched the configured blueprint. */
  lemma SucceededIffMatched(store: Store, env: FileEnv)
    requires JobOutcome(store, env).Succeeded?
    ensures var response := FirstTerminal(env.statuses).response;
            && Subscript(response, "status") == Ok(JStr("Success"))
            && Path(response, ["outputConfiguration", "s3Uri"]).Ok?
            && var segments := JobSegments(store, Path(response, ["outputConfiguration", "s3Uri"]).value);
               (JobOutcome(store, env).data != map[]
                <==> exists j | 0 <= j < |segments| :: MatchesBlueprint(store, segments[j], BLUEPRINT_NAME))
  {
    var response := FirstTerminal(env.statuses).response;
    assert JobOutcome(store, env) == Finished(store, response);
    var uri := Path(response, ["outputConfiguration", "s3Uri"]).value;
    assert BdaResults(store, uri, BLUEPRINT_NAME, BLUEPRINT_FIELDS) == Ok(JobOutcome(store, env).data);
    BdaResultsIffMatched(store, uri, BLUEPRINT_NAME, BLUEPRINT_FIELDS);
  }

  /** The body of the `try` as it runs: the calls in order, each exception
      ending the document. It is the executable step the file loop calls;
      what it computes is stated by `JobOutcome`, which the lemmas use. */
  method SubmitAndExtract(store: Store, env: FileEnv) returns (job: Job)
    ensures job == JobOutcome(store, env)
  {
    if env.invoked.Err? {
      return Raised(env.invoked.error);
    }
    var response := env.invoked.value;
    var invocationArn := Subscript(response, "invocationArn");
    if invocationArn.Err? {
      return Raised(invocationArn.error);
    }
    var poll := WaitForDataAutomationToComplete(env.statuses);
    match poll {
      case StillWaiting =>
        job := Waiting;
      case Failed(e, _) =>
        job := Raised(e);
      case Done(status, _) =>
        job := CheckAndExtract(store, status);
    }
  }

  /** The `try` after the poll, as it runs, called by `SubmitAndExtract`;
      what it computes is stated by `Finished`. */
  method CheckAndExtract(store: Store, response: Json) returns (job: Job)
    ensures job == Finished(store, response)
  {
    var status := Subscript(response, "status");
    if status.Err? {
      return Raised(status.error);
    }
    if status.value != JStr("Success") {
      return NotSuccess(status.value);
    }
    var uri := Path(response, ["outputConfiguration", "s3Uri"]);
    if uri.Err? {
      return Raised(uri.error);
    }
    var data := ProcessBdaResults(store, uri.value, BLUEPRINT_NAME, BLUEPRINT_FIELDS);
    if data.Err? {
      return Raised(data.error);
    }
    job := Succeeded(data.value);
  }

  // ---------------------------------------------------------------------
  // The per-file loop
  // ---------------------------------------------------------------------

  /** One run over a batch: its result file, the PDF files, and for each
      of them its job submission, whether its upload succeeds and how its
      job ends. */
  datatype Batch = Batch(resultPath: string, files: seq<string>, requests: seq<Json>,
                         uploaded: seq<bool>, jobs: seq<Job>)

  /** One request, upload flag and job per file. */
  predicate WellFormed(b: Batch)
  {
    |b.requests| == |b.files| && |b.uploaded| == |b.files| && |b.jobs| == |b.files|
  }

  /** The job submission for a file. */
  function Request(batchName: string, account: string, filename: string): Json
  {
    InvokeRequest(InputUri(batchName, filename), OutputUri(), ProjectArn(account), account, AWS_REGION)
  }

  /** The job submissions of the files, in order. */
  function Requests(batchName: string, account: string, files: seq<string>): (requests: seq<Json>)
    ensures |requests| == |files|
    ensures forall i | 0 <= i < |files| :: requests[i] == Request(batchName, account, files[i])
  {
    seq(|files|, i requires 0 <= i < |files| => Request(batchName, account, files[i]))
  }

  /** The batch a call of `process_batch_folder` runs over. */
  function BatchOf(batchName: string, timestamp: string, account: string, store: Store,
                   files: seq<string>, envs: seq<FileEnv>): (b: Batch)
    requires |envs| == |files|
    ensures WellFormed(b)
  {
    Batch(ResultPath(batchName, timestamp), files, Requests(batchName, account, files),
          Uploads(envs), Jobs(store, envs))
  }

  /** The submission for each file asks the job to read exactly the object
      that file was uploaded to, and to write under the output prefix with
      the run's project and the account's profile. */
  lemma RequestLocates(batchName: string, account: string, filename: string)
    ensures var request := Request(batchName, account, filename);
            && Path(request, ["inputConfiguration", "s3Uri"]) == Ok(JStr(InputUri(batchName, filename)))
            && SplitS3Uri(InputUri(batchName, filename)) == Ok((BUCKET_NAME, S3Key(batchName, filename)))
            && Path(request, ["outputConfiguration", "s3Uri"]) == Ok(JStr(OutputUri()))
            && SplitS3Uri(OutputUri()) == Ok((BUCKET_NAME, OUTPUT_PATH))
            && Path(request, ["dataAutomationConfiguration", "dataAutomationProjectArn"])
               == Ok(JStr(ProjectArn(account)))
            && Path(request, ["dataAutomationProfileArn"]) == Ok(JStr(ProfileArn(AWS_REGION, account)))
  {
    InvokeRequestFields(InputUri(batchName, filename), OutputUri(), ProjectArn(account), account, AWS_REGION);
    UrisLocate(batchName, filename);
  }

  /** The upload flags of the files' environments. */
  function Uploads(envs: seq<FileEnv>): (uploaded: seq<bool>)
    ensures |uploaded| == |envs|
    ensures forall i | 0 <= i < |envs| :: uploaded[i] == envs[i].uploaded
  {
    seq(|envs|, i requires 0 <= i < |envs| => envs[i].uploaded)
  }

  /** How the files' jobs end. */
  function Jobs(store: Store, envs: seq<FileEnv>): (jobs: seq<Job>)
    ensures |jobs| == |envs|
    ensures forall i | 0 <= i < |envs| :: jobs[i] == JobOutcome(store, envs[i])
  {
    seq(|envs|, i requires 0 <= i < |envs| => JobOutcome(store, envs[i]))
  }

  /** Whether the loop is still going, or stuck or stopped at a file. An
      upload failure is raised outside the `try` and ends the run; a job
      that never finishes keeps the run polling for ever. */
  datatype Halt = Running | UploadFailed(filename: string) | PollHung(filename: string)

  /** The loop state: the result files, `processed_count`, the submitted
      requests, and the indices of the files whose record was appended. */
  datatype Progress = Progress(files: map<string, Json>, processed: nat, requests: seq<Json>,
                               appended: seq<nat>, halt: Halt)

  /** File `i` reached Success with a non-empty field map; by
      `SucceededIffMatched` that is Success with a segment matching the
      configured blueprint. */
  predicate Contributes(b: Batch, i: nat)
  {
    i < |b.files| && i < |b.jobs| && b.jobs[i].Succeeded? && b.jobs[i].data != map[]
  }

  /** The record file `i` contributes. */
  function RecordAt(b: Batch, i: nat): Json
  {
    if i < |b.files| && i < |b.jobs| && b.jobs[i].Succeeded?
    then ResultRecord(b.files[i], b.jobs[i].data)
    else JNull
  }

  /** The records of a list of files, in that order. */
  function RecordsOf(b: Batch, indices: seq<nat>): (records: seq<Json>)
    ensures |records| == |indices|
  {
    if indices == [] then []
    else RecordsOf(b, indices[..|indices| - 1]) + [RecordAt(b, indices[|indices| - 1])]
  }

  /** One pass of the loop body, for file `i`. */
  function FileStep(b: Batch, i: nat, p: Progress): Progress
    requires WellFormed(b) && i < |b.files|
  {
    var filename := b.files[i];
    if !b.uploaded[i] then p.(halt := UploadFailed(filename))
    else
      var sent := p.(requests := p.requests + [b.requests[i]]);
      match b.jobs[i]
      case Waiting => sent.(halt := PollHung(filename))
      case Raised(_) => sent
      case NotSuccess(_) => sent
      case Succeeded(data) =>
        if data == map[] then sent.(processed := p.processed + 1)
        else
          match AfterAppend(p.files, b.resultPath, ResultRecord(filename, data))
          case Err(_) => sent
          case Ok(files) => sent.(files := files, processed := p.processed + 1, appended := p.appended + [i])
  }

  /** One pass of the loop body sends the file's request unless its upload
      failed, counts the file only if its job reached Success, and either
      leaves the result files alone or appends exactly this file's record,
      which it does only for a file that contributes. */
  lemma FileStepShape(b: Batch, i: nat, p: Progress)
    requires WellFormed(b) && i < |b.files|
    ensures var r := FileStep(b, i, p);
            && (r.halt == Running ==> r.requests == p.requests + [b.requests[i]])
            && (r.halt != Running ==> r.requests == p.requests || r.requests == p.requests + [b.requests[i]])
            && (r.processed == p.processed || (r.processed == p.processed + 1 && b.jobs[i].Succeeded?))
            && ((r.appended == p.appended && r.files == p.files)
                || (r.appended == p.appended + [i] && Contributes(b, i) && r.processed == p.processed + 1
                    && AfterAppend(p.files, b.resultPath, RecordAt(b, i)) == Ok(r.files)))
  {
  }

  /** The loop over the first `k` files, stopping at a halt. */
  function Run(b: Batch, initial: map<string, Json>, k: nat): Progress
    requires WellFormed(b) && k <= |b.files|
  {
    if k == 0 then Progress(initial, 0, [], [], Running)
    else Next(b, k - 1, Run(b, initial, k - 1))
  }

  /** File `i` is taken only while the loop is still going. */
  function Next(b: Batch, i: nat, p: Progress): Progress
    requires WellFormed(b) && i < |b.files|
  {
    if p.halt != Running then p else FileStep(b, i, p)
  }

  /** Once halted, the loop goes no further. */
  lemma {:induction false} RunStaysHalted(b: Batch, initial: map<string, Json>, j: nat, k: nat)
    requires WellFormed(b) && j <= k <= |b.files|
    requires Run(b, initial, j).halt != Running
    ensures Run(b, initial, k) == Run(b, initial, j)
  {
    if j < k {
      RunStaysHalted(b, initial, j, k - 1);
    }
  }

  /** The loop is still going after `k` files exactly when each of them was
      uploaded and its job left Created/InProgress. */
  lemma {:induction false} RunKeepsRunning(b: Batch, initial: map<string, Json>, k: nat)
    requires WellFormed(b) && k <= |b.files|
    ensures Run(b, initial, k).halt == Running
            <==> forall i | 0 <= i < k :: b.uploaded[i] && !b.jobs[i].Waiting?
  {
    if k > 0 {
      RunKeepsRunning(b, initial, k - 1);
      var p := Run(b, initial, k - 1);
      assert Next(b, k - 1, p).halt == Running
             <==> p.halt == Running && b.uploaded[k - 1] && !b.jobs[k - 1].Waiting?;
    }
  }

  /** The bookkeeping after `k` files: requests go out one per file, in file
      order, one for each file while the loop is still going; a record is
      appended only for a file that reached Success with fields, at most
      once and in file order; `processed_count` counts at least the
      appended records and at most the files submitted. */
  predicate Counted(b: Batch, k: nat, p: Progress)
    requires WellFormed(b) && k <= |b.files|
  {
    && |p.appended| <= p.processed <= |p.requests| <= k
    && (p.halt == Running ==> |p.requests| == k)
    && p.requests == b.requests[..|p.requests|]
    && (forall s, t | 0 <= s < t < |p.appended| :: p.appended[s] < p.appended[t])
    && (forall t | 0 <= t < |p.appended| :: p.appended[t] < |p.requests| && Contributes(b, p.appended[t]))
  }

  /** One more file keeps the bookkeeping. */
  lemma NextCounts(b: Batch, i: nat, p: Progress)
    requires WellFormed(b) && i < |b.files|
    requires Counted(b, i, p)
    ensures Counted(b, i + 1, Next(b, i, p))
  {
    if p.halt == Running {
      FileStepShape(b, i, p);
      assert p.requests + [b.requests[i]] == b.requests[..i + 1];
    }
  }

  /** The bookkeeping holds after every number of files. */
  lemma {:induction false} RunCounts(b: Batch, initial: map<string, Json>, k: nat)
    requires WellFormed(b) && k <= |b.files|
    ensures Counted(b, k, Run(b, initial, k))
  {
    if k > 0 {
      RunCounts(b, initial, k - 1);
      NextCounts(b, k - 1, Run(b, initial, k - 1));
    }
  }

  /** Every file other than the result file is as it was at the start. */
  ghost predicate Untouched(b: Batch, initial: map<string, Json>, files: map<string, Json>)
  {
    var path := b.resultPath;
    && (forall other | other != path :: (other in files <==> other in initial))
    && (forall other | other != path && other in initial :: files[other] == initial[other])
  }

  /** One more file writes at most the result file. */
  lemma NextUntouched(b: Batch, initial: map<string, Json>, i: nat, p: Progress)
    requires WellFormed(b) && i < |b.files|
    requires Untouched(b, initial, p.files)
    ensures Untouched(b, initial, Next(b, i, p).files)
  {
    if p.halt == Running {
      FileStepShape(b, i, p);
    }
  }

  /** The run writes only its own result file. */
  lemma {:induction false} RunTouchesOnlyResultFile(b: Batch, initial: map<string, Json>, k: nat)
    requires WellFormed(b) && k <= |b.files|
    ensures Untouched(b, initial, Run(b, initial, k).files)
  {
    if k > 0 {
      RunTouchesOnlyResultFile(b, initial, k - 1);
      NextUntouched(b, initial, k - 1, Run(b, initial, k - 1));
    }
  }

  /** The result file is absent or an array, holding the records `base` it
      started with followed by those of the appended files, in order. */
  predicate RecordsKept(b: Batch, base: seq<Json>, p: Progress)
  {
    var path := b.resultPath;
    && (path !in p.files || p.files[path].JArr?)
    && ResultsAt(p.files, path) == base + RecordsOf(b, p.appended)
  }

  /** One more file keeps the records. */
  lemma NextRecords(b: Batch, i: nat, p: Progress, base: seq<Json>)
    requires WellFormed(b) && i < |b.files|
    requires RecordsKept(b, base, p)
    ensures RecordsKept(b, base, Next(b, i, p))
  {
    if p.halt == Running {
      var r := FileStep(b, i, p);
      FileStepShape(b, i, p);
      if r.appended != p.appended {
        AppendGrowsByOne(p.files, b.resultPath, RecordAt(b, i));
        assert r.appended[..|r.appended| - 1] == p.appended;
      }
    }
  }

  /** When the result file starts absent or as an array, it stays so, its
      earlier records are kept and the appended records follow them in the
      order their files were processed. */
  lemma {:induction false} RunRecords(b: Batch, initial: map<string, Json>, k: nat)
    requires WellFormed(b) && k <= |b.files|
    requires var path := b.resultPath; path !in initial || initial[path].JArr?
    ensures RecordsKept(b, ResultsAt(initial, b.resultPath), Run(b, initial, k))
  {
    if k > 0 {
      RunRecords(b, initial, k - 1);
      NextRecords(b, k - 1, Run(b, initial, k - 1), ResultsAt(initial, b.resultPath));
    }
  }

  /** The files that reach Success with fields, among the first `k`. */
  function Contributors(b: Batch, k: nat): (indices: seq<nat>)
    ensures forall t | 0 <= t < |indices| :: indices[t] < k
  {
    if k == 0 then []
    else Contributors(b, k - 1) + (if Contributes(b, k - 1) then [k - 1] else [])
  }

  /** The files that reach Success, among the first `k`. */
  function SuccessCount(b: Batch, k: nat): nat
  {
    if k == 0 then 0
    else SuccessCount(b, k - 1) + (if k - 1 < |b.jobs| && b.jobs[k - 1].Succeeded? then 1 else 0)
  }

  /** One more file that does not halt the loop, with the result file
      writable, is counted exactly when it reached Success and recorded
      exactly when it contributes. */
  lemma NextExact(b: Batch, i: nat, p: Progress)
    requires WellFormed(b) && i < |b.files|
    requires var path := b.resultPath; path !in p.files || p.files[path].JArr?
    requires p.processed == SuccessCount(b, i) && p.appended == Contributors(b, i)
    requires Next(b, i, p).halt == Running
    ensures Next(b, i, p).processed == SuccessCount(b, i + 1)
    ensures Next(b, i, p).appended == Contributors(b, i + 1)
  {
    AppendGrowsByOne(p.files, b.resultPath, RecordAt(b, i));
  }

  /** A run that is still going (every upload succeeded and every job
      finished) whose result file starts absent or as an array has counted
      exactly the files that reached Success, whether or not they had
      fields, and appended a record for exactly those that had fields. */
  lemma {:induction false} RunExact(b: Batch, initial: map<string, Json>, k: nat)
    requires WellFormed(b) && k <= |b.files|
    requires var path := b.resultPath; path !in initial || initial[path].JArr?
    requires Run(b, initial, k).halt == Running
    ensures Run(b, initial, k).processed == SuccessCount(b, k)
    ensures Run(b, initial, k).appended == Contributors(b, k)
  {
    if k > 0 {
      var p := Run(b, initial, k - 1);
      RunExact(b, initial, k - 1);
      RunRecords(b, initial, k - 1);
      NextExact(b, k - 1, p);
    }
  }

  /** Three PDFs, two of whose jobs succeed with fields and one ends in
      `ClientError`: two records in file order, and two of three processed. */
  lemma ThreeFileBatch(b: Batch, initial: map<string, Json>)
    requires WellFormed(b) && |b.files| == 3
    requires b.resultPath !in initial
    requires b.uploaded == [true, true, true]
    requires Contributes(b, 0) && Contributes(b, 1)
    requires b.jobs[2] == NotSuccess(JStr("ClientError"))
    ensures var p := Run(b, initial, 3);
            && p.halt == Running && p.processed == 2
            && ResultsAt(p.files, b.resultPath) == [RecordAt(b, 0), RecordAt(b, 1)]
  {
    assert forall i | 0 <= i < 3 :: b.uploaded[i] && !b.jobs[i].Waiting?;
    RunKeepsRunning(b, initial, 3);
    RunExact(b, initial, 3);
    RunRecords(b, initial, 3);
    ThreeFileTally(b);
  }

  /** The tallies of that batch: two files reach Success, both with fields,
      and their records come in file order. */
  lemma ThreeFileTally(b: Batch)
    requires WellFormed(b) && |b.files| == 3
    requires Contributes(b, 0) && Contributes(b, 1)
    requires b.jobs[2] == NotSuccess(JStr("ClientError"))
    ensures SuccessCount(b, 3) == 2
    ensures Contributors(b, 3) == [0, 1]
    ensures RecordsOf(b, Contributors(b, 3)) == [RecordAt(b, 0), RecordAt(b, 1)]
  {
    assert SuccessCount(b, 1) == 1;
    assert SuccessCount(b, 2) == 2;
    assert Contributors(b, 1) == [0];
    assert Contributors(b, 2) == [0, 1];
    assert [0, 1][..1] == [0];
    assert [0][..0] == [];
  }

  // ---------------------------------------------------------------------
  // process_batch_folder
  // ---------------------------------------------------------------------

  /** How a call ends: no folder, no PDF files, or the loop ran (to the
      end, or until it halted) with this count out of this many files. */
  datatype Outcome = MissingFolder | NoFiles | Ran(processed: nat, total: nat, halt: Halt)

  /** `process_batch_folder` as a specification: its outcome, the requests
      it submits and the result files afterwards. */
  function ProcessBatch(folderExists: bool, listing: seq<Entry>, batchName: string, timestamp: string,
                        account: string, store: Store, envs: seq<FileEnv>, initial: map<string, Json>)
    : (Outcome, seq<Json>, map<string, Json>)
    requires |envs| == |PdfFiles(listing)|
  {
    if !folderExists then (MissingFolder, [], initial)
    else
      var files := PdfFiles(listing);
      if files == [] then (NoFiles, [], initial)
      else
        var b := BatchOf(batchName, timestamp, account, store, files, envs);
        var p := Run(b, initial, |files|);
        (Ran(p.processed, |files|, p.halt), p.requests, p.files)
  }

  /** One pass of the loop body, as it runs: upload, submit, wait, extract
      and append, an exception in the `try` skipping the file. */
  method ProcessFile(results: ResultFiles, ghost b: Batch, i: nat, batchName: string, account: string,
                     projectArn: string, resultPath: string, store: Store, filename: string, env: FileEnv,
                     processed: nat, requests: seq<Json>, ghost appended: seq<nat>)
    returns (processed': nat, requests': seq<Json>, ghost appended': seq<nat>, halt: Halt)
    requires WellFormed(b) && i < |b.files| && b.files[i] == filename
    requires b.requests[i] == Request(batchName, account, filename) && projectArn == ProjectArn(account)
    requires b.uploaded[i] == env.uploaded && b.jobs[i] == JobOutcome(store, env)
    requires b.resultPath == resultPath
    modifies results
    ensures FileStep(b, i, Progress(old(results.files), processed, requests, appended, Running))
            == Progress(results.files, processed', requests', appended', halt)
  {
    processed', requests', appended', halt := processed, requests, appended, Running;
    var key := S3Key(batchName, filename);
    if !env.uploaded {
      halt := UploadFailed(filename);
      return;
    }
    var request := InvokeRequest(BucketUri(key), OutputUri(), projectArn, account, AWS_REGION);
    assert request == b.requests[i];
    requests' := requests + [request];
    var job := SubmitAndExtract(store, env);
    match job {
      case Waiting =>
        halt := PollHung(filename);
      case Raised(_) =>
      case NotSuccess(_) =>
      case Succeeded(data) =>
        if data != map[] {
          var written := results.AppendResultToBatch(resultPath, ResultRecord(filename, data));
          if written.Ok? {
            processed' := processed + 1;
            appended' := appended + [i];
          }
        } else {
          processed' := processed + 1;
        }
    }
  }

  /** The `for` loop of `process_batch_folder` over a non-empty batch. */
  method ProcessFiles(results: ResultFiles, ghost b: Batch, batchName: string, account: string,
                      resultPath: string, store: Store, files: seq<string>, envs: seq<FileEnv>)
    returns (processed: nat, requests: seq<Json>, halt: Halt)
    requires |envs| == |files| && b.files == files && WellFormed(b)
    requires forall i | 0 <= i < |files| :: b.requests[i] == Request(batchName, account, files[i])
    requires forall i | 0 <= i < |files| :: b.uploaded[i] == envs[i].uploaded
    requires forall i | 0 <= i < |files| :: b.jobs[i] == JobOutcome(store, envs[i])
    requires b.resultPath == resultPath
    modifies results
    ensures var p := Run(b, old(results.files), |files|);
            p.files == results.files && p.processed == processed && p.requests == requests && p.halt == halt
  {
    var projectArn := ProjectArn(account);
    processed := 0;
    requests := [];
    ghost var initial := results.files;
    ghost var appended: seq<nat> := [];
    halt := Running;
    var i := 0;
    while i < |files| && halt == Running
      invariant 0 <= i <= |files|
      invariant Run(b, initial, i) == Progress(results.files, processed, requests, appended, halt)
    {
      ghost var before := Progress(results.files, processed, requests, appended, halt);
      processed, requests, appended, halt :=
        ProcessFile(results, b, i, batchName, account, projectArn, resultPath, store, files[i], envs[i],
                    processed, requests, appended);
      assert Run(b, initial, i + 1) == FileStep(b, i, before);
      i := i + 1;
    }
    if halt != Running {
      RunStaysHalted(b, initial, i, |files|);
    }
  }

  /** `process_batch_folder`: check the folder, filter the PDF files, then
      run the loop over them. */
  method ProcessBatchFolder(results: ResultFiles, folderExists: bool, listing: seq<Entry>, batchName: string,
                            timestamp: string, account: string, store: Store, envs: seq<FileEnv>)
    returns (outcome: Outcome, requests: seq<Json>)
    requires |envs| == |PdfFiles(listing)|
    modifies results
    ensures (outcome, requests, results.files)
            == ProcessBatch(folderExists, listing, batchName, timestamp, account, store, envs, old(results.files))
    ensures !folderExists ==> outcome == MissingFolder && requests == [] && results.files == old(results.files)
    ensures folderExists && PdfFiles(listing) == [] ==>
              outcome == NoFiles && requests == [] && results.files == old(results.files)
  {
    if !folderExists {
      return MissingFolder, [];
    }
    var files := PdfFiles(listing);
    var total := |files|;
    if total == 0 {
      return NoFiles, [];
    }
    var resultPath := ResultPath(batchName, timestamp);
    ghost var b := BatchOf(batchName, timestamp, account, store, files, envs);
    var processed, halt;
    processed, requests, halt := ProcessFiles(results, b, batchName, account, resultPath, store, files, envs);
    outcome := Ran(processed, total, halt);
  }
}
