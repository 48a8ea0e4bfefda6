# Invoice batch submission to Bedrock Data Automation — a Dafny model

The modelled program takes a batch folder of scanned invoices (PDF files).
For each file it:

1. uploads the file to S3;
2. submits a Bedrock Data Automation job;
3. polls the job until it leaves `Created`/`InProgress`;
4. reads the job's output metadata, then the standard and custom output of every segment;
5. collects the fields of the configured blueprint (`ruter_invoice_blueprint`: `invoice_amount`, `purchase_date`, `ticket_number`);
6. appends one record per invoice to a JSON result file in the batch folder.

The model covers the logic under that plumbing:

- **The result processor** (`result_processor.dfy`, module `ResultProcessor`):
  - the walk over assets and segments, where only segments with custom output status `MATCH` contribute and later segments overwrite earlier ones;
  - the blueprint-name check;
  - the display of each configured field. `group/field` specs descend one level into the inference result and the explainability entry; more than one `/` fails the tuple unpacking.
  - the extraction, which looks the whole spec up flat with `.get`. `ExtractionIsFlat` makes the difference from the display visible: for a spec `g/f` the display shows `inference_result[g][f]`, but extraction stores `inference_result.get("g/f")`, which is None.
- **The client** (`bda_client.dfy`, module `BdaClient`):
  - splitting an `s3://bucket/key` URI and fetching the JSON object there;
  - the job-submission request and its profile ARN;
  - the poll loop.
- **The orchestrator** (`app.dfy`, module `App`):
  - the PDF filter;
  - the key, URI, ARN and result-file strings;
  - the read-modify-write append to the result file, as the class `ResultFiles`;
  - the per-file loop with `processed_count` and its exception handling.

Two support modules model the Python semantics the code relies on:

- `pyjson.dfy` (module `PyJson`):
  - decoded JSON values;
  - the exceptions the code can raise (`KeyError`, `IndexError`, `TypeError`, `AttributeError`, `ValueError`, and a missing S3 object);
  - `d[k]`, `d.get(k)`, `x[0]` and truthiness.
- `strings.dfy` (module `Strings`): `str.split` and `str.join` with a one-character separator, `lower` and `endswith`.

Inputs that come from the outside world are parameters:

- the S3 objects, as a map from (bucket, key) to the decoded document;
- the status responses a job gives, as a finite sequence;
- per file: whether its upload succeeds and what its submission returns;
- whether the folder exists, and its listing;
- the account id;
- the timestamp.

Every loop of the source is a method proved against a specification function. Lemmas about those functions state the properties:

- `ProcessBdaResults` is proved against `BdaResults`.
- `ExtractFieldsFromCustomOutput` is proved against `ExtractedFields`.
- `DisplayCustomResults` is proved against `CustomFields`.
- `WaitForDataAutomationToComplete` is proved against `FirstTerminal`.
- `ProcessBatchFolder` is proved against `ProcessBatch` and `Run`.

An upload failure is raised outside the `try` (app.py:77). It therefore ends the whole batch rather than skipping the file, and the model follows the code. A job whose status never leaves `Created`/`InProgress` keeps the source polling for ever. In the model this is a run of responses that ends while still pending, and it halts the batch (`PollHung`).

## Model

| member | source | states |
|---|---|---|
| PyJson.Subscript | src/result_processor.py:12-13 | `j[key]`: the value under the key of a dict; `KeyError` naming the key when it is absent, `TypeError` when `j` is not a dict; `Path` chains it and `PathTwo`/`PathThree` unfold the chains |
| PyJson.Get | src/result_processor.py:43 | `j.get(key)`: the value under the key, or None when it is absent, never a `KeyError`; `AttributeError` when `j` is not a dict |
| PyJson.Index0 | src/result_processor.py:80 | `j[0]`: the first element of a list or string, `IndexError` when it is empty, `KeyError` on a dict (its keys are strings), `TypeError` otherwise |
| PyJson.Truthy | src/result_processor.py:90 | Python truthiness: None, `False`, zero and the empty string, list and dict are falsy, all else truthy; `DisplayField` states how it picks `<EMPTY>` |
| Strings.Split | src/bda_client.py:21 | `s.split(c)` has one more piece than `s` has separators, and no piece contains the separator |
| Strings.JoinSplit | src/bda_client.py:21-23 | joining the pieces of a split with the same separator gives back the string |
| Strings.SplitJoin | src/bda_client.py:21-23 | splitting a join of separator-free pieces gives back the pieces |
| Strings.Join | src/bda_client.py:23 | `sep.join(parts)`: the pieces with one separator between neighbours; its inverse is `Split`, as `JoinSplit` and `SplitJoin` state |
| Strings.Lower | app.py:52 | `lower()` keeps the length and lower-cases each character |
| Strings.EndsWith | app.py:52 | `s.endswith(suffix)`: the suffix is no longer than `s` and equals its last characters; `PdfFilesMember` and `UpperCasePdf` use it |
| BdaClient.SplitS3Uri | src/bda_client.py:21-23 | the split fails with an index error exactly when the URI has fewer than three `/`-separated parts; the bucket never contains `/` |
| BdaClient.SplitS3UriOfBucketKey | src/bda_client.py:21-23 | for `s3://B/K` with no `/` in B, the bucket is B and the key is K with every `/` inside K kept |
| BdaClient.SplitS3UriRejoin | src/bda_client.py:21-23 | with at least four parts, the first two parts, the bucket and the key rejoined with `/` give back the URI |
| BdaClient.SplitS3UriBucketOnly | src/bda_client.py:21-23 | for every URI with exactly two `/` (three parts, e.g. `s3://bucket`) the split succeeds with an empty key, and rejoining the parts with bucket and key gives the URI plus a trailing `/`, so the rejoin property needs at least three `/` |
| BdaClient.GetJsonObject | src/bda_client.py:19-25 | the fetch succeeds only for a string URI that splits and names a stored object, and returns that object; a URI that splits but names no object fails with the missing-object error |
| BdaClient.GetJsonObjectAt | src/bda_client.py:19-25 | fetching `s3://B/K` reads the object under bucket B and key K, or fails as missing |
| BdaClient.BedrockArn | src/bda_client.py:39 | `arn:aws:bedrock:<region>:<account>:<resource>`; `BedrockArnFields` reads it back |
| BdaClient.ProfileArn | src/bda_client.py:39 | the Bedrock ARN of the `data-automation-profile/us.data-automation-v1` resource; `ProfileArnFields` reads it back |
| BdaClient.BedrockArnFields | src/bda_client.py:39 | a Bedrock ARN read back on `:` yields `arn`, `aws`, `bedrock`, the region, the account and the resource |
| BdaClient.ProfileArnFields | src/bda_client.py:39 | the profile ARN read back on `:` yields the region, the account and `data-automation-profile/us.data-automation-v1` |
| BdaClient.InvokeRequest | src/bda_client.py:29-40 | the keyword arguments of the job submission, as a JSON object; `InvokeRequestFields` states its keys and values |
| BdaClient.InvokeRequestFields | src/bda_client.py:29-40 | the request has exactly the four keys; it places the input URI at `inputConfiguration.s3Uri`, the output URI at `outputConfiguration.s3Uri`, the project ARN at `dataAutomationConfiguration.dataAutomationProjectArn`, and the profile ARN of the region and account at `dataAutomationProfileArn` |
| BdaClient.FirstTerminal | src/bda_client.py:48-55 | the poll outcome is the first response whose status is not `Created`/`InProgress`, returned whatever its status, or the first response without a status (the exception); every earlier response is still pending; if every response is pending, the loop is still waiting |
| BdaClient.PollOutcomeUnique | src/bda_client.py:48-55 | the responses determine the poll outcome |
| BdaClient.WaitForDataAutomationToComplete | src/bda_client.py:46-55 | the `while True` loop returns exactly the outcome `FirstTerminal` describes |
| ResultProcessor.DisplayField | src/result_processor.py:78-90 | the shown value is the raw value unless it is falsy, in which case it is `<EMPTY>`; the displayed field name has no `/` |
| ResultProcessor.Scope | src/result_processor.py:79-87 | where a spec is looked up: a bare spec in the inference result and `explainability_info[0]`; `g/f` in their `g` entries under `f`; two or more `/` fail the unpacking; `DisplayBareSpec`, `DisplayGroupedSpec` and `DisplayTooManySlashes` state each case |
| ResultProcessor.DisplayBareSpec | src/result_processor.py:78-89 | a bare spec `f` displays `inference_result[f]` with confidence `explainability_info[0][f]['confidence']`, and fails exactly when one of these lookups fails |
| ResultProcessor.DisplayGroupedSpec | src/result_processor.py:78-89 | a spec `g/f` displays `inference_result[g][f]` with confidence `explainability_info[0][g][f]['confidence']`, and fails exactly when one of these lookups fails |
| ResultProcessor.DisplayTooManySlashes | src/result_processor.py:81-83 | a spec with two or more `/` fails at the tuple unpacking |
| ResultProcessor.DisplayFieldsAll | src/result_processor.py:74-75 | displaying the specs succeeds exactly when every spec resolves, giving one line per spec in order |
| ResultProcessor.DisplayFieldsErrSticky | src/result_processor.py:74-75 | once a prefix of the specs fails to display, the whole display fails with that error |
| ResultProcessor.ExtractedFields | src/result_processor.py:37-44 | `_extract_fields_from_custom_output` as a specification; `ExtractOtherBlueprint` and `ExtractMatchingBlueprint` state its two cases and `ExtractFieldsFromCustomOutput` is the loop proved against it |
| ResultProcessor.ExtractFieldsFromCustomOutput | src/result_processor.py:37-44 | the loop returns `ExtractedFields`: nothing for another blueprint, otherwise every spec mapped to `inference_result.get(spec)` |
| ResultProcessor.ExtractOtherBlueprint | src/result_processor.py:40-44 | when `matched_blueprint.name` differs from the configured name, extraction returns the empty map |
| ResultProcessor.ExtractMatchingBlueprint | src/result_processor.py:41-43 | when the names match, the keys are exactly the configured specs, and each maps to the inference value or None when absent |
| ResultProcessor.ExtractionIsFlat | src/result_processor.py:40-43 | for `g/f` whose value exists only nested, the display shows the nested value but extraction stores None under `g/f` |
| ResultProcessor.CustomFields | src/result_processor.py:66-76 | `_print_custom_results` as a specification: the reads, the display for the configured blueprint, then the extraction; `DisplayCustomResults` and `CustomFieldsShape` state it |
| ResultProcessor.DisplayCustomResults | src/result_processor.py:66-76 | the function reads the blueprint name, confidence and document class; it displays every spec only for the configured blueprint, and then returns the extraction |
| ResultProcessor.MatchedDisplayFailureFails | src/result_processor.py:72-76 | for the configured blueprint, a spec whose value or confidence is missing fails the whole call, so no partial map is returned |
| ResultProcessor.MatchedResultAgreesWithDisplay | src/result_processor.py:72-76 | for the configured blueprint, each bare spec is returned with the raw value that was displayed, and the display shows it as `<EMPTY>` when it is falsy |
| ResultProcessor.CustomFieldsShape | src/result_processor.py:66-76 | a custom output contributes either nothing or exactly the configured specs |
| ResultProcessor.SegmentFields | src/result_processor.py:17-30 | what one segment contributes: the standard output is fetched and read, and only a `MATCH` segment has its custom output fetched and processed; `SegmentFieldsShape` and `SegmentContributesIffMatched` state it |
| ResultProcessor.MatchesBlueprint | src/result_processor.py:26-29 | a segment whose custom output status is `MATCH` and whose fetched custom output has `matched_blueprint.name` equal to the configured name |
| ResultProcessor.SegmentContributesIffMatched | src/result_processor.py:26-30 | with at least one configured spec, a segment read without error contributes something exactly when it matches the configured blueprint |
| ResultProcessor.FoldSegments | src/result_processor.py:16-30 | the inner loop as a specification: each segment in order updates the map, and the first failure ends the walk; `FoldSegmentsAppend` and `FoldSegmentsLastWins` state it |
| ResultProcessor.FoldSegmentsErrSticky | src/result_processor.py:16-30 | once a prefix of the segments fails, the whole walk fails with that error |
| ResultProcessor.FoldSegmentsOkEach | src/result_processor.py:16-30 | a walk that succeeds read every one of its segments without error |
| ResultProcessor.SegmentFieldsShape | src/result_processor.py:16-30 | a segment contributes nothing or exactly the configured specs, and nothing at all unless its custom output status is `MATCH` |
| ResultProcessor.FoldSegmentsAppend | src/result_processor.py:16-30 | walking two runs of segments is walking the first, then the second from where the first ended |
| ResultProcessor.FoldSegmentsLastWins | src/result_processor.py:16-30 | after the walk, the map is either the starting map, because every segment contributed nothing, or exactly what the last contributing segment contributed |
| ResultProcessor.AssetFields | src/result_processor.py:13-30 | one pass of the outer loop: read `asset_id` and `segment_metadata`, then walk the segments; a `segment_metadata` that is not a list is `TypeError` |
| ResultProcessor.FoldAssets | src/result_processor.py:12-30 | the outer loop as a specification; `FoldAssetsErrSticky` and `FoldAssetsIsFlat` state it |
| ResultProcessor.BdaResults | src/result_processor.py:5-35 | `process_bda_results` as a specification: fetch the job metadata, then walk its assets from the empty map; `BdaResultsLastMatchWins`, `BdaResultsIffMatched` and `BdaResultsShape` state it |
| ResultProcessor.FoldAssetsIsFlat | src/result_processor.py:12-30 | the nested walk over assets and their segments equals one walk over all segments in document order |
| ResultProcessor.BdaResultsLastMatchWins | src/result_processor.py:5-35 | the result holds only configured specs; it is empty when no segment contributed, and otherwise it is what the last contributing segment of the job contributed |
| ResultProcessor.BdaResultsIffMatched | src/result_processor.py:5-35 | with at least one configured spec, a successful run yields fields exactly when some segment of the job matches the configured blueprint; a match with another blueprint contributes nothing |
| ResultProcessor.BdaResultsWithoutMatch | src/result_processor.py:10-35 | a job with no `MATCH` segment yields the empty map |
| ResultProcessor.BdaResultsShape | src/result_processor.py:5-35 | a successful walk yields nothing or exactly the configured specs |
| ResultProcessor.ProcessSegment | src/result_processor.py:17-30 | one pass of the inner loop computes what the segment contributes |
| ResultProcessor.ProcessSegments | src/result_processor.py:16-30 | the inner loop over one asset's segments returns `FoldSegments` from the map the earlier assets left, failing with the first failing segment's error |
| ResultProcessor.ProcessBdaResults | src/result_processor.py:5-35 | the nested loops that update one map return `BdaResults` |
| App.PdfFiles | app.py:52 | the filter keeps no more names than the listing has entries |
| App.PdfFilesMember | app.py:52 | a name is kept exactly when some listing entry with that name is a regular file whose lower-cased name ends in `.pdf` |
| App.PdfFilesAppend | app.py:52 | filtering keeps listing order: the filter of a concatenation is the concatenation of the filters |
| App.PdfFilesExample | app.py:52 | `a.PDF` is kept; `b.txt` and a directory named `c.pdf` are not |
| App.InputFolder | app.py:45 | the batch folder is `input/<batch>`; `InputPathPieces` and `ResultPathInBatchFolder` use it |
| App.PathJoin | app.py:62 | `os.path.join(a, b)`: an absolute `b` replaces `a`, otherwise one `/` goes between them unless `a` is empty or ends in `/`; `ResultPathInBatchFolder` states the result |
| App.ResultPath | app.py:60-62 | the result file `result_<timestamp>.json` joined to the batch folder; `ResultPathInBatchFolder` states where it lies |
| App.ResultPathInBatchFolder | app.py:59-62 | the result file is `input/<batch>/result_<timestamp>.json`, directly in the batch folder |
| App.S3Key | app.py:76 | the object key `BDA/Input/ruter_invoices/<batch>/<file>`; `S3KeyPieces` reads it back |
| App.S3KeyPieces | app.py:76 | the object key reads back on `/` as `BDA`, `Input`, `ruter_invoices`, the batch name and the file name |
| App.InputUri | app.py:81 | `s3://<bucket>/<object key>`; `UrisLocate` states what it designates |
| App.OutputUri | app.py:82 | `s3://<bucket>/BDA/Output/ruter_invoices`; `UrisLocate` states what it designates |
| App.UrisLocate | app.py:81-82 | the input URI designates the uploaded object in the project bucket; the output URI designates the output prefix |
| App.ProjectArn | app.py:68 | the Bedrock ARN of project `a0fbb83f9473` in `us-east-1` for the account; `ProjectArnFields` reads it back |
| App.ProjectArnFields | app.py:68 | the project ARN read back on `:` yields `us-east-1`, the account and `data-automation-project/a0fbb83f9473` |
| App.AfterAppend | app.py:30-41 | the result files after appending a record: the old array, or an empty one when the file is absent, with the record added; `AttributeError` for any other content; `AppendGrowsByOne` and `AppendToNonArray` state both cases |
| App.AppendGrowsByOne | app.py:30-41 | appending to an absent file or to an array succeeds: the array is the old one, or empty, with the record added at the end; its length grows by one and no other file changes |
| App.AppendToNonArray | app.py:32-38 | appending to a file that holds something other than an array fails with `AttributeError` |
| App.ResultFiles.AppendResultToBatch | app.py:30-41 | the read-modify-write leaves the files as `AfterAppend` describes, and leaves them unchanged when it fails |
| App.Finished | app.py:90-106 | the `try` after the poll: a status other than `Success` is a value, and Success reads the metadata URI and extracts the fields, each failure an exception; `CheckAndExtract` runs it |
| App.JobOutcome | app.py:86-109 | the whole `try` for one document: submit, read `invocationArn`, poll, then `Finished`; `SubmitAndExtract` runs it |
| App.SucceededFields | app.py:90-92 | a job that reaches Success with fields carries exactly the three blueprint fields |
| App.ResultRecord | app.py:96-102 | the record appended for a document; `RecordFields` states its keys and values |
| App.RecordFields | app.py:96-102 | the record is a dict with exactly the keys `filename`, `purchase_date`, `invoice_amount`, `ticket_number` and `submitted`; it holds the file name and `submitted` false; each of the three fields is the extracted value, or None when it is absent |
| App.SucceededRecord | app.py:95-102 | the record of a job with fields holds the extracted values themselves |
| App.SucceededIffMatched | app.py:90-102 | a job that succeeded reached `Success`, and its document gets a record exactly when some segment of the job matched the configured blueprint |
| App.SubmitAndExtract | app.py:86-92 | the body of the `try` computes `JobOutcome`: submit, poll, check the status, extract |
| App.CheckAndExtract | app.py:90-92 | the part after the poll computes `Finished`: a non-Success status is a value, not an exception |
| App.RequestLocates | app.py:76-87 | each submission reads the object its file was uploaded to, writes under the output prefix, and names the run's project and the account's profile |
| App.FileStep | app.py:72-109 | one pass of the loop body: upload, submit, poll, count on Success, append the record when there are fields; `FileStepShape` states it |
| App.FileStepShape | app.py:72-109 | one file adds its request unless its upload fails; the count rises by at most one, and only on Success; a record is appended only for Success with fields, through `AfterAppend` |
| App.Run | app.py:71-109 | the loop over the first `k` files from the starting result files; the lemmas below state what it keeps |
| App.RunStaysHalted | app.py:71-109 | once an upload fails or a job hangs, nothing further happens |
| App.RunKeepsRunning | app.py:71-87 | the loop is still going after some files exactly when each was uploaded and its job left `Created`/`InProgress` |
| App.RunCounts | app.py:69-104 | records appended ≤ processed count ≤ requests ≤ files, with one request per file while the loop runs; requests go out in file order; records are appended at most once per file, in file order, and only for files that reached Success with fields |
| App.RunTouchesOnlyResultFile | app.py:95-102 | every file other than the run's result file is unchanged |
| App.RunRecords | app.py:95-102 | a result file that starts absent or as an array keeps its earlier records, followed by the appended records in processing order |
| App.RunExact | app.py:69-104 | when the result file starts absent or as an array, a run that did not halt has counted exactly the files that reached Success, even those with no fields; it has appended records for exactly those with fields |
| App.ThreeFileBatch | app.py:71-111 | three files, two succeeding with fields and one ending in `ClientError`, give two records in file order and a count of two |
| App.ProcessFile | app.py:72-109 | one pass of the loop body moves the state as `FileStep` describes |
| App.ProcessFiles | app.py:69-109 | the loop over the files ends in the state `Run` describes |
| App.ProcessBatch | app.py:43-112 | `process_batch_folder` as a specification: a missing folder or a folder with no PDF files does nothing, otherwise the loop runs over the PDF files; `ProcessBatchFolder` runs it |
| App.ProcessBatchFolder | app.py:43-112 | the whole call returns `ProcessBatch`; a missing folder or a folder with no PDF files sends nothing and writes nothing |

## Left out

- The S3, STS and Bedrock Data Automation calls (boto3) are inputs, not calls. These calls are the upload, the object fetch, the account lookup, the job submission and the status requests (app.py:25-28, src/bda_client.py:15-17, 20, 24, 28, 42, 47, 49).
- The account lookup (src/bda_client.py:15-17, app.py:67) is an input string. A failing lookup, which raises before any upload and ends the run, is not modelled. Neither is `.get('Account')` returning None, which would put `None` into the ARNs.
- The invocation ARN is read from the submission response, so a missing one fails the file. It is not passed on: each file's status responses are given directly.
- `print`, the `log` helper, the `DEBUG` flag and `time.sleep` are output and pacing only.
- JSON text is not modelled:
  - documents and result files are held decoded;
  - a body or result file that is not valid JSON, and failing reads and writes of local files, are not modelled;
  - numbers are reals, so JSON integers and floats are not told apart;
  - the order of keys in the written record is not modelled.
- `datetime.now()`, `os.path.exists`, `os.listdir` and `os.path.isfile` are inputs: the timestamp string, the folder flag, and the listing with each entry's regular-file flag.
- `main` and `sys.argv` are not modelled; the batch name is a parameter.
- The local file path used only for the upload (app.py:75) is not modelled.
- `_generate_result_json` is never called and only writes a file.
- Confidence values and `semantic_modality` are opaque. Only the fact that their lookups can fail is modelled.
- Strings.Lower: lower-cases ASCII letters only, not all of Unicode, because nothing in the filter depends on other scripts.
- ResultProcessor.BdaResults: iterating a value that is not a list is `TypeError`. In Python a dict iterates its keys and a string its characters, so an empty dict or string would iterate zero times; the model does not follow those paths.
- BdaClient.WaitForDataAutomationToComplete: polls over a finite sequence of responses, because a Dafny method must terminate. Running out while still pending stands for the source's unbounded wait.
- ResultProcessor.DisplayField: the displayed line is data, not printed text. The f-string at src/result_processor.py:90 reuses its own quote character, which Python accepts only from version 3.12; the model reads it as 3.12 does.
