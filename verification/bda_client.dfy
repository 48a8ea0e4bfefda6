/**
 * The client side of the document-automation service (src/bda_client.py):
 * splitting an `s3://bucket/key` URI and reading the JSON object stored there,
 * the job-submission request, and the loop that polls a job's status until
 * it leaves `Created`/`InProgress`.
 *
 * The object store is a map from (bucket, key) to the already decoded JSON
 * body; the status service is the finite sequence of responses it would give
 * to successive polls.
 */
module BdaClient {
  import opened PyJson
  import opened Strings

  /** The object store: decoded JSON bodies by (bucket, key). */
  type Store = map<(string, string), Json>

  /** `parts = uri.split('/')`, bucket `parts[2]`, key `'/'.join(parts[3:])`.
      The scheme and the empty piece after it are not inspected. */
  function SplitS3Uri(uri: string): (r: Result<(string, string)>)
    ensures r.Err? <==> Count(uri, '/') < 2
    ensures r.Err? ==> r.error == IndexError
    ensures r.Ok? ==> '/' !in r.value.0
  {
    var parts := Split(uri, '/');
    if |parts| < 3 then Err(IndexError) else Ok((parts[2], Join('/', parts[3..])))
  }

  /** `s3://` followed by a tail splits into the scheme, an empty piece and
      the pieces of the tail. */
  lemma SplitAfterScheme(tail: string)
    ensures Split("s3://" + tail, '/') == ["s3:", ""] + Split(tail, '/')
  {
    assert "s3://" + tail == "s3:" + ['/'] + ("" + ['/'] + tail);
    SplitCons("s3:", '/', "" + ['/'] + tail);
    SplitCons("", '/', tail);
  }

  /** For `s3://B/K` with no `/` in B, the bucket is B and the key is K with
      every `/` inside K preserved. */
  lemma SplitS3UriOfBucketKey(bucket: string, key: string)
    requires '/' !in bucket
    ensures SplitS3Uri("s3://" + bucket + "/" + key) == Ok((bucket, key))
  {
    var tail := bucket + ['/'] + key;
    assert "s3://" + bucket + "/" + key == "s3://" + tail;
    SplitAfterScheme(tail);
    SplitCons(bucket, '/', key);
    var parts := Split("s3://" + tail, '/');
    assert parts == ["s3:", "", bucket] + Split(key, '/');
    assert parts[3..] == Split(key, '/');
    JoinSplit(key, '/');
  }

  /** With at least four `/`-separated pieces, the first two pieces, the
      bucket and the key joined again with `/` give back the URI. */
  lemma SplitS3UriRejoin(uri: string)
    requires Count(uri, '/') >= 3
    ensures SplitS3Uri(uri).Ok?
    ensures var parts := Split(uri, '/');
            var (bucket, key) := SplitS3Uri(uri).value;
            Join('/', parts[..2] + [bucket, key]) == uri
  {
    var parts := Split(uri, '/');
    var key := Join('/', parts[3..]);
    assert parts[..2] + [parts[2], key] == parts[..3] + [key];
    JoinAppend('/', parts[..3], [key]);
    JoinAppend('/', parts[..3], parts[3..]);
    assert parts[..3] + parts[3..] == parts;
    JoinSplit(uri, '/');
  }

  /** A URI with exactly two `/` (such as `s3://bucket`) splits into three
      pieces: the key is empty, and rejoining the pieces with that key adds
      a trailing `/`, so the rejoin needs four pieces. */
  lemma SplitS3UriBucketOnly(uri: string)
    requires Count(uri, '/') == 2
    ensures SplitS3Uri(uri).Ok? && SplitS3Uri(uri).value.1 == ""
    ensures Join('/', Split(uri, '/')[..2] + [SplitS3Uri(uri).value.0, ""]) == uri + "/"
  {
    var parts := Split(uri, '/');
    JoinSplit(uri, '/');
    assert parts[3..] == [];
    assert parts[..2] + [parts[2], ""] == parts + [""];
    JoinAppend('/', parts, [""]);
  }

  /** `get_json_object_from_s3_uri`: split the URI, fetch the object, decode
      its body. A URI that is not a string has no `.split`. */
  function GetJsonObject(store: Store, uri: Json): (r: Result<Json>)
    ensures r.Ok? ==> uri.JStr? && SplitS3Uri(uri.s).Ok? && SplitS3Uri(uri.s).value in store
                      && r.value == store[SplitS3Uri(uri.s).value]
    ensures r.Err? && uri.JStr? && SplitS3Uri(uri.s).Ok? ==> r.error == NoSuchKey
  {
    if !uri.JStr? then Err(AttributeError)
    else
      var location :- SplitS3Uri(uri.s);
      if location in store then Ok(store[location]) else Err(NoSuchKey)
  }

  /** Fetching `s3://B/K` reads the object stored under bucket B and key K. */
  lemma GetJsonObjectAt(store: Store, bucket: string, key: string)
    requires '/' !in bucket
    ensures GetJsonObject(store, JStr("s3://" + bucket + "/" + key))
            == if (bucket, key) in store then Ok(store[(bucket, key)]) else Err(NoSuchKey)
  {
    SplitS3UriOfBucketKey(bucket, key);
  }

  /** An ARN of the Bedrock service: `arn:aws:bedrock:{region}:{account}:{resource}`. */
  function BedrockArn(region: string, account: string, resource: string): string
  {
    "arn:aws:bedrock:" + region + ":" + account + ":" + resource
  }

  /** The fixed `arn:aws:bedrock:` prefix splits into its three words. */
  lemma BedrockPrefix(rest: string)
    ensures Split("arn:aws:bedrock:" + rest, ':') == ["arn", "aws", "bedrock"] + Split(rest, ':')
  {
    var s2 := "bedrock" + [':'] + rest;
    var s1 := "aws" + [':'] + s2;
    assert "arn:aws:bedrock:" + rest == "arn" + [':'] + s1;
    SplitCons("bedrock", ':', rest);
    SplitCons("aws", ':', s2);
    SplitCons("arn", ':', s1);
  }

  /** Read back on `:`, a Bedrock ARN yields its region, account and resource. */
  lemma BedrockArnFields(region: string, account: string, resource: string)
    requires ':' !in region && ':' !in account && ':' !in resource
    ensures Split(BedrockArn(region, account, resource), ':')
            == ["arn", "aws", "bedrock", region, account, resource]
  {
    var s4 := account + [':'] + resource;
    var rest := region + [':'] + s4;
    assert BedrockArn(region, account, resource) == "arn:aws:bedrock:" + rest;
    BedrockPrefix(rest);
    SplitWithoutSep(resource, ':');
    SplitCons(account, ':', resource);
    SplitCons(region, ':', s4);
  }

  const ProfileResource := "data-automation-profile/us.data-automation-v1"

  /** The account-scoped automation profile used for every job; the profile
      name is fixed, whatever the region. */
  function ProfileArn(region: string, account: string): string
  {
    BedrockArn(region, account, ProfileResource)
  }

  /** Read back on `:`, the profile ARN yields the region and the account it
      was built from. */
  lemma ProfileArnFields(region: string, account: string)
    requires ':' !in region && ':' !in account
    ensures Split(ProfileArn(region, account), ':')
            == ["arn", "aws", "bedrock", region, account, ProfileResource]
  {
    var a, b := "data-automation-profile/", "us.data-automation-v1";
    assert ':' !in a && ':' !in b;
    assert ProfileResource == a + b;
    BedrockArnFields(region, account, ProfileResource);
  }

  /** The request record of `invoke_data_automation`. */
  function InvokeRequest(inputUri: string, outputUri: string, projectArn: string,
                         account: string, region: string): Json
  {
    JObj(map[
      "inputConfiguration" := JObj(map["s3Uri" := JStr(inputUri)]),
      "outputConfiguration" := JObj(map["s3Uri" := JStr(outputUri)]),
      "dataAutomationConfiguration" := JObj(map["dataAutomationProjectArn" := JStr(projectArn)]),
      "dataAutomationProfileArn" := JStr(ProfileArn(region, account))
    ])
  }

  /** The request has exactly four keys and carries the input URI, the
      output URI, the project ARN and the profile ARN of the region and
      account, each where the service reads it. */
  lemma InvokeRequestFields(inputUri: string, outputUri: string, projectArn: string,
                            account: string, region: string)
    ensures var request := InvokeRequest(inputUri, outputUri, projectArn, account, region);
            && request.JObj?
            && request.fields.Keys == {"inputConfiguration", "outputConfiguration",
                                       "dataAutomationConfiguration", "dataAutomationProfileArn"}
            && Path(request, ["inputConfiguration", "s3Uri"]) == Ok(JStr(inputUri))
            && Path(request, ["outputConfiguration", "s3Uri"]) == Ok(JStr(outputUri))
            && Path(request, ["dataAutomationConfiguration", "dataAutomationProjectArn"])
               == Ok(JStr(projectArn))
            && Path(request, ["dataAutomationProfileArn"]) == Ok(JStr(ProfileArn(region, account)))
  {
    var request := InvokeRequest(inputUri, outputUri, projectArn, account, region);
    PathTwo(request, "inputConfiguration", "s3Uri");
    PathTwo(request, "outputConfiguration", "s3Uri");
    PathTwo(request, "dataAutomationConfiguration", "dataAutomationProjectArn");
    PathOne(request, "dataAutomationProfileArn");
  }

  /** The statuses the poll loop keeps waiting on. */
  predicate Pending(status: Json)
  {
    status == JStr("Created") || status == JStr("InProgress")
  }

  /** A status response that has a status, and one the loop waits on. */
  predicate StillPending(response: Json)
  {
    Subscript(response, "status").Ok? && Pending(Subscript(response, "status").value)
  }

  /** How a poll over a finite run of status responses ends: a response
      with a terminal status (Success or any failure status), an exception
      while reading a response, or still waiting when the run is over. */
  datatype Poll = Done(response: Json, at: nat) | Failed(error: Error, at: nat) | StillWaiting

  /** What the poll loop may return: every response before the one it stops
      at is still pending, and it stops at the first one that is not. */
  ghost predicate IsPollOf(responses: seq<Json>, p: Poll)
  {
    match p
    case Done(response, k) =>
      && k < |responses| && responses[k] == response
      && (forall j | 0 <= j < k :: StillPending(responses[j]))
      && Subscript(response, "status").Ok?
      && !Pending(Subscript(response, "status").value)
    case Failed(e, k) =>
      && k < |responses|
      && (forall j | 0 <= j < k :: StillPending(responses[j]))
      && Subscript(responses[k], "status") == Err(e)
    case StillWaiting =>
      forall j | 0 <= j < |responses| :: StillPending(responses[j])
  }

  function Later(p: Poll): Poll
  {
    match p
    case Done(response, k) => Done(response, k + 1)
    case Failed(e, k) => Failed(e, k + 1)
    case StillWaiting => StillWaiting
  }

  /** The outcome of polling, read off the responses from the front. */
  function FirstTerminal(responses: seq<Json>): (p: Poll)
    ensures IsPollOf(responses, p)
  {
    if responses == [] then StillWaiting
    else match Subscript(responses[0], "status")
      case Err(e) => Failed(e, 0)
      case Ok(status) =>
        if Pending(status) then
          var rest := FirstTerminal(responses[1..]);
          assert forall j | 1 <= j < |responses| :: responses[j] == responses[1..][j - 1];
          Later(rest)
        else Done(responses[0], 0)
  }

  /** The poll outcome is determined by the responses. */
  lemma PollOutcomeUnique(responses: seq<Json>, p: Poll, q: Poll)
    requires IsPollOf(responses, p) && IsPollOf(responses, q)
    ensures p == q
  {
  }

  /** `wait_for_data_automation_to_complete`: poll until the status is
      neither `Created` nor `InProgress` and return that response, whatever
      its status; there is no attempt cap. */
  method WaitForDataAutomationToComplete(responses: seq<Json>) returns (p: Poll)
    ensures IsPollOf(responses, p)
    ensures p == FirstTerminal(responses)
  {
    var k := 0;
    while k < |responses|
      invariant 0 <= k <= |responses|
      invariant forall j | 0 <= j < k :: StillPending(responses[j])
    {
      var response := responses[k];
      var status := Subscript(response, "status");
      if status.Err? {
        p := Failed(status.error, k);
        PollOutcomeUnique(responses, p, FirstTerminal(responses));
        return;
      }
      if !Pending(status.value) {
        p := Done(response, k);
        PollOutcomeUnique(responses, p, FirstTerminal(responses));
        return;
      }
      k := k + 1;
    }
    p := StillWaiting;
    PollOutcomeUnique(responses, p, FirstTerminal(responses));
  }
}
