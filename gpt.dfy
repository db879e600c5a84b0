/** The GPT node. For each item it uploads the item's binary properties, submits an anonymous
    `gpt-chat` execution, watches the resulting Argo workflow until its phase is terminal, and
    on that event fetches each output artifact, keeping the ones that arrive and logging the
    others, before pushing one `{json, binary}` record. */
module Gpt {
  import opened Wrappers
  import opened JsText
  import opened Seqs
  import opened OutputParameters
  import opened ContentType
  import opened Watcher
  import opened ItemLoop
  import opened Uploads
  import opened Requests

  /** An input item: its two node parameters and its binary object, if any. */
  datatype Item = Item(systemPromptFile: string, userPromptFile: string, binary: Option<seq<BinaryProperty>>)

  /** The node's surroundings: its `CanalFlowApi` credentials and the services it calls. */
  datatype World = World(
    username: string,
    password: string,
    uploadFails: Upload -> bool,
    post: PostRequest -> Result<CreationResponse, string>,
    watch: WatchRequest -> Result<seq<WorkflowEvent>, string>,
    get: ArtifactGet -> Result<HttpResponse, string>)

  /** A pushed record. `json` is the normalised output parameters; `binary` is left undefined
      when no artifact was stored. */
  datatype Output = Output(json: Option<map<string, NamedValue>>, binary: Option<map<string, BinaryEntry>>)

  /** Every binary property is uploaded under its own file name, or `default-name`. */
  function ItemUploads(binary: Option<seq<BinaryProperty>>): (plan: seq<Upload>)
    ensures binary.None? ==> plan == []
    ensures binary.Some? ==> |plan| == |binary.value| && forall i :: 0 <= i < |plan| ==>
      plan[i] == Upload(Some(OrElse(binary.value[i].file.fileName, "default-name")), binary.value[i].file.data)
  {
    match binary
    case None => []
    case Some(props) =>
      seq(|props|, i requires 0 <= i < |props| => Upload(Some(OrElse(props[i].file.fileName, "default-name")), props[i].file.data))
  }

  /** The `gpt-chat` workflow: two parallel downloads of the prompt files, then the completion
      step reading both downloads. */
  function RequestBody(item: Item): (body: AnonymousExecution)
    ensures body.name == "gpt-chat" && |body.steps| == 2 && |body.steps[0]| == 2
    ensures body.steps[0][0] == DownloadStep("download-system-prompt-from-oss", item.systemPromptFile)
    ensures body.steps[0][1] == DownloadStep("download-user-prompt-from-oss", item.userPromptFile)
    ensures body.outputs.artifacts == [StepOutput("message", "gpt-chat", "message"), StepOutput("response", "gpt-chat", "response")]
    ensures body.steps[1] == [WorkflowStep("gpt-chat", "WORKFLOW_TEMPLATE.quid-questions.main-gpt[completion]",
      Arguments(None, Some([StepOutput("system-prompt", "download-system-prompt-from-oss", "result"),
                            StepOutput("user-prompt", "download-user-prompt-from-oss", "result")])))]
  {
    AnonymousWorkflow("gpt-chat",
      Outputs(None, [StepOutput("message", "gpt-chat", "message"), StepOutput("response", "gpt-chat", "response")]),
      [[DownloadStep("download-system-prompt-from-oss", item.systemPromptFile),
        DownloadStep("download-user-prompt-from-oss", item.userPromptFile)],
       [WorkflowStep("gpt-chat", "WORKFLOW_TEMPLATE.quid-questions.main-gpt[completion]",
          Arguments(None, Some([StepOutput("system-prompt", "download-system-prompt-from-oss", "result"),
                                StepOutput("user-prompt", "download-user-prompt-from-oss", "result")])))]])
  }

  function Authorization(w: World): Authorization
  {
    BasicAuth(w.username, w.password)
  }

  /** `<api>/execution/${workflowId}/artifact/${artifact.name}` */
  function ArtifactUri(workflowId: Option<string>, artifactName: string): (uri: string)
    ensures var p := CanalFlowApi + "/execution/" + Interpolate(workflowId) + "/artifact/";
      |p| <= |uri| && uri[..|p|] == p && uri[|p|..] == artifactName
  {
    CanalFlowApi + "/execution/" + Interpolate(workflowId) + "/artifact/" + artifactName
  }

  /** What the request helper hands back: the whole response when asked for it, otherwise the
      body alone, which has no `headers`. */
  datatype Delivered = Full(response: HttpResponse) | BodyOnly(body: Bytes)

  function Deliver(request: ArtifactGet, response: HttpResponse): Delivered
  {
    if request.fullResponse then Full(response) else BodyOnly(response.body)
  }

  /** `response.headers['content-type']`, which throws a TypeError on a body-only response. */
  function ContentTypeHeader(d: Delivered): Result<Option<string>, string>
  {
    match d
    case Full(r) => Success(r.contentType)
    case BodyOnly(_) => Failure("TypeError: Cannot read properties of undefined (reading 'content-type')")
  }

  /** The entry stored for a full response: its body, under the artifact's name plus the
      extension of its content type. */
  function Stored(artifactName: string, response: HttpResponse): BinaryEntry
  {
    BinaryEntry(response.body, GptFileName(artifactName, response.contentType), GptContentType(response.contentType))
  }

  /** One iteration of the artifact loop: the entry it stores, or None when the request or the
      header read threw and the `catch` logged it. */
  function Fetch(w: World, workflowId: Option<string>, artifact: ArtifactRef, fullResponse: bool): (e: Option<BinaryEntry>)
    ensures var response := w.get(ArtifactGet(ArtifactUri(workflowId, artifact.name), Authorization(w), fullResponse));
      e.Some? <==> fullResponse && response.Success?
    ensures var response := w.get(ArtifactGet(ArtifactUri(workflowId, artifact.name), Authorization(w), fullResponse));
      e.Some? ==> e.value == Stored(artifact.name, response.value)
  {
    var request := ArtifactGet(ArtifactUri(workflowId, artifact.name), Authorization(w), fullResponse);
    match w.get(request)
    case Failure(_) => None
    case Success(response) =>
      match ContentTypeHeader(Deliver(request, response))
      case Failure(_) => None
      case Success(header) =>
        Some(BinaryEntry(response.body, GptFileName(artifact.name, header), GptContentType(header)))
  }

  /** An artifact's name and what its fetch stored, if anything. */
  datatype Attempt = Attempt(name: string, entry: Option<BinaryEntry>)

  function Attempts(w: World, workflowId: Option<string>, artifacts: seq<ArtifactRef>, fullResponse: bool): (r: seq<Attempt>)
    ensures |r| == |artifacts| && forall i :: 0 <= i < |r| ==>
      r[i] == Attempt(artifacts[i].name, Fetch(w, workflowId, artifacts[i], fullResponse))
  {
    seq(|artifacts|, i requires 0 <= i < |artifacts| => Attempt(artifacts[i].name, Fetch(w, workflowId, artifacts[i], fullResponse)))
  }

  /** `binaryData` after a run of attempts: each stored entry under its artifact's name, a later
      one with the same name replacing an earlier one. */
  function Store(attempts: seq<Attempt>): map<string, BinaryEntry>
  {
    if attempts == [] then map[]
    else
      var m := Store(attempts[..|attempts| - 1]);
      var last := attempts[|attempts| - 1];
      if last.entry.Some? then m[last.name := last.entry.value] else m
  }

  /** The stored keys are exactly the names of the attempts that stored something. */
  lemma {:induction false} StoreKeys(attempts: seq<Attempt>, k: string)
    ensures k in Store(attempts) <==> exists i :: 0 <= i < |attempts| && attempts[i].name == k && attempts[i].entry.Some?
  {
    if attempts != [] {
      var n := |attempts| - 1;
      var init := attempts[..n];
      StoreKeys(init, k);
      if k in Store(init) {
        var i :| 0 <= i < n && init[i].name == k && init[i].entry.Some?;
        assert attempts[i] == init[i];
      }
      if exists i :: 0 <= i < |attempts| && attempts[i].name == k && attempts[i].entry.Some? {
        var i :| 0 <= i < |attempts| && attempts[i].name == k && attempts[i].entry.Some?;
        if i < n { assert init[i] == attempts[i]; }
      }
    }
  }

  /** Each stored key holds the entry of the last attempt under that name that stored one. */
  lemma {:induction false} StoreLastWins(attempts: seq<Attempt>, k: string)
    requires k in Store(attempts)
    ensures exists i ::
      && 0 <= i < |attempts| && attempts[i] == Attempt(k, Some(Store(attempts)[k]))
      && forall j :: i < j < |attempts| && attempts[j].name == k ==> attempts[j].entry.None?
  {
    var n := |attempts| - 1;
    var init := attempts[..n];
    var last := attempts[n];
    if last.entry.Some? && last.name == k {
      assert attempts[n] == Attempt(k, Some(Store(attempts)[k]));
    } else {
      StoreLastWins(init, k);
      var i :| 0 <= i < n && init[i] == Attempt(k, Some(Store(init)[k])) &&
        forall j :: i < j < n && init[j].name == k ==> init[j].entry.None?;
      assert attempts[i] == init[i];
      forall j | i < j < |attempts| && attempts[j].name == k
        ensures attempts[j].entry.None?
      {
        if j < n { assert attempts[j] == init[j]; }
      }
    }
  }

  /** `binaryData` after the loop over `artifacts`. */
  function Collected(w: World, workflowId: Option<string>, artifacts: seq<ArtifactRef>, fullResponse: bool): map<string, BinaryEntry>
  {
    Store(Attempts(w, workflowId, artifacts, fullResponse))
  }

  /** Each fetch stands alone: the stored keys are exactly the names of the artifacts whose fetch
      succeeded, and each holds what the last successful fetch under that name returned. */
  lemma CollectedIsSuccessfulFetches(w: World, workflowId: Option<string>, artifacts: seq<ArtifactRef>, fullResponse: bool, k: string)
    ensures var m := Collected(w, workflowId, artifacts, fullResponse);
      k in m <==> exists i :: 0 <= i < |artifacts| && artifacts[i].name == k && Fetch(w, workflowId, artifacts[i], fullResponse).Some?
    ensures var m := Collected(w, workflowId, artifacts, fullResponse);
      k in m ==> exists i ::
        && 0 <= i < |artifacts| && artifacts[i].name == k
        && Fetch(w, workflowId, artifacts[i], fullResponse) == Some(m[k])
        && forall j :: i < j < |artifacts| && artifacts[j].name == k ==> Fetch(w, workflowId, artifacts[j], fullResponse).None?
  {
    var attempts := Attempts(w, workflowId, artifacts, fullResponse);
    StoreKeys(attempts, k);
    if k in Store(attempts) {
      StoreLastWins(attempts, k);
    }
  }

  /** As written the GET asks for the body alone, so reading its headers always throws and the
      `catch` swallows it: no artifact is ever stored. */
  lemma AsWrittenStoresNothing(w: World, workflowId: Option<string>, artifacts: seq<ArtifactRef>)
    ensures Collected(w, workflowId, artifacts, false) == map[]
  {
    var attempts := Attempts(w, workflowId, artifacts, false);
    forall k ensures k !in Store(attempts) {
      StoreKeys(attempts, k);
    }
  }

  /** The artifact loop with its per-artifact try/catch. */
  method CollectArtifacts(w: World, workflowId: Option<string>, artifacts: seq<ArtifactRef>, fullResponse: bool)
    returns (binaryData: map<string, BinaryEntry>)
    ensures binaryData == Collected(w, workflowId, artifacts, fullResponse)
  {
    ghost var attempts := Attempts(w, workflowId, artifacts, fullResponse);
    binaryData := map[];
    var i := 0;
    while i < |artifacts|
      invariant 0 <= i <= |artifacts|
      invariant binaryData == Store(attempts[..i])
    {
      assert attempts[..i + 1][..i] == attempts[..i];
      var entry := Fetch(w, workflowId, artifacts[i], fullResponse);
      if entry.Some? {
        binaryData := binaryData[artifacts[i].name := entry.value];
      }
      i := i + 1;
    }
    assert attempts[..i] == attempts;
  }

  /** The record pushed on the terminal event of workflow `workflowName`: the node's output
      parameters (or none) and the artifacts collected, `binary` undefined when none was kept. */
  function Record(w: World, workflowName: Option<string>, ev: WorkflowEvent, fullResponse: bool): (r: Output)
    ensures r.json.Some? && r.json.value.Keys == Names(OrEmpty(OutputParametersOf(ev, Interpolate(workflowName))))
    ensures r.binary.None? <==> Collected(w, Uid(ev), OutputArtifactsOf(ev, Interpolate(workflowName)), fullResponse) == map[]
  {
    var binaryData := Collected(w, Uid(ev), OutputArtifactsOf(ev, Interpolate(workflowName)), fullResponse);
    Output(TransformOutputParameters(Some(OrEmpty(OutputParametersOf(ev, Interpolate(workflowName))))),
      if |binaryData| > 0 then Some(binaryData) else None)
  }

  /** One item from upload to pushed record, with the artifact GET `fullResponse` or not. */
  function ItemStep(w: World, item: Item, fullResponse: bool): StepOutcome<Output>
  {
    var plan := ItemUploads(item.binary);
    match FirstMatch(plan, w.uploadFails)
    case Some(k) => Raised(UploadFailed(plan[k].key))
    case None =>
      match w.post(PostRequest(AnonymousExecutionUri, Authorization(w), RequestBody(item)))
      case Failure(m) => Raised(RequestFailed(m))
      case Success(created) =>
        match w.watch(WatchRequest(WorkflowsPath, FieldSelector(created.id)))
        case Failure(m) => Raised(WatchFailed(m))
        case Success(events) =>
          match Await(events, IsTerminalPhase)
          case NeverCompletes => Blocked
          case Completed(ev, _) => Produced(Record(w, created.id, ev, fullResponse))
  }

  /** The node as written: the artifact GET asks for the body only. */
  function StepAsWritten(w: World, item: Item): StepOutcome<Output>
  {
    ItemStep(w, item, false)
  }

  /** As written, a pushed record never carries binary data, whatever the artifacts. */
  lemma AsWrittenNeverHasBinary(w: World, item: Item)
    ensures StepAsWritten(w, item).Produced? ==> StepAsWritten(w, item).value.binary.None?
  {
    var plan := ItemUploads(item.binary);
    if StepAsWritten(w, item).Produced? {
      var created := w.post(PostRequest(AnonymousExecutionUri, Authorization(w), RequestBody(item))).value;
      var ev := Await(w.watch(WatchRequest(WorkflowsPath, FieldSelector(created.id))).value, IsTerminalPhase).event;
      AsWrittenStoresNothing(w, Uid(ev), OutputArtifactsOf(ev, Interpolate(created.id)));
    }
  }

  /** The node with the GET asking for the full response, so that the headers it reads exist. */
  function Step(w: World, item: Item): StepOutcome<Output>
  {
    ItemStep(w, item, true)
  }

  /** `Step` on the item alone, the world fixed. */
  function StepFor(w: World): Item -> StepOutcome<Output>
  {
    item => Step(w, item)
  }

  /** A workflow that finishes is reported once, from its first terminal event: when the watch
      delivers a terminal event, the item produces exactly the record of the first one. */
  lemma StepReportsFirstTerminalEvent(w: World, item: Item, events: seq<WorkflowEvent>, k: nat)
    requires FirstMatch(ItemUploads(item.binary), w.uploadFails).None?
    requires w.post(PostRequest(AnonymousExecutionUri, Authorization(w), RequestBody(item))).Success?
    requires var created := w.post(PostRequest(AnonymousExecutionUri, Authorization(w), RequestBody(item))).value;
      w.watch(WatchRequest(WorkflowsPath, FieldSelector(created.id))) == Success(events)
    requires k < |events| && IsTerminalPhase(events[k]) && forall j :: 0 <= j < k ==> !IsTerminalPhase(events[j])
    ensures var created := w.post(PostRequest(AnonymousExecutionUri, Authorization(w), RequestBody(item))).value;
      Step(w, item) == Produced(Record(w, created.id, events[k], true))
  {
  }

  /** One item: uploads, submission, the watch and, on its terminal event, the artifact loop. */
  method ExecuteItem(w: World, item: Item) returns (s: StepOutcome<Output>)
    ensures s == Step(w, item)
  {
    var plan := ItemUploads(item.binary);
    var failed := PerformUploads(plan, w.uploadFails);
    if failed.Some? {
      return Raised(UploadFailed(plan[failed.value].key));
    }
    var response := w.post(PostRequest(AnonymousExecutionUri, Authorization(w), RequestBody(item)));
    if response.Failure? {
      return Raised(RequestFailed(response.error));
    }
    var workflowName := response.value.id;
    var subscription := w.watch(WatchRequest(WorkflowsPath, FieldSelector(workflowName)));
    if subscription.Failure? {
      return Raised(WatchFailed(subscription.error));
    }
    var completion := AwaitCompletion(subscription.value, IsTerminalPhase);
    if completion.NeverCompletes? {
      return Blocked;
    }
    var ev := completion.event;
    var binaryData := CollectArtifacts(w, Uid(ev), OutputArtifactsOf(ev, Interpolate(workflowName)), true);
    var json := TransformOutputParameters(Some(OrEmpty(OutputParametersOf(ev, Interpolate(workflowName)))));
    s := Produced(Output(json, if |binaryData| > 0 then Some(binaryData) else None));
  }

  /** `execute`: the items one after another, each record appended in turn. */
  method Execute(w: World, items: seq<Item>) returns (o: RunOutcome<Output>)
    ensures o == Run(Outcomes(StepFor(w), items))
  {
    var steps := Outcomes(StepFor(w), items);
    var returnData: seq<Output> := [];
    var i := 0;
    while i < |items|
      invariant 0 <= i <= |items|
      invariant Run(steps[..i]) == Returned(returnData)
    {
      var s := ExecuteItem(w, items[i]);
      assert steps[i] == Step(w, items[i]);
      RunNext(steps, i);
      if !s.Produced? {
        return if s.Raised? then Threw(s.error) else NeverReturns;
      }
      returnData := returnData + [s.value];
      i := i + 1;
    }
    assert steps[..i] == steps;
    return Returned(returnData);
  }
}
