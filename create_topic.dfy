/** The CreateTopic node. For each item it decides whether the topic's boolean query comes from
    a file or from the item's text, uploads the item's files in the first case, submits an
    anonymous `test-create-topic` execution and pushes the normalised output parameters of the
    first terminal event of its workflow. */
module CreateTopic {
  import opened Wrappers
  import opened JsText
  import opened Seqs
  import opened OutputParameters
  import opened Watcher
  import opened ItemLoop
  import opened Uploads
  import opened Requests

  /** An input item: its node parameters (`fileName` and `booleanQuery` are each read only in one
      mode) and its binary object, if any. */
  datatype Item = Item(
    monitorTopicName: string, useFileAsInput: bool, fileName: string, booleanQuery: string,
    binary: Option<seq<BinaryProperty>>)

  /** The node's surroundings: its `QuidMonitorAccount` credentials and the services it calls. */
  datatype World = World(
    email: string,
    password: string,
    uploadFails: Upload -> bool,
    post: PostRequest -> Result<CreationResponse, string>,
    watch: WatchRequest -> Result<seq<WorkflowEvent>, string>)

  /** The pushed value: the normalised output parameters, undefined when there were none. */
  type Output = Option<map<string, NamedValue>>

  /** The `fileName` and `booleanQuery` the item runs with: the one its mode reads, and `''` for
      the other. */
  function SelectInputs(item: Item): (inputs: (string, string))
    ensures item.useFileAsInput ==> inputs == (item.fileName, "")
    ensures !item.useFileAsInput ==> inputs == ("", item.booleanQuery)
  {
    if item.useFileAsInput then (item.fileName, "") else ("", item.booleanQuery)
  }

  /** Only one of the two parameters is read: changing the other changes nothing. */
  lemma SelectInputsReadsOne(item: Item, fileName: string, booleanQuery: string)
    ensures item.useFileAsInput ==> SelectInputs(item.(booleanQuery := booleanQuery)) == SelectInputs(item)
    ensures !item.useFileAsInput ==> SelectInputs(item.(fileName := fileName)) == SelectInputs(item)
    ensures item.useFileAsInput ==> forall email :: RequestBody(item.(booleanQuery := booleanQuery), email) == RequestBody(item, email)
    ensures !item.useFileAsInput ==> forall email :: RequestBody(item.(fileName := fileName), email) == RequestBody(item, email)
  {
  }

  /** Files are uploaded only in file mode and only when the item has binary data; then every
      binary property goes under the same object key, the item's `fileName`. */
  function ItemUploads(item: Item): (plan: seq<Upload>)
    ensures !item.useFileAsInput || item.binary.None? ==> plan == []
    ensures item.useFileAsInput && item.binary.Some? ==>
      |plan| == |item.binary.value| && forall i :: 0 <= i < |plan| ==> plan[i].key == Some(item.fileName)
  {
    if item.useFileAsInput && item.binary.Some? then SameKeyUploads(item.binary.value, Some(SelectInputs(item).0)) else []
  }

  const TopicStep := "create-boolean-topic"

  /** The query artifact: a reference to the download's result in file mode, the query text
      inline otherwise. */
  function BooleanQueryArtifact(item: Item): (a: Artifact)
    ensures a.name == "booleanQuery"
    ensures a.source.Reference? <==> item.useFileAsInput
    ensures !item.useFileAsInput ==> a.source == Inline(item.booleanQuery)
  {
    if item.useFileAsInput then StepOutput("booleanQuery", "download-artifact-from-oss", "result")
    else Artifact("booleanQuery", Inline(SelectInputs(item).1))
  }

  function TopicOutput(name: string): OutputDecl
  {
    OutputDecl(name, "string", "{{ steps." + TopicStep + ".outputs.parameters." + name + " }}")
  }

  /** The `test-create-topic` workflow: a download of `fileName` (empty outside file mode), then
      the topic creation with the user's email, the topic's name and the query artifact. */
  function RequestBody(item: Item, email: string): (body: AnonymousExecution)
    ensures body.name == "test-create-topic" && |body.steps| == 2 && |body.steps[1]| == 1
    ensures body.steps[0] == [DownloadStep("download-artifact-from-oss", SelectInputs(item).0)]
    ensures body.outputs == Outputs(Some([TopicOutput("topicId"), TopicOutput("topicUrl")]), [])
    ensures var args := body.steps[1][0].arguments;
      args.parameters == Some([Parameter("userEmail", JStr(email)), Parameter("name", JStr(item.monitorTopicName))]) &&
      args.artifacts == Some([BooleanQueryArtifact(item)])
  {
    AnonymousWorkflow("test-create-topic",
      Outputs(Some([TopicOutput("topicId"), TopicOutput("topicUrl")]), []),
      [[DownloadStep("download-artifact-from-oss", SelectInputs(item).0)],
       [WorkflowStep(TopicStep, "CANAL_TASK.monitor-analysis.create-boolean-topic",
          Arguments(Some([Parameter("userEmail", JStr(email)), Parameter("name", JStr(item.monitorTopicName))]),
            Some([BooleanQueryArtifact(item)])))]])
  }

  function Authorization(w: World): Authorization
  {
    BasicAuth(w.email, w.password)
  }

  /** One item: uploads, submission, then the normalised parameters of the workflow's node, as
      the first terminal event reports them. */
  function Step(w: World, item: Item): StepOutcome<Output>
  {
    var plan := ItemUploads(item);
    match FirstMatch(plan, w.uploadFails)
    case Some(k) => Raised(UploadFailed(plan[k].key))
    case None =>
      match w.post(PostRequest(AnonymousExecutionUri, Authorization(w), RequestBody(item, w.email)))
      case Failure(m) => Raised(RequestFailed(m))
      case Success(created) =>
        match w.watch(WatchRequest(WorkflowsPath, FieldSelector(created.id)))
        case Failure(m) => Raised(WatchFailed(m))
        case Success(events) =>
          match Await(events, IsTerminalPhase)
          case NeverCompletes => Blocked
          case Completed(ev, _) => Produced(TransformOutputParameters(OutputParametersOf(ev, Interpolate(created.id))))
  }

  /** `Step` on the item alone, the world fixed. */
  function StepFor(w: World): Item -> StepOutcome<Output>
  {
    item => Step(w, item)
  }

  /** The pushed value is undefined exactly when the node reported no parameter list, and
      otherwise is keyed by the parameters' names. */
  lemma StepOutputShape(w: World, item: Item)
    requires Step(w, item).Produced?
    ensures var created := w.post(PostRequest(AnonymousExecutionUri, Authorization(w), RequestBody(item, w.email))).value;
      var ev := Await(w.watch(WatchRequest(WorkflowsPath, FieldSelector(created.id))).value, IsTerminalPhase).event;
      var params := OutputParametersOf(ev, Interpolate(created.id));
      IsTerminalPhase(ev) &&
      (Step(w, item).value.None? <==> params.None?) &&
      (params.Some? ==> Step(w, item).value.value.Keys == Names(params.value))
  {
  }

  /** A stream that never reports a terminal phase leaves the item waiting forever. */
  lemma NoTerminalEventBlocks(w: World, item: Item, events: seq<WorkflowEvent>)
    requires FirstMatch(ItemUploads(item), w.uploadFails).None?
    requires w.post(PostRequest(AnonymousExecutionUri, Authorization(w), RequestBody(item, w.email))).Success?
    requires var created := w.post(PostRequest(AnonymousExecutionUri, Authorization(w), RequestBody(item, w.email))).value;
      w.watch(WatchRequest(WorkflowsPath, FieldSelector(created.id))) == Success(events)
    requires forall i :: 0 <= i < |events| ==> !IsTerminalPhase(events[i])
    ensures Step(w, item) == Blocked
  {
  }

  /** One item, as `execute`'s loop body runs it. */
  method ExecuteItem(w: World, item: Item) returns (s: StepOutcome<Output>)
    ensures s == Step(w, item)
  {
    var plan := ItemUploads(item);
    var failed := PerformUploads(plan, w.uploadFails);
    if failed.Some? {
      return Raised(UploadFailed(plan[failed.value].key));
    }
    var response := w.post(PostRequest(AnonymousExecutionUri, Authorization(w), RequestBody(item, w.email)));
    if response.Failure? {
      return Raised(RequestFailed(response.error));
    }
    var workflowName := response.value.id;
    var subscription := w.watch(WatchRequest(WorkflowsPath, FieldSelector(workflowName)));
    if subscription.Failure? {
      return Raised(WatchFailed(subscription.error));
    }
    var completion := AwaitCompletion(subscription.value, IsTerminalPhase);
    if completion.NeverCompletes? {
      return Blocked;
    }
    s := Produced(TransformOutputParameters(OutputParametersOf(completion.event, Interpolate(workflowName))));
  }

  /** `execute`: the items one after another; each item's wait ends before the next item starts,
      so the values come out in item order. */
  method Execute(w: World, items: seq<Item>) returns (o: RunOutcome<Output>)
    ensures o == Run(Outcomes(StepFor(w), items))
  {
    var steps := Outcomes(StepFor(w), items);
    var returnData: seq<Output> := [];
    var i := 0;
    while i < |items|
      invariant 0 <= i <= |items|
      invariant Run(steps[..i]) == Returned(returnData)
    {
      var s := ExecuteItem(w, items[i]);
      assert steps[i] == Step(w, items[i]);
      RunNext(steps, i);
      if !s.Produced? {
        return if s.Raised? then Threw(s.error) else NeverReturns;
      }
      returnData := returnData + [s.value];
      i := i + 1;
    }
    assert steps[..i] == steps;
    return Returned(returnData);
  }
}
