/** The AcceptFileArtifact node. For each item it uploads the item's files when asked to,
    creates an Execution custom object running the chosen task on `fileName`, watches that
    Execution until its `Completed` condition says `'true'`, and pushes the normalised output
    parameters the Execution reports. */
module AcceptFileArtifact {
  import opened Wrappers
  import opened JsText
  import opened Seqs
  import opened OutputParameters
  import opened Watcher
  import opened ItemLoop
  import opened Uploads
  import opened Requests

  /** An input item: its node parameters and its binary object, if any. */
  datatype Item = Item(useFileAsInput: bool, taskName: string, fileName: string, binary: Option<seq<BinaryProperty>>)

  /** The node's surroundings: the upload, the Kubernetes create call and the Execution watch. */
  datatype World = World(
    uploadFails: Upload -> bool,
    create: CreateCall -> Result<CreateResponse, ApiFailure>,
    watch: WatchRequest -> Result<seq<ExecutionEvent>, string>)

  /** The pushed value: the normalised output parameters, undefined when there were none. */
  type Output = Option<map<string, NamedValue>>

  /** Files are uploaded only when asked to and only when the item has binary data; every binary
      property then goes under the item's `fileName`. */
  function ItemUploads(item: Item): (plan: seq<Upload>)
    ensures !item.useFileAsInput || item.binary.None? ==> plan == []
    ensures item.useFileAsInput && item.binary.Some? ==>
      |plan| == |item.binary.value| && forall i :: 0 <= i < |plan| ==> plan[i].key == Some(item.fileName)
  {
    if item.useFileAsInput && item.binary.Some? then SameKeyUploads(item.binary.value, Some(item.fileName)) else []
  }

  /** `spec.arguments`: the single parameter `fileName`. */
  function ExecutionArguments(fileName: string): Json
  {
    JObj(map["parameters" := JArr([JObj(map["name" := JStr("fileName"), "value" := JStr(fileName)])])])
  }

  /** The Execution object: the item's task on its file name, schema validation skipped, a
      two-hour deadline, generated under `marshall.test-artifact` in `canal-flow`. */
  function ExecutionOf(item: Item): (e: ExecutionObject)
    ensures e.task == item.taskName && e.arguments == ExecutionArguments(item.fileName)
    ensures e.ignoreSchemaValidation && e.activeDeadlineSeconds == 7200 && e.namespace == "canal-flow"
    ensures e.generateName == "marshall.test-artifact"
  {
    ExecutionFor("marshall.test-artifact", item.taskName, ExecutionArguments(item.fileName), true)
  }

  /** `responseData.body.metadata.name`, which throws when the reply has no metadata. */
  function ExecutionName(response: CreateResponse): Result<Option<string>, NodeError>
  {
    match response.metadata
    case None => Failure(UndefinedProperty("responseData.body.metadata.name"))
    case Some(meta) => Success(meta.name)
  }

  /** One item: uploads, the create (a rejection re-thrown as `K8s API Error`), then the
      parameters of the first event whose Execution is completed. */
  function Step(w: World, item: Item): StepOutcome<Output>
  {
    var plan := ItemUploads(item);
    match FirstMatch(plan, w.uploadFails)
    case Some(k) => Raised(UploadFailed(plan[k].key))
    case None =>
      match w.create(CreateExecutionCall(ExecutionOf(item)))
      case Failure(e) => Raised(K8sApiError(K8sErrorMessage(e)))
      case Success(response) =>
        match ExecutionName(response)
        case Failure(e) => Raised(e)
        case Success(executionName) =>
          match w.watch(WatchRequest(ExecutionsPath, FieldSelector(executionName)))
          case Failure(m) => Raised(WatchFailed(m))
          case Success(events) =>
            match Await(events, IsExecutionCompleted)
            case NeverCompletes => Blocked
            case Completed(ev, _) => Produced(TransformOutputParameters(ExecutionOutputParameters(ev)))
  }

  /** `Step` on the item alone, the world fixed. */
  function StepFor(w: World): Item -> StepOutcome<Output>
  {
    item => Step(w, item)
  }

  /** A rejected create ends the item with the formatted message; the watch is never opened. */
  lemma CreateFailureIsRethrown(w: World, item: Item, e: ApiFailure)
    requires FirstMatch(ItemUploads(item), w.uploadFails).None?
    requires w.create(CreateExecutionCall(ExecutionOf(item))) == Failure(e)
    ensures Step(w, item) == Raised(K8sApiError(K8sErrorMessage(e)))
  {
  }

  /** The Execution watched is the one created: the field selector names what the reply's
      metadata names, and the item completes on the first event whose first `Completed`
      condition is `'true'`. */
  lemma StepWatchesCreatedExecution(w: World, item: Item, name: Option<string>, events: seq<ExecutionEvent>, k: nat)
    requires FirstMatch(ItemUploads(item), w.uploadFails).None?
    requires w.create(CreateExecutionCall(ExecutionOf(item))).Success?
    requires w.create(CreateExecutionCall(ExecutionOf(item))).value.metadata == Some(ObjectMeta(name))
    requires w.watch(WatchRequest(ExecutionsPath, "metadata.name=" + Interpolate(name))) == Success(events)
    requires k < |events| && IsExecutionCompleted(events[k])
    requires forall j :: 0 <= j < k ==> !IsExecutionCompleted(events[j])
    ensures Step(w, item) == Produced(TransformOutputParameters(ExecutionOutputParameters(events[k])))
  {
  }

  /** Outside file mode an item's binary data plays no part in what the item does. */
  lemma BinaryIgnoredOutsideFileMode(w: World, item: Item, binary: Option<seq<BinaryProperty>>)
    requires !item.useFileAsInput
    ensures Step(w, item.(binary := binary)) == Step(w, item)
  {
  }

  /** As written, `execute` first logs `items[0].binary.data`, which throws a TypeError when
      there is no first item or the first item has no binary object; otherwise it runs the loop. */
  function ExecuteAsWritten(w: World, items: seq<Item>): RunOutcome<Output>
  {
    if items == [] then Threw(UndefinedProperty("items[0].binary"))
    else if items[0].binary.None? then Threw(UndefinedProperty("items[0].binary.data"))
    else Run(Outcomes(StepFor(w), items))
  }

  /** The debug log makes the node throw on any input whose first item carries no file, even
      outside file mode, where files are not used at all. */
  lemma AsWrittenThrowsWithoutBinary(w: World, item: Item, rest: seq<Item>)
    requires item.binary.None? && !item.useFileAsInput
    ensures ExecuteAsWritten(w, [item] + rest) == Threw(UndefinedProperty("items[0].binary.data"))
    ensures Step(w, item) == Step(w, item.(binary := Some([])))
    ensures ExecuteAsWritten(w, []) == Threw(UndefinedProperty("items[0].binary"))
  {
    BinaryIgnoredOutsideFileMode(w, item, Some([]));
  }

  /** Apart from the log the two agree. */
  lemma AsWrittenAgreesWithBinary(w: World, items: seq<Item>)
    requires items != [] && items[0].binary.Some?
    ensures ExecuteAsWritten(w, items) == Run(Outcomes(StepFor(w), items))
  {
  }

  /** One item, as `execute`'s loop body runs it. */
  method ExecuteItem(w: World, item: Item) returns (s: StepOutcome<Output>)
    ensures s == Step(w, item)
  {
    var plan := ItemUploads(item);
    var failed := PerformUploads(plan, w.uploadFails);
    if failed.Some? {
      return Raised(UploadFailed(plan[failed.value].key));
    }
    var responseData := w.create(CreateExecutionCall(ExecutionOf(item)));
    if responseData.Failure? {
      return Raised(K8sApiError(K8sErrorMessage(responseData.error)));
    }
    var executionName := ExecutionName(responseData.value);
    if executionName.Failure? {
      return Raised(executionName.error);
    }
    var subscription := w.watch(WatchRequest(ExecutionsPath, FieldSelector(executionName.value)));
    if subscription.Failure? {
      return Raised(WatchFailed(subscription.error));
    }
    var completion := AwaitCompletion(subscription.value, IsExecutionCompleted);
    if completion.NeverCompletes? {
      return Blocked;
    }
    s := Produced(TransformOutputParameters(ExecutionOutputParameters(completion.event)));
  }

  /** `execute` without the debug log: the items one after another, each value appended in turn. */
  method Execute(w: World, items: seq<Item>) returns (o: RunOutcome<Output>)
    ensures o == Run(Outcomes(StepFor(w), items))
  {
    var steps := Outcomes(StepFor(w), items);
    var returnData: seq<Output> := [];
    var i := 0;
    while i < |items|
      invariant 0 <= i <= |items|
      invariant Run(steps[..i]) == Returned(returnData)
    {
      var s := ExecuteItem(w, items[i]);
      assert steps[i] == Step(w, items[i]);
      RunNext(steps, i);
      if !s.Produced? {
        return if s.Raised? then Threw(s.error) else NeverReturns;
      }
      returnData := returnData + [s.value];
      i := i + 1;
    }
    assert steps[..i] == steps;
    return Returned(returnData);
  }
}
