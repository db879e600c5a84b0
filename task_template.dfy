/** The TaskTemplate node. For each item it parses the item's JSON arguments and creates an
    Execution custom object running the item's task on them, appending each create's reply;
    the first rejected create is re-thrown as `K8s API Error` and ends the node. */
module TaskTemplate {
  import opened Wrappers
  import opened JsText
  import opened ItemLoop
  import opened Requests

  /** An input item: the task to run and its arguments as JSON text. */
  datatype Item = Item(taskName: string, arguments: string)

  /** The node's surroundings: `JSON.parse` and the Kubernetes create call. */
  datatype World = World(
    parse: string -> Result<Json, string>,
    create: CreateCall -> Result<CreateResponse, ApiFailure>)

  function Param(name: string, value: Json): Json
  {
    JObj(map["name" := JStr(name), "value" := value])
  }

  /** The sample arguments the `arguments` parameter defaults to (rendered with `JSON.stringify`
      and two-space indentation, which is not modelled). */
  const TaskArgs: Json := JObj(map[
    "parameters" := JArr([
      Param("capacity", JNum(10)),
      Param("string-type-parameter", JStr("[{ \"productName\": \"apple-sider\", \"value\": 40, \"weight\": 7 }]")),
      Param("enum-type-parameter", JStr("d")),
      Param("products", JArr([JObj(map["productName" := JStr("apple-sider"), "value" := JNum(40), "weight" := JNum(5)])])),
      Param("emoji", JStr("(\U{25D5}\U{25DE}\U{0C6A}\U{25DF}\U{25D5}\U{2035})")),
      Param("city", JObj(map["mayor" := JObj(map["age" := JNum(27), "name" := JStr("taipei")]), "test" := JStr("")]))]),
    "artifacts" := JArr([JObj(map["name" := JStr("test-artifact"), "raw" := JObj(map["data" := JStr("test")]), "at" := JStr("")])])])

  function Name(v: Json): Option<string>
  {
    if v.JObj? && "name" in v.fields && v.fields["name"].JStr? then Some(v.fields["name"].s) else None
  }

  /** The default carries six parameters, in this order, and a single inline artifact
      `test-artifact` holding `test`. */
  lemma TaskArgsShape()
    ensures TaskArgs.JObj? && TaskArgs.fields.Keys == {"parameters", "artifacts"}
    ensures var ps := TaskArgs.fields["parameters"];
      ps.JArr? && |ps.elems| == 6 &&
      Name(ps.elems[0]) == Some("capacity") && Name(ps.elems[1]) == Some("string-type-parameter") &&
      Name(ps.elems[2]) == Some("enum-type-parameter") && Name(ps.elems[3]) == Some("products") &&
      Name(ps.elems[4]) == Some("emoji") && Name(ps.elems[5]) == Some("city")
    ensures var arts := TaskArgs.fields["artifacts"];
      arts.JArr? && |arts.elems| == 1 && Name(arts.elems[0]) == Some("test-artifact") &&
      arts.elems[0].fields["raw"] == JObj(map["data" := JStr("test")])
  {
  }

  /** The Execution object: the item's task on its parsed arguments, schema validation on, a
      two-hour deadline, generated under `marshall.mqiu-quid-com-a-deal` in `canal-flow`. */
  function ExecutionOf(taskName: string, arguments: Json): (e: ExecutionObject)
    ensures e.task == taskName && e.arguments == arguments
    ensures !e.ignoreSchemaValidation && e.activeDeadlineSeconds == 7200 && e.namespace == "canal-flow"
    ensures e.generateName == "marshall.mqiu-quid-com-a-deal"
  {
    ExecutionFor("marshall.mqiu-quid-com-a-deal", taskName, arguments, false)
  }

  /** The create call an item makes, or none when its arguments do not parse. */
  function CallOf(w: World, item: Item): (calls: seq<CreateCall>)
    ensures |calls| <= 1
    ensures |calls| == 1 <==> w.parse(item.arguments).Success?
    ensures |calls| == 1 ==>
      calls[0].plural == "executions" && calls[0].group == "netbasequid.canalflow" &&
      calls[0].body.task == item.taskName && calls[0].body.arguments == w.parse(item.arguments).value
  {
    match w.parse(item.arguments)
    case Failure(_) => []
    case Success(arguments) => [CreateExecutionCall(ExecutionOf(item.taskName, arguments))]
  }

  /** An item left at the default `arguments`: their `JSON.stringify` rendering, given here as
      `text`, parses back to the sample arguments, which the item's task is then created with. */
  lemma DefaultArgumentsSubmitted(w: World, taskName: string, text: string)
    requires w.parse(text) == Success(TaskArgs)
    ensures CallOf(w, Item(taskName, text)) == [CreateExecutionCall(ExecutionOf(taskName, TaskArgs))]
    ensures |CallOf(w, Item(taskName, text))[0].body.arguments.fields["parameters"].elems| == 6
  {
  }

  /** One item: the parse (its error is not caught), then the create, whose reply is appended and
      whose rejection is re-thrown with the formatted message. */
  function Step(w: World, item: Item): StepOutcome<CreateResponse>
  {
    match w.parse(item.arguments)
    case Failure(m) => Raised(ParseFailed(m))
    case Success(arguments) =>
      match w.create(CreateExecutionCall(ExecutionOf(item.taskName, arguments)))
      case Failure(e) => Raised(K8sApiError(K8sErrorMessage(e)))
      case Success(response) => Produced(response)
  }

  /** `Step` on the item alone, the world fixed. */
  function StepFor(w: World): Item -> StepOutcome<CreateResponse>
  {
    item => Step(w, item)
  }

  /** The create calls `execute` makes: each item's in turn, until an item fails. */
  function Submitted(w: World, items: seq<Item>): seq<CreateCall>
  {
    if items == [] then []
    else
      var prev := items[..|items| - 1];
      if Run(Outcomes(StepFor(w), prev)).Returned? then Submitted(w, prev) + CallOf(w, items[|items| - 1])
      else Submitted(w, prev)
  }

  /** Nothing is submitted for the items after the first failing one. */
  lemma {:induction false} SubmittedStopsAtFailure(w: World, items: seq<Item>, k: nat)
    requires k < |items| && !Step(w, items[k]).Produced?
    ensures Submitted(w, items) == Submitted(w, items[..k + 1])
    decreases |items| - k
  {
    if k + 1 < |items| {
      var prev := items[..|items| - 1];
      assert prev[..k + 1] == items[..k + 1];
      assert prev[k] == items[k];
      SubmittedStopsAtFailure(w, prev, k);
      var steps := Outcomes(StepFor(w), prev);
      OutcomesPrefix(StepFor(w), prev, k + 1);
      if Run(steps[..k]).Returned? {
        RunNext(steps, k);
      } else {
        RunStaysStopped(steps, k);
      }
    } else {
      assert items[..k + 1] == items;
    }
  }

  /** When every create succeeds, one call per item is made, in item order, and the replies come
      back one per item, in the same order. */
  lemma {:induction false} SubmittedOnePerItem(w: World, items: seq<Item>)
    requires Run(Outcomes(StepFor(w), items)).Returned?
    ensures |Submitted(w, items)| == |items|
    ensures forall i :: 0 <= i < |items| ==> [Submitted(w, items)[i]] == CallOf(w, items[i])
    ensures |Run(Outcomes(StepFor(w), items)).data| == |items|
  {
    var steps := Outcomes(StepFor(w), items);
    RunReturnsOnePerItem(steps);
    if items != [] {
      var n := |items| - 1;
      var prev := items[..n];
      OutcomesPrefix(StepFor(w), items, n);
      assert steps[..n] == Outcomes(StepFor(w), prev);
      RunReturnsOnePerItem(steps[..n]);
      SubmittedOnePerItem(w, prev);
      assert steps[n].Produced?;
      assert |CallOf(w, items[n])| == 1;
      forall i | 0 <= i < n ensures prev[i] == items[i] { }
    }
  }

  /** `execute`: parse and create item by item, appending each reply; the calls made come out as
      `submitted`. */
  method Execute(w: World, items: seq<Item>) returns (o: RunOutcome<CreateResponse>, submitted: seq<CreateCall>)
    ensures o == Run(Outcomes(StepFor(w), items))
    ensures submitted == Submitted(w, items)
  {
    var steps := Outcomes(StepFor(w), items);
    var returnData: seq<CreateResponse> := [];
    submitted := [];
    var i := 0;
    while i < |items|
      invariant 0 <= i <= |items|
      invariant Run(steps[..i]) == Returned(returnData)
      invariant submitted == Submitted(w, items[..i])
    {
      RunNext(steps, i);
      OutcomesPrefix(StepFor(w), items, i);
      assert items[..i + 1][..i] == items[..i];
      var arguments := w.parse(items[i].arguments);
      if arguments.Failure? {
        SubmittedStopsAtFailure(w, items, i);
        return Threw(ParseFailed(arguments.error)), submitted;
      }
      var call := CreateExecutionCall(ExecutionOf(items[i].taskName, arguments.value));
      submitted := submitted + [call];
      var responseData := w.create(call);
      if responseData.Failure? {
        SubmittedStopsAtFailure(w, items, i);
        return Threw(K8sApiError(K8sErrorMessage(responseData.error))), submitted;
      }
      returnData := returnData + [responseData.value];
      i := i + 1;
    }
    assert steps[..i] == steps;
    assert items[..i] == items;
    return Returned(returnData), submitted;
  }
}
