/** The completion watcher. The source subscribes to a filtered watch and, in the callback for
    each received object, reassigns `isCompleted` from the object's status; on the first
    terminal status it records the outputs and aborts the watch, while a wait loop polls the
    flag. Here the watch is the finite list of events the subscription delivers, and the
    callback plus the wait loop become one pass over that list. */
module Watcher {
  import opened Wrappers
  import opened JsText
  import opened Seqs
  import opened OutputParameters

  /** An artifact the workflow's node declares among its outputs. */
  datatype ArtifactRef = ArtifactRef(name: string)

  /** `status.nodes[name].outputs` of an Argo workflow. */
  datatype NodeOutputs = NodeOutputs(parameters: Option<seq<RawParameter>>, artifacts: Option<seq<ArtifactRef>>)

  datatype NodeStatus = NodeStatus(outputs: Option<NodeOutputs>)

  /** `status` of an Argo workflow. An absent `nodes` object reads like an empty one under
      `nodes?.[key]`, so it is the empty map here. */
  datatype WorkflowStatus = WorkflowStatus(phase: Option<string>, nodes: map<string, NodeStatus>)

  /** A workflow object: `metadata.uid`, `metadata.name` and `status`. */
  datatype Workflow = Workflow(uid: Option<string>, name: Option<string>, status: Option<WorkflowStatus>)

  /** One object delivered by the workflow watch: `watchObj.object`, possibly undefined. */
  datatype WorkflowEvent = WorkflowEvent(workflow: Option<Workflow>)

  /** `watchObj?.object?.status?.phase` */
  function Phase(ev: WorkflowEvent): Option<string>
  {
    if ev.workflow.Some? && ev.workflow.value.status.Some? then ev.workflow.value.status.value.phase else None
  }

  /** The Argo phase test: `phase === 'Succeeded' || phase === 'Failed' || phase === 'Error'`.
      A missing phase, `Pending`, `Running` and every other text are not terminal. */
  function IsTerminalPhase(ev: WorkflowEvent): (terminal: bool)
    ensures terminal <==> Phase(ev) == Some("Succeeded") || Phase(ev) == Some("Failed") || Phase(ev) == Some("Error")
    ensures Phase(ev) == Some("Pending") || Phase(ev) == Some("Running") || Phase(ev).None? ==> !terminal
  {
    match Phase(ev)
    case None => false
    case Some(p) => p == "Succeeded" || p == "Failed" || p == "Error"
  }

  /** `watchObj?.object?.metadata?.uid` */
  function Uid(ev: WorkflowEvent): Option<string>
  {
    if ev.workflow.Some? then ev.workflow.value.uid else None
  }

  /** `watchObj?.object?.metadata?.name` */
  function WorkflowName(ev: WorkflowEvent): Option<string>
  {
    if ev.workflow.Some? then ev.workflow.value.name else None
  }

  /** `watchObj?.object?.status?.nodes?.[key]?.outputs` */
  function NodeOutputsOf(ev: WorkflowEvent, key: string): Option<NodeOutputs>
  {
    if ev.workflow.Some? && ev.workflow.value.status.Some? && key in ev.workflow.value.status.value.nodes
    then ev.workflow.value.status.value.nodes[key].outputs
    else None
  }

  /** `nodeOutputs?.parameters`, still possibly undefined. */
  function OutputParametersOf(ev: WorkflowEvent, key: string): Option<seq<RawParameter>>
  {
    match NodeOutputsOf(ev, key)
    case None => None
    case Some(o) => o.parameters
  }

  /** `nodeOutputs?.artifacts || []` */
  function OutputArtifactsOf(ev: WorkflowEvent, key: string): seq<ArtifactRef>
  {
    match NodeOutputsOf(ev, key)
    case Some(NodeOutputs(_, Some(artifacts))) => artifacts
    case _ => []
  }

  /** One entry of an Execution resource's `status.conditions`. Its `status` is any JSON value;
      only the string `'true'` counts as satisfied. */
  datatype Condition = Condition(conditionType: Option<string>, status: Option<Json>)

  datatype ExecutionOutputs = ExecutionOutputs(parameters: Option<seq<RawParameter>>)

  datatype ExecutionStatus = ExecutionStatus(conditions: Option<seq<Condition>>, outputs: Option<ExecutionOutputs>)

  datatype ExecutionResource = ExecutionResource(status: Option<ExecutionStatus>)

  /** One object delivered by the Execution watch: `watchObj.object`, possibly undefined. */
  datatype ExecutionEvent = ExecutionEvent(execution: Option<ExecutionResource>)

  /** `watchObj?.object?.status?.conditions` */
  function Conditions(ev: ExecutionEvent): Option<seq<Condition>>
  {
    if ev.execution.Some? && ev.execution.value.status.Some? then ev.execution.value.status.value.conditions else None
  }

  /** `watchObj?.object?.status?.outputs?.parameters` */
  function ExecutionOutputParameters(ev: ExecutionEvent): Option<seq<RawParameter>>
  {
    if ev.execution.Some? && ev.execution.value.status.Some? && ev.execution.value.status.value.outputs.Some?
    then ev.execution.value.status.value.outputs.value.parameters
    else None
  }

  predicate IsCompletedType(c: Condition)
  {
    c.conditionType == Some("Completed")
  }

  /** The Execution condition test: `conditions?.find(c => c.type === 'Completed')?.status === 'true'`.
      It holds exactly when the FIRST condition of type `Completed` has the string status
      `'true'`; a later `Completed` condition is never looked at, and a boolean `true`, a missing
      status or a missing condition list all mean not completed. */
  function IsExecutionCompleted(ev: ExecutionEvent): (completed: bool)
    ensures completed <==> (
      Conditions(ev).Some? &&
      exists i :: 0 <= i < |Conditions(ev).value| && IsCompletedType(Conditions(ev).value[i]) &&
        Conditions(ev).value[i].status == Some(JStr("true")) &&
        forall j :: 0 <= j < i ==> !IsCompletedType(Conditions(ev).value[j]))
  {
    match Conditions(ev)
    case None => false
    case Some(conditions) =>
      match FirstMatch(conditions, IsCompletedType)
      case None => false
      case Some(k) => conditions[k].status == Some(JStr("true"))
  }

  /** How waiting on a watch ends: the terminal event and how many events the callback saw
      (that event included), or never, since the wait loop has no timeout. */
  datatype Completion<E> = Completed(event: E, observed: nat) | NeverCompletes

  /** The wait over a stream: completion at the first terminal event, or never if the stream
      ends without one. */
  function Await<E>(events: seq<E>, isTerminal: E -> bool): (c: Completion<E>)
    ensures c.NeverCompletes? <==> forall i :: 0 <= i < |events| ==> !isTerminal(events[i])
    ensures c.Completed? ==> 1 <= c.observed <= |events| && c.event == events[c.observed - 1] && isTerminal(c.event)
    ensures c.Completed? ==> forall j :: 0 <= j < c.observed - 1 ==> !isTerminal(events[j])
  {
    match FirstMatch(events, isTerminal)
    case None => NeverCompletes
    case Some(k) => Completed(events[k], k + 1)
  }

  /** Once the watch is aborted nothing that arrives later is observed: events after the first
      terminal one do not change the outcome. */
  lemma AwaitIgnoresLaterEvents<E>(events: seq<E>, later: seq<E>, isTerminal: E -> bool)
    requires Await(events, isTerminal).Completed?
    ensures Await(events + later, isTerminal) == Await(events, isTerminal)
  {
    FirstMatchPrefix(events, later, isTerminal);
    var k := FirstMatch(events, isTerminal).value;
    assert (events + later)[k] == events[k];
  }

  /** The callback and the wait loop as one pass: `isCompleted` is reassigned from each event in
      turn; the first terminal event is recorded once and the watch aborted, and the wait
      finishes exactly then. If the stream ends first the wait never finishes. */
  method AwaitCompletion<E>(events: seq<E>, isTerminal: E -> bool) returns (c: Completion<E>)
    ensures c == Await(events, isTerminal)
  {
    var isCompleted := false;
    var i := 0;
    while !isCompleted && i < |events|
      invariant 0 <= i <= |events|
      invariant !isCompleted ==> forall j :: 0 <= j < i ==> !isTerminal(events[j])
      invariant isCompleted ==> 0 < i && isTerminal(events[i - 1]) && forall j :: 0 <= j < i - 1 ==> !isTerminal(events[j])
    {
      isCompleted := isTerminal(events[i]);
      i := i + 1;
    }
    if isCompleted {
      c := Completed(events[i - 1], i);
    } else {
      c := NeverCompletes;
    }
  }
}
