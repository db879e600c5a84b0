/** The per-item loop every node's `execute` runs: items are handled one after another, each
    item's result is appended to `returnData` in turn, a throw leaves the loop (and `execute`),
    and a wait that never finishes leaves the node hanging. */
module ItemLoop {
  import opened Wrappers

  /** Why an `execute` throws. */
  datatype NodeError =
    | UploadFailed(key: Option<string>)          // an object-storage upload threw
    | RequestFailed(message: string)             // `this.helpers.request` rejected
    | WatchFailed(message: string)               // `watch.watch` rejected
    | K8sApiError(message: string)               // the re-thrown `K8s API Error: ...`
    | ArtifactFailed(name: string, message: string)
    | ArchiveFailed(name: string, message: string)
    | ParseFailed(message: string)               // `JSON.parse` threw
    | UndefinedProperty(path: string)            // a property read on `undefined`
    | KubeConfigFailed(reason: string)           // the module-level kubeconfig lookup threw

  /** What handling one item comes to. */
  datatype StepOutcome<T> = Produced(value: T) | Raised(error: NodeError) | Blocked

  /** What `execute` comes to: the list it returns, the error it throws, or no answer at all. */
  datatype RunOutcome<T> = Returned(data: seq<T>) | Threw(error: NodeError) | NeverReturns

  /** Each item's outcome, in item order. */
  function Outcomes<I, T>(step: I -> StepOutcome<T>, items: seq<I>): (steps: seq<StepOutcome<T>>)
    ensures |steps| == |items| && forall i :: 0 <= i < |items| ==> steps[i] == step(items[i])
  {
    seq(|items|, i requires 0 <= i < |items| => step(items[i]))
  }

  /** The outcomes of the first `n` items are the first `n` outcomes. */
  lemma OutcomesPrefix<I, T>(step: I -> StepOutcome<T>, items: seq<I>, n: nat)
    requires n <= |items|
    ensures Outcomes(step, items[..n]) == Outcomes(step, items)[..n]
  {
  }

  /** The loop's result given each item's outcome in item order. */
  function Run<T>(steps: seq<StepOutcome<T>>): RunOutcome<T>
  {
    if steps == [] then Returned([])
    else
      match Run(steps[..|steps| - 1])
      case Returned(data) =>
        (match steps[|steps| - 1]
         case Produced(v) => Returned(data + [v])
         case Raised(e) => Threw(e)
         case Blocked => NeverReturns)
      case stopped => stopped
  }

  /** The loop returns exactly when every item produced a result; it then returns one result per
      item, in item order. */
  lemma {:induction false} RunReturnsOnePerItem<T>(steps: seq<StepOutcome<T>>)
    ensures Run(steps).Returned? <==> forall i :: 0 <= i < |steps| ==> steps[i].Produced?
    ensures Run(steps).Returned? ==>
      |Run(steps).data| == |steps| && forall i :: 0 <= i < |steps| ==> Run(steps).data[i] == steps[i].value
  {
    if steps != [] {
      var init := steps[..|steps| - 1];
      RunReturnsOnePerItem(init);
      forall i | 0 <= i < |init| ensures init[i] == steps[i] { }
      if !Run(init).Returned? {
        var i :| 0 <= i < |init| && !init[i].Produced?;
        assert !steps[i].Produced?;
      }
    }
  }

  /** Once the loop has stopped, later items change nothing. */
  lemma {:induction false} RunStaysStopped<T>(steps: seq<StepOutcome<T>>, n: nat)
    requires n <= |steps| && !Run(steps[..n]).Returned?
    ensures Run(steps) == Run(steps[..n])
    decreases |steps| - n
  {
    if n < |steps| {
      var init := steps[..|steps| - 1];
      assert init[..n] == steps[..n];
      RunStaysStopped(init, n);
    } else {
      assert steps[..n] == steps;
    }
  }

  /** The first item that does not produce a result decides: its error is what `execute` throws
      (or its wait is where `execute` hangs), and no later item matters. */
  lemma RunStopsAtFirstFailure<T>(steps: seq<StepOutcome<T>>, k: nat)
    requires k < |steps| && !steps[k].Produced?
    requires forall j :: 0 <= j < k ==> steps[j].Produced?
    ensures Run(steps) == if steps[k].Raised? then Threw(steps[k].error) else NeverReturns
  {
    var prefix := steps[..k];
    assert steps[..k + 1][..k] == prefix;
    RunReturnsOnePerItem(prefix);
    RunStaysStopped(steps, k + 1);
  }

  /** One more item on a loop that is still running. */
  lemma RunNext<T>(steps: seq<StepOutcome<T>>, i: nat)
    requires i < |steps| && Run(steps[..i]).Returned?
    ensures steps[i].Produced? ==> Run(steps[..i + 1]) == Returned(Run(steps[..i]).data + [steps[i].value])
    ensures !steps[i].Produced? ==>
      Run(steps) == if steps[i].Raised? then Threw(steps[i].error) else NeverReturns
  {
    assert steps[..i + 1][..i] == steps[..i];
    if !steps[i].Produced? {
      RunStaysStopped(steps, i + 1);
    }
  }
}
