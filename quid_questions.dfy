/** The QuidQuestions node. For each item it submits an anonymous `gpt-chat` execution asking
    Quid a question, waits until the watched workflow's phase is terminal, and only then fetches
    every output artifact in turn: its MIME type comes from its name or its `content-type`, its
    file name and extension from its `content-disposition`, its text from the body (unpacked
    first when the extension is `tgz`). Any failure ends the whole run. */
module QuidQuestions {
  import opened Wrappers
  import opened JsText
  import opened Seqs
  import opened ContentType
  import opened ContentDisposition
  import opened Archive
  import opened Watcher
  import opened ItemLoop
  import opened Requests

  /** An input item: the question and the assistant to ask. */
  datatype Item = Item(prompt: string, assistantType: string)

  /** The node's surroundings: its `QuidMonitorAccount` credentials, the services it calls, how
      a response body unpacks as a gzip-compressed tar archive, and how bytes decode as text. */
  datatype World = World(
    email: string,
    password: string,
    post: PostRequest -> Result<CreationResponse, string>,
    watch: WatchRequest -> Result<seq<WorkflowEvent>, string>,
    get: ArtifactGet -> Result<HttpResponse, string>,
    untar: Bytes -> Result<seq<seq<Bytes>>, string>,
    decode: Bytes -> string)

  /** A pushed record: `json` maps artifact names to their text and `binary` to their stored
      data, each left undefined when empty. */
  datatype Output = Output(json: Option<map<string, string>>, binary: Option<map<string, BinaryEntry>>)

  /** The `gpt-chat` workflow: one `ask` step whose parameters are the user context, the prompt
      and the assistant settings, with three declared outputs. */
  function RequestBody(w: World, item: Item): (body: AnonymousExecution)
    ensures body.name == "gpt-chat" && |body.steps| == 1 && |body.steps[0]| == 1
    ensures body.outputs.artifacts == [StepOutput("raw-result", "gpt-chat", "raw-result"),
      StepOutput("answer-markdown", "gpt-chat", "answer-markdown"), StepOutput("answer-html", "gpt-chat", "answer-html")]
    ensures body.steps[0][0].task == "WORKFLOW_TEMPLATE.quid-questions.main-askquid[ask]"
    ensures body.steps[0][0].arguments.parameters.Some? && |body.steps[0][0].arguments.parameters.value| == 3
    ensures body.steps[0][0].arguments.parameters.value[1] == Parameter("prompt", JStr(item.prompt))
    ensures body.steps[0][0].arguments.parameters.value[2] == Parameter("assistant-settings", JObj(map["key" := JStr(item.assistantType)]))
  {
    var userContext := JObj(map[
      "name" := JStr(w.email),
      "email" := JStr(w.email),
      "accessible_applications" := JArr([JStr("QuidMonitor"), JStr("QuidDiscover")])]);
    AnonymousWorkflow("gpt-chat",
      Outputs(None, [StepOutput("raw-result", "gpt-chat", "raw-result"),
        StepOutput("answer-markdown", "gpt-chat", "answer-markdown"), StepOutput("answer-html", "gpt-chat", "answer-html")]),
      [[WorkflowStep("gpt-chat", "WORKFLOW_TEMPLATE.quid-questions.main-askquid[ask]",
          Arguments(Some([Parameter("user-context", userContext), Parameter("prompt", JStr(item.prompt)),
            Parameter("assistant-settings", JObj(map["key" := JStr(item.assistantType)]))]), None))]])
  }

  function Authorization(w: World): Authorization
  {
    BasicAuth(w.email, w.password)
  }

  const ArgoApi := "https://canal-flow-argo-api.dev-spark.ali-netbase.com"

  /** `<argo api>/artifacts-by-uid/${workflowId}/${workflowName}/${artifact.name}` */
  function ArtifactUri(workflowId: Option<string>, workflowName: Option<string>, artifactName: string): (uri: string)
    ensures var p := ArgoApi + "/artifacts-by-uid/" + Interpolate(workflowId) + "/" + Interpolate(workflowName) + "/";
      |p| <= |uri| && uri[..|p|] == p && uri[|p|..] == artifactName
  {
    ArgoApi + "/artifacts-by-uid/" + Interpolate(workflowId) + "/" + Interpolate(workflowName) + "/" + artifactName
  }

  /** What one artifact contributes: its text and its stored entry. */
  datatype Resolved = Resolved(text: string, entry: BinaryEntry)

  /** The text of a response body: the unpacked archive when the header names a `.tgz` file,
      otherwise the body itself. */
  function BodyText(w: World, response: HttpResponse): Result<string, string>
  {
    if IsTgz(response.contentDisposition) then ExtractedText(w.untar(response.body), w.decode)
    else Success(w.decode(response.body))
  }

  /** The file name an entry is stored under: as written, the template that appends an undefined
      extension; corrected, the artifact's own name. */
  function StoredFileName(artifactName: string, header: Option<string>, asWritten: bool): string
  {
    if asWritten then FileNameAsWritten(artifactName, header) else FileName(artifactName, header)
  }

  /** One iteration of the artifact loop on a fetched response. */
  function ResolveResponse(w: World, artifactName: string, response: HttpResponse, asWritten: bool): (r: Result<Resolved, NodeError>)
    ensures r.Success? ==> r.value.entry.data == response.body
    ensures r.Success? && asWritten ==> r.value.entry.fileName == FileNameAsWritten(artifactName, response.contentDisposition)
    ensures r.Success? && !asWritten ==> r.value.entry.fileName == FileName(artifactName, response.contentDisposition)
    ensures r.Success? ==> r.value.entry.mimeType == ResolveMimeType(artifactName, response.contentType)
    ensures !IsTgz(response.contentDisposition) ==> r.Success? && r.value.text == w.decode(response.body)
    ensures IsTgz(response.contentDisposition) && w.untar(response.body).Success? ==>
      r.Success? && r.value.text == ArchiveText(w.untar(response.body).value, w.decode)
    ensures IsTgz(response.contentDisposition) && w.untar(response.body).Failure? ==>
      r == Failure(ArchiveFailed(artifactName, w.untar(response.body).error))
  {
    var entry := BinaryEntry(response.body, StoredFileName(artifactName, response.contentDisposition, asWritten),
      ResolveMimeType(artifactName, response.contentType));
    match BodyText(w, response)
    case Failure(e) => Failure(ArchiveFailed(artifactName, e))
    case Success(text) => Success(Resolved(text, entry))
  }

  /** One iteration of the artifact loop: the GET (asking for the full response, body as bytes)
      and what its response resolves to. */
  function Resolve(w: World, workflowId: Option<string>, workflowName: Option<string>, artifact: ArtifactRef, asWritten: bool)
    : Result<Resolved, NodeError>
  {
    match w.get(ArtifactGet(ArtifactUri(workflowId, workflowName, artifact.name), Authorization(w), true))
    case Failure(e) => Failure(ArtifactFailed(artifact.name, e))
    case Success(response) => ResolveResponse(w, artifact.name, response, asWritten)
  }

  /** As written, a response whose header names no file is stored under the artifact's name
      followed by `undefined`; corrected, under the artifact's name itself. */
  lemma AsWrittenStoresUndefinedName(w: World, artifactName: string, response: HttpResponse)
    requires FilenameMatch(response.contentDisposition).None?
    ensures ResolveResponse(w, artifactName, response, true).Success?
    ensures ResolveResponse(w, artifactName, response, true).value.entry.fileName == artifactName + "undefined"
    ensures ResolveResponse(w, artifactName, response, false).Success?
    ensures ResolveResponse(w, artifactName, response, false).value.entry.fileName == artifactName
  {
    FileNameAsWrittenAppendsUndefined(artifactName, response.contentDisposition);
  }

  /** The file name is all the correction changes: both versions fail alike, and on success they
      agree on the text, the stored bytes and the MIME type. */
  lemma AsWrittenDiffersOnlyInFileName(w: World, workflowId: Option<string>, workflowName: Option<string>, artifact: ArtifactRef)
    ensures Resolve(w, workflowId, workflowName, artifact, true).Failure? <==>
      Resolve(w, workflowId, workflowName, artifact, false).Failure?
    ensures Resolve(w, workflowId, workflowName, artifact, true).Failure? ==>
      Resolve(w, workflowId, workflowName, artifact, true).error == Resolve(w, workflowId, workflowName, artifact, false).error
    ensures Resolve(w, workflowId, workflowName, artifact, true).Success? ==>
      var a := Resolve(w, workflowId, workflowName, artifact, true).value;
      var b := Resolve(w, workflowId, workflowName, artifact, false).value;
      a.text == b.text && a.entry.data == b.entry.data && a.entry.mimeType == b.entry.mimeType
  {
  }

  /** An artifact's name and what resolving it came to. */
  datatype Attempt = Attempt(name: string, result: Result<Resolved, NodeError>)

  function Attempts(w: World, workflowId: Option<string>, workflowName: Option<string>, artifacts: seq<ArtifactRef>, asWritten: bool)
    : (r: seq<Attempt>)
    ensures |r| == |artifacts| && forall i :: 0 <= i < |r| ==>
      r[i] == Attempt(artifacts[i].name, Resolve(w, workflowId, workflowName, artifacts[i], asWritten))
  {
    seq(|artifacts|, i requires 0 <= i < |artifacts| =>
      Attempt(artifacts[i].name, Resolve(w, workflowId, workflowName, artifacts[i], asWritten)))
  }

  /** `jsonData` and `binaryData` at the end of the loop. */
  datatype Gathered = Gathered(jsonData: map<string, string>, binaryData: map<string, BinaryEntry>)

  predicate Failed(a: Attempt)
  {
    a.result.Failure?
  }

  /** The loop over attempts with no error handling: both dictionaries written under the
      artifact's name, or the first failure. */
  function Gather(attempts: seq<Attempt>): Result<Gathered, NodeError>
  {
    if attempts == [] then Success(Gathered(map[], map[]))
    else
      match Gather(attempts[..|attempts| - 1])
      case Failure(e) => Failure(e)
      case Success(g) =>
        var last := attempts[|attempts| - 1];
        match last.result
        case Failure(e) => Failure(e)
        case Success(r) => Success(Gathered(g.jsonData[last.name := r.text], g.binaryData[last.name := r.entry]))
  }

  /** No per-artifact error handling: the loop fails exactly when some artifact fails, and then
      with the error of the first one. */
  lemma {:induction false} GatherFailsAtFirstFailure(attempts: seq<Attempt>)
    ensures Gather(attempts).Failure? <==> FirstMatch(attempts, Failed).Some?
    ensures Gather(attempts).Failure? ==> Gather(attempts).error == attempts[FirstMatch(attempts, Failed).value].result.error
  {
    if attempts != [] {
      var n := |attempts| - 1;
      var init := attempts[..n];
      GatherFailsAtFirstFailure(init);
      assert attempts == init + [attempts[n]];
      if FirstMatch(init, Failed).Some? {
        FirstMatchPrefix(init, [attempts[n]], Failed);
      } else {
        var f := FirstMatch(attempts, Failed);
        if f.Some? {
          assert f.value == n;
        } else {
          assert !Failed(attempts[n]);
        }
      }
    }
  }

  /** On success both dictionaries have the same keys: the names of the artifacts. */
  lemma {:induction false} GatherKeys(attempts: seq<Attempt>, k: string)
    requires Gather(attempts).Success?
    ensures var g := Gather(attempts).value;
      (k in g.jsonData <==> k in g.binaryData) &&
      (k in g.jsonData <==> exists i :: 0 <= i < |attempts| && attempts[i].name == k)
  {
    if attempts != [] {
      var n := |attempts| - 1;
      var init := attempts[..n];
      GatherKeys(init, k);
      if exists i :: 0 <= i < n && init[i].name == k {
        var i :| 0 <= i < n && init[i].name == k;
        assert attempts[i] == init[i];
      }
      if exists i :: 0 <= i < |attempts| && attempts[i].name == k {
        var i :| 0 <= i < |attempts| && attempts[i].name == k;
        if i < n { assert init[i] == attempts[i]; }
      }
    }
  }

  /** On success every artifact resolved, and the last one under each name is what both
      dictionaries hold under it. */
  lemma {:induction false} GatherLastWins(attempts: seq<Attempt>, i: nat)
    requires Gather(attempts).Success? && i < |attempts|
    requires forall j :: i < j < |attempts| ==> attempts[j].name != attempts[i].name
    ensures attempts[i].result.Success?
    ensures var g := Gather(attempts).value;
      attempts[i].name in g.jsonData && attempts[i].name in g.binaryData &&
      g.jsonData[attempts[i].name] == attempts[i].result.value.text &&
      g.binaryData[attempts[i].name] == attempts[i].result.value.entry
  {
    var n := |attempts| - 1;
    var init := attempts[..n];
    if i < n {
      assert init[i] == attempts[i];
      forall j | i < j < n ensures init[j].name != init[i].name {
        assert init[j] == attempts[j];
      }
      GatherLastWins(init, i);
    }
  }

  /** One iteration of the artifact loop: request, MIME type, file name, then the text, through
      `extractTgzBuffer` for a `.tgz`. */
  method ResolveArtifact(w: World, workflowId: Option<string>, workflowName: Option<string>, artifact: ArtifactRef, asWritten: bool)
    returns (r: Result<Resolved, NodeError>)
    ensures r == Resolve(w, workflowId, workflowName, artifact, asWritten)
  {
    var response := w.get(ArtifactGet(ArtifactUri(workflowId, workflowName, artifact.name), Authorization(w), true));
    if response.Failure? {
      return Failure(ArtifactFailed(artifact.name, response.error));
    }
    var headers := response.value;
    var mimeType := ResolveMimeType(artifact.name, headers.contentType);
    var fileName := StoredFileName(artifact.name, headers.contentDisposition, asWritten);
    var text: string;
    if IsTgz(headers.contentDisposition) {
      var extracted := ExtractTgz(w.untar(headers.body), w.decode);
      if extracted.Failure? {
        return Failure(ArchiveFailed(artifact.name, extracted.error));
      }
      text := extracted.value;
    } else {
      text := w.decode(headers.body);
    }
    r := Success(Resolved(text, BinaryEntry(headers.body, fileName, mimeType)));
  }

  /** The artifact loop, with no error handling: the first error leaves it. */
  method ResolveArtifacts(w: World, workflowId: Option<string>, workflowName: Option<string>, artifacts: seq<ArtifactRef>, asWritten: bool)
    returns (r: Result<Gathered, NodeError>)
    ensures r == Gather(Attempts(w, workflowId, workflowName, artifacts, asWritten))
  {
    ghost var attempts := Attempts(w, workflowId, workflowName, artifacts, asWritten);
    var jsonData: map<string, string> := map[];
    var binaryData: map<string, BinaryEntry> := map[];
    var i := 0;
    while i < |artifacts|
      invariant 0 <= i <= |artifacts|
      invariant Gather(attempts[..i]) == Success(Gathered(jsonData, binaryData))
    {
      var resolved := ResolveArtifact(w, workflowId, workflowName, artifacts[i], asWritten);
      GatherNext(attempts, i, Gathered(jsonData, binaryData));
      if resolved.Failure? {
        return Failure(resolved.error);
      }
      jsonData := jsonData[artifacts[i].name := resolved.value.text];
      binaryData := binaryData[artifacts[i].name := resolved.value.entry];
      i := i + 1;
    }
    assert attempts[..i] == attempts;
    return Success(Gathered(jsonData, binaryData));
  }

  /** One more artifact: its entries written under its name, or its failure ending the loop. */
  lemma GatherNext(attempts: seq<Attempt>, i: nat, g: Gathered)
    requires i < |attempts| && Gather(attempts[..i]) == Success(g)
    ensures var a := attempts[i];
      a.result.Success? ==>
        Gather(attempts[..i + 1]) ==
        Success(Gathered(g.jsonData[a.name := a.result.value.text], g.binaryData[a.name := a.result.value.entry]))
    ensures attempts[i].result.Failure? ==> Gather(attempts) == Failure(attempts[i].result.error)
  {
    assert attempts[..i + 1][..i] == attempts[..i];
    if attempts[i].result.Failure? {
      GatherStops(attempts, i + 1);
    }
  }

  /** A failure in a prefix is the failure of the whole. */
  lemma {:induction false} GatherStops(attempts: seq<Attempt>, n: nat)
    requires n <= |attempts| && Gather(attempts[..n]).Failure?
    ensures Gather(attempts) == Gather(attempts[..n])
    decreases |attempts| - n
  {
    if n < |attempts| {
      var init := attempts[..|attempts| - 1];
      assert init[..n] == attempts[..n];
      GatherStops(init, n);
    } else {
      assert attempts[..n] == attempts;
    }
  }

  /** `Object.keys(d).length ? d : undefined` */
  function NonEmpty<V>(d: map<string, V>): Option<map<string, V>>
  {
    if |d| > 0 then Some(d) else None
  }

  /** The pushed record: the dictionaries, each undefined when empty; since they share their
      keys, both are undefined together, exactly when there were no artifacts. */
  function Record(g: Gathered): Output
  {
    Output(NonEmpty(g.jsonData), NonEmpty(g.binaryData))
  }

  lemma RecordUndefinedTogether(attempts: seq<Attempt>)
    requires Gather(attempts).Success?
    ensures var r := Record(Gather(attempts).value);
      (r.json.None? <==> attempts == []) && (r.binary.None? <==> attempts == [])
  {
    var g := Gather(attempts).value;
    if attempts != [] {
      GatherKeys(attempts, attempts[0].name);
    } else {
      forall k ensures k !in g.jsonData && k !in g.binaryData {
        GatherKeys(attempts, k);
      }
    }
  }

  /** One item: submission, the wait, then the artifact loop on what the first terminal event
      named. The artifact URL takes the workflow name from the creation response, while the
      node's outputs are looked up under the name the event itself carries. With `asWritten`
      the artifacts are stored under the file names the source builds, otherwise under the
      corrected ones. */
  function Step(w: World, item: Item, asWritten: bool): StepOutcome<Output>
  {
    match w.post(PostRequest(AnonymousExecutionUri, Authorization(w), RequestBody(w, item)))
    case Failure(m) => Raised(RequestFailed(m))
    case Success(created) =>
      match w.watch(WatchRequest(WorkflowsPath, FieldSelector(created.id)))
      case Failure(m) => Raised(WatchFailed(m))
      case Success(events) =>
        match Await(events, IsTerminalPhase)
        case NeverCompletes => Blocked
        case Completed(ev, _) =>
          match Gather(Attempts(w, Uid(ev), created.id, OutputArtifactsOf(ev, Interpolate(WorkflowName(ev))), asWritten))
          case Failure(e) => Raised(e)
          case Success(g) => Produced(Record(g))
  }

  /** `Step` on the item alone, the world fixed. */
  function StepFor(w: World, asWritten: bool): Item -> StepOutcome<Output>
  {
    item => Step(w, item, asWritten)
  }

  /** One item, as `execute`'s loop body runs it. */
  method ExecuteItem(w: World, item: Item, asWritten: bool) returns (s: StepOutcome<Output>)
    ensures s == Step(w, item, asWritten)
  {
    var response := w.post(PostRequest(AnonymousExecutionUri, Authorization(w), RequestBody(w, item)));
    if response.Failure? {
      return Raised(RequestFailed(response.error));
    }
    var workflowName := response.value.id;
    var subscription := w.watch(WatchRequest(WorkflowsPath, FieldSelector(workflowName)));
    if subscription.Failure? {
      return Raised(WatchFailed(subscription.error));
    }
    var completion := AwaitCompletion(subscription.value, IsTerminalPhase);
    if completion.NeverCompletes? {
      return Blocked;
    }
    var workflowId := Uid(completion.event);
    var outputArtifacts := OutputArtifactsOf(completion.event, Interpolate(WorkflowName(completion.event)));
    var gathered := ResolveArtifacts(w, workflowId, workflowName, outputArtifacts, asWritten);
    if gathered.Failure? {
      return Raised(gathered.error);
    }
    s := Produced(Record(gathered.value));
  }

  lemma StepForAt(w: World, items: seq<Item>, i: nat, asWritten: bool)
    requires i < |items|
    ensures Outcomes(StepFor(w, asWritten), items)[i] == Step(w, items[i], asWritten)
  {
  }

  /** `execute`: the items one after another, each record appended in turn. */
  method Execute(w: World, items: seq<Item>, asWritten: bool) returns (o: RunOutcome<Output>)
    ensures o == Run(Outcomes(StepFor(w, asWritten), items))
  {
    ghost var steps := Outcomes(StepFor(w, asWritten), items);
    var returnData: seq<Output> := [];
    var i := 0;
    while i < |items|
      invariant 0 <= i <= |items|
      invariant Run(steps[..i]) == Returned(returnData)
    {
      var s := ExecuteItem(w, items[i], asWritten);
      StepForAt(w, items, i, asWritten);
      RunNext(steps, i);
      if !s.Produced? {
        return if s.Raised? then Threw(s.error) else NeverReturns;
      }
      returnData := returnData + [s.value];
      i := i + 1;
    }
    assert steps[..i] == steps;
    return Returned(returnData);
  }
}
