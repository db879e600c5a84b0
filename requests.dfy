/** What the nodes send: anonymous-execution request bodies, Execution custom objects and the
    create call that submits them, authorization headers, watch requests, artifact GETs,
    artifact responses, and the message a failed create is re-thrown with. */
module Requests {
  import opened Wrappers
  import opened JsText

  /** An artifact of a request: inline content (`raw.data`) or a reference to another step's
      output (`from`). The two alternatives make "never both" a matter of type. */
  datatype ArtifactSource = Inline(data: string) | Reference(from: string)

  datatype Artifact = Artifact(name: string, source: ArtifactSource)

  datatype Parameter = Parameter(name: string, value: Json)

  /** `arguments` of a step, or `inputs` of an execution; either list may be left out. */
  datatype Arguments = Arguments(parameters: Option<seq<Parameter>>, artifacts: Option<seq<Artifact>>)

  datatype WorkflowStep = WorkflowStep(name: string, task: string, arguments: Arguments)

  /** A declared output parameter: `{name, type, valueFrom: {parameter}}`. */
  datatype OutputDecl = OutputDecl(name: string, valueType: string, valueFrom: string)

  datatype Outputs = Outputs(parameters: Option<seq<OutputDecl>>, artifacts: seq<Artifact>)

  /** The body of an anonymous-execution POST: a workflow of parallel groups of steps. */
  datatype AnonymousExecution = AnonymousExecution(
    workspace: string, name: string, description: string, gitRepo: string, retryConfig: string,
    inputs: Arguments, outputs: Outputs, steps: seq<seq<WorkflowStep>>)

  /** An Authorization header. `Basic` keeps the text before base64 encoding (`user:password`);
      the encoding itself is not modelled. `Bearer` is sent as `Bearer <token>`. */
  datatype Authorization = Basic(userPass: string) | Bearer(token: string)

  /** `Basic ${base64(`${user}:${password}`)}` */
  function BasicAuth(user: string, password: string): Authorization
  {
    Basic(user + ":" + password)
  }

  /** The credentials in front of the first `:`, that is, the user part and the password part. */
  function SplitUserPass(userPass: string): (string, string)
  {
    if ':' in userPass then
      var i := IndexOf(userPass, ':');
      (userPass[..i], userPass[i + 1..])
    else (userPass, "")
  }

  function IndexOf(s: string, c: char): (i: nat)
    requires c in s
    ensures i < |s| && s[i] == c && c !in s[..i]
  {
    if s[0] == c then 0 else 1 + IndexOf(s[1..], c)
  }

  /** A Basic header gives back the user and the password it was built from, as long as the user
      has no colon (which the Basic scheme does not allow in a user-id). */
  lemma {:induction false} BasicAuthRoundTrip(user: string, password: string)
    requires ':' !in user
    ensures BasicAuth(user, password).Basic?
    ensures SplitUserPass(BasicAuth(user, password).userPass) == (user, password)
  {
    var s := user + ":" + password;
    assert s[|user|] == ':';
    assert s[..|user|] == user;
    var i := IndexOf(s, ':');
    assert i == |user|;
    assert s[i + 1..] == password;
  }

  const CanalFlowApi := "https://canal-flow-api.dev-spark.ali-netbase.com"

  const AnonymousExecutionUri := CanalFlowApi + "/workspace/marshall/anonymous/execution"

  /** A JSON POST with `Accept` and `Content-Type` set to `application/json`. */
  datatype PostRequest = PostRequest(uri: string, authorization: Authorization, body: AnonymousExecution)

  /** The reply to an anonymous-execution POST: `{id, workflowUid}`. */
  datatype CreationResponse = CreationResponse(id: Option<string>, workflowUid: Option<string>)

  /** A watch subscription: the collection path and its field selector. */
  datatype WatchRequest = WatchRequest(path: string, fieldSelector: string)

  const WorkflowsPath := "/apis/argoproj.io/v1alpha1/namespaces/canal-flow/workflows"

  const ExecutionsPath := "/apis/netbasequid.canalflow/v1/namespaces/canal-flow/executions"

  /** `metadata.name=${name}` */
  function FieldSelector(name: Option<string>): string
  {
    "metadata.name=" + Interpolate(name)
  }

  /** An artifact GET. `fullResponse` is whether the request asks for the whole response
      (`resolveWithFullResponse: true`) rather than the body alone. */
  datatype ArtifactGet = ArtifactGet(uri: string, authorization: Authorization, fullResponse: bool)

  /** The full response of an artifact GET: its two headers of interest and its body. */
  datatype HttpResponse = HttpResponse(contentType: Option<string>, contentDisposition: Option<string>, body: Bytes)

  /** What `prepareBinaryData` records: the content, the file name and the MIME type. */
  datatype BinaryEntry = BinaryEntry(data: Bytes, fileName: string, mimeType: string)

  /** The `storageConfig` value of a download step: the S3 location of `key`. */
  function StorageConfig(key: string): Json
  {
    JObj(map[
      "s3" := JObj(map[
        "endpoint" := JStr("oss-us-east-1.aliyuncs.com"),
        "bucket" := JStr("workbench-artifacts"),
        "key" := JStr(key),
        "region" := JStr("us-east-1"),
        "insecure" := JBool(false),
        "accessKeySecret" := SecretRef("ACCESS_KEY_ID"),
        "secretKeySecret" := SecretRef("SECRET_ACCESS_KEY")])])
  }

  function SecretRef(key: string): Json
  {
    JObj(map["name" := JStr("automate-oss-service-account-access-key"), "key" := JStr(key)])
  }

  /** A step that downloads object `key` from storage into its `result` artifact. */
  function DownloadStep(name: string, key: string): WorkflowStep
  {
    WorkflowStep(name, "WORKFLOW_TEMPLATE.canal-flow.cloud-storage-transferrer[download]",
      Arguments(Some([Parameter("storageConfig", StorageConfig(key))]), None))
  }

  /** An artifact taken from an output of an earlier step. */
  function StepOutput(name: string, step: string, artifact: string): Artifact
  {
    Artifact(name, Reference("{{ steps." + step + ".outputs.artifacts." + artifact + " }}"))
  }

  /** The fixed frame of every anonymous execution: workspace `marshall`, no inputs. */
  function AnonymousWorkflow(name: string, outputs: Outputs, steps: seq<seq<WorkflowStep>>): AnonymousExecution
  {
    AnonymousExecution("marshall", name, "", "", "DEFAULT", Arguments(Some([]), Some([])), outputs, steps)
  }

  /** An Execution custom object (`apiVersion: netbasequid.canalflow/v1`, `kind: Execution`),
      with its metadata and its spec. */
  datatype ExecutionObject = ExecutionObject(
    apiVersion: string, kind: string, namespace: string, labels: map<string, string>, generateName: string,
    task: string, arguments: Json, ignoreSchemaValidation: bool, activeDeadlineSeconds: nat)

  /** The Execution objects both nodes build, which differ only in generated name, arguments and
      whether schema validation is skipped. */
  function ExecutionFor(generateName: string, task: string, arguments: Json, ignoreSchemaValidation: bool): (e: ExecutionObject)
    ensures e.apiVersion == "netbasequid.canalflow/v1" && e.kind == "Execution"
    ensures e.namespace == "canal-flow" && e.labels == map[] && e.activeDeadlineSeconds == 7200
    ensures e.generateName == generateName && e.task == task && e.arguments == arguments
    ensures e.ignoreSchemaValidation == ignoreSchemaValidation
  {
    ExecutionObject("netbasequid.canalflow/v1", "Execution", "canal-flow", map[], generateName,
      task, arguments, ignoreSchemaValidation, 7200)
  }

  /** `createNamespacedCustomObject(group, version, namespace, plural, body)` */
  datatype CreateCall = CreateCall(group: string, version: string, namespace: string, plural: string, body: ExecutionObject)

  /** Every create targets the `executions` of group `netbasequid.canalflow`, version `v1`, in
      namespace `canal-flow`. */
  function CreateExecutionCall(body: ExecutionObject): (call: CreateCall)
    ensures call.group == "netbasequid.canalflow" && call.version == "v1"
    ensures call.namespace == "canal-flow" && call.plural == "executions"
    ensures call.body == body
  {
    CreateCall("netbasequid.canalflow", "v1", "canal-flow", "executions", body)
  }

  /** `metadata` of a created object: its generated `name`. */
  datatype ObjectMeta = ObjectMeta(name: Option<string>)

  /** The create's reply: `body.metadata`, possibly absent, and the reply as a whole. */
  datatype CreateResponse = CreateResponse(metadata: Option<ObjectMeta>, reply: Json)

  /** A rejected create: the error's `message` and `status`, and its `body` as `JSON.stringify`
      with two-space indentation renders it (None when the body is undefined). */
  datatype ApiFailure = ApiFailure(message: Option<string>, status: Option<string>, body: Option<string>)

  /** `K8s API Error: ${message}\nStatus: ${status}\nBody: ${JSON.stringify(body, null, 2)}` */
  function K8sErrorMessage(e: ApiFailure): string
  {
    "K8s API Error: " + Interpolate(e.message) + "\nStatus: " + Interpolate(e.status) + "\nBody: " + Interpolate(e.body)
  }

  /** The text up to the first line break. */
  function FirstLine(s: string): string
  {
    if '\n' in s then s[..IndexOf(s, '\n')] else s
  }

  /** The error's own message heads the re-thrown text on a line of its own, and the response
      body closes it verbatim. */
  lemma K8sErrorMessageParts(e: ApiFailure)
    requires '\n' !in Interpolate(e.message)
    ensures FirstLine(K8sErrorMessage(e)) == "K8s API Error: " + Interpolate(e.message)
    ensures var m := K8sErrorMessage(e); var b := Interpolate(e.body);
      |b| <= |m| && m[|m| - |b|..] == b && m[..15] == "K8s API Error: "
  {
    var m := K8sErrorMessage(e);
    var head := "K8s API Error: " + Interpolate(e.message);
    assert m == head + ("\nStatus: " + Interpolate(e.status) + "\nBody: " + Interpolate(e.body));
    assert '\n' !in head;
    assert m[|head|] == '\n';
    var i := IndexOf(m, '\n');
    assert i == |head|;
    assert m[..i] == head;
  }
}
