# n8n execution nodes, modelled in Dafny

This project models the core of a set of n8n nodes that submit workflow executions to a Canal
Flow / Argo cluster, wait for them to finish and turn their results into n8n items. It covers
seven nodes:

- **GPT** and **QuidQuestions** submit an anonymous execution and watch the Argo workflow until
  its phase is terminal. They then fetch the workflow's output artifacts. GPT catches and logs a
  failed fetch for each artifact on its own; as written it stores none of them, and corrected it
  keeps the ones that arrive (see Findings). QuidQuestions resolves each artifact's MIME type, file name and text
  (unpacking `.tgz` archives), and the first failure ends the run.
- **CreateTopic** builds a topic from an inline boolean query or from an uploaded file. It
  reports the workflow node's output parameters.
- **AcceptFileArtifact** creates an Execution custom object. It waits for that object's
  `Completed` condition and reports its output parameters.
- **TaskTemplate** creates one Execution per item and appends each reply. The first rejection
  is re-thrown.
- **UploadFileToOSS** uploads every binary property and records each one. When there are no
  records it answers with `No files uploaded`.
- **TriggerExecution** picks a bearer token from the kubeconfig (context, then user, then token).
  It then POSTs the parsed arguments once.

What the nodes share is defined once:

- the output-parameter normaliser (`OutputParameters`);
- the phase and condition classifiers and the completion wait (`Watcher`);
- the per-item loop, in which results come out in item order and a throw or an endless wait stops
  everything after it (`ItemLoop`);
- request bodies, authorization headers, the Execution object and the re-thrown error message
  (`Requests`);
- the uploads (`Uploads`);
- the two artifact-metadata readers (`ContentType`, `ContentDisposition`);
- the archive text (`Archive`).

The services a node calls are parameters of its `World`: the HTTP request helper, the watch, the
Kubernetes create call, object-storage uploads, `JSON.parse`, and the untar and decode steps. A
watch is the finite list of events it delivers. A list that ends without a terminal event makes
the node wait forever (`Blocked`, `NeverReturns`).

Each loop in the source is a `method` with a `while` loop, proved equal to a function that
specifies it:

- the item loop of every `execute`;
- the wait on the `isCompleted` flag;
- GPT's and QuidQuestions' artifact loops;
- `extractTgzBuffer`'s chunk accumulation;
- the two nested loops of UploadFileToOSS.

The lemmas about those functions state what the source promises.

Only GPT catches a failed artifact fetch. QuidQuestions has no error handling in its artifact
loop, so one failed fetch or unpacking ends the whole `execute`
(`QuidQuestions.GatherFailsAtFirstFailure`).

Three defects of the source are listed under Findings, and each is modelled both as written and
corrected. `Gpt.Execute` and `AcceptFileArtifact.Execute` run the corrected node; the as-written
node is `Gpt.StepAsWritten` and `AcceptFileArtifact.ExecuteAsWritten`, with lemmas saying where the
two differ. The QuidQuestions members take a flag `asWritten`: set, they store an artifact under
the file name line 339 builds; clear, under the corrected name.

## Model

| member | source | states |
|---|---|---|
| OutputParameters.Normalize | nodes/GPT/GPT.node.ts:59-72 | the keys are exactly the input names, and each entry is `{name, value}` with `name` equal to its key |
| OutputParameters.NormalizeValueFromInput | nodes/GPT/GPT.node.ts:59-72 | every entry's value is the value of some input entry with that name |
| OutputParameters.NormalizeLastWins | nodes/GPT/GPT.node.ts:59-72 | the entry for a name is the value of the last input entry with that name |
| OutputParameters.NormalizeAppend | nodes/GPT/GPT.node.ts:59-72 | normalising a concatenation is the first result overridden by the second |
| OutputParameters.NormalizeDistinctNames | nodes/GPT/GPT.node.ts:59-72 | with distinct names there is one entry per input, carrying exactly that input's name and value |
| OutputParameters.NormalizeIdempotent | nodes/GPT/GPT.node.ts:59-72 | re-listing a normalised result and normalising again gives the same result |
| OutputParameters.TransformOutputParameters | nodes/CreateTopic/CreateTopic.node.ts:65-78 | undefined exactly for an absent list, `{}` for an empty list, otherwise keyed by the names |
| ContentType.GetFileExtension | nodes/GPT/GPT.node.ts:75-85 | the table: `.txt`, `.json`, `.pdf`, `.jpg`, `.png` for `text/plain`, `application/json`, `application/pdf`, `image/jpeg`, `image/png`; `''` for every other type |
| ContentType.FileExtensionInjective | nodes/GPT/GPT.node.ts:75-85 | two listed MIME types never share an extension |
| ContentType.GptContentType | nodes/GPT/GPT.node.ts:349 | the header when present and non-empty, otherwise `application/octet-stream`; never empty |
| ContentType.GptFileName | nodes/GPT/GPT.node.ts:357-361 | the artifact name followed by the extension of the content type; just the name without a header |
| ContentType.ResolveMimeType | nodes/QuidQuestions/QuidQuestions.node.ts:327-334 | first match wins: `markdown`, then `html`, then `raw-result` in the name, otherwise the header or `application/octet-stream` |
| ContentType.ResolvedMimeTypeSource | nodes/QuidQuestions/QuidQuestions.node.ts:327-334 | never empty; the header is irrelevant whenever the name carries a hint |
| ContentType.DeclaredOutputMimeTypes | nodes/QuidQuestions/QuidQuestions.node.ts:180-193 | the three declared outputs resolve to JSON, Markdown and HTML whatever the header |
| ContentDisposition.CloseAt | nodes/QuidQuestions/QuidQuestions.node.ts:337 | the greedy `(.+)"` from a start: the last quote on the same line, or none |
| ContentDisposition.SearchFrom | nodes/QuidQuestions/QuidQuestions.node.ts:337 | the leftmost start at which the regular expression matches |
| ContentDisposition.FilenameMatchIsFirstMatch | nodes/QuidQuestions/QuidQuestions.node.ts:337 | no match exactly when no start matches; otherwise the capture of the leftmost, greedy match, never empty |
| ContentDisposition.LastSegment | nodes/QuidQuestions/QuidQuestions.node.ts:338 | `split('.').pop()`: the suffix after the last dot, holding no dot, preceded by a dot when shorter than the name |
| ContentDisposition.FileNameAsWrittenAppendsUndefined | nodes/QuidQuestions/QuidQuestions.node.ts:339 | as written, a name without a matching header becomes the name followed by `undefined` |
| ContentDisposition.FileName | nodes/QuidQuestions/QuidQuestions.node.ts:336-339 | the captured file name when the header matches, otherwise the artifact's name |
| ContentDisposition.FileNameAgreesWhenMatched | nodes/QuidQuestions/QuidQuestions.node.ts:339 | the written and the corrected file names agree on a match and differ by `undefined` otherwise |
| Archive.ExtractTgz | nodes/QuidQuestions/QuidQuestions.node.ts:28-51 | the accumulated `fileContent` is every chunk of every entry decoded and joined in order, or the archive's error |
| Archive.ArchiveTextAppend | nodes/QuidQuestions/QuidQuestions.node.ts:38-42 | joining leaves no mark at entry boundaries: the text of two archives back to back is the first text plus the second |
| Archive.ArchiveTextSplit | nodes/QuidQuestions/QuidQuestions.node.ts:38-42 | the text splits at any entry into the text before and the text from there on |
| Archive.SingleEntryArchive | nodes/QuidQuestions/QuidQuestions.node.ts:38-42 | a one-chunk archive yields that chunk's text |
| Watcher.IsTerminalPhase | nodes/GPT/GPT.node.ts:307-312 | terminal exactly for `Succeeded`, `Failed` and `Error`; a missing phase, `Pending` and `Running` are not |
| Watcher.IsExecutionCompleted | nodes/AcceptFileArtifact/AcceptFileArtifact.node.ts:247-251 | completed exactly when the first `Completed` condition has the string status `'true'` |
| Watcher.Await | nodes/CreateTopic/CreateTopic.node.ts:314-357 | never completes exactly when no event is terminal; otherwise completes on the first terminal event, having observed it and all events before it |
| Watcher.AwaitIgnoresLaterEvents | nodes/CreateTopic/CreateTopic.node.ts:344 | after the abort, events arriving later change nothing |
| Watcher.AwaitCompletion | nodes/CreateTopic/CreateTopic.node.ts:324-357 | the flag reassigned per event and the wait loop come to `Await` |
| ItemLoop.RunReturnsOnePerItem | nodes/CreateTopic/CreateTopic.node.ts:157-360 | `execute` returns exactly when every item produced, and then one result per item in item order |
| ItemLoop.RunStaysStopped | nodes/TaskTemplate/TaskTemplate.node.ts:104-141 | once the loop has thrown or hangs, later items change nothing |
| ItemLoop.RunStopsAtFirstFailure | nodes/TaskTemplate/TaskTemplate.node.ts:135-141 | the first item that fails decides: its error is thrown, or the node hangs |
| Uploads.SameKeyUploads | nodes/CreateTopic/CreateTopic.node.ts:170-178 | one upload per binary property, all under the same object key |
| Uploads.PerformUploads | nodes/CreateTopic/CreateTopic.node.ts:170-178 | the awaited uploads stop at the first one that throws, and its index is returned |
| Requests.BasicAuthRoundTrip | nodes/CreateTopic/CreateTopic.node.ts:287-289 | the Basic credentials split back into the user and the password when the user has no colon |
| Requests.ExecutionFor | nodes/AcceptFileArtifact/AcceptFileArtifact.node.ts:185-206 | the fixed apiVersion, kind, namespace, empty labels and 7200-second deadline, around the given name, task and arguments |
| Requests.CreateExecutionCall | nodes/TaskTemplate/TaskTemplate.node.ts:126-132 | group `netbasequid.canalflow`, version `v1`, namespace `canal-flow`, plural `executions` |
| Requests.K8sErrorMessageParts | nodes/AcceptFileArtifact/AcceptFileArtifact.node.ts:217-225 | the re-thrown text opens with `K8s API Error: ` and the error's message on a line of their own, and ends with the body |
| Gpt.ItemUploads | nodes/GPT/GPT.node.ts:147-161 | one upload per binary property under its file name or `default-name`, and none without a binary object |
| Gpt.RequestBody | nodes/GPT/GPT.node.ts:163-262 | two parallel downloads of the item's prompt files, then the `gpt-chat` completion step `WORKFLOW_TEMPLATE.quid-questions.main-gpt[completion]` reading `system-prompt` and `user-prompt` from the downloads' `result`, with outputs `message` and `response` |
| Gpt.ArtifactUri | nodes/GPT/GPT.node.ts:335 | the fixed prefix, `/execution/`, the workflow uid, `/artifact/`, then the artifact name |
| Gpt.Fetch | nodes/GPT/GPT.node.ts:334-363 | with the full response, an entry is stored exactly when the GET succeeds, and it holds the body under the derived file name |
| Gpt.StoreKeys | nodes/GPT/GPT.node.ts:333-365 | the stored keys are exactly the names of the artifacts whose attempt stored something |
| Gpt.StoreLastWins | nodes/GPT/GPT.node.ts:333-365 | each key holds the last successful attempt under that name |
| Gpt.CollectedIsSuccessfulFetches | nodes/GPT/GPT.node.ts:333-365 | each fetch stands alone: `binaryData` holds exactly the successfully fetched artifacts, each from its last success |
| Gpt.AsWrittenStoresNothing | nodes/GPT/GPT.node.ts:338-349 | as written, the header read on a body-only response throws for every artifact, so nothing is stored |
| Gpt.CollectArtifacts | nodes/GPT/GPT.node.ts:333-365 | the loop with its per-artifact try/catch comes to `Collected` |
| Gpt.Record | nodes/GPT/GPT.node.ts:367-370 | `json` is always defined and keyed by the parameter names; `binary` is undefined exactly when nothing was collected |
| Gpt.AsWrittenNeverHasBinary | nodes/GPT/GPT.node.ts:338-370 | as written, a pushed record never carries binary data |
| Gpt.StepReportsFirstTerminalEvent | nodes/GPT/GPT.node.ts:298-372 | an item whose watch delivers a terminal event produces exactly the record of the first such event |
| Gpt.ExecuteItem | nodes/GPT/GPT.node.ts:138-386 | uploads, submission, watch and artifact loop come to the item's specified outcome |
| Gpt.Execute | nodes/GPT/GPT.node.ts:132-389 | the item loop comes to `Run` over the items' outcomes |
| QuidQuestions.RequestBody | nodes/QuidQuestions/QuidQuestions.node.ts:169-225 | one `ask` step with three parameters, the second the prompt and the third the assistant key; the three declared output artifacts in order |
| QuidQuestions.ArtifactUri | nodes/QuidQuestions/QuidQuestions.node.ts:311 | the fixed prefix, the uid, the creation response's workflow name, then the artifact name |
| QuidQuestions.ResolveResponse | nodes/QuidQuestions/QuidQuestions.node.ts:327-354 | the stored entry holds the raw body, never the unpacked text, under the resolved MIME type and under the file name as written or corrected; the text is unpacked exactly for `tgz` |
| QuidQuestions.AsWrittenStoresUndefinedName | nodes/QuidQuestions/QuidQuestions.node.ts:336-352 | as written, a response whose header names no file is stored as the artifact name followed by `undefined`; corrected, as the artifact name |
| QuidQuestions.AsWrittenDiffersOnlyInFileName | nodes/QuidQuestions/QuidQuestions.node.ts:311-354 | the written and the corrected node fail alike on every artifact, and agree on its text, bytes and MIME type |
| QuidQuestions.GatherFailsAtFirstFailure | nodes/QuidQuestions/QuidQuestions.node.ts:310-355 | the loop fails exactly when some artifact fails, and then with the first one's error |
| QuidQuestions.GatherStops | nodes/QuidQuestions/QuidQuestions.node.ts:310-355 | once an artifact has failed, the later artifacts change nothing |
| QuidQuestions.GatherKeys | nodes/QuidQuestions/QuidQuestions.node.ts:342-354 | `jsonData` and `binaryData` have the same keys, the artifact names |
| QuidQuestions.GatherLastWins | nodes/QuidQuestions/QuidQuestions.node.ts:342-354 | each key holds the text and entry of the last artifact with that name |
| QuidQuestions.ResolveArtifact | nodes/QuidQuestions/QuidQuestions.node.ts:311-354 | the loop body on one artifact, through `ExtractTgz` for a `.tgz`, comes to `Resolve` |
| QuidQuestions.ResolveArtifacts | nodes/QuidQuestions/QuidQuestions.node.ts:310-355 | the artifact loop comes to `Gather` over the artifacts' attempts |
| QuidQuestions.RecordUndefinedTogether | nodes/QuidQuestions/QuidQuestions.node.ts:359-362 | `json` and `binary` are undefined together, exactly when no artifact was written |
| QuidQuestions.ExecuteItem | nodes/QuidQuestions/QuidQuestions.node.ts:163-365 | submission, wait and artifact loop come to the item's specified outcome, as written or corrected |
| QuidQuestions.Execute | nodes/QuidQuestions/QuidQuestions.node.ts:157-369 | the item loop comes to `Run` over the items' outcomes, as written or corrected |
| CreateTopic.SelectInputs | nodes/CreateTopic/CreateTopic.node.ts:160-164 | in file mode the file name and `''`, otherwise `''` and the boolean query |
| CreateTopic.SelectInputsReadsOne | nodes/CreateTopic/CreateTopic.node.ts:160-164 | the parameter the mode does not read has no effect on the inputs or on the request body |
| CreateTopic.ItemUploads | nodes/CreateTopic/CreateTopic.node.ts:167-180 | uploads only in file mode with binary data, one per property, all under `fileName` |
| CreateTopic.BooleanQueryArtifact | nodes/CreateTopic/CreateTopic.node.ts:262-276 | named `booleanQuery`; a reference exactly in file mode, otherwise the query inline |
| CreateTopic.RequestBody | nodes/CreateTopic/CreateTopic.node.ts:187-281 | the download of `fileName`; the topic step with exactly `userEmail` and then `name`, and the single query artifact; outputs `topicId` and `topicUrl` |
| CreateTopic.StepOutputShape | nodes/CreateTopic/CreateTopic.node.ts:332-345 | the pushed value comes from a terminal event, and is undefined exactly when the node reported no parameters |
| CreateTopic.NoTerminalEventBlocks | nodes/CreateTopic/CreateTopic.node.ts:347-357 | a stream with no terminal phase leaves the item waiting forever |
| CreateTopic.ExecuteItem | nodes/CreateTopic/CreateTopic.node.ts:157-358 | uploads, submission and wait come to the item's specified outcome |
| CreateTopic.Execute | nodes/CreateTopic/CreateTopic.node.ts:153-361 | the item loop comes to `Run` over the items' outcomes |
| AcceptFileArtifact.ItemUploads | nodes/AcceptFileArtifact/AcceptFileArtifact.node.ts:162-183 | uploads only when asked to and when there is binary data, all under `fileName` |
| AcceptFileArtifact.ExecutionOf | nodes/AcceptFileArtifact/AcceptFileArtifact.node.ts:185-206 | the item's task on the single `fileName` parameter, schema validation skipped, deadline 7200, namespace `canal-flow` |
| AcceptFileArtifact.CreateFailureIsRethrown | nodes/AcceptFileArtifact/AcceptFileArtifact.node.ts:209-225 | a rejected create ends the item with the formatted `K8s API Error` message |
| AcceptFileArtifact.StepWatchesCreatedExecution | nodes/AcceptFileArtifact/AcceptFileArtifact.node.ts:227-259 | the watch selects the created name, and the item reports the parameters of the first completed event |
| AcceptFileArtifact.BinaryIgnoredOutsideFileMode | nodes/AcceptFileArtifact/AcceptFileArtifact.node.ts:157-183 | outside file mode an item's binary data changes nothing |
| AcceptFileArtifact.AsWrittenThrowsWithoutBinary | nodes/AcceptFileArtifact/AcceptFileArtifact.node.ts:153 | as written, `execute` throws on no items or on a first item without binary data, even outside file mode |
| AcceptFileArtifact.AsWrittenAgreesWithBinary | nodes/AcceptFileArtifact/AcceptFileArtifact.node.ts:153-155 | apart from the debug log, the written and the corrected node agree |
| AcceptFileArtifact.ExecuteItem | nodes/AcceptFileArtifact/AcceptFileArtifact.node.ts:156-272 | uploads, create, name lookup and wait come to the item's specified outcome |
| AcceptFileArtifact.Execute | nodes/AcceptFileArtifact/AcceptFileArtifact.node.ts:155-275 | the item loop, without the debug log, comes to `Run` over the items' outcomes |
| TaskTemplate.TaskArgsShape | nodes/TaskTemplate/TaskTemplate.node.ts:16-64 | the default arguments: six parameters in the listed order and one inline artifact `test-artifact` holding `test` |
| TaskTemplate.DefaultArgumentsSubmitted | nodes/TaskTemplate/TaskTemplate.node.ts:92-122 | an item left at the default `arguments`, once parsed back, creates its task on the sample arguments with their six parameters |
| TaskTemplate.ExecutionOf | nodes/TaskTemplate/TaskTemplate.node.ts:109-123 | the item's task on its parsed arguments, schema validation on, deadline 7200, namespace `canal-flow` |
| TaskTemplate.CallOf | nodes/TaskTemplate/TaskTemplate.node.ts:109-132 | one create call exactly when the arguments parse, to `executions`, with the item's task and arguments |
| TaskTemplate.SubmittedStopsAtFailure | nodes/TaskTemplate/TaskTemplate.node.ts:133-141 | no create is made for the items after the first failing one |
| TaskTemplate.SubmittedOnePerItem | nodes/TaskTemplate/TaskTemplate.node.ts:104-134 | when all succeed, one call per item in item order, and as many replies |
| TaskTemplate.Execute | nodes/TaskTemplate/TaskTemplate.node.ts:100-144 | the loop comes to `Run` over the items' outcomes, and the calls it makes are `Submitted` |
| UploadFileToOss.ItemPlan | nodes/UploadFileToOSS/UploadFileToOSS.node.ts:109-121 | no uploads without a non-empty binary object; otherwise one per property, under its own file name, in property order |
| UploadFileToOss.PlanAppend | nodes/UploadFileToOSS/UploadFileToOSS.node.ts:107-126 | the uploads of two runs of items back to back are the first run's followed by the second's |
| UploadFileToOss.PlanPosition | nodes/UploadFileToOSS/UploadFileToOSS.node.ts:107-124 | uploads follow item order, and property order within an item |
| UploadFileToOss.PlanEmptyIff | nodes/UploadFileToOSS/UploadFileToOSS.node.ts:107-110 | nothing is uploaded exactly when no item has a non-empty binary object |
| UploadFileToOss.FallbackIffNoFiles | nodes/UploadFileToOSS/UploadFileToOSS.node.ts:128-131 | the answer is never empty, and it is the single `No files uploaded` message exactly when no item had files |
| UploadFileToOss.RecordForEachProperty | nodes/UploadFileToOSS/UploadFileToOSS.node.ts:112-124 | each binary property gets its `{fileName, success: true}` record at its place in item and property order |
| UploadFileToOss.FirstFailure | nodes/UploadFileToOSS/UploadFileToOSS.node.ts:116-123 | the first upload that throws is what the node throws, and no answer is returned |
| UploadFileToOss.UploadProperties | nodes/UploadFileToOSS/UploadFileToOSS.node.ts:112-124 | the inner loop stops at the first property whose upload throws, with `returnData` holding the records of every earlier one; otherwise it has recorded them all |
| UploadFileToOss.Execute | nodes/UploadFileToOSS/UploadFileToOSS.node.ts:103-133 | the two loops, each record pushed after its upload returns, come to `Outcome` |
| Seqs.FirstMatch | nodes/TriggerExecution/TriggerExecution.node.ts:31-35 | `find`: the first element satisfying the test, every earlier one failing it, and none exactly when no element passes |
| TriggerExecution.LookupTokenIsFirstMatch | nodes/TriggerExecution/TriggerExecution.node.ts:29-36 | the token comes from the first context named `current-context` and the first user named by it; no matching context means failure |
| TriggerExecution.LookupTokenNeedsUser | nodes/TriggerExecution/TriggerExecution.node.ts:35-36 | no user matching the context's user means failure |
| TriggerExecution.Execute | nodes/TriggerExecution/TriggerExecution.node.ts:58-101 | at most one result; a failed kubeconfig lookup makes every call throw |
| TriggerExecution.ExecuteRequest | nodes/TriggerExecution/TriggerExecution.node.ts:62-97 | one POST to the fixed collection under `Bearer <token>`, whose body is the arguments read from item 1; its reply is the only result |
| TriggerExecution.ExecuteIgnoresItems | nodes/TriggerExecution/TriggerExecution.node.ts:60-101 | the number of input items makes no difference |

## Left out

- Concurrency and timing are left out. This covers the 2-second polling, the wait loop having no timeout, and callbacks interleaving with the wait. Completion is modelled as one sequential pass over the events.
- GPT's async watch callback is left out too. It sets `isCompleted` before its own artifact fetches finish, so the next item can start first, and `execute` can return before the record is pushed. This race is not modelled: the record is pushed before the next item. The callback also calls `req.abort()` only after those fetches finish (line 372). A second terminal event that arrives in that window runs the callback again and pushes a second record for the same item. The model pushes one record per item.
- The gzip and tar decoding inside `extractTgzBuffer` are not modelled. The decoded archive is given as its entries' chunks. The gzip stream has no error listener. An error there is thrown outside the promise, so `extractTgzBuffer` never settles and the process sees an uncaught exception. The model turns it into a rejection of the item instead. `tar.x` also writes the archive's entries into the working directory, and that write is not modelled.
- Base64 is left out. The Basic header keeps the un-encoded `user:password`.
- `JSON.parse`, `JSON.stringify`, `yaml.load` and reading the kubeconfig file are not modelled. Parsing is a parameter of the world. A `JSON.stringify` rendering is given as text.
- Foreign calls are opaque parameters that return a value or fail. They are:
  - object-storage uploads;
  - the HTTP request helper;
  - the Kubernetes watch and create calls.
- `prepareBinaryData` and `returnJsonArray` are plain records: they hold data, file name and MIME type, or wrap a list.
- JavaScript object key order is not modelled: objects are maps. The order of an item's binary properties is kept as a sequence.
- OutputParameters.Normalize: parameter names are taken to be strings. An undefined name would become the key `undefined`.
- ContentType.GetFileExtension: the result on inherited object keys is not modelled. For example, `constructor` looks up a prototype member. Only plain MIME strings are modelled.
- Bytes are decoded chunk by chunk through an opaque `decode`. A multi-byte UTF-8 character split across chunks is not modelled.
- `getCredentials` is assumed to succeed. Credentials are fixed strings of the world, as their schemas declare them, and a failed retrieval is not modelled.
- TriggerExecution.ExecuteRequest: the request record has no headers field, so the constant `Accept: application/json` header (TriggerExecution.node.ts:87) is not modelled. `parameter` never fails, so reading `arguments` at item index 1 (line 63) when only one input item exists is not modelled as a possible error.
- AcceptFileArtifact.ExecutionName: only a reply without `metadata` is modelled as throwing. A reply without `body` is not modelled.
- Node descriptions, log output and the declarative nodes ADeal, CityWeather and GetArtifact are not part of this model. Neither are the credential schemas.

## Findings

| source | as written | input that shows it | evidently intended | confidence | as-written member | corrected member |
|---|---|---|---|---|---|---|
| nodes/QuidQuestions/QuidQuestions.node.ts:339 | without a `filename="..."` match, the file name is the artifact name followed by the template text of an undefined extension | an artifact `answer-html` served with no `content-disposition` is stored as `answer-htmlundefined` | fall back to the artifact's own name | not executed; high | ContentDisposition.FileNameAsWritten, ContentDisposition.FileNameAsWrittenAppendsUndefined, QuidQuestions.AsWrittenStoresUndefinedName | ContentDisposition.FileName, ContentDisposition.FileNameAgreesWhenMatched, QuidQuestions.AsWrittenDiffersOnlyInFileName |
| nodes/AcceptFileArtifact/AcceptFileArtifact.node.ts:153 | a debug log reads `items[0].binary.data` before the loop | a single JSON-only item with `useFileAsInput` off throws a TypeError, although binary data is never used in that mode | logging that cannot fail the node | not executed; high | AcceptFileArtifact.ExecuteAsWritten, AcceptFileArtifact.AsWrittenThrowsWithoutBinary | AcceptFileArtifact.Execute, AcceptFileArtifact.BinaryIgnoredOutsideFileMode |
| nodes/GPT/GPT.node.ts:338-349 | the artifact GET does not ask for the full response, yet its `headers` are read; the TypeError is swallowed by the per-artifact `catch` | any completed workflow with an artifact `message`: the body arrives, `response.headers` is undefined, and the record's `binary` is undefined | ask for the full response, as QuidQuestions does, and store each fetched artifact | not executed; medium, since it depends on the request helper returning only the body by default | Gpt.StepAsWritten, Gpt.AsWrittenNeverHasBinary | Gpt.Step, Gpt.CollectedIsSuccessfulFetches |
