/** The TriggerExecution node. When its module loads it reads the local kubeconfig and picks a
    bearer token: the context named by `current-context`, that context's user, that user's token.
    Its `execute` then reads the task name from item 0 and the JSON arguments from item 1 and
    POSTs the arguments once, to the Rancher-proxied `executions` collection, returning the one
    reply. */
module TriggerExecution {
  import opened Wrappers
  import opened JsText
  import opened Seqs
  import opened ItemLoop
  import opened Requests

  /** A `contexts` entry: `{name, context: {user}}`. */
  datatype ContextRef = ContextRef(user: Option<string>)
  datatype NamedContext = NamedContext(name: Option<string>, context: Option<ContextRef>)

  /** A `users` entry: `{name, user: {token}}`. */
  datatype UserCredentials = UserCredentials(token: Option<string>)
  datatype NamedUser = NamedUser(name: Option<string>, user: Option<UserCredentials>)

  /** The parsed kubeconfig, each key possibly missing. */
  datatype KubeConfig = KubeConfig(currentContext: Option<string>, contexts: Option<seq<NamedContext>>, users: Option<seq<NamedUser>>)

  /** `===` on two possibly undefined names: two undefined names are equal. */
  function ContextNamed(name: Option<string>): NamedContext -> bool
  {
    (c: NamedContext) => c.name == name
  }

  function UserNamed(name: Option<string>): NamedUser -> bool
  {
    (u: NamedUser) => u.name == name
  }

  /** The module-level lookup: the token (itself possibly undefined), or the property read on
      `undefined` that throws when the list is missing, nothing matches, or the match lacks the
      nested object. */
  function LookupToken(kc: KubeConfig): (r: Result<Option<string>, string>)
  {
    match kc.contexts
    case None => Failure("kubeconfig.contexts")
    case Some(contexts) =>
      match FirstMatch(contexts, ContextNamed(kc.currentContext))
      case None => Failure("contexts.context")
      case Some(i) =>
        match contexts[i].context
        case None => Failure("contexts.context.user")
        case Some(ctx) =>
          match kc.users
          case None => Failure("kubeconfig.users")
          case Some(users) =>
            match FirstMatch(users, UserNamed(ctx.user))
            case None => Failure("user.user")
            case Some(j) =>
              match users[j].user
              case None => Failure("user.user.token")
              case Some(creds) => Success(creds.token)
  }

  /** The token comes from the first context named `current-context` and the first user named
      by that context, wherever later entries with the same names may be; and the lookup fails
      whenever no context or no user matches. */
  lemma LookupTokenIsFirstMatch(kc: KubeConfig)
    ensures LookupToken(kc).Success? ==>
      kc.contexts.Some? && kc.users.Some? &&
      exists i, j ::
        && 0 <= i < |kc.contexts.value| && kc.contexts.value[i].name == kc.currentContext
        && (forall i' :: 0 <= i' < i ==> kc.contexts.value[i'].name != kc.currentContext)
        && kc.contexts.value[i].context.Some?
        && 0 <= j < |kc.users.value| && kc.users.value[j].name == kc.contexts.value[i].context.value.user
        && (forall j' :: 0 <= j' < j ==> kc.users.value[j'].name != kc.contexts.value[i].context.value.user)
        && kc.users.value[j].user.Some?
        && LookupToken(kc).value == kc.users.value[j].user.value.token
    ensures kc.contexts.Some? && (forall i :: 0 <= i < |kc.contexts.value| ==> kc.contexts.value[i].name != kc.currentContext)
      ==> LookupToken(kc).Failure?
  {
    if LookupToken(kc).Success? {
      var contexts := kc.contexts.value;
      var i := FirstMatch(contexts, ContextNamed(kc.currentContext)).value;
      var users := kc.users.value;
      var j := FirstMatch(users, UserNamed(contexts[i].context.value.user)).value;
      assert forall i' :: 0 <= i' < i ==> !ContextNamed(kc.currentContext)(contexts[i']);
      assert forall j' :: 0 <= j' < j ==> !UserNamed(contexts[i].context.value.user)(users[j']);
    }
    if kc.contexts.Some? && forall i :: 0 <= i < |kc.contexts.value| ==> kc.contexts.value[i].name != kc.currentContext {
      assert forall i :: 0 <= i < |kc.contexts.value| ==> !ContextNamed(kc.currentContext)(kc.contexts.value[i]);
    }
  }

  /** A context with no user matching leaves the lookup failing too. */
  lemma LookupTokenNeedsUser(kc: KubeConfig, i: nat)
    requires kc.contexts.Some? && i < |kc.contexts.value| && kc.contexts.value[i].name == kc.currentContext
    requires forall i' :: 0 <= i' < i ==> kc.contexts.value[i'].name != kc.currentContext
    requires kc.contexts.value[i].context.Some? && kc.users.Some?
    requires forall j :: 0 <= j < |kc.users.value| ==> kc.users.value[j].name != kc.contexts.value[i].context.value.user
    ensures LookupToken(kc).Failure?
  {
    var f := FirstMatch(kc.contexts.value, ContextNamed(kc.currentContext));
    assert ContextNamed(kc.currentContext)(kc.contexts.value[i]);
    assert f == Some(i);
    var user := kc.contexts.value[i].context.value.user;
    assert forall j :: 0 <= j < |kc.users.value| ==> !UserNamed(user)(kc.users.value[j]);
  }

  const ExecutionsUri := "https://dev-cattle.netbase.com/k8s/clusters/c-zmfzb" + ExecutionsPath

  /** The one request: the parsed arguments POSTed as JSON under the bearer token. */
  datatype JsonPost = JsonPost(uri: string, authorization: Authorization, body: Json)

  /** The node's surroundings: the kubeconfig read at load time, the node parameters as
      resolved for an item index, `JSON.parse`, and the request helper. */
  datatype World = World(
    kubeconfig: KubeConfig,
    parameter: (string, nat) -> string,
    parse: string -> Result<Json, string>,
    post: JsonPost -> Result<Json, string>)

  /** `execute`, given the input items (which it never reads): one POST and a one-element result,
      or the error that stops it. A failing kubeconfig lookup stops the module from loading, so
      every call of the node throws it. */
  function Execute<I>(w: World, items: seq<I>): (o: RunOutcome<Json>)
    ensures o.Returned? ==> |o.data| == 1
    ensures LookupToken(w.kubeconfig).Failure? ==> o == Threw(KubeConfigFailed(LookupToken(w.kubeconfig).error))
  {
    match LookupToken(w.kubeconfig)
    case Failure(e) => Threw(KubeConfigFailed(e))
    case Success(token) =>
      var taskName := w.parameter("taskName", 0);
      match w.parse(w.parameter("arguments", 1))
      case Failure(m) => Threw(ParseFailed(m))
      case Success(body) =>
        match w.post(JsonPost(ExecutionsUri, Bearer(Interpolate(token)), body))
        case Failure(m) => Threw(RequestFailed(m))
        case Success(response) => Returned([response])
  }

  /** The request the node makes: to the fixed collection, under `Bearer <token>`, with the
      arguments read from item 1 as its body; the task name read from item 0 plays no part. */
  lemma ExecuteRequest<I>(w: World, items: seq<I>, token: Option<string>, body: Json)
    requires LookupToken(w.kubeconfig) == Success(token)
    requires w.parse(w.parameter("arguments", 1)) == Success(body)
    ensures Execute(w, items) == match w.post(JsonPost(ExecutionsUri, Bearer(Interpolate(token)), body))
      case Failure(m) => Threw(RequestFailed(m))
      case Success(response) => Returned([response])
  {
  }

  /** The number of items changes nothing: one POST for one item or for many. */
  lemma ExecuteIgnoresItems<I>(w: World, a: seq<I>, b: seq<I>)
    ensures Execute(w, a) == Execute(w, b)
  {
  }
}
