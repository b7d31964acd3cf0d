/**
 * The upload endpoint: a one-time upload token authorizes one attempt to
 * attach content to a resource. The attempt runs a fixed sequence of checks
 * and collaborator calls, and every way it can fail ends in its own HTTP
 * status. `Execute` states that sequence as a decision procedure.
 * `ExecuteAction` carries it out step by step on a mutable resource and token
 * store and is proved to agree with `Execute`. The lemmas state what the
 * endpoint promises.
 */
module UploadContent {
  import opened Php
  import opened Documents
  import opened ResolveEvents

  const MSG_COLLECTION: string :=
    "Resource of type [collection] cannot contain their own content, they may only contain Relations."
  const MSG_SEQUENCE: string :=
    "Resource sequences cannot contain their own content, they may only contain Relations."
  const MSG_PROCESSING: string :=
    "Resource content is currently being processed, try modifying the content later."
  const MSG_UNRESOLVED: string := "Could not resolve valid content."
  const MSG_NOT_PROCESSED: string := "The content was not processed, thus the resource was not modified."

  /** What the endpoint answers: the deleted-resource response, the resource
      with a success code, or an HTTP error with its status and message. */
  datatype Response =
    | DeletedResource(resource: ResourceState)
    | ServiceResponse(resource: ResourceState, code: int)
    | HttpError(status: int, message: string)

  /** What the content handlers did: they changed the resource's content and
      status and report whether they modified it, or they threw. */
  datatype HandleResult =
    | Handled(modified: bool, content: Option<seq<ContentItem>>, status: string)
    | HandleFailed(error: Exception)

  /** The step of the final write that threw, if one did. */
  datatype StoreStep = AtPersist | AtFlush | AtNotify
  datatype StoreFailure = StoreFailure(at: StoreStep, error: Exception)

  /** The collaborators the endpoint calls, each given as what it answers. */
  datatype Collaborators = Collaborators(
    /** the token manager's verdict on `useTokenForId`: `None` when it accepts,
        the exception's message when it throws */
    useToken: (map<string, string>, string, string) -> Option<string>,
    request: Request,
    /** the listeners for the resolve event, in dispatch order */
    resolvers: seq<Listener>,
    /** an exception from the listeners notified of content removal, if any */
    removeContent: Option<Exception>,
    /** the handle-event listeners, given the resource as they receive it and
        the resolved type and data */
    handle: (ResourceState, Value, Value) -> HandleResult,
    /** the validator: the list of violations of the modified resource */
    validate: ResourceState -> seq<string>,
    store: Option<StoreFailure>)

  /** The calls the endpoint makes on its collaborators, in order. */
  datatype Call =
    | UseToken(id: string)
    | RemoveToken(id: string)
    | ResolveDispatch(removePrevious: bool)
    | RemoveContentDispatch
    | HandleDispatch(seen: ResourceState, contentType: Value, contentData: Value)
    | Validate(errors: seq<string>)
    | Persist
    | Flush
    | NotifyModified

  /** One attempt: the response, the calls made, the resource afterwards (in
      memory) and the token store afterwards. */
  datatype Attempt = Attempt(response: Response, trace: seq<Call>, after: ResourceState, tokens: map<string, string>)

  /** The part of an attempt from the resolve dispatch on, which leaves the
      token store alone. */
  datatype Stage = Stage(response: Response, trace: seq<Call>, after: ResourceState)

  /** The replace flag: the `replace` query value, defaulting to "true", must
      be exactly the string "true". */
  function ReplaceRequested(request: Request): (replace: bool)
    ensures replace <==> ("replace" !in request.query || request.query["replace"] == Str("true"))
  {
    Str("true") == request.Get("replace", Str("true"))
  }

  /** How the controller rethrows an exception from a dispatch: an HTTP
      exception unchanged, any other as a 500 with the same message. */
  function Rethrow(e: Exception): (r: Response)
    ensures r.HttpError? && r.message == e.message
    ensures r.status == if e.HttpException? then e.statusCode else 500
  {
    match e
    case HttpException(code, message) => HttpError(code, message)
    case PlainException(message) => HttpError(500, message)
  }

  /** Whether the checks before the token accept the resource. */
  predicate Eligible(pre: ResourceState) {
    !pre.deleted && pre.resourceType != TYPE_COLLECTION && !Truthy(pre.sequence)
  }

  /** The whole attempt, as a decision procedure over the collaborators' answers. */
  function Execute(id: string, token: string, tokens: map<string, string>, pre: ResourceState, env: Collaborators): Attempt {
    if pre.deleted then Attempt(DeletedResource(pre), [], pre, tokens)
    else if pre.resourceType == TYPE_COLLECTION then Attempt(HttpError(400, MSG_COLLECTION), [], pre, tokens)
    else if Truthy(pre.sequence) then Attempt(HttpError(400, MSG_SEQUENCE), [], pre, tokens)
    else
      var verdict := env.useToken(tokens, id, token);
      var calls := [UseToken(id), RemoveToken(id)];
      var tokens' := tokens - {id};
      if verdict.Some? then Attempt(HttpError(401, verdict.value), calls, pre, tokens')
      else if pre.status == STATUS_PROCESSING then Attempt(HttpError(423, MSG_PROCESSING), calls, pre, tokens')
      else
        var rest := Resolve(pre, env, calls);
        Attempt(rest.response, rest.trace, rest.after, tokens')
  }

  /** From the resolve dispatch on. */
  function Resolve(pre: ResourceState, env: Collaborators, calls: seq<Call>): Stage {
    var removePrevious := ReplaceRequested(env.request);
    var calls := calls + [ResolveDispatch(removePrevious)];
    match Propagate(Fresh, env.resolvers)
    case Raised(_, e) => Stage(Rethrow(e), calls, pre)
    case Done(ev) =>
      if ev.content == Bool(false) then Stage(HttpError(422, MSG_UNRESOLVED), calls, pre)
      else ClearThenHandle(pre, env, removePrevious, ev.contentType, ev.content, calls)
  }

  /** Optional removal of the previous content, then the handle dispatch. */
  function ClearThenHandle(pre: ResourceState, env: Collaborators, removePrevious: bool, t: Value, d: Value,
                           calls: seq<Call>): Stage
  {
    if removePrevious then
      var r1 := if pre.content.None? then pre.(content := Some([])) else pre;
      var calls := calls + [RemoveContentDispatch];
      if env.removeContent.Some? then Stage(Rethrow(env.removeContent.value), calls, r1)
      else Handle(r1.(content := Some([])), env, t, d, calls)
    else Handle(pre, env, t, d, calls)
  }

  /** The handle dispatch, then validation and the final write. */
  function Handle(seen: ResourceState, env: Collaborators, t: Value, d: Value, calls: seq<Call>): Stage {
    var calls := calls + [HandleDispatch(seen, t, d)];
    match env.handle(seen, t, d)
    case HandleFailed(e) => Stage(Rethrow(e), calls, seen)
    case Handled(modified, content, status) =>
      var after := seen.(content := content, status := status);
      if !modified then Stage(HttpError(422, MSG_NOT_PROCESSED), calls, after)
      else
        var errors := env.validate(after);
        var calls := calls + [Validate(errors)];
        if |errors| != 0 then Stage(HttpError(500, Implode("; ", errors)), calls, after)
        else Store(after, env.store, calls)
  }

  /** Persist, flush and the resource-modified notification; a failure in any
      of them is a 500 with its message, HTTP exception or not. */
  function Store(after: ResourceState, failure: Option<StoreFailure>, calls: seq<Call>): Stage {
    match failure
    case None =>
      var code := if after.status == STATUS_NORMAL then 200 else 202;
      Stage(ServiceResponse(after, code), calls + [Persist, Flush, NotifyModified], after)
    case Some(StoreFailure(at, e)) =>
      var attempted := match at
        case AtPersist => [Persist]
        case AtFlush => [Persist, Flush]
        case AtNotify => [Persist, Flush, NotifyModified];
      Stage(HttpError(500, e.message), calls + attempted, after)
  }

  /** The external store of one-time upload tokens, keyed by resource id. */
  class UploadTokenManager {
    var tokens: map<string, string>

    method RemoveTokenForId(id: string)
      modifies this
      ensures tokens == old(tokens) - {id}
    {
      tokens := tokens - {id};
    }
  }

  /** The endpoint itself: eligibility, the token, the processing check, then
      the rest of the pipeline. */
  method ExecuteAction(id: string, token: string, resource: Resource, manager: UploadTokenManager, env: Collaborators)
    returns (response: Response, ghost trace: seq<Call>)
    modifies resource, manager
    ensures var attempt := Execute(id, token, old(manager.tokens), old(resource.State()), env);
            response == attempt.response && trace == attempt.trace &&
            resource.State() == attempt.after && manager.tokens == attempt.tokens
  {
    ghost var pre := resource.State();
    ghost var tokens := manager.tokens;
    trace := [];
    if resource.deleted {
      return DeletedResource(resource.State()), trace;
    }
    if resource.resourceType == TYPE_COLLECTION {
      return HttpError(400, MSG_COLLECTION), trace;
    }
    if Truthy(resource.sequence) {
      return HttpError(400, MSG_SEQUENCE), trace;
    }
    assert Eligible(pre);

    // use the token; it is removed whether or not using it succeeds
    var verdict := env.useToken(manager.tokens, id, token);
    trace := trace + [UseToken(id)];
    if verdict.Some? {
      manager.RemoveTokenForId(id);
      trace := trace + [RemoveToken(id)];
      return HttpError(401, verdict.value), trace;
    }
    manager.RemoveTokenForId(id);
    trace := trace + [RemoveToken(id)];
    assert resource.State() == pre && manager.tokens == tokens - {id};

    if resource.status == STATUS_PROCESSING {
      return HttpError(423, MSG_PROCESSING), trace;
    }
    assert trace == [UseToken(id), RemoveToken(id)];
    ghost var rest := Resolve(pre, env, trace);
    assert Execute(id, token, tokens, pre, env) == Attempt(rest.response, rest.trace, rest.after, tokens - {id});
    response, trace := ResolveAndHandle(resource, env, trace);
  }

  /** Resolution through the resolve event, and what follows it. */
  method ResolveAndHandle(resource: Resource, env: Collaborators, ghost calls: seq<Call>)
    returns (response: Response, ghost trace: seq<Call>)
    modifies resource
    ensures var stage := Resolve(old(resource.State()), env, calls);
            response == stage.response && trace == stage.trace && resource.State() == stage.after
  {
    var removePrevious := ReplaceRequested(env.request);
    var event := new ResolveUploadedContentEvent(resource, env.request, removePrevious);
    trace := calls + [ResolveDispatch(removePrevious)];
    var thrown := DispatchResolve(event, env.resolvers);
    if thrown.Some? {
      return Rethrow(thrown.value), trace;
    }
    var contentType := event.GetContentType();
    var contentData := event.GetContentData();
    if contentData == Bool(false) {
      return HttpError(422, MSG_UNRESOLVED), trace;
    }
    var remove := event.GetRemovePreviousContent();
    response, trace := ClearAndHandle(resource, env, remove, contentType, contentData, trace);
  }

  /** Drops the previous content when asked to, then hands over to the
      handle dispatch. */
  method ClearAndHandle(resource: Resource, env: Collaborators, remove: bool, contentType: Value, contentData: Value,
                        ghost calls: seq<Call>)
    returns (response: Response, ghost trace: seq<Call>)
    modifies resource
    ensures var stage := ClearThenHandle(old(resource.State()), env, remove, contentType, contentData, calls);
            response == stage.response && trace == stage.trace && resource.State() == stage.after
  {
    trace := calls;
    if remove {
      if resource.content.None? {
        resource.content := Some([]);
      }
      trace := trace + [RemoveContentDispatch];
      if env.removeContent.Some? {
        return Rethrow(env.removeContent.value), trace;
      }
      resource.content := Some([]);
    }

    response, trace := HandleAndWrite(resource, env, contentType, contentData, trace);
  }

  /** Dispatches the handle event on the resource as it now is, then validates
      and writes. */
  method HandleAndWrite(resource: Resource, env: Collaborators, contentType: Value, contentData: Value,
                        ghost calls: seq<Call>)
    returns (response: Response, ghost trace: seq<Call>)
    modifies resource
    ensures var stage := Handle(old(resource.State()), env, contentType, contentData, calls);
            response == stage.response && trace == stage.trace && resource.State() == stage.after
  {
    var seen := resource.State();
    trace := calls + [HandleDispatch(seen, contentType, contentData)];
    var handled := env.handle(seen, contentType, contentData);
    if handled.HandleFailed? {
      return Rethrow(handled.error), trace;
    }
    resource.content, resource.status := handled.content, handled.status;

    if !handled.modified {
      return HttpError(422, MSG_NOT_PROCESSED), trace;
    }
    var errors := env.validate(resource.State());
    trace := trace + [Validate(errors)];
    if |errors| != 0 {
      return HttpError(500, Implode("; ", errors)), trace;
    }

    trace := trace + [Persist];
    if env.store.Some? && env.store.value.at == AtPersist {
      return HttpError(500, env.store.value.error.message), trace;
    }
    trace := trace + [Flush];
    if env.store.Some? && env.store.value.at == AtFlush {
      return HttpError(500, env.store.value.error.message), trace;
    }
    trace := trace + [NotifyModified];
    if env.store.Some? {
      return HttpError(500, env.store.value.error.message), trace;
    }

    var code := if resource.status == STATUS_NORMAL then 200 else 202;
    response := ServiceResponse(resource.State(), code);
  }
}
