# Upload content endpoint of the Ayamel resource API, modelled in Dafny

This project models the endpoint that accepts an upload of content for a
resource through a one-time upload URL. It also models the event that
pluggable resolvers use to turn the incoming request into a content type and
content data.

The endpoint (`UploadContent::executeAction`) works through a fixed order of
steps:

1. A deleted resource gets the deleted-resource response.
2. A collection, or a resource with a truthy `sequence`, is rejected with 400.
3. The upload token is used and then removed, even when using it throws. A throw is a 401.
4. A resource whose status is `processing` is rejected with 423.
5. The `replace` query value gives the replace flag.
6. The resolve event is dispatched to the resolvers. An HTTP exception passes
   through unchanged; any other exception becomes a 500. Data that is still
   `false` is a 422.
7. When the replace flag is set, the content-removal listeners are notified and
   the content collection is emptied.
8. The handle event is dispatched. An exception from the removal or the handle
   listeners is rethrown as in step 6. If no handler modified the resource,
   the answer is 422.
9. The modified resource is validated. Errors become a 500 whose message
   joins them with `"; "`.
10. The resource is persisted, flushed and announced. Any failure here is a 500.
11. The answer is 200 if the resource's status is `normal`, otherwise 202.

The resolve event (`ResolveUploadedContentEvent`) starts with type and data
both `false`. `setContentData` stores its data first and checks the type
afterwards. Without a truthy type it throws a runtime exception and leaves
propagation running; otherwise it stops propagation. An ordered dispatcher
that does not call listeners once propagation has stopped therefore gives the
first resolver that sets its data successfully the last word.

Layout:

- `php.dfy` (module `Php`): PHP values and their truthiness, exceptions, the
  request's query bag and `implode`.
- `documents.dfy` (module `Documents`): the resource document, as a class with
  the fields the endpoint reads or writes, and its snapshot `ResourceState`.
- `resolve_event.dfy` (module `ResolveEvents`): the event as a class with
  `modifies` setters. Listeners are scripts of actions on the event.
  `Run`/`Propagate` are the pure meaning of running one listener or a whole
  dispatch. `InvokeListener`/`DispatchResolve` are the loops that do it on
  the object, proved equal to `Run`/`Propagate`. The first-match lemmas are here.
- `upload_content.dfy` (module `UploadContent`): the collaborators, the call
  trace and the pure decision procedure `Execute`, split into stages
  (`Resolve`, `ClearThenHandle`, `Handle`, `Store`). The imperative
  `ExecuteAction` (with `ResolveAndHandle`, `ClearAndHandle` and
  `HandleAndWrite`) changes a
  `Resource` and an `UploadTokenManager` in place. It is proved to give
  exactly `Execute`'s response, call trace, resource and token store.
- `upload_guarantees.dfy` (module `UploadGuarantees`): the endpoint's promises
  as lemmas about `Execute`, and about its later stages (`Handle`,
  `ClearThenHandle`) where a promise concerns one step.

Every collaborator is an input, held in `Collaborators`:

- the token manager's verdict, as a function of the token store, the id and the token;
- the resolve listeners, in dispatch order;
- the outcome of the content-removal notification;
- the handle listeners, as a function of the resource they receive and the resolved type and data;
- the validator, as a function of the modified resource;
- which step of persist, flush or notify fails, if one does.

The ghost call trace records every call on a collaborator. The ordering and
"nothing persisted" properties are stated over that trace.

Where the repository disagrees with itself: the controller imports the resolve
event from the `Ayamel\ApiBundle\Event` namespace. It builds the event with
three arguments and reads `getRemovePreviousContent()` from it
(src/Ayamel/ApiBundle/Controller/V1/UploadContent.php:10, :157, :174). The
event class in the repository lives in `Ayamel\ResourceApiBundle\Event`. It
takes two constructor arguments and has no such accessor
(src/Ayamel/ResourceApiBundle/Event/ResolveUploadedContentEvent.php:3, :28).
The model follows the controller: the flag is a constant field of the event,
set by the constructor and read back unchanged. Resolvers therefore cannot
change it in this model.

The controller's documentation says that a failed upload, for any reason,
needs a new upload URL (src/Ayamel/ApiBundle/Controller/V1/UploadContent.php:18-19).
The code uses and removes the token only after the deleted, collection and
sequence checks (:110-135). For those three exits the token stays in the store
(`IneligibleRejectedBeforeToken`, `DeletedShortCircuits`), so the same URL can
still be used. The model follows the code.

The resource-modified notification runs inside the same `try` as `persist`
and `flush`. If it throws, the answer is a 500 although the resource has
already been flushed (`WriteFailureIs500`).

The check for unresolved content (UploadContent.php:166) looks only at the
data. A resolver may call `setContentData` inside its own `try` and swallow
the exception that a missing type raises; the data is stored before that
exception (ResolveUploadedContentEvent.php:55-58). Listeners may therefore
take the action `TrySetData`. Such a resolver leaves data set, the type falsy
and propagation running (`CaughtSetterKeepsData`), and the handlers are then
dispatched with the type `false` (`CatchingResolverReachesHandlers`). The
"no resolver, no data" lemmas are stated for dispatches in which no listener
swallows that exception.

The pure functions `Execute`, `Resolve`, `ClearThenHandle`, `Handle` and
`Store` (module `UploadContent`) and `Apply`, `Run` and `Propagate` (module
`ResolveEvents`) are the reference definitions. The methods are proved equal
to them, and the lemmas in the table state their properties.

## Model

| member | source | states |
|---|---|---|
| `Php.Request.Get` | src/Ayamel/ApiBundle/Controller/V1/UploadContent.php:153 | the query lookup yields the stored value when the key is present and the default otherwise |
| `Php.Implode` | src/Ayamel/ApiBundle/Controller/V1/UploadContent.php:194 | joining no errors gives the empty string and one error gives that error; the joined message starts with the first error and is as long as all errors plus one separator between each two |
| `Php.ImplodeAppend` | src/Ayamel/ApiBundle/Controller/V1/UploadContent.php:194 | joining two non-empty lists one after the other is joining each and putting exactly one separator between them, so every error and every separator has its place |
| `ResolveEvents.ResolveUploadedContentEvent.constructor` | src/Ayamel/ResourceApiBundle/Event/ResolveUploadedContentEvent.php:20-31 | a fresh event holds type `false`, data `false`, propagation not stopped, and the request, resource and replace flag it was given |
| `ResolveEvents.ResolveUploadedContentEvent.SetContentType` | src/Ayamel/ResourceApiBundle/Event/ResolveUploadedContentEvent.php:39-41 | the type becomes the given value and nothing else changes |
| `ResolveEvents.ResolveUploadedContentEvent.GetContentType` | src/Ayamel/ResourceApiBundle/Event/ResolveUploadedContentEvent.php:43-45 | returns the last type set (or `false`) |
| `ResolveEvents.ResolveUploadedContentEvent.SetContentData` | src/Ayamel/ResourceApiBundle/Event/ResolveUploadedContentEvent.php:54-62 | the data is stored in every case; with a falsy type the runtime exception is raised and propagation is left as it was; with a truthy type nothing is raised and propagation stops; the type never changes |
| `ResolveEvents.ResolveUploadedContentEvent.GetContentData` | src/Ayamel/ResourceApiBundle/Event/ResolveUploadedContentEvent.php:64-66 | returns the last data stored (or `false`) |
| `ResolveEvents.ResolveUploadedContentEvent.GetRequest` | src/Ayamel/ResourceApiBundle/Event/ResolveUploadedContentEvent.php:68-70 | returns the request given to the constructor |
| `ResolveEvents.ResolveUploadedContentEvent.GetRemovePreviousContent` | src/Ayamel/ApiBundle/Controller/V1/UploadContent.php:174 | returns the replace flag the controller passed to the constructor |
| `ResolveEvents.ResolveUploadedContentEvent.IsPropagationStopped` | src/Ayamel/ResourceApiBundle/Event/ResolveUploadedContentEvent.php:47-61 | reports whether a successful `setContentData` has stopped propagation |
| `ResolveEvents.InvokeListener` | src/Ayamel/ApiBundle/Controller/V1/UploadContent.php:157 | the framework's call of one listener: running its actions on the event object, including a `setContentData` whose exception it swallows, leaves the event exactly as the pure `Run` of the script says, and reports the same exception |
| `ResolveEvents.DispatchResolve` | src/Ayamel/ApiBundle/Controller/V1/UploadContent.php:157 | the dispatch loop, which stops at a stopped event or a thrown exception, agrees with the pure `Propagate` |
| `ResolveEvents.PropagateAppend` | src/Ayamel/ResourceApiBundle/Event/ResolveUploadedContentEvent.php:47-61 | dispatching to two listener lists in turn is dispatching to their concatenation |
| `ResolveEvents.FirstStopDecides` | src/Ayamel/ResourceApiBundle/Event/ResolveUploadedContentEvent.php:9-14 | the first listener that ends with propagation stopped determines the final event; the listeners after it never run |
| `ResolveEvents.FirstResolverWins` | src/Ayamel/ResourceApiBundle/Event/ResolveUploadedContentEvent.php:47-61 | if no earlier resolver stopped the event, the first resolver that sets a truthy type and then its data determines the final type and data |
| `ResolveEvents.RunKeepsDataUnlessStopped` | src/Ayamel/ResourceApiBundle/Event/ResolveUploadedContentEvent.php:54-61 | a listener never un-stops propagation; one that lets the setter's exception escape and finishes without throwing and without stopping propagation has left the data unchanged |
| `ResolveEvents.PropagateKeepsDataUnlessStopped` | src/Ayamel/ResourceApiBundle/Event/ResolveUploadedContentEvent.php:54-61 | a dispatch in which no listener swallows the setter's exception and that ends normally with propagation still running has left the data unchanged |
| `ResolveEvents.UnresolvedStaysFalse` | src/Ayamel/ApiBundle/Controller/V1/UploadContent.php:162-169 | if no resolver stops propagation and none swallows the setter's exception, the data read back is still the fresh event's `false` |
| `ResolveEvents.CaughtSetterKeepsData` | src/Ayamel/ResourceApiBundle/Event/ResolveUploadedContentEvent.php:54-61 | a resolver that swallows the setter's exception, after resolvers that neither stopped the event nor left a truthy type, ends the dispatch normally with its data stored, the type falsy and propagation running |
| `UploadContent.ReplaceRequested` | src/Ayamel/ApiBundle/Controller/V1/UploadContent.php:153 | the replace flag is true exactly when `replace` is absent or is the exact string "true" |
| `UploadContent.Rethrow` | src/Ayamel/ApiBundle/Controller/V1/UploadContent.php:158-161 | an HTTP exception keeps its status and message; any other exception becomes a 500 with its message |
| `UploadContent.UploadTokenManager.RemoveTokenForId` | src/Ayamel/ApiBundle/Controller/V1/UploadContent.php:132 | the token store loses the id's token and keeps every other one |
| `UploadContent.ExecuteAction` | src/Ayamel/ApiBundle/Controller/V1/UploadContent.php:101-222 | the endpoint, run step by step on the resource and token store, gives exactly `Execute`'s response, call trace, resource and token store |
| `UploadContent.ResolveAndHandle` | src/Ayamel/ApiBundle/Controller/V1/UploadContent.php:146-169 | building and dispatching the resolve event, then what follows, agrees with the `Resolve` stage |
| `UploadContent.ClearAndHandle` | src/Ayamel/ApiBundle/Controller/V1/UploadContent.php:171-186 | the optional clearing, then the handle dispatch and what follows, agree with the `ClearThenHandle` stage |
| `UploadContent.HandleAndWrite` | src/Ayamel/ApiBundle/Controller/V1/UploadContent.php:182-221 | the handle dispatch, validation, persist, flush, notification and the 200/202 choice, run on the resource object, give exactly the `Handle` stage's response, call trace and resource |
| `UploadGuarantees.CallsInPipelineOrder` | src/Ayamel/ApiBundle/Controller/V1/UploadContent.php:107-221 | collaborators are called in pipeline order and none twice; in particular, content removal comes after the resolve dispatch, and persisting comes after validation (that removal needs a successful resolution is `ResolutionFailureChangesNothing`) |
| `UploadGuarantees.DeletedShortCircuits` | src/Ayamel/ApiBundle/Controller/V1/UploadContent.php:110-113 | a deleted resource gets the deleted-resource response with no call made and nothing changed |
| `UploadGuarantees.IneligibleRejectedBeforeToken` | src/Ayamel/ApiBundle/Controller/V1/UploadContent.php:115-123 | a collection or a sequence gets a 400; the token manager is never called and the token store is unchanged |
| `UploadGuarantees.TokenAlwaysConsumed` | src/Ayamel/ApiBundle/Controller/V1/UploadContent.php:128-135 | on an eligible resource the token is used and then removed on both branches; a failed use is a 401 with the exception's message |
| `UploadGuarantees.ProcessingLockedAfterToken` | src/Ayamel/ApiBundle/Controller/V1/UploadContent.php:137-140 | once the token is accepted, a resource being processed gets a 423, after its token was used and removed, and nothing else is called |
| `UploadGuarantees.ResolutionFailureChangesNothing` | src/Ayamel/ApiBundle/Controller/V1/UploadContent.php:155-169 | when resolution throws or yields `false`, the resource is unchanged and no call after the resolve dispatch is made; the error is mapped to the exception's own code, to 500, or to 422 |
| `UploadGuarantees.NoResolverIsUnprocessable` | src/Ayamel/ApiBundle/Controller/V1/UploadContent.php:165-169 | if no resolver recognizes the upload, none throws and none swallows the setter's exception, the answer is 422 and the resource is unchanged |
| `UploadGuarantees.CatchingResolverReachesHandlers` | src/Ayamel/ApiBundle/Controller/V1/UploadContent.php:162-182 | a lone resolver that swallows the setter's exception, when its data is not `false` and the content-removal listeners do not throw, passes the check for unresolved content, and the handlers are dispatched with type `false` and its data |
| `UploadGuarantees.HandlersSeeClearedContent` | src/Ayamel/ApiBundle/Controller/V1/UploadContent.php:173-182 | with the replace flag the handlers receive an empty content collection, whether or not one existed; without it they receive the resource as loaded |
| `UploadGuarantees.PersistOnlyWhenModifiedAndValid` | src/Ayamel/ApiBundle/Controller/V1/UploadContent.php:188-214 | the resource is persisted only after a handler reported a modification and validation of the modified resource returned no errors |
| `UploadGuarantees.FullWriteSucceeds` | src/Ayamel/ApiBundle/Controller/V1/UploadContent.php:189-221 | a modified resource that validates and whose write goes through is persisted, flushed and announced, and the answer is the modified resource with 200 in the normal status and 202 otherwise |
| `UploadGuarantees.UploadSucceeds` | src/Ayamel/ApiBundle/Controller/V1/UploadContent.php:101-221 | when the token is accepted, the resource is not being processed, a resolver yields data, the removal listeners (if called) do not throw, the handlers modify the resource, validation finds nothing and the write goes through, the attempt answers the modified resource with 200 or 202, has persisted and announced it, and the token is gone |
| `UploadGuarantees.SuccessAfterFullWrite` | src/Ayamel/ApiBundle/Controller/V1/UploadContent.php:216-221 | success comes only after persist, flush and notify all went through; it is 200 for a resource in the normal status, 202 otherwise, and carries the modified resource |
| `UploadGuarantees.WriteFailureIs500` | src/Ayamel/ApiBundle/Controller/V1/UploadContent.php:197-210 | a failure in persist, flush or the notification is a 500 with its message even for an HTTP exception; the trace ends with exactly the steps up to the failing one, so a failing notification comes after persist and flush |
| `UploadGuarantees.SecondAttemptUnauthorized` | src/Ayamel/ApiBundle/Controller/V1/UploadContent.php:128-135 | for two attempts on eligible resources, if the token manager refuses ids it holds no token for, the later attempt for the same id is a 401, whether the first attempt succeeded or failed |
| `UploadGuarantees.ReplaceFlagSpellings` | src/Ayamel/ApiBundle/Controller/V1/UploadContent.php:153 | an absent value or "true" sets the flag; "1", "TRUE", "" and boolean true do not |
| `UploadGuarantees.DispatchFailureRethrown` | src/Ayamel/ApiBundle/Controller/V1/UploadContent.php:172-186 | an exception from the handle listeners or from the content-removal listeners is rethrown (HTTP exception unchanged, otherwise a 500) right after that dispatch, with nothing validated or persisted and the resource as the failing listeners received it |
| `UploadGuarantees.HandlerRejections` | src/Ayamel/ApiBundle/Controller/V1/UploadContent.php:189-214 | an unmodified resource is a 422 with no validation or persisting; validation errors are a 500 with the errors joined by "; " and nothing persisted |

## Left out

- Framework plumbing is not modelled: loading the resource by id (and its not-found answer), the container lookups, `getRequest`, response formats, and how the deleted-resource and service responses are rendered. A response is a datatype carrying the status and message, or the resource.
- The per-resource upload lock is not modelled. The source marks it as a TODO and only computes the lock key.
- Validating remote-file `attributes` by `mimeType` is not modelled. The source documents it as a TODO.
- The token manager's internals are not modelled. Its verdict is an input function of the store, the id and the token. The replay lemma assumes that the manager refuses ids it holds no token for.
- The concrete resolvers and handlers, the event dispatcher's internals beyond its ordered listener loop, and the `HandleUploadedContentEvent`/`ResourceEvent` classes are not part of this model. A resolver is a script of `setContentType`/`setContentData`/throw actions, where `setContentData` may be wrapped in a `try` that swallows its exception. The script does not depend on the event's state. A resolver that calls the inherited `stopPropagation()` directly, without setting data, is not modelled. The handle listeners are a function that returns the new content and status, the modified flag, or an exception.
- The dispatcher is modelled as checking propagation before each listener. The event reaches it fresh, so this agrees with checking after each listener.
- `UploadContent.HandleAndWrite`: handlers are modelled as changing only the resource's content and status, and a handler that throws leaves the resource as it received it. Partial changes made before a throw are not captured.
- ClearAndHandle: listeners of the content-removal notification are modelled by their outcome only and are assumed to leave the resource alone. The code replaces the content right after them, so a content change of theirs is lost anyway, but a status they set would survive into the handle dispatch; the model does not capture that.
- ResolutionFailureChangesNothing: resolvers receive the event, which holds the resource, and could change it. The model's resolvers act only on the event's type and data, so the unchanged resource is promised only for resolvers that leave the resource alone.
- HandleAndWrite: the code validates the controller's resource but persists, and reads the status from, the resource the handle event returns (UploadContent.php:192, :199, :219). `HandleUploadedContentEvent` is not part of this model, and the model assumes the event returns the same object it was given.
- PersistOnlyWhenModifiedAndValid: holds under the same assumption, that the resource validated is the one persisted.
- SuccessAfterFullWrite: the 200/202 choice is stated for the modified resource, under the same assumption that it is the object the handle event returns.
- A validator that throws is not modelled. The endpoint does not catch such an exception.
- Resolvers cannot change the replace flag, because the event class shown has no setter for it.
- PHP floats (including the falsy `0.0`) are not modelled. PHP arrays are kept as lists.
- Content collections are lists of content items with a download URI, a MIME type and a representation. The other item fields are not modelled.
- Nothing is persisted to a real database. Persist, flush and notify are calls in the trace, and the input names the step that fails.
