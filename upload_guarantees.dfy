/**
 * What the upload endpoint promises, stated about `Execute` and proved for
 * every resource and every answer its collaborators can give.
 */
module UploadGuarantees {
  import opened Php
  import opened Documents
  import opened ResolveEvents
  import opened UploadContent

  /** The position of each collaborator call in the pipeline. */
  function Rank(c: Call): nat {
    match c
    case UseToken(_) => 0
    case RemoveToken(_) => 1
    case ResolveDispatch(_) => 2
    case RemoveContentDispatch => 3
    case HandleDispatch(_, _, _) => 4
    case Validate(_) => 5
    case Persist => 6
    case Flush => 7
    case NotifyModified => 8
  }

  /** Every call in the trace comes strictly later in the pipeline than the
      ones before it: each step happens at most once and none goes back. */
  ghost predicate InPipelineOrder(trace: seq<Call>) {
    forall i, j :: 0 <= i < j < |trace| ==> Rank(trace[i]) < Rank(trace[j])
  }

  ghost predicate AllBefore(trace: seq<Call>, bound: nat) {
    forall i :: 0 <= i < |trace| ==> Rank(trace[i]) < bound
  }

  lemma AppendInOrder(trace: seq<Call>, c: Call)
    requires InPipelineOrder(trace) && AllBefore(trace, Rank(c))
    ensures InPipelineOrder(trace + [c]) && AllBefore(trace + [c], Rank(c) + 1)
  {
    var t := trace + [c];
    forall i, j | 0 <= i < j < |t| ensures Rank(t[i]) < Rank(t[j]) {
      if j == |trace| {
        assert t[i] == trace[i];
      } else {
        assert t[i] == trace[i] && t[j] == trace[j];
      }
    }
  }

  lemma StoreInOrder(after: ResourceState, failure: Option<StoreFailure>, calls: seq<Call>)
    requires InPipelineOrder(calls) && AllBefore(calls, Rank(Persist))
    ensures InPipelineOrder(Store(after, failure, calls).trace)
  {
    AppendInOrder(calls, Persist);
    AppendInOrder(calls + [Persist], Flush);
    AppendInOrder(calls + [Persist] + [Flush], NotifyModified);
    assert calls + [Persist, Flush, NotifyModified] == calls + [Persist] + [Flush] + [NotifyModified];
    assert calls + [Persist, Flush] == calls + [Persist] + [Flush];
  }

  lemma HandleInOrder(seen: ResourceState, env: Collaborators, t: Value, d: Value, calls: seq<Call>)
    requires InPipelineOrder(calls) && AllBefore(calls, Rank(HandleDispatch(seen, t, d)))
    ensures InPipelineOrder(Handle(seen, env, t, d, calls).trace)
  {
    var calls1 := calls + [HandleDispatch(seen, t, d)];
    AppendInOrder(calls, HandleDispatch(seen, t, d));
    match env.handle(seen, t, d)
    case HandleFailed(_) =>
    case Handled(modified, content, status) =>
      var after := seen.(content := content, status := status);
      var errors := env.validate(after);
      AppendInOrder(calls1, Validate(errors));
      StoreInOrder(after, env.store, calls1 + [Validate(errors)]);
  }

  lemma ClearThenHandleInOrder(pre: ResourceState, env: Collaborators, remove: bool, t: Value, d: Value, calls: seq<Call>)
    requires InPipelineOrder(calls) && AllBefore(calls, Rank(RemoveContentDispatch))
    ensures InPipelineOrder(ClearThenHandle(pre, env, remove, t, d, calls).trace)
  {
    if remove {
      AppendInOrder(calls, RemoveContentDispatch);
      var r1 := if pre.content.None? then pre.(content := Some([])) else pre;
      HandleInOrder(r1.(content := Some([])), env, t, d, calls + [RemoveContentDispatch]);
    } else {
      HandleInOrder(pre, env, t, d, calls);
    }
  }

  lemma ResolveInOrder(pre: ResourceState, env: Collaborators, calls: seq<Call>)
    requires InPipelineOrder(calls) && AllBefore(calls, Rank(ResolveDispatch(true)))
    ensures InPipelineOrder(Resolve(pre, env, calls).trace)
  {
    var removePrevious := ReplaceRequested(env.request);
    AppendInOrder(calls, ResolveDispatch(removePrevious));
    match Propagate(Fresh, env.resolvers)
    case Raised(_, _) =>
    case Done(ev) =>
      ClearThenHandleInOrder(pre, env, removePrevious, ev.contentType, ev.content, calls + [ResolveDispatch(removePrevious)]);
  }

  /** The collaborators are always called in the pipeline's order: the token
      before resolution, resolution before any content removal, removal before
      the handle dispatch, validation before persisting, persisting before the
      flush and the notification. No call is made twice. */
  lemma CallsInPipelineOrder(id: string, token: string, tokens: map<string, string>, pre: ResourceState, env: Collaborators)
    ensures InPipelineOrder(Execute(id, token, tokens, pre, env).trace)
  {
    if Eligible(pre) {
      AppendInOrder([], UseToken(id));
      AppendInOrder([UseToken(id)], RemoveToken(id));
      assert [UseToken(id)] + [RemoveToken(id)] == [UseToken(id), RemoveToken(id)];
      ResolveInOrder(pre, env, [UseToken(id), RemoveToken(id)]);
    }
  }

  /** A deleted resource gets the deleted-resource response before any other
      check: nothing is called, the token store and the resource are untouched. */
  lemma DeletedShortCircuits(id: string, token: string, tokens: map<string, string>, pre: ResourceState, env: Collaborators)
    requires pre.deleted
    ensures Execute(id, token, tokens, pre, env) == Attempt(DeletedResource(pre), [], pre, tokens)
  {
  }

  /** A collection, or a resource with a truthy sequence, is rejected with 400
      and the token manager is never called: the token survives. */
  lemma IneligibleRejectedBeforeToken(id: string, token: string, tokens: map<string, string>, pre: ResourceState, env: Collaborators)
    requires !pre.deleted && (pre.resourceType == TYPE_COLLECTION || Truthy(pre.sequence))
    ensures var a := Execute(id, token, tokens, pre, env);
            a.response.HttpError? && a.response.status == 400 &&
            a.trace == [] && a.tokens == tokens && a.after == pre
  {
  }

  /** Every attempt on an eligible resource uses the token and then removes it,
      whether using it succeeded or threw; a throw is a 401 carrying the
      exception's message, with nothing else called. */
  lemma TokenAlwaysConsumed(id: string, token: string, tokens: map<string, string>, pre: ResourceState, env: Collaborators)
    requires Eligible(pre)
    ensures var a := Execute(id, token, tokens, pre, env);
            |a.trace| >= 2 && a.trace[..2] == [UseToken(id), RemoveToken(id)] &&
            a.tokens == tokens - {id} && id !in a.tokens
    ensures var a := Execute(id, token, tokens, pre, env);
            var verdict := env.useToken(tokens, id, token);
            verdict.Some? ==> a.response == HttpError(401, verdict.value) && |a.trace| == 2 && a.after == pre
  {
  }

  /** A resource being processed is rejected with 423, and only after its
      token has been used and removed. */
  lemma ProcessingLockedAfterToken(id: string, token: string, tokens: map<string, string>, pre: ResourceState, env: Collaborators)
    requires Eligible(pre) && env.useToken(tokens, id, token).None? && pre.status == STATUS_PROCESSING
    ensures var a := Execute(id, token, tokens, pre, env);
            a.response == HttpError(423, MSG_PROCESSING) &&
            a.trace == [UseToken(id), RemoveToken(id)] && a.tokens == tokens - {id} && a.after == pre
  {
  }

  /** The checks that pass the resource on to resolution. */
  predicate ReachesResolution(id: string, token: string, tokens: map<string, string>, pre: ResourceState, env: Collaborators) {
    Eligible(pre) && env.useToken(tokens, id, token).None? && pre.status != STATUS_PROCESSING
  }

  /** When resolution throws or resolves nothing, the resource is left as it
      was, nothing after the resolve dispatch is called (no removal, no
      handling, no persisting); an HTTP exception passes through unchanged,
      any other becomes a 500, and data still `false` is a 422. */
  lemma ResolutionFailureChangesNothing(id: string, token: string, tokens: map<string, string>, pre: ResourceState, env: Collaborators)
    requires ReachesResolution(id, token, tokens, pre, env)
    requires Propagate(Fresh, env.resolvers).Raised? || Propagate(Fresh, env.resolvers).state.content == Bool(false)
    ensures var a := Execute(id, token, tokens, pre, env);
            a.after == pre &&
            a.trace == [UseToken(id), RemoveToken(id), ResolveDispatch(ReplaceRequested(env.request))]
    ensures var a := Execute(id, token, tokens, pre, env);
            var o := Propagate(Fresh, env.resolvers);
            && (o.Raised? && o.error.HttpException? ==> a.response == HttpError(o.error.statusCode, o.error.message))
            && (o.Raised? && o.error.PlainException? ==> a.response == HttpError(500, o.error.message))
            && (o.Done? ==> a.response == HttpError(422, MSG_UNRESOLVED))
  {
  }

  /** When no resolver stops propagation (none recognized the upload) and no
      resolver swallows the setter's exception, the attempt ends with the 422
      for unresolved content. */
  lemma NoResolverIsUnprocessable(id: string, token: string, tokens: map<string, string>, pre: ResourceState, env: Collaborators)
    requires ReachesResolution(id, token, tokens, pre, env)
    requires NoneCatches(env.resolvers)
    requires Propagate(Fresh, env.resolvers).Done? && !Propagate(Fresh, env.resolvers).state.stopped
    ensures Execute(id, token, tokens, pre, env).response == HttpError(422, MSG_UNRESOLVED)
    ensures Execute(id, token, tokens, pre, env).after == pre
  {
    UnresolvedStaysFalse(env.resolvers);
  }

  /** The handle stage records its dispatch right after the calls before it. */
  lemma HandleRecorded(seen: ResourceState, env: Collaborators, t: Value, d: Value, calls: seq<Call>)
    ensures var trace := Handle(seen, env, t, d, calls).trace;
            |trace| > |calls| && trace[|calls|] == HandleDispatch(seen, t, d)
  {
    var calls1 := calls + [HandleDispatch(seen, t, d)];
    assert calls1[|calls|] == HandleDispatch(seen, t, d);
  }

  /** The check for unresolved content looks only at the data. A lone resolver
      that swallows the setter's exception gets its data past that check, and
      the content handlers are dispatched with the type still `false`. */
  lemma CatchingResolverReachesHandlers(id: string, token: string, tokens: map<string, string>, pre: ResourceState,
                                        env: Collaborators, d: Value)
    requires ReachesResolution(id, token, tokens, pre, env)
    requires env.resolvers == [[TrySetData(d)]] && d != Bool(false)
    requires env.removeContent.None?
    ensures var a := Execute(id, token, tokens, pre, env);
            HandleDispatch(SeenByHandlers(pre, ReplaceRequested(env.request)), Bool(false), d) in a.trace
  {
    var replace := ReplaceRequested(env.request);
    var calls := [UseToken(id), RemoveToken(id), ResolveDispatch(replace)];
    assert Run(Fresh, [TrySetData(d)]) == Done(Fresh.(content := d)) by {
      assert [TrySetData(d)][1..] == [];
    }
    assert Propagate(Fresh, env.resolvers) == Done(Fresh.(content := d)) by {
      assert env.resolvers[1..] == [];
    }
    var calls1 := if replace then calls + [RemoveContentDispatch] else calls;
    HandleRecorded(SeenByHandlers(pre, replace), env, Bool(false), d, calls1);
  }

  /** The resource as the content handlers receive it: with an empty content
      collection when previous content is to be replaced, whether or not it
      had one, and exactly as loaded otherwise. */
  function SeenByHandlers(pre: ResourceState, replace: bool): ResourceState {
    if replace then pre.(content := Some([])) else pre
  }

  /** Every handle dispatch in the trace received `seen`. */
  ghost predicate HandlersReceived(trace: seq<Call>, seen: ResourceState) {
    forall c | c in trace && c.HandleDispatch? :: c.seen == seen
  }

  lemma HandleDispatchesOnce(seen: ResourceState, env: Collaborators, t: Value, d: Value, calls: seq<Call>)
    requires forall c | c in calls :: !c.HandleDispatch?
    ensures HandlersReceived(Handle(seen, env, t, d, calls).trace, seen)
  {
  }

  lemma ClearThenHandleSeen(pre: ResourceState, env: Collaborators, remove: bool, t: Value, d: Value, calls: seq<Call>)
    requires forall c | c in calls :: !c.HandleDispatch?
    ensures HandlersReceived(ClearThenHandle(pre, env, remove, t, d, calls).trace, SeenByHandlers(pre, remove))
  {
    if remove {
      if env.removeContent.None? {
        var r1 := if pre.content.None? then pre.(content := Some([])) else pre;
        HandleDispatchesOnce(r1.(content := Some([])), env, t, d, calls + [RemoveContentDispatch]);
      }
    } else {
      HandleDispatchesOnce(pre, env, t, d, calls);
    }
  }

  lemma ResolveSeen(pre: ResourceState, env: Collaborators, calls: seq<Call>)
    requires forall c | c in calls :: !c.HandleDispatch?
    ensures HandlersReceived(Resolve(pre, env, calls).trace, SeenByHandlers(pre, ReplaceRequested(env.request)))
  {
    var replace := ReplaceRequested(env.request);
    var calls1 := calls + [ResolveDispatch(replace)];
    match Propagate(Fresh, env.resolvers)
    case Raised(_, _) =>
    case Done(ev) =>
      ClearThenHandleSeen(pre, env, replace, ev.contentType, ev.content, calls1);
  }

  /** With the replace flag set the previous content is gone before the handle
      dispatch, and without it the handlers see the content as loaded. */
  lemma HandlersSeeClearedContent(id: string, token: string, tokens: map<string, string>, pre: ResourceState, env: Collaborators)
    ensures HandlersReceived(Execute(id, token, tokens, pre, env).trace, SeenByHandlers(pre, ReplaceRequested(env.request)))
  {
    if Eligible(pre) {
      ResolveSeen(pre, env, [UseToken(id), RemoveToken(id)]);
    }
  }

  /** Whether the handle dispatch recorded by `c` reported a modification. */
  predicate ReportsModified(env: Collaborators, c: Call)
    requires c.HandleDispatch?
  {
    var r := env.handle(c.seen, c.contentType, c.contentData);
    r.Handled? && r.modified
  }

  lemma HandlePersistsOnlyWhenValid(seen: ResourceState, env: Collaborators, t: Value, d: Value, calls: seq<Call>)
    requires Persist !in calls
    ensures var s := Handle(seen, env, t, d, calls);
            Persist in s.trace ==>
              HandleDispatch(seen, t, d) in s.trace && ReportsModified(env, HandleDispatch(seen, t, d)) &&
              Validate([]) in s.trace && env.validate(s.after) == []
  {
    var calls1 := calls + [HandleDispatch(seen, t, d)];
    var s := Handle(seen, env, t, d, calls);
    var r := env.handle(seen, t, d);
    if r.Handled? && r.modified {
      var after := seen.(content := r.content, status := r.status);
      var errors := env.validate(after);
      var calls2 := calls1 + [Validate(errors)];
      if errors == [] {
        assert s.trace[..|calls2|] == calls2;
        assert s.trace[|calls1|] == Validate([]);
        assert s.trace[|calls|] == HandleDispatch(seen, t, d);
      }
    }
  }

  /** The trace persists only after a handle dispatch that reported a
      modification and a validation that found no errors in `after`. */
  ghost predicate PersistsOnlyValidModification(env: Collaborators, trace: seq<Call>, after: ResourceState) {
    Persist in trace ==>
      && Validate([]) in trace && env.validate(after) == []
      && (exists c :: c in trace && c.HandleDispatch? && ReportsModified(env, c))
  }

  lemma ClearThenHandlePersists(pre: ResourceState, env: Collaborators, remove: bool, t: Value, d: Value, calls: seq<Call>)
    requires Persist !in calls
    ensures var s := ClearThenHandle(pre, env, remove, t, d, calls);
            PersistsOnlyValidModification(env, s.trace, s.after)
  {
    var s := ClearThenHandle(pre, env, remove, t, d, calls);
    if remove {
      if env.removeContent.None? {
        var r1 := if pre.content.None? then pre.(content := Some([])) else pre;
        var seen := r1.(content := Some([]));
        HandlePersistsOnlyWhenValid(seen, env, t, d, calls + [RemoveContentDispatch]);
        if Persist in s.trace {
          assert HandleDispatch(seen, t, d) in s.trace;
        }
      }
    } else {
      HandlePersistsOnlyWhenValid(pre, env, t, d, calls);
      if Persist in s.trace {
        assert HandleDispatch(pre, t, d) in s.trace;
      }
    }
  }

  lemma ResolvePersists(pre: ResourceState, env: Collaborators, calls: seq<Call>)
    requires Persist !in calls
    ensures PersistsOnlyValidModification(env, Resolve(pre, env, calls).trace, Resolve(pre, env, calls).after)
  {
    var replace := ReplaceRequested(env.request);
    var calls1 := calls + [ResolveDispatch(replace)];
    match Propagate(Fresh, env.resolvers)
    case Raised(_, _) =>
    case Done(ev) =>
      ClearThenHandlePersists(pre, env, replace, ev.contentType, ev.content, calls1);
  }

  /** Persisting happens only when the handlers reported a modification and
      the validator found nothing wrong with the modified resource. */
  lemma PersistOnlyWhenModifiedAndValid(id: string, token: string, tokens: map<string, string>, pre: ResourceState, env: Collaborators)
    ensures var a := Execute(id, token, tokens, pre, env);
            PersistsOnlyValidModification(env, a.trace, a.after)
  {
    if Eligible(pre) {
      ResolvePersists(pre, env, [UseToken(id), RemoveToken(id)]);
    }
  }

  /** A success answers 200 when the resource ends in the normal status and
      202 otherwise, returns the resource as modified, and comes only after
      the persist, the flush and the notification all went through. */
  lemma SuccessAfterFullWrite(id: string, token: string, tokens: map<string, string>, pre: ResourceState, env: Collaborators)
    ensures var a := Execute(id, token, tokens, pre, env);
            a.response.ServiceResponse? ==>
              && a.response.resource == a.after
              && a.response.code == (if a.after.status == STATUS_NORMAL then 200 else 202)
              && env.store.None?
              && |a.trace| >= 3 && a.trace[|a.trace| - 3..] == [Persist, Flush, NotifyModified]
  {
  }

  /** A modified resource that validates and whose write goes through is
      persisted, flushed and announced, and the answer carries it with 200 in
      the normal status and 202 otherwise. */
  lemma FullWriteSucceeds(seen: ResourceState, env: Collaborators, t: Value, d: Value, calls: seq<Call>)
    requires env.handle(seen, t, d).Handled? && env.handle(seen, t, d).modified
    requires env.validate(Handle(seen, env, t, d, calls).after) == []
    requires env.store.None?
    ensures var s := Handle(seen, env, t, d, calls);
            var r := env.handle(seen, t, d);
            && s.after == seen.(content := r.content, status := r.status)
            && s.response == ServiceResponse(s.after, if s.after.status == STATUS_NORMAL then 200 else 202)
            && s.trace == calls + [HandleDispatch(seen, t, d), Validate([]), Persist, Flush, NotifyModified]
  {
  }

  /** The whole attempt succeeds when every collaborator plays along: the
      token is accepted, the resource is not being processed, a resolver
      yields data, the removal listeners (if called) do not throw, the
      handlers modify the resource they receive, validation finds nothing and
      the write goes through. The token is gone afterwards. */
  lemma UploadSucceeds(id: string, token: string, tokens: map<string, string>, pre: ResourceState, env: Collaborators)
    requires ReachesResolution(id, token, tokens, pre, env)
    requires Propagate(Fresh, env.resolvers).Done? && Propagate(Fresh, env.resolvers).state.content != Bool(false)
    requires ReplaceRequested(env.request) ==> env.removeContent.None?
    requires var ev := Propagate(Fresh, env.resolvers).state;
             var r := env.handle(SeenByHandlers(pre, ReplaceRequested(env.request)), ev.contentType, ev.content);
             r.Handled? && r.modified
    requires var ev := Propagate(Fresh, env.resolvers).state;
             var seen := SeenByHandlers(pre, ReplaceRequested(env.request));
             var r := env.handle(seen, ev.contentType, ev.content);
             r.Handled? && env.validate(seen.(content := r.content, status := r.status)) == []
    requires env.store.None?
    ensures var a := Execute(id, token, tokens, pre, env);
            var ev := Propagate(Fresh, env.resolvers).state;
            var seen := SeenByHandlers(pre, ReplaceRequested(env.request));
            var r := env.handle(seen, ev.contentType, ev.content);
            && r.Handled?
            && a.after == seen.(content := r.content, status := r.status)
            && a.response == ServiceResponse(a.after, if a.after.status == STATUS_NORMAL then 200 else 202)
            && Persist in a.trace && NotifyModified in a.trace
            && a.tokens == tokens - {id}
  {
    var replace := ReplaceRequested(env.request);
    var ev := Propagate(Fresh, env.resolvers).state;
    var calls := [UseToken(id), RemoveToken(id), ResolveDispatch(replace)];
    var calls1 := if replace then calls + [RemoveContentDispatch] else calls;
    var seen := SeenByHandlers(pre, replace);
    FullWriteSucceeds(seen, env, ev.contentType, ev.content, calls1);
    var tail := calls1 + [HandleDispatch(seen, ev.contentType, ev.content), Validate([]), Persist, Flush, NotifyModified];
    assert tail[|calls1| + 2] == Persist && tail[|calls1| + 4] == NotifyModified;
  }

  /** A failure in persist, in flush or in the resource-modified
      notification is a 500 with the exception's message, even when it is an
      HTTP exception carrying another status. The steps before the failing one
      have gone through: a failing notification comes after the resource was
      persisted and flushed. */
  lemma WriteFailureIs500(seen: ResourceState, env: Collaborators, t: Value, d: Value, calls: seq<Call>)
    requires env.handle(seen, t, d).Handled? && env.handle(seen, t, d).modified
    requires env.validate(Handle(seen, env, t, d, calls).after) == []
    requires env.store.Some?
    ensures var s := Handle(seen, env, t, d, calls);
            var f := env.store.value;
            var checked := calls + [HandleDispatch(seen, t, d), Validate([])];
            && s.response == HttpError(500, f.error.message)
            && (f.at == AtPersist ==> s.trace == checked + [Persist])
            && (f.at == AtFlush ==> s.trace == checked + [Persist, Flush])
            && (f.at == AtNotify ==> s.trace == checked + [Persist, Flush, NotifyModified])
  {
  }

  /** An assumption about the token manager: it refuses an id for which it
      holds no token. */
  ghost predicate RefusesUnknownIds(env: Collaborators) {
    forall store: map<string, string>, id: string, token: string :: id !in store ==> env.useToken(store, id, token).Some?
  }

  /** One-time use: once an attempt on an eligible resource has been made,
      successful or not, any later attempt for the same id is refused with a
      401, as long as that resource is eligible too (a deleted one gets the
      deleted-resource response, a collection or a sequence a 400). */
  lemma SecondAttemptUnauthorized(id: string, token: string, token': string, tokens: map<string, string>,
                                  pre: ResourceState, pre': ResourceState, env: Collaborators, env': Collaborators)
    requires Eligible(pre) && Eligible(pre') && RefusesUnknownIds(env')
    ensures var first := Execute(id, token, tokens, pre, env);
            var second := Execute(id, token', first.tokens, pre', env');
            second.response.HttpError? && second.response.status == 401
  {
  }

  /** The replace flag is set exactly by an absent value or the exact string
      "true": "1", "TRUE", an empty value or boolean true all mean false. */
  lemma ReplaceFlagSpellings(q: map<string, Value>)
    ensures ReplaceRequested(Request(q - {"replace"}))
    ensures ReplaceRequested(Request(q["replace" := Str("true")]))
    ensures !ReplaceRequested(Request(q["replace" := Str("1")]))
    ensures !ReplaceRequested(Request(q["replace" := Str("TRUE")]))
    ensures !ReplaceRequested(Request(q["replace" := Str("")]))
    ensures !ReplaceRequested(Request(q["replace" := Bool(true)]))
  {
  }

  /** An exception from the content-removal listeners or from the handle
      listeners is rethrown (an HTTP exception unchanged, any other as a 500)
      and ends the attempt right after that dispatch, with nothing validated or
      persisted. The resource is left as the failing listeners received it. */
  lemma DispatchFailureRethrown(pre: ResourceState, env: Collaborators, t: Value, d: Value, calls: seq<Call>)
    ensures env.handle(pre, t, d).HandleFailed? ==>
              var s := Handle(pre, env, t, d, calls);
              s.response == Rethrow(env.handle(pre, t, d).error) &&
              s.trace == calls + [HandleDispatch(pre, t, d)] && s.after == pre
    ensures env.removeContent.Some? ==>
              var s := ClearThenHandle(pre, env, true, t, d, calls);
              s.response == Rethrow(env.removeContent.value) &&
              s.trace == calls + [RemoveContentDispatch] &&
              s.after == (if pre.content.None? then pre.(content := Some([])) else pre)
  {
  }

  /** Unmodified content is a 422 and nothing is validated or persisted;
      validation errors are a 500 whose message joins them with "; ", and
      nothing is persisted. */
  lemma HandlerRejections(seen: ResourceState, env: Collaborators, t: Value, d: Value, calls: seq<Call>)
    requires env.handle(seen, t, d).Handled?
    ensures var s := Handle(seen, env, t, d, calls);
            !env.handle(seen, t, d).modified ==>
              s.response == HttpError(422, MSG_NOT_PROCESSED) && s.trace == calls + [HandleDispatch(seen, t, d)]
    ensures var s := Handle(seen, env, t, d, calls);
            var errors := env.validate(s.after);
            env.handle(seen, t, d).modified && errors != [] ==>
              s.response == HttpError(500, Implode("; ", errors)) &&
              s.trace == calls + [HandleDispatch(seen, t, d), Validate(errors)]
  {
  }
}
