/**
 * The event through which pluggable resolvers turn an incoming upload request
 * into a content type and content data, and the ordered dispatch that gives
 * the first resolver to set its data successfully the last word.
 */
module ResolveEvents {
  import opened Php
  import opened Documents

  const MSG_TYPE_NOT_SET: string := "Cannot set content data without first setting the content type."

  /** The mutable part of the event: content type, content data and the
      propagation-stopped flag it inherits from the framework's event. */
  datatype EventState = EventState(contentType: Value, content: Value, stopped: bool)

  /** What a fresh event holds: no type, no data, propagation running. */
  const Fresh: EventState := EventState(Bool(false), Bool(false), false)

  class ResolveUploadedContentEvent {
    const resource: Resource
    const request: Request
    /** Whether the controller asked to drop the resource's previous content;
        read back unchanged by the controller after dispatch. */
    const removePreviousContent: bool
    var contentType: Value
    var content: Value
    var propagationStopped: bool

    function State(): EventState
      reads this
    {
      EventState(contentType, content, propagationStopped)
    }

    constructor (resource: Resource, request: Request, removePreviousContent: bool)
      ensures this.resource == resource && this.request == request
      ensures this.removePreviousContent == removePreviousContent
      ensures contentType == Bool(false) && content == Bool(false) && !propagationStopped
    {
      this.resource := resource;
      this.request := request;
      this.removePreviousContent := removePreviousContent;
      contentType := Bool(false);
      content := Bool(false);
      propagationStopped := false;
    }

    /** Records the type of the content, normally a string naming its kind. */
    method SetContentType(t: Value)
      modifies this`contentType
      ensures contentType == t
    {
      contentType := t;
    }

    method GetContentType() returns (t: Value)
      ensures t == contentType
    {
      t := contentType;
    }

    /** Stores the parsed data. The data is stored first; only then is the type
        checked: without a truthy type a runtime exception is raised and
        propagation keeps running, otherwise propagation stops. */
    method SetContentData(data: Value) returns (thrown: Option<Exception>)
      modifies this`content, this`propagationStopped
      ensures content == data
      ensures Truthy(contentType) ==> thrown == None && propagationStopped
      ensures !Truthy(contentType) ==>
                thrown == Some(PlainException(MSG_TYPE_NOT_SET)) && propagationStopped == old(propagationStopped)
    {
      content := data;
      if !Truthy(contentType) {
        return Some(PlainException(MSG_TYPE_NOT_SET));
      }
      propagationStopped := true;
      thrown := None;
    }

    method GetContentData() returns (d: Value)
      ensures d == content
    {
      d := content;
    }

    method GetRequest() returns (r: Request)
      ensures r == request
    {
      r := request;
    }

    method GetRemovePreviousContent() returns (remove: bool)
      ensures remove == removePreviousContent
    {
      remove := removePreviousContent;
    }

    method IsPropagationStopped() returns (stopped: bool)
      ensures stopped == propagationStopped
    {
      stopped := propagationStopped;
    }
  }

  /** One thing a resolver listener does to the event: set the type, set the
      data (letting the setter's exception escape), set the data inside a
      `try` that swallows the setter's exception, or throw. */
  datatype Action =
    | SetType(t: Value)
    | SetData(d: Value)
    | TrySetData(d: Value)
    | Throw(e: Exception)

  /** A resolver listener, as the actions it performs on the event in order. */
  type Listener = seq<Action>

  /** How running one or more listeners ends: normally, or with an exception
      that escapes the dispatch, and in which state the event is left. */
  datatype Outcome = Done(state: EventState) | Raised(state: EventState, error: Exception)

  /** The effect of one action, as the event's setters define it. */
  function Apply(s: EventState, a: Action): Outcome {
    match a
    case SetType(t) => Done(s.(contentType := t))
    case SetData(d) =>
      if Truthy(s.contentType) then Done(s.(content := d, stopped := true))
      else Raised(s.(content := d), PlainException(MSG_TYPE_NOT_SET))
    case TrySetData(d) =>
      if Truthy(s.contentType) then Done(s.(content := d, stopped := true))
      else Done(s.(content := d))
    case Throw(e) => Raised(s, e)
  }

  /** Runs one listener: its actions in order, up to the first exception. */
  function Run(s: EventState, script: Listener): Outcome
    decreases |script|
  {
    if script == [] then Done(s)
    else match Apply(s, script[0])
      case Raised(s', e) => Raised(s', e)
      case Done(s') => Run(s', script[1..])
  }

  /** Ordered dispatch: each listener runs unless propagation has been stopped;
      an exception from a listener ends the dispatch. */
  function Propagate(s: EventState, listeners: seq<Listener>): Outcome
    decreases |listeners|
  {
    if listeners == [] || s.stopped then Done(s)
    else match Run(s, listeners[0])
      case Raised(s', e) => Raised(s', e)
      case Done(s') => Propagate(s', listeners[1..])
  }

  /** The outcome a method reports through the event's state and an optional exception. */
  function Finish(s: EventState, thrown: Option<Exception>): Outcome {
    if thrown.Some? then Raised(s, thrown.value) else Done(s)
  }

  /** Calls one listener on the event. */
  method InvokeListener(event: ResolveUploadedContentEvent, script: Listener) returns (thrown: Option<Exception>)
    modifies event
    ensures Finish(event.State(), thrown) == Run(old(event.State()), script)
  {
    var i := 0;
    while i < |script|
      invariant 0 <= i <= |script|
      invariant Run(event.State(), script[i..]) == Run(old(event.State()), script)
    {
      match script[i] {
        case SetType(t) =>
          event.SetContentType(t);
        case SetData(d) =>
          thrown := event.SetContentData(d);
          if thrown.Some? {
            return;
          }
        case TrySetData(d) =>
          var caught := event.SetContentData(d);
        case Throw(e) =>
          return Some(e);
      }
      i := i + 1;
    }
    thrown := None;
  }

  /** The dispatcher: calls the listeners in order until one stops propagation
      or throws. */
  method DispatchResolve(event: ResolveUploadedContentEvent, listeners: seq<Listener>)
    returns (thrown: Option<Exception>)
    modifies event
    ensures Finish(event.State(), thrown) == Propagate(old(event.State()), listeners)
  {
    var i := 0;
    while i < |listeners|
      invariant 0 <= i <= |listeners|
      invariant Propagate(event.State(), listeners[i..]) == Propagate(old(event.State()), listeners)
    {
      var stopped := event.IsPropagationStopped();
      if stopped {
        break;
      }
      thrown := InvokeListener(event, listeners[i]);
      if thrown.Some? {
        return;
      }
      i := i + 1;
    }
    thrown := None;
  }

  /** Dispatching to two lists of listeners one after the other is dispatching
      to their concatenation. */
  lemma {:induction false} PropagateAppend(s: EventState, first: seq<Listener>, rest: seq<Listener>)
    ensures Propagate(s, first + rest) ==
            match Propagate(s, first)
            case Raised(s', e) => Raised(s', e)
            case Done(s') => Propagate(s', rest)
    decreases |first|
  {
    if first == [] {
      assert first + rest == rest;
    } else if !s.stopped {
      assert (first + rest)[0] == first[0];
      assert (first + rest)[1..] == first[1..] + rest;
      match Run(s, first[0])
      case Raised(_, _) =>
      case Done(s') => PropagateAppend(s', first[1..], rest);
    }
  }

  /** First match wins: once the listeners before it have run without stopping
      propagation, the first listener that ends with propagation stopped
      decides the event's final state, whatever listeners follow. */
  lemma FirstStopDecides(s: EventState, before: seq<Listener>, winner: Listener, after: seq<Listener>)
    requires Propagate(s, before).Done? && !Propagate(s, before).state.stopped
    requires Run(Propagate(s, before).state, winner).Done?
    requires Run(Propagate(s, before).state, winner).state.stopped
    ensures Propagate(s, before + [winner] + after) == Run(Propagate(s, before).state, winner)
  {
    PropagateAppend(s, before, [winner] + after);
    assert before + [winner] + after == before + ([winner] + after);
    var s1 := Propagate(s, before).state;
    assert ([winner] + after)[1..] == after;
  }

  /** The resolver that sets a truthy type and then its data is the one whose
      type and data the event ends with, if no earlier resolver stopped it. */
  lemma FirstResolverWins(before: seq<Listener>, t: Value, d: Value, after: seq<Listener>)
    requires Propagate(Fresh, before).Done? && !Propagate(Fresh, before).state.stopped
    requires Truthy(t)
    ensures Propagate(Fresh, before + [[SetType(t), SetData(d)]] + after) == Done(EventState(t, d, true))
  {
    var s1 := Propagate(Fresh, before).state;
    var winner := [SetType(t), SetData(d)];
    var s2 := s1.(contentType := t);
    assert winner[1..] == [SetData(d)] && winner[1..][1..] == [];
    assert Run(s2, [SetData(d)]) == Done(EventState(t, d, true));
    assert Run(s1, winner) == Run(s2, winner[1..]);
    FirstStopDecides(Fresh, before, winner, after);
  }

  /** The listener lets every exception of `setContentData` escape. */
  predicate NeverCatches(script: Listener) {
    forall i | 0 <= i < |script| :: !script[i].TrySetData?
  }

  /** No listener of the dispatch catches the setter's exception. */
  predicate NoneCatches(listeners: seq<Listener>) {
    forall i | 0 <= i < |listeners| :: NeverCatches(listeners[i])
  }

  /** A listener never un-stops propagation. When it lets the setter's
      exception escape and finishes with propagation still running, it has not
      changed the content data: every successful `SetContentData` stops
      propagation and every other one throws. */
  lemma {:induction false} RunKeepsDataUnlessStopped(s: EventState, script: Listener)
    ensures Run(s, script).Done? && s.stopped ==> Run(s, script).state.stopped
    ensures NeverCatches(script) && Run(s, script).Done? && !Run(s, script).state.stopped ==>
              Run(s, script).state.content == s.content
    decreases |script|
  {
    if script != [] {
      if NeverCatches(script) {
        assert forall i | 0 <= i < |script[1..]| :: script[1..][i] == script[i + 1];
      }
      match Apply(s, script[0])
      case Raised(_, _) =>
      case Done(s') => RunKeepsDataUnlessStopped(s', script[1..]);
    }
  }

  /** The same for a whole dispatch. */
  lemma {:induction false} PropagateKeepsDataUnlessStopped(s: EventState, listeners: seq<Listener>)
    ensures NoneCatches(listeners) && Propagate(s, listeners).Done? && !Propagate(s, listeners).state.stopped ==>
              Propagate(s, listeners).state.content == s.content
    decreases |listeners|
  {
    if listeners != [] && !s.stopped {
      if NoneCatches(listeners) {
        assert NeverCatches(listeners[0]);
        assert forall i | 0 <= i < |listeners[1..]| :: listeners[1..][i] == listeners[i + 1];
      }
      RunKeepsDataUnlessStopped(s, listeners[0]);
      match Run(s, listeners[0])
      case Raised(_, _) =>
      case Done(s') => PropagateKeepsDataUnlessStopped(s', listeners[1..]);
    }
  }

  /** Hence a dispatch in which no resolver stops propagation, and none
      swallows the setter's exception, leaves the content data at the fresh
      event's `false`. */
  lemma UnresolvedStaysFalse(listeners: seq<Listener>)
    requires NoneCatches(listeners)
    requires Propagate(Fresh, listeners).Done? && !Propagate(Fresh, listeners).state.stopped
    ensures Propagate(Fresh, listeners).state.content == Bool(false)
  {
    PropagateKeepsDataUnlessStopped(Fresh, listeners);
  }

  /** A resolver that swallows the setter's exception, with no resolver after
      it, ends the dispatch normally with its data stored, the type still
      falsy and propagation running: the data no longer tells whether any
      resolver recognized the upload. */
  lemma {:induction false} CaughtSetterKeepsData(before: seq<Listener>, d: Value)
    requires Propagate(Fresh, before).Done? && !Propagate(Fresh, before).state.stopped
    requires !Truthy(Propagate(Fresh, before).state.contentType)
    ensures var o := Propagate(Fresh, before + [[TrySetData(d)]]);
            o.Done? && o.state.content == d && !o.state.stopped && !Truthy(o.state.contentType)
  {
    var s1 := Propagate(Fresh, before).state;
    PropagateAppend(Fresh, before, [[TrySetData(d)]]);
    assert [TrySetData(d)][1..] == [];
    assert Run(s1, [TrySetData(d)]) == Done(s1.(content := d));
    assert [[TrySetData(d)]][1..] == [];
  }
}
