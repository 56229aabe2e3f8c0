/** RestRouter: a BaseRouter whose controller action is the request's HTTP
    verb rather than a path segment. `dispatch` stores the lower-cased verb;
    the DISPATCHING listener checks that the controller has a method of that
    name and puts it in the event, and the component DISPATCH listener hands
    the verb on to the nested router. */
module Rest {
  import opened Php
  import opened Results
  import opened Classes
  import opened Naming
  import opened Listeners
  import opened Base
  import ControllerEvent
  import ComponentEvent

  /** The verb as a method name: null, before any dispatch, names no method
      and reads as the empty string. */
  function VerbName(verb: Value): (name: string)
    ensures verb.Str? ==> name == verb.s
    ensures !verb.Str? ==> name == ""
  {
    if verb.Str? then verb.s else ""
  }

  /** The listener table with the DISPATCHING listener added after every
      listener already registered. */
  function WithDispatchingListener(regs: seq<Registration>): (r: seq<Registration>)
    ensures ListenersFor(r, ControllerDispatching) == ListenersFor(regs, ControllerDispatching) + [RestControllerDispatching]
    ensures forall e :: e != ControllerDispatching ==> ListenersFor(r, e) == ListenersFor(regs, e)
  {
    var added := [Registration(ControllerDispatching, RestControllerDispatching)];
    ListenersForConcat(regs, added, ControllerDispatching);
    forall e | e != ControllerDispatching
      ensures ListenersFor(regs + added, e) == ListenersFor(regs, e)
    {
      ListenersForConcat(regs, added, e);
      assert added[1..] == [];
    }
    regs + added
  }

  /** The listener table with every component DISPATCH listener removed and
      the router's own registered in their place. */
  function WithComponentDispatchReplaced(regs: seq<Registration>): (r: seq<Registration>)
    ensures ListenersFor(r, ComponentDispatch) == [RestComponentDispatch]
    ensures forall e :: e != ComponentDispatch ==> ListenersFor(r, e) == ListenersFor(regs, e)
  {
    var kept := RemoveAllListeners(regs, ComponentDispatch);
    var added := [Registration(ComponentDispatch, RestComponentDispatch)];
    ListenersForConcat(kept, added, ComponentDispatch);
    forall e | e != ComponentDispatch
      ensures ListenersFor(kept + added, e) == ListenersFor(regs, e)
    {
      ListenersForConcat(kept, added, e);
      assert added[1..] == [];
    }
    kept + added
  }

  class RestRouter {
    /** The BaseRouter this router extends. */
    const base: BaseRouter
    /** The lower-cased verb of the last dispatch (the `method` property). */
    var verb: Value
    /** The emitter's listener table, in registration order. */
    var listeners: seq<Registration>

    /** Constructed as a BaseRouter; no verb has been stored yet. */
    constructor(components: map<string, Value>, controllerPrefix: string)
      ensures fresh(base)
      ensures base.components == components
      ensures base.controllerPrefix == if Truthy(controllerPrefix) then controllerPrefix else DefaultControllerPrefix
      ensures base.componentCallback == DefaultComponentCallback
      ensures base.controllerCallback == DefaultControllerCallback
      ensures verb == Null && listeners == []
    {
      base := new BaseRouter(components, controllerPrefix);
      verb := Null;
      listeners := [];
    }

    /** Stores the verb lower-cased, then dispatches as the base router does.
        The base router's result is dropped; a failure of it is passed on. */
    method Dispatch(url: Url, classes: ClassTable, httpVerb: string := "get") returns (r: Outcome)
      modifies this`verb
      ensures verb == Str(StrToLower(httpVerb))
      ensures StrToLower(verb.s) == verb.s
      ensures httpVerb == "PUT" ==> verb == Str("put")
      ensures var routed := Route(base.State(), url, classes);
        && (routed.Ok? ==> r == Done)
        && (routed.Err? ==> r == Failed(routed.error))
    {
      verb := Str(StrToLower(httpVerb));
      StrToLowerIdempotent(httpVerb);
      if httpVerb == "PUT" {
        PutReachesComponentsLowered(httpVerb);
      }
      var routed := base.Dispatch(url, classes);
      if routed.Err? {
        return Failed(routed.error);
      }
      r := Done;
    }

    /** The inherited controller listeners, then the DISPATCHING listener. */
    method SetupControllerListeners(inherited: seq<Registration>)
      modifies this`listeners
      ensures listeners == WithDispatchingListener(old(listeners) + inherited)
    {
      listeners := listeners + inherited;
      listeners := listeners + [Registration(ControllerDispatching, RestControllerDispatching)];
    }

    /** The inherited component listeners, except that every component
        DISPATCH listener gives way to the router's own. */
    method SetupComponentListeners(inherited: seq<Registration>)
      modifies this`listeners
      ensures listeners == WithComponentDispatchReplaced(old(listeners) + inherited)
    {
      listeners := listeners + inherited;
      listeners := RemoveAllListeners(listeners, ComponentDispatch);
      listeners := listeners + [Registration(ComponentDispatch, RestComponentDispatch)];
    }

    /** The DISPATCHING listener: the action is the stored verb, whatever the
        URL holds. A controller without that method is NotFound; otherwise the
        verb becomes the event's method, and the controller and URL are left
        as they are. */
    method OnControllerDispatching(event: ControllerEvent.DispatchEvent, classes: ClassTable) returns (r: Outcome)
      modifies event`methodName
      ensures event.controller == old(event.controller) && event.url == old(event.url)
      ensures !IsObject(event.controller) ==> r == Failed(EngineError) && event.methodName == old(event.methodName)
      ensures IsObject(event.controller) && !MethodExists(classes, ObjectClass(event.controller), VerbName(verb)) ==>
        r == Failed(NotFound(MethodNotFound(ObjectClass(event.controller), VerbName(verb)))) &&
        event.methodName == old(event.methodName)
      ensures IsObject(event.controller) && MethodExists(classes, ObjectClass(event.controller), VerbName(verb)) ==>
        && (verb.Str? ==> r == Done && event.methodName == verb)
        && (!verb.Str? ==> r == Failed(InvalidArgument("method must be a string")) && event.methodName == old(event.methodName))
    {
      var controller := event.GetController();
      if !IsObject(controller) {
        return Failed(EngineError);
      }
      var name := VerbName(verb);
      if !MethodExists(classes, ObjectClass(controller), name) {
        return Failed(NotFound(MethodNotFound(ObjectClass(controller), name)));
      }
      var stored := event.SetMethod(verb);
      r := if stored.Ok? then Done else Failed(stored.error);
    }

    /** The component DISPATCH listener: the nested router dispatches the
        event's URL with the stored verb. */
    method OnComponentDispatch(event: ComponentEvent.DispatchEvent, classes: ClassTable) returns (r: Result<Invocation>)
      ensures r.Ok? <==> IsObject(event.component) && MethodExists(classes, ObjectClass(event.component), "dispatch")
      ensures r.Ok? ==> r.value == NestedDispatch(event.component, [event.url, verb])
      ensures r.Err? ==> r.error == EngineError
    {
      var component := event.GetComponent();
      r := CallDispatch(classes, component, [event.GetUrl(), verb]);
    }
  }

  /** Verbs that differ only in case select the same action. */
  lemma {:induction false} VerbCaseInsensitive(a: string, b: string)
    requires |a| == |b|
    requires forall i :: 0 <= i < |a| ==> LowerChar(a[i]) == LowerChar(b[i])
    ensures StrToLower(a) == StrToLower(b)
    decreases |a|
  {
    if a != [] {
      assert forall i :: 0 <= i < |a[1..]| ==> a[1..][i] == a[i + 1] && b[1..][i] == b[i + 1];
      VerbCaseInsensitive(a[1..], b[1..]);
    }
  }

  /** A PUT request reaches a nested router as "put". */
  lemma PutReachesComponentsLowered(httpVerb: string)
    requires httpVerb == "PUT"
    ensures StrToLower(httpVerb) == "put"
  {
    var s := httpVerb;
    assert s[3..] == [] && StrToLower(s[3..]) == [];
    assert StrToLower(s[2..]) == [LowerChar(s[2])] + StrToLower(s[3..]) == "t";
    assert StrToLower(s[1..]) == [LowerChar(s[1])] + StrToLower(s[2..]) == "ut";
    assert StrToLower(s) == [LowerChar(s[0])] + StrToLower(s[1..]);
  }
}
