/** MvcRouter: the listeners that turn a controller name into a controller
    object and a path into one of its actions, and a component into a nested
    router that dispatches the path. What the listeners emit is appended to
    the router's trace. */
module Mvc {
  import opened Php
  import opened Results
  import opened Classes
  import opened Naming
  import opened Listeners
  import opened Base

  /** CREATE for a controller: the class named by the prefix and the name, or
      NotFound when there is no such class. */
  function CreateController(prefix: string, classes: ClassTable, name: string): (r: Result<Instance>)
    ensures var cls := ControllerClass(prefix, name);
      && (cls !in classes ==> r == Err(NotFound(ClassNotFound(cls))))
      && (cls in classes ==> r == Ok(Instance(cls)))
  {
    var cls := ControllerClass(prefix, name);
    if cls in classes then Ok(Instance(cls)) else Err(NotFound(ClassNotFound(cls)))
  }

  /** DISPATCH for a controller: the first segment (or "index") with "Action"
      appended names the method, which is called on the remaining segments;
      NotFound names the controller's class and that method when it is
      missing. */
  function DispatchController(classes: ClassTable, controller: Instance, url: seq<string>): (r: Result<Invocation>)
    ensures var action := ActionName(url);
      && (!MethodExists(classes, controller.cls, action) ==>
            r == Err(NotFound(MethodNotFound(controller.cls, action))))
      && (MethodExists(classes, controller.cls, action) ==>
            r == Ok(Action(controller.cls, action, ActionArgs(url))))
  {
    var action := ActionName(url);
    if MethodExists(classes, controller.cls, action)
    then Ok(Action(controller.cls, action, ActionArgs(url)))
    else Err(NotFound(MethodNotFound(controller.cls, action)))
  }

  /** CREATE then DISPATCH for a controller, each on the outcome of the one
      before. */
  function ControllerPipeline(prefix: string, classes: ClassTable, name: string, url: seq<string>): Result<Invocation> {
    match CreateController(prefix, classes, name)
    case Err(e) => Err(e)
    case Ok(controller) => DispatchController(classes, controller, url)
  }

  /** CREATE then DISPATCH for a component. */
  function ComponentPipeline(classes: ClassTable, target: Value, url: seq<string>): Result<Invocation> {
    match Instantiate(classes, target)
    case Err(e) => Err(e)
    case Ok(component) => CallDispatch(classes, Object(component), [StrList(url)])
  }

  /** The listeners the constructor registers, in registration order. */
  const MvcRegistrations: seq<Registration> := [
    Registration(ControllerCreate, MvcControllerCreate),
    Registration(ControllerDispatch, MvcControllerDispatch),
    Registration(ComponentCreate, MvcComponentCreate),
    Registration(ComponentDispatch, MvcComponentDispatch)
  ]

  class MvcRouter {
    /** The BaseRouter this router extends. */
    const base: BaseRouter
    /** The emitter's listener table, in registration order. */
    var listeners: seq<Registration>
    /** What the listeners have emitted, oldest first. */
    var trace: seq<Emission>

    /** The base router is built first; then the controller listeners are
        registered, and then the component listeners. */
    constructor(components: map<string, Value>, controllerPrefix: string)
      ensures fresh(base)
      ensures base.components == components
      ensures base.controllerPrefix == if Truthy(controllerPrefix) then controllerPrefix else DefaultControllerPrefix
      ensures base.componentCallback == DefaultComponentCallback
      ensures base.controllerCallback == DefaultControllerCallback
      ensures listeners == MvcRegistrations
      ensures trace == []
    {
      base := new BaseRouter(components, controllerPrefix);
      listeners := [];
      trace := [];
      new;
      SetupControllerListeners();
      SetupComponentListeners();
    }

    /** Registers the controller CREATE and DISPATCH listeners. */
    method SetupControllerListeners()
      modifies this`listeners
      ensures listeners == old(listeners) + [Registration(ControllerCreate, MvcControllerCreate),
                                             Registration(ControllerDispatch, MvcControllerDispatch)]
    {
      listeners := listeners + [Registration(ControllerCreate, MvcControllerCreate)];
      listeners := listeners + [Registration(ControllerDispatch, MvcControllerDispatch)];
    }

    /** Registers the component CREATE and DISPATCH listeners. */
    method SetupComponentListeners()
      modifies this`listeners
      ensures listeners == old(listeners) + [Registration(ComponentCreate, MvcComponentCreate),
                                             Registration(ComponentDispatch, MvcComponentDispatch)]
    {
      listeners := listeners + [Registration(ComponentCreate, MvcComponentCreate)];
      listeners := listeners + [Registration(ComponentDispatch, MvcComponentDispatch)];
    }

    /** The controller CREATE listener: instantiates the controller class
        under the router's current prefix and emits CREATED with it and the
        URL unchanged; a missing class fails with NotFound and emits nothing. */
    method OnControllerCreate(name: string, url: seq<string>, classes: ClassTable) returns (r: Outcome)
      modifies this`trace
      ensures var cls := ControllerClass(base.controllerPrefix, name);
        && (cls !in classes ==> r == Failed(NotFound(ClassNotFound(cls))) && trace == old(trace))
        && (cls in classes ==> r == Done && trace == old(trace) + [ControllerWasCreated(Instance(cls), url)])
      ensures var created := CreateController(base.controllerPrefix, classes, name);
        && (created.Err? ==> r == Failed(created.error))
        && (created.Ok? ==> trace[|trace| - 1] == ControllerWasCreated(created.value, url))
      ensures r == Done ==> EventName(trace[|trace| - 1]) == ControllerCreated
    {
      var prefix := base.GetControllerPrefix();
      var created := CreateController(prefix, classes, name);
      if created.Err? {
        return Failed(created.error);
      }
      trace := trace + [ControllerWasCreated(created.value, url)];
      r := Done;
    }

    /** The controller DISPATCH listener: calls the action the path names on
        the rest of the path and emits DISPATCHED with (result, controller,
        action); a missing action fails with NotFound, calls nothing and emits
        nothing. */
    method OnControllerDispatch(controller: Instance, url: seq<string>, classes: ClassTable) returns (r: Outcome)
      modifies this`trace
      ensures var action := ActionName(url);
        && (!MethodExists(classes, controller.cls, action) ==>
              r == Failed(NotFound(MethodNotFound(controller.cls, action))) && trace == old(trace))
        && (MethodExists(classes, controller.cls, action) ==>
              r == Done &&
              trace == old(trace) + [ControllerWasDispatched(Action(controller.cls, action, ActionArgs(url)), controller, action)])
      ensures var called := DispatchController(classes, controller, url);
        && (called.Err? ==> r == Failed(called.error))
        && (called.Ok? ==> trace[|trace| - 1] == ControllerWasDispatched(called.value, controller, ActionName(url)))
      ensures r == Done ==> EventName(trace[|trace| - 1]) == ControllerDispatched
    {
      var action := DefaultAction;
      var rest := url;
      if |rest| > 0 {
        action := rest[0];
        rest := rest[1..];
      }
      action := action + ActionSuffix;
      if !MethodExists(classes, controller.cls, action) {
        return Failed(NotFound(MethodNotFound(controller.cls, action)));
      }
      trace := trace + [ControllerWasDispatched(Action(controller.cls, action, rest), controller, action)];
      r := Done;
    }

    /** The component CREATE listener: `new` of the component (a class name or
        an object) and CREATED with the new object and the URL unchanged. */
    method OnComponentCreate(component: Value, url: seq<string>, classes: ClassTable) returns (r: Outcome)
      modifies this`trace
      ensures var created := Instantiate(classes, component);
        && (created.Err? ==> r == Failed(EngineError) && trace == old(trace))
        && (created.Ok? ==> r == Done && trace == old(trace) + [ComponentWasCreated(created.value, url)])
      ensures r == Done ==> EventName(trace[|trace| - 1]) == ComponentCreated
    {
      var created := Instantiate(classes, component);
      if created.Err? {
        return Failed(created.error);
      }
      trace := trace + [ComponentWasCreated(created.value, url)];
      r := Done;
    }

    /** The component DISPATCH listener: the nested router dispatches the URL
        unchanged, and DISPATCHED carries (result, component, url). */
    method OnComponentDispatch(component: Value, url: seq<string>, classes: ClassTable) returns (r: Outcome)
      modifies this`trace
      ensures var called := CallDispatch(classes, component, [StrList(url)]);
        && (called.Err? ==> r == Failed(EngineError) && trace == old(trace))
        && (called.Ok? ==>
              r == Done &&
              trace == old(trace) + [ComponentWasDispatched(NestedDispatch(component, [StrList(url)]), component, url)])
      ensures r == Done ==> EventName(trace[|trace| - 1]) == ComponentDispatched
    {
      var called := CallDispatch(classes, component, [StrList(url)]);
      if called.Err? {
        return Failed(called.error);
      }
      trace := trace + [ComponentWasDispatched(called.value, component, url)];
      r := Done;
    }
  }

  /** The controller listeners resolve a name and a path exactly as
      BaseRouter's default controller callback does: same class, same action,
      same arguments, and the same NotFound in the same order. */
  lemma ControllerPipelineAgreesWithBase(prefix: string, classes: ClassTable, name: string, url: seq<string>)
    ensures ControllerPipeline(prefix, classes, name, url) == DefaultControllerCall(prefix, classes, name, url)
  {
  }

  /** The component listeners hand the nested router what BaseRouter's
      default component callback hands it. */
  lemma ComponentPipelineAgreesWithBase(classes: ClassTable, target: Value, url: seq<string>)
    ensures ComponentPipeline(classes, target, url) == DefaultComponentCall(classes, target, url)
  {
  }

  /** The four event names the constructor registers for differ. */
  lemma EventNamesDistinct()
    ensures ControllerCreate != ControllerDispatch && ControllerCreate != ComponentCreate
    ensures ControllerCreate != ComponentDispatch && ControllerDispatch != ComponentCreate
    ensures ControllerDispatch != ComponentDispatch && ComponentCreate != ComponentDispatch
  {
    assert |ControllerCreate| != |ControllerDispatch| && |ComponentCreate| != |ComponentDispatch|;
    assert |ControllerCreate| != |ComponentDispatch| && |ControllerDispatch| != |ComponentCreate|;
    assert ControllerCreate[13] != ComponentCreate[13] && ControllerDispatch[13] != ComponentDispatch[13];
  }

  /** The order in which the constructor registers listeners: for each of the
      four events exactly one listener, the router's own. */
  lemma MvcListenersPerEvent()
    ensures ListenersFor(MvcRegistrations, ControllerCreate) == [MvcControllerCreate]
    ensures ListenersFor(MvcRegistrations, ControllerDispatch) == [MvcControllerDispatch]
    ensures ListenersFor(MvcRegistrations, ComponentCreate) == [MvcComponentCreate]
    ensures ListenersFor(MvcRegistrations, ComponentDispatch) == [MvcComponentDispatch]
  {
    EventNamesDistinct();
    var regs := MvcRegistrations;
    var controllers, components := regs[..2], regs[2..];
    assert regs == controllers + components;
    ListenersForConcat(controllers, components, ControllerCreate);
    ListenersForConcat(controllers, components, ControllerDispatch);
    ListenersForConcat(controllers, components, ComponentCreate);
    ListenersForConcat(controllers, components, ComponentDispatch);
    assert controllers[1..] == [controllers[1]] && components[1..] == [components[1]];
  }
}
