/** The event names of the six phases, for controllers and components, and the
    router's listener bookkeeping. Listeners are an ordered table of
    (event name, listener) registrations; what a router emits is recorded as a
    trace of emissions rather than delivered to a listener bus. */
module Listeners {
  import opened Classes
  import opened Php

  const ControllerCreating: string := "dcp.router.controller.creating"
  const ControllerCreate: string := "dcp.router.controller.create"
  const ControllerCreated: string := "dcp.router.controller.created"
  const ControllerDispatching: string := "dcp.router.controller.dispatching"
  const ControllerDispatch: string := "dcp.router.controller.dispatch"
  const ControllerDispatched: string := "dcp.router.controller.dispatched"

  const ComponentCreating: string := "dcp.router.component.creating"
  const ComponentCreate: string := "dcp.router.component.create"
  const ComponentCreated: string := "dcp.router.component.created"
  const ComponentDispatching: string := "dcp.router.component.dispatching"
  const ComponentDispatch: string := "dcp.router.component.dispatch"
  const ComponentDispatched: string := "dcp.router.component.dispatched"

  /** An emitted event with its arguments. */
  datatype Emission =
    | ControllerWasCreated(controller: Instance, url: seq<string>)
    | ControllerWasDispatched(result: Invocation, controller: Instance, action: string)
    | ComponentWasCreated(component: Instance, url: seq<string>)
    | ComponentWasDispatched(result: Invocation, router: Value, url: seq<string>)

  /** The name under which an emission is emitted. */
  function EventName(e: Emission): string {
    match e
    case ControllerWasCreated(_, _) => ControllerCreated
    case ControllerWasDispatched(_, _, _) => ControllerDispatched
    case ComponentWasCreated(_, _) => ComponentCreated
    case ComponentWasDispatched(_, _, _) => ComponentDispatched
  }

  /** The listeners the routers register, and any other listener (one
      registered by application code, or by a parent class not modelled). */
  datatype Listener =
    | MvcControllerCreate
    | MvcControllerDispatch
    | MvcComponentCreate
    | MvcComponentDispatch
    | RestControllerDispatching
    | RestComponentDispatch
    | Other(id: nat)

  datatype Registration = Registration(event: string, listener: Listener)

  /** The listeners an emission of `event` runs, in registration order. */
  function ListenersFor(regs: seq<Registration>, event: string): (r: seq<Listener>)
    ensures |r| <= |regs|
    ensures forall l :: l in r <==> Registration(event, l) in regs
  {
    if regs == [] then []
    else
      var rest := ListenersFor(regs[1..], event);
      assert forall g :: g in regs <==> g == regs[0] || g in regs[1..];
      if regs[0].event == event then [regs[0].listener] + rest else rest
  }

  /** The listeners for `a + b` are those for `a` followed by those for `b`. */
  lemma {:induction false} ListenersForConcat(a: seq<Registration>, b: seq<Registration>, event: string)
    ensures ListenersFor(a + b, event) == ListenersFor(a, event) + ListenersFor(b, event)
    decreases |a|
  {
    if a == [] {
      assert a + b == b;
    } else {
      assert (a + b)[0] == a[0] && (a + b)[1..] == a[1..] + b;
      ListenersForConcat(a[1..], b, event);
    }
  }

  /** The emitter's `removeAllListeners(event)`: the registrations for every
      other event, in their order. */
  function RemoveAllListeners(regs: seq<Registration>, event: string): (r: seq<Registration>)
    ensures forall g :: g in r <==> g in regs && g.event != event
    ensures ListenersFor(r, event) == []
    ensures forall e :: e != event ==> ListenersFor(r, e) == ListenersFor(regs, e)
  {
    if regs == [] then []
    else
      var rest := RemoveAllListeners(regs[1..], event);
      assert forall g :: g in regs <==> g == regs[0] || g in regs[1..];
      if regs[0].event == event then rest
      else
        assert ([regs[0]] + rest)[1..] == rest;
        [regs[0]] + rest
  }
}
