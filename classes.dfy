/** The stand-in for PHP's class lookup and reflection (`class_exists`,
    `method_exists`, `new $name`, `get_class`) and for the calls the router
    makes into code it does not see. The classes an application defines are
    given as a table from class name to the names of its methods; a call into
    application code is represented by the call itself, which stands for the
    value it returns. */
module Classes {
  import opened Php
  import opened Results

  /** Class name -> names of the methods the class defines. */
  type ClassTable = map<string, set<string>>

  /** The methods of a class; a class that does not exist has none. */
  function Methods(classes: ClassTable, cls: string): set<string> {
    if cls in classes then classes[cls] else {}
  }

  /** `method_exists` on an object of class `cls`. */
  predicate MethodExists(classes: ClassTable, cls: string, name: string) {
    name in Methods(classes, cls)
  }

  /** `get_class` of an object; every closure is of class Closure. */
  function ObjectClass(v: Value): string
    requires IsObject(v)
  {
    if v.Object? then v.obj.cls else "Closure"
  }

  /** A call into code outside the router. Its value is the value that call
      returns, which the router passes on without looking at it. */
  datatype Invocation =
    | Action(cls: string, action: string, args: seq<string>)  // a controller action
    | NestedDispatch(component: Value, arguments: seq<Value>) // `dispatch` of a nested router
    | UserCall(name: string, node: Value, url: seq<string>)    // a user-supplied callback

  /** `new $target()`: a class name is instantiated when the class exists, an
      object yields a new object of its own class, and anything else (a closure
      included, whose class cannot be instantiated) is a fatal error. */
  function Instantiate(classes: ClassTable, target: Value): (r: Result<Instance>)
    ensures target.Str? ==> (r.Ok? <==> target.s in classes)
    ensures target.Str? && r.Ok? ==> r.value.cls == target.s
    ensures target.Object? ==> r == Ok(Instance(target.obj.cls))
    ensures !target.Str? && !target.Object? ==> r.Err?
    ensures r.Err? ==> r.error == EngineError
  {
    match target
    case Str(cls) => if cls in classes then Ok(Instance(cls)) else Err(EngineError)
    case Object(obj) => Ok(Instance(obj.cls))
    case _ => Err(EngineError)
  }

  /** `$instance->dispatch(...args)` on a nested router: a fatal error unless
      the value is an object whose class has a dispatch method. */
  function CallDispatch(classes: ClassTable, component: Value, args: seq<Value>): (r: Result<Invocation>)
    ensures r.Ok? <==> IsObject(component) && MethodExists(classes, ObjectClass(component), "dispatch")
    ensures r.Ok? ==> r.value == NestedDispatch(component, args)
    ensures r.Err? ==> r.error == EngineError
  {
    if IsObject(component) && MethodExists(classes, ObjectClass(component), "dispatch")
    then Ok(NestedDispatch(component, args))
    else Err(EngineError)
  }
}
