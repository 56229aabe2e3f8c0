# dcp-router, modelled in Dafny

A model of the path resolution in the PHP router `DCP\Router` and of the
event records its routers pass around.

- **BaseRouter** turns a URL into path segments. It cuts the URL at its first
  `?`, splits the rest on `/` and drops the empty pieces. A URL with nothing
  left is "absent" (`FALSE`).
- **BaseRouter.dispatch** sends an absent path to the controller callback with
  `index`. A first segment that is a set key of the component table goes to
  the component callback, with the table entry and the remaining segments.
  Any other first segment goes to the controller callback, with itself and
  the remaining segments. `dispatch` returns what that one callback returns.
- **The default controller callback** builds the class
  `prefix\Ucfirst(name)Controller` and the action `<segment or index>Action`.
  It raises NotFound for a missing class first, and then for a missing action.
- **The default component callback** instantiates the component and calls its
  `dispatch` with the rest of the path.
- **MvcRouter** registers four listeners. The controller CREATE and DISPATCH
  listeners apply the same naming convention. The component CREATE and
  DISPATCH listeners instantiate the component and run its `dispatch`. Each
  listener emits the matching CREATED or DISPATCHED event.
- **RestRouter** stores the lower-cased HTTP verb in `dispatch`. Its
  DISPATCHING listener uses the verb as the action name. Its component
  DISPATCH listener, which replaces every other one, passes the verb on to
  the nested router.
- **The event records** are the controller DispatchEvent, CreatingEvent,
  CreateEvent and the component DispatchEvent. Each is a class whose setters
  update one field and return the event. Some setters check the type of
  their value first.

How things are represented:

- PHP values are the datatype `Php.Value`.
- PHP's class lookup and reflection are replaced by a table from class name
  to method names (`Classes.ClassTable`).
- A call into application code, whether a controller action or a nested
  router's `dispatch`, is represented by the call itself (`Classes.Invocation`).
- Exceptions are the error variants of `Results.Error`, carrying the exact
  messages. `EngineError` stands for a PHP fatal error.
- Listeners are an ordered table of registrations. What an MvcRouter emits is
  appended to its trace.

Modules, one per file:

| module | contents |
|---|---|
| `Results` | Result, Outcome and Option types |
| `Php` | the PHP behaviour the router relies on: type tests, truthiness, `ucfirst`, `strtolower`, `explode`/`implode` |
| `Classes` | the class table, `new`, and calls to `dispatch` |
| `Naming` | controller class and action names, NotFound messages |
| `Listeners` | event names, emissions, the listener table |
| `Base` | the tokenizer, the callbacks, `Route`, and `BaseRouter` |
| `Mvc` | `MvcRouter` |
| `Rest` | `RestRouter` |
| `ControllerEvent`, `ComponentEvent`, `Event` | the event records |

## Model

| member | source | states |
|---|---|---|
| Php.Truthy | src/DCP/Router/BaseRouter.php:196 | a string in a boolean context: `""` and `"0"` are false, every other one-character string and every longer string is true |
| Php.Ucfirst | src/DCP/Router/BaseRouter.php:145 | `ucfirst` keeps the length and every character after the first; a lower-case first letter becomes its upper-case counterpart; a string whose first character is not a lower-case letter is unchanged |
| Php.StrToLower | src/DCP/Router/RestRouter.php:28 | `strtolower` keeps the length, turns every upper-case letter into its lower-case counterpart, leaves no upper-case letter, and leaves every other character in place |
| Php.StrToLowerIdempotent | src/DCP/Router/RestRouter.php:28 | lower-casing a lower-cased verb changes nothing |
| Php.Explode | src/DCP/Router/BaseRouter.php:198-202 | `explode` always yields at least one piece, and the empty string explodes to one empty piece; ExplodePieces pins down the pieces |
| Php.ExplodePieces | src/DCP/Router/BaseRouter.php:197-202 | the pieces of `explode` contain no delimiter, glue back (`implode`) to the input, and the first piece is the input up to its first delimiter |
| Php.ExplodeConcat | src/DCP/Router/BaseRouter.php:202 | exploding `x + sep + y` gives the pieces of `x` followed by the pieces of `y` |
| Php.ExplodeJoin | src/DCP/Router/BaseRouter.php:202 | exploding an imploded list of delimiter-free pieces gives the list back |
| Classes.Instantiate | src/DCP/Router/BaseRouter.php:117 | `new $node()`: a class name gives an object of that class exactly when the class exists; an object gives a new object of its class; anything else is a fatal error |
| Classes.CallDispatch | src/DCP/Router/BaseRouter.php:118 | `$instance->dispatch(...)` succeeds exactly when the value is an object whose class has `dispatch`, and is then that call with those arguments; otherwise it is a fatal error |
| Naming.ControllerClassIdentifies | src/DCP/Router/BaseRouter.php:145 | two names select the same controller class under a prefix exactly when their `ucfirst` forms are equal |
| Naming.ControllerClassShape | src/DCP/Router/BaseRouter.php:145 | the class name is the prefix, a backslash, the name with its first letter upper-cased, and `Controller` |
| Naming.ActionSplitsPath | src/DCP/Router/BaseRouter.php:148-155 | the action consumes exactly the first segment: that segment put back before the arguments is the path again; an empty path gives `indexAction` and no arguments |
| Naming.ActionNameIdentifies | src/DCP/Router/BaseRouter.php:148-155 | two paths select the same action method exactly when their action segments (or `index`) agree |
| Base.QueryStripped | src/DCP/Router/BaseRouter.php:197-199 | the part kept holds no `?` and is a prefix of the URL that is either all of it or is followed by its first `?` |
| Base.NonEmpty | src/DCP/Router/BaseRouter.php:207-215 | the pieces kept are exactly the non-empty pieces |
| Base.Tokenize | src/DCP/Router/BaseRouter.php:193-225 | a URL that reads as false (`""` or `"0"`) gives FALSE (None), and the tokenizer never yields an empty list: an empty result is FALSE |
| Base.Path | src/DCP/Router/BaseRouter.php:234-244 | a string URL is tokenized; an array URL is used as it is, with no segment dropped or changed, and is absent exactly when it is empty; no path is empty |
| Base.DefaultControllerCall | src/DCP/Router/BaseRouter.php:138-175 | a missing `prefix\Ucfirst(name)Controller` is NotFound `Could not find <class>` before any method check; a missing `<segment or index>Action` is NotFound `Could not find <class>::<action>`; otherwise that action is called on the segments after its own |
| Base.DefaultComponentCall | src/DCP/Router/BaseRouter.php:114-120 | the call succeeds exactly when `new` of the target succeeds and the new object's class has `dispatch`, and it is then that new object's `dispatch` on the remaining segments; a failure is a fatal error |
| Base.CallCallback | src/DCP/Router/BaseRouter.php:245-252 | `call_user_func_array` on a stored callback: the default controller closure with a string node is the default controller call, with any other node a fatal error; the default component closure is the default component call; a user closure is called with (node, url) |
| Base.IsSet | src/DCP/Router/BaseRouter.php:249 | `isset($components[$key])`: a set key is in the table, and a key in the table is set exactly when its entry is not null |
| Base.Route | src/DCP/Router/BaseRouter.php:231-257 | with the default callbacks, an absent path is the default controller call on (`index`, []), a first segment not set in the table is the default controller call on (segment, rest), and a set one is the default component call on (its entry, rest) |
| Base.BaseRouter.constructor | src/DCP/Router/BaseRouter.php:65-76 | the components and prefix are stored when they are truthy, otherwise the defaults (an empty table, `DCP\Router`) stay; both callbacks start as the defaults |
| Base.BaseRouter.SetComponents | src/DCP/Router/BaseRouter.php:90-92 | the getter returns the table stored |
| Base.BaseRouter.SetControllerPrefix | src/DCP/Router/BaseRouter.php:106-108 | the getter returns the prefix stored |
| Base.BaseRouter.SetComponentCallback | src/DCP/Router/BaseRouter.php:126-132 | a callable is stored; anything else is InvalidArgument `Argument is not callable.` and the stored callback is unchanged |
| Base.BaseRouter.SetControllerCallback | src/DCP/Router/BaseRouter.php:181-187 | a callable is stored; anything else is InvalidArgument `Argument is not callable.` and the stored callback is unchanged |
| Base.BaseRouter.ConvertUrlToArray | src/DCP/Router/BaseRouter.php:193-225 | the loop that drops empty pieces computes the tokenizer, so every property proved of `Tokenize` holds for it |
| Base.BaseRouter.Dispatch | src/DCP/Router/BaseRouter.php:231-257 | an absent path calls the controller callback with (`index`, []); otherwise exactly one callback runs, the component callback with (table entry, rest) when the first segment is set in the table, else the controller callback with (segment, rest); its result is returned |
| Base.NonEmptyConcat | src/DCP/Router/BaseRouter.php:207-215 | dropping empty pieces distributes over concatenation, so the order of the kept pieces is preserved |
| Base.NonEmptyKeepsAll | src/DCP/Router/BaseRouter.php:207-215 | non-empty pieces are all kept, unaltered and in order |
| Base.QueryStrippedKeepsHead | src/DCP/Router/BaseRouter.php:197-199 | a `?`-free beginning of the URL survives the query cut unchanged |
| Base.TokenizeWellFormed | src/DCP/Router/BaseRouter.php:193-225 | every segment is non-empty and holds neither `/` nor `?` |
| Base.TokenizeDropsQuery | src/DCP/Router/BaseRouter.php:197-199 | everything from the first `?` on is ignored: `path?query` tokenizes like `path` |
| Base.AllSlashes | src/DCP/Router/BaseRouter.php:202-224 | splitting on `/` leaves no non-empty piece exactly when the string is nothing but slashes |
| Base.TokenizeAbsent | src/DCP/Router/BaseRouter.php:194-224 | the tokenizer gives FALSE exactly when the URL reads as false or is nothing but slashes before its first `?` (`"/"`, `"?x"`) |
| Base.TokenizeAbsentExamples | src/DCP/Router/BaseRouter.php:194-224 | `""`, `"0"` and `"/"` all give FALSE |
| Base.RouteAbsentToIndex | src/DCP/Router/BaseRouter.php:244-245 | with the default controller callback, `""`, `"0"` and `"/"` are routed to the index controller with no arguments |
| Base.ExplodeDoubleSlash | src/DCP/Router/BaseRouter.php:202 | a doubled slash leaves one empty piece between the pieces on either side |
| Base.NonEmptyDropsEmpty | src/DCP/Router/BaseRouter.php:207-215 | an empty piece contributes no segment |
| Base.SplitIgnoresDoubleSlash | src/DCP/Router/BaseRouter.php:202-215 | after the query cut, a doubled slash splits like a single one |
| Base.TokenizeCollapsesSlashes | src/DCP/Router/BaseRouter.php:202-215 | a run of slashes counts as one: `a//b` tokenizes like `a/b` |
| Base.SplitJoined | src/DCP/Router/BaseRouter.php:202-215 | segments written after a leading slash split back into the same segments |
| Base.TokenizeRoundTrip | src/DCP/Router/BaseRouter.php:193-225 | tokenizing `/s1/s2/...` gives back `[s1, s2, ...]` for any non-empty segments without `/` or `?` |
| Base.CollapseRuns | src/DCP/Router/BaseRouter.php:202-215 | `/x//y///z` tokenizes like `/x/y/z` |
| Base.TokenizeRunsOfSlashes | src/DCP/Router/BaseRouter.php:202-215 | `/x//y///z` tokenizes to `[x, y, z]`, as `/a//b///c` gives `[a, b, c]` |
| Base.RouteTextAsSegments | src/DCP/Router/BaseRouter.php:234-236 | dispatching a URL string is dispatching its tokens as an array, and an absent path is dispatched like an empty array |
| Base.RouteComponentWins | src/DCP/Router/BaseRouter.php:247-252 | with the default component callback, a first segment set in the component table always goes to a new instance of its table entry, whose `dispatch` gets the rest of the path, even when a controller of that name exists; the call fails only when that instance cannot be made or has no `dispatch` |
| Base.RouteTwoSegments | src/DCP/Router/BaseRouter.php:231-257 | `/name/action` without a component `name` ends in a NotFound for the class, a NotFound for `actionAction`, or that action called with no arguments |
| Listeners.ListenersFor | src/DCP/Router/RestRouter.php:67-68 | the listeners an event runs are exactly those registered for it |
| Listeners.ListenersForConcat | src/DCP/Router/RestRouter.php:35-39 | listeners registered later run after those registered earlier |
| Listeners.RemoveAllListeners | src/DCP/Router/RestRouter.php:67 | `removeAllListeners(event)` leaves no listener for that event and the listeners of every other event as they were |
| ControllerEvent.DispatchEvent.constructor | src/DCP/Router/Event/Controller/DispatchEvent.php:21-31 | a fresh event has controller, method and url all null |
| ControllerEvent.DispatchEvent.SetController | src/DCP/Router/Event/Controller/DispatchEvent.php:38-46 | an object is stored, the getter returns it and the event itself is returned; anything else is InvalidArgument `controller must be an object`; no other field changes |
| ControllerEvent.DispatchEvent.SetMethod | src/DCP/Router/Event/Controller/DispatchEvent.php:61-69 | a string is stored, the getter returns it and the event itself is returned; anything else is InvalidArgument `method must be a string`; no other field changes |
| ControllerEvent.DispatchEvent.SetUrl | src/DCP/Router/Event/Controller/DispatchEvent.php:84-92 | an array is stored, the getter returns it and the event itself is returned; anything else is InvalidArgument `url must be an array`; no other field changes |
| Event.CreatingEvent.constructor | src/DCP/Router/Event/CreatingEvent.php:19-24 | a fresh event has name `''` and class `''` |
| Event.CreatingEvent.SetClass | src/DCP/Router/Event/CreatingEvent.php:31-39 | a string is stored and returned by the getter, and the event is returned; anything else is InvalidArgument `class must be a string` and class is unchanged; name never changes |
| Event.CreatingEvent.SetName | src/DCP/Router/Event/CreatingEvent.php:54-62 | a string is stored and returned by the getter, and the event is returned; anything else is InvalidArgument `name must be a string` and name is unchanged; class never changes |
| Event.CreateEvent.constructor | src/DCP/Router/Event/CreateEvent.php:7-9 | a fresh event has class and instance null |
| Event.CreateEvent.SetClass | src/DCP/Router/Event/CreateEvent.php:15-19 | any value is stored unchecked and returned by the getter; the instance is unchanged; the event is returned |
| Event.CreateEvent.SetInstance | src/DCP/Router/Event/CreateEvent.php:33-37 | any value is stored unchecked and returned by the getter; the class is unchanged; the event is returned |
| ComponentEvent.DispatchEvent.constructor | src/DCP/Router/Event/Component/DispatchEvent.php:9-11 | a fresh event has component and url null |
| ComponentEvent.DispatchEvent.SetComponent | src/DCP/Router/Event/Component/DispatchEvent.php:17-21 | any value is stored unchecked and returned by the getter; the url is unchanged; the event is returned |
| ComponentEvent.DispatchEvent.SetUrl | src/DCP/Router/Event/Component/DispatchEvent.php:35-39 | any value is stored unchecked and returned by the getter; the component is unchanged; the event is returned |
| Mvc.CreateController | src/DCP/Router/MvcRouter.php:51-61 | the controller is an object of `prefix\Ucfirst(name)Controller`; a missing class is NotFound `Could not find <class>` |
| Mvc.DispatchController | src/DCP/Router/MvcRouter.php:64-81 | the action is the first segment (else `index`) plus `Action`, called on the rest of the URL; a missing method is NotFound `Could not find <class>::<action>` |
| Mvc.MvcRouter.constructor | src/DCP/Router/MvcRouter.php:41-47 | the base router is built first, then the controller CREATE and DISPATCH listeners are registered, then the component CREATE and DISPATCH listeners; nothing has been emitted |
| Mvc.MvcRouter.SetupControllerListeners | src/DCP/Router/MvcRouter.php:49-84 | the controller CREATE listener, then the DISPATCH listener, are added after those registered |
| Mvc.MvcRouter.SetupComponentListeners | src/DCP/Router/MvcRouter.php:86-97 | the component CREATE listener, then the DISPATCH listener, are added after those registered |
| Mvc.MvcRouter.OnControllerCreate | src/DCP/Router/MvcRouter.php:51-62 | under the router's current prefix, a missing class fails with NotFound and emits nothing; otherwise CREATED (`dcp.router.controller.created`) is emitted with the new controller and the URL unchanged, as CreateController decides |
| Mvc.MvcRouter.OnControllerDispatch | src/DCP/Router/MvcRouter.php:64-83 | a missing action fails with NotFound, calls nothing and emits nothing; otherwise the action is called on the URL minus its segment and DISPATCHED (`dcp.router.controller.dispatched`) is emitted with (result, controller, action), as DispatchController decides |
| Mvc.MvcRouter.OnComponentCreate | src/DCP/Router/MvcRouter.php:88-91 | CREATED (`dcp.router.component.created`) is emitted with the new component and the URL unchanged; a failed `new` emits nothing |
| Mvc.MvcRouter.OnComponentDispatch | src/DCP/Router/MvcRouter.php:93-96 | the nested `dispatch` gets the URL unchanged, and DISPATCHED (`dcp.router.component.dispatched`) is emitted with (result, component, url); a failed call emits nothing |
| Mvc.ControllerPipelineAgreesWithBase | src/DCP/Router/MvcRouter.php:51-83 | the controller CREATE then DISPATCH listeners resolve a name and path exactly as BaseRouter's default controller callback: same class, action, arguments and NotFound, in the same order |
| Mvc.ComponentPipelineAgreesWithBase | src/DCP/Router/MvcRouter.php:88-96 | the component CREATE then DISPATCH listeners call the nested router as BaseRouter's default component callback does |
| Mvc.MvcListenersPerEvent | src/DCP/Router/MvcRouter.php:41-47 | after construction each of the four events runs exactly one listener, the router's own |
| Rest.VerbName | src/DCP/Router/RestRouter.php:48-50 | the method looked up is the stored verb; before any dispatch (null) it is the empty name |
| Rest.WithDispatchingListener | src/DCP/Router/RestRouter.php:35-39 | the DISPATCHING listener runs after every one registered before it, and no other event's listeners change |
| Rest.WithComponentDispatchReplaced | src/DCP/Router/RestRouter.php:63-72 | component DISPATCH runs exactly one listener, the router's own, and no other event's listeners change |
| Rest.RestRouter.constructor | src/DCP/Router/RestRouter.php:20 | a new RestRouter is a BaseRouter with the default callbacks and no verb stored |
| Rest.RestRouter.Dispatch | src/DCP/Router/RestRouter.php:26-30 | the verb (default `get`) is stored lower-cased before the base router dispatches, so `PUT` is stored as `put`; the base router's result is dropped and its failure passed on |
| Rest.RestRouter.SetupControllerListeners | src/DCP/Router/RestRouter.php:35-39 | the parent's controller listeners, then the DISPATCHING listener |
| Rest.RestRouter.SetupComponentListeners | src/DCP/Router/RestRouter.php:63-72 | the parent's component listeners, with every component DISPATCH listener replaced by the router's own |
| Rest.RestRouter.OnControllerDispatching | src/DCP/Router/RestRouter.php:46-57 | the action is the stored verb, whatever the URL; a controller without it is NotFound `Could not find <class>::<verb>`; otherwise the verb becomes the event's method; controller and url are never changed |
| Rest.RestRouter.OnComponentDispatch | src/DCP/Router/RestRouter.php:68-71 | the nested `dispatch` gets the event's URL and the stored lower-cased verb |
| Rest.VerbCaseInsensitive | src/DCP/Router/RestRouter.php:28 | verbs that differ only in letter case store the same verb |
| Rest.PutReachesComponentsLowered | src/DCP/Router/RestRouter.php:28 | `PUT` lower-cases to `put`; RestRouter.Dispatch uses it to state that a `PUT` request stores the verb `put`, which OnComponentDispatch hands on |

## Left out

- The event emitter's `on`, `emit` and `removeAllListeners` belong to a library that is not part of this model. Registration is an ordered table. Removal is `Listeners.RemoveAllListeners`. Emission is appended to `MvcRouter.trace`. Listeners are methods called directly with the event's arguments, not run by a listener bus.
- BaseRouter.php in this version has no `on`, no `emit`, no `setupControllerListeners`/`setupComponentListeners` and no `EVENT_*` constants, though MvcRouter and RestRouter use them. The `self::EVENT_*` names are taken to be the strings of ControllerEvents.php and ComponentEvents.php.
- Rest.RestRouter.SetupControllerListeners and Rest.RestRouter.SetupComponentListeners take the parent's registrations as a parameter, because the parent methods they call do not exist in this BaseRouter. This BaseRouter's constructor also never calls them.
- Rest.RestRouter.Dispatch routes through the callback-based BaseRouter.dispatch as written, whose controller callback picks the action from the path. The stored verb therefore only matters to the listeners. The RestRouter tests expect an event-driven base class that is not part of this model.
- Class and method lookup match names exactly. PHP's case-insensitive class and method names, autoloading, inheritance of methods and `__call` are not modelled.
- Controller actions and nested routers are not run. Their results are the calls themselves (`Classes.Invocation`), so recursion into nested routers is not modelled, and neither are cyclic component tables.
- Base.CallCallback: the default controller closure given a node that is not a string (possible only when it is installed as the component callback and a table entry is not a string) is a fatal error in the model. PHP 8 raises a TypeError there; PHP 7 only warns and goes on to look up `prefix\Controller`, which the model does not follow.
- Callables are closures only. String and array callables, and what `is_callable` says about them, are not modelled. A user closure's behaviour is not modelled, only that it is called with (node, url).
- The default controller callback reads the prefix of the router it was created by. The model uses the dispatching router's prefix, which is the same router unless a callback is moved between routers.
- URLs, prefixes and component table entries are strings, or a value for the table. The constructor's `null` arguments are modelled as an empty table and the empty prefix. Non-string URLs other than segment arrays, non-string path segments, and PHP's loose comparisons and conversions are left out.
- A URL that is exactly `"0"` is read as false by PHP, so `Base.Tokenize` yields FALSE for it, as the source does.
- Mvc.MvcRouter.OnControllerDispatch takes the controller as an object of known class. The CREATE listener always produces one. A class-name string in its place is not modelled.
- Rest.RestRouter.OnControllerDispatching treats a non-object controller as a fatal error and a null verb as the empty method name. PHP's behaviour for these depends on its version.
- `ucfirst` and `strtolower` work on ASCII letters only. Locale-dependent case mapping is not modelled.
- The exceptions are error values. The exception class hierarchy, the interfaces and the two CreatedEvent classes (one unchecked field each) are not modelled.
