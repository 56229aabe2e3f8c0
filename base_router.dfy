/** BaseRouter: turns a URL into path segments and hands the first segment to
    one of two callbacks, the component callback when the segment is a key of
    the component table, and the controller callback otherwise. */
module Base {
  import opened Php
  import opened Results
  import opened Classes
  import opened Naming

  /** What `dispatch` is given: a URL string, or an array of segments that is
      used as it is. */
  datatype Url = Text(s: string) | Segments(segs: seq<string>)

  /** The namespace the router class lives in, the controller prefix until one
      is set. */
  const DefaultControllerPrefix: string := "DCP\\Router"

  /** The URL up to its first "?". */
  function QueryStripped(s: string): (r: string)
    ensures '?' !in r
    ensures r <= s && (r == s || s[|r|] == '?')
  {
    ExplodePieces('?', s);
    Explode('?', s)[0]
  }

  /** The non-empty strings among `pieces`, in their order. */
  function NonEmpty(pieces: seq<string>): (r: seq<string>)
    ensures |r| <= |pieces|
    ensures forall x :: x in r <==> x in pieces && x != ""
  {
    if pieces == [] then []
    else
      var init, last := pieces[..|pieces| - 1], pieces[|pieces| - 1];
      assert forall x :: x in pieces <==> x in init || x == last;
      NonEmpty(init) + (if last == "" then [] else [last])
  }

  /** The segments of a URL string, or None ("absent") when there are none.
      A URL that PHP reads as false ("" or "0") has none, and so has one that
      is nothing but slashes before its query. */
  function Tokenize(url: string): (r: Option<seq<string>>)
    ensures r.Some? ==> r.value != []
    ensures !Truthy(url) ==> r == None
  {
    if !Truthy(url) then None
    else
      var segments := NonEmpty(Explode('/', QueryStripped(url)));
      if segments == [] then None else Some(segments)
  }

  /** The segments `dispatch` routes on; None when the URL is absent or an
      empty array. */
  function Path(url: Url): (r: Option<seq<string>>)
    ensures r.Some? ==> r.value != []
    ensures url.Text? ==> r == Tokenize(url.s)
    ensures url.Segments? ==> (r.Some? <==> url.segs != []) && (r.Some? ==> r.value == url.segs)
  {
    match url
    case Text(s) => Tokenize(s)
    case Segments(segs) => if segs == [] then None else Some(segs)
  }

  /** `isset($components[$key])`: the key is present and not mapped to null. */
  predicate IsSet(components: map<string, Value>, key: string): (b: bool)
    ensures b ==> key in components
    ensures key in components ==> (b <==> components[key] != Null)
  {
    key in components && components[key] != Null
  }

  /** The default controller callback on (name, url): the class is checked
      before the action, and the action gets the segments after its own. */
  function DefaultControllerCall(prefix: string, classes: ClassTable, name: string, url: seq<string>): (r: Result<Invocation>)
    ensures var cls := ControllerClass(prefix, name);
      && (cls !in classes ==> r == Err(NotFound(ClassNotFound(cls))))
      && (cls in classes && !MethodExists(classes, cls, ActionName(url)) ==>
            r == Err(NotFound(MethodNotFound(cls, ActionName(url)))))
      && (cls in classes && MethodExists(classes, cls, ActionName(url)) ==>
            r == Ok(Action(cls, ActionName(url), ActionArgs(url))))
  {
    var cls := ControllerClass(prefix, name);
    var action := ActionName(url);
    if cls !in classes then Err(NotFound(ClassNotFound(cls)))
    else if !MethodExists(classes, cls, action) then Err(NotFound(MethodNotFound(cls, action)))
    else Ok(Action(cls, action, ActionArgs(url)))
  }

  /** The default component callback on (target, url): instantiate the target
      and call the new router's dispatch with the url. */
  function DefaultComponentCall(classes: ClassTable, target: Value, url: seq<string>): (r: Result<Invocation>)
    ensures var created := Instantiate(classes, target);
      r.Ok? <==> created.Ok? && MethodExists(classes, created.value.cls, "dispatch")
    ensures r.Ok? ==> r.value == NestedDispatch(Object(Instantiate(classes, target).value), [StrList(url)])
    ensures r.Err? ==> r.error == EngineError
  {
    match Instantiate(classes, target)
    case Err(e) => Err(e)
    case Ok(instance) => CallDispatch(classes, Object(instance), [StrList(url)])
  }

  /** Running a callback with a node and the remaining segments. The default
      controller callback needs a string node. */
  function CallCallback(callback: Callback, node: Value, url: seq<string>, prefix: string, classes: ClassTable): (r: Result<Invocation>)
    ensures callback == DefaultControllerCallback && node.Str? ==> r == DefaultControllerCall(prefix, classes, node.s, url)
    ensures callback == DefaultControllerCallback && !node.Str? ==> r == Err(EngineError)
    ensures callback == DefaultComponentCallback ==> r == DefaultComponentCall(classes, node, url)
    ensures callback.UserClosure? ==> r == Ok(UserCall(callback.name, node, url))
  {
    match callback
    case DefaultControllerCallback =>
      if node.Str? then DefaultControllerCall(prefix, classes, node.s, url) else Err(EngineError)
    case DefaultComponentCallback => DefaultComponentCall(classes, node, url)
    case UserClosure(name) => Ok(UserCall(name, node, url))
  }

  /** The configuration a router dispatches with. */
  datatype Config = Config(
    components: map<string, Value>,
    componentCallback: Callback,
    controllerCallback: Callback,
    controllerPrefix: string)

  /** What `dispatch(url)` returns under a configuration. */
  function Route(config: Config, url: Url, classes: ClassTable): (r: Result<Invocation>)
    ensures config.controllerCallback == DefaultControllerCallback && Path(url).None? ==>
      r == DefaultControllerCall(config.controllerPrefix, classes, DefaultAction, [])
    ensures config.controllerCallback == DefaultControllerCallback && Path(url).Some? && !IsSet(config.components, Path(url).value[0]) ==>
      r == DefaultControllerCall(config.controllerPrefix, classes, Path(url).value[0], Path(url).value[1..])
    ensures config.componentCallback == DefaultComponentCallback && Path(url).Some? && IsSet(config.components, Path(url).value[0]) ==>
      r == DefaultComponentCall(classes, config.components[Path(url).value[0]], Path(url).value[1..])
  {
    match Path(url)
    case None => CallCallback(config.controllerCallback, Str(DefaultAction), [], config.controllerPrefix, classes)
    case Some(path) =>
      if IsSet(config.components, path[0])
      then CallCallback(config.componentCallback, config.components[path[0]], path[1..], config.controllerPrefix, classes)
      else CallCallback(config.controllerCallback, Str(path[0]), path[1..], config.controllerPrefix, classes)
  }

  class BaseRouter {
    var components: map<string, Value>
    var componentCallback: Callback
    var controllerCallback: Callback
    var controllerPrefix: string

    function State(): Config
      reads this
    {
      Config(components, componentCallback, controllerCallback, controllerPrefix)
    }

    /** An empty table or prefix ("" stands for an omitted one) leaves the
        default in place; both callbacks start as the defaults. */
    constructor(components: map<string, Value>, controllerPrefix: string)
      ensures this.components == components
      ensures this.controllerPrefix == if Truthy(controllerPrefix) then controllerPrefix else DefaultControllerPrefix
      ensures componentCallback == DefaultComponentCallback
      ensures controllerCallback == DefaultControllerCallback
    {
      this.components := map[];
      this.controllerPrefix := DefaultControllerPrefix;
      this.componentCallback := DefaultComponentCallback;
      this.controllerCallback := DefaultControllerCallback;
      new;
      if components != map[] {
        SetComponents(components);
      }
      if Truthy(controllerPrefix) {
        SetControllerPrefix(controllerPrefix);
      }
      var _ := SetComponentCallback(GetDefaultComponentCallback());
      var _ := SetControllerCallback(GetDefaultControllerCallback());
    }

    function GetComponents(): map<string, Value>
      reads this
    {
      components
    }

    method SetComponents(components: map<string, Value>)
      modifies this`components
      ensures GetComponents() == components
    {
      this.components := components;
    }

    function GetControllerPrefix(): string
      reads this
    {
      controllerPrefix
    }

    method SetControllerPrefix(prefix: string)
      modifies this`controllerPrefix
      ensures GetControllerPrefix() == prefix
    {
      controllerPrefix := prefix;
    }

    function GetDefaultComponentCallback(): Value {
      Closure(DefaultComponentCallback)
    }

    function GetDefaultControllerCallback(): Value {
      Closure(DefaultControllerCallback)
    }

    /** Installs a callable; anything else is refused and changes nothing. */
    method SetComponentCallback(callback: Value) returns (r: Outcome)
      modifies this`componentCallback
      ensures IsCallable(callback) ==> r == Done && componentCallback == callback.callback
      ensures !IsCallable(callback) ==> r == Failed(InvalidArgument("Argument is not callable.")) && componentCallback == old(componentCallback)
    {
      if !IsCallable(callback) {
        r := Failed(InvalidArgument("Argument is not callable."));
      } else {
        componentCallback := callback.callback;
        r := Done;
      }
    }

    /** Installs a callable; anything else is refused and changes nothing. */
    method SetControllerCallback(callback: Value) returns (r: Outcome)
      modifies this`controllerCallback
      ensures IsCallable(callback) ==> r == Done && controllerCallback == callback.callback
      ensures !IsCallable(callback) ==> r == Failed(InvalidArgument("Argument is not callable.")) && controllerCallback == old(controllerCallback)
    {
      if !IsCallable(callback) {
        r := Failed(InvalidArgument("Argument is not callable."));
      } else {
        controllerCallback := callback.callback;
        r := Done;
      }
    }

    /** Cuts the URL at its first "?", splits it on "/" and drops the empty
        pieces; FALSE (None) when the URL is false or nothing is left. */
    method ConvertUrlToArray(url: string) returns (r: Option<seq<string>>)
      ensures r == Tokenize(url)
    {
      r := None;
      if Truthy(url) {
        var pieces := Explode('/', Explode('?', url)[0]);
        var kept: seq<string> := [];
        var i := 0;
        while i < |pieces|
          invariant 0 <= i <= |pieces|
          invariant kept == NonEmpty(pieces[..i])
        {
          assert pieces[..i + 1][..i] == pieces[..i];
          if pieces[i] != "" {
            kept := kept + [pieces[i]];
          }
          i := i + 1;
        }
        assert pieces[..i] == pieces;
        if |kept| > 0 {
          r := Some(kept);
        }
      }
    }

    /** Routes an absent path to the controller callback with ("index", []),
        a first segment set in the component table to the component callback
        with (its table entry, the rest), and any other first segment to the
        controller callback with (the segment, the rest); returns what that one
        callback returns. An array is routed as it is. */
    method Dispatch(url: Url, classes: ClassTable) returns (r: Result<Invocation>)
      ensures Path(url) == None ==>
        r == CallCallback(controllerCallback, Str("index"), [], controllerPrefix, classes)
      ensures Path(url).Some? && IsSet(components, Path(url).value[0]) ==>
        r == CallCallback(componentCallback, components[Path(url).value[0]], Path(url).value[1..], controllerPrefix, classes)
      ensures Path(url).Some? && !IsSet(components, Path(url).value[0]) ==>
        r == CallCallback(controllerCallback, Str(Path(url).value[0]), Path(url).value[1..], controllerPrefix, classes)
      ensures r == Route(State(), url, classes)
    {
      var path: Option<seq<string>>;
      if url.Segments? {
        path := if url.segs == [] then None else Some(url.segs);
      } else {
        path := ConvertUrlToArray(url.s);
      }
      if path == None {
        r := CallCallback(controllerCallback, Str("index"), [], controllerPrefix, classes);
      } else {
        var node, rest := path.value[0], path.value[1..];
        if IsSet(components, node) {
          r := CallCallback(componentCallback, components[node], rest, controllerPrefix, classes);
        } else {
          r := CallCallback(controllerCallback, Str(node), rest, controllerPrefix, classes);
        }
      }
    }
  }

  /** Splitting distributes over concatenation. */
  lemma {:induction false} NonEmptyConcat(x: seq<string>, y: seq<string>)
    ensures NonEmpty(x + y) == NonEmpty(x) + NonEmpty(y)
    decreases |y|
  {
    if y == [] {
      assert x + y == x;
    } else {
      var init := y[..|y| - 1];
      assert (x + y)[..|x + y| - 1] == x + init;
      assert (x + y)[|x + y| - 1] == y[|y| - 1];
      NonEmptyConcat(x, init);
    }
  }

  /** Non-empty pieces are all kept. */
  lemma {:induction false} NonEmptyKeepsAll(pieces: seq<string>)
    requires forall i :: 0 <= i < |pieces| ==> pieces[i] != ""
    ensures NonEmpty(pieces) == pieces
    decreases |pieces|
  {
    if pieces != [] {
      var init := pieces[..|pieces| - 1];
      NonEmptyKeepsAll(init);
      assert init + [pieces[|pieces| - 1]] == pieces;
    }
  }

  /** Stripping the query of a string that starts with a "?"-free part keeps
      that part. */
  lemma {:induction false} QueryStrippedKeepsHead(x: string, y: string)
    requires '?' !in x
    ensures QueryStripped(x + y) == x + QueryStripped(y)
  {
    ExplodeWithoutSep('?', x);
    if '?' in y {
      var k :| 0 <= k < |y| && y[k] == '?';
      var q := QueryStripped(y);
      assert q == y[..|q|] && y[|q|] == '?';
      ExplodeConcat('?', x + q, y[|q| + 1..]);
      assert x + y == (x + q) + ['?'] + y[|q| + 1..];
      ExplodeConcat('?', q, y[|q| + 1..]);
      assert y == q + ['?'] + y[|q| + 1..];
      ExplodeWithoutSep('?', q);
      ExplodeWithoutSep('?', x + q);
    } else {
      ExplodeWithoutSep('?', y);
      ExplodeWithoutSep('?', x + y);
    }
  }

  /** Every segment is non-empty and holds neither "/" nor "?". */
  lemma TokenizeWellFormed(url: string)
    ensures Tokenize(url).Some? ==> forall k :: 0 <= k < |Tokenize(url).value| ==>
      var seg := Tokenize(url).value[k]; seg != "" && '/' !in seg && '?' !in seg
  {
    if Tokenize(url).Some? {
      var stripped := QueryStripped(url);
      var pieces := Explode('/', stripped);
      ExplodePieces('/', stripped);
      var segs := Tokenize(url).value;
      forall k | 0 <= k < |segs|
        ensures segs[k] != "" && '/' !in segs[k] && '?' !in segs[k]
      {
        assert segs[k] in pieces;
        var i :| 0 <= i < |pieces| && pieces[i] == segs[k];
        if '?' in segs[k] {
          JoinContains('/', pieces, i, '?');
        }
      }
    }
  }

  /** The query string is ignored: everything from the first "?" on is cut
      before splitting ("0" is the exception, since "0" alone reads as false). */
  lemma TokenizeDropsQuery(path: string, query: string)
    requires '?' !in path && path != "0"
    ensures Tokenize(path + "?" + query) == Tokenize(path)
  {
    var tail := "?" + query;
    assert path + "?" + query == path + tail;
    assert tail == [] + ['?'] + query;
    ExplodeConcat('?', [], query);
    assert QueryStripped(tail) == "";
    QueryStrippedKeepsHead(path, tail);
    ExplodeWithoutSep('?', path);
    assert QueryStripped(path) == path;
    if path == "" {
      assert path + "?" + query == tail;
      assert Explode('/', "") == [""];
      assert NonEmpty([""]) == [];
      assert Tokenize(tail) == None;
    } else {
      assert |path + "?" + query| >= 2;
      assert Truthy(path + "?" + query) && Truthy(path);
      assert path + "" == path;
      assert QueryStripped(path + "?" + query) == path;
    }
  }

  /** A string splits into no non-empty piece exactly when it is nothing but
      slashes. */
  lemma {:induction false} AllSlashes(s: string)
    ensures NonEmpty(Explode('/', s)) == [] <==> forall k :: 0 <= k < |s| ==> s[k] == '/'
    decreases |s|
  {
    if s != [] {
      var rest := Explode('/', s[1..]);
      AllSlashes(s[1..]);
      assert (forall k :: 0 <= k < |s| ==> s[k] == '/') <==>
        s[0] == '/' && forall k :: 0 <= k < |s[1..]| ==> s[1..][k] == '/';
      if s[0] == '/' {
        NonEmptyConcat([""], rest);
        assert NonEmpty([""]) == [];
      } else {
        var first := [s[0]] + rest[0];
        assert Explode('/', s)[0] == first && first != "";
        assert first in NonEmpty(Explode('/', s));
      }
    }
  }

  /** The tokenizer reports an absent path exactly when the URL reads as false
      or is nothing but slashes before its first "?". */
  lemma TokenizeAbsent(url: string)
    ensures Tokenize(url).None? <==>
      !Truthy(url) || forall k :: 0 <= k < |QueryStripped(url)| ==> QueryStripped(url)[k] == '/'
  {
    AllSlashes(QueryStripped(url));
  }

  /** "", "0" and "/" have no segments. */
  lemma TokenizeAbsentExamples(empty: string, zero: string, slash: string)
    requires empty == "" && zero == "0" && slash == "/"
    ensures Tokenize(empty) == None && Tokenize(zero) == None && Tokenize(slash) == None
  {
    TokenizeAbsent(slash);
    ExplodeWithoutSep('?', slash);
  }

  /** Under the default controller callback, "", "0" and "/" are all routed to
      the index controller with no arguments. */
  lemma RouteAbsentToIndex(config: Config, url: string, classes: ClassTable)
    requires config.controllerCallback == DefaultControllerCallback
    requires url == "" || url == "0" || url == "/"
    ensures Route(config, Text(url), classes) == DefaultControllerCall(config.controllerPrefix, classes, "index", [])
  {
    TokenizeAbsentExamples("", "0", "/");
  }

  /** Exploding at a doubled slash leaves an empty piece between the halves. */
  lemma ExplodeDoubleSlash(a: string, q: string)
    ensures Explode('/', a + "//" + q) == Explode('/', a) + [""] + Explode('/', q)
  {
    var slashq := "/" + q;
    assert a + "//" + q == a + ['/'] + slashq;
    ExplodeConcat('/', a, slashq);
    assert slashq == [] + ['/'] + q;
    ExplodeConcat('/', [], q);
  }

  /** An empty piece contributes no segment. */
  lemma NonEmptyDropsEmpty(x: seq<string>, y: seq<string>)
    ensures NonEmpty(x + [""] + y) == NonEmpty(x + y)
  {
    NonEmptyConcat(x + [""], y);
    NonEmptyConcat(x, [""]);
    assert NonEmpty([""]) == [];
    NonEmptyConcat(x, y);
  }

  /** Where the query has been cut, a doubled slash splits like a single one. */
  lemma SplitIgnoresDoubleSlash(a: string, q: string)
    ensures NonEmpty(Explode('/', a + "//" + q)) == NonEmpty(Explode('/', a + "/" + q))
  {
    ExplodeDoubleSlash(a, q);
    assert a + "/" + q == a + ['/'] + q;
    ExplodeConcat('/', a, q);
    NonEmptyDropsEmpty(Explode('/', a), Explode('/', q));
  }

  /** A run of slashes counts as one: "/a//b" splits like "/a/b". */
  lemma TokenizeCollapsesSlashes(a: string, b: string)
    requires '?' !in a
    ensures Tokenize(a + "//" + b) == Tokenize(a + "/" + b)
  {
    var q := QueryStripped(b);
    QueryStrippedKeepsHead(a + "//", b);
    QueryStrippedKeepsHead(a + "/", b);
    assert QueryStripped(a + "//" + b) == a + "//" + q;
    assert QueryStripped(a + "/" + b) == a + "/" + q;
    SplitIgnoresDoubleSlash(a, q);
    assert (a + "//" + b)[|a|] == '/' && (a + "/" + b)[|a|] == '/';
    assert Truthy(a + "//" + b) && Truthy(a + "/" + b);
  }

  /** Segments joined by slashes after a leading slash split back into them. */
  lemma SplitJoined(segments: seq<string>)
    requires segments != []
    requires forall k :: 0 <= k < |segments| ==> segments[k] != "" && '/' !in segments[k]
    ensures NonEmpty(Explode('/', "/" + Join('/', segments))) == segments
  {
    var joined := Join('/', segments);
    assert "/" + joined == [] + ['/'] + joined;
    ExplodeConcat('/', [], joined);
    ExplodeJoin('/', segments);
    assert Explode('/', "/" + joined) == [""] + segments;
    NonEmptyConcat([""], segments);
    assert NonEmpty([""]) == [];
    NonEmptyKeepsAll(segments);
  }

  /** Segments written out after a leading slash are read back unchanged. */
  lemma TokenizeRoundTrip(segments: seq<string>)
    requires segments != []
    requires forall k :: 0 <= k < |segments| ==> segments[k] != "" && '/' !in segments[k] && '?' !in segments[k]
    ensures Tokenize("/" + Join('/', segments)) == Some(segments)
  {
    var url := "/" + Join('/', segments);
    JoinAvoids('/', segments, '?');
    assert '?' !in url;
    ExplodeWithoutSep('?', url);
    assert QueryStripped(url) == url;
    SplitJoined(segments);
    assert url[0] == '/' && Truthy(url);
  }

  /** The runs of slashes in "/x//y///z" count as single slashes. */
  lemma CollapseRuns(x: string, y: string, z: string)
    requires '?' !in x && '?' !in y
    ensures Tokenize("/" + x + "//" + y + "///" + z) == Tokenize("/" + x + "/" + y + "/" + z)
  {
    var ax, axy := "/" + x, "/" + x + "/" + y;
    assert "/" + x + "//" + y + "///" + z == ax + "//" + (y + "///" + z);
    TokenizeCollapsesSlashes(ax, y + "///" + z);
    assert ax + "/" + (y + "///" + z) == axy + "//" + ("/" + z);
    TokenizeCollapsesSlashes(axy, "/" + z);
    assert axy + "/" + ("/" + z) == axy + "//" + z;
    TokenizeCollapsesSlashes(axy, z);
  }

  /** Three segments joined by slashes after a leading slash. */
  lemma JoinThree(x: string, y: string, z: string)
    ensures "/" + Join('/', [x, y, z]) == "/" + x + "/" + y + "/" + z
  {
    var segments := [x, y, z];
    assert segments[1..] == [y, z] && segments[1..][1..] == [z];
    assert Join('/', [y, z]) == y + "/" + z;
  }

  /** Runs of slashes between three segments, as in "/a//b///c", split like
      single slashes. */
  lemma TokenizeRunsOfSlashes(x: string, y: string, z: string)
    requires x != "" && y != "" && z != ""
    requires '/' !in x && '/' !in y && '/' !in z
    requires '?' !in x && '?' !in y && '?' !in z
    ensures Tokenize("/" + x + "//" + y + "///" + z) == Some([x, y, z])
  {
    CollapseRuns(x, y, z);
    JoinThree(x, y, z);
    TokenizeRoundTrip([x, y, z]);
  }

  /** Dispatching a URL string is dispatching its segments. */
  lemma RouteTextAsSegments(config: Config, url: string, classes: ClassTable)
    ensures Tokenize(url).Some? ==> Route(config, Text(url), classes) == Route(config, Segments(Tokenize(url).value), classes)
    ensures Tokenize(url).None? ==> Route(config, Text(url), classes) == Route(config, Segments([]), classes)
  {
  }

  /** With the default component callback, a first segment set in the
      component table goes to a new instance of its table entry, even when a
      controller of that name exists. */
  lemma RouteComponentWins(config: Config, url: Url, classes: ClassTable)
    requires config.componentCallback == DefaultComponentCallback
    requires Path(url).Some? && IsSet(config.components, Path(url).value[0])
    ensures var r := Route(config, url, classes);
      var created := Instantiate(classes, config.components[Path(url).value[0]]);
      && (r.Ok? <==> created.Ok? && MethodExists(classes, created.value.cls, "dispatch"))
      && (r.Ok? ==> r.value == NestedDispatch(Object(created.value), [StrList(Path(url).value[1..])]))
      && (r.Err? ==> r.error == EngineError)
  {
  }

  /** "/name/action" with no component called name resolves the controller
      class from name and calls its action on no arguments; a missing class or
      action is reported by name. */
  lemma RouteTwoSegments(config: Config, name: string, action: string, classes: ClassTable)
    requires config.controllerCallback == DefaultControllerCallback
    requires name != "" && action != ""
    requires '/' !in name && '/' !in action && '?' !in name && '?' !in action
    requires !IsSet(config.components, name)
    ensures var cls := ControllerClass(config.controllerPrefix, name);
      var r := Route(config, Text("/" + name + "/" + action), classes);
      && (cls !in classes ==> r == Err(NotFound(ClassNotFound(cls))))
      && (cls in classes && action + ActionSuffix !in classes[cls] ==>
            r == Err(NotFound(MethodNotFound(cls, action + ActionSuffix))))
      && (cls in classes && action + ActionSuffix in classes[cls] ==>
            r == Ok(Action(cls, action + ActionSuffix, [])))
  {
    var segments := [name, action];
    assert Join('/', segments) == name + "/" + action;
    assert "/" + name + "/" + action == "/" + Join('/', segments);
    TokenizeRoundTrip(segments);
    assert ActionName([action]) == action + ActionSuffix;
    assert ActionArgs([action]) == [];
  }
}
