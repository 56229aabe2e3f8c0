/** The router's naming convention, shared by BaseRouter's default controller
    callback and MvcRouter's controller listeners: how a path segment names a
    controller class and an action method, and the NotFound messages. */
module Naming {
  import opened Php

  const NamespaceSeparator: string := "\\"
  const ControllerSuffix: string := "Controller"
  const ActionSuffix: string := "Action"
  /** The action used when the path has no segment left for it. */
  const DefaultAction: string := "index"

  /** `prefix\Ucfirst(name)Controller` */
  function ControllerClass(prefix: string, name: string): string {
    prefix + NamespaceSeparator + Ucfirst(name) + ControllerSuffix
  }

  /** The segment that names the action: the first one left, else "index". */
  function ActionStem(url: seq<string>): string {
    if |url| > 0 then url[0] else DefaultAction
  }

  /** The action method: the stem followed by "Action". */
  function ActionName(url: seq<string>): string {
    ActionStem(url) + ActionSuffix
  }

  /** The arguments of the action: what is left once its segment is taken. */
  function ActionArgs(url: seq<string>): seq<string> {
    if |url| > 0 then url[1..] else url
  }

  /** Message of the NotFound raised for a missing class. */
  function ClassNotFound(cls: string): string {
    "Could not find " + cls
  }

  /** Message of the NotFound raised for a missing method. */
  function MethodNotFound(cls: string, action: string): string {
    "Could not find " + cls + "::" + action
  }

  /** Two names select the same controller class exactly when they agree once
      their first letter is upper-cased: "test" and "Test" share a controller. */
  lemma ControllerClassIdentifies(prefix: string, a: string, b: string)
    ensures ControllerClass(prefix, a) == ControllerClass(prefix, b) <==> Ucfirst(a) == Ucfirst(b)
  {
    var ca, cb := ControllerClass(prefix, a), ControllerClass(prefix, b);
    var n := |prefix| + |NamespaceSeparator|;
    if ca == cb {
      assert |Ucfirst(a)| == |Ucfirst(b)|;
      assert Ucfirst(a) == ca[n..n + |Ucfirst(a)|];
      assert Ucfirst(b) == cb[n..n + |Ucfirst(b)|];
    }
  }

  /** The class name is the prefix, a separator, the capitalised name and the
      suffix, in that order, and nothing else. */
  lemma ControllerClassShape(prefix: string, name: string)
    ensures var cls := ControllerClass(prefix, name);
      && |cls| == |prefix| + |name| + 11
      && cls[..|prefix|] == prefix
      && cls[|prefix|] == '\\'
      && cls[|prefix| + 1 + |name|..] == "Controller"
      && (name != [] ==> cls[|prefix| + 1] == UpperChar(name[0]) && cls[|prefix| + 2..|prefix| + 1 + |name|] == name[1..])
  {
    var cls := ControllerClass(prefix, name);
    if name != [] {
      assert cls[|prefix| + 1..|prefix| + 1 + |name|] == Ucfirst(name);
    }
  }

  /** Taking the action consumes exactly the stem's segment: the segment put
      back in front of the arguments is the path again. */
  lemma ActionSplitsPath(url: seq<string>)
    ensures url != [] ==> [ActionStem(url)] + ActionArgs(url) == url
    ensures url == [] ==> ActionArgs(url) == [] && ActionName(url) == "indexAction"
  {
  }

  /** Two paths select the same action method exactly when their stems agree;
      in particular an explicit "index" segment selects the default action. */
  lemma ActionNameIdentifies(u: seq<string>, v: seq<string>)
    ensures ActionName(u) == ActionName(v) <==> ActionStem(u) == ActionStem(v)
  {
    var su, sv := ActionStem(u), ActionStem(v);
    if ActionName(u) == ActionName(v) {
      assert |su| == |sv|;
      assert su == ActionName(u)[..|su|];
      assert sv == ActionName(v)[..|sv|];
    }
  }
}
