/** The record passed with a component's DISPATCH events: the nested router
    and the URL segments it is to dispatch. */
module ComponentEvent {
  import opened Php

  /** Both fields start as null; the setters store any value unchecked, each in
      its own field, and return the event itself. */
  class DispatchEvent {
    var component: Value
    var url: Value

    constructor()
      ensures component == Null && url == Null
    {
      component := Null;
      url := Null;
    }

    function GetComponent(): Value
      reads this
    {
      component
    }

    function GetUrl(): Value
      reads this
    {
      url
    }

    method SetComponent(c: Value) returns (r: DispatchEvent)
      modifies this`component
      ensures r == this && GetComponent() == c
      ensures url == old(url)
    {
      component := c;
      r := this;
    }

    method SetUrl(u: Value) returns (r: DispatchEvent)
      modifies this`url
      ensures r == this && GetUrl() == u
      ensures component == old(component)
    {
      url := u;
      r := this;
    }
  }
}
