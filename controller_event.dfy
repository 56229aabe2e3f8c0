/** The record passed with a controller's DISPATCHING, DISPATCH and
    DISPATCHED events: the controller object, the action method to call on it
    and the URL segments left for its arguments. */
module ControllerEvent {
  import opened Php
  import opened Results

  /** All three fields start as null. Each setter checks the type of its value,
      stores it in its own field only, and returns the event itself. */
  class DispatchEvent {
    var controller: Value
    var methodName: Value
    var url: Value

    constructor()
      ensures controller == Null && methodName == Null && url == Null
    {
      controller := Null;
      methodName := Null;
      url := Null;
    }

    function GetController(): Value
      reads this
    {
      controller
    }

    function GetMethod(): Value
      reads this
    {
      methodName
    }

    function GetUrl(): Value
      reads this
    {
      url
    }

    /** Stores an object; anything else is refused and changes nothing. */
    method SetController(c: Value) returns (r: Result<DispatchEvent>)
      modifies this`controller
      ensures IsObject(c) ==> r == Ok(this) && GetController() == c
      ensures !IsObject(c) ==> r == Err(InvalidArgument("controller must be an object")) && controller == old(controller)
      ensures methodName == old(methodName) && url == old(url)
    {
      if !IsObject(c) {
        return Err(InvalidArgument("controller must be an object"));
      }
      controller := c;
      r := Ok(this);
    }

    /** Stores a string; anything else is refused and changes nothing. */
    method SetMethod(m: Value) returns (r: Result<DispatchEvent>)
      modifies this`methodName
      ensures IsString(m) ==> r == Ok(this) && GetMethod() == m
      ensures !IsString(m) ==> r == Err(InvalidArgument("method must be a string")) && methodName == old(methodName)
      ensures controller == old(controller) && url == old(url)
    {
      if !IsString(m) {
        return Err(InvalidArgument("method must be a string"));
      }
      methodName := m;
      r := Ok(this);
    }

    /** Stores an array; anything else is refused and changes nothing. */
    method SetUrl(u: Value) returns (r: Result<DispatchEvent>)
      modifies this`url
      ensures IsArray(u) ==> r == Ok(this) && GetUrl() == u
      ensures !IsArray(u) ==> r == Err(InvalidArgument("url must be an array")) && url == old(url)
      ensures controller == old(controller) && methodName == old(methodName)
    {
      if !IsArray(u) {
        return Err(InvalidArgument("url must be an array"));
      }
      url := u;
      r := Ok(this);
    }
  }
}
