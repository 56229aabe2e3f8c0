/** The event records shared by controllers and components: the CREATING
    event (a name to resolve and the class it resolves to) and the CREATE event
    (a class and the instance made from it). Each setter returns the event
    itself, so calls can be chained. */
module Event {
  import opened Php
  import opened Results

  /** The record passed with the CREATING events. Both fields start as the
      empty string; the setters accept strings only. */
  class CreatingEvent {
    var name: Value
    var cls: Value

    constructor()
      ensures name == Str("") && cls == Str("")
    {
      name := Str("");
      cls := Str("");
    }

    function GetClass(): Value
      reads this
    {
      cls
    }

    function GetName(): Value
      reads this
    {
      name
    }

    /** Stores a string class name; anything else is refused and changes nothing. */
    method SetClass(c: Value) returns (r: Result<CreatingEvent>)
      modifies this`cls
      ensures IsString(c) ==> r == Ok(this) && GetClass() == c
      ensures !IsString(c) ==> r == Err(InvalidArgument("class must be a string")) && cls == old(cls)
      ensures name == old(name)
    {
      if !IsString(c) {
        return Err(InvalidArgument("class must be a string"));
      }
      cls := c;
      r := Ok(this);
    }

    /** Stores a string name; anything else is refused and changes nothing. */
    method SetName(n: Value) returns (r: Result<CreatingEvent>)
      modifies this`name
      ensures IsString(n) ==> r == Ok(this) && GetName() == n
      ensures !IsString(n) ==> r == Err(InvalidArgument("name must be a string")) && name == old(name)
      ensures cls == old(cls)
    {
      if !IsString(n) {
        return Err(InvalidArgument("name must be a string"));
      }
      name := n;
      r := Ok(this);
    }
  }

  /** The record passed with the CREATE events. Both fields start as null and
      the setters store any value. */
  class CreateEvent {
    var cls: Value
    var instance: Value

    constructor()
      ensures cls == Null && instance == Null
    {
      cls := Null;
      instance := Null;
    }

    function GetClass(): Value
      reads this
    {
      cls
    }

    function GetInstance(): Value
      reads this
    {
      instance
    }

    method SetClass(c: Value) returns (r: CreateEvent)
      modifies this`cls
      ensures r == this && GetClass() == c
      ensures instance == old(instance)
    {
      cls := c;
      r := this;
    }

    method SetInstance(i: Value) returns (r: CreateEvent)
      modifies this`instance
      ensures r == this && GetInstance() == i
      ensures cls == old(cls)
    {
      instance := i;
      r := this;
    }
  }
}
