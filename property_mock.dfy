/** The recorder for a mocked property: holds the fake value and remembers whether
    the system under test has read or written it. */
module PropertyMocks {
  import opened Wrappers

  /** `PropertyMock<T>`. */
  class PropertyMock<T> {
    /** The property's name, for diagnostics only; fixed at creation. */
    const name: Option<string>

    /** The fake value. Test code arranges it by assigning this field directly,
        which touches neither flag. */
    var value: Option<T>
    var hasBeenRead: bool
    var hasBeenSet: bool

    constructor (name: Option<string>)
      ensures this.name == name
      ensures value == None && !hasBeenRead && !hasBeenSet
    {
      this.name := name;
      value := None;
      hasBeenRead := false;
      hasBeenSet := false;
    }

    /** The getter path: marks the property as read and returns the fake value.
        Reading a property that has no value is a precondition failure in the source. */
    method Get() returns (v: T)
      requires value.Some?
      modifies this`hasBeenRead
      ensures hasBeenRead
      ensures value == Some(v)
    {
      hasBeenRead := true;
      v := value.value;
    }

    /** The setter path: marks the property as written and stores the new value. */
    method Set(newValue: T)
      modifies this`hasBeenSet, this`value
      ensures hasBeenSet
      ensures value == Some(newValue)
    {
      hasBeenSet := true;
      value := Some(newValue);
    }

    /** Clears the value and both flags; the name stays. */
    method Reset()
      modifies this`value, this`hasBeenRead, this`hasBeenSet
      ensures value == None && !hasBeenRead && !hasBeenSet
    {
      value := None;
      hasBeenRead := false;
      hasBeenSet := false;
    }
  }

  /** The setter and the getter make a round trip on every property mock, and
      afterwards both flags are set. */
  method SetThenGet<T>(p: PropertyMock<T>, v: T) returns (r: T)
    modifies p`value, p`hasBeenRead, p`hasBeenSet
    ensures r == v
    ensures p.value == Some(v) && p.hasBeenRead && p.hasBeenSet
  {
    p.Set(v);
    r := p.Get();
  }

  /** A read followed by a write: the getter returns the value arranged before the
      write, and both flags are raised afterwards. */
  method GetAndSetKeepFlags<T>(p: PropertyMock<T>, v: T) returns (r: T)
    requires p.value.Some?
    modifies p`value, p`hasBeenRead, p`hasBeenSet
    ensures r == old(p.value).value
    ensures p.hasBeenRead && p.hasBeenSet && p.value == Some(v)
  {
    r := p.Get();
    p.Set(v);
  }
}
