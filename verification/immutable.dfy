/** `create`: the factory that turns a defaults object into a class of
    read-only records, with a `merge` method and one setter per property. */
module Immutable {
  import opened Values
  import opened PropertyList
  import opened Resolution
  import opened Setters

  /** An instance of a generated class: the class it was constructed through and
      its fields. An instance is a value, so no field can change once it is built. */
  datatype Instance = Instance(cls: ImmutableClass, fields: map<string, Value>) {
    /** Its fields are exactly the class's property names. */
    ghost predicate Valid() {
      forall p :: p in fields <==> p in cls.props
    }
  }

  /** What a constructor, `merge` or a setter call returns or throws. */
  datatype Outcome =
    | Constructed(instance: Instance)
    | CannotRedefineProperty(name: string)  // TypeError from Object.defineProperty
    | NotAFunction(name: string)            // TypeError from calling a setter the prototype lacks

  /** The constructor's result for `cls`: the instance, or the TypeError thrown. */
  function Wrap(cls: ImmutableClass, c: Construction): Outcome {
    match c
    case Built(m) => Constructed(Instance(cls, m))
    case CannotRedefine(n) => CannotRedefineProperty(n)
  }

  /** A class returned by `create`. */
  class ImmutableClass {
    /** The property names in declaration order, fixed once `create` has built them. */
    const props: seq<string>
    /** The `defaults` variable the constructor closes over; the object form rebinds it. */
    var defaults: map<string, Value>
    /** The setters on the prototype: each setter name with the property it sets. */
    var setters: map<string, string>

    /** The prototype holds one setter per property, as `create` installs them. */
    ghost predicate Valid()
      reads this
    {
      setters == SetterTable(props)
    }

    /** The `class { ... }` expression: a class over `props` and `defaults`,
        before any setter is installed. */
    constructor (props: seq<string>, defaults: map<string, Value>)
      ensures this.props == props && this.defaults == defaults && setters == map[]
    {
      this.props := props;
      this.defaults := defaults;
      setters := map[];
    }

    /** The loop of `create` that puts a setter for each property on the prototype. */
    method InstallSetters()
      modifies this`setters
      ensures setters == old(setters) + SetterTable(props)
    {
      for i := 0 to |props|
        invariant setters == old(setters) + SetterTable(props[..i])
      {
        assert props[..i + 1][..i] == props[..i];
        setters := setters[SetterName(props[i]) := props[i]];
      }
      assert props[..|props|] == props;
    }

    /** `new C(...args)`: the object form rebinds the defaults first, then each
        property is defined once, read-only, from the arguments or the defaults. */
    method New(args: seq<Value>) returns (r: Outcome)
      modifies this`defaults
      ensures defaults == ReboundDefaults(old(defaults), args)
      ensures r == Wrap(this, Construct(props, old(defaults), args))
      ensures r.Constructed? ==> r.instance.cls == this && r.instance.Valid()
      ensures !r.Constructed? ==> r.CannotRedefineProperty?
    {
      var values := args;
      if |args| == 1 && TypeofIsObject(args[0]) {
        defaults := Assign(defaults, OwnEnumerable(args[0]));
        values := [];
      }
      var c := DefineProperties(props, defaults, values);
      DefineSucceedsUnlessClash(props, FieldValues(props, defaults, values));
      r := Wrap(this, c);
    }
  }

  /** `create(defaults, props)`: the property list is `props` followed by the
      own keys of `defaults` it lacks; the class starts from `defaults` and has
      one setter per property. */
  method Create(defaults: map<string, Value>, ownKeys: seq<string>, props: seq<string>)
    returns (cls: ImmutableClass)
    requires OwnKeysOf(ownKeys, defaults)
    ensures fresh(cls) && cls.Valid()
    ensures cls.props == WithOwnKeys(props, ownKeys)
    ensures cls.defaults == defaults
    ensures forall k :: k in defaults ==> k in cls.props
  {
    var names := AppendOwnKeys(props, ownKeys);
    cls := new ImmutableClass(names, defaults);
    cls.InstallSetters();
    EveryDefaultListed(props, ownKeys, defaults);
  }

  /** `receiver.merge(partial)`: constructs through the receiver's own class,
      in the object form, from a copy of the receiver's fields overridden by
      `partial`. The class's defaults take in that copy. */
  method Merge(receiver: Instance, partial: map<string, Value>) returns (r: Outcome)
    modifies receiver.cls`defaults
    ensures receiver.cls.defaults == old(receiver.cls.defaults) + receiver.fields + partial
    ensures r == Wrap(receiver.cls,
                      Construct(receiver.cls.props, old(receiver.cls.defaults), [MergeArgument(receiver.fields, partial)]))
    ensures receiver.Valid() ==>
      r.Constructed? && r.instance.cls == receiver.cls && r.instance.Valid() &&
      forall p :: p in receiver.fields ==>
        r.instance.fields[p] == if p in partial then partial[p] else receiver.fields[p]
  {
    r := receiver.cls.New([MergeArgument(receiver.fields, partial)]);
    if receiver.Valid() {
      MergeOverrides(receiver.cls.props, old(receiver.cls.defaults), receiver.fields, partial);
    }
  }

  /** `receiver[name](v)`: a setter found on the prototype merges the one
      property it sets; any other name is not a function. */
  method CallSetter(receiver: Instance, name: string, v: Value) returns (r: Outcome)
    modifies receiver.cls`defaults
    ensures name !in receiver.cls.setters ==>
      r == NotAFunction(name) && receiver.cls.defaults == old(receiver.cls.defaults)
    ensures name in receiver.cls.setters ==>
      receiver.cls.defaults == old(receiver.cls.defaults) + receiver.fields + map[receiver.cls.setters[name] := v]
    ensures name in receiver.cls.setters && !(receiver.cls.Valid() && receiver.Valid()) ==>
      var partial := map[receiver.cls.setters[name] := v];
      r == Wrap(receiver.cls,
                Construct(receiver.cls.props, old(receiver.cls.defaults), [MergeArgument(receiver.fields, partial)]))
    ensures name in receiver.cls.setters && receiver.cls.Valid() && receiver.Valid() ==>
      r == Constructed(Instance(receiver.cls, receiver.fields[receiver.cls.setters[name] := v]))
  {
    if name !in receiver.cls.setters {
      return NotAFunction(name);
    }
    var prop := receiver.cls.setters[name];
    r := Merge(receiver, map[prop := v]);
    if receiver.cls.Valid() && receiver.Valid() {
      SetterSetsLastCollidingProperty(receiver.cls.props, name);
      SingleKeyMerge(receiver.cls.props, old(receiver.cls.defaults), receiver.fields, prop, v);
    }
  }
}
