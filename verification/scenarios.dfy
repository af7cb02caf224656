/** Client code against the contracts of `Immutable` alone: the situations the
    repository's tests describe, and what the model says happens in them. */
module Scenarios {
  import opened Values
  import opened PropertyList
  import opened Resolution
  import opened Setters
  import opened Immutable

  function TwoDefaults(a: Value, b: Value): map<string, Value> {
    map["attr1" := a, "attr2" := b]
  }

  method CreateTwoAttributeClass(a: Value, b: Value) returns (cls: ImmutableClass)
    ensures fresh(cls) && cls.Valid()
    ensures cls.props == ["attr1", "attr2"] && cls.defaults == TwoDefaults(a, b)
  {
    assert OwnKeysOf(["attr1", "attr2"], TwoDefaults(a, b));
    cls := Create(TwoDefaults(a, b), ["attr1", "attr2"], []);
    assert ["attr1", "attr2"][..1] == ["attr1"];
    assert WithOwnKeys([], ["attr1"]) == ["attr1"];
  }

  lemma TwoAttributeSetters()
    ensures SetterTable(["attr1", "attr2"]) == map["setAttr1" := "attr1", "setAttr2" := "attr2"]
  {
    assert SetterName("attr1") == "setAttr1";
    assert SetterName("attr2") == "setAttr2";
    assert ["attr1", "attr2"][..1] == ["attr1"];
  }

  /** Positional arguments bind in declared order; no arguments keep the defaults. */
  method PositionalAndDefaults(a: Value, b: Value, x: Value, y: Value) returns (given: Outcome, plain: Outcome)
    ensures given.Constructed? && given.instance.fields == TwoDefaults(x, y)
    ensures plain.Constructed? && plain.instance.fields == TwoDefaults(a, b)
  {
    var cls := CreateTwoAttributeClass(a, b);
    given := cls.New([x, y]);
    PositionalArguments(cls.props, TwoDefaults(a, b), [x, y]);
    plain := cls.New([]);
    NoArgumentsGiveDefaults(cls.props, TwoDefaults(a, b));
  }

  /** `new C()` on a fresh two-attribute class. */
  method ConstructTwoAttributeDefaults(a: Value, b: Value) returns (cls: ImmutableClass, r: Outcome)
    ensures fresh(cls) && cls.Valid() && cls.props == ["attr1", "attr2"]
    ensures cls.setters == map["setAttr1" := "attr1", "setAttr2" := "attr2"]
    ensures r == Constructed(Instance(cls, TwoDefaults(a, b))) && r.instance.Valid()
  {
    cls := CreateTwoAttributeClass(a, b);
    r := cls.New([]);
    NoArgumentsGiveDefaults(cls.props, TwoDefaults(a, b));
    ghost var built := Construct(cls.props, TwoDefaults(a, b), []);
    assert built.fields == TwoDefaults(a, b);
    TwoAttributeSetters();
  }

  /** A setter returns a changed copy in the receiver's class and leaves the
      receiver as it was. */
  method SetterCopies(a: Value, b: Value, v: Value) returns (receiver: Outcome, copy: Outcome)
    ensures receiver.Constructed? && receiver.instance.fields == TwoDefaults(a, b)
    ensures copy.Constructed? && copy.instance.fields == TwoDefaults(a, v)
    ensures copy.instance.cls == receiver.instance.cls
  {
    var cls;
    cls, receiver := ConstructTwoAttributeDefaults(a, b);
    copy := CallSetter(receiver.instance, "setAttr2", v);
    assert copy == Constructed(Instance(cls, TwoDefaults(a, b)["attr2" := v]));
  }

  /** Because `merge` constructs in the object form, a setter call rebinds the
      class's defaults: a later construction without arguments returns the
      value set, not the default the class was created with. */
  method SetterLeaksIntoDefaults(a: Value, b: Value, v: Value) returns (before: Value, after: Value)
    ensures before == b && after == v
  {
    var cls := CreateTwoAttributeClass(a, b);
    var first := cls.New([]);
    NoArgumentsGiveDefaults(cls.props, TwoDefaults(a, b));
    before := first.instance.fields["attr2"];
    TwoAttributeSetters();
    var changed := CallSetter(first.instance, "setAttr2", v);
    var d := cls.defaults;
    var later := cls.New([]);
    NoArgumentsGiveDefaults(cls.props, d);
    after := later.instance.fields["attr2"];
  }

  /** A repeated caller-supplied name given two different values makes the
      constructor throw instead of returning an instance. */
  method RepeatedNameRejected() returns (r: Outcome)
    ensures r == CannotRedefineProperty("a")
  {
    var cls := Create(map[], [], ["a", "a"]);
    r := cls.New([Atom(1), Atom(2)]);
    assert FieldValues(["a", "a"], map[], [Atom(1), Atom(2)]) == [Atom(1), Atom(2)];
    assert ["a", "a"][..1] == ["a"] && [Atom(1), Atom(2)][..1] == [Atom(1)];
    assert Define(["a"], [Atom(1)]) == Built(map["a" := Atom(1)]);
  }
}
